/** The shapes the core exchanges: roles, tool-choice modes, tool calls, messages, the agent state,
    and the catalogue entries of tools. `app.schema` and `app.tool` are not part of this model;
    these definitions are the assumptions the core's code makes about them. */
module Schema {
  import opened Wrappers
  import opened Dicts
  import opened Json

  /** The roles `ROLE_VALUES` lists. */
  datatype Role = System | User | Assistant | Tool {
    function Name(): string {
      match this
      case System => "system"
      case User => "user"
      case Assistant => "assistant"
      case Tool => "tool"
    }
  }

  /** A value is one of `ROLE_VALUES` exactly when it is the text of a role. */
  predicate IsRoleValue(j: Json) {
    j == JStr("system") || j == JStr("user") || j == JStr("assistant") || j == JStr("tool")
  }

  /** The modes `TOOL_CHOICE_VALUES` lists. */
  datatype ToolChoice = NoTools | Auto | Required {
    function Name(): string {
      match this
      case NoTools => "none"
      case Auto => "auto"
      case Required => "required"
    }
  }

  datatype AgentState = Idle | Running | Finished | Failed

  /** A tool call: an id, its type, and the function name with its arguments as JSON text. */
  datatype ToolCall = ToolCall(id: string, kind: string, name: string, arguments: string)

  /** A chat message; absent optional fields are `None`, as in the Python object. */
  datatype Message = Message(
    role: Role,
    content: Option<string>,
    toolCalls: Option<seq<ToolCall>>,
    name: Option<string>,
    toolCallId: Option<string>)

  function UserMessage(content: string): Message {
    Message(User, Some(content), None, None, None)
  }

  function SystemMessage(content: string): Message {
    Message(System, Some(content), None, None, None)
  }

  function AssistantMessage(content: Option<string>): Message {
    Message(Assistant, content, None, None, None)
  }

  function CallsMessage(content: Option<string>, calls: seq<ToolCall>): Message {
    Message(Assistant, content, Some(calls), None, None)
  }

  function ToolMessage(content: string, toolCallId: string, name: string): Message {
    Message(Tool, Some(content), None, Some(name), Some(toolCallId))
  }

  /** `{"role": ..., "content": ...}`: the literal message dicts the core writes inline. */
  function Plain(role: string, content: string): Json {
    JObj([("role", JStr(role)), ("content", JStr(content))])
  }

  /** `tool_call.dict()`. */
  function CallObject(c: ToolCall): Json {
    JObj([("id", JStr(c.id)), ("type", JStr(c.kind)),
          ("function", JObj([("name", JStr(c.name)), ("arguments", JStr(c.arguments))]))])
  }

  function OptionalField(key: string, v: Option<Json>): Dict<string, Json> {
    match v
    case None => []
    case Some(j) => [(key, j)]
  }

  /** `Message.to_dict()`: the role, then each optional field that is not `None`. */
  function ToDict(m: Message): Dict<string, Json> {
    var content := match m.content case None => None case Some(c) => Some(JStr(c));
    var calls := match m.toolCalls
      case None => None
      case Some(cs) => Some(JArr(seq(|cs|, i requires 0 <= i < |cs| => CallObject(cs[i]))));
    var name := match m.name case None => None case Some(n) => Some(JStr(n));
    var callId := match m.toolCallId case None => None case Some(n) => Some(JStr(n));
    [("role", JStr(m.role.Name()))] + OptionalField("content", content)
      + OptionalField("tool_calls", calls) + OptionalField("name", name)
      + OptionalField("tool_call_id", callId)
  }

  lemma OptionalFieldHasKey(key: string, v: Option<Json>, k: string)
    ensures HasKey(OptionalField(key, v), k) <==> v.Some? && k == key
  {
  }

  /** `to_dict()` always carries the role's text, and carries `content` (`tool_calls`) exactly when
      the message has one. */
  lemma ToDictKeys(m: Message)
    ensures Get(ToDict(m), "role") == Some(JStr(m.role.Name()))
    ensures HasKey(ToDict(m), "content") <==> m.content.Some?
    ensures HasKey(ToDict(m), "tool_calls") <==> m.toolCalls.Some?
  {
    var d := ToDict(m);
    var a := [("role", JStr(m.role.Name()))];
    var content := match m.content case None => None case Some(c) => Some(JStr(c));
    var calls := match m.toolCalls
      case None => None
      case Some(cs) => Some(JArr(seq(|cs|, i requires 0 <= i < |cs| => CallObject(cs[i]))));
    var name := match m.name case None => None case Some(n) => Some(JStr(n));
    var callId := match m.toolCallId case None => None case Some(n) => Some(JStr(n));
    var b := OptionalField("content", content);
    var c := OptionalField("tool_calls", calls);
    var e := OptionalField("name", name);
    var f := OptionalField("tool_call_id", callId);
    assert d == a + b + c + e + f;
    forall k | k in ["content", "tool_calls"] ensures HasKey(d, k) <==> HasKey(b, k) || HasKey(c, k) {
      HasKeyConcat(a + b + c + e, f, k);
      HasKeyConcat(a + b + c, e, k);
      HasKeyConcat(a + b, c, k);
      HasKeyConcat(a, b, k);
      OptionalFieldHasKey("name", name, k);
      OptionalFieldHasKey("tool_call_id", callId, k);
    }
    OptionalFieldHasKey("content", content, "content");
    OptionalFieldHasKey("content", content, "tool_calls");
    OptionalFieldHasKey("tool_calls", calls, "content");
    OptionalFieldHasKey("tool_calls", calls, "tool_calls");
    assert IndexOf(d, "role") == Some(0);
  }

  /** One entry of a tool catalogue (`to_params()`): a function's name, description and JSON schema
      of its parameters. */
  datatype ToolSpec = ToolSpec(name: string, description: string, parameters: Json)
}
