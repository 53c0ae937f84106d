/** `LLM.ask_tool` (app/llm.py:177-308): a prompted form of tool calling. The tool catalogue and a
    reply format are written into the system message, the completion endpoint is asked, and its
    reply is decoded back into tool calls when it can be. */
module ToolCalling {
  import opened Wrappers
  import opened PyStr
  import opened Dicts
  import opened Json
  import opened Schema
  import opened Gateway
  import opened Decoding
  import opened Prompt

  // ---------------------------------------------------------------- the system message

  /** The dict is a system message: `msg["role"] == "system"`. */
  predicate IsSystem(w: Dict<string, Json>) {
    Get(w, "role") == Some(JStr("system"))
  }

  /** The position of the first system message. */
  function FirstSystem(ws: seq<Dict<string, Json>>): (r: Option<nat>)
    ensures r.Some? ==> r.value < |ws| && IsSystem(ws[r.value])
    ensures r.Some? ==> forall j :: 0 <= j < r.value ==> !IsSystem(ws[j])
    ensures r.None? ==> forall j :: 0 <= j < |ws| ==> !IsSystem(ws[j])
    decreases |ws|
  {
    if |ws| == 0 then None
    else if IsSystem(ws[0]) then Some(0)
    else match FirstSystem(ws[1..])
      case None => None
      case Some(j) => Some(j + 1)
  }

  /** The system message `ask_tool` inserts when there is none. */
  function SystemDict(content: string): Dict<string, Json> {
    [("role", JStr("system")), ("content", JStr(content))]
  }

  /** The loop of app/llm.py:240-248: the instructions are appended to the first system message's
      content after a blank line, or become a new system message at the front. A system message
      without content raises `KeyError`. */
  function Inject(ws: seq<Dict<string, Json>>, instr: string): Result<seq<Dict<string, Json>>, Fault> {
    match FirstSystem(ws)
    case None => Success([SystemDict(instr)] + ws)
    case Some(i) =>
      match Get(ws[i], "content")
      case None => Failure(MissingKey("content"))
      case Some(c) => Success(ws[i := Put(ws[i], "content", JStr(Str(c) + "\n\n" + instr))])
  }

  /** With a system message present, only the first one changes: its content gains a blank line and
      the instructions, every other field and every other message is kept, and it stays the first
      system message. */
  lemma InjectIntoFirst(ws: seq<Dict<string, Json>>, instr: string, i: nat, k: string)
    requires FirstSystem(ws) == Some(i) && HasKey(ws[i], "content")
    ensures Inject(ws, instr).Success?
    ensures var r := Inject(ws, instr).value;
      && |r| == |ws|
      && (forall j :: 0 <= j < |ws| && j != i ==> r[j] == ws[j])
      && Get(r[i], "content") == Some(JStr(Str(Get(ws[i], "content").value) + "\n\n" + instr))
      && (k != "content" ==> Get(r[i], k) == Get(ws[i], k))
      && Keys(r[i]) == Keys(ws[i])
      && FirstSystem(r) == Some(i)
  {
    var c := Get(ws[i], "content").value;
    var v := JStr(Str(c) + "\n\n" + instr);
    PutGet(ws[i], "content", v);
    PutOther(ws[i], "content", v, "role");
    if k != "content" {
      PutOther(ws[i], "content", v, k);
    }
    PutKeys(ws[i], "content", v);
    var r := Inject(ws, instr).value;
    assert IsSystem(r[i]);
    assert forall j :: 0 <= j < i ==> r[j] == ws[j];
    FirstSystemAt(r, i);
  }

  lemma FirstSystemAt(ws: seq<Dict<string, Json>>, i: nat)
    requires i < |ws| && IsSystem(ws[i])
    requires forall j :: 0 <= j < i ==> !IsSystem(ws[j])
    ensures FirstSystem(ws) == Some(i)
  {
    var r := FirstSystem(ws);
    if r.None? || r.value < i {
      assert false;
    } else if r.value > i {
      assert false;
    }
  }

  /** A first system message without content makes the injection raise `KeyError('content')`. */
  lemma InjectMissingContent(ws: seq<Dict<string, Json>>, instr: string, i: nat)
    requires FirstSystem(ws) == Some(i) && !HasKey(ws[i], "content")
    ensures Inject(ws, instr) == Failure(MissingKey("content"))
  {
  }

  /** Without a system message the instructions become one, in front of the unchanged list. */
  lemma InjectFresh(ws: seq<Dict<string, Json>>, instr: string)
    requires FirstSystem(ws).None?
    ensures Inject(ws, instr).Success?
    ensures var r := Inject(ws, instr).value;
      && |r| == |ws| + 1 && r[1..] == ws
      && FirstSystem(r) == Some(0)
      && Get(r[0], "content") == Some(JStr(instr))
  {
    var r := Inject(ws, instr).value;
    assert r[1..] == ws;
    assert IndexOf(r[0], "role") == Some(0);
    assert IndexOf(r[0], "content") == Some(1);
  }

  // ---------------------------------------------------------------- tool calls as messages

  /** A normalised entry as the `ToolCall` the `Message` class builds from it: string id, type,
      function name and arguments. */
  function AsCall(j: Json): Option<ToolCall> {
    if !j.JObj? then None
    else
      var id := Get(j.fields, "id");
      var kind := Get(j.fields, "type");
      var fn := Get(j.fields, "function");
      if !(id.Some? && id.value.JStr? && kind.Some? && kind.value.JStr? && fn.Some? && fn.value.JObj?) then None
      else
        var name := Get(fn.value.fields, "name");
        var args := Get(fn.value.fields, "arguments");
        if !(name.Some? && name.value.JStr? && args.Some? && args.value.JStr?) then None
        else Some(ToolCall(id.value.s, kind.value.s, name.value.s, args.value.s))
  }

  /** `Message(role="assistant", tool_calls=...)` accepts the entries exactly when each one converts. */
  function ToToolCalls(js: seq<Json>): (r: Option<seq<ToolCall>>)
    ensures r.Some? <==> forall i :: 0 <= i < |js| ==> AsCall(js[i]).Some?
    ensures r.Some? ==> |r.value| == |js| && forall i :: 0 <= i < |js| ==> Some(r.value[i]) == AsCall(js[i])
  {
    if forall i :: 0 <= i < |js| ==> AsCall(js[i]).Some? then
      Some(seq(|js|, i requires 0 <= i < |js| => AsCall(js[i]).value))
    else None
  }

  /** A tool call's dict converts back to the same tool call. */
  lemma AsCallRoundTrip(c: ToolCall)
    ensures AsCall(CallObject(c)) == Some(c)
  {
    var j := CallObject(c);
    assert IndexOf(j.fields, "id") == Some(0);
    assert IndexOf(j.fields[1..], "type") == Some(0);
    assert IndexOf(j.fields, "type") == Some(1);
    assert IndexOf(j.fields[2..], "function") == Some(0);
    assert IndexOf(j.fields[1..], "function") == Some(1);
    assert IndexOf(j.fields, "function") == Some(2);
    var fn := j.fields[2].1;
    assert IndexOf(fn.fields, "name") == Some(0);
    assert IndexOf(fn.fields, "arguments") == Some(1);
  }

  /** Converting the dicts of a list of tool calls gives back that list. */
  lemma ToToolCallsRoundTrip(cs: seq<ToolCall>)
    ensures ToToolCalls(seq(|cs|, i requires 0 <= i < |cs| => CallObject(cs[i]))) == Some(cs)
  {
    var js := seq(|cs|, i requires 0 <= i < |cs| => CallObject(cs[i]));
    forall i | 0 <= i < |cs| ensures AsCall(js[i]) == Some(cs[i]) {
      AsCallRoundTrip(cs[i]);
    }
    var r := ToToolCalls(js);
    assert |r.value| == |cs|;
    forall i | 0 <= i < |cs| ensures r.value[i] == cs[i] {
      assert Some(r.value[i]) == AsCall(js[i]);
    }
    assert r.value == cs;
  }

  // ---------------------------------------------------------------- ask_tool

  /** Tools are offered when the list is non-empty and the mode is not "none". */
  predicate Offered(tools: seq<ToolSpec>, choice: string) {
    |tools| > 0 && choice != "none"
  }

  /** What the endpoint is sent: the prepared messages, with the instructions injected when tools
      are offered. */
  function Outgoing(instr: string, messages: seq<Item>, system: seq<Item>, tools: seq<ToolSpec>,
                    choice: string): Result<seq<Dict<string, Json>>, Fault>
  {
    var _ :- ValidateChoice(choice);
    var ws :- Prepare(messages, system);
    if Offered(tools, choice) then Inject(ws, instr)
    else Success(ws)
  }

  /** The reply as a message: decoded tool calls when tools were offered and the reply holds them,
      the reply text as it came otherwise. */
  function Answer(codec: Codec, ids: Ids, offered: bool, text: string): Result<Message, Fault> {
    if !offered then Success(AssistantMessage(Some(text)))
    else
      var d :- DecodeReply(codec, ids, text);
      match d
      case PlainText => Success(AssistantMessage(Some(text)))
      case Calls(cs) =>
        match ToToolCalls(cs)
        case None => Failure(Unconvertible)
        case Some(calls) => Success(CallsMessage(None, calls))
  }

  /** `LLM.ask_tool` with the instruction text already rendered: the steps after
      `tool_instructions` is built. */
  function AskToolWith(endpoint: Endpoint, codec: Codec, ids: Ids, instr: string, messages: seq<Item>,
                       system: seq<Item>, tools: seq<ToolSpec>, choice: string): Result<Message, Fault>
  {
    var sent :- Outgoing(instr, messages, system, tools, choice);
    match endpoint(sent)
    case Raised(e) => Failure(EndpointFailed(e))
    case Returned(text) => Answer(codec, ids, Offered(tools, choice), text)
  }

  /** `LLM.ask_tool`, with the endpoint, the JSON codec, the id drawn for the instructions and the
      ids drawn while decoding as parameters. */
  function AskTool(endpoint: Endpoint, codec: Codec, ids: Ids, instrId: Hex8, messages: seq<Item>,
                   system: seq<Item>, tools: seq<ToolSpec>, choice: string): Result<Message, Fault>
  {
    AskToolWith(endpoint, codec, ids, Instructions(Catalogue(codec, tools), instrId), messages, system, tools, choice)
  }

  /** An unknown mode raises before anything else is looked at or sent. */
  lemma AskToolChoiceFirst(endpoint: Endpoint, codec: Codec, ids: Ids, instr: string, messages: seq<Item>,
                           system: seq<Item>, tools: seq<ToolSpec>, choice: string)
    requires choice != "none" && choice != "auto" && choice != "required"
    ensures AskToolWith(endpoint, codec, ids, instr, messages, system, tools, choice) == Failure(InvalidChoice(choice))
  {
  }

  /** Without tools, or with mode "none", the messages go out as prepared, with no instructions. */
  lemma OutgoingWithoutTools(instr: string, messages: seq<Item>, system: seq<Item>, tools: seq<ToolSpec>,
                             choice: string)
    requires ValidateChoice(choice).Success? && !Offered(tools, choice)
    ensures Outgoing(instr, messages, system, tools, choice) == Prepare(messages, system)
  {
  }

  /** Without tools, or with mode "none", `ask_tool` sends the prepared messages unchanged and
      answers with the reply text as an assistant message, untouched by any decoding. */
  lemma AskToolWithoutTools(endpoint: Endpoint, codec: Codec, ids: Ids, instr: string, messages: seq<Item>,
                            system: seq<Item>, tools: seq<ToolSpec>, choice: string)
    requires ValidateChoice(choice).Success? && !Offered(tools, choice)
    requires Prepare(messages, system).Success?
    requires endpoint(Prepare(messages, system).value).Returned?
    ensures AskToolWith(endpoint, codec, ids, instr, messages, system, tools, choice)
      == Success(AssistantMessage(Some(endpoint(Prepare(messages, system).value).value)))
  {
  }

  /** A successful injection leaves a system message in the list: a new one holding just the
      instructions in front of the unchanged messages when there was none; otherwise the first one,
      whose content gains a blank line and the instructions while every other message is kept. */
  lemma InjectFacts(ws: seq<Dict<string, Json>>, instr: string)
    requires Inject(ws, instr).Success?
    ensures var r := Inject(ws, instr).value;
      && FirstSystem(r).Some?
      && (FirstSystem(ws).None? ==> r == [SystemDict(instr)] + ws)
      && (FirstSystem(ws).Some? ==>
            var i := FirstSystem(ws).value;
            && |r| == |ws| && FirstSystem(r) == Some(i)
            && (forall j :: 0 <= j < |ws| && j != i ==> r[j] == ws[j])
            && Get(r[i], "content") == Some(JStr(Str(Get(ws[i], "content").value) + "\n\n" + instr)))
  {
    match FirstSystem(ws)
    case None =>
      InjectFresh(ws, instr);
    case Some(i) =>
      InjectIntoFirst(ws, instr, i, "content");
  }

  /** With tools offered, the endpoint sees the prepared messages with the instructions in the
      first system message, or in a new one in front when there is none. */
  lemma OutgoingInjects(instr: string, messages: seq<Item>, system: seq<Item>, tools: seq<ToolSpec>,
                        choice: string)
    requires Offered(tools, choice)
    requires Outgoing(instr, messages, system, tools, choice).Success?
    ensures Prepare(messages, system).Success?
    ensures var sent := Outgoing(instr, messages, system, tools, choice).value;
      var ws := Prepare(messages, system).value;
      && FirstSystem(sent).Some?
      && (FirstSystem(ws).None? ==> sent == [SystemDict(instr)] + ws)
      && (FirstSystem(ws).Some? ==>
            var i := FirstSystem(ws).value;
            && |sent| == |ws| && FirstSystem(sent) == Some(i)
            && (forall j :: 0 <= j < |ws| && j != i ==> sent[j] == ws[j])
            && Get(sent[i], "content") == Some(JStr(Str(Get(ws[i], "content").value) + "\n\n" + instr)))
  {
    InjectFacts(Prepare(messages, system).value, instr);
  }

  /** A reply that does not decode to tool calls comes back as an assistant message holding the
      reply text exactly as received, not the stripped candidate. */
  lemma AnswerPlainKeepsText(codec: Codec, ids: Ids, text: string)
    requires DecodeReply(codec, ids, text) == Success(PlainText)
    ensures Answer(codec, ids, true, text) == Success(AssistantMessage(Some(text)))
  {
  }

  /** A reply that decodes to tool calls comes back as an assistant message with those calls and
      no content. */
  lemma AnswerCalls(codec: Codec, ids: Ids, text: string, cs: seq<Json>)
    requires DecodeReply(codec, ids, text) == Success(Calls(cs))
    requires ToToolCalls(cs).Some?
    ensures Answer(codec, ids, true, text).Success?
    ensures var m := Answer(codec, ids, true, text).value;
      m.role == Assistant && m.content.None? && m.toolCalls == Some(ToToolCalls(cs).value)
      && |m.toolCalls.value| == |cs|
  {
  }

  /** Before the request, `ask_tool` raises only for a bad mode, a bad message list, or a system
      message without content. */
  lemma OutgoingFaults(instr: string, messages: seq<Item>, system: seq<Item>, tools: seq<ToolSpec>,
                       choice: string)
    requires Outgoing(instr, messages, system, tools, choice).Failure?
    ensures var e := Outgoing(instr, messages, system, tools, choice).error;
      || e == InvalidChoice(choice) || e.MissingRole? || e.UnsupportedType? || e.InvalidRole? || e.NoBody?
      || e == MissingKey("content")
  {
    if ValidateChoice(choice).Success? && Prepare(messages, system).Failure? {
      if |system| > 0 && FormatMessages(system).Failure? {
        FormatFaults(system);
      } else {
        FormatFaults(messages);
      }
    }
  }

  /** Reading the reply raises only a `TypeError` from decoding, or the `Message` class's
      rejection of the decoded calls. */
  lemma AnswerFaults(codec: Codec, ids: Ids, offered: bool, text: string)
    requires Answer(codec, ids, offered, text).Failure?
    ensures var e := Answer(codec, ids, offered, text).error;
      e.TypeFault? || e.Unconvertible?
  {
    DecodeRaisesOnlyTypeErrors(codec, ids, text);
  }

  /** `ask_tool` raises only what its steps raise: a bad mode or message list, a system message
      without content, a failed request, a `TypeError` from decoding, or tool calls the `Message`
      class rejects. A `KeyError` from decoding never escapes. */
  lemma AskToolFaults(endpoint: Endpoint, codec: Codec, ids: Ids, instr: string, messages: seq<Item>,
                      system: seq<Item>, tools: seq<ToolSpec>, choice: string)
    requires AskToolWith(endpoint, codec, ids, instr, messages, system, tools, choice).Failure?
    ensures var e := AskToolWith(endpoint, codec, ids, instr, messages, system, tools, choice).error;
      || e == InvalidChoice(choice) || e.MissingRole? || e.UnsupportedType? || e.InvalidRole? || e.NoBody?
      || e == MissingKey("content") || e.EndpointFailed? || e.TypeFault? || e.Unconvertible?
  {
    var sent := Outgoing(instr, messages, system, tools, choice);
    if sent.Failure? {
      OutgoingFaults(instr, messages, system, tools, choice);
    } else if endpoint(sent.value).Returned? {
      AnswerFaults(codec, ids, Offered(tools, choice), endpoint(sent.value).value);
    }
  }
}
