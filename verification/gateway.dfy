/** The request side of `LLM.ask` and `LLM.ask_tool` (app/llm.py): validating and ordering the message
    list before it is sent. The completion endpoint itself is a parameter. */
module Gateway {
  import opened Wrappers
  import opened Dicts
  import opened Json
  import opened Schema

  /** One element of a `messages` argument: a dict, a `Message`, or an object of another type. */
  datatype Item = DictItem(d: Dict<string, Json>) | MessageItem(m: Message) | OtherItem(typeName: string)

  /** Why a call of `ask` or `ask_tool` raised. */
  datatype Fault =
    | MissingRole                        // ValueError: a dict without a "role" field
    | UnsupportedType(typeName: string)  // TypeError: neither a dict nor a Message
    | InvalidRole(role: Json)            // ValueError: a role outside ROLE_VALUES
    | NoBody                             // ValueError: neither "content" nor "tool_calls"
    | InvalidChoice(choice: string)      // ValueError: a tool_choice outside TOOL_CHOICE_VALUES
    | MissingKey(key: string)            // KeyError
    | TypeFault(text: string)            // TypeError raised while decoding a reply
    | Unconvertible                      // a decoded tool call the Message class rejects
    | UnexpectedKeyword(name: string)    // TypeError: a keyword argument `ask` does not take
    | EndpointFailed(text: string)       // the request to the completion endpoint raised

  /** The completion endpoint (`_ollama_ask`): the reply text for a formatted message list, or the
      text of what it raised. */
  type Endpoint = seq<Dict<string, Json>> -> Outcome<string>

  // ---------------------------------------------------------------- format_messages

  /** The first pass of `format_messages` on one element: a dict must carry a role; a `Message`
      becomes its dict. */
  function Admit(item: Item): Result<Dict<string, Json>, Fault> {
    match item
    case DictItem(d) => if HasKey(d, "role") then Success(d) else Failure(MissingRole)
    case MessageItem(m) => Success(ToDict(m))
    case OtherItem(t) => Failure(UnsupportedType(t))
  }

  /** The second pass on one formatted dict: a known role, and a content or tool calls. */
  function Check(w: Dict<string, Json>): Option<Fault>
    requires HasKey(w, "role")
  {
    var role := Get(w, "role").value;
    if !IsRoleValue(role) then Some(InvalidRole(role))
    else if !HasKey(w, "content") && !HasKey(w, "tool_calls") then Some(NoBody)
    else None
  }

  lemma AdmitHasRole(item: Item)
    ensures Admit(item).Success? ==> HasKey(Admit(item).value, "role")
  {
    if item.MessageItem? {
      ToDictKeys(item.m);
    }
  }

  function AdmitAll(items: seq<Item>): (r: Result<seq<Dict<string, Json>>, Fault>)
    ensures r.Success? ==> |r.value| == |items|
    ensures r.Success? ==> forall i :: 0 <= i < |items| ==> Admit(items[i]) == Success(r.value[i])
    ensures r.Success? ==> forall i :: 0 <= i < |items| ==> HasKey(r.value[i], "role")
    decreases |items|
  {
    if |items| == 0 then Success([])
    else
      AdmitHasRole(items[0]);
      var head :- Admit(items[0]);
      var tail :- AdmitAll(items[1..]);
      Success([head] + tail)
  }

  function CheckAll(ws: seq<Dict<string, Json>>): Option<Fault>
    requires forall i :: 0 <= i < |ws| ==> HasKey(ws[i], "role")
    decreases |ws|
  {
    if |ws| == 0 then None
    else match Check(ws[0])
      case Some(f) => Some(f)
      case None => CheckAll(ws[1..])
  }

  /** `LLM.format_messages`: every element is admitted in order, then every dict is checked in order;
      the first problem raises. */
  function FormatMessages(items: seq<Item>): Result<seq<Dict<string, Json>>, Fault> {
    var ws :- AdmitAll(items);
    match CheckAll(ws)
    case Some(f) => Failure(f)
    case None => Success(ws)
  }

  /** The element is a dict with a role, or a `Message`. */
  predicate Admissible(item: Item) {
    Admit(item).Success?
  }

  /** The element passes both passes of `format_messages`. */
  predicate WellFormed(item: Item) {
    Admit(item).Success? && Check(Admit(item).value).None?
  }

  lemma {:induction false} AdmitAllIff(items: seq<Item>)
    ensures AdmitAll(items).Success? <==> forall i :: 0 <= i < |items| ==> Admissible(items[i])
    decreases |items|
  {
    if |items| > 0 {
      AdmitAllIff(items[1..]);
      assert forall i :: 1 <= i < |items| ==> items[i] == items[1..][i - 1];
    }
  }

  lemma {:induction false} CheckAllIff(ws: seq<Dict<string, Json>>)
    requires forall i :: 0 <= i < |ws| ==> HasKey(ws[i], "role")
    ensures CheckAll(ws).None? <==> forall i :: 0 <= i < |ws| ==> Check(ws[i]).None?
    decreases |ws|
  {
    if |ws| > 0 {
      CheckAllIff(ws[1..]);
      assert forall i :: 1 <= i < |ws| ==> ws[i] == ws[1..][i - 1];
    }
  }

  /** `format_messages` keeps the number and the order of the messages: the i-th result is the i-th
      element as a dict (a dict as it is, a `Message` through `to_dict()`). */
  lemma FormatKeepsOrder(items: seq<Item>)
    requires FormatMessages(items).Success?
    ensures |FormatMessages(items).value| == |items|
    ensures forall i :: 0 <= i < |items| ==>
      FormatMessages(items).value[i] == (if items[i].DictItem? then items[i].d else ToDict(items[i].m))
  {
  }

  /** `format_messages` succeeds exactly when every element is a dict with a role or a `Message`, and
      each has a role from `ROLE_VALUES` and a content or tool calls. */
  lemma FormatSucceedsIff(items: seq<Item>)
    ensures FormatMessages(items).Success? <==> forall i :: 0 <= i < |items| ==> WellFormed(items[i])
  {
    AdmitAllIff(items);
    var r := AdmitAll(items);
    if r.Success? {
      CheckAllIff(r.value);
    }
  }

  /** An element that is not admitted raises before any checking, even when an earlier element
      would fail the check: the first element that is not admitted decides the error. */
  lemma {:induction false} FormatFirstInadmissible(items: seq<Item>, k: nat)
    requires k < |items| && !Admissible(items[k])
    requires forall j :: 0 <= j < k ==> Admissible(items[j])
    ensures FormatMessages(items) == Failure(Admit(items[k]).error)
  {
    AdmitAllFails(items, k);
  }

  lemma {:induction false} AdmitAllFails(items: seq<Item>, k: nat)
    requires k < |items| && !Admissible(items[k])
    requires forall j :: 0 <= j < k ==> Admissible(items[j])
    ensures AdmitAll(items) == Failure(Admit(items[k]).error)
    decreases k
  {
    if k > 0 {
      AdmitAllFails(items[1..], k - 1);
    }
  }

  /** When every element is admitted, the first one failing the check decides the error. */
  lemma FormatFirstIllFormed(items: seq<Item>, k: nat)
    requires forall i :: 0 <= i < |items| ==> Admissible(items[i])
    requires k < |items| && Admit(items[k]).Success? && !WellFormed(items[k])
    requires forall j :: 0 <= j < k ==> WellFormed(items[j])
    ensures FormatMessages(items) == Failure(Check(Admit(items[k]).value).value)
  {
    AdmitAllIff(items);
    var ws := AdmitAll(items).value;
    CheckAllFails(ws, k);
  }

  lemma {:induction false} CheckAllFails(ws: seq<Dict<string, Json>>, k: nat)
    requires forall i :: 0 <= i < |ws| ==> HasKey(ws[i], "role")
    requires k < |ws| && Check(ws[k]).Some?
    requires forall j :: 0 <= j < k ==> Check(ws[j]).None?
    ensures CheckAll(ws) == Check(ws[k])
    decreases k
  {
    if k > 0 {
      CheckAllFails(ws[1..], k - 1);
    }
  }

  lemma {:induction false} AdmitAllFaults(items: seq<Item>)
    requires AdmitAll(items).Failure?
    ensures AdmitAll(items).error.MissingRole? || AdmitAll(items).error.UnsupportedType?
    decreases |items|
  {
    if Admit(items[0]).Success? {
      AdmitAllFaults(items[1..]);
    }
  }

  lemma {:induction false} CheckAllFaults(ws: seq<Dict<string, Json>>)
    requires forall i :: 0 <= i < |ws| ==> HasKey(ws[i], "role")
    requires CheckAll(ws).Some?
    ensures CheckAll(ws).value.InvalidRole? || CheckAll(ws).value.NoBody?
    decreases |ws|
  {
    if Check(ws[0]).None? {
      CheckAllFaults(ws[1..]);
    }
  }

  /** `format_messages` raises only its own validation errors. */
  lemma FormatFaults(items: seq<Item>)
    requires FormatMessages(items).Failure?
    ensures var e := FormatMessages(items).error;
      e.MissingRole? || e.UnsupportedType? || e.InvalidRole? || e.NoBody?
  {
    var r := AdmitAll(items);
    if r.Failure? {
      AdmitAllFaults(items);
    } else {
      CheckAllFaults(r.value);
    }
  }

  // ---------------------------------------------------------------- ask

  /** The message list `ask` and `ask_tool` send: when system messages are given, they are formatted
      first and placed before the formatted conversation. */
  function Prepare(messages: seq<Item>, system: seq<Item>): Result<seq<Dict<string, Json>>, Fault> {
    if |system| > 0 then
      var s :- FormatMessages(system);
      var m :- FormatMessages(messages);
      Success(s + m)
    else FormatMessages(messages)
  }

  /** The system messages come first, then the conversation, each formatted on its own; a bad
      system message raises before the conversation is looked at. */
  lemma PrepareOrder(messages: seq<Item>, system: seq<Item>)
    ensures |system| > 0 && FormatMessages(system).Failure? ==>
      Prepare(messages, system) == Failure(FormatMessages(system).error)
    ensures Prepare(messages, system).Success? <==>
      FormatMessages(system).Success? && FormatMessages(messages).Success?
    ensures Prepare(messages, system).Success? ==>
      Prepare(messages, system).value == FormatMessages(system).value + FormatMessages(messages).value
    ensures Prepare(messages, system).Success? ==>
      |Prepare(messages, system).value| == |system| + |messages|
  {
    FormatSucceedsIff([]);
    if FormatMessages(system).Success? {
      FormatKeepsOrder(system);
    }
    if FormatMessages(messages).Success? {
      FormatKeepsOrder(messages);
    }
  }

  /** `LLM.ask`: prepare the message list, then send it. */
  function Ask(endpoint: Endpoint, messages: seq<Item>, system: seq<Item>): Result<string, Fault> {
    var ws :- Prepare(messages, system);
    match endpoint(ws)
    case Returned(text) => Success(text)
    case Raised(e) => Failure(EndpointFailed(e))
  }

  /** The one-message dict `{"role": "user", "content": prompt}` the core writes inline. */
  function PromptItem(prompt: string): Item {
    DictItem([("role", JStr("user")), ("content", JStr(prompt))])
  }

  /** `ask(messages=[{"role": "user", "content": prompt}])`. */
  function AskPrompt(endpoint: Endpoint, prompt: string): Result<string, Fault> {
    Ask(endpoint, [PromptItem(prompt)], [])
  }

  /** A single user prompt always passes validation, so asking it sends exactly that one message
      and reports exactly what the endpoint did. */
  lemma AskPromptSends(endpoint: Endpoint, prompt: string)
    ensures endpoint([PromptItem(prompt).d]).Returned? ==>
      AskPrompt(endpoint, prompt) == Success(endpoint([PromptItem(prompt).d]).value)
    ensures endpoint([PromptItem(prompt).d]).Raised? ==>
      AskPrompt(endpoint, prompt) == Failure(EndpointFailed(endpoint([PromptItem(prompt).d]).text))
  {
    var d := PromptItem(prompt).d;
    assert IndexOf(d, "role") == Some(0);
    assert IndexOf(d, "content") == Some(1);
    assert Admit(PromptItem(prompt)) == Success(d);
    assert [PromptItem(prompt)][1..] == [];
    assert AdmitAll([]) == Success([]);
    assert [d] + [] == [d];
    assert AdmitAll([PromptItem(prompt)]) == Success([d]);
    assert Check(d).None?;
    assert [d][1..] == [];
    assert CheckAll([d]).None?;
  }

  // ---------------------------------------------------------------- tool_choice

  /** The `tool_choice not in TOOL_CHOICE_VALUES` guard of `ask_tool`. */
  function ValidateChoice(choice: string): (r: Result<ToolChoice, Fault>)
    ensures r.Success? ==> r.value.Name() == choice
    ensures r.Failure? ==> r.error == InvalidChoice(choice)
  {
    if choice == "none" then Success(NoTools)
    else if choice == "auto" then Success(Auto)
    else if choice == "required" then Success(Required)
    else Failure(InvalidChoice(choice))
  }

  /** Every mode's own text is accepted, and nothing else is. */
  lemma ValidateChoiceExact(choice: string)
    ensures ValidateChoice(choice).Success? <==> exists c: ToolChoice :: c.Name() == choice
  {
    if exists c: ToolChoice :: c.Name() == choice {
      var c: ToolChoice :| c.Name() == choice;
      assert c.NoTools? || c.Auto? || c.Required?;
    }
  }
}
