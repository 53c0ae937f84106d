/** `ToolCallAgent` (app/agent/toolcall.py): one think/act step of the agent, the execution of a
    single tool call, and the summary that closes a run. The agent is a record; the model's reply
    to `ask_tool`, the completion endpoint behind `ask`, the JSON decoder and the tool collection
    are inputs, so every step is a function. */
module Agent {
  import opened Wrappers
  import opened PyStr
  import opened Dicts
  import opened Json
  import opened Schema
  import opened Gateway
  import opened Envelope

  /** `TOOL_CALL_REQUIRED`. */
  const ToolCallRequired: string := "Tool calls required but none provided"

  /** The fields of the agent the step logic reads and writes. `tool_calls` being `None` behaves
      as the empty list everywhere it is read. `max_observe` is an integer, with `None` and `False`
      as 0 and `True` as 1. */
  datatype Agent = Agent(
    memory: seq<Message>,
    toolCalls: seq<ToolCall>,
    choice: ToolChoice,
    state: AgentState,
    nextStepPrompt: string,
    toolNames: seq<string>,
    specialNames: seq<string>,
    maxObserve: int,
    originalQuestion: string,
    toolResults: seq<string>,
    finalSummary: string)

  /** The two prompts the agent sends through `LLM().ask` on its own: the question asked directly
      (`_generate_fallback_summary`) and the request for a final answer (`_generate_summary`). */
  datatype Request = Direct(question: string) | Summary(question: string)

  /** The text of a request, indented as the literal is: twelve spaces. */
  function Wording(r: Request): string {
    match r
    case Direct(q) => q + " Keep your answer simple and under 150 words."
    case Summary(q) => Asking(q, "            ")
  }

  /** The text of the summary request, laid out with `indent`: every line of the literal, the
      blank one included, starts with the indentation. */
  function Asking(q: string, indent: string): string {
    "\n" + indent + "Please provide a clear answer to this question: \"" + q
    + ("\""
      + "\n" + indent
      + "\n" + indent + "Keep your answer direct, informative, and under 200 words."
      + "\n" + indent)
  }

  /** Every request quotes its question in full. The direct question is followed by the length
      limit on the same line; the summary request, at the literal's twelve-space indentation,
      reads line by line as the literal does. */
  lemma WordingQuotes(r: Request)
    ensures Contains(Wording(r), r.question)
    ensures r.Direct? ==> Wording(r) == r.question + " Keep your answer simple and under 150 words."
    ensures r.Summary? ==>
      Wording(r) ==
          "\n" + "            " + "Please provide a clear answer to this question: \"" + r.question
        + ("\""
          + "\n" + "            "
          + "\n" + "            " + "Keep your answer direct, informative, and under 200 words."
          + "\n" + "            ")
  {
    match r
    case Direct(q) =>
      ContainsMiddle([], q, " Keep your answer simple and under 150 words.");
      assert [] + q + " Keep your answer simple and under 150 words." == Wording(r);
    case Summary(q) =>
      AskingQuotes(q, "            ");
  }

  /** The summary request quotes its question, whatever the indentation. */
  lemma AskingQuotes(q: string, indent: string)
    ensures Contains(Asking(q, indent), q)
  {
    ContainsMiddle("\n" + indent + "Please provide a clear answer to this question: \"", q,
      "\""
      + "\n" + indent
      + "\n" + indent + "Keep your answer direct, informative, and under 200 words."
      + "\n" + indent);
  }

  /** What a tool raised: a `json.JSONDecodeError`, which the `except` of `execute_tool` tells
      apart from the rest, or any other exception, with its text `str(e)`. */
  datatype ToolFault = JsonDecode | Other(text: string)

  /** What the agent talks to: `LLM().ask` answering a request, Python's JSON decoder, and
      `available_tools.execute`, which returns a value or raises. */
  datatype World = World(
    ask: Request -> Result<string, Fault>,
    codec: Codec,
    execute: (string, Json) -> Result<Json, ToolFault>)

  /** The world whose `ask` sends the request's text as the single user message to a completion
      endpoint. */
  function Through(endpoint: Endpoint, codec: Codec, execute: (string, Json) -> Result<Json, ToolFault>): (w: World)
    ensures forall r :: w.ask(r) == AskPrompt(endpoint, Wording(r))
  {
    World(r => AskPrompt(endpoint, Wording(r)), codec, execute)
  }

  /** A message is recorded at the end of memory. */
  function Remember(a: Agent, m: Message): (r: Agent)
    ensures r.memory == a.memory + [m]
    ensures r == a.(memory := a.memory + [m])
  {
    a.(memory := a.memory + [m])
  }

  /** Python's truth value of an optional text. */
  predicate HasText(s: Option<string>) {
    s.Some? && |s.value| > 0
  }

  // ---------------------------------------------------------------- the summaries

  /** `_generate_fallback_summary`: ask the question directly and frame the answer; if that
      raises, frame an apology quoting the question. It never raises and changes only
      `final_summary`. */
  function Fallback(a: Agent, w: World): (r: Agent)
    ensures r.finalSummary != ""
    ensures r == a.(finalSummary := r.finalSummary)
  {
    match w.ask(Direct(a.originalQuestion))
    case Success(answer) => a.(finalSummary := Framed(answer))
    case Failure(_) => a.(finalSummary := Framed(Apology(a.originalQuestion)))
  }

  /** The fallback keeps everything but `final_summary`, which frames the direct answer when the
      question could be asked, and the apology otherwise. */
  lemma FallbackOutcome(a: Agent, w: World)
    ensures var asked := w.ask(Direct(a.originalQuestion));
      && (asked.Success? ==> Fallback(a, w).finalSummary == Framed(asked.value))
      && (asked.Failure? ==> Fallback(a, w).finalSummary == Framed(Apology(a.originalQuestion)))
  {
  }

  /** A user message with non-empty content: what the search for the question looks for. */
  predicate Asks(m: Message) {
    m.role == User && HasText(m.content)
  }

  /** The content of the first user message with non-empty content, or "" if there is none. */
  function FirstUserText(ms: seq<Message>): (q: string)
    ensures q != "" <==> exists i :: 0 <= i < |ms| && Asks(ms[i])
    ensures q != "" ==>
      exists i :: 0 <= i < |ms| && Asks(ms[i]) && ms[i].content == Some(q) && (forall j :: 0 <= j < i ==> !Asks(ms[j]))
    decreases |ms|
  {
    if |ms| == 0 then ""
    else if Asks(ms[0]) then ms[0].content.value
    else
      var rest := ms[1..];
      var q := FirstUserText(rest);
      assert forall i :: 1 <= i < |ms| ==> ms[i] == rest[i - 1];
      assert (exists i :: 0 <= i < |ms| && Asks(ms[i])) ==> exists i :: 0 <= i < |rest| && Asks(rest[i]);
      assert q != "" ==>
        exists i :: 0 <= i < |ms| && Asks(ms[i]) && ms[i].content == Some(q) && (forall j :: 0 <= j < i ==> !Asks(ms[j]))
      by {
        if q != "" {
          var i :| 0 <= i < |rest| && Asks(rest[i]) && rest[i].content == Some(q) && (forall j :: 0 <= j < i ==> !Asks(rest[j]));
          assert ms[i + 1] == rest[i];
        }
      }
      q
  }

  /** The question `_generate_summary` asks about: the stored one, or else the first user text. */
  function SummaryQuestion(a: Agent): string {
    if a.originalQuestion != "" then a.originalQuestion else FirstUserText(a.memory)
  }

  /** `args.get("status", "success") if args else "success"`, inserted with `str`: a falsy or
      absent `args` gives "success"; a dict gives its "status" entry or "success"; any other truthy
      value has no `get` and raises `AttributeError`. */
  function Status(args: Option<Json>): Result<string, string> {
    if args.None? || !Truthy(args.value) then Success("success")
    else match args.value
      case JObj(fields) => Success(Str(Get(fields, "status").GetOr(JStr("success"))))
      case _ => Failure("'" + TypeName(args.value) + "' object has no attribute 'get'")
  }

  /** The text `_generate_summary` returns when anything in it raises. */
  const Completion: string := "The interaction has been completed."

  /** `_generate_summary`: the answer to the question, recorded in memory as a `FINAL ANSWER:`
      message and returned inside the envelope with the status line. If the request or the
      status lookup raises, the fallback runs and a bare completion line is returned. */
  function Summarise(a: Agent, args: Option<Json>, w: World): (r: (Agent, string))
    ensures r.0 == a.(memory := r.0.memory, finalSummary := r.0.finalSummary)
  {
    match w.ask(Summary(SummaryQuestion(a)))
    case Failure(_) => (Fallback(a, w), Completion)
    case Success(summary) =>
      var a1 := Remember(a, AssistantMessage(Some("FINAL ANSWER: " + summary)));
      match Status(args)
      case Failure(_) => (Fallback(a1, w), Completion)
      case Success(status) => (a1, Completed(status, summary))
  }

  /** The summary always yields text. On success it is the status line and the framed answer,
      which the server extracts back as the stripped answer when neither marker occurs in the
      status or the answer; otherwise it is the completion line, with `final_summary` set by the
      fallback. */
  lemma SummariseOutcome(a: Agent, args: Option<Json>, w: World)
    ensures Summarise(a, args, w).1 != ""
    ensures var asked := w.ask(Summary(SummaryQuestion(a)));
      var (a1, text) := Summarise(a, args, w);
      && (asked.Success? && Status(args).Success? ==>
            && text == Completed(Status(args).value, asked.value)
            && a1 == Remember(a, AssistantMessage(Some("FINAL ANSWER: " + asked.value)))
            && ((!Contains(Status(args).value, Open) && !Contains(asked.value, Open) && !Contains(asked.value, Close))
                  ==> FinalAnswer(text) == Some(Strip(asked.value))))
      && (asked.Failure? ==> a1 == Fallback(a, w) && text == Completion)
      && (asked.Success? && Status(args).Failure? ==>
            a1 == Fallback(Remember(a, AssistantMessage(Some("FINAL ANSWER: " + asked.value))), w)
            && text == Completion)
  {
    var asked := w.ask(Summary(SummaryQuestion(a)));
    if asked.Success? && Status(args).Success? {
      var status, summary := Status(args).value, asked.value;
      if !Contains(status, Open) && !Contains(summary, Open) && !Contains(summary, Close) {
        ExtractCompleted(status, summary);
      }
    }
  }

  /** Without arguments the status is "success". */
  lemma StatusDefault()
    ensures Status(None) == Success("success")
  {
  }

  // ---------------------------------------------------------------- special tools

  /** `_is_special_tool`: the name, lower-cased, is one of the special names, lower-cased. */
  predicate IsSpecial(a: Agent, name: string) {
    LowerIn(Lower(name), a.specialNames)
  }

  /** Some name of `names`, lower-cased, is `x`. */
  predicate LowerIn(x: string, names: seq<string>)
    decreases |names|
  {
    |names| > 0 && (Lower(names[0]) == x || LowerIn(x, names[1..]))
  }

  /** `_handle_special_tool`: only a special tool whose name is `terminate` in any case finishes the
      run, storing the summary as `final_summary`; `_should_finish_execution` always agrees. */
  function HandleSpecial(a: Agent, name: string, args: Option<Json>, w: World): (r: Agent)
    ensures r == a.(memory := r.memory, finalSummary := r.finalSummary, state := r.state)
  {
    if IsSpecial(a, name) && Lower(name) == "terminate" then
      var (a1, summary) := Summarise(a, args, w);
      a1.(finalSummary := summary, state := Finished)
    else a
  }

  /** A special tool finishes the run exactly when it is `terminate`; then `final_summary` is the
      summary's text, even when the summary fell back and the fallback had set it otherwise. */
  lemma HandleSpecialOutcome(a: Agent, name: string, args: Option<Json>, w: World)
    ensures var r := HandleSpecial(a, name, args, w);
      && (IsSpecial(a, name) && Lower(name) == "terminate" ==>
            r.state == Finished && r.finalSummary == Summarise(a, args, w).1 && r.finalSummary != "")
      && (!(IsSpecial(a, name) && Lower(name) == "terminate") ==> r == a)
  {
    SummariseOutcome(a, args, w);
  }

  // ---------------------------------------------------------------- execute_tool

  /** What `execute_tool` reports for one call. */
  datatype Report =
    | Malformed                        // the call has no function name
    | Unknown(name: string)            // the name is not in the tool collection
    | Unparsable(name: string)         // the arguments are not JSON, or the tool raised `JSONDecodeError`
    | Broke(name: string, error: string)   // the browser guard or the tool raised anything else
    | Observed(name: string, result: Json) // the tool returned

  /** The report on arguments that are not JSON. */
  function ParsingError(name: string): string {
    "Error: Error parsing arguments for " + name + ": Invalid JSON format"
  }

  /** The report on any other exception, with its text. */
  function ProblemError(name: string, e: string): string {
    "Error: \U{26a0}\U{fe0f} Tool '" + name + "' encountered a problem: " + e
  }

  /** The text `execute_tool` returns for a report. */
  function Render(rep: Report): string {
    match rep
    case Malformed => "Error: Invalid command format"
    case Unknown(name) => "Error: Unknown tool '" + name + "'"
    case Unparsable(name) => ParsingError(name)
    case Broke(name, e) => ProblemError(name, e)
    case Observed(name, result) =>
      if Truthy(result) then "Observed output of cmd `" + name + "` executed:\n" + Str(result)
      else "Cmd `" + name + "` completed with no output"
  }

  /** The text is an error report. */
  predicate IsError(s: string) {
    |s| >= 7 && s[..7] == "Error: "
  }

  /** The text of a report starts with "Error: " exactly when the tool did not return. */
  lemma RenderError(rep: Report)
    ensures IsError(Render(rep)) <==> !rep.Observed?
  {
    match rep
    case Malformed =>
    case Unknown(name) =>
      assert Render(rep)[..7] == ("Error: " + ("Unknown tool '" + name + "'"))[..7];
    case Unparsable(name) =>
      assert Render(rep)[..7] == ("Error: " + ("Error parsing arguments for " + name + ": Invalid JSON format"))[..7];
    case Broke(name, e) =>
      assert Render(rep)[..7] == ("Error: " + ("\U{26a0}\U{fe0f} Tool '" + name + "' encountered a problem: " + e))[..7];
    case Observed(name, result) =>
      assert Render(rep)[0] == (if Truthy(result) then 'O' else 'C');
  }

  /** The `browser_use` guard: without an "action", the arguments gain `action='navigate'` and, if
      they have no "url", `url='https://example.com'`. The `in` test and the item assignment raise
      `TypeError` on values that do not support them. */
  function BrowserDefaults(name: string, args: Json): Result<Json, string> {
    if name != "browser_use" then Success(args)
    else match args
      case JObj(f) =>
        if HasKey(f, "action") then Success(args)
        else
          var f1 := Put(f, "action", JStr("navigate"));
          if HasKey(f1, "url") then Success(JObj(f1)) else Success(JObj(Put(f1, "url", JStr("https://example.com"))))
      case JArr(items) =>
        if JStr("action") in items then Success(args) else Failure("list indices must be integers or slices, not str")
      case JStr(s) =>
        if Contains(s, "action") then Success(args) else Failure("'str' object does not support item assignment")
      case _ => Failure("argument of type '" + TypeName(args) + "' is not iterable")
  }

  /** The browser guard adds only what is missing: an existing action leaves the arguments alone;
      otherwise the action becomes "navigate", an existing url is kept, a missing one becomes the
      example address, and every other entry is kept. */
  lemma BrowserDefaultsFacts(f: Dict<string, Json>, k: string)
    requires k != "action" && k != "url"
    ensures HasKey(f, "action") ==> BrowserDefaults("browser_use", JObj(f)) == Success(JObj(f))
    ensures !HasKey(f, "action") ==>
      var r := BrowserDefaults("browser_use", JObj(f));
      && r.Success? && r.value.JObj?
      && Get(r.value.fields, "action") == Some(JStr("navigate"))
      && (HasKey(f, "url") ==> Get(r.value.fields, "url") == Get(f, "url"))
      && (!HasKey(f, "url") ==> Get(r.value.fields, "url") == Some(JStr("https://example.com")))
      && Get(r.value.fields, k) == Get(f, k)
  {
    if !HasKey(f, "action") {
      var f1 := Put(f, "action", JStr("navigate"));
      PutGet(f, "action", JStr("navigate"));
      PutOther(f, "action", JStr("navigate"), "url");
      PutOther(f, "action", JStr("navigate"), k);
      if !HasKey(f1, "url") {
        PutGet(f1, "url", JStr("https://example.com"));
        PutOther(f1, "url", JStr("https://example.com"), "action");
        PutOther(f1, "url", JStr("https://example.com"), k);
      }
    }
  }

  /** Tools other than `browser_use` get their arguments as decoded. */
  lemma BrowserDefaultsOther(name: string, args: Json)
    requires name != "browser_use"
    ensures BrowserDefaults(name, args) == Success(args)
  {
  }

  /** `command.function.arguments or "{}"`. */
  function RawArguments(call: ToolCall): string {
    if call.arguments == "" then "{}" else call.arguments
  }

  /** A call without arguments is run with the empty dict, given a decoder that reads back what the
      encoder writes. */
  lemma MissingArgumentsAreEmpty(call: ToolCall, c: Codec)
    requires Lawful(c) && call.arguments == ""
    ensures c.loads(RawArguments(call)) == Some(JObj([]))
  {
    assert c.loads(c.dumps(JObj([]))) == Some(JObj([]));
  }

  /** The arguments a known tool would be run with, or why it cannot be. */
  function Arguments(call: ToolCall, w: World): Result<Json, Report> {
    match w.codec.loads(RawArguments(call))
    case None => Failure(Unparsable(call.name))
    case Some(parsed) =>
      match BrowserDefaults(call.name, parsed)
      case Failure(e) => Failure(Broke(call.name, e))
      case Success(args) => Success(args)
  }

  /** `execute_tool`: the report on one call; it never raises. A `JSONDecodeError` raised by the
      tool is caught by the same `except` as one raised while parsing the arguments. Special
      handling runs only after the tool returned. */
  function ExecuteTool(a: Agent, call: ToolCall, w: World): (r: (Agent, Report))
    ensures r.0 == a.(memory := r.0.memory, finalSummary := r.0.finalSummary, state := r.0.state)
  {
    var name := call.name;
    if name == "" then (a, Malformed)
    else if name !in a.toolNames then (a, Unknown(name))
    else match Arguments(call, w)
      case Failure(rep) => (a, rep)
      case Success(args) =>
        match w.execute(name, args)
        case Failure(JsonDecode) => (a, Unparsable(name))
        case Failure(Other(e)) => (a, Broke(name, e))
        case Success(result) => (HandleSpecial(a, name, Some(args), w), Observed(name, result))
  }

  /** `execute_tool` reports an observation exactly when the call names a known tool whose
      arguments decode and pass the browser guard, and the tool returns; the observation carries
      what it returned, and only then can the agent change. */
  lemma ExecuteToolOutcome(a: Agent, call: ToolCall, w: World)
    ensures var (r, rep) := ExecuteTool(a, call, w);
      && (rep.Observed? <==>
            call.name != "" && call.name in a.toolNames && Arguments(call, w).Success?
            && w.execute(call.name, Arguments(call, w).value).Success?)
      && (rep.Observed? ==>
            && rep == Observed(call.name, w.execute(call.name, Arguments(call, w).value).value)
            && r == HandleSpecial(a, call.name, Some(Arguments(call, w).value), w))
      && (!rep.Observed? ==> r == a)
      && (IsError(Render(rep)) <==> !rep.Observed?)
  {
    RenderError(ExecuteTool(a, call, w).1);
  }

  /** The text `execute_tool` returns for each way a call can fail: no name, an unknown name,
      arguments that are not JSON or a tool that raised `JSONDecodeError` (both the parsing
      message), a guard or tool that raised anything else (its text after the warning sign). */
  lemma ExecuteToolFailures(a: Agent, call: ToolCall, w: World)
    ensures var name := call.name; var text := Render(ExecuteTool(a, call, w).1);
      && (name == "" ==> text == "Error: Invalid command format")
      && (name != "" && name !in a.toolNames ==> text == "Error: Unknown tool '" + name + "'")
      && (name != "" && name in a.toolNames ==>
            var parsed := w.codec.loads(RawArguments(call));
            && (parsed.None? ==> text == ParsingError(name))
            && (parsed.Some? && BrowserDefaults(name, parsed.value).Failure? ==>
                  text == ProblemError(name, BrowserDefaults(name, parsed.value).error))
            && (parsed.Some? && BrowserDefaults(name, parsed.value).Success? ==>
                  var out := w.execute(name, BrowserDefaults(name, parsed.value).value);
                  && (out == Failure(JsonDecode) ==> text == ParsingError(name))
                  && (out.Failure? && out.error.Other? ==> text == ProblemError(name, out.error.text))))
  {
  }

  /** A tool that is not special never changes the agent. */
  lemma ExecuteToolPlain(a: Agent, call: ToolCall, w: World)
    requires !IsSpecial(a, call.name)
    ensures ExecuteTool(a, call, w).0 == a
  {
  }

  // ---------------------------------------------------------------- act

  /** `result[:max_observe]` when `max_observe` is truthy: a falsy bound keeps the text whole, a
      positive one keeps at most that many leading characters, and a negative one drops that many
      trailing characters, as Python's slicing does. */
  function Observe(a: Agent, s: string): (r: string)
    ensures |r| <= |s| && r == s[..|r|]
    ensures a.maxObserve == 0 ==> r == s
    ensures a.maxObserve > 0 ==> |r| <= a.maxObserve && |r| == Min(a.maxObserve, |s|)
    ensures a.maxObserve < 0 ==> |r| == (if |s| + a.maxObserve <= 0 then 0 else |s| + a.maxObserve)
  {
    if a.maxObserve != 0 then SlicePrefix(s, a.maxObserve) else s
  }

  /** One pass of the loop of `act`: run the call, cut its text to `max_observe`, and record the
      result in `tool_results` and as a tool message answering the call. */
  function RunCall(a: Agent, call: ToolCall, w: World): (r: (Agent, string))
    ensures r.0.toolResults == a.toolResults + [call.name + ": " + r.1]
    ensures r.0 == a.(memory := r.0.memory, finalSummary := r.0.finalSummary, state := r.0.state,
                      toolResults := r.0.toolResults)
    ensures a.maxObserve > 0 ==> |r.1| <= a.maxObserve
  {
    var (a1, rep) := ExecuteTool(a, call, w);
    var out := Observe(a1, Render(rep));
    (Remember(a1, ToolMessage(out, call.id, call.name)).(toolResults := a1.toolResults + [call.name + ": " + out]), out)
  }

  /** A call that is not special adds exactly its tool message and changes nothing else that
      matters to the run. */
  lemma RunCallPlain(a: Agent, call: ToolCall, w: World)
    requires !IsSpecial(a, call.name)
    ensures var (r, out) := RunCall(a, call, w);
      r.memory == a.memory + [ToolMessage(out, call.id, call.name)]
      && r.state == a.state && r.finalSummary == a.finalSummary
  {
    ExecuteToolPlain(a, call, w);
  }

  /** The loop of `act` over the pending calls. */
  function RunCalls(a: Agent, calls: seq<ToolCall>, w: World): (r: (Agent, seq<string>))
    ensures |r.1| == |calls|
    ensures r.0 == a.(memory := r.0.memory, finalSummary := r.0.finalSummary, state := r.0.state,
                      toolResults := r.0.toolResults)
    decreases |calls|
  {
    if |calls| == 0 then (a, [])
    else
      var (a1, out) := RunCall(a, calls[0], w);
      var (a2, rest) := RunCalls(a1, calls[1..], w);
      (a2, [out] + rest)
  }

  /** The `tool_results` entries for calls and their results, in order. */
  function Labels(calls: seq<ToolCall>, rs: seq<string>): (r: seq<string>)
    requires |rs| == |calls|
    ensures |r| == |calls|
    ensures forall i :: 0 <= i < |calls| ==> r[i] == calls[i].name + ": " + rs[i]
    decreases |calls|
  {
    if |calls| == 0 then [] else [calls[0].name + ": " + rs[0]] + Labels(calls[1..], rs[1..])
  }

  /** The tool messages answering calls with their results, in order. */
  function Answers(calls: seq<ToolCall>, rs: seq<string>): (r: seq<Message>)
    requires |rs| == |calls|
    ensures |r| == |calls|
    ensures forall i :: 0 <= i < |calls| ==> r[i] == ToolMessage(rs[i], calls[i].id, calls[i].name)
    decreases |calls|
  {
    if |calls| == 0 then [] else [ToolMessage(rs[0], calls[0].id, calls[0].name)] + Answers(calls[1..], rs[1..])
  }

  /** Concatenation regroups. */
  lemma Regroup<T>(x: seq<T>, y: seq<T>, z: seq<T>)
    ensures x + y + z == x + (y + z)
  {
  }

  /** The report on a call depends on the agent only through its tool names. */
  lemma ReportByTools(a: Agent, b: Agent, call: ToolCall, w: World)
    requires a.toolNames == b.toolNames
    ensures ExecuteTool(a, call, w).1 == ExecuteTool(b, call, w).1
  {
  }

  /** Result `i` of the loop is the report on call `i`, cut to `max_observe`: earlier calls do not
      change what a later call reports. */
  lemma {:induction false} RunCallsReports(a: Agent, calls: seq<ToolCall>, w: World)
    ensures var rs := RunCalls(a, calls, w).1;
      forall i :: 0 <= i < |calls| ==> rs[i] == Observe(a, Render(ExecuteTool(a, calls[i], w).1))
    decreases |calls|
  {
    if |calls| > 0 {
      var a1 := RunCall(a, calls[0], w).0;
      RunCallsReports(a1, calls[1..], w);
      var rs := RunCalls(a, calls, w).1;
      assert rs[1..] == RunCalls(a1, calls[1..], w).1;
      forall i | 0 < i < |calls|
        ensures rs[i] == Observe(a, Render(ExecuteTool(a, calls[i], w).1))
      {
        assert calls[1..][i - 1] == calls[i];
        ReportByTools(a1, a, calls[i], w);
      }
    }
  }

  /** One result per call, in call order: result `i` is the report on call `i`, cut to
      `max_observe`, and `tool_results` gains `name: result` for each. */
  lemma {:induction false} RunCallsResults(a: Agent, calls: seq<ToolCall>, w: World)
    ensures var (r, rs) := RunCalls(a, calls, w);
      && r.toolResults == a.toolResults + Labels(calls, rs)
      && (forall i :: 0 <= i < |calls| ==> rs[i] == Observe(a, Render(ExecuteTool(a, calls[i], w).1)))
      && (a.maxObserve > 0 ==> forall i :: 0 <= i < |rs| ==> |rs[i]| <= a.maxObserve)
    decreases |calls|
  {
    RunCallsReports(a, calls, w);
    if |calls| > 0 {
      var (a1, out) := RunCall(a, calls[0], w);
      RunCallsResults(a1, calls[1..], w);
      var (r, rest) := RunCalls(a1, calls[1..], w);
      var rs := [out] + rest;
      assert rs[1..] == rest;
      assert Labels(calls, rs) == [calls[0].name + ": " + out] + Labels(calls[1..], rest);
      Regroup(a.toolResults, [calls[0].name + ": " + out], Labels(calls[1..], rest));
    } else {
      assert a.toolResults + Labels(calls, []) == a.toolResults;
    }
  }

  /** Calls none of which is special leave the state and the summary alone and add exactly one tool
      message per call, in order, each answering its call by id and name. */
  lemma {:induction false} RunCallsPlain(a: Agent, calls: seq<ToolCall>, w: World)
    requires forall i :: 0 <= i < |calls| ==> !IsSpecial(a, calls[i].name)
    ensures var (r, rs) := RunCalls(a, calls, w);
      && r.memory == a.memory + Answers(calls, rs)
      && r.state == a.state && r.finalSummary == a.finalSummary
    decreases |calls|
  {
    if |calls| > 0 {
      var (a1, out) := RunCall(a, calls[0], w);
      RunCallPlain(a, calls[0], w);
      assert forall i :: 0 <= i < |calls[1..]| ==> calls[1..][i] == calls[i + 1];
      RunCallsPlain(a1, calls[1..], w);
      var (r, rest) := RunCalls(a1, calls[1..], w);
      var rs := [out] + rest;
      assert rs[1..] == rest;
      assert Answers(calls, rs) == [ToolMessage(out, calls[0].id, calls[0].name)] + Answers(calls[1..], rest);
      Regroup(a.memory, [ToolMessage(out, calls[0].id, calls[0].name)], Answers(calls[1..], rest));
    } else {
      assert a.memory + Answers(calls, []) == a.memory;
    }
  }

  /** `act`: with no pending calls, the last message's content, or a fixed text when it has none,
      unless calls are required; otherwise the results of the calls joined by blank lines. Reading
      the last message of an empty memory raises `IndexError`. */
  function Act(a: Agent, w: World): Result<(Agent, string), string> {
    if |a.toolCalls| == 0 then
      if a.choice == Required then Failure(ToolCallRequired)
      else if |a.memory| == 0 then Failure("list index out of range")
      else
        var last := a.memory[|a.memory| - 1].content;
        Success((a, if HasText(last) then last.value else "No content or commands to execute"))
    else
      var (a1, results) := RunCalls(a, a.toolCalls, w);
      Success((a1, Join("\n\n", results)))
  }

  /** Without pending calls `act` raises under mode "required", raises `IndexError` on an empty
      memory, and otherwise changes nothing and answers with the last message's text or the fixed
      text. */
  lemma ActWithoutCalls(a: Agent, w: World)
    requires |a.toolCalls| == 0
    ensures a.choice == Required ==> Act(a, w) == Failure(ToolCallRequired)
    ensures a.choice != Required && |a.memory| == 0 ==> Act(a, w) == Failure("list index out of range")
    ensures a.choice != Required && |a.memory| > 0 ==>
      var last := a.memory[|a.memory| - 1].content;
      && Act(a, w).Success? && Act(a, w).value.0 == a
      && (HasText(last) ==> Act(a, w).value.1 == last.value)
      && (!HasText(last) ==> Act(a, w).value.1 == "No content or commands to execute")
  {
  }

  /** With pending calls `act` never raises: it joins one result per call with blank lines. */
  lemma ActWithCalls(a: Agent, w: World)
    requires |a.toolCalls| > 0
    ensures Act(a, w).Success?
    ensures var (a1, rs) := RunCalls(a, a.toolCalls, w);
      Act(a, w).value == (a1, Join("\n\n", rs)) && |rs| == |a.toolCalls|
  {
  }

  // ---------------------------------------------------------------- think

  /** Recording the reply, or, if recording raises (inside the unseen `Message` and `Memory`
      classes), an error message instead, with the step reporting no progress. */
  function Record(a: Agent, m: Message, snag: Option<string>, progress: bool): (Agent, bool) {
    match snag
    case None => (Remember(a, m), progress)
    case Some(e) => (Remember(a, AssistantMessage(Some("Error encountered while processing: " + e))), false)
  }

  /** The memory after the next-step prompt, which is added as a user message when non-empty. */
  function Prompted(a: Agent): Agent {
    if a.nextStepPrompt != "" then Remember(a, UserMessage(a.nextStepPrompt)) else a
  }

  /** `think`, with the reply to `ask_tool` and what recording it raised as inputs. A failed
      request runs the fallback summary and finishes the agent. */
  function Think(a: Agent, reply: Outcome<Message>, snag: Option<string>, w: World): (Agent, bool) {
    var a0 := Prompted(a);
    match reply
    case Raised(_) => (Fallback(a0, w).(state := Finished), false)
    case Returned(m) =>
      var calls := m.toolCalls.GetOr([]);
      var a1 := a0.(toolCalls := calls);
      if a.choice == NoTools then
        if HasText(m.content) then Record(a1, AssistantMessage(m.content), snag, true)
        else (a1, false)
      else if |calls| > 0 then Record(a1, CallsMessage(m.content, calls), snag, true)
      else Record(a1, AssistantMessage(m.content), snag, a.choice == Required || HasText(m.content))
  }

  /** Mode "none": the step makes progress exactly when the reply has text, which is then the one
      message recorded after the prompt; without text nothing but the prompt is recorded. */
  lemma ThinkWithoutTools(a: Agent, m: Message, w: World)
    requires a.choice == NoTools
    ensures var (r, progress) := Think(a, Returned(m), None, w);
      && (progress <==> HasText(m.content))
      && (HasText(m.content) ==> r.memory == Prompted(a).memory + [AssistantMessage(m.content)])
      && (!HasText(m.content) ==> r.memory == Prompted(a).memory)
      && (a.nextStepPrompt != "" ==> Prompted(a).memory == a.memory + [UserMessage(a.nextStepPrompt)])
      && (a.nextStepPrompt == "" ==> Prompted(a).memory == a.memory)
  {
  }

  /** Other modes: exactly one assistant message follows the prompt, carrying the calls when there
      are any; the step makes progress with calls, under "required" without them, and under
      "auto" exactly when the reply has text. */
  lemma ThinkWithTools(a: Agent, m: Message, w: World)
    requires a.choice != NoTools
    ensures var (r, progress) := Think(a, Returned(m), None, w);
      var calls := m.toolCalls.GetOr([]);
      && r.toolCalls == calls
      && |r.memory| == |Prompted(a).memory| + 1 && r.memory[..|Prompted(a).memory|] == Prompted(a).memory
      && r.memory[|Prompted(a).memory|].role == Assistant
      && r.memory[|Prompted(a).memory|].content == m.content
      && (|calls| > 0 ==> r.memory[|Prompted(a).memory|].toolCalls == Some(calls) && progress)
      && (|calls| == 0 && a.choice == Required ==> progress)
      && (|calls| == 0 && a.choice == Auto ==> (progress <==> HasText(m.content)))
  {
  }

  /** A recording failure leaves an error message and reports no progress. */
  lemma ThinkRecordingFails(a: Agent, m: Message, e: string, w: World)
    requires a.choice != NoTools || HasText(m.content)
    ensures var (r, progress) := Think(a, Returned(m), Some(e), w);
      && !progress
      && r.memory == Prompted(a).memory + [AssistantMessage(Some("Error encountered while processing: " + e))]
  {
  }

  /** A failed request never escapes `think`: the agent finishes with the fallback summary set and
      reports no progress; its pending calls are left as they were. */
  lemma ThinkRequestFails(a: Agent, e: string, snag: Option<string>, w: World)
    ensures var (r, progress) := Think(a, Raised(e), snag, w);
      && !progress && r.state == Finished
      && r.finalSummary == Fallback(Prompted(a), w).finalSummary && r.finalSummary != ""
      && r.toolCalls == a.toolCalls && r.memory == Prompted(a).memory
  {
    FallbackOutcome(Prompted(a), w);
  }

  // ---------------------------------------------------------------- run

  /** `run`, with the step loop of the base class (not part of this model) as an input that
      returns the agent it leaves behind and whether it raised. The question is stored and
      `tool_results` reset, but `final_summary` is not. */
  function Run(a: Agent, question: string, loop: Agent -> (Agent, Outcome<string>), w: World): (r: (Agent, string))
  {
    var (a1, outcome) := loop(a.(originalQuestion := question, toolResults := []));
    match outcome
    case Raised(_) =>
      var a2 := Fallback(a1, w);
      (a2, a2.finalSummary)
    case Returned(_) =>
      if a1.finalSummary != "" then (a1, a1.finalSummary)
      else
        var (a2, summary) := Summarise(a1, None, w);
        (a2.(finalSummary := summary), summary)
  }

  /** `run` always returns non-empty text, and it is the agent's `final_summary`. */
  lemma RunAnswers(a: Agent, question: string, loop: Agent -> (Agent, Outcome<string>), w: World)
    ensures var (r, text) := Run(a, question, loop, w);
      text != "" && text == r.finalSummary && r.originalQuestion == loop(a.(originalQuestion := question, toolResults := [])).0.originalQuestion
  {
    var (a1, outcome) := loop(a.(originalQuestion := question, toolResults := []));
    if outcome.Returned? && a1.finalSummary == "" {
      SummariseOutcome(a1, None, w);
    }
  }

  /** When the loop ends normally without a summary and the summary request fails, the fallback
      runs but its answer is overwritten: `run` returns the bare completion line. */
  lemma RunOverwritesFallback(a: Agent, question: string, loop: Agent -> (Agent, Outcome<string>), w: World)
    requires var (a1, outcome) := loop(a.(originalQuestion := question, toolResults := []));
      outcome.Returned? && a1.finalSummary == ""
      && w.ask(Summary(SummaryQuestion(a1))).Failure?
    ensures Run(a, question, loop, w).1 == Completion
    ensures Run(a, question, loop, w).0.finalSummary == Completion
  {
  }

  /** When the loop ends normally with a summary already stored, `run` returns it untouched. */
  lemma RunKeepsSummary(a: Agent, question: string, loop: Agent -> (Agent, Outcome<string>), w: World)
    requires var (a1, outcome) := loop(a.(originalQuestion := question, toolResults := []));
      outcome.Returned? && a1.finalSummary != ""
    ensures Run(a, question, loop, w) == (loop(a.(originalQuestion := question, toolResults := [])).0,
                                          loop(a.(originalQuestion := question, toolResults := [])).0.finalSummary)
  {
  }
}
