/** The multi-agent pipeline (app/swarm/multi_agent_pipeline.py): three agents that all talk through
    the one `LLM("default")` object, a routing step that sends a query to the browser agent or to
    the researcher, and a synthesis step. What the model answers is an input. */
module Pipeline {
  import opened Wrappers
  import opened PyStr
  import opened Dicts
  import opened Json
  import opened Schema
  import opened Gateway
  import opened Registry

  /** What the model answers: `ask` and `ask_tool` with one user prompt, for the settings the
      request is sent with, and `str(e)` of what a failed call raised. */
  datatype Oracle = Oracle(
    ask: (Settings, string) -> Result<string, Fault>,
    askTool: (Settings, string) -> Result<Message, Fault>,
    explain: Fault -> string)

  // ---------------------------------------------------------------- calling `ask`

  /** The keyword parameters `LLM.ask` declares. */
  const AskParameters: seq<string> := ["messages", "system_msgs", "stream", "temperature"]

  /** The first keyword of a call that `accepted` does not declare. */
  function Unaccepted(keywords: seq<string>, accepted: seq<string>): (r: Option<string>)
    ensures r.None? <==> forall i :: 0 <= i < |keywords| ==> keywords[i] in accepted
    ensures r.Some? ==> r.value in keywords && r.value !in accepted
    decreases |keywords|
  {
    if |keywords| == 0 then None
    else if keywords[0] !in accepted then Some(keywords[0])
    else
      var r := Unaccepted(keywords[1..], accepted);
      assert forall i :: 1 <= i < |keywords| ==> keywords[i] == keywords[1..][i - 1];
      r
  }

  /** The settings a request goes out with: `temperature or self.temperature`, so a zero
      temperature argument is ignored. */
  function Effective(s: Settings, temperature: Option<real>): Settings {
    if temperature.Some? && temperature.value != 0.0 then s.(temperature := temperature.value) else s
  }

  /** `llm.ask(...)` called with the given keywords: Python rejects a keyword `ask` does not declare
      before any of its code runs. */
  function AskWith(o: Oracle, s: Settings, prompt: string, keywords: seq<string>, temperature: Option<real>)
    : (r: Result<string, Fault>)
    ensures Unaccepted(keywords, AskParameters).Some? ==> r == Failure(UnexpectedKeyword(Unaccepted(keywords, AskParameters).value))
  {
    match Unaccepted(keywords, AskParameters)
    case Some(k) => Failure(UnexpectedKeyword(k))
    case None => o.ask(Effective(s, temperature), prompt)
  }

  /** `process_task` calls `ask` with `timeout`, which it does not declare, so that call fails
      whatever the model would have said. */
  lemma TimeoutRejected(o: Oracle, s: Settings, prompt: string)
    ensures AskWith(o, s, prompt, ["messages", "stream", "timeout"], None) == Failure(UnexpectedKeyword("timeout"))
  {
    assert "messages" == AskParameters[0] && "stream" == AskParameters[2];
    assert "timeout" !in AskParameters;
  }

  /** The synthesis call is accepted, and goes out at its own temperature of 0.2. */
  lemma SynthesisCallAccepted(o: Oracle, s: Settings, prompt: string)
    ensures AskWith(o, s, prompt, ["messages", "stream", "temperature"], Some(0.2)) == o.ask(s.(temperature := 0.2), prompt)
  {
    assert "messages" == AskParameters[0] && "stream" == AskParameters[2] && "temperature" == AskParameters[3];
  }

  /** A call with only `messages` and `stream` is sent as it is. */
  lemma PlainCallAccepted(o: Oracle, s: Settings, prompt: string)
    ensures AskWith(o, s, prompt, ["messages", "stream"], None) == o.ask(s, prompt)
  {
    assert "messages" == AskParameters[0] && "stream" == AskParameters[2];
  }

  // ---------------------------------------------------------------- the agents

  /** `Agent`: a name, the `LLM` object it talks through, and a role. */
  datatype Member = Member(name: string, llm: Handle, role: string)

  /** `MultiAgentPipeline`: the three agents, which the tasks look up by name, and the object
      store they share. `shared_context` is never read: both tasks pass an empty context. */
  datatype Team = Team(navigator: Member, researcher: Member, synthesizer: Member, heap: Heap)

  /** `self.llm.model = model; self.llm.temperature = 0.3` on the object behind `k`. */
  function Tune(h: Heap, k: Handle, model: string): (r: Heap)
    requires k < |h.objects|
    ensures r.instances == h.instances && |r.objects| == |h.objects|
    ensures r.objects[k].model == model && r.objects[k].temperature == 0.3
    ensures r.objects[k].(model := h.objects[k].model, temperature := h.objects[k].temperature) == h.objects[k]
    ensures forall j :: 0 <= j < |h.objects| && j != k ==> r.objects[j] == h.objects[j]
  {
    h.(objects := h.objects[k := h.objects[k].(model := model, temperature := 0.3)])
  }

  /** `Agent(name, model, role)`: takes the `LLM()` object, which is the one registered as
      `"default"`, and sets its model and temperature. */
  function Enlist(h: Heap, global: Dict<string, Settings>, name: string, model: string, role: string)
    : (r: Result<(Heap, Member), Fault>)
    requires Valid(h)
    ensures r.Success? ==> Valid(r.value.0) && r.value.1.llm < |r.value.0.objects|
    ensures r.Success? ==> Get(r.value.0.instances, "default") == Some(r.value.1.llm)
  {
    match New(h, "default", None, global)
    case Failure(f) => Failure(f)
    case Success((h1, k)) =>
      NewValid(h, "default", None, global);
      NewAgain(h, "default", None, global, None, global);
      Success((Tune(h1, k, model), Member(name, k, role)))
  }

  /** `MultiAgentPipeline()`. */
  function Init(h: Heap, global: Dict<string, Settings>): Result<Team, Fault>
    requires Valid(h)
  {
    var r1 :- Enlist(h, global, "browser_navigator", "mistral:latest", "Web Navigation");
    var r2 :- Enlist(r1.0, global, "researcher", "deepseek-r1:latest", "Research");
    var r3 :- Enlist(r2.0, global, "synthesizer", "llama3:8b", "Result Synthesis");
    Success(Team(r1.1, r2.1, r3.1, r3.0))
  }

  /** The team can answer: its store is well formed, `"default"` is registered, and every agent's
      object exists. */
  predicate Ready(t: Team) {
    && Valid(t.heap) && HasKey(t.heap.instances, "default")
    && t.navigator.llm < |t.heap.objects| && t.researcher.llm < |t.heap.objects|
    && t.synthesizer.llm < |t.heap.objects|
  }

  /** The settings an agent's requests go out with. */
  function SettingsOf(t: Team, m: Member): Settings
    requires m.llm < |t.heap.objects|
  {
    t.heap.objects[m.llm]
  }

  /** Building the pipeline fails exactly when `LLM()` does: `"default"` is neither registered nor
      configured. */
  lemma InitFails(h: Heap, global: Dict<string, Settings>)
    requires Valid(h)
    ensures Init(h, global).Failure? <==> !HasKey(h.instances, "default") && !HasKey(Table(None, global), "default")
  {
    if HasKey(h.instances, "default") || HasKey(Table(None, global), "default") {
      if !HasKey(h.instances, "default") {
        NewFresh(h, "default", None, global, "");
      }
      var r1 := Enlist(h, global, "browser_navigator", "mistral:latest", "Web Navigation");
      var r2 := Enlist(r1.value.0, global, "researcher", "deepseek-r1:latest", "Research");
    }
  }

  /** All three agents hold the same object, the one registered as `"default"`, so the last
      assignment wins: every agent asks with model `llama3:8b` at temperature 0.3, and the other
      settings are those the object was built with. */
  lemma InitAliases(h: Heap, global: Dict<string, Settings>)
    requires Valid(h) && Init(h, global).Success?
    ensures var t := Init(h, global).value;
      && Ready(t)
      && t.navigator.llm == t.researcher.llm == t.synthesizer.llm == Get(t.heap.instances, "default").value
      && SettingsOf(t, t.navigator).model == "llama3:8b"
      && SettingsOf(t, t.navigator).temperature == 0.3
      && (HasKey(h.instances, "default") ==>
            SettingsOf(t, t.navigator) == h.objects[t.navigator.llm].(model := "llama3:8b", temperature := 0.3))
  {
    var r1 := Enlist(h, global, "browser_navigator", "mistral:latest", "Web Navigation").value;
    var r2 := Enlist(r1.0, global, "researcher", "deepseek-r1:latest", "Research").value;
    var r3 := Enlist(r2.0, global, "synthesizer", "llama3:8b", "Result Synthesis").value;
    NewRegistered(r1.0, "default", None, global);
    NewRegistered(r2.0, "default", None, global);
    if HasKey(h.instances, "default") {
      NewRegistered(h, "default", None, global);
    }
  }

  // ---------------------------------------------------------------- process_task

  /** The dict `process_task` returns. `result` is `None` when the model's reply has no content. */
  datatype TaskRecord = TaskRecord(agent: string, role: string, result: Option<string>)

  /** `shared_context` as `k: v` lines joined by newlines, in insertion order. */
  function Context(context: Dict<string, Json>): string {
    Join("\n", ContextLines(context))
  }

  /** The lines of the context, one per entry. */
  function ContextLines(context: Dict<string, Json>): (r: seq<string>)
    ensures |r| == |context|
    ensures forall i :: 0 <= i < |context| ==> r[i] == context[i].0 + ": " + Str(context[i].1)
  {
    seq(|context|, i requires 0 <= i < |context| => context[i].0 + ": " + Str(context[i].1))
  }

  /** Reading the context back line by line gives one line per entry, provided no key or value
      holds a newline. */
  lemma ContextRoundTrip(context: Dict<string, Json>)
    requires |context| > 0
    requires forall i :: 0 <= i < |context| ==> '\n' !in ContextLines(context)[i]
    ensures Split(Context(context), "\n") == ContextLines(context)
  {
    var lines := ContextLines(context);
    forall i | 0 <= i < |lines|
      ensures !Contains(lines[i], "\n") && Guarded(lines[i], "\n")
    {
      NoOccWithoutFirstChar(lines[i], "\n");
    }
    JoinSplit(lines, "\n");
  }

  /** `full_instructions`, laid out with `indent`: every line of the literal, the blank ones
      included, starts with the indentation; the context's own lines after its first do not. */
  function TaskText(indent: string, role: string, instructions: string, context: string): string {
    RoleHead(indent) + role + (TaskHead(indent) + instructions + (ContextHead(indent) + context + TaskTail(indent)))
  }

  /** The pieces of `full_instructions` around the role, the instructions and the context. */
  function RoleHead(indent: string): string {
    "\n" + indent + "Role: "
  }

  function TaskHead(indent: string): string {
    "\n" + indent + "Task: "
  }

  function ContextHead(indent: string): string {
    "\n" + indent
    + "\n" + indent + "Shared Context:"
    + "\n" + indent
  }

  function TaskTail(indent: string): string {
    "\n" + indent
    + "\n" + indent + "Be concise and direct in your response."
    + "\n" + indent
  }

  /** The task prompt quotes the role, the instructions and the context. */
  lemma TaskTextQuotes(indent: string, role: string, instructions: string, context: string)
    ensures Contains(TaskText(indent, role, instructions, context), role)
    ensures Contains(TaskText(indent, role, instructions, context), instructions)
    ensures Contains(TaskText(indent, role, instructions, context), context)
  {
    var inner := ContextHead(indent) + context + TaskTail(indent);
    var middle := TaskHead(indent) + instructions + inner;
    ContainsMiddle(RoleHead(indent), role, middle);
    ContainsMiddle(TaskHead(indent), instructions, inner);
    ContainsSuffix(RoleHead(indent) + role, middle, instructions);
    ContainsMiddle(ContextHead(indent), context, TaskTail(indent));
    ContainsSuffix(TaskHead(indent) + instructions, inner, context);
    ContainsSuffix(RoleHead(indent) + role, middle, context);
  }

  /** The task prompt as `process_task` sends it, at the literal's twelve-space indentation,
      line by line as the literal reads: the role and the instructions on their own lines, a blank line, the
      context under its heading, a blank line and the closing request. It quotes the role, the
      instructions and the context in full. */
  lemma TaskTextRendered(role: string, instructions: string, context: string)
    ensures TaskText("            ", role, instructions, context) ==
        ("\n" + "            " + "Role: ") + role
      + (("\n" + "            " + "Task: ") + instructions
      + (("\n" + "            "
         + "\n" + "            " + "Shared Context:"
         + "\n" + "            ") + context
      + ("\n" + "            "
         + "\n" + "            " + "Be concise and direct in your response."
         + "\n" + "            ")))
    ensures Contains(TaskText("            ", role, instructions, context), role)
    ensures Contains(TaskText("            ", role, instructions, context), instructions)
    ensures Contains(TaskText("            ", role, instructions, context), context)
  {
    TaskTextQuotes("            ", role, instructions, context);
  }

  /** A truthy `tool_type` selects `ask_tool`. */
  predicate UsesTools(task: Dict<string, Json>) {
    HasKey(task, "tool_type") && Truthy(Get(task, "tool_type").value)
  }

  /** `Agent.process_task`: it never raises. A task without instructions fails on the `KeyError`
      before any call; a tool task asks `ask_tool` and keeps the reply's content; any other task
      calls `ask` with `timeout`. Every failure becomes an `Error:` result. */
  function ProcessTask(t: Team, m: Member, task: Dict<string, Json>, context: Dict<string, Json>, o: Oracle)
    : TaskRecord
    requires m.llm < |t.heap.objects|
  {
    match Get(task, "instructions")
    case None => TaskRecord(m.name, m.role, Some("Error: 'instructions'"))
    case Some(instructions) =>
      var prompt := TaskText("            ", m.role, Str(instructions), Context(context));
      if UsesTools(task) then
        match o.askTool(SettingsOf(t, m), prompt)
        case Success(reply) => TaskRecord(m.name, m.role, reply.content)
        case Failure(f) => TaskRecord(m.name, m.role, Some("Error: " + o.explain(f)))
      else
        match AskWith(o, SettingsOf(t, m), prompt, ["messages", "stream", "timeout"], None)
        case Success(text) => TaskRecord(m.name, m.role, Some(text))
        case Failure(f) => TaskRecord(m.name, m.role, Some("Error: " + o.explain(f)))
  }

  /** The record always names the agent and its role. A tool task's result is the content of the
      reply to the instructions, or the error; a task without tools never reaches the model and
      always ends in the `timeout` error. */
  lemma ProcessTaskOutcome(t: Team, m: Member, task: Dict<string, Json>, context: Dict<string, Json>, o: Oracle)
    requires m.llm < |t.heap.objects|
    ensures var r := ProcessTask(t, m, task, context, o);
      && r.agent == m.name && r.role == m.role
      && (!HasKey(task, "instructions") ==> r.result == Some("Error: 'instructions'"))
      && (HasKey(task, "instructions") ==>
            var prompt := TaskText("            ", m.role, Str(Get(task, "instructions").value), Context(context));
            var reply := o.askTool(SettingsOf(t, m), prompt);
            && (UsesTools(task) && reply.Success? ==> r.result == reply.value.content)
            && (UsesTools(task) && reply.Failure? ==> r.result == Some("Error: " + o.explain(reply.error)))
            && (!UsesTools(task) ==> r.result == Some("Error: " + o.explain(UnexpectedKeyword("timeout")))))
  {
    if HasKey(task, "instructions") {
      var prompt := TaskText("            ", m.role, Str(Get(task, "instructions").value), Context(context));
      TimeoutRejected(o, SettingsOf(t, m), prompt);
    }
  }

  // ---------------------------------------------------------------- the workflow

  /** The words that make a query a web query. */
  const WebKeywords: seq<string> := ["navigate", "website", "web page", "homepage", "browser"]

  /** `any(keyword in query.lower() ...)`. */
  predicate IsWeb(query: string) {
    exists i :: 0 <= i < |WebKeywords| && Contains(Lower(query), WebKeywords[i])
  }

  /** Lower-casing twice is lower-casing once. */
  lemma LowerTwice(s: string)
    ensures Lower(Lower(s)) == Lower(s)
  {
    assert forall i :: 0 <= i < |s| ==> LowerChar(LowerChar(s[i])) == LowerChar(s[i]);
  }

  /** Routing ignores case: a query and its lower-cased form go the same way. */
  lemma RoutingIgnoresCase(query: string)
    ensures IsWeb(Lower(query)) <==> IsWeb(query)
  {
    LowerTwice(query);
  }

  /** The browser task. */
  function BrowserTask(query: string): Dict<string, Json> {
    [("id", JStr("browser_navigation")),
     ("instructions", JStr("Navigate and extract detailed information: " + query)),
     ("tool_type", JStr("browser"))]
  }

  /** The research task. */
  function ResearchTask(query: string): Dict<string, Json> {
    [("id", JStr("general_research")),
     ("instructions", JStr("Provide a comprehensive explanation for: " + query))]
  }

  /** The one upstream task of the workflow: the browser agent's for a web query, the
      researcher's otherwise, each with an empty context. */
  function Upstream(t: Team, query: string, o: Oracle): TaskRecord
    requires Ready(t)
  {
    if IsWeb(query) then ProcessTask(t, t.navigator, BrowserTask(query), [], o)
    else ProcessTask(t, t.researcher, ResearchTask(query), [], o)
  }

  /** A web query goes to the browser agent, which asks `ask_tool` with its instructions and an
      empty context; the record holds the reply's content, or the error. */
  lemma UpstreamWeb(t: Team, query: string, o: Oracle)
    requires Ready(t) && IsWeb(query)
    ensures var r := Upstream(t, query, o);
      var prompt := TaskText("            ", t.navigator.role, "Navigate and extract detailed information: " + query, "");
      && r.agent == t.navigator.name
      && r.result == (match o.askTool(SettingsOf(t, t.navigator), prompt)
                      case Success(reply) => reply.content
                      case Failure(f) => Some("Error: " + o.explain(f)))
  {
    assert Context([]) == "";
    var task := BrowserTask(query);
    GetAt(task, "instructions", 1);
    GetAt(task, "tool_type", 2);
    ProcessTaskOutcome(t, t.navigator, task, [], o);
  }

  /** Any other query goes to the researcher, whose plain call always fails on `timeout`. */
  lemma UpstreamResearch(t: Team, query: string, o: Oracle)
    requires Ready(t) && !IsWeb(query)
    ensures var r := Upstream(t, query, o);
      r.agent == t.researcher.name && r.result == Some("Error: " + o.explain(UnexpectedKeyword("timeout")))
  {
    var task := ResearchTask(query);
    GetAt(task, "instructions", 1);
    assert IndexOf(task, "tool_type").None?;
    ProcessTaskOutcome(t, t.researcher, task, [], o);
  }

  /** `f"{result}"` of an optional text: `None` prints as `None`. */
  function Shown(result: Option<string>): string {
    if result.Some? then result.value else "None"
  }

  /** `synthesis_prompt`, laid out with `indent`: every line of the literal, the blank ones
      included, starts with the indentation. */
  function SynthesisText(indent: string, query: string, source: string): string {
    QueryHead(indent) + query + (SourceHead(indent) + source + Requirements(indent))
  }

  /** The pieces of `synthesis_prompt` around the query and the source information. */
  function QueryHead(indent: string): string {
    "\n" + indent + "Synthesize a clear and concise answer for the query:"
    + "\n" + indent
    + "\n" + indent + "Query: "
  }

  function SourceHead(indent: string): string {
    "\n" + indent + "Source Information: "
  }

  function Requirements(indent: string): string {
    "\n" + indent
    + "\n" + indent + "Requirements:"
    + "\n" + indent + "- Provide a direct, informative response"
    + "\n" + indent + "- Focus on key points"
    + "\n" + indent + "- Use clear, accessible language"
    + "\n" + indent + "- Keep the answer under 250 words"
    + "\n" + indent
  }

  /** The synthesis prompt quotes the query and the upstream result. */
  lemma SynthesisTextQuotes(indent: string, query: string, source: string)
    ensures Contains(SynthesisText(indent, query, source), query)
    ensures Contains(SynthesisText(indent, query, source), source)
  {
    var rest := SourceHead(indent) + source + Requirements(indent);
    ContainsMiddle(QueryHead(indent), query, rest);
    ContainsMiddle(SourceHead(indent), source, Requirements(indent));
    ContainsSuffix(QueryHead(indent) + query, rest, source);
  }

  /** The synthesis prompt as `_synthesize_results` sends it, at the literal's eight-space
      indentation, line by line as the literal reads: the request, a blank line, the query and the source
      information on lines of their own, a blank line and the four requirements. It quotes the
      query and the upstream result in full. */
  lemma SynthesisTextRendered(query: string, source: string)
    ensures SynthesisText("        ", query, source) ==
        ("\n" + "        " + "Synthesize a clear and concise answer for the query:"
         + "\n" + "        "
         + "\n" + "        " + "Query: ") + query
      + (("\n" + "        " + "Source Information: ") + source
      + ("\n" + "        "
         + "\n" + "        " + "Requirements:"
         + "\n" + "        " + "- Provide a direct, informative response"
         + "\n" + "        " + "- Focus on key points"
         + "\n" + "        " + "- Use clear, accessible language"
         + "\n" + "        " + "- Keep the answer under 250 words"
         + "\n" + "        "))
    ensures Contains(SynthesisText("        ", query, source), query)
    ensures Contains(SynthesisText("        ", query, source), source)
  {
    SynthesisTextQuotes("        ", query, source);
  }

  /** `_synthesize_results`: the synthesizer asks at temperature 0.2; a failure is not caught. */
  function Synthesize(t: Team, query: string, result: Option<string>, o: Oracle): Result<string, Fault>
    requires Ready(t)
  {
    AskWith(o, SettingsOf(t, t.synthesizer), SynthesisText("        ", query, Shown(result)),
            ["messages", "stream", "temperature"], Some(0.2))
  }

  /** `execute_workflow`: exactly one upstream task, then synthesis, whose failure propagates. */
  function ExecuteWorkflow(t: Team, query: string, o: Oracle): Result<string, Fault>
    requires Ready(t)
  {
    Synthesize(t, query, Upstream(t, query, o).result, o)
  }

  /** The workflow's answer is the model's reply to the synthesis prompt, sent with the
      synthesizer's settings at temperature 0.2; if that request fails, the workflow fails with it.
      For a query that is not a web query, the source information is always the `timeout` error. */
  lemma WorkflowOutcome(t: Team, query: string, o: Oracle)
    requires Ready(t)
    ensures var source := Shown(Upstream(t, query, o).result);
      ExecuteWorkflow(t, query, o) == o.ask(SettingsOf(t, t.synthesizer).(temperature := 0.2), SynthesisText("        ", query, source))
    ensures !IsWeb(query) ==>
      Shown(Upstream(t, query, o).result) == "Error: " + o.explain(UnexpectedKeyword("timeout"))
  {
    var source := Shown(Upstream(t, query, o).result);
    SynthesisCallAccepted(o, SettingsOf(t, t.synthesizer), SynthesisText("        ", query, source));
    if !IsWeb(query) {
      UpstreamResearch(t, query, o);
    }
  }
}
