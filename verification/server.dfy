/** The `/process` endpoint of the HTTP server (server.py:79-134): reject a blank query, run the
    agent, and cut the final answer out of its text; when the agent raises, ask the model directly. */
module Server {
  import opened Wrappers
  import opened PyStr
  import opened Gateway
  import opened Envelope
  import opened Agent

  /** The JSON body of a successful response: the agent's text with the answer cut out of it, or,
      when the agent raised, the model's direct answer and the agent's error (`full_result` and
      `final_answer` are then `null`). */
  datatype Response =
    | Processed(fullResult: string, finalAnswer: Option<string>)
    | DirectAnswer(directAnswer: string, error: string)

  /** An `HTTPException`: status code and detail. */
  datatype HttpError = HttpError(status: int, detail: string)

  /** The prompt of the direct request. */
  function Brief(prompt: string): string {
    prompt + " Please keep your answer brief and simple."
  }

  /** `process_with_agent`. `ready` says whether the startup hook built the agent; `run` is what
      `agent.run(prompt)` did; `direct` asks `LLM()` with a single user message. */
  function ProcessWithAgent(ready: bool, prompt: string, run: Outcome<string>,
                            direct: string -> Result<string, Fault>): (r: Result<Response, HttpError>)
    ensures !ready ==> r == Failure(HttpError(503, "Agent not initialized. Check server logs."))
    ensures r.Success? && r.value.Processed? ==> (r.value.finalAnswer.Some? <==> Contains(r.value.fullResult, Open))
    ensures r.Failure? ==> r.error.status in {500, 503}
  {
    if !ready then Failure(HttpError(503, "Agent not initialized. Check server logs."))
    else
      match run
      case Returned(result) => Success(Processed(result, FinalAnswer(result)))
      case Raised(e) =>
        match direct(Brief(prompt))
        case Success(answer) => Success(DirectAnswer(answer, e))
        case Failure(_) => Failure(HttpError(500, "Failed to process request: " + e))
  }

  /** With the agent in place: its text is passed on whole, together with the stripped answer
      between the markers when it has one; when it raised, the model is asked for a brief answer to
      the same prompt, and only if that fails too does the request fail, with the agent's error. */
  lemma ProcessWithAgentOutcome(prompt: string, run: Outcome<string>, direct: string -> Result<string, Fault>)
    ensures run.Returned? ==>
      var result := run.value;
      && ProcessWithAgent(true, prompt, run, direct).Success?
      && ProcessWithAgent(true, prompt, run, direct).value.fullResult == result
      && (Contains(result, Open) ==> exists x :: ProcessWithAgent(true, prompt, run, direct).value.finalAnswer == Some(x) && Trimmed(x))
    ensures run.Raised? ==>
      var reply := direct(Brief(prompt));
      && (reply.Success? ==> ProcessWithAgent(true, prompt, run, direct) == Success(DirectAnswer(reply.value, run.text)))
      && (reply.Failure? ==> ProcessWithAgent(true, prompt, run, direct) == Failure(HttpError(500, "Failed to process request: " + run.text)))
  {
    if run.Returned? && Contains(run.value, Open) {
      var x := FinalAnswer(run.value).value;
      assert ProcessWithAgent(true, prompt, run, direct).value.finalAnswer == Some(x) && Trimmed(x);
    }
  }

  /** `process_request`: a query that is empty once stripped is refused with 400 before the agent is
      consulted; any other query goes to `process_with_agent` unchanged. */
  function ProcessRequest(query: string, ready: bool, run: Outcome<string>,
                          direct: string -> Result<string, Fault>): (r: Result<Response, HttpError>)
    ensures Strip(query) == [] <==> r == Failure(HttpError(400, "Empty query provided"))
  {
    if Strip(query) == [] then Failure(HttpError(400, "Empty query provided"))
    else ProcessWithAgent(ready, query, run, direct)
  }

  /** A blank query is refused whatever the agent and the model would have done, even when the
      agent was never built. */
  lemma BlankIgnoresAgent(query: string, ready: bool, run: Outcome<string>, direct: string -> Result<string, Fault>,
                          ready2: bool, run2: Outcome<string>, direct2: string -> Result<string, Fault>)
    requires Strip(query) == []
    ensures ProcessRequest(query, ready, run, direct) == ProcessRequest(query, ready2, run2, direct2)
  {
  }

  /** A query with something besides whitespace is handed to the agent exactly as received, not
      stripped. */
  lemma QueryPassedWhole(query: string, ready: bool, run: Outcome<string>, direct: string -> Result<string, Fault>)
    requires Strip(query) != []
    ensures ProcessRequest(query, ready, run, direct) == ProcessWithAgent(ready, query, run, direct)
  {
  }

  /** Round trip with `ToolCallAgent.run`: when its loop ends without a summary and the summary
      request is answered with text holding neither marker, the server's final answer is exactly
      that text, stripped; the status line in front of it is dropped. */
  lemma ServesSummary(a: Agent, prompt: string, loop: Agent -> (Agent, Outcome<string>), w: World,
                      direct: string -> Result<string, Fault>)
    requires var (a1, outcome) := loop(a.(originalQuestion := prompt, toolResults := []));
      && outcome.Returned? && a1.finalSummary == ""
      && var asked := w.ask(Summary(SummaryQuestion(a1)));
      && asked.Success? && !Contains(asked.value, Open) && !Contains(asked.value, Close)
    ensures var a1 := loop(a.(originalQuestion := prompt, toolResults := [])).0;
      var text := Run(a, prompt, loop, w).1;
      ProcessWithAgent(true, prompt, Returned(text), direct)
        == Success(Processed(text, Some(Strip(w.ask(Summary(SummaryQuestion(a1))).value))))
  {
    var a1 := loop(a.(originalQuestion := prompt, toolResults := [])).0;
    SummariseOutcome(a1, None, w);
    StatusDefault();
    TooShort("success", Open);
  }

  /** Round trip with the fallback of `ToolCallAgent.run`: when the loop raises and the direct
      question is answered with text holding neither marker, the server's final answer is exactly
      that text, stripped. */
  lemma ServesFallback(a: Agent, prompt: string, loop: Agent -> (Agent, Outcome<string>), w: World,
                       direct: string -> Result<string, Fault>)
    requires var (a1, outcome) := loop(a.(originalQuestion := prompt, toolResults := []));
      && outcome.Raised?
      && var asked := w.ask(Direct(a1.originalQuestion));
      && asked.Success? && !Contains(asked.value, Open) && !Contains(asked.value, Close)
    ensures var a1 := loop(a.(originalQuestion := prompt, toolResults := [])).0;
      var text := Run(a, prompt, loop, w).1;
      ProcessWithAgent(true, prompt, Returned(text), direct)
        == Success(Processed(text, Some(Strip(w.ask(Direct(a1.originalQuestion)).value))))
  {
    var a1 := loop(a.(originalQuestion := prompt, toolResults := [])).0;
    FallbackOutcome(a1, w);
    ExtractFallback(w.ask(Direct(a1.originalQuestion)).value);
  }
}
