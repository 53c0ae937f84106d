/** `SwarmCoordinator.process_query` (app/swarm/coordinator.py:31-62): the pipeline's answer, or a
    direct question to the model about the failure, or a fixed apology. It never raises. */
module Coordinator {
  import opened Wrappers
  import opened PyStr
  import opened Dicts
  import opened Gateway
  import opened Registry
  import opened Pipeline

  /** The prompt of the fallback request. */
  function Recovery(query: string, error: string): string {
    "Provide a concise answer to: " + query + ("\n\nError occurred in multi-agent pipeline: " + error)
  }

  /** The fallback request quotes the query and the error. */
  lemma RecoveryQuotes(query: string, error: string)
    ensures Contains(Recovery(query, error), query) && Contains(Recovery(query, error), error)
  {
    var tail := "\n\nError occurred in multi-agent pipeline: " + error;
    ContainsMiddle("Provide a concise answer to: ", query, tail);
    ContainsMiddle("\n\nError occurred in multi-agent pipeline: ", error, []);
    assert "\n\nError occurred in multi-agent pipeline: " + error + [] == tail;
    ContainsSuffix("Provide a concise answer to: " + query, tail, error);
  }

  /** The text returned when the fallback fails too. */
  function Unable(error: string): string {
    "Unable to process query. Error: " + error
  }

  /** `process_query`. The fallback asks through `LLM()`, the object registered as `"default"`;
      building it cannot fail once the pipeline exists, but a failure there would be caught like a
      failed request. The response cache is neither read nor written. */
  function ProcessQuery(t: Team, global: Dict<string, Settings>, query: string, o: Oracle): string
    requires Ready(t)
  {
    match ExecuteWorkflow(t, query, o)
    case Success(answer) => answer
    case Failure(f) =>
      var e := o.explain(f);
      match New(t.heap, "default", None, global)
      case Failure(_) => Unable(e)
      case Success((h, k)) =>
        NewValid(t.heap, "default", None, global);
        match AskWith(o, h.objects[k], Recovery(query, e), ["messages", "stream"], None)
        case Success(text) => text
        case Failure(_) => Unable(e)
  }

  /** The three outcomes: the pipeline's answer when it has one; otherwise the model's reply to the
      recovery prompt, sent with the shared `"default"` settings; otherwise the apology naming the
      pipeline's error, not the fallback's. */
  lemma ProcessQueryOutcome(t: Team, global: Dict<string, Settings>, query: string, o: Oracle)
    requires Ready(t)
    ensures var w := ExecuteWorkflow(t, query, o);
      && (w.Success? ==> ProcessQuery(t, global, query, o) == w.value)
      && (w.Failure? ==>
            var e := o.explain(w.error);
            var k := Get(t.heap.instances, "default").value;
            k < |t.heap.objects|
            && var reply := o.ask(t.heap.objects[k], Recovery(query, e));
            && (reply.Success? ==> ProcessQuery(t, global, query, o) == reply.value)
            && (reply.Failure? ==> ProcessQuery(t, global, query, o) == Unable(e)))
  {
    var w := ExecuteWorkflow(t, query, o);
    if w.Failure? {
      var e := o.explain(w.error);
      NewRegistered(t.heap, "default", None, global);
      NewValid(t.heap, "default", None, global);
      var k := Get(t.heap.instances, "default").value;
      PlainCallAccepted(o, t.heap.objects[k], Recovery(query, e));
    }
  }

  /** For a pipeline built by `MultiAgentPipeline()`, the recovery request goes out through the very
      object the synthesizer uses (every agent and `LLM()` share it), at its stored temperature 0.3
      with model `llama3:8b`: the 0.2 of the synthesis request is not kept. */
  lemma ProcessQueryAfterInit(h: Heap, global: Dict<string, Settings>, query: string, o: Oracle)
    requires Valid(h) && Init(h, global).Success?
    ensures var t := Init(h, global).value;
      Ready(t) &&
      var s := SettingsOf(t, t.synthesizer);
      && s.model == "llama3:8b" && s.temperature == 0.3
      && var w := ExecuteWorkflow(t, query, o);
      && (w.Failure? ==>
            var reply := o.ask(s, Recovery(query, o.explain(w.error)));
            ProcessQuery(t, global, query, o) == if reply.Success? then reply.value else Unable(o.explain(w.error)))
  {
    InitAliases(h, global);
    var t := Init(h, global).value;
    ProcessQueryOutcome(t, global, query, o);
  }
}
