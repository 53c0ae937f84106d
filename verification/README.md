# smu-llm core, modelled in Dafny

This project models the request path of the smu-llm agent system:

- **The completion gateway** (`LLM` in `app/llm.py`):
  - the per-name instance registry;
  - message validation in `format_messages`;
  - `ask`, with its keyword signature and its `temperature or self.temperature` rule;
  - `ask_tool`'s prompted tool calling: the instruction text, its injection into the first system message, and the decoding of the reply into tool calls, including id/type backfilling and argument repair.
- **The tool-calling agent** (`ToolCallAgent` in `app/agent/toolcall.py`): `think`, `act`, `execute_tool`, the special-tool handling, the summary and fallback summary, and `run`.
- **The multi-agent pipeline** (`app/swarm/multi_agent_pipeline.py`): the three agents, `process_task`, the keyword routing, the browser and research tasks, and synthesis.
- **The swarm coordinator** (`app/swarm/coordinator.py`): `ResponseCache` and `process_query` with its fallback.
- **The HTTP endpoint** (`server.py`): `process_with_agent` and `process_request`, including how the final answer is cut out of the agent's text.

The completion endpoint, the tools, `json.loads`/`json.dumps` and the uuid generator cannot be seen from here. They become function-valued parameters:

- `Endpoint`, from the formatted messages to a reply or a raised error;
- `Codec`, with the `Lawful` predicate stating that loads undoes dumps for every value whose objects repeat no key (the only values a Python dict can stand for);
- `Ids`, the n-th fresh 8-digit hex id;
- `World.execute` for tools;
- `Oracle` for the pipeline's model calls.

Every model call returns a `Result`/`Outcome`, so every raised exception is an explicit error path.

Modules, one per concern:

- `Wrappers`, `Dicts` (Python's insertion-ordered dict), `PyStr` (Python's `strip`, `split`, `find`, `in`, `lower`, slicing) and `Json` (the values `json.loads` yields, with Python's `in`, iteration, `str` and `repr`; `repr` escapes the unprintable characters up to U+00FF only) are the Python semantics the code relies on.
- `Schema` holds the message and tool-call shapes.
- `Gateway`, `Prompt`, `ToolCalling`, `Decoding` and `Threading` cover `app/llm.py`.
- `Registry` covers the `LLM` singleton table.
- `Envelope` holds the final-answer markers shared by the agent and the server.
- `Agent`, `Pipeline`, `Cache`, `Coordinator` and `Server` cover the remaining files.

Behaviours of the code as written that its own comments and names do not lead one to expect. The model follows the code and proves each:

- **Decoding can raise.** The `try` around `ask_tool`'s decoding (app/llm.py:256-298) catches only `json.JSONDecodeError` and `KeyError`, under the comment "treat as regular text response". A reply whose JSON is a number, boolean or null makes `"tool_calls" in response_json` (app/llm.py:265) raise `TypeError`. That error is not caught there, so `ask_tool` re-raises it (`Decoding.DecodeScalarRaises`). A tool-call entry lacking `function` or `arguments` raises `KeyError`, which is caught, so the reply degrades to plain text (`Decoding.DecodeCalls`).
- **Argument repair always produces a dict.** The comment at app/llm.py:281 says the code tries to clean up argument text that is not valid JSON. The clean-up cannot fail: it always yields a JSON object, `{}` when no line has a colon (`Decoding.RepairParses`, `Decoding.RepairWithoutColons`). Values are not stripped: a line `a: 1` gives the value `" 1"`.
- **The agents share one gateway object.** `Agent.__init__` (app/swarm/multi_agent_pipeline.py:12-17) takes `LLM()` and then sets the model and temperature on it. `LLM()` returns the one object registered as `"default"` (app/llm.py:24-31). Each agent's assignments therefore overwrite the previous agent's, even though `MultiAgentPipeline.__init__` gives each agent its own model (app/swarm/multi_agent_pipeline.py:69-74). After construction that one object holds model `llama3:8b` at temperature 0.3 (`Pipeline.InitAliases`). The navigator's `ask_tool` and the coordinator's recovery request go out with those settings (`Pipeline.UpstreamWeb`, `Coordinator.ProcessQueryAfterInit`). The synthesizer's request passes `temperature=0.2` (app/swarm/multi_agent_pipeline.py:158-162), so it goes out with `llama3:8b` at 0.2 (`Pipeline.SynthesisCallAccepted`). The researcher never reaches the model (next item).
- **The timeout keyword breaks the plain call.** Both calls in `process_task` pass `timeout=30`, marked `# Strict timeout` (app/swarm/multi_agent_pipeline.py:44,50). `ask` declares no `timeout` keyword (app/llm.py:82-88), so the plain call always fails with a `TypeError` before any request. Every non-web query therefore reaches synthesis with an error as its source information (`Pipeline.TimeoutRejected`, `Pipeline.UpstreamResearch`, `Pipeline.WorkflowOutcome`). `ask_tool` declares a `timeout` parameter (app/llm.py:181) and its body never reads it, so the navigator's call goes through.
- **The fallback's answer is overwritten.** `run` generates a summary when none was stored (app/agent/toolcall.py:320-322). When that summary request fails, `_generate_summary` runs the fallback, which stores its framed answer, and then returns the bare completion line (app/agent/toolcall.py:265-268). `run` stores that line over the fallback's answer (`Agent.RunOverwritesFallback`).

## Model

| member | source | states |
|---|---|---|
| Registry.NewRegistered | app/llm.py:24-31 | a name already registered yields its existing object, whatever configuration tables are passed, and nothing changes |
| Registry.NewAgain | app/llm.py:24-45 | asking again for a name just built returns the same object and state: the first construction's settings persist |
| Registry.NewFresh | app/llm.py:27-45 | an unregistered name gets a new object from the table's entry for it, else the `"default"` entry; only that name's registration changes and existing objects are untouched |
| Registry.NewWithoutDefault | app/llm.py:37-38 | a table without `"default"` raises `KeyError('default')` for an unregistered name even when the table has that name |
| Registry.NewValid | app/llm.py:24-31 | construction keeps names distinct and every handle in range |
| Gateway.AdmitAll | app/llm.py:55-65 | the first loop of `format_messages` keeps length and order, and every admitted dict has a role |
| Gateway.AdmitAllIff | app/llm.py:55-65 | the first loop succeeds exactly when every element is a dict with `role` or a `Message` |
| Gateway.CheckAllIff | app/llm.py:67-74 | the validation loop passes exactly when every message passes the role and content/tool_calls check |
| Gateway.FormatKeepsOrder | app/llm.py:51-76 | `format_messages` returns one dict per element, in order: a dict as given, a `Message` through `to_dict()` |
| Gateway.FormatSucceedsIff | app/llm.py:51-76 | `format_messages` succeeds exactly when every element is well formed |
| Gateway.FormatFirstInadmissible | app/llm.py:55-65 | the first element that is neither a dict with a role nor a `Message` decides the error, before any role check |
| Gateway.AdmitAllFails | app/llm.py:55-65 | the admission loop fails with the first inadmissible element's error |
| Gateway.FormatFirstIllFormed | app/llm.py:67-74 | once all are admitted, the first message with a bad role or no body decides the error |
| Gateway.CheckAllFails | app/llm.py:67-74 | the check loop reports the first failing message |
| Gateway.AdmitAllFaults | app/llm.py:58-65 | admission raises only the missing-role `ValueError` or the unsupported-type `TypeError` |
| Gateway.CheckAllFaults | app/llm.py:69-74 | the check raises only the invalid-role or missing-body `ValueError` |
| Gateway.FormatFaults | app/llm.py:51-76 | `format_messages` raises only its four validation errors |
| Gateway.AdmitHasRole | app/llm.py:56-63 | an admitted element's dict has a `role` key |
| Gateway.PrepareOrder | app/llm.py:92-96 | system messages are formatted first and precede the conversation; a bad system message raises first; success needs both to format |
| Gateway.AskPromptSends | app/llm.py:82-105 | a single user prompt always validates, so the endpoint sees exactly that message and its outcome is passed through |
| Gateway.ValidateChoice | app/llm.py:190-191 | an accepted tool choice is the mode with that text; otherwise `ValueError` naming the choice |
| Gateway.ValidateChoiceExact | app/llm.py:190-191 | exactly the three modes' texts are accepted |
| Schema.ToDictKeys | app/llm.py:61-63 | a `Message`'s dict carries its role text, and `content` / `tool_calls` exactly when it has them |
| Json.In | app/llm.py:265 | `key in x` is a key test on a dict, a substring test on a str and an element test on a list; anything else raises `TypeError: argument of type '...' is not iterable` |
| Json.ReprStrPrintable | app/agent/toolcall.py:187 | the `repr` of a str, as an observation of a list or dict shows it, is quoted and leaves no control character, DEL, no-break space or soft hyphen raw |
| Json.Iterate | app/llm.py:268 | iteration visits a list's items, a dict's keys in order, or a str's one-character strings in order; anything else raises `TypeError: '...' object is not iterable` |
| Prompt.CatalogueEntries | app/llm.py:203-208 | splitting the catalogue at blank lines gives back the entries when none holds a blank line |
| Prompt.InstructionsShow | app/llm.py:211-236 | the tool instructions quote the catalogue verbatim and an example call with the fresh id |
| Prompt.PreambleRendered | app/llm.py:211-214 | the opening line and the blank line before the catalogue, each behind the literal's sixteen spaces, and the catalogue's line starting behind them too |
| Prompt.FormatHeadRendered | app/llm.py:215-222 | the blank line after the catalogue, the format request, a blank line and the example's opening lines up to the id, each behind sixteen spaces |
| Prompt.ExampleTailRendered | app/llm.py:223-231 | the example call's remaining lines, with the escaped argument text, and the closing fence, each behind sixteen spaces |
| Prompt.RemarksRendered | app/llm.py:232-233 | a blank line behind sixteen spaces, then the first remark |
| Prompt.ClosingRendered | app/llm.py:234-236 | the last two remarks behind sixteen spaces, and sixteen spaces before the closing quotes |
| ToolCalling.FirstSystem | app/llm.py:241-245 | the index found is a system message with none before it; no index means no system message |
| ToolCalling.InjectIntoFirst | app/llm.py:241-245 | only the first system message changes: its content gains a blank line and the instructions, other fields and messages are kept |
| ToolCalling.FirstSystemAt | app/llm.py:241-242 | a system message with none before it is the one found |
| ToolCalling.InjectMissingContent | app/llm.py:243 | a first system message without content raises `KeyError('content')` |
| ToolCalling.InjectFresh | app/llm.py:247-248 | without a system message the instructions become a new first message in front of the unchanged list |
| ToolCalling.InjectFacts | app/llm.py:240-248 | after injection a system message exists, either new in front or the first one extended |
| ToolCalling.AsCallRoundTrip | app/llm.py:292-295 | a tool call's dict converts back to the same call |
| ToolCalling.ToToolCallsRoundTrip | app/llm.py:292-295 | a list of call dicts converts back to the same list |
| ToolCalling.AskToolChoiceFirst | app/llm.py:189-191 | an unknown tool choice raises before anything is formatted or sent |
| ToolCalling.OutgoingWithoutTools | app/llm.py:194-201 | without tools, or with mode "none", the messages go out as prepared with no instructions |
| ToolCalling.AskToolWithoutTools | app/llm.py:251-301 | without tools the reply text comes back unchanged as an assistant message, never decoded |
| ToolCalling.OutgoingInjects | app/llm.py:201-248 | with tools offered the endpoint sees the prepared messages with the instructions injected |
| ToolCalling.AnswerPlainKeepsText | app/llm.py:296-301 | a reply that is not a tool call is returned as the exact reply text, not the stripped candidate |
| ToolCalling.AnswerCalls | app/llm.py:265-295 | a decoded tool-call list becomes an assistant message with those calls and no content |
| ToolCalling.OutgoingFaults | app/llm.py:188-248 | before the request only a bad mode, bad messages or a content-less system message can raise |
| ToolCalling.AnswerFaults | app/llm.py:253-301 | reading the reply raises only decoding's `TypeError` or the message class's rejection |
| ToolCalling.AskToolFaults | app/llm.py:188-308 | `ask_tool` raises only what its steps raise; a decoding `KeyError` never escapes |
| Decoding.FenceRoundTrip | app/llm.py:258-259 | a fenced ```` ```json ```` block yields its stripped body whatever precedes it |
| Decoding.CandidateWithoutFence | app/llm.py:261-263 | without the case-sensitive fence the candidate is the stripped reply |
| Decoding.BodyBeforeClose | app/llm.py:259 | the two splits cut out exactly the body before the closing fence |
| Decoding.SplitFirstPiece | app/llm.py:259 | the first piece of a split is the text before the first separator |
| Decoding.KeyValueSplits | app/llm.py:284 | a line splits at its first colon; the key is the stripped text before it, the value the unstripped rest |
| Decoding.ColonLines | app/llm.py:284-286 | a line is kept exactly when it is one of the input lines and holds a colon |
| Decoding.ColonLinesAppend | app/llm.py:284-286 | the filter keeps order: it distributes over concatenation, and a single line is kept exactly when it holds a colon |
| Decoding.RepairParses | app/llm.py:282-287 | the repaired arguments always parse back to the recovered mapping, for any codec that round-trips values without repeated keys; the comprehension leaves no key repeated |
| Decoding.RecoveredLookup | app/llm.py:283-286 | a key repeated on later lines takes its last value |
| Decoding.RepairWithoutColons | app/llm.py:282-287 | arguments without any colon repair to `{}` |
| Decoding.WithIdFacts | app/llm.py:270-271 | an existing id is kept, a missing one becomes `call_` plus a fresh id appended last; nothing else changes |
| Decoding.WithTypeFacts | app/llm.py:272-273 | an existing type is kept, a missing one becomes `"function"` appended last; nothing else changes |
| Decoding.FixFunctionFacts | app/llm.py:276-287 | the argument step keeps every key and field but `function`, whose arguments are fixed |
| Decoding.NormaliseFacts | app/llm.py:268-289 | one entry's id and type are kept or filled in, a fresh id is drawn exactly when the id was missing, other fields are kept, key order is preserved |
| Decoding.NormaliseArguments | app/llm.py:276-287 | valid JSON argument text is kept byte for byte, invalid text is repaired, non-strings are kept |
| Decoding.NormaliseAll | app/llm.py:268-289 | the loop returns one entry per input entry |
| Decoding.CounterDrawn | app/llm.py:268-271 | at entry i the id counter has advanced by exactly the ids drawn before it |
| Decoding.NormaliseAllEach | app/llm.py:268-289 | each entry is normalised on its own at the counter reached there, so drawn ids never share a counter |
| Decoding.NormaliseFaults | app/llm.py:268-289 | normalising an entry raises only `KeyError` or `TypeError` |
| Decoding.NormaliseAllFaults | app/llm.py:268-289 | the loop raises only `KeyError` or `TypeError` |
| Decoding.DecodeRaisesOnlyTypeErrors | app/llm.py:256-298 | when decoding raises it is a `TypeError`; `KeyError` is absorbed as plain text |
| Decoding.DecodePlain | app/llm.py:256-298 | unparsable text or an object without `tool_calls` is plain text |
| Decoding.DecodeScalarRaises | app/llm.py:265 | a reply parsing to a number, boolean or null raises `TypeError: argument of type ... is not iterable` |
| Decoding.DecodeCalls | app/llm.py:265-295 | a `tool_calls` list decodes to its normalised entries, or to plain text when an entry lacks `function`/`arguments` |
| Pipeline.Unaccepted | app/llm.py:82-88 | the keyword reported is one `ask` does not declare, and none is reported exactly when all are declared |
| Pipeline.AskWith | app/llm.py:82-88 | a call with an undeclared keyword fails with `TypeError` naming it, before the model is asked |
| Pipeline.TimeoutRejected | app/swarm/multi_agent_pipeline.py:47-51 | `ask(..., timeout=30)` always fails with the unexpected-keyword error |
| Pipeline.SynthesisCallAccepted | app/swarm/multi_agent_pipeline.py:158-162 | the synthesis call is sent with the synthesizer's settings at temperature 0.2 |
| Pipeline.PlainCallAccepted | app/swarm/coordinator.py:52-58 | a call with only `messages` and `stream` goes out with the object's own settings |
| Pipeline.Tune | app/swarm/multi_agent_pipeline.py:15-16 | the object gets the model and temperature 0.3, its other settings and every other object and registration are unchanged |
| Pipeline.Enlist | app/swarm/multi_agent_pipeline.py:12-17 | an agent holds the object registered as `"default"`, which exists, and the store stays well formed |
| Pipeline.InitFails | app/swarm/multi_agent_pipeline.py:68-74 | building the pipeline fails exactly when `"default"` is neither registered nor configured |
| Pipeline.InitAliases | app/swarm/multi_agent_pipeline.py:70-74 | all three agents hold the one `"default"` object, which after construction stores `llama3:8b` at 0.3 |
| Pipeline.ContextRoundTrip | app/swarm/multi_agent_pipeline.py:24-26 | splitting the context at newlines gives back the entry lines when no key or value holds a newline |
| Pipeline.TaskTextRendered | app/swarm/multi_agent_pipeline.py:28-36 | `full_instructions` line by line behind twelve spaces, blank lines included: role, task, blank, heading, context, blank, closing request; it quotes all three inserts |
| Pipeline.ProcessTaskOutcome | app/swarm/multi_agent_pipeline.py:19-65 | the record names the agent and role; a tool task holds the reply's content or the error; a plain task always holds the `timeout` error; a missing `instructions` key gives `Error: 'instructions'` |
| Pipeline.RoutingIgnoresCase | app/swarm/multi_agent_pipeline.py:84-85 | a query and its lower-cased form are routed the same way |
| Pipeline.UpstreamWeb | app/swarm/multi_agent_pipeline.py:106-122 | a web query goes to the browser agent's `ask_tool` with its instructions and empty context |
| Pipeline.UpstreamResearch | app/swarm/multi_agent_pipeline.py:124-139 | any other query goes to the researcher and always yields the `timeout` error |
| Pipeline.SynthesisTextRendered | app/swarm/multi_agent_pipeline.py:145-156 | the synthesis prompt line by line behind eight spaces, blank lines included, with the query and the source on their own lines; it quotes both |
| Pipeline.WorkflowOutcome | app/swarm/multi_agent_pipeline.py:78-104 | the workflow's answer is the synthesizer's reply at temperature 0.2 to the prompt built from the one upstream result; a failure propagates |
| Cache.Empty | app/swarm/coordinator.py:9-11 | a new cache stores nothing, has the given bound and already has the shape `set` keeps |
| Cache.DefaultStore | app/swarm/coordinator.py:9-29 | with the default bound of 100 that `SwarmCoordinator` uses, `set` never raises and the cache never holds more than 100 entries |
| Cache.StoreFails | app/swarm/coordinator.py:16-21 | `set` raises exactly on an empty cache with a non-positive bound |
| Cache.StoreThenLookup | app/swarm/coordinator.py:13-21 | after `set(k, v)`, `get(k)` is `v` |
| Cache.StoreValid | app/swarm/coordinator.py:16-21 | `set` keeps keys distinct and the size within a positive bound |
| Cache.StoreBelowBound | app/swarm/coordinator.py:16-21 | below the bound nothing is evicted, other keys keep their values, a new key goes last |
| Cache.StoreEvictsOldest | app/swarm/coordinator.py:17-21 | at the bound the first-inserted key is evicted and no other key changes |
| Cache.StoreExistingWhenFull | app/swarm/coordinator.py:17-21 | re-setting a present key in a full cache still evicts the oldest, so the cache can shrink |
| Coordinator.RecoveryQuotes | app/swarm/coordinator.py:55 | the fallback prompt quotes the query and the pipeline's error |
| Coordinator.ProcessQueryOutcome | app/swarm/coordinator.py:31-62 | the pipeline's answer; else the model's reply to the recovery prompt with the `"default"` settings; else the apology naming the pipeline's error |
| Coordinator.ProcessQueryAfterInit | app/swarm/coordinator.py:49-59 | after `MultiAgentPipeline()` the recovery request uses the synthesizer's own object at 0.3, not the 0.2 of synthesis |
| Agent.WordingQuotes | app/agent/toolcall.py:236-277 | the direct question is the question followed by the length limit; the summary request reads line by line behind twelve spaces, the blank line included; both quote the question in full |
| Agent.Fallback | app/agent/toolcall.py:271-301 | the fallback never fails, changes only `final_summary`, and leaves it non-empty |
| Agent.FallbackOutcome | app/agent/toolcall.py:271-301 | `final_summary` frames the direct answer, or the apology quoting the question |
| Agent.FirstUserText | app/agent/toolcall.py:228-233 | the result is non-empty exactly when memory holds a user message with text, and it is then the content of the first such message |
| Agent.Summarise | app/agent/toolcall.py:224-269 | only memory and `final_summary` can change |
| Agent.SummariseOutcome | app/agent/toolcall.py:224-269 | success gives the status line and framed answer, which the server extracts back; a failure runs the fallback and returns the completion line |
| Agent.StatusDefault | app/agent/toolcall.py:255 | without arguments the status is "success" |
| Agent.HandleSpecial | app/agent/toolcall.py:207-222 | only memory, `final_summary` and state can change |
| Agent.HandleSpecialOutcome | app/agent/toolcall.py:207-222 | a special tool finishes the run exactly when it is `terminate` in any case, storing the summary's text |
| Agent.RenderError | app/agent/toolcall.py:158-205 | a report starts with "Error: " exactly when the tool did not return |
| Agent.BrowserDefaultsFacts | app/agent/toolcall.py:172-176 | `browser_use` without action gets `navigate` and, if missing, the example url; nothing else changes |
| Agent.BrowserDefaultsOther | app/agent/toolcall.py:172 | other tools get their arguments as decoded |
| Agent.MissingArgumentsAreEmpty | app/agent/toolcall.py:169 | a call without arguments runs with `{}` |
| Agent.ExecuteTool | app/agent/toolcall.py:158-205 | `execute_tool` returns a report rather than raising, and can change only memory, `final_summary` and state |
| Agent.ExecuteToolOutcome | app/agent/toolcall.py:158-205 | an observation exactly when the tool is known, arguments decode and the tool returns; it carries the tool's result |
| Agent.ExecuteToolFailures | app/agent/toolcall.py:160-205 | the text for each failure: no name, an unknown name, arguments that are not JSON or a tool raising `JSONDecodeError` (the one `except` gives both the parsing message), and any other exception from the guard or the tool after the warning sign |
| Agent.ExecuteToolPlain | app/agent/toolcall.py:192-193 | a tool that is not special never changes the agent |
| Agent.Observe | app/agent/toolcall.py:136-137 | a prefix of the result: all of it when `max_observe` is falsy, `min(max_observe, len)` characters when it is positive, and all but the last `-max_observe` when it is negative |
| Agent.RunCall | app/agent/toolcall.py:133-151 | one call appends `name: result` to `tool_results`, with the result within `max_observe` |
| Agent.RunCallPlain | app/agent/toolcall.py:144-150 | a non-special call adds exactly its tool message |
| Agent.RunCalls | app/agent/toolcall.py:131-156 | one result per call |
| Agent.RunCallsResults | app/agent/toolcall.py:130-144 | result `i` is the rendered report on call `i` cut to `max_observe`, and `tool_results` gains `name: result` per call in call order |
| Agent.RunCallsReports | app/agent/toolcall.py:132-137 | result `i` of the loop is the report on call `i` cut to `max_observe`, whatever the earlier calls did |
| Agent.RunCallsPlain | app/agent/toolcall.py:146-150 | non-special calls add one tool message per call in order, and leave state and summary alone |
| Agent.ActWithoutCalls | app/agent/toolcall.py:124-129 | without calls `act` raises under "required", raises `IndexError` on an empty memory, else answers with the last message's text or the fixed text |
| Agent.ActWithCalls | app/agent/toolcall.py:131-156 | with calls `act` never raises and joins the results with blank lines |
| Agent.ThinkWithoutTools | app/agent/toolcall.py:75-83 | under "none" progress exactly when the reply has text, which is then recorded |
| Agent.ThinkWithTools | app/agent/toolcall.py:85-102 | one assistant message follows the prompt; progress with calls, under "required", or under "auto" with text |
| Agent.ThinkRecordingFails | app/agent/toolcall.py:103-110 | a recording failure leaves an error message and no progress |
| Agent.ThinkRequestFails | app/agent/toolcall.py:111-120 | a failed request runs the fallback and finishes the agent, with no progress |
| Agent.RunAnswers | app/agent/toolcall.py:311-329 | `run` returns non-empty text equal to the agent's `final_summary` |
| Agent.RunOverwritesFallback | app/agent/toolcall.py:320-324 | when the late summary fails, the fallback's answer is overwritten by the completion line |
| Agent.RunKeepsSummary | app/agent/toolcall.py:320-324 | a summary already stored is returned untouched |
| Envelope.FinalAnswer | server.py:91-99 | an answer exists exactly when the opening marker occurs, and it is stripped |
| Envelope.ExtractFramed | server.py:91-99 | a framed summary after marker-free text is extracted as the stripped summary |
| Envelope.ExtractCompleted | app/agent/toolcall.py:264 | the server extracts exactly the stripped summary from `_generate_summary`'s text |
| Envelope.ExtractFallback | app/agent/toolcall.py:292 | the server extracts exactly the stripped fallback answer |
| Server.ProcessWithAgent | server.py:79-121 | no agent means 503; an extracted answer exists exactly when the marker occurs; errors are 500 or 503 |
| Server.ProcessWithAgentOutcome | server.py:84-121 | the agent's text passes whole; when it raised, the direct answer with the agent's error, else 500 naming the agent's error |
| Server.ProcessRequest | server.py:124-134 | a query empty after stripping is exactly the 400 case |
| Server.BlankIgnoresAgent | server.py:127-128 | a blank query is refused whatever the agent or model would do |
| Server.QueryPassedWhole | server.py:127-131 | other queries reach the agent unstripped |
| Server.ServesSummary | server.py:91-99 | the served final answer is the stripped summary the agent's run produced |
| Server.ServesFallback | server.py:91-99 | when the agent's loop raised, the served final answer is the stripped fallback answer |
| PyStr.Split | server.py:93 | `str.split` gives one piece without the separator and at least two with it |
| PyStr.Find | app/llm.py:258-259 | the first occurrence of a separator, or none |
| PyStr.SlicePrefix | app/agent/toolcall.py:137 | `s[:n]` is a prefix of length min(n, len) for n ≥ 0, Python's negative slicing otherwise |

## Left out

- Tenacity retries (`@retry` on `ask` and `ask_tool`): one attempt is modelled. The text a caller sees for a failed call is the `explain` parameter, standing for `str(e)` of the `RetryError`.
- `_ollama_ask`: the HTTP request, streaming, chunk parsing and console printing are inside the `Endpoint`/`Oracle` parameters.
- The `temperature or self.temperature` rule is modelled in `Pipeline.Effective`; temperatures are exact reals rather than floats.
- Logging, timing and every `print` banner.
- `app.schema`, `app.tool`, `Memory`, `ToolCollection`, `Manus`, the `ReActAgent` step loop and the configuration loader are not part of this model. Their behaviour is an assumption (`Schema`) or an input (`World.execute`, the `loop` of `Agent.Run`, the recording snag of `Agent.Think`).
- Agent.Think: the reply to `ask_tool` is an input, and the tool catalogue's `to_params()` is not modelled.
- Agent.Act: the `except` around `execute_tool` (app/agent/toolcall.py:152-154) is not modelled, because `execute_tool` never raises (`Agent.ExecuteTool`).
- Agent.Act: `tool_calls` of `None` is treated as an empty list.
- Pipeline.Upstream: the `try/except` in `_execute_browser_task` and `_execute_research_task` is not modelled, because `process_task` never raises.
- Pipeline.Upstream: `next(...)` over the agent list is replaced by the team's three named fields.
- `shared_context` is never read; both tasks pass `{}`.
- Json: numbers are integers only; floats are left out.
- Json.Repr: of the characters `str.isprintable()` rejects, only those up to U+00FF are escaped (as `\xNN`); the ones above, such as U+200B, U+2028, U+2029 and U+FEFF, are written raw, where Python writes `\uNNNN`. A full Unicode category table is out of scope.
- Prompt.InstructionsShow: states only that the catalogue and the example id appear. The exact text is pinned piece by piece by `Prompt.PreambleRendered`, `Prompt.FormatHeadRendered`, `Prompt.ExampleTailRendered`, `Prompt.RemarksRendered` and `Prompt.ClosingRendered`.
- PyStr.Lower: lower-cases ASCII only. Non-ASCII letters cannot lower into a routing keyword or `terminate` except U+0130 and U+212A, and neither completes a keyword here.
- Server: the startup hook, the Ollama connection check, ngrok, `/` and `/health` are left out. Whether the agent was built is the `ready` input.
- Server: `agent.run` is the `run` input. The `ToolCallAgent.run` modelled here never raises, so the direct-answer path is only reachable for agents not part of this model.
- The `ResponseCache` of the coordinator is modelled (`Cache`), but `process_query` never reads or writes it.
- `app/swarm/task_pipeline.py`, `main.py`, `test_browser.py` and `app/utils/ollama_check.py` are not part of this model.
