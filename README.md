# Liu Yao divination console in Dafny

This project models the core of a divination web service and its collaboration
console. It has three parts.

- **The agent pipeline.** `runDivinationOrchestration` runs five LLM agents in a
  fixed order. The agents are intake (`questionProcessor`), analysis
  (`liuYaoExpert`), a bounded QA review loop (`qa`), context mapping
  (`contextualizer`) and synthesis (`synthesizer`). Each completed call is
  appended to one step log. A review that finds inconsistencies sends its
  feedback back to the analyser, which runs again. The loop runs at most
  `maxQaIterations` times.
  - `executeAgent` makes one generation call, applies the agent's parser and
    builds the step record. A failed call becomes an `AgentInvocationError`.
  - The five agent definitions pair a constant prompt with a parser. Each parser
    falls back to a fixed value when the backend text is not the JSON it expects.
- **`analyzeConsultation`.** A deterministic consultation analyser. It rejects a
  blank question and normalises the model name against a three-entry table. It
  then builds a summary, a three-sentence reasoning and a list of
  recommendations.
- **The console form.** The field rules, `validate` with its error maps, the
  `hasErrors` gate of submission, and the updates of the agent list.

How the code is modelled:

- `Orchestrator.Run` is the imperative engine. Its `while` loop updates the same
  variables as the source, and the step log is a `StepLog` object appended in
  place, also by `RunLiuYaoAgent`.
- `Run` is proved to compute `Orchestrator.Orchestrate`, the same run written
  over values. The client's state there is a `Session`. Every property of a run
  is proved about `Orchestrate`, for every script of replies, every question,
  every review budget and every behaviour of `JSON.parse`.
- The generation client is `ScriptedClient`. It answers from a script of replies
  (texts or failures) and logs every call it receives, like the test suite's
  mock client.
- `JSON.parse` is not implemented. It is a parameter: `JsRuntime.parse` returns
  `None` when the text is not JSON. JavaScript's string conversion of a
  non-string value is the parameter `JsRuntime.show`. It returns `None` when the
  conversion throws, as it does for an object whose `toString` and `valueOf`
  are not functions.
- A conversion can throw in two places. In the analyser's parser, `join` throws
  inside the `try`, so the parser returns the raw text. In the review loop, the
  warning's template literal embeds the feedback with no `try` around it, so the
  run rejects with `RunError.UnprintableFeedback` before the analyser runs again.
- The `try` block of each parser covers the property reads as well as the parse.
  So the JSON `null` takes the `catch` fallback just as unparseable text does.
  Any other non-object value has none of the properties the parsers read.
- In `analyzeConsultation` and `validate`, the array pushes and dictionary
  updates are kept as loops and in-place updates of local variables. Each such
  method is proved against a function that states its result.
- Parsers, rules and list updates are Dafny functions, so each is deterministic:
  the same input always gives the same output.

## Model

| member | source | states |
|---|---|---|
| Json.Coalesce | lib/agents/prompts.ts:13 | definition of `a ?? b`: the left operand unless it is `undefined` or `null`, so an empty string or `false` is kept; its uses are stated by Prompts.ParseIntake, Prompts.ParseContext, Prompts.ParseSynthesis and Orchestrator.FeedbackAfter |
| Json.JoinValues | lib/agents/prompts.ts:29 | `join` yields a text exactly when every element converts to a string, and fails when any one does not |
| AgentTypes.TextOr | lib/orchestrator.ts:40-42 | definition of the `typeof output === 'string'` test; what each use hands on is stated by RunProperties.RefinedQuestionThreaded and RunProperties.ClosingUsesFinalAnalysis |
| Prompts.Definition | lib/agents/prompts.ts:6-80 | the registry gives each of the five identities a definition that carries that identity and that agent's parser, with the prompt made of the agent's lead, the shared JSON-only instruction and its schema |
| Prompts.Receiver | lib/agents/prompts.ts:11-13 | `JSON.parse` or the first property read throws exactly when the text is not JSON or is the JSON `null`; any other non-object value has no properties |
| Prompts.ParseIntake | lib/agents/prompts.ts:10-18 | `refinedQuestion` unless it is nullish, else `keyDetails` unless nullish, else the raw text; the raw text whenever the text is not an object |
| Prompts.PiecesOfTwo | lib/agents/prompts.ts:28-29 | `filter(Boolean)` keeps the truthy values of `analysis` then `guidance`, in that order; the join of the survivors fails exactly when one of them does not convert to a string, and two survivors that do are joined by a blank line |
| Prompts.Pieces | lib/agents/prompts.ts:28 | the filtered list is no longer than the candidates and holds only truthy candidates; Prompts.PiecesOfTwo gives it exactly for the parser's two |
| Prompts.ParseExpert | lib/agents/prompts.ts:25-33 | both truthy fields joined by a blank line, one truthy field alone, the raw text when neither is truthy or the text is not an object; also the raw text when a truthy field does not convert to a string, because `join` then throws inside the `try` |
| Prompts.ParseReview | lib/agents/prompts.ts:40-51 | on an object, `consistent` is the truthiness of the field and `feedback`/`reasons` pass through; unparseable text or `null` gives the fail-open `{consistent: true}`; any other value is not consistent |
| Prompts.ParseContext | lib/agents/prompts.ts:58-65 | `contextNotes ?? raw`, and the raw text when the text is not an object |
| Prompts.ParseSynthesis | lib/agents/prompts.ts:72-79 | `answer ?? raw`, and the raw text when the text is not an object |
| Prompts.ThrowingTryFallsBack | lib/agents/prompts.ts:10-79 | whenever a parser's `try` block throws, in the parse, in the first property read or in the analyser's `join`, the parser returns its `catch` value: the raw text, or the fail-open evaluation for the QA parser |
| Prompts.ReviewFailOpenAsymmetry | lib/agents/prompts.ts:42-50 | unparseable text passes the review while a parsed object without `consistent` fails it |
| Prompts.TextParsersFallBackToRaw | lib/agents/prompts.ts:10-79 | the four text parsers return exactly the raw text as a string whenever the text is not a JSON object |
| Prompts.ApplyParser | lib/agents/prompts.ts:10-79 | definition of applying an agent's parser; characterised by Prompts.ThrowingTryFallsBack, Prompts.TextParsersFallBackToRaw and the per-parser contracts above |
| Prompts.NameTextInjective | lib/agents/types.ts:1-6 | the five agent names are distinct strings |
| Prompts.PromptEmbedsInstruction | lib/agents/prompts.ts:3-71 | every agent's prompt contains the shared JSON-only instruction |
| GenerationClient.Respond | tests/orchestrator.test.ts:19-29 | definition of the mock's answer: the next scripted reply, or the "No scripted response available for agent" failure on an empty script; that a run uses up the script in order is RunProperties.LogReplaysScript |
| GenerationClient.ScriptedClient.constructor | tests/orchestrator.test.ts:11-17 | the client starts with the given script and an empty call log |
| GenerationClient.ScriptedClient.Generate | tests/orchestrator.test.ts:19-29 | the call is appended to the log and the answer and remaining script are those of `Respond` |
| AgentInvocation.OutputOf | lib/agents/utils.ts:26 | definition of `parser ? parser(raw) : raw`; that each step holds its agent's parse of the reply is RunProperties.LogReplaysScript |
| AgentInvocation.Execute | lib/agents/utils.ts:21-43 | succeeds exactly when generation did; the step records the definition's name and prompt, the raw response and the parsed output; a failure carries "Failed to execute agent: " + name and the original cause |
| AgentInvocation.Invoke | lib/agents/utils.ts:22-25 | definition of one invocation over values; that it adds exactly one replayed step or aborts the run at that call is OrchestratorProperties.InvokeStep |
| OrchestratorProperties.InvokeStep | lib/agents/utils.ts:21-43 | one invocation logs one call with the definition's name, prompt and input; on success the step records that reply and its parse and sees exactly the earlier steps; on failure every earlier reply was text and the error names the agent and carries the cause |
| AgentInvocation.ExecuteAgent | lib/agents/utils.ts:16-44 | the client receives exactly one call, with the definition's header and the input unchanged, and the result is `Execute` of the client's reply |
| Orchestrator.FeedbackAfter | lib/orchestrator.ts:76 | the fallback feedback text is used only when the review's feedback is null or undefined; any other feedback, an empty string included, is kept |
| Orchestrator.EffectiveMax | lib/orchestrator.ts:28 | definition of the destructuring default: 3 only when `maxQaIterations` is absent; Orchestrator.Run runs `Orchestrate` with it |
| Orchestrator.EvaluationOf | lib/orchestrator.ts:65 | definition of the unchecked `as QaEvaluation` cast: the QA parser's evaluation passes through; RunProperties.SatisfiedIffApproved states what the loop does with it |
| Orchestrator.RunExpert | lib/orchestrator.ts:126-154 | one analyser call with the refined question, the feedback and the steps so far; a failed call adds no step |
| Orchestrator.StepLog.constructor | lib/orchestrator.ts:29 | the log starts empty |
| Orchestrator.StepLog.Push | lib/orchestrator.ts:43 | the step is appended and nothing else changes |
| Orchestrator.RunLiuYaoAgent | lib/orchestrator.ts:126-154 | logs one analyser call given a copy of the caller's steps, appends the step to the caller's log, and returns the parsed text or the raw response |
| Orchestrator.ReviewLoop | lib/orchestrator.ts:53-88 | the imperative loop ends in the state `QaLoop` computes and makes exactly its calls, or fails with its error: a failed call, or the TypeError of the warning whose feedback does not convert to a string |
| Orchestrator.ReviewRound | lib/orchestrator.ts:58-87 | one pass of the loop body makes exactly the calls of `QaRound` and ends in its state: an approving review, or a rejecting review, its warning and a re-run; or it fails as `QaRound` fails |
| Orchestrator.QaRound | lib/orchestrator.ts:58-87 | a pass that does not fail counts one iteration; how a pass ends is characterised by OrchestratorProperties.RoundKeeps and RunProperties.AbortsAtFirstFailure; Orchestrator.ReviewRound computes it |
| Orchestrator.QaLoop | lib/orchestrator.ts:53-88 | definition of the loop over values; characterised by RunProperties.ReviewBudget, RunProperties.SatisfiedIffApproved and RunProperties.FeedbackReachesRerun; Orchestrator.ReviewLoop computes it |
| OrchestratorProperties.RoundKeeps | lib/orchestrator.ts:58-87 | a pass of the loop keeps the step log's shape and the call log's invariants, or aborts the run at its last call |
| Orchestrator.Conclude | lib/orchestrator.ts:96-123 | context mapping and synthesis make the calls `Finish` makes and return its result |
| Orchestrator.Finish | lib/orchestrator.ts:96-123 | definition of the closing calls over values; characterised by RunProperties.ClosingUsesFinalAnalysis; Orchestrator.Conclude computes it |
| Orchestrator.Run | lib/orchestrator.ts:24-124 | the run returns `Orchestrate`'s result for the effective budget (3 when it is left out), uses up the same replies and makes the same calls, so it rejects exactly where `Orchestrate` fails: a failed call, or the warning's TypeError (RunProperties.AbortsAtFirstFailure) |
| Orchestrator.Orchestrate | lib/orchestrator.ts:24-124 | definition of a run over values; its guarantees are the RunProperties lemmas below, and Orchestrator.Run is proved to compute it |
| RunProperties.StepLogShape | lib/orchestrator.ts:43-117 | the log is intake, analysis, k pairs of a rejecting review and a re-analysis, one approving review exactly when satisfied, then context and synthesis; k is within the budget and below it exactly when satisfied |
| RunProperties.ReviewBudget | lib/orchestrator.ts:53-90 | at most `maxQa` reviews and one analysis more than the rejected reviews; an unsatisfied run used all `maxQa` reviews in 2·maxQa+4 steps; a budget of 0 gives 4 steps and no approval |
| RunProperties.SatisfiedIffApproved | lib/orchestrator.ts:57-73 | `qaSatisfied` holds exactly when some review judged the analysis consistent, and such a review is the last one |
| RunProperties.FeedbackReachesRerun | lib/orchestrator.ts:76-87 | the first analysis gets no feedback; every re-analysis directly follows a rejecting review and gets that review's feedback, or the fallback text |
| RunProperties.ReviewSeesLatestAnalysis | lib/orchestrator.ts:59-64 | every review directly follows an analysis, is given its text, and is given the previous review's feedback (none for the first) |
| RunProperties.RefinedQuestionThreaded | lib/orchestrator.ts:30-42 | the intake gets the original question and no earlier steps; every later call gets the intake's text when it is a string, else the original question |
| RunProperties.ClosingUsesFinalAnalysis | lib/orchestrator.ts:96-123 | context mapping and synthesis get the last analysis and the last feedback; synthesis gets the context notes; the final answer is the synthesiser's text or raw response |
| RunProperties.LogReplaysScript | lib/orchestrator.ts:29-144 | one call per step, using up the script in order; each step has its agent, the prompt sent, the reply text and that agent's parse of it; each call got a copy of exactly the steps before it |
| RunProperties.AbortsAtFirstFailure | lib/orchestrator.ts:32-117 | a failed run makes no call after its last one and every earlier call got text; either that call failed and the error names its agent and carries the reply's cause, or it was a rejecting review whose feedback does not convert to a string, so the warning threw |
| JsStrings.TrimFacts | lib/analyzer.ts:21 | `trim` leaves no whitespace at either end and gives the empty string exactly when the text is all whitespace |
| JsStrings.Trim | lib/analyzer.ts:21 | definition of `trim`; characterised by JsStrings.TrimFacts |
| JsStrings.IndexOf | lib/analyzer.ts:32 | the first index where the pattern occurs, or -1 when it occurs nowhere |
| JsStrings.ReplaceFirst | lib/analyzer.ts:32 | definition of `replace` with a string pattern (first occurrence only); characterised by Analyzer.LabelOf |
| JsStrings.Join | lib/analyzer.ts:33-37 | definition of `join`; characterised by Analyzer.ReasoningShape |
| Analyzer.NormalizeModel | lib/analyzer.ts:26 | definition of the table lookup: a model in the table is kept and any other becomes `liuyao-lite`; beyond the definition, the result is always a key of the table, which the description lookup needs |
| Analyzer.ModelLabel | lib/analyzer.ts:32 | definition of the two `replace` calls; characterised by Analyzer.LabelOf and Analyzer.LabelsOfTable |
| Analyzer.ContextSentence | lib/analyzer.ts:28-30 | definition of the context sentence; characterised by Analyzer.ReasoningSentences |
| Analyzer.Summary | lib/analyzer.ts:32 | definition of the summary template; characterised by Analyzer.SummaryNamesModel |
| Analyzer.Reasoning | lib/analyzer.ts:33-37 | definition of the reasoning; characterised by Analyzer.ReasoningShape and Analyzer.ReasoningSentences |
| Analyzer.Recommendations | lib/analyzer.ts:39-47 | definition of the list the method builds; characterised by Analyzer.RecommendationCount |
| Analyzer.Consult | lib/analyzer.ts:19-54 | fails, with "A question is required for consultation.", exactly when the question is empty or whitespace |
| Analyzer.AnalyzeConsultation | lib/analyzer.ts:19-54 | the method with the in-place push computes `Consult`: it fails exactly on a blank question, with the required-question message |
| Analyzer.LabelOf | lib/analyzer.ts:32 | removing the first `liuyao-` and then turning the first `-` into a space names `liuyao-`+t as t when t has no dash |
| Analyzer.LabelsOfTable | lib/analyzer.ts:32 | the three table models are named `lite`, `classic` and `experimental` in the summary |
| Analyzer.SummaryNamesModel | lib/analyzer.ts:32 | the summary names the normalised model's label at a fixed place: `classic` for the classic model, `lite` for every model outside the table |
| Analyzer.ReasoningShape | lib/analyzer.ts:33-37 | the reasoning is the description sentence, the context sentence and the pattern sentence joined by single spaces; a non-empty context appears in it right after the quote lead |
| Analyzer.ReasoningSentences | lib/analyzer.ts:28-37 | for a valid request, a missing or empty context gives the fixed no-context sentence and a non-empty one is quoted in the second sentence |
| Analyzer.RecommendationCount | lib/analyzer.ts:39-47 | three fixed recommendations first; a fourth, the mindfulness line, last, exactly for the experimental model |
| Analyzer.DependsOnModelAndContext | lib/analyzer.ts:20-53 | past the question check, two requests with the same normalised model and context get the same response |
| AgentConsole.NameRule | src/App.jsx:31-34 | the name fails, with its message, exactly when its trimmed length is under 2 |
| AgentConsole.ExpertiseRule | src/App.jsx:35 | expertise fails only when empty; whitespace passes |
| AgentConsole.LongTextRule | src/App.jsx:36-47 | contribution, verdict and advice fail, with their message, exactly when the trimmed length is under 10 |
| AgentConsole.Entry | src/App.jsx:57-62 | definition of `if (error) agentErrors[field] = error`; what it adds up to is AgentConsole.CheckAgent and AgentConsole.ErrorsPerAgent |
| AgentConsole.CheckAgent | src/App.jsx:56-62 | an agent's errors hold exactly the failing fields, each with its message |
| AgentConsole.ErrorMapStep | src/App.jsx:63-65 | each agent adds its entry, keyed by its id, exactly when it has an error |
| AgentConsole.Validate | src/App.jsx:52-79 | the loop builds the per-agent map of all the agents and the two field errors |
| AgentConsole.AgentErrorMap | src/App.jsx:55-66 | definition of the `forEach` over values; characterised by AgentConsole.ErrorEntries and AgentConsole.ErrorsPerAgent; AgentConsole.Validate computes it |
| AgentConsole.FieldErrorsOf | src/App.jsx:67-76 | definition of the two field checks; AgentConsole.Validate computes it and AgentConsole.HasErrorsIffSomeCheckFails uses it |
| AgentConsole.LastFailing | src/App.jsx:55-66 | the position of the last agent with that id that fails a check, or -1 when there is none |
| AgentConsole.ErrorEntries | src/App.jsx:55-66 | an id has an entry exactly when some agent with that id fails, and the entry is the checks of the last such agent |
| AgentConsole.ErrorsPerAgent | src/App.jsx:55-66 | with unique ids, an agent has an entry exactly when it fails, and the entry holds its own failing fields |
| AgentConsole.CheckSubmission | src/App.jsx:88-97 | with any agent or field error, submission stops with the errors and "Review the highlighted fields."; otherwise the payload goes on unchanged |
| AgentConsole.HasErrorsIffSomeCheckFails | src/App.jsx:88-93 | `hasErrors` holds exactly when some agent fails a check or the verdict or advice is too short |
| AgentConsole.HasErrors | src/App.jsx:89-91 | definition of the gate; characterised by AgentConsole.HasErrorsIffSomeCheckFails and AgentConsole.CheckSubmission |
| AgentConsole.CreateAgent | src/App.jsx:13-20 | definition of a blank agent with the given id and index and the `balanced` confidence; how it keeps the list valid is AgentConsole.AddKeepsUnique and AgentConsole.UpdatesKeepList |
| AgentConsole.InitialAgents | src/App.jsx:23 | definition of the starting list of one blank agent at index 1; what the updates preserve from it is AgentConsole.UpdatesKeepList |
| AgentConsole.WithField | src/App.jsx:139-142 | `{...agent, [field]: value}` sets that field and keeps every other field, the id and the index |
| AgentConsole.ChangeAgent | src/App.jsx:135-146 | only the named field of the agents with that id changes; other agents, other fields, ids, order and length are kept |
| AgentConsole.ChangeKeepsUnique | src/App.jsx:135-146 | changing a field keeps unique ids unique |
| AgentConsole.ChangeIdempotent | src/App.jsx:135-146 | applying the same change twice equals applying it once |
| AgentConsole.AddAgent | src/App.jsx:148-150 | definition of the append of a blank agent with index one past the old length; AgentConsole.AddKeepsUnique and AgentConsole.UpdatesKeepList carry what it preserves |
| AgentConsole.AddKeepsUnique | src/App.jsx:148-150 | adding an agent with a fresh id keeps the ids unique |
| AgentConsole.Without | src/App.jsx:153 | the filter keeps exactly the agents with another id, and changes nothing when no agent has the id |
| AgentConsole.WithoutKeepsUnique | src/App.jsx:153 | filtering keeps unique ids unique |
| AgentConsole.WithoutRemovesAtMostOne | src/App.jsx:153 | with unique ids, filtering removes at most one agent |
| AgentConsole.RemoveAgent | src/App.jsx:152-154 | definition of the guarded filter (a list of one agent is kept); AgentConsole.RemoveNeverEmpties and AgentConsole.UpdatesKeepList carry what it preserves |
| AgentConsole.RemoveNeverEmpties | src/App.jsx:152-154 | with unique ids, removing never empties a non-empty list and keeps the ids unique |
| AgentConsole.UpdatesKeepList | src/App.jsx:135-154 | from the initial list, changes, removes and adds with a fresh id keep the list non-empty with unique ids |

## Left out

- Logging: the orchestrator's `debug` and `warn` messages are console side effects and are not modelled. Only the string conversion of the feedback that the loop's warning embeds is modelled, because it can throw.
- `async`/`await`: the awaited calls run one after another, so they are sequential method calls. Concurrent runs share no state.
- JSON parsing itself (RFC 8259) is the parameter `JsRuntime.parse`. How `join` and a template literal convert a non-string value, and whether that throws, is the parameter `JsRuntime.show`.
- The unchecked `as` casts: parsed fields are any JSON value or absent, so `qaFeedback` may carry a non-string value, as it can in the source. The conversion of that value for the warning may throw, and the model carries that as `RunError.UnprintableFeedback`.
- JSON numbers are reals. The only falsy number is 0, because `JSON.parse` never gives NaN.
- GenerationClient.ScriptedClient.Generate: logs every call, including one that finds the script empty. The test suite's mock throws before logging in that case, so after an exhausted script the mock's log is one call shorter.
- GenerationClient.ScriptedClient.Generate: does not model the mock's check that the scripted name matches the calling agent. Instead, the order of the calls is proved (RunProperties.StepLogShape, RunProperties.LogReplaysScript).
- AgentInvocation.Execute: a parser that throws is not modelled, because every parser here is total. Only a failed generation reaches the `catch`; the wrapping of that failure is modelled.
- `maxQaIterations` is a `nat`; negative and non-integer budgets are not modelled.
- `MODEL_DESCRIPTIONS` is a three-key map. The object-literal lookup in the source also accepts inherited keys such as `toString`, which the model does not.
- Lengths count Unicode code points, not UTF-16 code units, so `trim().length` differs for characters outside the Basic Multilingual Plane.
- Form values are strings, as the form produces them. `!value` is therefore the empty-string test, and missing or non-string values are not modelled.
- AgentConsole.WithField: `[field]` covers only the four fields the form edits (name, expertise, contribution, confidence), not arbitrary keys.
- `generateId` is not modelled because it is nondeterministic. Ids are opaque strings passed as parameters, and freshness is a precondition where it matters.
- The rest of `handleSubmit` is not modelled: the `fetch`, the success and error statuses, and the submission id. Nor are the React rendering and hooks, the Express routes, CORS, server-sent events, timeouts, the zod schemas, the stream helper and the placeholder service.
- Analyzer.AnalyzeConsultation: its contract ties the result to `Consult`. The count and order of the recommendations are stated in Analyzer.RecommendationCount, not in the method's own `ensures`.
- That each call's prompt is its agent's registry prompt is stated per call (AgentInvocation.ExecuteAgent), not as an invariant of the client.
