/**
 * The orchestration engine: intake, the Liu Yao analysis, a bounded QA review
 * loop that re-runs the analysis with the QA agent's feedback, context mapping
 * and synthesis, every step appended to one log.
 *
 * `Run` is the imperative engine; `Orchestrate` is the same run stated over
 * values (the client's state as a Session), about which the properties of the
 * run are proved in OrchestratorProperties.
 */
module Orchestrator {
  import opened Wrappers
  import opened Json
  import opened AgentTypes
  import opened Prompts
  import opened GenerationClient
  import opened AgentInvocation

  const DEFAULT_MAX_QA_ITERATIONS: nat := 3

  /** The feedback used when a failed review supplied none. */
  const QA_FALLBACK_FEEDBACK: string := "Please clarify and resolve the identified issues."

  /** `maxQaIterations = DEFAULT_MAX_QA_ITERATIONS` when the option is left out. */
  function EffectiveMax(maxQaIterations: Option<nat>): nat {
    if maxQaIterations.Some? then maxQaIterations.value else DEFAULT_MAX_QA_ITERATIONS
  }

  /**
   * `qaResult.output as QaEvaluation`. The QA parser always yields an
   * evaluation; any other output would read as not consistent.
   */
  function EvaluationOf(o: Output): QaEvaluation {
    if o.Evaluation? then o.evaluation else QaEvaluation(false, None, None)
  }

  /** `evaluation.feedback ?? 'Please clarify and resolve the identified issues.'` */
  function FeedbackAfter(e: QaEvaluation): (r: Json)
    ensures Nullish(e.feedback) ==> r == JStr(QA_FALLBACK_FEEDBACK)
    ensures !Nullish(e.feedback) ==> Some(r) == e.feedback
  {
    Coalesce(e.feedback, JStr(QA_FALLBACK_FEEDBACK))
  }

  /** The input of each kind of call. */
  function IntakeInput(question: string): AgentRuntimeInput {
    AgentRuntimeInput(question, None, None, None, [])
  }

  function ExpertInput(question: string, feedback: Option<Json>, steps: seq<AgentStep>): AgentRuntimeInput {
    AgentRuntimeInput(question, None, feedback, None, steps)
  }

  function ReviewInput(question: string, analysis: string, feedback: Option<Json>, steps: seq<AgentStep>): AgentRuntimeInput {
    AgentRuntimeInput(question, Some(analysis), feedback, None, steps)
  }

  function SynthesisInput(question: string, analysis: string, feedback: Option<Json>, notes: string, steps: seq<AgentStep>)
    : AgentRuntimeInput
  {
    AgentRuntimeInput(question, Some(analysis), feedback, Some(notes), steps)
  }

  /**
   * Why a run rejects: an agent invocation failed, or the feedback of a
   * rejecting review does not convert to a string, so building the warning
   * message that embeds it throws a TypeError that nothing catches.
   */
  datatype RunError = AgentFailed(error: AgentInvocationError) | UnprintableFeedback(feedback: Json)

  /** The outcome of `runLiuYaoAgent`: the analysis text, the log, the client state. */
  datatype ExpertRun = ExpertRun(result: Result<string, AgentInvocationError>, steps: seq<AgentStep>, session: Session)

  /** `runLiuYaoAgent` over values: one analyser call; the step is appended only on success. */
  function RunExpert(js: JsRuntime, question: string, feedback: Option<Json>, steps: seq<AgentStep>, s: Session)
    : (r: ExpertRun)
    ensures r.session.calls == s.calls + [Call(LiuYaoExpert, LiuYaoExpertAgent.prompt, ExpertInput(question, feedback, steps))]
    ensures r.session.replies == Respond(s.replies, LiuYaoExpert).1
    ensures r.result.Failure? ==> r.steps == steps
  {
    var (res, s1) := Invoke(LiuYaoExpertAgent, js, ExpertInput(question, feedback, steps), s);
    if res.Failure? then ExpertRun(Failure(res.error), steps, s1)
    else ExpertRun(Success(TextOr(res.value.output, res.value.step.response)), steps + [res.value.step], s1)
  }

  /** The variables the review loop updates. */
  datatype LoopState = LoopState(
    iterations: nat,
    satisfied: bool,
    feedback: Option<Json>,
    analysis: string,
    steps: seq<AgentStep>,
    session: Session)

  /** The loop's state after a round, and the error that aborted it, if any. */
  datatype LoopResult = LoopResult(error: Option<RunError>, state: LoopState)

  /**
   * One round of the review loop: a review and, when it is not consistent, the
   * warning that embeds its feedback and a re-run of the analyser.
   */
  function QaRound(js: JsRuntime, question: string, st: LoopState): (r: LoopResult)
    ensures r.error.None? ==> r.state.iterations == st.iterations + 1
  {
    var (review, s1) := Invoke(QaAgent, js, ReviewInput(question, st.analysis, st.feedback, st.steps), st.session);
    if review.Failure? then LoopResult(Some(AgentFailed(review.error)), st.(session := s1))
    else
      var steps1 := st.steps + [review.value.step];
      var evaluation := EvaluationOf(review.value.output);
      if evaluation.consistent then
        LoopResult(None, st.(iterations := st.iterations + 1, satisfied := true, steps := steps1, session := s1))
      else
        var feedback := FeedbackAfter(evaluation);
        if ShowText(js, feedback).None? then
          LoopResult(Some(UnprintableFeedback(feedback)), st.(steps := steps1, session := s1))
        else
          var rerun := RunExpert(js, question, Some(feedback), steps1, s1);
          if rerun.result.Failure? then
            LoopResult(Some(AgentFailed(rerun.result.error)), st.(steps := steps1, session := rerun.session))
          else
            LoopResult(None, LoopState(st.iterations + 1, false, Some(feedback), rerun.result.value, rerun.steps, rerun.session))
  }

  /** `while (qaIterations < maxQaIterations && !qaSatisfied)`, stopping at the first failure. */
  function QaLoop(js: JsRuntime, question: string, maxQa: nat, st: LoopState): LoopResult
    decreases maxQa - st.iterations
  {
    if st.iterations >= maxQa || st.satisfied then LoopResult(None, st)
    else
      var r := QaRound(js, question, st);
      if r.error.Some? then r else QaLoop(js, question, maxQa, r.state)
  }

  /** The result of a run over values, and the client's state after it. */
  datatype Outcome = Outcome(result: Result<OrchestrationResult, RunError>, session: Session)

  /** The loop's starting state, after the first analysis. */
  function InitialLoopState(analysis: string, steps: seq<AgentStep>, s: Session): LoopState {
    LoopState(0, false, None, analysis, steps, s)
  }

  /** A run of the whole pipeline over values, starting from the client's script `replies`. */
  function Orchestrate(js: JsRuntime, question: string, maxQa: nat, replies: seq<Reply>): Outcome {
    var (intake, s1) := Invoke(QuestionProcessorAgent, js, IntakeInput(question), Session(replies, []));
    if intake.Failure? then Outcome(Failure(AgentFailed(intake.error)), s1)
    else
      var refined := TextOr(intake.value.output, question);
      var first := RunExpert(js, refined, None, [intake.value.step], s1);
      if first.result.Failure? then Outcome(Failure(AgentFailed(first.result.error)), first.session)
      else
        var loop := QaLoop(js, refined, maxQa, InitialLoopState(first.result.value, first.steps, first.session));
        if loop.error.Some? then Outcome(Failure(loop.error.value), loop.state.session)
        else Finish(js, refined, loop.state.satisfied, loop.state.feedback, loop.state.analysis, loop.state.steps, loop.state.session)
  }

  /** Context mapping and synthesis after the loop, and the result. */
  function Finish(js: JsRuntime, question: string, satisfied: bool, feedback: Option<Json>, analysis: string,
                  steps: seq<AgentStep>, s: Session): Outcome
  {
    var (context, s1) := Invoke(RealWorldContextAgent, js, ReviewInput(question, analysis, feedback, steps), s);
    if context.Failure? then Outcome(Failure(AgentFailed(context.error)), s1)
    else
      var notes := TextOr(context.value.output, context.value.step.response);
      var steps1 := steps + [context.value.step];
      var (synthesis, s2) := Invoke(SynthesizerAgent, js, SynthesisInput(question, analysis, feedback, notes, steps1), s1);
      if synthesis.Failure? then Outcome(Failure(AgentFailed(synthesis.error)), s2)
      else
        var answer := TextOr(synthesis.value.output, synthesis.value.step.response);
        Outcome(Success(OrchestrationResult(answer, satisfied, steps1 + [synthesis.value.step])), s2)
  }

  /** The run's step log, appended in place. */
  class StepLog {
    var entries: seq<AgentStep>

    constructor ()
      ensures entries == []
    {
      entries := [];
    }

    method Push(step: AgentStep)
      modifies this
      ensures entries == old(entries) + [step]
    {
      entries := entries + [step];
    }
  }

  /** `runLiuYaoAgent`: runs the analyser on a copy of the log and appends its step to the caller's log. */
  method RunLiuYaoAgent(client: ScriptedClient, steps: StepLog, js: JsRuntime, refinedQuestion: string, feedback: Option<Json>)
    returns (r: Result<string, AgentInvocationError>)
    modifies client, steps
    ensures client.calls ==
      old(client.calls) + [Call(LiuYaoExpert, LiuYaoExpertAgent.prompt, ExpertInput(refinedQuestion, feedback, old(steps.entries)))]
    ensures client.replies == Respond(old(client.replies), LiuYaoExpert).1
    ensures var e := RunExpert(js, refinedQuestion, feedback, old(steps.entries), Session(old(client.replies), []));
      r == e.result && steps.entries == e.steps
  {
    var result := ExecuteAgent(LiuYaoExpertAgent, client, ExpertInput(refinedQuestion, feedback, steps.entries), js);
    if result.Failure? {
      return Failure(result.error);
    }
    steps.Push(result.value.step);
    var liuYaoAnalysis := TextOr(result.value.output, result.value.step.response);
    r := Success(liuYaoAnalysis);
  }

  /**
   * `runDivinationOrchestration`. The result and the client's final state are
   * those of Orchestrate on the client's script; the client receives exactly
   * the calls Orchestrate lists, appended to its log.
   */
  method Run(question: string, client: ScriptedClient, maxQaIterations: Option<nat>, js: JsRuntime)
    returns (r: Result<OrchestrationResult, RunError>)
    modifies client
    ensures var o := Orchestrate(js, question, EffectiveMax(maxQaIterations), old(client.replies));
      && r == o.result
      && client.replies == o.session.replies
      && client.calls == old(client.calls) + o.session.calls
  {
    var maxQa := EffectiveMax(maxQaIterations);
    var steps := new StepLog();
    ghost var session := Session(client.replies, []);
    var refinedQuestion := question;

    var questionProcessing := ExecuteAgent(QuestionProcessorAgent, client, IntakeInput(question), js);
    session := Invoke(QuestionProcessorAgent, js, IntakeInput(question), session).1;
    if questionProcessing.Failure? {
      return Failure(AgentFailed(questionProcessing.error));
    }
    refinedQuestion := TextOr(questionProcessing.value.output, question);
    steps.Push(questionProcessing.value.step);
    assert steps.entries == [questionProcessing.value.step];

    ghost var first := RunExpert(js, refinedQuestion, None, steps.entries, session);
    var liuYaoAnalysis := RunLiuYaoAgent(client, steps, js, refinedQuestion, None);
    session := first.session;
    if liuYaoAnalysis.Failure? {
      return Failure(AgentFailed(liuYaoAnalysis.error));
    }

    ghost var loop := QaLoop(js, refinedQuestion, maxQa, InitialLoopState(liuYaoAnalysis.value, steps.entries, session));
    var failure, qaSatisfied, qaFeedback, analysis := ReviewLoop(client, steps, js, refinedQuestion, maxQa,
                                                                  liuYaoAnalysis.value, session, old(client.calls));
    session := loop.state.session;
    if failure.Some? {
      return Failure(failure.value);
    }

    r := Conclude(client, steps, js, refinedQuestion, qaSatisfied, qaFeedback, analysis, session, old(client.calls));
  }

  /**
   * The review loop of `runDivinationOrchestration`: at most `maxQa` reviews,
   * stopping at the first consistent one, each rejecting review followed by a
   * warning that embeds its feedback and a re-run of the analyser with it.
   */
  method ReviewLoop(client: ScriptedClient, steps: StepLog, js: JsRuntime, refinedQuestion: string, maxQa: nat,
                    firstAnalysis: string, ghost session0: Session, ghost base: seq<Call>)
    returns (failure: Option<RunError>, qaSatisfied: bool, qaFeedback: Option<Json>, analysis: string)
    requires client.replies == session0.replies && client.calls == base + session0.calls
    modifies client, steps
    ensures var res := QaLoop(js, refinedQuestion, maxQa, InitialLoopState(firstAnalysis, old(steps.entries), session0));
      && failure == res.error
      && client.replies == res.state.session.replies
      && client.calls == base + res.state.session.calls
      && (failure.None? ==>
            && qaSatisfied == res.state.satisfied && qaFeedback == res.state.feedback
            && analysis == res.state.analysis && steps.entries == res.state.steps)
  {
    ghost var start := InitialLoopState(firstAnalysis, steps.entries, session0);
    ghost var session := session0;
    qaSatisfied := false;
    qaFeedback := None;
    analysis := firstAnalysis;
    var qaIterations: nat := 0;

    while qaIterations < maxQa && !qaSatisfied
      invariant client.replies == session.replies && client.calls == base + session.calls
      invariant QaLoop(js, refinedQuestion, maxQa, LoopState(qaIterations, qaSatisfied, qaFeedback, analysis, steps.entries, session))
        == QaLoop(js, refinedQuestion, maxQa, start)
      decreases maxQa - qaIterations
    {
      ghost var current := LoopState(qaIterations, false, qaFeedback, analysis, steps.entries, session);
      qaIterations := qaIterations + 1;
      var roundFailure;
      roundFailure, qaSatisfied, qaFeedback, analysis := ReviewRound(client, steps, js, refinedQuestion, qaFeedback, analysis, current, base);
      session := QaRound(js, refinedQuestion, current).state.session;
      if roundFailure.Some? {
        return roundFailure, qaSatisfied, qaFeedback, analysis;
      }
    }
    failure := None;
  }

  /**
   * One pass of the review loop's body: a review and, when it rejects the
   * analysis, the warning that embeds its feedback and a re-run of the analyser
   * with that feedback. The outcome is that of QaRound from `st`.
   */
  method ReviewRound(client: ScriptedClient, steps: StepLog, js: JsRuntime, refinedQuestion: string,
                     feedback: Option<Json>, analysis: string, ghost st: LoopState, ghost base: seq<Call>)
    returns (failure: Option<RunError>, qaSatisfied: bool, qaFeedback: Option<Json>, nextAnalysis: string)
    requires st.feedback == feedback && st.analysis == analysis && st.steps == steps.entries && !st.satisfied
    requires client.replies == st.session.replies && client.calls == base + st.session.calls
    modifies client, steps
    ensures var r := QaRound(js, refinedQuestion, st);
      && failure == r.error
      && client.replies == r.state.session.replies
      && client.calls == base + r.state.session.calls
      && (failure.None? ==>
            && qaSatisfied == r.state.satisfied && qaFeedback == r.state.feedback
            && nextAnalysis == r.state.analysis && steps.entries == r.state.steps)
  {
    qaSatisfied, qaFeedback, nextAnalysis := false, feedback, analysis;
    var input := ReviewInput(refinedQuestion, analysis, feedback, steps.entries);
    var qaResult := ExecuteAgent(QaAgent, client, input, js);
    ghost var session := Invoke(QaAgent, js, input, st.session).1;
    if qaResult.Failure? {
      return Some(AgentFailed(qaResult.error)), qaSatisfied, qaFeedback, nextAnalysis;
    }
    var evaluation := EvaluationOf(qaResult.value.output);
    steps.Push(qaResult.value.step);

    if evaluation.consistent {
      return None, true, qaFeedback, nextAnalysis;
    }

    qaFeedback := Some(FeedbackAfter(evaluation));
    // The warning message embeds the feedback, converting it to a string.
    var feedbackText := ShowText(js, qaFeedback.value);
    if feedbackText.None? {
      return Some(UnprintableFeedback(qaFeedback.value)), qaSatisfied, qaFeedback, nextAnalysis;
    }
    ghost var rerun := RunExpert(js, refinedQuestion, qaFeedback, steps.entries, session);
    var liuYaoAnalysis := RunLiuYaoAgent(client, steps, js, refinedQuestion, qaFeedback);
    if liuYaoAnalysis.Failure? {
      return Some(AgentFailed(liuYaoAnalysis.error)), qaSatisfied, qaFeedback, nextAnalysis;
    }
    return None, false, qaFeedback, liuYaoAnalysis.value;
  }

  /** The end of `runDivinationOrchestration`: context mapping, synthesis and the result. */
  method Conclude(client: ScriptedClient, steps: StepLog, js: JsRuntime, refinedQuestion: string, qaSatisfied: bool,
                  qaFeedback: Option<Json>, liuYaoAnalysis: string, ghost session: Session, ghost base: seq<Call>)
    returns (r: Result<OrchestrationResult, RunError>)
    requires client.replies == session.replies && client.calls == base + session.calls
    modifies client, steps
    ensures var o := Finish(js, refinedQuestion, qaSatisfied, qaFeedback, liuYaoAnalysis, old(steps.entries), session);
      && r == o.result
      && client.replies == o.session.replies
      && client.calls == base + o.session.calls
  {
    var contextInput := ReviewInput(refinedQuestion, liuYaoAnalysis, qaFeedback, steps.entries);
    var contextResult := ExecuteAgent(RealWorldContextAgent, client, contextInput, js);
    if contextResult.Failure? {
      return Failure(AgentFailed(contextResult.error));
    }
    var contextNotes := TextOr(contextResult.value.output, contextResult.value.step.response);
    steps.Push(contextResult.value.step);

    var synthesisInput := SynthesisInput(refinedQuestion, liuYaoAnalysis, qaFeedback, contextNotes, steps.entries);
    var synthesizerResult := ExecuteAgent(SynthesizerAgent, client, synthesisInput, js);
    if synthesizerResult.Failure? {
      return Failure(AgentFailed(synthesizerResult.error));
    }
    var finalAnswer := TextOr(synthesizerResult.value.output, synthesizerResult.value.step.response);
    steps.Push(synthesizerResult.value.step);

    r := Success(OrchestrationResult(finalAnswer, qaSatisfied, steps.entries));
  }
}
