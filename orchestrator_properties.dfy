/**
 * What a run of the pipeline guarantees, proved about Orchestrate (and so,
 * through Run's postcondition, about the imperative engine): the order and
 * number of steps, the cap on reviews, when `qaSatisfied` holds, how feedback
 * and the working question reach each call, that every call sees exactly the
 * steps before it, and that the first failed call ends the run.
 */
module OrchestratorProperties {
  import opened Wrappers
  import opened Json
  import opened AgentTypes
  import opened Prompts
  import opened GenerationClient
  import opened AgentInvocation
  import opened Orchestrator

  /** The analysis text a Liu Yao step hands on. */
  function AnalysisText(step: AgentStep): string {
    TextOr(step.parsed, step.response)
  }

  /** The evaluation a review step recorded. */
  function Verdict(step: AgentStep): QaEvaluation {
    EvaluationOf(step.parsed)
  }

  /** One call answered with text, recorded as `step`. */
  ghost predicate Answered(js: JsRuntime, reply: Reply, call: Call, step: AgentStep) {
    && reply.Text?
    && call.name == step.name
    && call.prompt == step.prompt
    && step.response == reply.text
    && step.parsed == ApplyParser(ParserOf(step.name), js, reply.text)
  }

  /**
   * The first |steps| replies of the script `replies` were all text and produced `steps`,
   * one call each, and every call was given exactly the steps before it.
   */
  ghost predicate Replayed(js: JsRuntime, replies: seq<Reply>, steps: seq<AgentStep>, s: Session) {
    && |s.calls| == |steps| <= |replies|
    && s.replies == replies[|steps|..]
    && forall i :: 0 <= i < |steps| ==>
         Answered(js, replies[i], s.calls[i], steps[i]) && s.calls[i].input.previousSteps == steps[..i]
  }

  /**
   * The last call failed: every earlier call was answered with text, the last one
   * got an error (or found the script empty), and the error names its agent and
   * carries the cause.
   */
  ghost predicate CallFailed(replies: seq<Reply>, s: Session, e: AgentInvocationError) {
    var n := |s.calls| - 1;
    && n >= 0
    && (forall i :: 0 <= i < n ==> i < |replies| && replies[i].Text?)
    && (n < |replies| ==> replies[n].Error? && e.cause == replies[n].cause)
    && (n >= |replies| ==> e.cause == ExhaustedCause(s.calls[n].name))
    && e.message == FailureMessage(s.calls[n].name)
  }

  /**
   * The last call was a review answered with text that rejects the analysis, and
   * the feedback it leaves, `feedback`, does not convert to a string.
   */
  ghost predicate FeedbackUnprintable(js: JsRuntime, replies: seq<Reply>, s: Session, feedback: Json) {
    var n := |s.calls| - 1;
    && 0 <= n < |replies|
    && (forall i :: 0 <= i <= n ==> replies[i].Text?)
    && s.calls[n].name == Qa
    && var verdict := ParseReview(js, replies[n].text);
    && !verdict.consistent
    && feedback == FeedbackAfter(verdict)
    && ShowText(js, feedback).None?
  }

  /** The run stopped right after its last call, for the reason `e` gives. */
  ghost predicate Aborted(js: JsRuntime, replies: seq<Reply>, s: Session, e: RunError) {
    match e
    case AgentFailed(err) => CallFailed(replies, s, err)
    case UnprintableFeedback(feedback) => FeedbackUnprintable(js, replies, s, feedback)
  }

  /** One invocation extends a replayed log by one step, or aborts the run. */
  lemma InvokeStep(js: JsRuntime, replies: seq<Reply>, steps: seq<AgentStep>, s: Session, def: AgentDefinition, input: AgentRuntimeInput)
    requires Replayed(js, replies, steps, s) && input.previousSteps == steps
    requires def.parser == Some(ParserOf(def.name))
    ensures var (res, s1) := Invoke(def, js, input, s);
      && s1.calls == s.calls + [Call(def.name, def.prompt, input)]
      && (res.Success? ==>
            && Replayed(js, replies, steps + [res.value.step], s1)
            && res.value.step.name == def.name
            && res.value.output == res.value.step.parsed)
      && (res.Failure? ==> CallFailed(replies, s1, res.error))
  {
    var (res, s1) := Invoke(def, js, input, s);
    var k := |steps|;
    if k < |replies| {
      assert s.replies[0] == replies[k];
      assert s.replies[1..] == replies[k + 1..];
    }
    if res.Success? {
      var steps1 := steps + [res.value.step];
      assert steps1[..k] == steps;
      forall i | 0 <= i < |steps1|
        ensures Answered(js, replies[i], s1.calls[i], steps1[i]) && s1.calls[i].input.previousSteps == steps1[..i]
      {
        if i < k {
          assert steps1[..i] == steps[..i];
        }
      }
    }
  }

  /** The agents of a step log, in order. */
  function Names(steps: seq<AgentStep>): (r: seq<AgentName>)
    ensures |r| == |steps| && forall i :: 0 <= i < |steps| ==> r[i] == steps[i].name
  {
    seq(|steps|, i requires 0 <= i < |steps| => steps[i].name)
  }

  /** `k` rounds of the review loop that each found inconsistencies: a review, then a re-run. */
  function Rounds(k: nat): (r: seq<AgentName>)
    ensures |r| == 2 * k
  {
    if k == 0 then [] else Rounds(k - 1) + [Qa, LiuYaoExpert]
  }

  /** The agents of the loop's step log after `k` failed reviews and, if `satisfied`, one approving one. */
  function LoopNames(k: nat, satisfied: bool): (r: seq<AgentName>)
    ensures |r| == 2 + 2 * k + (if satisfied then 1 else 0)
  {
    [QuestionProcessor, LiuYaoExpert] + Rounds(k) + (if satisfied then [Qa] else [])
  }

  /** Every call after the intake gets the working question. */
  ghost predicate AskedWith(calls: seq<Call>, question: string) {
    forall i :: 1 <= i < |calls| ==> calls[i].input.question == question
  }

  /**
   * The first analysis gets no feedback; every re-run follows a review that found
   * inconsistencies and gets that review's feedback.
   */
  ghost predicate ExpertFeedback(steps: seq<AgentStep>, calls: seq<Call>)
    requires 2 <= |steps| <= |calls|
  {
    && calls[1].input.qaFeedback == None
    && forall i :: 1 < i < |steps| && steps[i].name == LiuYaoExpert ==>
         && steps[i - 1].name == Qa
         && !Verdict(steps[i - 1]).consistent
         && calls[i].input.qaFeedback == Some(FeedbackAfter(Verdict(steps[i - 1])))
  }

  /**
   * Every review follows an analysis and gets its text, and gets the feedback of the
   * review before it (none for the first review).
   */
  ghost predicate ReviewInputs(steps: seq<AgentStep>, calls: seq<Call>)
    requires |steps| <= |calls|
  {
    forall i :: 1 < i < |steps| && steps[i].name == Qa ==>
      && steps[i - 1].name == LiuYaoExpert
      && calls[i].input.liuYaoAnalysis == Some(AnalysisText(steps[i - 1]))
      && (i == 2 ==> calls[i].input.qaFeedback == None)
      && (i > 2 ==> steps[i - 2].name == Qa && calls[i].input.qaFeedback == Some(FeedbackAfter(Verdict(steps[i - 2]))))
  }

  /**
   * The loop's own variables agree with its step log: `k` failed reviews and, if
   * `satisfied`, an approving one; the feedback is that of the last review (none
   * before the first) and the analysis that of the last analyser step.
   */
  ghost predicate StateShape(st: LoopState) {
    var k := st.iterations - (if st.satisfied then 1 else 0);
    && (st.satisfied ==> st.iterations >= 1)
    && Names(st.steps) == LoopNames(k, st.satisfied)
    && st.steps[2 * k + 1].name == LiuYaoExpert
    && (k > 0 ==> st.steps[2 * k].name == Qa)
    && (st.satisfied ==> Verdict(st.steps[|st.steps| - 1]).consistent)
    && st.feedback == (if k == 0 then None else Some(FeedbackAfter(Verdict(st.steps[2 * k]))))
    && st.analysis == AnalysisText(st.steps[2 * k + 1])
  }

  /** The shape, and what every call of the log was given. */
  ghost predicate LogInv(question: string, st: LoopState) {
    && |st.steps| == |st.session.calls|
    && StateShape(st)
    && AskedWith(st.session.calls, question)
    && ExpertFeedback(st.steps, st.session.calls)
    && ReviewInputs(st.steps, st.session.calls)
  }

  /** The review loop's invariant: a replayed log of the right shape and inputs. */
  ghost predicate LoopInv(js: JsRuntime, replies: seq<Reply>, question: string, st: LoopState) {
    Replayed(js, replies, st.steps, st.session) && LogInv(question, st)
  }

  /** The names of a log grown by one step. */
  lemma NamesGrow(steps: seq<AgentStep>, step: AgentStep)
    ensures Names(steps + [step]) == Names(steps) + [step.name]
  {
  }

  /** `c` is the call a review in state `st` makes. */
  ghost predicate ReviewCall(c: Call, question: string, st: LoopState) {
    c.name == Qa && c.input == ReviewInput(question, st.analysis, st.feedback, st.steps)
  }

  /** `c` is the call that re-runs the analyser after the rejecting review `review`. */
  ghost predicate ExpertCall(c: Call, question: string, review: AgentStep, steps: seq<AgentStep>) {
    c.name == LiuYaoExpert && c.input == ExpertInput(question, Some(FeedbackAfter(Verdict(review))), steps)
  }

  /** ExpertFeedback survives one more step when a new analysis follows a rejecting review and gets its feedback. */
  lemma ExpertFeedbackGrows(steps: seq<AgentStep>, calls: seq<Call>, step: AgentStep, call: Call)
    requires 2 <= |steps| == |calls| && ExpertFeedback(steps, calls)
    requires step.name == LiuYaoExpert ==>
      && steps[|steps| - 1].name == Qa
      && !Verdict(steps[|steps| - 1]).consistent
      && call.input.qaFeedback == Some(FeedbackAfter(Verdict(steps[|steps| - 1])))
    ensures ExpertFeedback(steps + [step], calls + [call])
  {
    assert forall i :: 0 <= i < |steps| ==> (steps + [step])[i] == steps[i] && (calls + [call])[i] == calls[i];
  }

  /** ReviewInputs survives one more step when a new review gets the latest analysis and feedback. */
  lemma ReviewInputsGrow(steps: seq<AgentStep>, calls: seq<Call>, step: AgentStep, call: Call)
    requires 2 <= |steps| == |calls| && ReviewInputs(steps, calls)
    requires step.name == Qa ==>
      && steps[|steps| - 1].name == LiuYaoExpert
      && call.input.liuYaoAnalysis == Some(AnalysisText(steps[|steps| - 1]))
      && (|steps| == 2 ==> call.input.qaFeedback == None)
      && (|steps| > 2 ==> steps[|steps| - 2].name == Qa
                          && call.input.qaFeedback == Some(FeedbackAfter(Verdict(steps[|steps| - 2]))))
    ensures ReviewInputs(steps + [step], calls + [call])
  {
    assert forall i :: 0 <= i < |steps| ==> (steps + [step])[i] == steps[i] && (calls + [call])[i] == calls[i];
  }

  /** AskedWith survives a call with the working question. */
  lemma AskedWithGrows(calls: seq<Call>, call: Call, question: string)
    requires AskedWith(calls, question) && call.input.question == question
    ensures AskedWith(calls + [call], question)
  {
    assert forall i :: 0 <= i < |calls| ==> (calls + [call])[i] == calls[i];
  }

  /** The loop state after an approving review. */
  function Approved(st: LoopState, review: AgentStep, s1: Session): LoopState {
    st.(iterations := st.iterations + 1, satisfied := true, steps := st.steps + [review], session := s1)
  }

  /** The loop state after a rejecting review and a successful re-run of the analyser. */
  function Rejected(st: LoopState, review: AgentStep, analysis: AgentStep, s2: Session): LoopState {
    LoopState(st.iterations + 1, false, Some(FeedbackAfter(Verdict(review))), AnalysisText(analysis),
              st.steps + [review] + [analysis], s2)
  }

  /** `review` and `s1` extend the log of state `st` by one review call. */
  ghost predicate ReviewAppended(question: string, st: LoopState, review: AgentStep, s1: Session) {
    && review.name == Qa
    && |s1.calls| == |st.session.calls| + 1 && s1.calls[..|st.session.calls|] == st.session.calls
    && ReviewCall(s1.calls[|st.session.calls|], question, st)
  }

  /** `analysis` and `s2` extend the log after the review `review` by the re-run's call. */
  ghost predicate RerunAppended(question: string, st: LoopState, review: AgentStep, s1: Session, analysis: AgentStep, s2: Session) {
    && analysis.name == LiuYaoExpert
    && |s2.calls| == |s1.calls| + 1 && s2.calls[..|s1.calls|] == s1.calls
    && ExpertCall(s2.calls[|s1.calls|], question, review, st.steps + [review])
  }

  lemma ApprovedShape(st: LoopState, review: AgentStep, s1: Session)
    requires StateShape(st) && !st.satisfied && review.name == Qa && Verdict(review).consistent
    ensures StateShape(Approved(st, review, s1))
  {
    NamesGrow(st.steps, review);
    var k := st.iterations;
    var steps1 := st.steps + [review];
    assert steps1[2 * k + 1] == st.steps[2 * k + 1];
    assert k > 0 ==> steps1[2 * k] == st.steps[2 * k];
  }

  lemma RejectedShape(st: LoopState, review: AgentStep, analysis: AgentStep, s2: Session)
    requires StateShape(st) && !st.satisfied && review.name == Qa && analysis.name == LiuYaoExpert
    ensures StateShape(Rejected(st, review, analysis, s2))
  {
    var k := st.iterations;
    NamesGrow(st.steps, review);
    NamesGrow(st.steps + [review], analysis);
    assert Rounds(k + 1) == Rounds(k) + [Qa, LiuYaoExpert];
    assert LoopNames(k + 1, false) == LoopNames(k, false) + [Qa] + [LiuYaoExpert];
    var steps2 := st.steps + [review] + [analysis];
    assert steps2[2 * (k + 1)] == review && steps2[2 * (k + 1) + 1] == analysis;
  }

  lemma ApprovedLogs(question: string, st: LoopState, review: AgentStep, s1: Session)
    requires LogInv(question, st) && !st.satisfied && ReviewAppended(question, st, review, s1)
    ensures var st1 := Approved(st, review, s1);
      && |st1.steps| == |st1.session.calls|
      && AskedWith(st1.session.calls, question)
      && ExpertFeedback(st1.steps, st1.session.calls)
      && ReviewInputs(st1.steps, st1.session.calls)
  {
    var c := s1.calls[|st.session.calls|];
    assert s1.calls == st.session.calls + [c];
    ExpertFeedbackGrows(st.steps, st.session.calls, review, c);
    ReviewInputsGrow(st.steps, st.session.calls, review, c);
    AskedWithGrows(st.session.calls, c, question);
  }

  lemma RejectedLogs(question: string, st: LoopState, review: AgentStep, s1: Session, analysis: AgentStep, s2: Session)
    requires LogInv(question, st) && !st.satisfied && !Verdict(review).consistent
    requires ReviewAppended(question, st, review, s1) && RerunAppended(question, st, review, s1, analysis, s2)
    ensures var st2 := Rejected(st, review, analysis, s2);
      && |st2.steps| == |st2.session.calls|
      && AskedWith(st2.session.calls, question)
      && ExpertFeedback(st2.steps, st2.session.calls)
      && ReviewInputs(st2.steps, st2.session.calls)
  {
    var steps1 := st.steps + [review];
    var n := |st.session.calls|;
    var c1, c2 := s1.calls[n], s2.calls[n + 1];
    var calls1 := st.session.calls + [c1];
    assert s1.calls == calls1;
    assert s2.calls == calls1 + [c2];
    ExpertFeedbackGrows(st.steps, st.session.calls, review, c1);
    ReviewInputsGrow(st.steps, st.session.calls, review, c1);
    AskedWithGrows(st.session.calls, c1, question);
    ExpertFeedbackGrows(steps1, calls1, analysis, c2);
    ReviewInputsGrow(steps1, calls1, analysis, c2);
    AskedWithGrows(calls1, c2, question);
  }

  /** The review a round in state `st` starts with. */
  function ReviewOf(js: JsRuntime, question: string, st: LoopState): (Result<AgentExecution, AgentInvocationError>, Session) {
    Invoke(QaAgent, js, ReviewInput(question, st.analysis, st.feedback, st.steps), st.session)
  }

  /** The re-run of the analyser after the review `review` of a round in state `st`. */
  function RerunOf(js: JsRuntime, question: string, st: LoopState, review: AgentStep, s1: Session)
    : (Result<AgentExecution, AgentInvocationError>, Session)
  {
    Invoke(LiuYaoExpertAgent, js, ExpertInput(question, Some(FeedbackAfter(Verdict(review))), st.steps + [review]), s1)
  }

  /** `review` and `s1` extend a replayed log by one review call. */
  ghost predicate Reviewed(js: JsRuntime, replies: seq<Reply>, question: string, st: LoopState, review: AgentStep, s1: Session) {
    Replayed(js, replies, st.steps + [review], s1) && ReviewAppended(question, st, review, s1)
  }

  /** `analysis` and `s2` extend the replayed log after the review by the re-run's call. */
  ghost predicate Rerun(js: JsRuntime, replies: seq<Reply>, question: string, st: LoopState,
                        review: AgentStep, s1: Session, analysis: AgentStep, s2: Session) {
    Replayed(js, replies, st.steps + [review] + [analysis], s2) && RerunAppended(question, st, review, s1, analysis, s2)
  }

  /** What a round's review call records. */
  lemma ReviewFacts(js: JsRuntime, replies: seq<Reply>, question: string, st: LoopState)
    requires Replayed(js, replies, st.steps, st.session)
    ensures var (review, s1) := ReviewOf(js, question, st);
      && (review.Success? ==> Reviewed(js, replies, question, st, review.value.step, s1)
                              && review.value.output == review.value.step.parsed)
      && (review.Failure? ==> CallFailed(replies, s1, review.error))
  {
    InvokeStep(js, replies, st.steps, st.session, QaAgent, ReviewInput(question, st.analysis, st.feedback, st.steps));
  }

  /** What a round's re-run call records. */
  lemma RerunFacts(js: JsRuntime, replies: seq<Reply>, question: string, st: LoopState, review: AgentStep, s1: Session)
    requires Replayed(js, replies, st.steps + [review], s1)
    ensures var (res, s2) := RerunOf(js, question, st, review, s1);
      && (res.Success? ==> Rerun(js, replies, question, st, review, s1, res.value.step, s2)
                           && res.value.output == res.value.step.parsed)
      && (res.Failure? ==> CallFailed(replies, s2, res.error))
  {
    var steps1 := st.steps + [review];
    InvokeStep(js, replies, steps1, s1, LiuYaoExpertAgent, ExpertInput(question, Some(FeedbackAfter(Verdict(review))), steps1));
  }

  /** How a round ends, in terms of its review and re-run. */
  lemma RoundCases(js: JsRuntime, question: string, st: LoopState)
    ensures var r := QaRound(js, question, st);
      var (review, s1) := ReviewOf(js, question, st);
      && (review.Failure? ==> r == LoopResult(Some(AgentFailed(review.error)), st.(session := s1)))
      && (review.Success? && Verdict(review.value.step).consistent ==>
            review.value.output == review.value.step.parsed ==>
            r == LoopResult(None, Approved(st, review.value.step, s1)))
      && (review.Success? && !Verdict(review.value.step).consistent ==>
            review.value.output == review.value.step.parsed ==>
            var feedback := FeedbackAfter(Verdict(review.value.step));
            && (ShowText(js, feedback).None? ==>
                  r == LoopResult(Some(UnprintableFeedback(feedback)),
                                  st.(steps := st.steps + [review.value.step], session := s1)))
            && (ShowText(js, feedback).Some? ==>
                  var (res, s2) := RerunOf(js, question, st, review.value.step, s1);
                  && (res.Failure? ==> r.error == Some(AgentFailed(res.error)) && r.state.session == s2)
                  && (res.Success? ==> res.value.output == res.value.step.parsed ==>
                        r == LoopResult(None, Rejected(st, review.value.step, res.value.step, s2)))))
  {
  }

  /** A round that fails aborts the run at its last call. */
  lemma RoundAborts(js: JsRuntime, replies: seq<Reply>, question: string, st: LoopState)
    requires Replayed(js, replies, st.steps, st.session)
    ensures var r := QaRound(js, question, st);
      r.error.Some? ==> Aborted(js, replies, r.state.session, r.error.value)
  {
    ReviewFacts(js, replies, question, st);
    RoundCases(js, question, st);
    var (review, s1) := ReviewOf(js, question, st);
    if review.Success? {
      var step, n := review.value.step, |st.steps|;
      var steps1 := st.steps + [step];
      if !Verdict(step).consistent && ShowText(js, FeedbackAfter(Verdict(step))).None? {
        forall i | 0 <= i <= n
          ensures replies[i].Text?
        {
          assert Answered(js, replies[i], s1.calls[i], steps1[i]);
        }
        assert steps1[n] == step;
      } else {
        RerunFacts(js, replies, question, st, step, s1);
      }
    }
  }

  /** A round that ends in an approving review keeps the invariant. */
  lemma RoundApproves(js: JsRuntime, replies: seq<Reply>, question: string, st: LoopState)
    requires LoopInv(js, replies, question, st) && !st.satisfied
    ensures var r := QaRound(js, question, st);
      r.error.None? && r.state.satisfied ==> LoopInv(js, replies, question, r.state)
  {
    ReviewFacts(js, replies, question, st);
    RoundCases(js, question, st);
    var (review, s1) := ReviewOf(js, question, st);
    if review.Success? && Verdict(review.value.step).consistent {
      ApprovedShape(st, review.value.step, s1);
      ApprovedLogs(question, st, review.value.step, s1);
    }
  }

  /** A round that ends in a rejecting review and a successful re-run keeps the invariant. */
  lemma RoundRejects(js: JsRuntime, replies: seq<Reply>, question: string, st: LoopState)
    requires LoopInv(js, replies, question, st) && !st.satisfied
    ensures var r := QaRound(js, question, st);
      r.error.None? && !r.state.satisfied ==> LoopInv(js, replies, question, r.state)
  {
    ReviewFacts(js, replies, question, st);
    RoundCases(js, question, st);
    var (review, s1) := ReviewOf(js, question, st);
    if review.Success? && !Verdict(review.value.step).consistent
       && ShowText(js, FeedbackAfter(Verdict(review.value.step))).Some? {
      RerunFacts(js, replies, question, st, review.value.step, s1);
      var (res, s2) := RerunOf(js, question, st, review.value.step, s1);
      if res.Success? {
        RejectedShape(st, review.value.step, res.value.step, s2);
        RejectedLogs(question, st, review.value.step, s1, res.value.step, s2);
      }
    }
  }

  /** A round of the loop keeps the invariant, or aborts the run. */
  lemma RoundKeeps(js: JsRuntime, replies: seq<Reply>, question: string, st: LoopState)
    requires LoopInv(js, replies, question, st) && !st.satisfied
    ensures var r := QaRound(js, question, st);
      && (r.error.None? ==> LoopInv(js, replies, question, r.state))
      && (r.error.Some? ==> Aborted(js, replies, r.state.session, r.error.value))
  {
    RoundAborts(js, replies, question, st);
    RoundApproves(js, replies, question, st);
    RoundRejects(js, replies, question, st);
  }

  /** The whole loop keeps the invariant and ends approved or with its budget used up, or aborts. */
  lemma {:induction false} LoopKeeps(js: JsRuntime, replies: seq<Reply>, question: string, maxQa: nat, st: LoopState)
    requires LoopInv(js, replies, question, st) && st.iterations <= maxQa
    ensures var r := QaLoop(js, question, maxQa, st);
      && (r.error.None? ==>
            LoopInv(js, replies, question, r.state) && r.state.iterations <= maxQa
            && (r.state.satisfied || r.state.iterations == maxQa))
      && (r.error.Some? ==> Aborted(js, replies, r.state.session, r.error.value))
    decreases maxQa - st.iterations
  {
    if st.iterations < maxQa && !st.satisfied {
      RoundKeeps(js, replies, question, st);
      var r := QaRound(js, question, st);
      if r.error.None? {
        LoopKeeps(js, replies, question, maxQa, r.state);
      }
    }
  }

  /** A round only appends to the log and to the calls. */
  lemma RoundExtends(js: JsRuntime, question: string, st: LoopState)
    ensures var r := QaRound(js, question, st);
      st.steps <= r.state.steps && st.session.calls <= r.state.session.calls
  {
    RoundCases(js, question, st);
  }

  /** The loop only appends to the log and to the calls. */
  lemma {:induction false} LoopExtends(js: JsRuntime, question: string, maxQa: nat, st: LoopState)
    ensures var r := QaLoop(js, question, maxQa, st);
      st.steps <= r.state.steps && st.session.calls <= r.state.session.calls
    decreases maxQa - st.iterations
  {
    if st.iterations < maxQa && !st.satisfied {
      RoundExtends(js, question, st);
      var r := QaRound(js, question, st);
      if r.error.None? {
        LoopExtends(js, question, maxQa, r.state);
      }
    }
  }

  /**
   * What the closing calls were given: context mapping the refined question, the
   * last analysis and feedback and the loop's log; synthesis also the context
   * notes and the log with the context step; the answer is the synthesiser's text.
   */
  ghost predicate ClosingCalls(question: string, res: OrchestrationResult, calls: seq<Call>, st: LoopState) {
    var n := |res.steps|;
    && |st.steps| >= 1 && n == |st.steps| + 2 == |calls|
    && var refined := TextOr(st.steps[0].parsed, question);
    && res.steps[n - 2].name == Contextualizer
    && res.steps[n - 1].name == Synthesizer
    && calls[n - 2].input == ReviewInput(refined, st.analysis, st.feedback, st.steps)
    && calls[n - 1].input == SynthesisInput(refined, st.analysis, st.feedback, AnalysisText(res.steps[n - 2]),
                                            st.steps + [res.steps[n - 2]])
    && res.finalAnswer == AnalysisText(res.steps[n - 1])
  }

  /**
   * A successful run, described through the state `st` the review loop ended in:
   * the loop's log followed by context mapping and synthesis, the whole log
   * replaying the script, and what the last two calls were given.
   */
  ghost predicate Concluded(js: JsRuntime, replies: seq<Reply>, question: string, maxQa: nat,
                            res: OrchestrationResult, s: Session, st: LoopState) {
    var n := |res.steps|;
    && |st.steps| >= 2 && n == |st.steps| + 2
    && res.steps[..n - 2] == st.steps
    && Replayed(js, replies, res.steps, s)
    && s.calls[..n - 2] == st.session.calls
    && s.calls[0].input == IntakeInput(question)
    && LogInv(TextOr(st.steps[0].parsed, question), st)
    && st.iterations <= maxQa
    && (st.satisfied || st.iterations == maxQa)
    && res.qaSatisfied == st.satisfied
    && ClosingCalls(question, res, s.calls, st)
  }

  /** `ctx` and `syn` extend the loop's final log by the context and synthesis calls. */
  ghost predicate Closing(question: string, st: LoopState, ctx: AgentStep, syn: AgentStep, s2: Session)
    requires |st.steps| >= 1
  {
    var refined := TextOr(st.steps[0].parsed, question);
    var n := |st.session.calls|;
    && ctx.name == Contextualizer && syn.name == Synthesizer
    && |s2.calls| == n + 2 && s2.calls[..n] == st.session.calls
    && s2.calls[n].input == ReviewInput(refined, st.analysis, st.feedback, st.steps)
    && s2.calls[n + 1].input == SynthesisInput(refined, st.analysis, st.feedback, AnalysisText(ctx), st.steps + [ctx])
  }

  /** Closing calls, described as ClosingCalls over the whole log. */
  lemma ClosingCallsOf(question: string, st: LoopState, ctx: AgentStep, syn: AgentStep, s2: Session)
    requires |st.steps| >= 1 && |st.steps| == |st.session.calls| && Closing(question, st, ctx, syn, s2)
    ensures ClosingCalls(question, OrchestrationResult(AnalysisText(syn), st.satisfied, st.steps + [ctx] + [syn]), s2.calls, st)
  {
    var steps2 := st.steps + [ctx] + [syn];
    assert steps2[|steps2| - 2] == ctx && steps2[|steps2| - 1] == syn;
  }

  /** The closing calls after a loop that kept its invariant make a Concluded run. */
  lemma ClosingConcludes(js: JsRuntime, replies: seq<Reply>, question: string, maxQa: nat, st: LoopState,
                         ctx: AgentStep, syn: AgentStep, s2: Session)
    requires |st.steps| >= 2 && LoopInv(js, replies, TextOr(st.steps[0].parsed, question), st)
    requires st.session.calls[0].input == IntakeInput(question)
    requires st.iterations <= maxQa && (st.satisfied || st.iterations == maxQa)
    requires Replayed(js, replies, st.steps + [ctx] + [syn], s2) && Closing(question, st, ctx, syn, s2)
    ensures Concluded(js, replies, question, maxQa,
      OrchestrationResult(AnalysisText(syn), st.satisfied, st.steps + [ctx] + [syn]), s2, st)
  {
    var steps2 := st.steps + [ctx] + [syn];
    ClosingCallsOf(question, st, ctx, syn, s2);
    assert steps2[..|steps2| - 2] == st.steps;
    assert s2.calls[0] == st.session.calls[0];
    assert |s2.calls| - 2 == |st.session.calls|;
  }

  /** The context-mapping call after a loop that ended in state `st`. */
  function ContextOf(js: JsRuntime, refined: string, st: LoopState): (Result<AgentExecution, AgentInvocationError>, Session) {
    Invoke(RealWorldContextAgent, js, ReviewInput(refined, st.analysis, st.feedback, st.steps), st.session)
  }

  /** The synthesis call after the context step `ctx`. */
  function SynthesisOf(js: JsRuntime, refined: string, st: LoopState, ctx: AgentStep, s1: Session)
    : (Result<AgentExecution, AgentInvocationError>, Session)
  {
    Invoke(SynthesizerAgent, js, SynthesisInput(refined, st.analysis, st.feedback, AnalysisText(ctx), st.steps + [ctx]), s1)
  }

  /** How Finish ends, in terms of its two calls. */
  lemma FinishCases(js: JsRuntime, refined: string, st: LoopState)
    ensures var o := Finish(js, refined, st.satisfied, st.feedback, st.analysis, st.steps, st.session);
      var (c, s1) := ContextOf(js, refined, st);
      && (c.Failure? ==> o == Outcome(Failure(AgentFailed(c.error)), s1))
      && (c.Success? ==>
            var (y, s2) := SynthesisOf(js, refined, st, c.value.step, s1);
            && (y.Failure? ==> o == Outcome(Failure(AgentFailed(y.error)), s2))
            && (y.Success? ==> o == Outcome(Success(OrchestrationResult(AnalysisText(y.value.step), st.satisfied,
                                                                        st.steps + [c.value.step] + [y.value.step])), s2)))
  {
  }

  /** Context mapping or synthesis that fails aborts the run at its last call. */
  lemma FinishAborts(js: JsRuntime, replies: seq<Reply>, refined: string, st: LoopState)
    requires Replayed(js, replies, st.steps, st.session)
    ensures var o := Finish(js, refined, st.satisfied, st.feedback, st.analysis, st.steps, st.session);
      o.result.Failure? ==> Aborted(js, replies, o.session, o.result.error)
  {
    FinishCases(js, refined, st);
    InvokeStep(js, replies, st.steps, st.session, RealWorldContextAgent, ReviewInput(refined, st.analysis, st.feedback, st.steps));
    var (context, s1) := ContextOf(js, refined, st);
    if context.Success? {
      var ctx := context.value.step;
      InvokeStep(js, replies, st.steps + [ctx], s1, SynthesizerAgent,
                 SynthesisInput(refined, st.analysis, st.feedback, AnalysisText(ctx), st.steps + [ctx]));
    }
  }

  /** The two closing calls, when both succeed, extend the replayed log as Closing says. */
  lemma ClosingFacts(js: JsRuntime, replies: seq<Reply>, question: string, st: LoopState)
    requires |st.steps| >= 1 && Replayed(js, replies, st.steps, st.session)
    ensures var refined := TextOr(st.steps[0].parsed, question);
      var (c, s1) := ContextOf(js, refined, st);
      c.Success? ==>
        var (y, s2) := SynthesisOf(js, refined, st, c.value.step, s1);
        y.Success? ==>
          Replayed(js, replies, st.steps + [c.value.step] + [y.value.step], s2)
          && Closing(question, st, c.value.step, y.value.step, s2)
  {
    var refined := TextOr(st.steps[0].parsed, question);
    InvokeStep(js, replies, st.steps, st.session, RealWorldContextAgent, ReviewInput(refined, st.analysis, st.feedback, st.steps));
    var (context, s1) := ContextOf(js, refined, st);
    if context.Success? {
      var ctx := context.value.step;
      InvokeStep(js, replies, st.steps + [ctx], s1, SynthesizerAgent,
                 SynthesisInput(refined, st.analysis, st.feedback, AnalysisText(ctx), st.steps + [ctx]));
      var (synthesis, s2) := SynthesisOf(js, refined, st, ctx, s1);
      if synthesis.Success? {
        var n := |st.session.calls|;
        assert s2.calls[..n] == st.session.calls;
      }
    }
  }

  /** Context mapping and synthesis after a loop that kept its invariant. */
  lemma FinishFacts(js: JsRuntime, replies: seq<Reply>, question: string, maxQa: nat, st: LoopState)
    requires |st.steps| >= 2 && LoopInv(js, replies, TextOr(st.steps[0].parsed, question), st)
    requires st.session.calls[0].input == IntakeInput(question)
    requires st.iterations <= maxQa && (st.satisfied || st.iterations == maxQa)
    ensures var refined := TextOr(st.steps[0].parsed, question);
      var o := Finish(js, refined, st.satisfied, st.feedback, st.analysis, st.steps, st.session);
      && (o.result.Failure? ==> Aborted(js, replies, o.session, o.result.error))
      && (o.result.Success? ==> Concluded(js, replies, question, maxQa, o.result.value, o.session, st))
  {
    var refined := TextOr(st.steps[0].parsed, question);
    FinishCases(js, refined, st);
    FinishAborts(js, replies, refined, st);
    ClosingFacts(js, replies, question, st);
    var (context, s1) := ContextOf(js, refined, st);
    if context.Success? {
      var (synthesis, s2) := SynthesisOf(js, refined, st, context.value.step, s1);
      if synthesis.Success? {
        ClosingConcludes(js, replies, question, maxQa, st, context.value.step, synthesis.value.step, s2);
      }
    }
  }

  /** The intake and the first analysis leave the loop's starting state with its invariant. */
  lemma StartFacts(js: JsRuntime, replies: seq<Reply>, question: string)
    ensures var (intake, s1) := Invoke(QuestionProcessorAgent, js, IntakeInput(question), Session(replies, []));
      && (intake.Failure? ==> CallFailed(replies, s1, intake.error))
      && (intake.Success? ==>
            var refined := TextOr(intake.value.output, question);
            var first := RunExpert(js, refined, None, [intake.value.step], s1);
            && (first.result.Failure? ==> CallFailed(replies, first.session, first.result.error))
            && (first.result.Success? ==>
                  var st := InitialLoopState(first.result.value, first.steps, first.session);
                  && |st.steps| >= 2
                  && refined == TextOr(st.steps[0].parsed, question)
                  && st.session.calls[0].input == IntakeInput(question)
                  && LoopInv(js, replies, refined, st)))
  {
    assert replies[0..] == replies;
    InvokeStep(js, replies, [], Session(replies, []), QuestionProcessorAgent, IntakeInput(question));
    var (intake, s1) := Invoke(QuestionProcessorAgent, js, IntakeInput(question), Session(replies, []));
    if intake.Success? {
      var refined := TextOr(intake.value.output, question);
      var steps1 := [intake.value.step];
      InvokeStep(js, replies, steps1, s1, LiuYaoExpertAgent, ExpertInput(refined, None, steps1));
      var first := RunExpert(js, refined, None, steps1, s1);
      if first.result.Success? {
        var st := InitialLoopState(first.result.value, first.steps, first.session);
        assert Names(st.steps) == [QuestionProcessor, LiuYaoExpert];
        assert LoopNames(0, false) == [QuestionProcessor, LiuYaoExpert];
      }
    }
  }

  /** The review loop from the starting state `st0`, then Finish: the run aborts or ends in Concluded. */
  lemma LoopThenFinish(js: JsRuntime, replies: seq<Reply>, question: string, maxQa: nat, st0: LoopState)
    returns (st: LoopState)
    requires st0.iterations == 0 && |st0.steps| >= 2
    requires LoopInv(js, replies, TextOr(st0.steps[0].parsed, question), st0)
    requires st0.session.calls[0].input == IntakeInput(question)
    ensures var refined := TextOr(st0.steps[0].parsed, question);
      var loop := QaLoop(js, refined, maxQa, st0);
      && (loop.error.Some? ==> Aborted(js, replies, loop.state.session, loop.error.value))
      && (loop.error.None? ==>
            var o := Finish(js, refined, loop.state.satisfied, loop.state.feedback, loop.state.analysis,
                            loop.state.steps, loop.state.session);
            && (o.result.Failure? ==> Aborted(js, replies, o.session, o.result.error))
            && (o.result.Success? ==> Concluded(js, replies, question, maxQa, o.result.value, o.session, st)))
  {
    var refined := TextOr(st0.steps[0].parsed, question);
    LoopKeeps(js, replies, refined, maxQa, st0);
    var loop := QaLoop(js, refined, maxQa, st0);
    st := loop.state;
    if loop.error.None? {
      assert st.steps[0] == st0.steps[0] && st.session.calls[0] == st0.session.calls[0] by {
        LoopExtends(js, refined, maxQa, st0);
      }
      FinishFacts(js, replies, question, maxQa, st);
    }
  }

  /**
   * Every run either aborts at its first failure or ends in Concluded; `st`
   * is the state the review loop ended in.
   */
  lemma OrchestrateFacts(js: JsRuntime, question: string, maxQa: nat, replies: seq<Reply>) returns (st: LoopState)
    ensures var o := Orchestrate(js, question, maxQa, replies);
      && (o.result.Failure? ==> Aborted(js, replies, o.session, o.result.error))
      && (o.result.Success? ==> Concluded(js, replies, question, maxQa, o.result.value, o.session, st))
  {
    StartFacts(js, replies, question);
    var (intake, s1) := Invoke(QuestionProcessorAgent, js, IntakeInput(question), Session(replies, []));
    st := InitialLoopState("", [], s1);
    if intake.Success? {
      var refined := TextOr(intake.value.output, question);
      var first := RunExpert(js, refined, None, [intake.value.step], s1);
      if first.result.Success? {
        st := LoopThenFinish(js, replies, question, maxQa, InitialLoopState(first.result.value, first.steps, first.session));
      }
    }
  }

  /** How many steps of agent `n` a list of names holds. */
  function Count(names: seq<AgentName>, n: AgentName): nat {
    if names == [] then 0 else Count(names[..|names| - 1], n) + (if names[|names| - 1] == n then 1 else 0)
  }

  lemma {:induction false} CountAppend(a: seq<AgentName>, b: seq<AgentName>, n: AgentName)
    ensures Count(a + b, n) == Count(a, n) + Count(b, n)
    decreases |b|
  {
    if b != [] {
      assert (a + b)[..|a + b| - 1] == a + b[..|b| - 1];
      CountAppend(a, b[..|b| - 1], n);
    } else {
      assert a + b == a;
    }
  }

  lemma {:induction false} CountRounds(k: nat)
    ensures Count(Rounds(k), Qa) == k && Count(Rounds(k), LiuYaoExpert) == k
    ensures Count(Rounds(k), Contextualizer) == 0 && Count(Rounds(k), Synthesizer) == 0
    ensures Count(Rounds(k), QuestionProcessor) == 0
  {
    if k > 0 {
      CountRounds(k - 1);
      CountAppend(Rounds(k - 1), [Qa, LiuYaoExpert], Qa);
      CountAppend(Rounds(k - 1), [Qa, LiuYaoExpert], LiuYaoExpert);
      CountAppend(Rounds(k - 1), [Qa, LiuYaoExpert], Contextualizer);
      CountAppend(Rounds(k - 1), [Qa, LiuYaoExpert], Synthesizer);
      CountAppend(Rounds(k - 1), [Qa, LiuYaoExpert], QuestionProcessor);
      assert [Qa, LiuYaoExpert][..1] == [Qa];
      assert [Qa][..0] == [];
    }
  }

  /** A failed review at every even position of the rounds, a re-run at every odd one. */
  lemma {:induction false} RoundsAt(k: nat, i: nat)
    requires i < 2 * k
    ensures Rounds(k)[i] == (if i % 2 == 0 then Qa else LiuYaoExpert)
  {
    if i < 2 * (k - 1) {
      RoundsAt(k - 1, i);
    }
  }

  /** The agent at each position of the loop's log. */
  lemma LoopNamesAt(k: nat, satisfied: bool, i: nat)
    requires i < |LoopNames(k, satisfied)|
    ensures LoopNames(k, satisfied)[i] ==
      (if i == 0 then QuestionProcessor else if i % 2 == 1 then LiuYaoExpert else Qa)
  {
    if 2 <= i < 2 + 2 * k {
      RoundsAt(k, i - 2);
    }
  }

  /** The names of a log closed by two more steps. */
  lemma ClosedNames(steps: seq<AgentStep>, loopSteps: seq<AgentStep>)
    requires |steps| == |loopSteps| + 2 && steps[..|loopSteps|] == loopSteps
    ensures Names(steps) == Names(loopSteps) + [steps[|steps| - 2].name, steps[|steps| - 1].name]
  {
    assert steps == loopSteps + [steps[|steps| - 2], steps[|steps| - 1]];
  }
}
