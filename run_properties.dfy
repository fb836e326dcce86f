/**
 * The guarantees of a run of the pipeline, for every script of replies, every
 * question, every review budget and every behaviour of JSON.parse. Each theorem
 * is about Orchestrate, which `Orchestrator.Run` is proved to compute; each is
 * stated by a predicate and proved from the Concluded description of a run.
 */
module RunProperties {
  import opened Wrappers
  import opened Json
  import opened AgentTypes
  import opened Prompts
  import opened GenerationClient
  import opened AgentInvocation
  import opened Orchestrator
  import opened OrchestratorProperties

  /**
   * The log is intake, the first analysis, k rounds of a rejecting review and a
   * re-run, one approving review exactly when the run is satisfied, then context
   * mapping and synthesis; k is within the budget and falls short of it exactly
   * when a review approved.
   */
  ghost predicate ShapedLog(maxQa: nat, res: OrchestrationResult) {
    exists k: nat ::
      && k <= maxQa
      && (res.qaSatisfied <==> k < maxQa)
      && Names(res.steps) == LoopNames(k, res.qaSatisfied) + [Contextualizer, Synthesizer]
  }

  /**
   * At most `maxQa` reviews; one more analysis than rejected reviews; one intake,
   * one context step and one synthesis; an unsatisfied run used its whole budget,
   * so a budget of 0 gives four steps and no approval.
   */
  ghost predicate WithinBudget(maxQa: nat, res: OrchestrationResult) {
    var names := Names(res.steps);
    && Count(names, Qa) <= maxQa
    && Count(names, LiuYaoExpert) == Count(names, Qa) + (if res.qaSatisfied then 0 else 1)
    && Count(names, QuestionProcessor) == 1
    && Count(names, Contextualizer) == 1
    && Count(names, Synthesizer) == 1
    && (!res.qaSatisfied ==> Count(names, Qa) == maxQa && |res.steps| == 2 * maxQa + 4)
    && (maxQa == 0 ==> !res.qaSatisfied && |res.steps| == 4)
  }

  /**
   * The run is satisfied exactly when some review judged the analysis consistent,
   * and such a review is the last one, right before context mapping.
   */
  ghost predicate ApprovalEndsLoop(res: OrchestrationResult) {
    var steps := res.steps;
    && (res.qaSatisfied <==>
          exists i :: 0 <= i < |steps| && steps[i].name == Qa && Verdict(steps[i]).consistent)
    && (forall i :: 0 <= i < |steps| && steps[i].name == Qa && Verdict(steps[i]).consistent ==> i == |steps| - 3)
  }

  /**
   * The first analysis gets no feedback; every later one follows a review that
   * found inconsistencies and gets that review's feedback, or the fallback text
   * when the review left it null or undefined.
   */
  ghost predicate FeedbackThreaded(res: OrchestrationResult, calls: seq<Call>) {
    && 2 <= |res.steps| == |calls|
    && calls[1].input.qaFeedback == None
    && forall i :: 1 < i < |res.steps| && res.steps[i].name == LiuYaoExpert ==>
         && res.steps[i - 1].name == Qa
         && !Verdict(res.steps[i - 1]).consistent
         && calls[i].input.qaFeedback == Some(FeedbackAfter(Verdict(res.steps[i - 1])))
  }

  /**
   * Every review follows an analysis and is given its text, and is given the
   * feedback of the review before it (none for the first).
   */
  ghost predicate ReviewsSeeLatest(res: OrchestrationResult, calls: seq<Call>) {
    && |res.steps| == |calls|
    && forall i :: 1 < i < |res.steps| && res.steps[i].name == Qa ==>
         && res.steps[i - 1].name == LiuYaoExpert
         && calls[i].input.liuYaoAnalysis == Some(AnalysisText(res.steps[i - 1]))
         && (i == 2 ==> calls[i].input.qaFeedback == None)
         && (i > 2 ==> res.steps[i - 2].name == Qa
                       && calls[i].input.qaFeedback == Some(FeedbackAfter(Verdict(res.steps[i - 2]))))
  }

  /**
   * The intake gets the seeker's question alone; every later call gets the
   * refined question (the intake's text, or the original when it gave none).
   */
  ghost predicate QuestionThreaded(question: string, res: OrchestrationResult, calls: seq<Call>) {
    && 1 <= |res.steps| == |calls|
    && calls[0].input == IntakeInput(question)
    && forall i :: 1 <= i < |calls| ==> calls[i].input.question == TextOr(res.steps[0].parsed, question)
  }

  /**
   * Context mapping and synthesis get the last analysis and the last review
   * feedback; synthesis also gets the context notes; the final answer is the
   * synthesiser's text.
   */
  ghost predicate ClosingThreaded(res: OrchestrationResult, calls: seq<Call>) {
    var n := |res.steps|;
    var j := n - 3 - (if res.qaSatisfied then 1 else 0);
    && 4 <= n == |calls|
    && 1 <= j
    && res.steps[j].name == LiuYaoExpert
    && res.steps[n - 2].name == Contextualizer
    && res.steps[n - 1].name == Synthesizer
    && calls[n - 2].input.liuYaoAnalysis == Some(AnalysisText(res.steps[j]))
    && calls[n - 1].input.liuYaoAnalysis == Some(AnalysisText(res.steps[j]))
    && calls[n - 2].input.qaFeedback == (if j == 1 then None else Some(FeedbackAfter(Verdict(res.steps[j - 1]))))
    && calls[n - 1].input.qaFeedback == calls[n - 2].input.qaFeedback
    && calls[n - 2].input.contextNotes == None
    && calls[n - 1].input.contextNotes == Some(AnalysisText(res.steps[n - 2]))
    && res.finalAnswer == AnalysisText(res.steps[n - 1])
  }

  // Each property of a concluded run.

  lemma ShapeClosed(maxQa: nat, res: OrchestrationResult, calls: seq<Call>, st: LoopState)
    requires ClosedLog(res, calls, st.steps, st.session.calls) && StateShape(st)
    requires res.qaSatisfied == st.satisfied && st.iterations <= maxQa && (st.satisfied || st.iterations == maxQa)
    ensures ShapedLog(maxQa, res)
  {
    var k := st.iterations - (if st.satisfied then 1 else 0);
    ClosedNames(res.steps, st.steps);
    assert Names(res.steps) == LoopNames(k, res.qaSatisfied) + [Contextualizer, Synthesizer];
  }

  lemma ShapeOf(js: JsRuntime, replies: seq<Reply>, question: string, maxQa: nat, o: Outcome, st: LoopState)
    requires o.result.Success? && Concluded(js, replies, question, maxQa, o.result.value, o.session, st)
    ensures ShapedLog(maxQa, o.result.value)
  {
    ClosedLogOf(js, replies, question, maxQa, o, st);
    ShapeClosed(maxQa, o.result.value, o.session.calls, st);
  }

  /** How many of each agent a log of the shape holds. */
  lemma CountShape(k: nat, satisfied: bool)
    ensures var names := LoopNames(k, satisfied) + [Contextualizer, Synthesizer];
      && Count(names, Qa) == k + (if satisfied then 1 else 0)
      && Count(names, LiuYaoExpert) == k + 1
      && Count(names, QuestionProcessor) == 1
      && Count(names, Contextualizer) == 1
      && Count(names, Synthesizer) == 1
  {
    var tail := if satisfied then [Qa] else [];
    var head := [QuestionProcessor, LiuYaoExpert];
    var names := head + Rounds(k) + tail + [Contextualizer, Synthesizer];
    assert LoopNames(k, satisfied) + [Contextualizer, Synthesizer] == names;
    CountRounds(k);
    forall a: AgentName
      ensures Count(names, a) == Count(head, a) + Count(Rounds(k), a) + Count(tail, a) + Count([Contextualizer, Synthesizer], a)
    {
      CountAppend(head + Rounds(k) + tail, [Contextualizer, Synthesizer], a);
      CountAppend(head + Rounds(k), tail, a);
      CountAppend(head, Rounds(k), a);
    }
    assert head[..1] == [QuestionProcessor];
    assert [Contextualizer, Synthesizer][..1] == [Contextualizer];
    assert [QuestionProcessor][..0] == [] && [Contextualizer][..0] == [] && [Qa][..0] == [];
  }

  lemma BudgetOf(maxQa: nat, res: OrchestrationResult)
    requires ShapedLog(maxQa, res)
    ensures WithinBudget(maxQa, res)
  {
    var k: nat :| k <= maxQa && (res.qaSatisfied <==> k < maxQa)
      && Names(res.steps) == LoopNames(k, res.qaSatisfied) + [Contextualizer, Synthesizer];
    CountShape(k, res.qaSatisfied);
  }

  /** A log closed by two steps after the loop's log `loop`, with the calls `loopCalls`. */
  ghost predicate ClosedLog(res: OrchestrationResult, calls: seq<Call>, loop: seq<AgentStep>, loopCalls: seq<Call>) {
    && 2 <= |loop| == |loopCalls|
    && |res.steps| == |calls| == |loop| + 2
    && res.steps[..|loop|] == loop
    && calls[..|loop|] == loopCalls
    && res.steps[|loop|].name == Contextualizer
    && res.steps[|loop| + 1].name == Synthesizer
  }

  lemma ClosedLogOf(js: JsRuntime, replies: seq<Reply>, question: string, maxQa: nat, o: Outcome, st: LoopState)
    requires o.result.Success? && Concluded(js, replies, question, maxQa, o.result.value, o.session, st)
    ensures ClosedLog(o.result.value, o.session.calls, st.steps, st.session.calls)
  {
  }

  lemma ApprovalCore(res: OrchestrationResult, calls: seq<Call>, loop: seq<AgentStep>, loopCalls: seq<Call>,
                     k: nat, sat: bool)
    requires ClosedLog(res, calls, loop, loopCalls) && res.qaSatisfied == sat
    requires Names(loop) == LoopNames(k, sat)
    requires ExpertFeedback(loop, loopCalls)
    requires sat ==> Verdict(loop[|loop| - 1]).consistent
    ensures ApprovalEndsLoop(res)
  {
    var steps := res.steps;
    var n := |steps|;
    assert forall i :: 0 <= i < n - 2 ==> steps[i] == loop[i];
    forall i | 0 <= i < n && steps[i].name == Qa && Verdict(steps[i]).consistent
      ensures i == n - 3 && sat
    {
      assert i < n - 2;
      LoopNamesAt(k, sat, i);
      assert i + 1 >= n - 2 by {
        if i + 1 < n - 2 {
          LoopNamesAt(k, sat, i + 1);
        }
      }
    }
    if sat {
      LoopNamesAt(k, sat, n - 3);
    }
  }

  lemma ApprovalClosed(res: OrchestrationResult, calls: seq<Call>, st: LoopState)
    requires ClosedLog(res, calls, st.steps, st.session.calls) && StateShape(st)
    requires ExpertFeedback(st.steps, st.session.calls) && res.qaSatisfied == st.satisfied
    ensures ApprovalEndsLoop(res)
  {
    ApprovalCore(res, calls, st.steps, st.session.calls, st.iterations - (if st.satisfied then 1 else 0), st.satisfied);
  }

  lemma ApprovalOf(js: JsRuntime, replies: seq<Reply>, question: string, maxQa: nat, o: Outcome, st: LoopState)
    requires o.result.Success? && Concluded(js, replies, question, maxQa, o.result.value, o.session, st)
    ensures ApprovalEndsLoop(o.result.value)
  {
    ClosedLogOf(js, replies, question, maxQa, o, st);
    ApprovalClosed(o.result.value, o.session.calls, st);
  }

  lemma FeedbackClosed(res: OrchestrationResult, calls: seq<Call>, loop: seq<AgentStep>, loopCalls: seq<Call>)
    requires ClosedLog(res, calls, loop, loopCalls) && ExpertFeedback(loop, loopCalls)
    ensures FeedbackThreaded(res, calls)
  {
    assert forall i :: 0 <= i < |loop| ==> res.steps[i] == loop[i] && calls[i] == loopCalls[i];
  }

  lemma FeedbackOf(js: JsRuntime, replies: seq<Reply>, question: string, maxQa: nat, o: Outcome, st: LoopState)
    requires o.result.Success? && Concluded(js, replies, question, maxQa, o.result.value, o.session, st)
    ensures FeedbackThreaded(o.result.value, o.session.calls)
  {
    ClosedLogOf(js, replies, question, maxQa, o, st);
    FeedbackClosed(o.result.value, o.session.calls, st.steps, st.session.calls);
  }

  lemma ReviewsClosed(res: OrchestrationResult, calls: seq<Call>, loop: seq<AgentStep>, loopCalls: seq<Call>)
    requires ClosedLog(res, calls, loop, loopCalls) && ReviewInputs(loop, loopCalls)
    ensures ReviewsSeeLatest(res, calls)
  {
    assert forall i :: 0 <= i < |loop| ==> res.steps[i] == loop[i] && calls[i] == loopCalls[i];
  }

  lemma ReviewsOf(js: JsRuntime, replies: seq<Reply>, question: string, maxQa: nat, o: Outcome, st: LoopState)
    requires o.result.Success? && Concluded(js, replies, question, maxQa, o.result.value, o.session, st)
    ensures ReviewsSeeLatest(o.result.value, o.session.calls)
  {
    ClosedLogOf(js, replies, question, maxQa, o, st);
    ReviewsClosed(o.result.value, o.session.calls, st.steps, st.session.calls);
  }

  lemma QuestionCore(question: string, refined: string, res: OrchestrationResult, calls: seq<Call>,
                     loop: seq<AgentStep>, loopCalls: seq<Call>)
    requires ClosedLog(res, calls, loop, loopCalls) && AskedWith(loopCalls, refined)
    requires refined == TextOr(loop[0].parsed, question) && calls[0].input == IntakeInput(question)
    requires calls[|loop|].input.question == refined && calls[|loop| + 1].input.question == refined
    ensures QuestionThreaded(question, res, calls)
  {
    assert forall i :: 0 <= i < |loop| ==> res.steps[i] == loop[i] && calls[i] == loopCalls[i];
  }

  lemma QuestionClosed(question: string, res: OrchestrationResult, calls: seq<Call>, st: LoopState)
    requires ClosedLog(res, calls, st.steps, st.session.calls) && ClosingCalls(question, res, calls, st)
    requires AskedWith(st.session.calls, TextOr(st.steps[0].parsed, question)) && calls[0].input == IntakeInput(question)
    ensures QuestionThreaded(question, res, calls)
  {
    QuestionCore(question, TextOr(st.steps[0].parsed, question), res, calls, st.steps, st.session.calls);
  }

  lemma QuestionOf(js: JsRuntime, replies: seq<Reply>, question: string, maxQa: nat, o: Outcome, st: LoopState)
    requires o.result.Success? && Concluded(js, replies, question, maxQa, o.result.value, o.session, st)
    ensures QuestionThreaded(question, o.result.value, o.session.calls)
  {
    ClosedLogOf(js, replies, question, maxQa, o, st);
    QuestionClosed(question, o.result.value, o.session.calls, st);
  }

  lemma ClosingClosed(question: string, res: OrchestrationResult, calls: seq<Call>, st: LoopState)
    requires ClosingCalls(question, res, calls, st) && StateShape(st)
    requires res.qaSatisfied == st.satisfied && res.steps[..|st.steps|] == st.steps
    ensures ClosingThreaded(res, calls)
  {
    var k := st.iterations - (if st.satisfied then 1 else 0);
    assert res.steps[2 * k + 1] == st.steps[2 * k + 1];
    assert k > 0 ==> res.steps[2 * k] == st.steps[2 * k];
  }

  lemma ClosingOf(js: JsRuntime, replies: seq<Reply>, question: string, maxQa: nat, o: Outcome, st: LoopState)
    requires o.result.Success? && Concluded(js, replies, question, maxQa, o.result.value, o.session, st)
    ensures ClosingThreaded(o.result.value, o.session.calls)
  {
    ClosingClosed(question, o.result.value, o.session.calls, st);
  }

  // The theorems.

  /** The order and number of the steps of a successful run. */
  lemma StepLogShape(js: JsRuntime, question: string, maxQa: nat, replies: seq<Reply>)
    ensures var o := Orchestrate(js, question, maxQa, replies);
      o.result.Success? ==> ShapedLog(maxQa, o.result.value)
  {
    var st := OrchestrateFacts(js, question, maxQa, replies);
    var o := Orchestrate(js, question, maxQa, replies);
    if o.result.Success? {
      ShapeOf(js, replies, question, maxQa, o, st);
    }
  }

  /** The review budget bounds the reviews, and an unsatisfied run uses all of it. */
  lemma ReviewBudget(js: JsRuntime, question: string, maxQa: nat, replies: seq<Reply>)
    ensures var o := Orchestrate(js, question, maxQa, replies);
      o.result.Success? ==> WithinBudget(maxQa, o.result.value)
  {
    StepLogShape(js, question, maxQa, replies);
    var o := Orchestrate(js, question, maxQa, replies);
    if o.result.Success? {
      BudgetOf(maxQa, o.result.value);
    }
  }

  /** `qaSatisfied` holds exactly when a review approved, and approval ends the loop. */
  lemma SatisfiedIffApproved(js: JsRuntime, question: string, maxQa: nat, replies: seq<Reply>)
    ensures var o := Orchestrate(js, question, maxQa, replies);
      o.result.Success? ==> ApprovalEndsLoop(o.result.value)
  {
    var st := OrchestrateFacts(js, question, maxQa, replies);
    var o := Orchestrate(js, question, maxQa, replies);
    if o.result.Success? {
      ApprovalOf(js, replies, question, maxQa, o, st);
    }
  }

  /** Each re-run of the analyser gets the feedback of the review that rejected it. */
  lemma FeedbackReachesRerun(js: JsRuntime, question: string, maxQa: nat, replies: seq<Reply>)
    ensures var o := Orchestrate(js, question, maxQa, replies);
      o.result.Success? ==> FeedbackThreaded(o.result.value, o.session.calls)
  {
    var st := OrchestrateFacts(js, question, maxQa, replies);
    var o := Orchestrate(js, question, maxQa, replies);
    if o.result.Success? {
      FeedbackOf(js, replies, question, maxQa, o, st);
    }
  }

  /** Each review gets the analysis just made and the previous review's feedback. */
  lemma ReviewSeesLatestAnalysis(js: JsRuntime, question: string, maxQa: nat, replies: seq<Reply>)
    ensures var o := Orchestrate(js, question, maxQa, replies);
      o.result.Success? ==> ReviewsSeeLatest(o.result.value, o.session.calls)
  {
    var st := OrchestrateFacts(js, question, maxQa, replies);
    var o := Orchestrate(js, question, maxQa, replies);
    if o.result.Success? {
      ReviewsOf(js, replies, question, maxQa, o, st);
    }
  }

  /** The intake refines the question once and every later call works on the refined one. */
  lemma RefinedQuestionThreaded(js: JsRuntime, question: string, maxQa: nat, replies: seq<Reply>)
    ensures var o := Orchestrate(js, question, maxQa, replies);
      o.result.Success? ==> QuestionThreaded(question, o.result.value, o.session.calls)
  {
    var st := OrchestrateFacts(js, question, maxQa, replies);
    var o := Orchestrate(js, question, maxQa, replies);
    if o.result.Success? {
      QuestionOf(js, replies, question, maxQa, o, st);
    }
  }

  /** Context mapping and synthesis work on the final analysis and feedback; the answer is the synthesiser's. */
  lemma ClosingUsesFinalAnalysis(js: JsRuntime, question: string, maxQa: nat, replies: seq<Reply>)
    ensures var o := Orchestrate(js, question, maxQa, replies);
      o.result.Success? ==> ClosingThreaded(o.result.value, o.session.calls)
  {
    var st := OrchestrateFacts(js, question, maxQa, replies);
    var o := Orchestrate(js, question, maxQa, replies);
    if o.result.Success? {
      ClosingOf(js, replies, question, maxQa, o, st);
    }
  }

  /**
   * One call per step, consuming the script in order: each step records its
   * agent, the header sent, the reply's text and that agent's parse of it, and
   * each call was given exactly the steps before it.
   */
  lemma LogReplaysScript(js: JsRuntime, question: string, maxQa: nat, replies: seq<Reply>)
    ensures var o := Orchestrate(js, question, maxQa, replies);
      o.result.Success? ==> Replayed(js, replies, o.result.value.steps, o.session)
  {
    var st := OrchestrateFacts(js, question, maxQa, replies);
  }

  /**
   * A failed run stopped at its first failed call: every earlier call got text,
   * and the error names the failing agent and carries the reply's cause (or the
   * scripted client's exhaustion message).
   */
  lemma AbortsAtFirstFailure(js: JsRuntime, question: string, maxQa: nat, replies: seq<Reply>)
    ensures var o := Orchestrate(js, question, maxQa, replies);
      o.result.Failure? ==> Aborted(js, replies, o.session, o.result.error)
  {
    var st := OrchestrateFacts(js, question, maxQa, replies);
  }
}
