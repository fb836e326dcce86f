/** The records exchanged between the agents, the invocation layer and the orchestrator. */
module AgentTypes {
  import opened Wrappers
  import opened Json

  /** The five fixed agent identities. */
  datatype AgentName = QuestionProcessor | LiuYaoExpert | Qa | Contextualizer | Synthesizer

  /** The identity as the string the backend sees. */
  function NameText(n: AgentName): string {
    match n
    case QuestionProcessor => "questionProcessor"
    case LiuYaoExpert => "liuYaoExpert"
    case Qa => "qa"
    case Contextualizer => "contextualizer"
    case Synthesizer => "synthesizer"
  }

  /**
   * The QA agent's verdict. `feedback` and `reasons` are passed through
   * from the parsed JSON unchecked, so each is any JSON value or undefined (None).
   */
  datatype QaEvaluation = QaEvaluation(consistent: bool, feedback: Option<Json>, reasons: Option<Json>)

  /**
   * What a parser yields: a plain value (a string when the parser fell back to the
   * raw text) or, for the QA agent, an evaluation record.
   */
  datatype Output = Value(value: Json) | Evaluation(evaluation: QaEvaluation)

  /** `typeof output === 'string' ? output : fallback`. */
  function TextOr(o: Output, fallback: string): (r: string)
    ensures (o.Value? && o.value.JStr?) ==> r == o.value.s
    ensures !(o.Value? && o.value.JStr?) ==> r == fallback
  {
    if o.Value? && o.value.JStr? then o.value.s else fallback
  }

  /** The five parsing functions of the agent definitions. */
  datatype Parser = IntakeParser | ExpertParser | ReviewParser | ContextParser | SynthesisParser

  /** A fixed agent specification: identity, instruction prompt and optional parser. */
  datatype AgentDefinition = AgentDefinition(name: AgentName, prompt: string, parser: Option<Parser>)

  /** The record of one completed invocation. */
  datatype AgentStep = AgentStep(name: AgentName, prompt: string, response: string, parsed: Output)

  /** The payload of one generation call; None stands for an absent or undefined field. */
  datatype AgentRuntimeInput = AgentRuntimeInput(
    question: string,
    liuYaoAnalysis: Option<string>,
    qaFeedback: Option<Json>,
    contextNotes: Option<string>,
    previousSteps: seq<AgentStep>)

  /** What one invocation returns to its caller. */
  datatype AgentExecution = AgentExecution(output: Output, step: AgentStep)

  /** The final result of a run. */
  datatype OrchestrationResult = OrchestrationResult(finalAnswer: string, qaSatisfied: bool, steps: seq<AgentStep>)
}
