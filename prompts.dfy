/**
 * The agent definition registry: five constant prompts, each paired with a
 * parser that turns the backend's raw text into a typed value and never fails.
 *
 * Every parser is a `try`/`catch` around `JSON.parse(raw)` and some property
 * reads. The `try` block throws when the text is not JSON, and also when it is
 * the JSON `null`, because reading a property of `null` throws a TypeError.
 * Any other non-object value (an array, a string, a number, a boolean) has
 * none of the properties read here, so every read gives `undefined`.
 */
module Prompts {
  import opened Wrappers
  import opened Json
  import opened JsStrings
  import opened AgentTypes

  /** The JSON-only instruction every prompt embeds. */
  const JSON_INSTRUCTION: string :=
    "Respond with valid JSON that matches the documented schema. Avoid commentary outside of the JSON payload."

  const INTAKE_LEAD: string := "You are an intake specialist helping structure divination questions. "
  const INTAKE_SCHEMA: string :=
    "\nReturn an object with:\n- refinedQuestion: the clarified question from the seeker.\n- keyDetails: bullet-point notes about the situation."

  const EXPERT_LEAD: string := "You are a seasoned Liu Yao (\U{516D}\U{723B}) divination expert. "
  const EXPERT_SCHEMA: string :=
    "\nReturn an object with:\n- analysis: interpretation of the hexagrams and changing lines.\n- guidance: actionable advice."

  const REVIEW_LEAD: string := "You are a meticulous QA agent reviewing the Liu Yao expert's interpretation. "
  const REVIEW_SCHEMA: string :=
    "\nReturn an object with:\n- consistent: boolean indicating whether the reasoning is coherent.\n- feedback: clear corrective notes when inconsistencies are found.\n- reasons: array summarising contradictions found."

  const CONTEXT_LEAD: string := "You map symbolic divination insights to pragmatic, real-world context. "
  const CONTEXT_SCHEMA: string :=
    "\nReturn an object with:\n- contextNotes: practical considerations that relate the reading to everyday life."

  const SYNTHESIS_LEAD: string := "You synthesise the Liu Yao divination, QA findings, and real-world context. "
  const SYNTHESIS_SCHEMA: string :=
    "\nReturn an object with:\n- answer: a compassionate, actionable response to the seeker."

  const QuestionProcessorAgent: AgentDefinition :=
    AgentDefinition(QuestionProcessor, INTAKE_LEAD + JSON_INSTRUCTION + INTAKE_SCHEMA, Some(IntakeParser))
  const LiuYaoExpertAgent: AgentDefinition :=
    AgentDefinition(LiuYaoExpert, EXPERT_LEAD + JSON_INSTRUCTION + EXPERT_SCHEMA, Some(ExpertParser))
  const QaAgent: AgentDefinition :=
    AgentDefinition(Qa, REVIEW_LEAD + JSON_INSTRUCTION + REVIEW_SCHEMA, Some(ReviewParser))
  const RealWorldContextAgent: AgentDefinition :=
    AgentDefinition(Contextualizer, CONTEXT_LEAD + JSON_INSTRUCTION + CONTEXT_SCHEMA, Some(ContextParser))
  const SynthesizerAgent: AgentDefinition :=
    AgentDefinition(Synthesizer, SYNTHESIS_LEAD + JSON_INSTRUCTION + SYNTHESIS_SCHEMA, Some(SynthesisParser))

  /** The parser each agent's definition carries. */
  function ParserOf(n: AgentName): Parser {
    match n
    case QuestionProcessor => IntakeParser
    case LiuYaoExpert => ExpertParser
    case Qa => ReviewParser
    case Contextualizer => ContextParser
    case Synthesizer => SynthesisParser
  }

  /** The role sentence that opens each agent's prompt. */
  function Lead(n: AgentName): string {
    match n
    case QuestionProcessor => INTAKE_LEAD
    case LiuYaoExpert => EXPERT_LEAD
    case Qa => REVIEW_LEAD
    case Contextualizer => CONTEXT_LEAD
    case Synthesizer => SYNTHESIS_LEAD
  }

  /** The schema description that closes each agent's prompt. */
  function Schema(n: AgentName): string {
    match n
    case QuestionProcessor => INTAKE_SCHEMA
    case LiuYaoExpert => EXPERT_SCHEMA
    case Qa => REVIEW_SCHEMA
    case Contextualizer => CONTEXT_SCHEMA
    case Synthesizer => SYNTHESIS_SCHEMA
  }

  /** The registry: the definition carrying each identity, its prompt and its parser. */
  function Definition(n: AgentName): (d: AgentDefinition)
    ensures d.name == n && d.parser == Some(ParserOf(n))
    ensures d.prompt == Lead(n) + JSON_INSTRUCTION + Schema(n)
  {
    match n
    case QuestionProcessor => QuestionProcessorAgent
    case LiuYaoExpert => LiuYaoExpertAgent
    case Qa => QaAgent
    case Contextualizer => RealWorldContextAgent
    case Synthesizer => SynthesizerAgent
  }

  /** `JSON.parse(raw)` succeeded and gave an object. */
  predicate ParsedObject(js: JsRuntime, raw: string) {
    js.parse(raw).Some? && js.parse(raw).value.JObj?
  }

  /** `JSON.parse(raw)` or the first property read throws: `raw` is not JSON, or it is `null`. */
  predicate TryThrows(js: JsRuntime, raw: string) {
    js.parse(raw).None? || js.parse(raw).value == JNull
  }

  /** The object's property `key`, as read by `parsed[key]`; None is `undefined`. */
  function Prop(js: JsRuntime, raw: string, key: string): Option<Json>
    requires ParsedObject(js, raw)
  {
    Read(js.parse(raw).value.fields, key)
  }

  /**
   * The properties the `try` block can read, or None when the parse or the
   * reads throw. A non-null non-object value yields no properties.
   */
  function Receiver(js: JsRuntime, raw: string): (r: Option<map<string, Json>>)
    ensures r.None? <==> TryThrows(js, raw)
  {
    match js.parse(raw)
    case None => None
    case Some(j) =>
      match j
      case JNull => None
      case JObj(m) => Some(m)
      case _ => Some(map[])
  }

  /** The property `key` of a receiver. */
  function Read(m: map<string, Json>, key: string): Option<Json> {
    if key in m then Some(m[key]) else None
  }

  /** questionProcessor: `parsed.refinedQuestion ?? parsed.keyDetails ?? raw`, or `raw` if the `try` throws. */
  function ParseIntake(js: JsRuntime, raw: string): (r: Json)
    ensures !ParsedObject(js, raw) ==> r == JStr(raw)
    ensures ParsedObject(js, raw) && !Nullish(Prop(js, raw, "refinedQuestion")) ==>
      Some(r) == Prop(js, raw, "refinedQuestion")
    ensures ParsedObject(js, raw) && Nullish(Prop(js, raw, "refinedQuestion")) && !Nullish(Prop(js, raw, "keyDetails")) ==>
      Some(r) == Prop(js, raw, "keyDetails")
    ensures ParsedObject(js, raw) && Nullish(Prop(js, raw, "refinedQuestion")) && Nullish(Prop(js, raw, "keyDetails")) ==>
      r == JStr(raw)
  {
    match Receiver(js, raw)
    case None => JStr(raw)
    case Some(m) => Coalesce(Read(m, "refinedQuestion"), Coalesce(Read(m, "keyDetails"), JStr(raw)))
  }

  /** `[candidates].filter(Boolean)`: the truthy values, in order. */
  function Pieces(candidates: seq<Option<Json>>): (r: seq<Json>)
    ensures |r| <= |candidates|
    ensures forall j :: j in r ==> exists i :: 0 <= i < |candidates| && Truthy(candidates[i]) && candidates[i].value == j
  {
    if candidates == [] then []
    else (if Truthy(candidates[0]) then [candidates[0].value] else []) + Pieces(candidates[1..])
  }

  /**
   * A truthy value of `analysis` or `guidance` whose string conversion throws:
   * `join` then throws inside the `try`.
   */
  predicate JoinThrows(js: JsRuntime, a: Option<Json>, g: Option<Json>) {
    (Truthy(a) && ShowText(js, a.value).None?) || (Truthy(g) && ShowText(js, g.value).None?)
  }

  /**
   * liuYaoExpert: the truthy values of `analysis` then `guidance` joined by a blank
   * line, or `raw` when neither is truthy or the `try` throws, in `JSON.parse`,
   * in a property read or in `join`.
   */
  function ParseExpert(js: JsRuntime, raw: string): (r: string)
    ensures !ParsedObject(js, raw) ==> r == raw
    ensures ParsedObject(js, raw) ==>
      var a := Prop(js, raw, "analysis");
      var g := Prop(js, raw, "guidance");
      && (JoinThrows(js, a, g) ==> r == raw)
      && (!JoinThrows(js, a, g) ==>
            && (Truthy(a) && Truthy(g) ==> r == ShowText(js, a.value).value + "\n\n" + ShowText(js, g.value).value)
            && (Truthy(a) && !Truthy(g) ==> r == ShowText(js, a.value).value)
            && (!Truthy(a) && Truthy(g) ==> r == ShowText(js, g.value).value)
            && (!Truthy(a) && !Truthy(g) ==> r == raw))
  {
    match Receiver(js, raw)
    case None => raw
    case Some(m) =>
      var pieces := Pieces([Read(m, "analysis"), Read(m, "guidance")]);
      PiecesOfTwo(js, Read(m, "analysis"), Read(m, "guidance"));
      if |pieces| == 0 then raw
      else
        match JoinValues(js, pieces, "\n\n")
        case None => raw
        case Some(text) => text
  }

  /**
   * Filtering two candidates keeps the truthy ones, in order; joining them fails
   * exactly when one of them does not convert, and otherwise puts a blank line
   * between two survivors.
   */
  lemma PiecesOfTwo(js: JsRuntime, a: Option<Json>, g: Option<Json>)
    ensures Pieces([a, g]) == (if Truthy(a) then [a.value] else []) + (if Truthy(g) then [g.value] else [])
    ensures Pieces([a, g]) != [] ==> (JoinValues(js, Pieces([a, g]), "\n\n").None? <==> JoinThrows(js, a, g))
    ensures Truthy(a) && Truthy(g) && !JoinThrows(js, a, g) ==>
      JoinValues(js, Pieces([a, g]), "\n\n") == Some(ShowText(js, a.value).value + "\n\n" + ShowText(js, g.value).value)
  {
    assert [a, g][1..] == [g];
    assert [g][1..] == [];
    var pieces := Pieces([a, g]);
    if Truthy(a) && Truthy(g) {
      assert pieces == [a.value, g.value];
      assert pieces[1..] == [g.value];
    }
  }

  /** The evaluation the QA parser's `catch` returns. */
  const FAIL_OPEN: QaEvaluation := QaEvaluation(true, None, None)

  /**
   * qa: `Boolean(parsed.consistent)` with `feedback` and `reasons` passed through;
   * when the `try` throws, the fail-open evaluation `{consistent: true}`.
   */
  function ParseReview(js: JsRuntime, raw: string): (r: QaEvaluation)
    ensures TryThrows(js, raw) ==> r == QaEvaluation(true, None, None)
    ensures !TryThrows(js, raw) && !ParsedObject(js, raw) ==> r == QaEvaluation(false, None, None)
    ensures ParsedObject(js, raw) ==>
      && r.consistent == Truthy(Prop(js, raw, "consistent"))
      && r.feedback == Prop(js, raw, "feedback")
      && r.reasons == Prop(js, raw, "reasons")
  {
    match Receiver(js, raw)
    case None => FAIL_OPEN
    case Some(m) => QaEvaluation(Truthy(Read(m, "consistent")), Read(m, "feedback"), Read(m, "reasons"))
  }

  /** contextualizer: `parsed.contextNotes ?? raw`, or `raw` if the `try` throws. */
  function ParseContext(js: JsRuntime, raw: string): (r: Json)
    ensures !ParsedObject(js, raw) ==> r == JStr(raw)
    ensures ParsedObject(js, raw) && !Nullish(Prop(js, raw, "contextNotes")) ==> Some(r) == Prop(js, raw, "contextNotes")
    ensures ParsedObject(js, raw) && Nullish(Prop(js, raw, "contextNotes")) ==> r == JStr(raw)
  {
    match Receiver(js, raw)
    case None => JStr(raw)
    case Some(m) => Coalesce(Read(m, "contextNotes"), JStr(raw))
  }

  /** synthesizer: `parsed.answer ?? raw`, or `raw` if the `try` throws. */
  function ParseSynthesis(js: JsRuntime, raw: string): (r: Json)
    ensures !ParsedObject(js, raw) ==> r == JStr(raw)
    ensures ParsedObject(js, raw) && !Nullish(Prop(js, raw, "answer")) ==> Some(r) == Prop(js, raw, "answer")
    ensures ParsedObject(js, raw) && Nullish(Prop(js, raw, "answer")) ==> r == JStr(raw)
  {
    match Receiver(js, raw)
    case None => JStr(raw)
    case Some(m) => Coalesce(Read(m, "answer"), JStr(raw))
  }

  /** Runs the named parser. */
  function ApplyParser(p: Parser, js: JsRuntime, raw: string): Output {
    match p
    case IntakeParser => Value(ParseIntake(js, raw))
    case ExpertParser => Value(JStr(ParseExpert(js, raw)))
    case ReviewParser => Evaluation(ParseReview(js, raw))
    case ContextParser => Value(ParseContext(js, raw))
    case SynthesisParser => Value(ParseSynthesis(js, raw))
  }

  /** The value each parser's `catch` returns. */
  function CatchValue(p: Parser, raw: string): Output {
    if p == ReviewParser then Evaluation(FAIL_OPEN) else Value(JStr(raw))
  }

  /**
   * The `try` block of parser `p` throws: in the parse or the first property
   * read, or, for the analyser's parser, in `join` converting a piece.
   */
  predicate TryBlockThrows(p: Parser, js: JsRuntime, raw: string) {
    || TryThrows(js, raw)
    || (&& p == ExpertParser && ParsedObject(js, raw)
        && JoinThrows(js, Prop(js, raw, "analysis"), Prop(js, raw, "guidance")))
  }

  /**
   * Text that is not JSON, the JSON `null`, and pieces that do not convert all
   * take the parser's `catch` fallback.
   */
  lemma ThrowingTryFallsBack(p: Parser, js: JsRuntime, raw: string)
    requires TryBlockThrows(p, js, raw)
    ensures ApplyParser(p, js, raw) == CatchValue(p, raw)
  {
  }

  /**
   * The QA parser is stricter on valid but incomplete JSON than on garbage:
   * an object without `consistent` fails the review, unparseable text passes it.
   */
  lemma ReviewFailOpenAsymmetry(js: JsRuntime, garbage: string, incomplete: string)
    requires js.parse(garbage).None?
    requires ParsedObject(js, incomplete) && "consistent" !in js.parse(incomplete).value.fields
    ensures ParseReview(js, garbage).consistent
    ensures !ParseReview(js, incomplete).consistent
  {
  }

  /** The parsers that produce text yield a string whenever the backend text is not an object. */
  lemma TextParsersFallBackToRaw(p: Parser, js: JsRuntime, raw: string)
    requires p != ReviewParser && !ParsedObject(js, raw)
    ensures ApplyParser(p, js, raw) == Value(JStr(raw))
  {
  }

  /** The five identities are distinct strings. */
  lemma NameTextInjective(a: AgentName, b: AgentName)
    requires NameText(a) == NameText(b)
    ensures a == b
  {
  }

  /** Every prompt embeds the shared JSON instruction, right after its role sentence. */
  lemma {:induction false} PromptEmbedsInstruction(n: AgentName)
    ensures OccursAt(Definition(n).prompt, JSON_INSTRUCTION, |Lead(n)|)
  {
    EmbeddedAt(Lead(n), JSON_INSTRUCTION, Schema(n));
  }

  /** `mid` occurs in `pre + mid + post` right after `pre`. */
  lemma EmbeddedAt(pre: string, mid: string, post: string)
    ensures OccursAt(pre + mid + post, mid, |pre|)
  {
    assert (pre + mid + post)[|pre|..|pre| + |mid|] == mid;
  }
}
