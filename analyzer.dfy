/**
 * `analyzeConsultation`: the deterministic consultation analyser. It rejects a
 * blank question, normalises the model name against a three-entry table and
 * builds a summary, a three-sentence reasoning and a list of recommendations.
 */
module Analyzer {
  import opened Wrappers
  import opened JsStrings

  /** The request; `context` is absent when the caller left it out. */
  datatype ConsultationRequest = ConsultationRequest(question: string, context: Option<string>, model: string)

  datatype ConsultationResponse = ConsultationResponse(summary: string, reasoning: string, recommendations: seq<string>)

  /** The prefix every model name in the table shares. */
  const MODEL_PREFIX: string := "liuyao-"
  const LITE: string := MODEL_PREFIX + "lite"
  const CLASSIC: string := MODEL_PREFIX + "classic"
  const EXPERIMENTAL: string := MODEL_PREFIX + "experimental"

  /** The model table; every description is a non-empty string. */
  const MODEL_DESCRIPTIONS: map<string, string> := map[
    LITE := "a concise interpretation balancing intuition with classical hexagram cues.",
    CLASSIC := "a traditional six-line analysis emphasising yin-yang balance and elemental relations.",
    EXPERIMENTAL := "an exploratory blend that introduces contemporary mindfulness practices."
  ]

  const QUESTION_REQUIRED: string := "A question is required for consultation."
  const QUOTE_LEAD: string := "The querent also provided context: \""
  const NO_CONTEXT: string := "No additional context was supplied, so the reading focuses on the core inquiry."
  const PATTERN_SENTENCE: string :=
    "The symbolic pattern suggests aligning intent with supportive relationships and keeping a flexible mindset."
  const OBSERVE: string := "Take time to observe how circumstances shift over the next six days."
  const DOCUMENT: string := "Document intuitive impressions and compare them with tangible developments."
  const CONFIDANT: string := "Engage a trusted confidant to reflect on potential blind spots."
  const MINDFULNESS: string := "Incorporate a short mindfulness practice before making key decisions."

  /** A model named in the table is kept; any other becomes the lite model. */
  function NormalizeModel(model: string): (r: string)
    ensures r in MODEL_DESCRIPTIONS
    ensures model in MODEL_DESCRIPTIONS ==> r == model
    ensures model !in MODEL_DESCRIPTIONS ==> r == LITE
  {
    if model in MODEL_DESCRIPTIONS then model else LITE
  }

  /** The model's name in the summary: the first `liuyao-` removed, then the first `-` made a space. */
  function ModelLabel(model: string): string {
    ReplaceFirst(ReplaceFirst(model, MODEL_PREFIX, ""), "-", " ")
  }

  /** The context sentence: the context quoted when non-empty, the fixed sentence otherwise. */
  function ContextSentence(context: string): string {
    if context != "" then QUOTE_LEAD + context + "\"." else NO_CONTEXT
  }

  function Summary(model: string): string {
    "Using the " + ModelLabel(model) + " approach, the outlook encourages patience and deliberate action."
  }

  function Reasoning(model: string, context: string): string
    requires model in MODEL_DESCRIPTIONS
  {
    Join(["The analysis draws on " + MODEL_DESCRIPTIONS[model], ContextSentence(context), PATTERN_SENTENCE], " ")
  }

  function Recommendations(model: string): seq<string> {
    [OBSERVE, DOCUMENT, CONFIDANT] + (if model == EXPERIMENTAL then [MINDFULNESS] else [])
  }

  /** What `analyzeConsultation` returns or throws, as a value. */
  function Consult(request: ConsultationRequest): (r: Result<ConsultationResponse, string>)
    ensures r.Failure? <==> IsBlank(request.question)
    ensures r.Failure? ==> r.error == QUESTION_REQUIRED
  {
    TrimFacts(request.question);
    if Trim(request.question) == "" then Failure(QUESTION_REQUIRED)
    else
      var model := NormalizeModel(request.model);
      var context := match request.context case Some(c) => c case None => "";
      Success(ConsultationResponse(Summary(model), Reasoning(model, context), Recommendations(model)))
  }

  /**
   * `analyzeConsultation`: the recommendation list is built in place, the fixed
   * three first and the mindfulness line pushed for the experimental model.
   */
  method AnalyzeConsultation(request: ConsultationRequest) returns (r: Result<ConsultationResponse, string>)
    ensures r == Consult(request)
    ensures r.Failure? <==> IsBlank(request.question)
    ensures r.Failure? ==> r.error == QUESTION_REQUIRED
  {
    var context := match request.context case Some(c) => c case None => "";
    var trimmedQuestion := Trim(request.question);
    if trimmedQuestion == "" {
      return Failure(QUESTION_REQUIRED);
    }
    var normalizedModel := NormalizeModel(request.model);
    var summary := Summary(normalizedModel);
    var reasoning := Reasoning(normalizedModel, context);
    var recommendations := [OBSERVE, DOCUMENT, CONFIDANT];
    if normalizedModel == EXPERIMENTAL {
      recommendations := recommendations + [MINDFULNESS];
    } else {
      assert recommendations == [OBSERVE, DOCUMENT, CONFIDANT] + [];
    }
    assert recommendations == Recommendations(normalizedModel);
    r := Success(ConsultationResponse(summary, reasoning, recommendations));
  }

  // Properties of the analyser.

  /** A string without `c` has no occurrence of `[c]`. */
  lemma AbsentChar(s: string, c: char)
    requires c !in s
    ensures IndexOf(s, [c]) == -1
  {
    forall k | 0 <= k <= |s|
      ensures !OccursAt(s, [c], k)
    {
      if k + 1 <= |s| {
        assert s[k..k + 1][0] == s[k];
      }
    }
  }

  /** A string that starts with `pat` has its first occurrence at 0. */
  lemma LeadingPattern(pat: string, t: string)
    ensures IndexOf(pat + t, pat) == 0
  {
    assert (pat + t)[0..|pat|] == pat;
  }

  /** A model name `liuyao-` + `t` with no dash in `t` is labelled `t`. */
  lemma LabelOf(t: string)
    requires '-' !in t
    ensures ModelLabel(MODEL_PREFIX + t) == t
  {
    var s := MODEL_PREFIX + t;
    LeadingPattern(MODEL_PREFIX, t);
    assert s[|MODEL_PREFIX|..] == t;
    AbsentChar(t, '-');
  }

  /** The labels the three table models get in the summary. */
  lemma LabelsOfTable()
    ensures ModelLabel(LITE) == "lite"
    ensures ModelLabel(CLASSIC) == "classic"
    ensures ModelLabel(EXPERIMENTAL) == "experimental"
  {
    LabelOf("lite");
    LabelOf("classic");
    LabelOf("experimental");
  }

  /**
   * The summary names the normalised model by its label: `classic` for the
   * classic model, `lite` for the lite one and for every model outside the table.
   */
  lemma SummaryNamesModel(request: ConsultationRequest)
    requires !IsBlank(request.question)
    ensures var r := Consult(request).value;
      && r.summary == "Using the " + ModelLabel(NormalizeModel(request.model))
                      + " approach, the outlook encourages patience and deliberate action."
      && (request.model == CLASSIC ==> OccursAt(r.summary, "classic", 10))
      && (request.model !in MODEL_DESCRIPTIONS ==> OccursAt(r.summary, "lite", 10))
  {
    LabelsOfTable();
    var r := Consult(request).value;
    var name := ModelLabel(NormalizeModel(request.model));
    assert r.summary[10..10 + |name|] == name;
  }

  /** A non-empty context appears, quoted, in the joined sentences. */
  lemma QuotedContext(first: string, context: string, last: string)
    requires context != ""
    ensures OccursAt(Join([first, ContextSentence(context), last], " "), context, |first| + 1 + |QUOTE_LEAD|)
  {
    JoinThree(first, ContextSentence(context), last, " ");
    var head := first + " " + QUOTE_LEAD;
    var tail := "\"." + " " + last;
    assert Join([first, ContextSentence(context), last], " ") == head + context + tail;
    assert (head + context + tail)[|head|..|head| + |context|] == context;
  }

  /**
   * The reasoning is the model's description sentence, the context sentence and
   * the fixed pattern sentence, joined by single spaces; a non-empty context
   * appears in it, quoted, and an absent or empty one gives the fixed sentence.
   */
  lemma ReasoningSentences(request: ConsultationRequest)
    requires !IsBlank(request.question)
    ensures var model := NormalizeModel(request.model);
      var context := if request.context.Some? then request.context.value else "";
      var r := Consult(request).value;
      var first := "The analysis draws on " + MODEL_DESCRIPTIONS[model];
      && r.reasoning == first + " " + ContextSentence(context) + " " + PATTERN_SENTENCE
      && (context == "" ==> ContextSentence(context) == NO_CONTEXT)
      && (context != "" ==> OccursAt(r.reasoning, context, |first| + 1 + |QUOTE_LEAD|))
  {
    ReasoningShape(NormalizeModel(request.model), if request.context.Some? then request.context.value else "");
  }

  /** The reasoning's three sentences, for a table model and a context. */
  lemma ReasoningShape(model: string, context: string)
    requires model in MODEL_DESCRIPTIONS
    ensures var first := "The analysis draws on " + MODEL_DESCRIPTIONS[model];
      && Reasoning(model, context) == first + " " + ContextSentence(context) + " " + PATTERN_SENTENCE
      && (context != "" ==> OccursAt(Reasoning(model, context), context, |first| + 1 + |QUOTE_LEAD|))
  {
    var first := "The analysis draws on " + MODEL_DESCRIPTIONS[model];
    JoinThree(first, ContextSentence(context), PATTERN_SENTENCE, " ");
    if context != "" {
      QuotedContext(first, context, PATTERN_SENTENCE);
    }
  }

  /**
   * Three recommendations for every model but the experimental one, which gets a
   * fourth, the mindfulness line, last.
   */
  lemma RecommendationCount(request: ConsultationRequest)
    requires !IsBlank(request.question)
    ensures var recs := Consult(request).value.recommendations;
      && recs[..3] == [OBSERVE, DOCUMENT, CONFIDANT]
      && (NormalizeModel(request.model) == EXPERIMENTAL <==> |recs| == 4)
      && (|recs| == 3 || |recs| == 4)
      && (|recs| == 4 ==> recs[3] == MINDFULNESS)
  {
  }

  /**
   * Past the question check, the response depends only on the normalised model
   * and the context: the question's text and the spelling of an unknown model do
   * not matter.
   */
  lemma DependsOnModelAndContext(a: ConsultationRequest, b: ConsultationRequest)
    requires !IsBlank(a.question) && !IsBlank(b.question)
    requires NormalizeModel(a.model) == NormalizeModel(b.model)
    requires (if a.context.Some? then a.context.value else "") == (if b.context.Some? then b.context.value else "")
    ensures Consult(a) == Consult(b)
  {
  }
}
