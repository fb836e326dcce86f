/**
 * The collaboration console's form logic: the field rules, `validate` with its
 * error maps, the `hasErrors` gate of submission, and the updates of the agent
 * list. Agent ids are opaque strings; generating them is not modelled, so every
 * operation that creates an agent takes its id as a parameter.
 */
module AgentConsole {
  import opened Wrappers
  import opened JsStrings

  /** One agent entry of the form; `index` is its 1-based position when it was added. */
  datatype Agent = Agent(id: string, name: string, expertise: string, contribution: string, confidence: string, index: int)

  /** The fields the form edits on an agent. */
  datatype AgentField = Name | Expertise | Contribution | Confidence

  /** The payload that is validated and submitted. */
  datatype Submission = Submission(agents: seq<Agent>, finalVerdict: string, realWorldAdvice: string)

  /** The errors of one agent; a field is present exactly when its check failed. */
  datatype AgentErrors = AgentErrors(name: Option<string>, expertise: Option<string>, contribution: Option<string>)

  /** The errors of the two form-level fields. */
  datatype FieldErrors = FieldErrors(finalVerdict: Option<string>, realWorldAdvice: Option<string>)

  /** `formErrors`: per-agent errors keyed by agent id, and the form-level field errors. */
  datatype FormErrors = FormErrors(agents: map<string, AgentErrors>, fields: FieldErrors)

  /** What submitting does after validation: stop with the errors, or go on to send the payload. */
  datatype SubmitOutcome = Invalid(errors: FormErrors, message: string) | Send(payload: Submission)

  const NAME_MESSAGE: string := "Provide a descriptive name (2+ characters)."
  const EXPERTISE_MESSAGE: string := "Share the agent's specialty."
  const CONTRIBUTION_MESSAGE: string := "Summarize the insight in 10+ characters."
  const VERDICT_MESSAGE: string := "Outline the final verdict with at least 10 characters."
  const ADVICE_MESSAGE: string := "Offer actionable advice with at least 10 characters."
  const INVALID_MESSAGE: string := "Review the highlighted fields."

  // The validation rules: each gives its message, or "" when the value passes.

  /** A name shorter than 2 characters once trimmed fails. */
  function NameRule(value: string): (r: string)
    ensures r != "" <==> |Trim(value)| < 2
    ensures r != "" ==> r == NAME_MESSAGE
  {
    if value == "" || |Trim(value)| < 2 then NAME_MESSAGE else ""
  }

  /** Only an empty expertise fails; it is not trimmed, so whitespace passes. */
  function ExpertiseRule(value: string): (r: string)
    ensures r != "" <==> value == ""
    ensures r != "" ==> r == EXPERTISE_MESSAGE
  {
    if value == "" then EXPERTISE_MESSAGE else ""
  }

  /** The shared rule of the three long-text fields: under 10 characters once trimmed fails. */
  function LongTextRule(value: string, message: string): (r: string)
    requires message != ""
    ensures r != "" <==> |Trim(value)| < 10
    ensures r != "" ==> r == message
  {
    if value == "" || |Trim(value)| < 10 then message else ""
  }

  function ContributionRule(value: string): string {
    LongTextRule(value, CONTRIBUTION_MESSAGE)
  }

  function FinalVerdictRule(value: string): string {
    LongTextRule(value, VERDICT_MESSAGE)
  }

  function AdviceRule(value: string): string {
    LongTextRule(value, ADVICE_MESSAGE)
  }

  /** A rule's message as an optional entry: present exactly when the message is not "". */
  function Entry(message: string): (r: Option<string>)
    ensures r.Some? <==> message != ""
    ensures r.Some? ==> r.value == message
  {
    if message != "" then Some(message) else None
  }

  /** `agentErrors` for one agent: exactly the fields whose rule fails, each with its message. */
  function CheckAgent(a: Agent): (e: AgentErrors)
    ensures e.name.Some? <==> |Trim(a.name)| < 2
    ensures e.expertise.Some? <==> a.expertise == ""
    ensures e.contribution.Some? <==> |Trim(a.contribution)| < 10
    ensures e.name.Some? ==> e.name.value == NAME_MESSAGE
    ensures e.expertise.Some? ==> e.expertise.value == EXPERTISE_MESSAGE
    ensures e.contribution.Some? ==> e.contribution.value == CONTRIBUTION_MESSAGE
  {
    AgentErrors(Entry(NameRule(a.name)), Entry(ExpertiseRule(a.expertise)), Entry(ContributionRule(a.contribution)))
  }

  /** `Object.keys(agentErrors).length` is non-zero. */
  predicate HasAny(e: AgentErrors) {
    e.name.Some? || e.expertise.Some? || e.contribution.Some?
  }

  /** The agent fails at least one of its checks. */
  predicate AgentFails(a: Agent) {
    |Trim(a.name)| < 2 || a.expertise == "" || |Trim(a.contribution)| < 10
  }

  /** The per-agent map after the first agents of a list, in order: a later agent with the same id overwrites. */
  function AgentErrorMap(agents: seq<Agent>): map<string, AgentErrors> {
    if agents == [] then map[]
    else
      var m := AgentErrorMap(agents[..|agents| - 1]);
      var a := agents[|agents| - 1];
      var e := CheckAgent(a);
      if HasAny(e) then m[a.id := e] else m
  }

  /** One more agent of the list updates the map by that agent's entry, if it has one. */
  lemma ErrorMapStep(agents: seq<Agent>, i: nat)
    requires i < |agents|
    ensures var m := AgentErrorMap(agents[..i]);
      var e := CheckAgent(agents[i]);
      AgentErrorMap(agents[..i + 1]) == if HasAny(e) then m[agents[i].id := e] else m
  {
    assert agents[..i + 1][..i] == agents[..i];
  }

  /** The form-level field errors. */
  function FieldErrorsOf(s: Submission): FieldErrors {
    FieldErrors(Entry(FinalVerdictRule(s.finalVerdict)), Entry(AdviceRule(s.realWorldAdvice)))
  }

  /** `validate`: the agents' entries are filled in place, one agent at a time. */
  method Validate(current: Submission) returns (errors: FormErrors)
    ensures errors == FormErrors(AgentErrorMap(current.agents), FieldErrorsOf(current))
  {
    var agentsMap: map<string, AgentErrors> := map[];
    var i := 0;
    while i < |current.agents|
      invariant 0 <= i <= |current.agents|
      invariant agentsMap == AgentErrorMap(current.agents[..i])
    {
      var agent := current.agents[i];
      var agentErrors := AgentErrors(None, None, None);
      var nameError := NameRule(agent.name);
      if nameError != "" {
        agentErrors := agentErrors.(name := Some(nameError));
      }
      var expertiseError := ExpertiseRule(agent.expertise);
      if expertiseError != "" {
        agentErrors := agentErrors.(expertise := Some(expertiseError));
      }
      var contributionError := ContributionRule(agent.contribution);
      if contributionError != "" {
        agentErrors := agentErrors.(contribution := Some(contributionError));
      }
      assert agentErrors == CheckAgent(agent);
      ErrorMapStep(current.agents, i);
      if HasAny(agentErrors) {
        agentsMap := agentsMap[agent.id := agentErrors];
      }
      assert agentsMap == AgentErrorMap(current.agents[..i + 1]);
      i := i + 1;
    }
    assert current.agents[..i] == current.agents;
    var fields := FieldErrors(None, None);
    var finalVerdictError := FinalVerdictRule(current.finalVerdict);
    if finalVerdictError != "" {
      fields := fields.(finalVerdict := Some(finalVerdictError));
    }
    var adviceError := AdviceRule(current.realWorldAdvice);
    if adviceError != "" {
      fields := fields.(realWorldAdvice := Some(adviceError));
    }
    errors := FormErrors(agentsMap, fields);
  }

  /** `hasErrors`: some agent entry or some field entry exists. */
  predicate HasErrors(errors: FormErrors) {
    |errors.agents| > 0 || errors.fields.finalVerdict.Some? || errors.fields.realWorldAdvice.Some?
  }

  /**
   * The validation part of `handleSubmit`: with errors it stops with them and
   * the invalid message, before any request; otherwise the payload goes on unchanged.
   */
  method CheckSubmission(payload: Submission) returns (outcome: SubmitOutcome)
    ensures var errors := FormErrors(AgentErrorMap(payload.agents), FieldErrorsOf(payload));
      && (outcome.Invalid? <==> HasErrors(errors))
      && (outcome.Invalid? ==> outcome.errors == errors && outcome.message == INVALID_MESSAGE)
      && (outcome.Send? ==> outcome.payload == payload)
  {
    var validationResults := Validate(payload);
    var hasErrors := |validationResults.agents| > 0
      || validationResults.fields.finalVerdict.Some? || validationResults.fields.realWorldAdvice.Some?;
    if hasErrors {
      return Invalid(validationResults, INVALID_MESSAGE);
    }
    outcome := Send(payload);
  }

  // The agent list.

  /** `createAgent(index)`: blank text fields and the balanced confidence. */
  function CreateAgent(id: string, index: int): (a: Agent)
    ensures a.id == id && a.index == index && a.confidence == "balanced"
    ensures a.name == "" && a.expertise == "" && a.contribution == ""
  {
    Agent(id, "", "", "", "balanced", index)
  }

  /** The list the console starts with: one blank agent at index 1. */
  function InitialAgents(id: string): (r: seq<Agent>)
    ensures |r| == 1 && r[0] == CreateAgent(id, 1)
  {
    [CreateAgent(id, 1)]
  }

  function FieldOf(a: Agent, f: AgentField): string {
    match f
    case Name => a.name
    case Expertise => a.expertise
    case Contribution => a.contribution
    case Confidence => a.confidence
  }

  /** `{ ...agent, [field]: value }`: that field set, everything else kept. */
  function WithField(a: Agent, f: AgentField, value: string): (r: Agent)
    ensures FieldOf(r, f) == value
    ensures forall g :: g != f ==> FieldOf(r, g) == FieldOf(a, g)
    ensures r.id == a.id && r.index == a.index
  {
    match f
    case Name => a.(name := value)
    case Expertise => a.(expertise := value)
    case Contribution => a.(contribution := value)
    case Confidence => a.(confidence := value)
  }

  /** `handleAgentChange`: the named field of the agents with that id changes, nothing else. */
  function ChangeAgent(agents: seq<Agent>, id: string, f: AgentField, value: string): (r: seq<Agent>)
    ensures |r| == |agents|
    ensures forall i :: 0 <= i < |r| ==> r[i].id == agents[i].id && r[i].index == agents[i].index
    ensures forall i :: 0 <= i < |r| && agents[i].id != id ==> r[i] == agents[i]
    ensures forall i :: 0 <= i < |r| && agents[i].id == id ==> FieldOf(r[i], f) == value
    ensures forall i, g :: 0 <= i < |r| && g != f ==> FieldOf(r[i], g) == FieldOf(agents[i], g)
  {
    seq(|agents|, i requires 0 <= i < |agents| => if agents[i].id == id then WithField(agents[i], f, value) else agents[i])
  }

  /** `handleAddAgent`: one blank agent appended, indexed one past the old length. */
  function AddAgent(agents: seq<Agent>, newId: string): (r: seq<Agent>)
    ensures |r| == |agents| + 1 && r[..|agents|] == agents
    ensures r[|agents|] == CreateAgent(newId, |agents| + 1)
  {
    agents + [CreateAgent(newId, |agents| + 1)]
  }

  /** `previous.filter(agent => agent.id !== id)`: the other agents, in their order. */
  function Without(agents: seq<Agent>, id: string): (r: seq<Agent>)
    ensures |r| <= |agents|
    ensures forall a :: a in r <==> a in agents && a.id != id
    ensures (forall i :: 0 <= i < |agents| ==> agents[i].id != id) ==> r == agents
  {
    if agents == [] then []
    else (if agents[0].id != id then [agents[0]] else []) + Without(agents[1..], id)
  }

  /** `handleRemoveAgent`: filters out the id, except from a list of one agent. */
  function RemoveAgent(agents: seq<Agent>, id: string): (r: seq<Agent>)
    ensures |agents| <= 1 ==> r == agents
    ensures |agents| > 1 ==> r == Without(agents, id)
  {
    if |agents| > 1 then Without(agents, id) else agents
  }

  /** No two agents share an id. */
  predicate UniqueIds(agents: seq<Agent>) {
    forall i, j :: 0 <= i < j < |agents| ==> agents[i].id != agents[j].id
  }

  // Properties of validation.

  /** The last agent with that id that fails a check, or -1 when there is none. */
  function LastFailing(agents: seq<Agent>, id: string): (r: int)
    ensures -1 <= r < |agents|
    ensures r >= 0 ==> agents[r].id == id && AgentFails(agents[r])
    ensures forall j :: r < j < |agents| ==> !(agents[j].id == id && AgentFails(agents[j]))
  {
    if agents == [] then -1
    else if agents[|agents| - 1].id == id && AgentFails(agents[|agents| - 1]) then |agents| - 1
    else
      var init := agents[..|agents| - 1];
      var r := LastFailing(init, id);
      assert r >= 0 ==> agents[r] == init[r];
      assert forall j :: r < j < |init| ==> agents[j] == init[j];
      r
  }

  /**
   * An id has an entry exactly when some agent with that id fails a check, and
   * the entry is the checks of the last such agent.
   */
  lemma {:induction false} ErrorEntries(agents: seq<Agent>, id: string)
    ensures id in AgentErrorMap(agents) <==> LastFailing(agents, id) >= 0
    ensures id in AgentErrorMap(agents) ==> AgentErrorMap(agents)[id] == CheckAgent(agents[LastFailing(agents, id)])
  {
    if agents != [] {
      var init := agents[..|agents| - 1];
      ErrorEntries(init, id);
      var k := LastFailing(init, id);
      if k >= 0 {
        assert init[k] == agents[k];
      }
    }
  }

  /** With unique ids, each agent has an entry exactly when it fails, and the entry is its own checks. */
  lemma ErrorsPerAgent(agents: seq<Agent>, i: nat)
    requires UniqueIds(agents) && i < |agents|
    ensures agents[i].id in AgentErrorMap(agents) <==> AgentFails(agents[i])
    ensures AgentFails(agents[i]) ==> AgentErrorMap(agents)[agents[i].id] == CheckAgent(agents[i])
  {
    ErrorEntries(agents, agents[i].id);
    var k := LastFailing(agents, agents[i].id);
    if k >= 0 {
      assert k == i;
    }
  }

  /** Submission stops exactly when some agent or one of the two fields fails its check. */
  lemma HasErrorsIffSomeCheckFails(s: Submission)
    ensures HasErrors(FormErrors(AgentErrorMap(s.agents), FieldErrorsOf(s))) <==>
      || (exists i :: 0 <= i < |s.agents| && AgentFails(s.agents[i]))
      || |Trim(s.finalVerdict)| < 10
      || |Trim(s.realWorldAdvice)| < 10
  {
    var m := AgentErrorMap(s.agents);
    if exists i :: 0 <= i < |s.agents| && AgentFails(s.agents[i]) {
      var i :| 0 <= i < |s.agents| && AgentFails(s.agents[i]);
      ErrorEntries(s.agents, s.agents[i].id);
      assert s.agents[i].id in m;
    }
    if |m| > 0 {
      var id :| id in m;
      ErrorEntries(s.agents, id);
      var k := LastFailing(s.agents, id);
      assert AgentFails(s.agents[k]);
    }
  }

  // Properties of the list updates.

  /** Changing a field keeps the ids, so unique ids stay unique. */
  lemma ChangeKeepsUnique(agents: seq<Agent>, id: string, f: AgentField, value: string)
    requires UniqueIds(agents)
    ensures UniqueIds(ChangeAgent(agents, id, f, value))
  {
  }

  /** Setting the same field to the same value twice is the same as once. */
  lemma ChangeIdempotent(agents: seq<Agent>, id: string, f: AgentField, value: string)
    ensures ChangeAgent(ChangeAgent(agents, id, f, value), id, f, value) == ChangeAgent(agents, id, f, value)
  {
    var once := ChangeAgent(agents, id, f, value);
    var twice := ChangeAgent(once, id, f, value);
    forall i | 0 <= i < |agents|
      ensures twice[i] == once[i]
    {
      if agents[i].id == id {
        assert FieldOf(twice[i], f) == FieldOf(once[i], f);
        AgentByFields(twice[i], once[i]);
      }
    }
  }

  /** Two agents with the same id, index and fields are equal. */
  lemma AgentByFields(a: Agent, b: Agent)
    requires a.id == b.id && a.index == b.index
    requires forall g :: FieldOf(a, g) == FieldOf(b, g)
    ensures a == b
  {
    assert FieldOf(a, Name) == FieldOf(b, Name) && FieldOf(a, Expertise) == FieldOf(b, Expertise);
    assert FieldOf(a, Contribution) == FieldOf(b, Contribution) && FieldOf(a, Confidence) == FieldOf(b, Confidence);
  }

  /** Adding an agent with a fresh id keeps the ids unique. */
  lemma AddKeepsUnique(agents: seq<Agent>, newId: string)
    requires UniqueIds(agents) && forall a :: a in agents ==> a.id != newId
    ensures UniqueIds(AddAgent(agents, newId))
  {
    var r := AddAgent(agents, newId);
    forall i, j | 0 <= i < j < |r|
      ensures r[i].id != r[j].id
    {
      if j == |agents| {
        assert r[i] == agents[i];
      } else {
        assert r[i] == agents[i] && r[j] == agents[j];
      }
    }
  }

  /** Filtering is order-preserving: the result is a subsequence, so unique ids stay unique. */
  lemma {:induction false} WithoutKeepsUnique(agents: seq<Agent>, id: string)
    requires UniqueIds(agents)
    ensures UniqueIds(Without(agents, id))
  {
    if agents != [] {
      var rest := agents[1..];
      assert UniqueIds(rest) by {
        forall i, j | 0 <= i < j < |rest|
          ensures rest[i].id != rest[j].id
        {
          assert rest[i] == agents[i + 1] && rest[j] == agents[j + 1];
        }
      }
      WithoutKeepsUnique(rest, id);
      var tail := Without(rest, id);
      if agents[0].id != id {
        var r := [agents[0]] + tail;
        forall j | 0 < j < |r|
          ensures r[0].id != r[j].id
        {
          assert r[j] == tail[j - 1] && r[j] in tail;
          var k :| 0 <= k < |rest| && rest[k] == r[j];
          assert rest[k] == agents[k + 1];
        }
      }
    }
  }

  /** With unique ids at most one agent is filtered out. */
  lemma {:induction false} WithoutRemovesAtMostOne(agents: seq<Agent>, id: string)
    requires UniqueIds(agents)
    ensures |Without(agents, id)| >= |agents| - 1
  {
    if agents != [] {
      var rest := agents[1..];
      if agents[0].id == id {
        assert forall i :: 0 <= i < |rest| ==> rest[i].id != id by {
          forall i | 0 <= i < |rest|
            ensures rest[i].id != id
          {
            assert rest[i] == agents[i + 1];
          }
        }
        assert Without(agents, id) == [] + Without(rest, id);
      } else {
        assert UniqueIds(rest) by {
          forall i, j | 0 <= i < j < |rest|
            ensures rest[i].id != rest[j].id
          {
            assert rest[i] == agents[i + 1] && rest[j] == agents[j + 1];
          }
        }
        WithoutRemovesAtMostOne(rest, id);
      }
    }
  }

  /** With unique ids, removing never empties a non-empty list, and keeps the ids unique. */
  lemma RemoveNeverEmpties(agents: seq<Agent>, id: string)
    requires UniqueIds(agents) && |agents| >= 1
    ensures |RemoveAgent(agents, id)| >= 1
    ensures UniqueIds(RemoveAgent(agents, id))
  {
    if |agents| > 1 {
      WithoutRemovesAtMostOne(agents, id);
      WithoutKeepsUnique(agents, id);
    }
  }

  /**
   * The list the console keeps is never empty and keeps unique ids, from the
   * initial list through any add with a fresh id, change or remove.
   */
  lemma UpdatesKeepList(agents: seq<Agent>, id: string, f: AgentField, value: string, newId: string)
    requires UniqueIds(agents) && |agents| >= 1
    ensures UniqueIds(InitialAgents(id)) && |InitialAgents(id)| == 1
    ensures UniqueIds(ChangeAgent(agents, id, f, value)) && |ChangeAgent(agents, id, f, value)| == |agents|
    ensures UniqueIds(RemoveAgent(agents, id)) && |RemoveAgent(agents, id)| >= 1
    ensures (forall a :: a in agents ==> a.id != newId) ==>
      UniqueIds(AddAgent(agents, newId)) && |AddAgent(agents, newId)| == |agents| + 1
  {
    ChangeKeepsUnique(agents, id, f, value);
    RemoveNeverEmpties(agents, id);
    if forall a :: a in agents ==> a.id != newId {
      AddKeepsUnique(agents, newId);
    }
  }
}
