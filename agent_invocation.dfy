/** One agent invocation: a single generation call, the agent's parser, and the step record. */
module AgentInvocation {
  import opened Wrappers
  import opened Json
  import opened AgentTypes
  import opened Prompts
  import opened GenerationClient

  /** The wrapped failure of a generation call, carrying the original cause. */
  datatype AgentInvocationError = AgentInvocationError(message: string, cause: string)

  /** The message that names the failing agent. */
  function FailureMessage(n: AgentName): string {
    "Failed to execute agent: " + NameText(n)
  }

  /** `definition.parser ? definition.parser(raw) : raw`. */
  function OutputOf(def: AgentDefinition, js: JsRuntime, raw: string): (r: Output)
    ensures def.parser.None? ==> r == Value(JStr(raw))
    ensures def.parser.Some? ==> r == ApplyParser(def.parser.value, js, raw)
  {
    match def.parser
    case None => Value(JStr(raw))
    case Some(p) => ApplyParser(p, js, raw)
  }

  /**
   * What `executeAgent` makes of the client's reply: the parsed output and the
   * step record on success, the wrapped error on failure. The parsers never
   * throw, so only a failed generation reaches the `catch`.
   */
  function Execute(def: AgentDefinition, js: JsRuntime, reply: Result<string, string>): (r: Result<AgentExecution, AgentInvocationError>)
    ensures r.Success? <==> reply.Success?
    ensures reply.Success? ==>
      && r.value.output == OutputOf(def, js, reply.value)
      && r.value.step == AgentStep(def.name, def.prompt, reply.value, r.value.output)
    ensures reply.Failure? ==> r.error == AgentInvocationError(FailureMessage(def.name), reply.error)
  {
    match reply
    case Failure(cause) => Failure(AgentInvocationError(FailureMessage(def.name), cause))
    case Success(raw) =>
      var parsed := OutputOf(def, js, raw);
      Success(AgentExecution(parsed, AgentStep(def.name, def.prompt, raw, parsed)))
  }

  /** An invocation against the client's state as a value (the pure counterpart of ExecuteAgent). */
  function Invoke(def: AgentDefinition, js: JsRuntime, input: AgentRuntimeInput, s: Session)
    : (r: (Result<AgentExecution, AgentInvocationError>, Session))
    ensures r.1.calls == s.calls + [Call(def.name, def.prompt, input)]
    ensures r.1.replies == Respond(s.replies, def.name).1
    ensures r.0 == Execute(def, js, Respond(s.replies, def.name).0)
  {
    var (reply, rest) := Respond(s.replies, def.name);
    (Execute(def, js, reply), Session(rest, s.calls + [Call(def.name, def.prompt, input)]))
  }

  /** `executeAgent`: calls the client exactly once, with the definition's header and the input unchanged. */
  method ExecuteAgent(def: AgentDefinition, client: ScriptedClient, input: AgentRuntimeInput, js: JsRuntime)
    returns (r: Result<AgentExecution, AgentInvocationError>)
    modifies client
    ensures client.calls == old(client.calls) + [Call(def.name, def.prompt, input)]
    ensures client.replies == Respond(old(client.replies), def.name).1
    ensures r == Execute(def, js, Respond(old(client.replies), def.name).0)
  {
    var raw := client.Generate(def.name, def.prompt, input);
    r := Execute(def, js, raw);
  }
}
