/**
 * The generation capability, modelled as a client that answers from a script
 * of replies and keeps a log of every call it receives, in order.
 */
module GenerationClient {
  import opened Wrappers
  import opened AgentTypes

  /** One scripted backend answer: generated text, or a failure carrying its cause. */
  datatype Reply = Text(text: string) | Error(cause: string)

  /** One call of `generate`: the agent header and the input exactly as passed. */
  datatype Call = Call(name: AgentName, prompt: string, input: AgentRuntimeInput)

  /** The cause reported when the script has run out. */
  function ExhaustedCause(name: AgentName): string {
    "No scripted response available for agent: " + NameText(name)
  }

  /** The answer to the next call and the script left after it: each call consumes one reply. */
  function Respond(replies: seq<Reply>, name: AgentName): (r: (Result<string, string>, seq<Reply>))
    ensures replies == [] ==> r == (Failure(ExhaustedCause(name)), [])
    ensures replies != [] && replies[0].Text? ==> r == (Success(replies[0].text), replies[1..])
    ensures replies != [] && replies[0].Error? ==> r == (Failure(replies[0].cause), replies[1..])
  {
    if replies == [] then (Failure(ExhaustedCause(name)), [])
    else
      match replies[0]
      case Text(t) => (Success(t), replies[1..])
      case Error(c) => (Failure(c), replies[1..])
  }

  /** The client's state as a value: the replies not yet used and the calls received. */
  datatype Session = Session(replies: seq<Reply>, calls: seq<Call>)

  class ScriptedClient {
    var replies: seq<Reply>
    var calls: seq<Call>

    constructor (script: seq<Reply>)
      ensures replies == script && calls == []
    {
      replies := script;
      calls := [];
    }

    /** `generate`: records the call, then answers with the next scripted reply. */
    method Generate(name: AgentName, prompt: string, input: AgentRuntimeInput) returns (r: Result<string, string>)
      modifies this
      ensures calls == old(calls) + [Call(name, prompt, input)]
      ensures (r, replies) == Respond(old(replies), name)
    {
      calls := calls + [Call(name, prompt, input)];
      var next;
      r, next := Respond(replies, name).0, Respond(replies, name).1;
      replies := next;
    }
  }
}
