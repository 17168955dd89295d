/**
 The tools of the everything server as handlers: they end within a known number of events, report
 only under their own token, and ask the client only for sampling, which that server requires.
 */
module Everything {
  import opened Messages
  import opened Negotiation
  import opened Protocol
  import opened Evaluation
  import opened ServerTheorems
  import Server
  import opened Progress
  import opened ProgressOrder
  import opened ProgressInFull
  import opened Handshake
  import ProtocolTheorems
  import Session
  import Client
  import Termination

  /** Whether the arguments of a tool pass its JSON schema. */
  type Schema = Params -> bool

  function SamplingParams(params: Params): Params {
    NO_PARAMS.(text := "Resource sampleLLM context: " + params.text)
  }

  /** The tool that asks the client's model: one callback, whose result text it returns. */
  function SampleLLM(params: Params, seen: seq<Session.Event>): Session.Action {
    if seen == [] then Session.Ask(SamplingCreateMessage, SamplingParams(params))
    else match seen[0]
      case Answered(Success(Data(text))) => Session.Return(Data(text))
      case Answered(Success(_)) => Session.Return(Data(""))
      case _ => Session.Fail
  }

  /** The texts of the adding, environment and image tools are not represented. */
  function CallTool(valid: Schema, params: Params, seen: seq<Session.Event>): Session.Action {
    if params.tool == "longRunningOperation" then
      if valid(params) then LongRunning(params, seen) else Session.Fail
    else if params.tool == "sampleLLM" then
      if valid(params) then SampleLLM(params, seen) else Session.Fail
    else if params.tool == "echo" then
      if valid(params) then Session.Return(Data(params.text)) else Session.Fail
    else if params.tool == "add" then
      if valid(params) then Session.Return(Data("")) else Session.Fail
    else if params.tool == "printEnv" || params.tool == "getTinyImage" then Session.Return(Data(""))
    else Session.Fail
  }

  /** Tools as above; every other request is answered at once. */
  ghost predicate IsEverything(v: ServerConfig, valid: Schema) {
    && v.needs == ClientRequirement(false, true)
    && (forall params, seen :: v.handler(ToolsCall, params, seen) == CallTool(valid, params, seen))
    && (forall verb, params, seen :: verb != ToolsCall ==>
          v.handler(verb, params, seen).Return? || v.handler(verb, params, seen).Fail?)
  }

  /** A bound on the events a tool call goes through. */
  function Events(verb: Method, params: Params): nat {
    if verb != ToolsCall then 0
    else 1 + Count(params.total)
  }

  /** A handler of the everything server that is not done at once is a tool, so this says what it does. */
  lemma ToolsOnly(v: Session.ServerConfig, valid: Schema, verb: Method, params: Params, seen: seq<Session.Event>)
    requires IsEverything(v, valid)
    requires v.handler(verb, params, seen).Ask? || v.handler(verb, params, seen).Report?
    ensures verb.ToolsCall? && v.handler(verb, params, seen) == CallTool(valid, params, seen)
  {
    assert verb == ToolsCall;
  }

  /** The tools report only under their own token, and never in the place of a request. */
  lemma EverythingReportsOwnToken(v: Session.ServerConfig, valid: Schema)
    requires IsEverything(v, valid)
    ensures ReportsOwnToken(v) && forall t :: AsksNoProgress(v, t)
  {
    forall verb, params, seen | v.handler(verb, params, seen).Report?
      ensures v.handler(verb, params, seen).token == params.token && params.token != "" && TakesToken(verb)
    {
      ToolsOnly(v, valid, verb, params, seen);
    }
    forall t ensures AsksNoProgress(v, t) {
      forall verb, params, seen | v.handler(verb, params, seen).Ask?
        ensures v.handler(verb, params, seen).verb.SamplingCreateMessage?
      {
        ToolsOnly(v, valid, verb, params, seen);
      }
    }
  }

  /** With a client that agreed to the handshake, the everything server meets what the runs assume. */
  lemma EverythingIsWellBehaved(c: Client.ClientConfig, v: Session.ServerConfig, valid: Schema)
    requires IsEverything(v, valid) && Agreement(c, v)
    ensures WellBehaved(c, v, Events)
  {
    forall verb, params, seen | |seen| >= Events(verb, params)
      ensures v.handler(verb, params, seen).Return? || v.handler(verb, params, seen).Fail?
    {
      if verb == ToolsCall { assert v.handler(ToolsCall, params, seen) == CallTool(valid, params, seen); }
    }
    forall verb, params, seen | v.handler(verb, params, seen).Ask?
      ensures Answerable(c, v.handler(verb, params, seen))
    {
      ToolsOnly(v, valid, verb, params, seen);
      RequiredIsAnswerable(c, v, v.handler(verb, params, seen));
    }
  }

  /** The echo tool returns its message, and a tool that does not exist is an internal error. */
  lemma EchoReturnsMessage(c: Client.ClientConfig, v: Session.ServerConfig, valid: Schema, params: Params)
    requires IsEverything(v, valid) && WellBehaved(c, v, Events)
    ensures params.tool == "echo" && valid(params) ==>
              Direct(c, v, Events, ToolsCall, params) == Success(Data(params.text))
    ensures params.tool == "nothing" ==>
              Direct(c, v, Events, ToolsCall, params) == Failure(RpcError(-32603, "Internal error"))
  {
    assert v.handler(ToolsCall, params, []) == CallTool(valid, params, []);
  }

  // ----- progress of the long-running tool

  predicate LongCall(valid: Schema, params: Params) {
    params.tool == "longRunningOperation" && valid(params) && params.token != ""
  }

  lemma LongCallRunsLong(v: Session.ServerConfig, valid: Schema, params: Params)
    requires IsEverything(v, valid) && LongCall(valid, params)
    ensures RunsLong(v, Use(ToolsCall, params))
  {
    forall seen: seq<Session.Event> ensures v.handler(ToolsCall, params, seen) == LongRunning(params, seen) {
      assert v.handler(ToolsCall, params, seen) == CallTool(valid, params, seen);
    }
  }

  /**
   Progress of a call of the long-running tool under a token of its own: in every run of the everything
   server and of a client reading its session, what the listener is given is in order.
   */
  lemma LongRunningIsInOrder(
    v: Session.ServerConfig, valid: Schema, c: Client.ClientConfig, params: Params,
    steps: seq<Server.Step>, a: SessionId, clientSteps: seq<Client.Step>)
    requires IsEverything(v, valid) && LongCall(valid, params)
    requires ServerTheorems.Legal(v, Server.START, steps)
    requires UsedOnce(steps, params.token, Use(ToolsCall, params), false)
    requires a in ServerTheorems.Exec(v, Server.START, steps).sessions
    requires Client.Legal(c, Client.FRESH, clientSteps)
    requires ReadsForward(clientSteps, ServerTheorems.Exec(v, Server.START, steps).sessions[a].sent, 0)
    ensures var heard := HeardMarks(params.token, Client.Exec(c, Client.FRESH, clientSteps).heard);
            && Rising(heard, Count(params.total), params.total) && Covers(Count(params.total), params.total)
            && (forall n :: 0 <= n < |heard| ==> heard[n].params.progress as real <= heard[n].params.total)
  {
    EverythingReportsOwnToken(v, valid);
    LongCallRunsLong(v, valid, params);
    ProgressIsInOrder(v, c, params.token, Use(ToolsCall, params), steps, a, clientSteps);
  }

  /** If nothing is lost and the call has finished, the listener was given every value exactly once. */
  lemma LongRunningIsHeardInFull(
    v: Session.ServerConfig, valid: Schema, c: Client.ClientConfig, params: Params,
    steps: seq<Server.Step>, a: SessionId, k: nat, clientSteps: seq<Client.Step>)
    requires IsEverything(v, valid) && LongCall(valid, params)
    requires ServerTheorems.Legal(v, Server.START, steps)
    requires UsedOnce(steps, params.token, Use(ToolsCall, params), false)
    requires NothingLost(v, a, Server.START, steps)
    requires CallIsOver(params.token, ServerTheorems.Exec(v, Server.START, steps), a, k)
    requires ProgressListener in c.parts && Client.Legal(c, Client.FRESH, clientSteps)
    requires ReadsAll(clientSteps, ServerTheorems.Exec(v, Server.START, steps).sessions[a].sent, 0)
    ensures var heard := HeardMarks(params.token, Client.Exec(c, Client.FRESH, clientSteps).heard);
            AllValues(params.token, heard, params.total)
  {
    EverythingReportsOwnToken(v, valid);
    LongCallRunsLong(v, valid, params);
    ProgressIsHeardInFull(v, c, params.token, Use(ToolsCall, params), steps, a, k, clientSteps);
  }

  // ----- the sampling tool

  /**
   What a call of the sampling tool has to return: the text that the client's own model gives for the
   prompt of the call in its context, or an internal error if the model fails.
   */
  function SampledReply(c: Client.ClientConfig, params: Params): Reply {
    match c.answer(SamplingCreateMessage, NO_PARAMS.(text := "Resource sampleLLM context: " + params.text))
    case Some(Data(text)) => Success(Data(text))
    case Some(_) => Success(Data(""))
    case None => Failure(RpcError(-32603, "Internal error"))
  }

  /** Calling the sampling tool gives the text that the client's own model answers. */
  lemma SampleLLMReturnsClientsAnswer(c: ClientConfig, v: ServerConfig, valid: Schema, params: Params)
    requires IsEverything(v, valid) && Agreement(c, v) && WellBehaved(c, v, Events)
    requires params.tool == "sampleLLM" && valid(params)
    ensures ClientReply(c, SamplingCreateMessage, SamplingParams(params)).Some?
    ensures Direct(c, v, Events, ToolsCall, params) == SampledReply(c, params)
  {
    assert v.handler(ToolsCall, params, []) == SampleLLM(params, []);
    RequiredIsAnswerable(c, v, SampleLLM(params, []));
    ReaderAsksHandlers(c, SamplingCreateMessage, SamplingParams(params));
    var reply := ClientReply(c, SamplingCreateMessage, SamplingParams(params)).value;
    var seen := [Session.Answered(reply)];
    assert [] + [Session.Answered(reply)] == seen;
    assert v.handler(ToolsCall, params, seen) == CallTool(valid, params, seen) == SampleLLM(params, seen);
    assert Direct(c, v, Events, ToolsCall, params) == Evaluate(c, v, Events, ToolsCall, params, seen);
  }

  /** The call of the sampling tool ended as it has to. */
  ghost predicate Sampled(c: Client.ClientConfig, call: Client.Call) {
    call.status.Returned? && ReplyOf(call.status.msg) == SampledReply(c, call.params)
  }

  /**
   The everything server and a client, from the very start: whatever handshake led to an initialized
   session, and after any reliable run with any number of calls, nested callbacks, pings and updates,
   once the peers have come to rest every call of the sampling tool made since has returned the text
   of the calling client's own model.
   */
  lemma EverySampleIsReturned(
    c: Client.ClientConfig, v: Session.ServerConfig, valid: Schema,
    handshake: seq<Protocol.Step>, start: Protocol.State, steps: seq<Protocol.Step>,
    p: Protocol.State, alone: seq<Protocol.Step>)
    requires IsEverything(v, valid) && ReachesQuiet(c, v, handshake)
    requires start == ProtocolTheorems.Exec(c, v, Protocol.FRESH, handshake)
    requires ProtocolTheorems.Legal(c, v, start, steps) && Termination.AllReliable(v, steps)
    requires p == ProtocolTheorems.Exec(c, v, start, steps)
    requires ProtocolTheorems.Legal(c, v, p, alone) && Termination.AllInternal(alone)
    ensures var q := ProtocolTheorems.Exec(c, v, p, alone);
            Termination.Settled(c, v, q) ==>
              forall id ::
                id in q.client.calls && id !in start.client.calls && SampleCall(valid, q.client.calls[id]) ==>
                  Sampled(c, q.client.calls[id])
  {
    ProtocolTheorems.HandshakeIsSafe(c, v, handshake);
    ProtocolTheorems.InvExec(c, v, Protocol.FRESH, handshake);
    EverythingIsWellBehaved(c, v, valid);
    Termination.EveryCallReturns(c, v, Events, start, steps, p, alone);
    var q := ProtocolTheorems.Exec(c, v, p, alone);
    if Termination.Settled(c, v, q) {
      forall id | id in q.client.calls && id !in start.client.calls && SampleCall(valid, q.client.calls[id])
        ensures Sampled(c, q.client.calls[id])
      {
        assert Termination.Finished(c, v, Events, q.client.calls[id]);
        SampleLLMReturnsClientsAnswer(c, v, valid, q.client.calls[id].params);
      }
    }
  }

  predicate SampleCall(valid: Schema, call: Client.Call) {
    call.verb.ToolsCall? && call.params.tool == "sampleLLM" && valid(call.params)
  }
}
