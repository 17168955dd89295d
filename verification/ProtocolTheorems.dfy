/** What holds of every run of one client against one server session. */
module ProtocolTheorems {
  import opened Messages
  import opened Negotiation
  import opened Protocol
  import opened ProtocolInvariant
  import Session
  import Client

  ghost predicate Legal(c: ClientConfig, v: ServerConfig, p: State, steps: seq<Step>)
    decreases |steps|
  {
    steps == [] || (Enabled(c, v, p, steps[0]) && Legal(c, v, Next(c, v, p, steps[0]), steps[1..]))
  }

  ghost function Exec(c: ClientConfig, v: ServerConfig, p: State, steps: seq<Step>): State
    requires Legal(c, v, p, steps)
    decreases |steps|
  {
    if steps == [] then p else Exec(c, v, Next(c, v, p, steps[0]), steps[1..])
  }

  lemma RunFirst(c: ClientConfig, v: ServerConfig, p: State, step: Step, rest: seq<Step>)
    requires Enabled(c, v, p, step) && Legal(c, v, Next(c, v, p, step), rest)
    ensures Legal(c, v, p, [step] + rest)
    ensures Exec(c, v, p, [step] + rest) == Exec(c, v, Next(c, v, p, step), rest)
  {
    assert ([step] + rest)[1..] == rest;
  }

  lemma InvExec(c: ClientConfig, v: ServerConfig, p: State, steps: seq<Step>)
    requires Inv(c, v, p) && Legal(c, v, p, steps)
    ensures Inv(c, v, Exec(c, v, p, steps))
    decreases |steps|
  {
    if steps != [] {
      InvNext(c, v, p, steps[0]);
      InvExec(c, v, Next(c, v, p, steps[0]), steps[1..]);
    }
  }

  /**
   Although the server sets its flag on the client's word alone: a session marked initialized has
   equal versions and capabilities that cover each other's requirements, and no handler that needs
   an initialized session gets past its first check outside that agreement.
   */
  lemma HandshakeIsSafe(c: ClientConfig, v: ServerConfig, steps: seq<Step>)
    requires Legal(c, v, FRESH, steps)
    ensures var p := Exec(c, v, FRESH, steps);
            && (p.client.initialized || p.server.initialized ==> Agreement(c, v))
            && (forall k :: Session.PastFirstCheck(p.server, k) ==> Agreement(c, v))
  {
    InvExec(c, v, FRESH, steps);
    ServedMeansAgreed(c, v, Exec(c, v, FRESH, steps));
  }

  lemma ServedMeansAgreed(c: ClientConfig, v: ServerConfig, p: State)
    requires Inv(c, v, p)
    ensures forall k :: Session.PastFirstCheck(p.server, k) ==> Agreement(c, v)
  {
    forall k | Session.PastFirstCheck(p.server, k) ensures Agreement(c, v) {
      assert Session.TaskOk(v, p.server, k);
    }
  }

  predicate IsRequestOf(msg: Message, id: Id) {
    msg.id == id && Session.RequestVerb(msg.verb)
  }

  /** The session's task at `k` made the response `msg` by processing exactly the call `id`. */
  ghost predicate MadeFor(c: ClientConfig, v: ServerConfig, p: State, k: nat, id: Id, msg: Message)
    requires id in p.client.calls
  {
    && k in p.server.tasks && k < |p.server.recv| && p.server.tasks[k].Replied?
    && p.server.recv[k] == Request(id, p.client.calls[id].verb, p.client.calls[id].params)
    && msg == Response(id, p.server.tasks[k].reply)
    && Session.Explains(v, p.server.recv[k], p.server.tasks[k].seen, p.server.tasks[k].reply)
    && Replays(c, v, p.server.recv[k], p.server.tasks[k].seen)
  }

  /**
   A response returned by a call was made by the server's processing of that call's id, method and
   parameters: by the one task that received it, as the handler's result after a history in which
   every answered callback carries the client's own answer to what the handler asked.
   */
  lemma ResponsesBelongToCalls(c: ClientConfig, v: ServerConfig, steps: seq<Step>, id: Id)
    requires Legal(c, v, FRESH, steps)
    requires id in Exec(c, v, FRESH, steps).client.calls
    requires Exec(c, v, FRESH, steps).client.calls[id].status.Returned?
    ensures var p := Exec(c, v, FRESH, steps);
            var st := p.client.calls[id].status;
            && st.from < |p.server.sent| && p.server.sent[st.from].Answer?
            && MadeFor(c, v, p, p.server.sent[st.from].task, id, st.msg)
            && (forall k :: 0 <= k < |p.server.recv| && IsRequestOf(p.server.recv[k], id) ==>
                              k == p.server.sent[st.from].task)
  {
    InvExec(c, v, FRESH, steps);
    var p := Exec(c, v, FRESH, steps);
    var st := p.client.calls[id].status;
    assert ReturnOk(p, id);
    var k := p.server.sent[st.from].task;
    assert Session.SentOk(p.server, st.from);
    assert Session.TaskOk(v, p.server, k);
    assert SeenOk(c, v, p, k);
    forall k' | 0 <= k' < |p.server.recv| && IsRequestOf(p.server.recv[k'], id)
      ensures k' == k
    {
      ReceivedIsCall(c, v, p, k');
      ReceivedIsCall(c, v, p, k);
    }
  }

  /**
   In the other direction, an answer taken by a callback of the server is the client's own answer to
   exactly that callback: the message handed over is the one reply the client sent to the request
   with that callback's id, method and parameters, and not the answer to another callback with the
   same parameters, nor the client's stray error to its own `initialize`.
   */
  lemma AnswersBelongToCallbacks(c: ClientConfig, v: ServerConfig, steps: seq<Step>, call: Id)
    requires Legal(c, v, FRESH, steps)
    requires call in Exec(c, v, FRESH, steps).server.callbacks
    requires Exec(c, v, FRESH, steps).server.callbacks[call].status.Given?
    ensures var p := Exec(c, v, FRESH, steps);
            var st := p.server.callbacks[call].status;
            && AnsweredBy(c, p, call, st.from, st.reply)
            && AnswersAs(c, p.server.callbacks[call].verb, p.server.callbacks[call].params, st.reply)
            && (forall i :: 0 <= i < |p.client.sent| && AnswersQuery(p, i, p.server.callbacks[call].at.value) ==>
                              i == p.origin[st.from])
  {
    InvExec(c, v, FRESH, steps);
    var p := Exec(c, v, FRESH, steps);
    var st := p.server.callbacks[call].status;
    assert GivenOk(c, p, call);
    ReaderAsksHandlers(c, p.server.callbacks[call].verb, p.server.callbacks[call].params);
    forall i | 0 <= i < |p.client.sent| && AnswersQuery(p, i, p.server.callbacks[call].at.value)
      ensures i == p.origin[st.from]
    {
      assert AnswerOk(c, p, i) && AnswerOk(c, p, p.origin[st.from]);
    }
  }

  /** The client's message at `i` answers the session's message at `j`. */
  ghost predicate AnswersQuery(p: State, i: nat, j: nat)
    requires i < |p.client.sent|
  {
    p.client.sent[i].Reply? && p.client.sent[i].to == j
  }

  // ----- negotiated means served

  /** Requests in the families that the client requires of its server. */
  predicate RequiredByClientConfig(c: ClientConfig, verb: Method, params: Params) {
    || (c.needs.promptServer && (verb.PromptsList? || verb.PromptsGet?
                                 || (verb.CompletionComplete? && params.refType.RefPrompt?)))
    || (c.needs.resourceServer && (verb.ResourcesList? || verb.ResourcesRead? || verb.ResourcesTemplatesList?
                                   || verb.ResourcesSubscribe? || verb.ResourcesUnsubscribe?
                                   || (verb.CompletionComplete? && params.refType.RefResource?)))
    || (c.needs.toolServer && (verb.ToolsList? || verb.ToolsCall?))
    || (LogReceiver in c.parts && verb.LoggingSetLevel?)
  }

  /** Requests in the families that the server requires of its client. */
  predicate RequiredByServerConfig(v: ServerConfig, verb: Method) {
    (v.needs.rootsList && verb.RootsList?) || (v.needs.sampling && verb.SamplingCreateMessage?)
  }

  /** After an agreed handshake, a well-formed request in a required family reaches a handler. */
  lemma RequiredIsRouted(c: ClientConfig, v: ServerConfig, msg: Message)
    requires Agreement(c, v) && RequiredByClientConfig(c, msg.verb, msg.params) && msg.params.decodes
    ensures Session.Route(v, msg).Launch? && Session.Provided(v, msg)
  {
    CheckServerIsOrder(RequiredByClient(c.parts, c.needs), OfferedByServer(v.parts));
  }

  /** In reverse, the client's reader answers a well-formed required request with one reply, at once. */
  lemma RequiredIsAnswered(c: ClientConfig, v: ServerConfig, p: State, j: nat)
    requires Inv(c, v, p) && Agreement(c, v) && Enabled(c, v, p, Read(j, true))
    requires p.server.sent[j].Query? && p.server.sent[j].msg.params.decodes
    requires RequiredByServerConfig(v, p.server.sent[j].msg.verb)
    ensures var msg := p.server.sent[j].msg;
            && ClientReply(c, msg.verb, msg.params).Some?
            && Next(c, v, p, Read(j, true)).client
               == p.client.(sent := p.client.sent
                                    + [Client.Reply(j, Response(msg.id, ClientReply(c, msg.verb, msg.params).value))])
  {
    CheckClientIsOrder(RequiredByServer(v.parts, v.needs), OfferedByClient(c.parts));
    assert Session.SentOk(p.server, j);
  }

  /** Exactly one message of the client answers the session's request at `j`, with the client's own answer. */
  ghost predicate AnsweredOnce(c: ClientConfig, p: State, j: nat) {
    && j < |p.server.sent| && p.server.sent[j].Query? && j in p.answers && p.answers[j] < |p.client.sent|
    && var q := p.server.sent[j].msg;
    && var answer := p.client.sent[p.answers[j]];
    && !q.verb.NoMethod? && answer.Reply? && answer.to == j && answer.msg.verb.NoMethod? && answer.msg.id == q.id
    && AnswersAs(c, q.verb, q.params, ReplyOf(answer.msg))
    && (forall i :: 0 <= i < |p.client.sent| && AnswersQuery(p, i, j) ==> i == p.answers[j])
  }

  lemma AnswerStays(c: ClientConfig, v: ServerConfig, p: State, step: Step, j: nat)
    requires Inv(c, v, p) && Enabled(c, v, p, step) && j in p.answers
    ensures var p' := Next(c, v, p, step);
            && j in p'.answers && p'.answers[j] == p.answers[j]
            && p.server.sent <= p'.server.sent && p.client.sent <= p'.client.sent
  {
    Session.TasksNumbered(v, p.server);
    match step
    case Deliver(_) =>
    case AtServer(st) => Session.NextExtends(v, p.server, st);
    case Read(n, d) => Client.NextExtends(c, p.client, Client.Read(n, p.server.sent[n].msg, d));
    case AtClient(st) => Client.NextExtends(c, p.client, st);
  }

  lemma AnswerStaysExec(c: ClientConfig, v: ServerConfig, p: State, steps: seq<Step>, j: nat)
    requires Inv(c, v, p) && Legal(c, v, p, steps) && j in p.answers
    ensures var p' := Exec(c, v, p, steps);
            && Inv(c, v, p') && j in p'.answers && p'.answers[j] == p.answers[j]
            && p.server.sent <= p'.server.sent && p.client.sent <= p'.client.sent
    decreases |steps|
  {
    if steps != [] {
      AnswerStays(c, v, p, steps[0], j);
      InvNext(c, v, p, steps[0]);
      AnswerStaysExec(c, v, Next(c, v, p, steps[0]), steps[1..], j);
    }
  }

  lemma AnswerIsOnlyOne(c: ClientConfig, v: ServerConfig, p: State, j: nat)
    requires Inv(c, v, p) && j in p.answers
    ensures AnsweredOnce(c, p, j)
  {
    assert AnswerOk(c, p, p.answers[j]);
    var q := p.server.sent[j].msg;
    ReaderAsksHandlers(c, q.verb, q.params);
    ResponseRoundTrip(q.id, ClientReply(c, q.verb, q.params).value);
    forall i | 0 <= i < |p.client.sent| && AnswersQuery(p, i, j) ensures i == p.answers[j] {
      assert AnswerOk(c, p, i);
    }
  }

  /**
   In reverse: a well-formed request of the server in a family it requires, read once the session is
   initialized, is answered in every continuation of the run, by exactly one message, which carries
   the client's own answer to that request.
   */
  lemma RequiredIsAnsweredOnce(
    c: ClientConfig, v: ServerConfig, before: seq<Step>, p: State, j: nat, after: seq<Step>)
    requires Legal(c, v, FRESH, before) && p == Exec(c, v, FRESH, before)
    requires p.server.initialized && Enabled(c, v, p, Read(j, true))
    requires p.server.sent[j].Query? && p.server.sent[j].msg.params.decodes
    requires RequiredByServerConfig(v, p.server.sent[j].msg.verb)
    requires Legal(c, v, Next(c, v, p, Read(j, true)), after)
    ensures var q := Exec(c, v, Next(c, v, p, Read(j, true)), after);
            AnsweredOnce(c, q, j) && q.server.sent[j] == p.server.sent[j] && q.answers[j] == |p.client.sent|
  {
    InvExec(c, v, FRESH, before);
    RequiredIsAnswered(c, v, p, j);
    var p' := Next(c, v, p, Read(j, true));
    InvNext(c, v, p, Read(j, true));
    AnswerStaysExec(c, v, p', after, j);
    AnswerIsOnlyOne(c, v, Exec(c, v, p', after), j);
  }

  /** The task at `k` serves `msg` and has not been dropped; if it has ended, it has replied once. */
  ghost predicate Serving(v: ServerConfig, p: State, k: nat, msg: Message) {
    && k < |p.server.recv| && p.server.recv[k] == msg && k in p.server.tasks && p.server.initialized
    && (p.server.tasks[k].Live() || p.server.tasks[k].Replied?)
  }

  ghost predicate AnswersTask(p: State, j: nat, k: nat) {
    j < |p.server.sent| && p.server.sent[j].Answer? && p.server.sent[j].task == k
  }

  lemma ServingNext(c: ClientConfig, v: ServerConfig, p: State, step: Step, k: nat, msg: Message)
    requires Inv(c, v, p) && Enabled(c, v, p, step)
    requires Serving(v, p, k, msg) && Session.NeedsInitialized(msg.verb)
    ensures Serving(v, Next(c, v, p, step), k, msg)
  {
    if step.AtServer? {
      Session.NextMoves(v, p.server, step.server);
      Session.NextExtends(v, p.server, step.server);
      ServingMove(v, p, step.server, Session.Next(v, p.server, step.server), k, msg);
    }
  }

  lemma ServingMove(v: ServerConfig, p: State, st: Session.Step, s': Session.State, k: nat, msg: Message)
    requires Session.Enabled(v, p.server, st)
    requires Session.Moves(v, p.server, st, s') && Session.Extends(p.server, s')
    requires Serving(v, p, k, msg) && Session.NeedsInitialized(msg.verb)
    ensures Serving(v, p.(server := s'), k, msg)
  {
    assert Session.TaskMoves(v, p.server, st, s', k);
  }

  lemma ServingExec(c: ClientConfig, v: ServerConfig, p: State, steps: seq<Step>, k: nat, msg: Message)
    requires Inv(c, v, p) && Legal(c, v, p, steps)
    requires Serving(v, p, k, msg) && Session.NeedsInitialized(msg.verb)
    ensures Serving(v, Exec(c, v, p, steps), k, msg)
    decreases |steps|
  {
    if steps != [] {
      ServingNext(c, v, p, steps[0], k, msg);
      InvNext(c, v, p, steps[0]);
      ServingExec(c, v, Next(c, v, p, steps[0]), steps[1..], k, msg);
    }
  }

  /**
   A well-formed request of a required family that is dispatched once the session is initialized is
   never dropped, however the run goes on: its task is at work or has made its one reply, and at
   most one response to it was ever written.
   */
  lemma NegotiatedMeansServed(
    c: ClientConfig, v: ServerConfig, before: seq<Step>, i: nat, after: seq<Step>)
    requires Legal(c, v, FRESH, before)
    requires Enabled(c, v, Exec(c, v, FRESH, before), Deliver(i))
    requires Legal(c, v, Next(c, v, Exec(c, v, FRESH, before), Deliver(i)), after)
    requires var p := Exec(c, v, FRESH, before);
             && p.server.initialized && p.client.sent[i].msg.params.decodes
             && RequiredByClientConfig(c, p.client.sent[i].msg.verb, p.client.sent[i].msg.params)
    ensures var p := Exec(c, v, FRESH, before);
            var q := Exec(c, v, Next(c, v, p, Deliver(i)), after);
            var k := |p.server.recv|;
            && Serving(v, q, k, p.client.sent[i].msg)
            && (forall j, j' :: AnswersTask(q, j, k) && AnswersTask(q, j', k) ==> j == j')
  {
    InvExec(c, v, FRESH, before);
    var p := Exec(c, v, FRESH, before);
    RequiredIsRouted(c, v, p.client.sent[i].msg);
    var p' := Next(c, v, p, Deliver(i));
    InvNext(c, v, p, Deliver(i));
    ServingExec(c, v, p', after, |p.server.recv|, p.client.sent[i].msg);
    InvExec(c, v, p', after);
    var q := Exec(c, v, p', after);
    forall j, j' | AnswersTask(q, j, |p.server.recv|) && AnswersTask(q, j', |p.server.recv|) ensures j == j' {
      assert Session.SentOk(q.server, j) && Session.SentOk(q.server, j');
    }
  }
}
