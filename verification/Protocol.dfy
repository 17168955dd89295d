/**
 One client joined to one server session.  A message is named by its position in the sender's
 history; a message that was sent may be delivered later, in any order, at most once, or never.
 The invariant of this joint machine carries the handshake and the correlation of responses.
 */
module Protocol {
  import opened Messages
  import opened Negotiation
  import Session
  import Client

  type ServerConfig = Session.ServerConfig
  type ClientConfig = Client.ClientConfig

  /**
   `origin[k]` is the client message that the session received as its `k`-th, and `delivered` is the
   inverse; `read` holds the session's messages that the client has read, and `answers` leads from a
   request of the session to the client's answer.
   */
  datatype State = State(
    client: Client.State,
    server: Session.State,
    origin: seq<nat>,
    delivered: map<nat, nat>,
    read: set<nat>,
    answers: map<nat, nat>)

  const FRESH := State(Client.FRESH, Session.FRESH, [], map[], {}, map[])

  datatype Step =
    | Deliver(i: nat)
    | AtServer(server: Session.Step)
    | Read(j: nat, delivered: bool)
    | AtClient(client: Client.Step)

  predicate Enabled(c: ClientConfig, v: ServerConfig, p: State, step: Step) {
    match step
    case Deliver(i) => i < |p.client.sent| && i !in p.delivered
    case AtServer(st) =>
      && !st.Receive? && Session.Enabled(v, p.server, st)
      && (st.Act? || st.PingClient? ==> st.call !in p.client.calls)
    case Read(j, d) =>
      j < |p.server.sent| && j !in p.read && Client.Enabled(c, p.client, Client.Read(j, p.server.sent[j].msg, d))
    case AtClient(st) =>
      && !st.Read? && Client.Enabled(c, p.client, st)
      && (st.StartCall? ==> st.call !in p.server.callbacks)
  }

  function Next(c: ClientConfig, v: ServerConfig, p: State, step: Step): State
    requires Enabled(c, v, p, step)
  {
    match step
    case Deliver(i) =>
      p.(server := Session.Next(v, p.server, Session.Receive(p.client.sent[i].msg)),
         origin := p.origin + [i],
         delivered := p.delivered[i := |p.origin|])
    case AtServer(st) => p.(server := Session.Next(v, p.server, st))
    case Read(j, d) =>
      var client' := Client.Next(c, p.client, Client.Read(j, p.server.sent[j].msg, d));
      p.(client := client', read := p.read + {j},
         answers := if |client'.sent| > |p.client.sent| then p.answers[j := |p.client.sent|] else p.answers)
    case AtClient(st) => p.(client := Client.Next(c, p.client, st))
  }

  // ----- what the two sides agree on

  /** Equal versions, and each side offers all that the other requires. */
  ghost predicate Agreement(c: ClientConfig, v: ServerConfig) {
    && c.version == v.version
    && ClientCovers(OfferedByClient(c.parts), RequiredByServer(v.parts, v.needs))
    && ServerCovers(OfferedByServer(v.parts), RequiredByClient(c.parts, c.needs))
  }

  /** What the client answers to a request of the server, if it answers at all. */
  function ClientReply(c: ClientConfig, verb: NamedMethod, params: Params): Option<Reply> {
    match Client.React(c, map[], Request("", verb, params))
    case Respond(reply) => Some(reply)
    case _ => None
  }

  /** The reply that stands for what a handler supplied by the client's user gave; `None` is an error. */
  ghost predicate UserGave(given: Option<Value>, reply: Reply) {
    match given
    case Some(value) => reply == Success(value)
    case None => reply.Failure? && reply.error.code == -32603
  }

  /** The client has an answer to the request: a ping, or a well-formed request it has a handler for. */
  ghost predicate CanAnswer(c: ClientConfig, verb: NamedMethod, params: Params) {
    match verb
    case Ping => true
    case RootsList => RootsListHandler in c.parts
    case SamplingCreateMessage => SamplingHandler in c.parts && params.decodes
    case _ => false
  }

  /** `reply` is the answer that the client's own handlers give to the request, with its parameters. */
  ghost predicate AnswersAs(c: ClientConfig, verb: NamedMethod, params: Params, reply: Reply) {
    CanAnswer(c, verb, params) &&
    match verb
    case RootsList => UserGave(c.answer(RootsList, NO_PARAMS), reply)
    case SamplingCreateMessage => UserGave(c.answer(SamplingCreateMessage, params), reply)
    case _ => reply == Success(Null)
  }

  /** The client's reader answers exactly the requests it can answer, with what its handlers give. */
  lemma ReaderAsksHandlers(c: ClientConfig, verb: NamedMethod, params: Params)
    ensures ClientReply(c, verb, params).Some? <==> CanAnswer(c, verb, params)
    ensures ClientReply(c, verb, params).Some? ==> AnswersAs(c, verb, params, ClientReply(c, verb, params).value)
  {
  }

  /** The handler that the request goes to gives an error. */
  predicate HandlerFails(c: ClientConfig, msg: Message) {
    || (msg.verb.RootsList? && c.answer(RootsList, NO_PARAMS).None?)
    || (msg.verb.SamplingCreateMessage? && c.answer(SamplingCreateMessage, msg.params).None?)
  }

  /**
   The reader acknowledges a message with an error exactly when its version is wrong, it is a malformed
   sampling request that there is a handler for, or it is a request whose handler or answer fails.
   */
  lemma ReadFailsWhen(c: ClientConfig, calls: map<Id, Client.Call>, msg: Message, failed: bool)
    ensures Client.ReadFails(c, calls, msg, failed)
            <==> msg.jsonrpc != "2.0"
                 || (msg.verb.SamplingCreateMessage? && SamplingHandler in c.parts && !msg.params.decodes)
                 || (!msg.verb.NoMethod? && CanAnswer(c, msg.verb, msg.params) && (failed || HandlerFails(c, msg)))
  {
  }

  /** `seen` is a history that the handler of `msg` can have had with this client. */
  ghost predicate Replays(c: ClientConfig, v: ServerConfig, msg: Message, seen: seq<Session.Event>) {
    forall n :: 0 <= n < |seen| ==> EventOk(c, v, msg, seen[..n], seen[n])
  }

  ghost predicate EventOk(
    c: ClientConfig, v: ServerConfig, msg: Message, before: seq<Session.Event>, event: Session.Event)
  {
    match v.handler(msg.verb, msg.params, before)
    case Report(_, _, _) => event.Reported?
    case Ask(verb, params) =>
      event.Unanswered? || (event.Answered? && ClientReply(c, verb, params) == Some(event.reply))
    case _ => false
  }

  lemma ReplaysOneMore(
    c: ClientConfig, v: ServerConfig, msg: Message, seen: seq<Session.Event>, event: Session.Event)
    requires Replays(c, v, msg, seen) && EventOk(c, v, msg, seen, event)
    ensures Replays(c, v, msg, seen + [event])
  {
    var all := seen + [event];
    forall n | 0 <= n < |all| ensures EventOk(c, v, msg, all[..n], all[n]) {
      if n < |seen| {
        assert all[..n] == seen[..n];
        assert EventOk(c, v, msg, seen[..n], seen[n]);
      } else {
        assert all[..n] == seen;
      }
    }
  }

  // ----- the invariant

  ghost predicate LinkOk(p: State) {
    && |p.origin| == |p.server.recv|
    && (forall k :: 0 <= k < |p.origin| ==>
          && p.origin[k] < |p.client.sent| && p.server.recv[k] == p.client.sent[p.origin[k]].msg
          && p.origin[k] in p.delivered && p.delivered[p.origin[k]] == k)
    && (forall i :: i in p.delivered ==> p.delivered[i] < |p.origin| && p.origin[p.delivered[i]] == i)
    && (forall j :: j in p.read ==> j < |p.server.sent|)
    && (forall j :: j in p.answers ==>
          && j in p.read && p.answers[j] < |p.client.sent|
          && p.client.sent[p.answers[j]].Reply? && p.client.sent[p.answers[j]].to == j)
    && (forall id :: id in p.client.calls ==> id !in p.server.callbacks)
  }

  ghost predicate AnswerOk(c: ClientConfig, p: State, i: nat)
    requires i < |p.client.sent|
  {
    p.client.sent[i].Reply? ==>
      var j := p.client.sent[i].to;
      && j < |p.server.sent| && p.server.sent[j].Query? && j in p.answers && p.answers[j] == i
      && var q := p.server.sent[j].msg;
      !q.verb.NoMethod? && ClientReply(c, q.verb, q.params).Some?
      && p.client.sent[i].msg == Response(q.id, ClientReply(c, q.verb, q.params).value)
  }

  ghost predicate GivenOk(c: ClientConfig, p: State, call: Id)
    requires call in p.server.callbacks
  {
    var b := p.server.callbacks[call];
    b.status.Given? ==> AnsweredBy(c, p, call, b.status.from, b.status.reply)
  }

  /**
   The message that the session received as its `k`-th is the client's one answer to exactly the
   callback `call`: to the request that was sent under its id, with its method and parameters.
   */
  ghost predicate AnsweredBy(c: ClientConfig, p: State, call: Id, k: nat, reply: Reply)
    requires call in p.server.callbacks
  {
    var b := p.server.callbacks[call];
    && b.at.Some? && b.at.value < |p.server.sent|
    && p.server.sent[b.at.value] == Session.Query(call, Request(call, b.verb, b.params))
    && k < |p.server.recv| && k < |p.origin| && p.origin[k] < |p.client.sent|
    && p.client.sent[p.origin[k]] == Client.Reply(b.at.value, p.server.recv[k])
    && p.server.recv[k] == Response(call, reply)
    && ClientReply(c, b.verb, b.params) == Some(reply)
  }

  /** The message at `j` is the session's reply to exactly the call `id`. */
  ghost predicate RepliesTo(p: State, j: nat, id: Id)
    requires id in p.client.calls
  {
    && j < |p.server.sent| && p.server.sent[j].Answer? && p.server.sent[j].task < |p.server.recv|
    && p.server.recv[p.server.sent[j].task] == Request(id, p.client.calls[id].verb, p.client.calls[id].params)
  }

  ghost predicate ReturnOk(p: State, id: Id)
    requires id in p.client.calls
  {
    var st := p.client.calls[id].status;
    st.Returned? ==> RepliesTo(p, st.from, id) && p.server.sent[st.from].msg == st.msg
  }

  ghost predicate SeenOk(c: ClientConfig, v: ServerConfig, p: State, k: nat)
    requires k in p.server.tasks && k < |p.server.recv|
  {
    match p.server.tasks[k]
    case Running(seen) => Replays(c, v, p.server.recv[k], seen)
    case Awaiting(seen, _) => Replays(c, v, p.server.recv[k], seen)
    case Replied(seen, _, _) => Replays(c, v, p.server.recv[k], seen)
    case _ => true
  }

  ghost predicate AnswersOk(c: ClientConfig, p: State) {
    forall i :: 0 <= i < |p.client.sent| ==> AnswerOk(c, p, i)
  }

  ghost predicate GivensOk(c: ClientConfig, p: State) {
    forall call :: call in p.server.callbacks ==> GivenOk(c, p, call)
  }

  ghost predicate ReturnsOk(p: State) {
    forall id :: id in p.client.calls ==> ReturnOk(p, id)
  }

  ghost predicate SeensOk(c: ClientConfig, v: ServerConfig, p: State) {
    forall k :: k in p.server.tasks ==> k < |p.server.recv| && SeenOk(c, v, p, k)
  }

  ghost predicate HeldOk(p: State) {
    p.client.held.Some? ==>
      p.client.held.value.from < |p.server.sent|
      && p.server.sent[p.client.held.value.from].msg == p.client.held.value.msg
  }

  ghost predicate Inv(c: ClientConfig, v: ServerConfig, p: State) {
    && Session.Inv(v, p.server)
    && Client.Inv(c, p.client)
    && LinkOk(p) && AnswersOk(c, p) && GivensOk(c, p) && ReturnsOk(p) && SeensOk(c, v, p) && HeldOk(p)
    && (p.client.initialized || p.server.initialized ==> Agreement(c, v))
  }
}
