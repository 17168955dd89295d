/**
 The reliable fragment: no write fails, nothing is lost, no call times out or is cancelled.  From a
 quiet initialized session, the invariant of this module tells where every open call and every open
 callback is, so that each can be moved on.
 */
module Liveness {
  import opened Messages
  import opened Protocol
  import opened Evaluation
  import Session
  import Client

  /** Requests the server serves: pings, and well-formed requests that reach a configured handler. */
  ghost predicate Served(v: ServerConfig, verb: NamedMethod, params: Params) {
    verb.Ping? || (Session.NeedsInitialized(verb) && Session.Route(v, Request("", verb, params)).Launch?
                   && Session.Provided(v, Request("", verb, params)))
  }

  /** Steps that move calls on. */
  predicate Internal(step: Step) {
    match step
    case Deliver(_) => true
    case AtServer(st) =>
      || (st.Begin? && st.delivered) || (st.Act? && st.delivered) || (st.SendDone? && st.ok)
      || st.HandOver? || st.Discard? || (st.Emit? && st.delivered)
    case Read(_, d) => d
    case AtClient(st) => (st.SendReturn? && st.ok) || st.HandBack?
  }

  /**
   Steps that bring in new work: a call that the server serves, the client's notice of a change of its
   roots, a ping of the server, an update.
   */
  ghost predicate External(v: ServerConfig, step: Step) {
    match step
    case AtServer(st) => (st.PingClient? && st.delivered) || st.Take?
    case AtClient(st) =>
      (st.StartCall? && st.delivered && Served(v, st.verb, st.params)) || (st.NotifyRoots? && st.delivered)
    case _ => false
  }

  ghost predicate Reliable(v: ServerConfig, step: Step) {
    Internal(step) || External(v, step)
  }

  // ----- where everything is

  /** The request at `i`: not yet delivered, with a task at work, or with its reply on the way. */
  ghost predicate OnItsWay(p: State, i: nat) {
    i in p.delivered ==>
      var k := p.delivered[i];
      && k in p.server.tasks
      && (p.server.tasks[k].Live() || (p.server.tasks[k].Replied? && Unreturned(p, p.server.tasks[k].at)))
  }

  ghost predicate Unreturned(p: State, at: Option<nat>) {
    at.Some? && (at.value in p.read ==> p.client.held.Some? && p.client.held.value.from == at.value)
  }

  ghost predicate CallLive(v: ServerConfig, p: State, since: nat, id: Id)
    requires id in p.client.calls
  {
    var call := p.client.calls[id];
    && (call.Open() ==> call.at.Some? && call.at.value >= since && OnItsWay(p, call.at.value))
    && (call.at.Some? && call.at.value >= since ==>
          && Served(v, call.verb, call.params)
          && (call.Open() || (call.status.Returned? && call.status.from in p.read)))
  }

  /** The callback sent at `j`: unread, or its answer is undelivered, or a task holds the answer. */
  ghost predicate AnswerOnItsWay(p: State, j: nat) {
    j in p.read ==>
      && j in p.answers
      && (p.answers[j] in p.delivered ==>
            && p.delivered[p.answers[j]] in p.server.tasks
            && p.server.tasks[p.delivered[p.answers[j]]].Spawned?)
  }

  ghost predicate CallbackLive(c: ClientConfig, p: State, call: Id)
    requires call in p.server.callbacks
  {
    var b := p.server.callbacks[call];
    b.Open() ==> b.at.Some? && ClientReply(c, b.verb, b.params).Some? && AnswerOnItsWay(p, b.at.value)
  }

  /** A handler at work is on the way to the value that direct evaluation gives. */
  ghost predicate TaskLive(c: ClientConfig, v: ServerConfig, bound: Bound, p: State, since: nat, k: nat)
    requires WellBehaved(c, v, bound) && k in p.server.tasks
  {
    && k < |p.server.recv| && k < |p.origin|
    && (p.server.tasks[k].Live() ==> p.origin[k] >= since)
    && (Session.UserVerb(p.server.recv[k].verb) ==> OnTrack(c, v, bound, p, since, k))
  }

  ghost predicate OnTrack(c: ClientConfig, v: ServerConfig, bound: Bound, p: State, since: nat, k: nat)
    requires WellBehaved(c, v, bound) && k in p.server.tasks && k < |p.server.recv| && k < |p.origin|
  {
    var m := p.server.recv[k];
    match p.server.tasks[k]
    case Running(seen) =>
      |seen| <= bound(m.verb, m.params)
      && Evaluate(c, v, bound, m.verb, m.params, seen) == Evaluate(c, v, bound, m.verb, m.params, [])
    case Awaiting(seen, _) =>
      |seen| < bound(m.verb, m.params)
      && Evaluate(c, v, bound, m.verb, m.params, seen) == Evaluate(c, v, bound, m.verb, m.params, [])
    case Replied(_, reply, _) =>
      p.origin[k] >= since ==> reply == Evaluate(c, v, bound, m.verb, m.params, [])
    case _ => true
  }

  ghost predicate CallsLive(v: ServerConfig, p: State, since: nat) {
    forall id :: id in p.client.calls ==> CallLive(v, p, since, id)
  }

  ghost predicate CallbacksLive(c: ClientConfig, p: State) {
    forall call :: call in p.server.callbacks ==> CallbackLive(c, p, call)
  }

  ghost predicate TasksLive(c: ClientConfig, v: ServerConfig, bound: Bound, p: State, since: nat)
    requires WellBehaved(c, v, bound)
  {
    forall k :: k in p.server.tasks ==> TaskLive(c, v, bound, p, since, k)
  }

  /** What is still in transit was sent since the quiet start. */
  ghost predicate TransitLive(p: State, since: nat) {
    && since <= |p.client.sent|
    && (forall i :: 0 <= i < |p.client.sent| && i !in p.delivered ==> i >= since)
    && (forall j :: 0 <= j < |p.server.sent| && j !in p.read ==> AnswerSince(p, since, p.server.sent[j]))
    && (p.client.held.Some? ==>
          && p.client.held.value.from in p.read && p.client.held.value.msg.id in p.client.calls
          && p.client.calls[p.client.held.value.msg.id].Open())
  }

  ghost predicate AnswerSince(p: State, since: nat, sent: Session.Sent) {
    sent.Answer? ==> sent.task < |p.origin| && p.origin[sent.task] >= since
  }

  ghost predicate LiveInv(c: ClientConfig, v: ServerConfig, bound: Bound, p: State, since: nat)
    requires WellBehaved(c, v, bound)
  {
    && Inv(c, v, p) && p.server.initialized
    && CallsLive(v, p, since) && CallbacksLive(c, p) && TasksLive(c, v, bound, p, since) && TransitLive(p, since)
  }

  /** An initialized session with nothing going on: the start of the reliable fragment. */
  ghost predicate Quiet(p: State) {
    && p.server.initialized && p.client.held.None?
    && (forall id :: id in p.client.calls ==> !p.client.calls[id].Open())
    && (forall call :: call in p.server.callbacks ==> !p.server.callbacks[call].Open())
    && (forall k :: k in p.server.tasks ==> !p.server.tasks[k].Live())
    && (forall i :: 0 <= i < |p.client.sent| ==> i in p.delivered)
    && (forall j :: 0 <= j < |p.server.sent| ==> j in p.read)
  }

  lemma QuietIsLive(c: ClientConfig, v: ServerConfig, bound: Bound, p: State)
    requires WellBehaved(c, v, bound) && Inv(c, v, p) && Quiet(p)
    ensures LiveInv(c, v, bound, p, |p.client.sent|)
  {
    var since := |p.client.sent|;
    forall id | id in p.client.calls ensures CallLive(v, p, since, id) {
      assert Client.CallOk(c, p.client, id);
    }
    forall k | k in p.server.tasks ensures TaskLive(c, v, bound, p, since, k) {
      assert Session.TaskOk(v, p.server, k);
    }
  }
}
