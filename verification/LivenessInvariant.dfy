/** Every reliable step keeps the invariant of the reliable fragment. */
module LivenessInvariant {
  import opened Messages
  import opened Protocol
  import opened ProtocolInvariant
  import opened Evaluation
  import opened Liveness
  import Session
  import Client

  /** A delivered request of a call is what the session received for it. */
  lemma CallTask(c: ClientConfig, v: ServerConfig, p: State, id: Id)
    requires Inv(c, v, p) && id in p.client.calls && p.client.calls[id].at.Some?
    requires p.client.calls[id].at.value in p.delivered
    ensures p.delivered[p.client.calls[id].at.value] < |p.server.recv|
    ensures p.server.recv[p.delivered[p.client.calls[id].at.value]]
            == Request(id, p.client.calls[id].verb, p.client.calls[id].params)
  {
    assert Client.CallOk(c, p.client, id);
  }

  /** A delivered answer of a callback carries the callback's id. */
  lemma CallbackTask(c: ClientConfig, v: ServerConfig, p: State, call: Id)
    requires Inv(c, v, p) && call in p.server.callbacks && p.server.callbacks[call].at.Some?
    requires p.server.callbacks[call].at.value in p.answers
    ensures var i := p.answers[p.server.callbacks[call].at.value];
            && i < |p.client.sent| && p.client.sent[i].msg.verb.NoMethod? && p.client.sent[i].msg.id == call
            && (i in p.delivered ==>
                  p.delivered[i] < |p.server.recv| && p.server.recv[p.delivered[i]] == p.client.sent[i].msg)
  {
    var j := p.server.callbacks[call].at.value;
    assert Session.CallbackOk(p.server, call);
    assert AnswerOk(c, p, p.answers[j]);
  }

  /** Two replies of the session to the same call are the same message. */
  lemma OneReply(c: ClientConfig, v: ServerConfig, p: State, id: Id, j: nat, j': nat)
    requires Inv(c, v, p) && id in p.client.calls && RepliesTo(p, j, id) && RepliesTo(p, j', id)
    ensures j == j'
  {
    assert Client.CallOk(c, p.client, id);
    ReceivedIsCall(c, v, p, p.server.sent[j].task);
    ReceivedIsCall(c, v, p, p.server.sent[j'].task);
    assert Session.SentOk(p.server, j) && Session.SentOk(p.server, j');
  }

  // ----- delivery to the server

  lemma LiveDeliver(c: ClientConfig, v: ServerConfig, bound: Bound, p: State, since: nat, i: nat)
    requires WellBehaved(c, v, bound) && LiveInv(c, v, bound, p, since) && Enabled(c, v, p, Deliver(i))
    ensures LiveInv(c, v, bound, Next(c, v, p, Deliver(i)), since)
  {
    var p' := Next(c, v, p, Deliver(i));
    InvNext(c, v, p, Deliver(i));
    DeliverCalls(c, v, bound, p, since, i, p');
    DeliverCallbacks(c, v, bound, p, since, i, p');
    forall k | k in p'.server.tasks ensures TaskLive(c, v, bound, p', since, k) {
      if k in p.server.tasks { assert TaskLive(c, v, bound, p, since, k); }
    }
    forall j | 0 <= j < |p'.server.sent| && j !in p'.read ensures AnswerSince(p', since, p'.server.sent[j]) {
      assert AnswerSince(p, since, p.server.sent[j]);
    }
  }

  lemma DeliverCalls(
    c: ClientConfig, v: ServerConfig, bound: Bound, p: State, since: nat, i: nat, p': State)
    requires WellBehaved(c, v, bound) && LiveInv(c, v, bound, p, since) && Enabled(c, v, p, Deliver(i))
    requires p' == Next(c, v, p, Deliver(i))
    ensures CallsLive(v, p', since)
  {
    forall id | id in p'.client.calls ensures CallLive(v, p', since, id) {
      assert CallLive(v, p, since, id) && Client.CallOk(c, p.client, id);
      if p.client.calls[id].Open() && p.client.calls[id].at.value in p.delivered {
        assert Session.TaskOk(v, p.server, p.delivered[p.client.calls[id].at.value]);
      }
      DeliverCall(c, v, p, since, i, id);
    }
  }

  lemma DeliverCall(c: ClientConfig, v: ServerConfig, p: State, since: nat, i: nat, id: Id)
    requires Enabled(c, v, p, Deliver(i)) && |p.origin| == |p.server.recv|
    requires id in p.client.calls && CallLive(v, p, since, id) && Client.CallOk(c, p.client, id)
    requires p.client.calls[id].Open() && p.client.calls[id].at.value in p.delivered ==>
               p.delivered[p.client.calls[id].at.value] < |p.server.recv|
    ensures CallLive(v, Next(c, v, p, Deliver(i)), since, id)
  {
  }

  lemma DeliverCallbacks(
    c: ClientConfig, v: ServerConfig, bound: Bound, p: State, since: nat, i: nat, p': State)
    requires WellBehaved(c, v, bound) && LiveInv(c, v, bound, p, since) && Enabled(c, v, p, Deliver(i))
    requires p' == Next(c, v, p, Deliver(i))
    ensures CallbacksLive(c, p')
  {
    forall call | call in p'.server.callbacks ensures CallbackLive(c, p', call) {
      assert CallbackLive(c, p, call);
      var b := p.server.callbacks[call];
      if b.Open() && b.at.value in p.read {
        CallbackTask(c, v, p, call);
        if p.answers[b.at.value] in p.delivered {
          assert Session.TaskOk(v, p.server, p.delivered[p.answers[b.at.value]]);
        }
      }
    }
  }

  // ----- steps of the session

  lemma MoveCalls(
    c: ClientConfig, v: ServerConfig, bound: Bound, p: State, since: nat, st: Session.Step, s': Session.State)
    requires WellBehaved(c, v, bound) && LiveInv(c, v, bound, p, since)
    requires Reliable(v, AtServer(st)) && Session.Enabled(v, p.server, st) && Session.Moves(v, p.server, st, s')
    ensures CallsLive(v, p.(server := s'), since)
  {
    var p' := p.(server := s');
    forall id | id in p'.client.calls ensures CallLive(v, p', since, id) {
      assert CallLive(v, p, since, id);
      var call := p.client.calls[id];
      if call.Open() && call.at.value in p.delivered {
        CallTask(c, v, p, id);
        var k := p.delivered[call.at.value];
        assert Session.TaskMoves(v, p.server, st, s', k) && Session.TaskOk(v, p.server, k);
        MoveCallTask(v, p, st, s', k);
      }
    }
  }

  lemma MoveCallTask(v: ServerConfig, p: State, st: Session.Step, s': Session.State, k: nat)
    requires p.server.initialized && k in p.server.tasks && Session.TaskOk(v, p.server, k) && k in s'.tasks
    requires Reliable(v, AtServer(st)) && Session.TaskMoves(v, p.server, st, s', k)
    requires Session.RequestVerb(p.server.recv[k].verb)
    requires forall j :: j in p.read ==> j < |p.server.sent|
    requires st.HandOver? || st.Discard? ==> st.task < |p.server.recv| && p.server.recv[st.task].verb.NoMethod?
    requires p.server.tasks[k].Live()
             || (p.server.tasks[k].Replied? && Unreturned(p, p.server.tasks[k].at))
    ensures s'.tasks[k].Live()
            || (s'.tasks[k].Replied? && Unreturned(p.(server := s'), s'.tasks[k].at))
  {
  }

  lemma MoveCallbacks(
    c: ClientConfig, v: ServerConfig, bound: Bound, p: State, since: nat, st: Session.Step, s': Session.State)
    requires WellBehaved(c, v, bound) && LiveInv(c, v, bound, p, since)
    requires Reliable(v, AtServer(st)) && Session.Enabled(v, p.server, st) && Session.Moves(v, p.server, st, s')
    requires Session.Inv(v, s')
    ensures CallbacksLive(c, p.(server := s'))
  {
    forall call | call in s'.callbacks ensures CallbackLive(c, p.(server := s'), call) {
      assert Session.CallbackMoves(p.server, st, s', call);
      if call in p.server.callbacks {
        MoveCallback(c, v, bound, p, since, st, s', call);
      } else {
        if st.Act? { assert Session.CallbackOk(s', call) && Session.TaskOk(v, s', st.task); }
        NewCallback(c, v, bound, p, st, s', call);
      }
    }
  }

  lemma NewCallback(
    c: ClientConfig, v: ServerConfig, bound: Bound, p: State, st: Session.Step, s': Session.State, call: Id)
    requires WellBehaved(c, v, bound) && Reliable(v, AtServer(st)) && call !in p.server.callbacks
    requires call in s'.callbacks && Session.CallbackMoves(p.server, st, s', call)
    requires st.Act? ==> Session.CallbackOk(s', call) && st.task in s'.tasks && Session.TaskOk(v, s', st.task)
    requires forall j :: j in p.read ==> j < |p.server.sent|
    ensures CallbackLive(c, p.(server := s'), call)
  {
    if st.Act? {
      assert Answerable(c, v.handler(s'.recv[st.task].verb, s'.recv[st.task].params, s'.tasks[st.task].seen));
    }
  }

  lemma MoveCallback(
    c: ClientConfig, v: ServerConfig, bound: Bound, p: State, since: nat,
    st: Session.Step, s': Session.State, call: Id)
    requires WellBehaved(c, v, bound) && LiveInv(c, v, bound, p, since)
    requires Reliable(v, AtServer(st)) && Session.Enabled(v, p.server, st) && Session.Moves(v, p.server, st, s')
    requires call in p.server.callbacks && call in s'.callbacks && Session.CallbackMoves(p.server, st, s', call)
    ensures CallbackLive(c, p.(server := s'), call)
  {
    assert CallbackLive(c, p, call);
    var b := p.server.callbacks[call];
    if s'.callbacks[call].Open() && b.at.value in p.read {
      CallbackTask(c, v, p, call);
      var i := p.answers[b.at.value];
      if i in p.delivered { HeldAnswerStays(v, p.server, st, s', p.delivered[i], call); }
    }
  }

  /** A task that holds the answer of a callback keeps it as long as the callback is open. */
  lemma HeldAnswerStays(v: ServerConfig, s: Session.State, st: Session.Step, s': Session.State, k: nat, call: Id)
    requires Session.Enabled(v, s, st) && Session.Moves(v, s, st, s')
    requires k in s.tasks && s.tasks[k].Spawned? && k < |s.recv| && s.recv[k].verb.NoMethod? && s.recv[k].id == call
    requires call in s.callbacks && call in s'.callbacks && s'.callbacks[call].Open()
    ensures k in s'.tasks && s'.tasks[k].Spawned?
  {
    assert Session.TaskMoves(v, s, st, s', k);
  }

  /** One more event, and the value the handler is going to give stays the same. */
  lemma TrackMove(
    c: ClientConfig, v: ServerConfig, bound: Bound, p: State, since: nat,
    st: Session.Step, s': Session.State, k: nat)
    requires WellBehaved(c, v, bound) && Reliable(v, AtServer(st))
    requires k in p.server.tasks && k in s'.tasks && s'.recv == p.server.recv
    requires TaskLive(c, v, bound, p, since, k) && Session.TaskOk(v, p.server, k) && Session.TaskOk(v, s', k)
    requires Session.TaskMoves(v, p.server, st, s', k)
    requires s'.tasks[k].Running? && p.server.tasks[k].Awaiting? && st.HandOver? ==>
               st.task < |p.server.recv|
               && Some(ReplyOf(p.server.recv[st.task]))
                  == ClientReply(c, p.server.callbacks[p.server.tasks[k].call].verb,
                                 p.server.callbacks[p.server.tasks[k].call].params)
    ensures TaskLive(c, v, bound, p.(server := s'), since, k)
  {
  }

  lemma MoveTask(
    c: ClientConfig, v: ServerConfig, bound: Bound, p: State, since: nat,
    st: Session.Step, s': Session.State, k: nat)
    requires WellBehaved(c, v, bound) && LiveInv(c, v, bound, p, since)
    requires Reliable(v, AtServer(st)) && Session.Enabled(v, p.server, st)
    requires s'.recv == p.server.recv && Session.Inv(v, s')
    requires k in p.server.tasks && k in s'.tasks && k < |p.server.recv| && Session.TaskMoves(v, p.server, st, s', k)
    ensures TaskLive(c, v, bound, p.(server := s'), since, k)
  {
    assert TaskLive(c, v, bound, p, since, k);
    assert Session.TaskOk(v, p.server, k) && Session.TaskOk(v, s', k);
    if st.HandOver? { HandedOverReply(c, v, p, st.task); }
    TrackMove(c, v, bound, p, since, st, s', k);
  }

  lemma MoveTransit(
    c: ClientConfig, v: ServerConfig, bound: Bound, p: State, since: nat, st: Session.Step, s': Session.State)
    requires WellBehaved(c, v, bound) && LiveInv(c, v, bound, p, since)
    requires Session.Moves(v, p.server, st, s') && Session.Inv(v, s')
    ensures TransitLive(p.(server := s'), since)
  {
    var p' := p.(server := s');
    forall j | 0 <= j < |s'.sent| && j !in p.read ensures AnswerSince(p', since, s'.sent[j]) {
      if j < |p.server.sent| {
        assert AnswerSince(p, since, p.server.sent[j]);
      } else if s'.sent[j].Answer? {
        assert Session.SentOk(s', j);
        var k := s'.sent[j].task;
        assert Session.TaskMoves(v, p.server, st, s', k);
        assert Session.TaskOk(v, p.server, k);
        assert TaskLive(c, v, bound, p, since, k);
      }
    }
  }

  lemma LiveServer(c: ClientConfig, v: ServerConfig, bound: Bound, p: State, since: nat, st: Session.Step)
    requires WellBehaved(c, v, bound) && LiveInv(c, v, bound, p, since)
    requires Reliable(v, AtServer(st)) && Enabled(c, v, p, AtServer(st))
    ensures LiveInv(c, v, bound, Next(c, v, p, AtServer(st)), since)
  {
    var s' := Session.Next(v, p.server, st);
    InvNext(c, v, p, AtServer(st));
    Session.NextExtends(v, p.server, st);
    Session.NextMoves(v, p.server, st);
    MoveCalls(c, v, bound, p, since, st, s');
    MoveCallbacks(c, v, bound, p, since, st, s');
    MoveTransit(c, v, bound, p, since, st, s');
    forall k | k in s'.tasks ensures TaskLive(c, v, bound, p.(server := s'), since, k) {
      assert Session.TaskMoves(v, p.server, st, s', k);
      MoveTask(c, v, bound, p, since, st, s', k);
    }
  }

  // ----- reading at the client

  /** A reply that has not been read yet belongs to a call that is still open. */
  lemma UnreadMeansOpen(c: ClientConfig, v: ServerConfig, bound: Bound, p: State, since: nat, j: nat)
    requires WellBehaved(c, v, bound) && LiveInv(c, v, bound, p, since)
    requires j < |p.server.sent| && j !in p.read && p.server.sent[j].Answer?
    ensures p.server.sent[j].msg.id in p.client.calls && p.client.calls[p.server.sent[j].msg.id].Open()
  {
    assert Session.SentOk(p.server, j) && AnswerSince(p, since, p.server.sent[j]);
    var k := p.server.sent[j].task;
    assert Session.TaskOk(v, p.server, k);
    ReceivedIsCall(c, v, p, k);
    var id := p.server.recv[k].id;
    assert CallLive(v, p, since, id);
    if p.client.calls[id].status.Returned? {
      assert ReturnOk(p, id);
      OneReply(c, v, p, id, j, p.client.calls[id].status.from);
    }
  }

  lemma LiveRead(c: ClientConfig, v: ServerConfig, bound: Bound, p: State, since: nat, j: nat)
    requires WellBehaved(c, v, bound) && LiveInv(c, v, bound, p, since) && Enabled(c, v, p, Read(j, true))
    ensures LiveInv(c, v, bound, Next(c, v, p, Read(j, true)), since)
  {
    InvNext(c, v, p, Read(j, true));
    assert Session.SentOk(p.server, j);
    if p.server.sent[j].Answer? {
      UnreadMeansOpen(c, v, bound, p, since, j);
    }
    ReadShape(c, v, p, j);
    ReadMove(c, v, bound, p, since, j, Next(c, v, p, Read(j, true)));
  }

  /** What reading the message at `j` can do to the joint state. */
  ghost predicate ReadsTo(c: ClientConfig, p: State, j: nat, p': State) {
    && j < |p.server.sent| && j !in p.read && p.client.held.None?
    && p' == p.(client := p'.client, read := p.read + {j}, answers := p'.answers)
    && p'.client.calls == p.client.calls && p.client.sent <= p'.client.sent
    && (p.server.sent[j].Answer? ==> p'.client.held == Some(Client.Held(j, p.server.sent[j].msg)))
    && (!p.server.sent[j].Answer? ==> p'.client.held.None?)
    && (p'.answers == p.answers || p'.answers == p.answers[j := |p.client.sent|])
    && (p.server.sent[j].Query? && !p.server.sent[j].msg.verb.NoMethod?
        && ClientReply(c, p.server.sent[j].msg.verb, p.server.sent[j].msg.params).Some? ==>
          p'.answers == p.answers[j := |p.client.sent|])
  }

  lemma ReadShape(c: ClientConfig, v: ServerConfig, p: State, j: nat)
    requires Enabled(c, v, p, Read(j, true)) && Session.SentOk(p.server, j)
    requires p.server.sent[j].Answer? ==> p.server.sent[j].msg.id in p.client.calls
    ensures ReadsTo(c, p, j, Next(c, v, p, Read(j, true)))
  {
    ReadEffect(c, p.client, j, p.server.sent[j].msg, true);
  }

  lemma ReadMove(c: ClientConfig, v: ServerConfig, bound: Bound, p: State, since: nat, j: nat, p': State)
    requires WellBehaved(c, v, bound) && LiveInv(c, v, bound, p, since) && Inv(c, v, p')
    requires ReadsTo(c, p, j, p')
    requires p.server.sent[j].Answer? ==>
               p.server.sent[j].msg.id in p.client.calls && p.client.calls[p.server.sent[j].msg.id].Open()
    ensures LiveInv(c, v, bound, p', since)
  {
    forall id | id in p'.client.calls ensures CallLive(v, p', since, id) {
      assert CallLive(v, p, since, id);
      var at := p.client.calls[id].at;
      if p.client.calls[id].Open() && at.value in p.delivered {
        assert Session.TaskOk(v, p.server, p.delivered[at.value]);
      }
      ReadCall(c, v, p, since, j, p', id);
    }
    forall call | call in p'.server.callbacks ensures CallbackLive(c, p', call) {
      assert CallbackLive(c, p, call) && Session.CallbackOk(p.server, call);
      ReadCallback(c, p, j, p', call);
    }
    forall k | k in p'.server.tasks ensures TaskLive(c, v, bound, p', since, k) {
      assert TaskLive(c, v, bound, p, since, k);
    }
    forall n | 0 <= n < |p'.server.sent| && n !in p'.read ensures AnswerSince(p', since, p'.server.sent[n]) {
      assert AnswerSince(p, since, p.server.sent[n]);
    }
  }

  lemma ReadCall(c: ClientConfig, v: ServerConfig, p: State, since: nat, j: nat, p': State, id: Id)
    requires ReadsTo(c, p, j, p') && id in p.client.calls && CallLive(v, p, since, id)
    requires p.client.calls[id].Open() && p.client.calls[id].at.value in p.delivered ==>
               Session.TaskOk(v, p.server, p.delivered[p.client.calls[id].at.value])
    ensures CallLive(v, p', since, id)
  {
  }

  lemma ReadCallback(c: ClientConfig, p: State, j: nat, p': State, call: Id)
    requires ReadsTo(c, p, j, p') && call in p.server.callbacks && CallbackLive(c, p, call)
    requires Session.CallbackOk(p.server, call) && |p.client.sent| !in p.delivered
    ensures CallbackLive(c, p', call)
  {
  }

  // ----- other steps of the client

  lemma LiveClient(c: ClientConfig, v: ServerConfig, bound: Bound, p: State, since: nat, st: Client.Step)
    requires WellBehaved(c, v, bound) && LiveInv(c, v, bound, p, since)
    requires Reliable(v, AtClient(st)) && Enabled(c, v, p, AtClient(st))
    ensures LiveInv(c, v, bound, Next(c, v, p, AtClient(st)), since)
  {
    var p' := Next(c, v, p, AtClient(st));
    InvNext(c, v, p, AtClient(st));
    ClientCalls(c, v, bound, p, since, st, p');
    ClientTransit(c, v, p, since, st);
    ServerSideLive(c, v, bound, p, since, p');
  }

  lemma ServerSideLive(c: ClientConfig, v: ServerConfig, bound: Bound, p: State, since: nat, p': State)
    requires WellBehaved(c, v, bound) && CallbacksLive(c, p) && TasksLive(c, v, bound, p, since)
    requires p' == p.(client := p'.client)
    ensures CallbacksLive(c, p') && TasksLive(c, v, bound, p', since)
  {
    forall call | call in p'.server.callbacks ensures CallbackLive(c, p', call) {
      assert CallbackLive(c, p, call);
    }
    forall k | k in p'.server.tasks ensures TaskLive(c, v, bound, p', since, k) {
      assert TaskLive(c, v, bound, p, since, k);
    }
  }

  lemma ClientTransit(c: ClientConfig, v: ServerConfig, p: State, since: nat, st: Client.Step)
    requires TransitLive(p, since) && Reliable(v, AtClient(st)) && Enabled(c, v, p, AtClient(st))
    ensures TransitLive(Next(c, v, p, AtClient(st)), since)
  {
    forall n | 0 <= n < |p.server.sent| && n !in p.read
      ensures AnswerSince(Next(c, v, p, AtClient(st)), since, p.server.sent[n])
    {
      assert AnswerSince(p, since, p.server.sent[n]);
    }
  }

  lemma ClientCalls(
    c: ClientConfig, v: ServerConfig, bound: Bound, p: State, since: nat, st: Client.Step, p': State)
    requires WellBehaved(c, v, bound) && LiveInv(c, v, bound, p, since)
    requires Reliable(v, AtClient(st)) && Enabled(c, v, p, AtClient(st))
    requires p' == Next(c, v, p, AtClient(st))
    ensures CallsLive(v, p', since)
  {
    forall id | id in p'.client.calls ensures CallLive(v, p', since, id) {
      if id in p.client.calls {
        assert CallLive(v, p, since, id);
        if st.HandBack? && id != p.client.held.value.msg.id && p.client.calls[id].Open() {
          HeldIsNotFor(c, v, p, id);
        }
        ClientCall(c, v, p, since, st, id);
      }
    }
  }

  lemma ClientCall(c: ClientConfig, v: ServerConfig, p: State, since: nat, st: Client.Step, id: Id)
    requires Reliable(v, AtClient(st)) && Enabled(c, v, p, AtClient(st))
    requires id in p.client.calls && CallLive(v, p, since, id)
    requires p.client.held.Some? ==> p.client.held.value.from in p.read
    requires st.HandBack? && id != p.client.held.value.msg.id && p.client.calls[id].Open() ==>
               var i := p.client.calls[id].at.value;
               i in p.delivered && p.server.tasks[p.delivered[i]].Replied? ==>
                 p.server.tasks[p.delivered[i]].at != Some(p.client.held.value.from)
    ensures var p' := Next(c, v, p, AtClient(st));
            id in p'.client.calls && CallLive(v, p', since, id)
  {
  }

  /** The response in the reader's hand is not the reply to any other call. */
  lemma HeldIsNotFor(c: ClientConfig, v: ServerConfig, p: State, id: Id)
    requires Inv(c, v, p) && p.client.held.Some? && id in p.client.calls && id != p.client.held.value.msg.id
    requires p.client.calls[id].at.Some? && OnItsWay(p, p.client.calls[id].at.value)
    ensures var i := p.client.calls[id].at.value;
            i in p.delivered && p.server.tasks[p.delivered[i]].Replied? ==>
              p.server.tasks[p.delivered[i]].at != Some(p.client.held.value.from)
  {
    HeldAnswersCall(c, v, p);
    var i := p.client.calls[id].at.value;
    if i in p.delivered && p.server.tasks[p.delivered[i]].Replied? {
      CallTask(c, v, p, id);
      assert Session.TaskOk(v, p.server, p.delivered[i]);
    }
  }

  /** Every reliable step keeps the invariant. */
  lemma LiveNext(c: ClientConfig, v: ServerConfig, bound: Bound, p: State, since: nat, step: Step)
    requires WellBehaved(c, v, bound) && LiveInv(c, v, bound, p, since)
    requires Reliable(v, step) && Enabled(c, v, p, step)
    ensures LiveInv(c, v, bound, Next(c, v, p, step), since)
  {
    match step
    case Deliver(i) => LiveDeliver(c, v, bound, p, since, i);
    case AtServer(st) => LiveServer(c, v, bound, p, since, st);
    case Read(j, d) => LiveRead(c, v, bound, p, since, j);
    case AtClient(st) => LiveClient(c, v, bound, p, since, st);
  }
}
