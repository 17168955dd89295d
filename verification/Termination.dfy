/**
 Nested calls always finish.  Every internal step of the reliable fragment lowers the amount of work
 left, an open call always leaves an internal step enabled, and what a call finally returns is the
 value that direct evaluation gives.
 */
module Termination {
  import opened Messages
  import opened Protocol
  import opened ProtocolInvariant
  import opened ProtocolTheorems
  import opened Evaluation
  import opened Liveness
  import opened LivenessInvariant
  import Sets
  import Session
  import Client

  // ----- the work left, as a natural number

  /** What is left to a handler that has seen `used` events. */
  ghost function Ticks(bound: Bound, msg: Message, used: nat): nat {
    var n := bound(msg.verb, msg.params);
    3 + (if used <= n then 5 * (n - used) else 0)
  }

  ghost function PhaseWork(bound: Bound, msg: Message, phase: Session.Phase): nat {
    match phase
    case Spawned =>
      if Session.UserVerb(msg.verb) then Ticks(bound, msg, 0) + 1
      else if Session.RequestVerb(msg.verb) then 3 else 1
    case Running(seen) => Ticks(bound, msg, |seen|)
    case Awaiting(seen, _) => Ticks(bound, msg, |seen| + 1)
    case _ => 0
  }

  ghost function TaskWork(bound: Bound, recv: seq<Message>, tasks: map<nat, Session.Phase>): nat {
    if recv == [] then 0
    else
      var k := |recv| - 1;
      TaskWork(bound, recv[..k], tasks) + (if k in tasks then PhaseWork(bound, recv[k], tasks[k]) else 0)
  }

  /** A message on its way to the server is worth one more than the task it may start. */
  ghost function ToServerWork(bound: Bound, sent: seq<Client.Sent>, delivered: set<nat>): nat {
    if sent == [] then 0
    else
      var i := |sent| - 1;
      ToServerWork(bound, sent[..i], delivered)
      + (if i in delivered then 0 else PhaseWork(bound, sent[i].msg, Session.Spawned) + 1)
  }

  ghost function MessageWork(sent: Session.Sent): nat {
    match sent
    case Answer(_, _) => 2
    case Query(_, _) => 3
    case Tell(_) => 1
  }

  ghost function ToClientWork(sent: seq<Session.Sent>, read: set<nat>): nat {
    if sent == [] then 0
    else
      var j := |sent| - 1;
      ToClientWork(sent[..j], read) + (if j in read then 0 else MessageWork(sent[j]))
  }

  ghost function SendingCalls(p: State): set<Id> {
    set id | id in p.client.calls && p.client.calls[id].status.Sending?
  }

  ghost function SendingCallbacks(s: Session.State): set<Id> {
    set call | call in s.callbacks && s.callbacks[call].status.Sending?
  }

  ghost function Work(bound: Bound, p: State): nat {
    TaskWork(bound, p.server.recv, p.server.tasks)
    + ToServerWork(bound, p.client.sent, p.delivered.Keys)
    + ToClientWork(p.server.sent, p.read)
    + |SendingCalls(p)| + |SendingCallbacks(p.server)|
    + (if p.client.held.Some? then 1 else 0)
    + 2 * |p.server.inbox|
  }

  // ----- sums under the changes that steps make

  lemma {:induction false} TaskWorkUpdate(
    bound: Bound, recv: seq<Message>, tasks: map<nat, Session.Phase>, k: nat, phase: Session.Phase)
    requires k < |recv| && k in tasks
    ensures TaskWork(bound, recv, tasks[k := phase]) + PhaseWork(bound, recv[k], tasks[k])
            == TaskWork(bound, recv, tasks) + PhaseWork(bound, recv[k], phase)
  {
    var n := |recv| - 1;
    if k < n {
      TaskWorkUpdate(bound, recv[..n], tasks, k, phase);
    } else {
      TaskWorkBeyond(bound, recv[..n], tasks, k, phase);
    }
  }

  lemma {:induction false} TaskWorkBeyond(
    bound: Bound, recv: seq<Message>, tasks: map<nat, Session.Phase>, k: nat, phase: Session.Phase)
    requires |recv| <= k
    ensures TaskWork(bound, recv, tasks[k := phase]) == TaskWork(bound, recv, tasks)
  {
    if recv != [] { TaskWorkBeyond(bound, recv[..|recv| - 1], tasks, k, phase); }
  }

  lemma {:induction false} ToServerWorkDelivered(bound: Bound, sent: seq<Client.Sent>, delivered: set<nat>, i: nat)
    requires i < |sent| && i !in delivered
    ensures ToServerWork(bound, sent, delivered)
            == ToServerWork(bound, sent, delivered + {i}) + PhaseWork(bound, sent[i].msg, Session.Spawned) + 1
  {
    var n := |sent| - 1;
    if i < n {
      ToServerWorkDelivered(bound, sent[..n], delivered, i);
    } else {
      ToServerWorkBeyond(bound, sent[..n], delivered, i);
    }
  }

  lemma {:induction false} ToServerWorkBeyond(bound: Bound, sent: seq<Client.Sent>, delivered: set<nat>, i: nat)
    requires |sent| <= i
    ensures ToServerWork(bound, sent, delivered + {i}) == ToServerWork(bound, sent, delivered)
  {
    if sent != [] { ToServerWorkBeyond(bound, sent[..|sent| - 1], delivered, i); }
  }

  lemma ToServerWorkAppend(bound: Bound, sent: seq<Client.Sent>, delivered: set<nat>, item: Client.Sent)
    requires |sent| !in delivered
    ensures ToServerWork(bound, sent + [item], delivered)
            == ToServerWork(bound, sent, delivered) + PhaseWork(bound, item.msg, Session.Spawned) + 1
  {
    assert (sent + [item])[..|sent|] == sent;
  }

  lemma {:induction false} ToClientWorkRead(sent: seq<Session.Sent>, read: set<nat>, j: nat)
    requires j < |sent| && j !in read
    ensures ToClientWork(sent, read) == ToClientWork(sent, read + {j}) + MessageWork(sent[j])
  {
    var n := |sent| - 1;
    if j < n {
      ToClientWorkRead(sent[..n], read, j);
    } else {
      ToClientWorkBeyond(sent[..n], read, j);
    }
  }

  lemma {:induction false} ToClientWorkBeyond(sent: seq<Session.Sent>, read: set<nat>, j: nat)
    requires |sent| <= j
    ensures ToClientWork(sent, read + {j}) == ToClientWork(sent, read)
  {
    if sent != [] { ToClientWorkBeyond(sent[..|sent| - 1], read, j); }
  }

  lemma ToClientWorkAppend(sent: seq<Session.Sent>, read: set<nat>, item: Session.Sent)
    requires |sent| !in read
    ensures ToClientWork(sent + [item], read) == ToClientWork(sent, read) + MessageWork(item)
  {
    assert (sent + [item])[..|sent|] == sent;
  }

  // ----- every internal step lowers the work left

  lemma LowerDeliver(c: ClientConfig, v: ServerConfig, bound: Bound, p: State, i: nat)
    requires Inv(c, v, p) && Enabled(c, v, p, Deliver(i))
    ensures Work(bound, Next(c, v, p, Deliver(i))) < Work(bound, p)
  {
    var p' := Next(c, v, p, Deliver(i));
    var msg := p.client.sent[i].msg;
    ToServerWorkDelivered(bound, p.client.sent, p.delivered.Keys, i);
    assert p'.delivered.Keys == p.delivered.Keys + {i};
    var n := |p.server.recv|;
    assert p'.server.recv[..n] == p.server.recv;
    TaskWorkBeyond(bound, p.server.recv, p.server.tasks, n, Session.Spawned);
    assert n !in p.server.tasks;
    assert SendingCalls(p') == SendingCalls(p) && SendingCallbacks(p'.server) == SendingCallbacks(p.server);
  }

  lemma LowerSettle(
    bound: Bound, p: State, k: nat, seen: seq<Session.Event>, reply: Reply)
    requires k in p.server.tasks && k < |p.server.recv| && |p.server.sent| !in p.read
    requires PhaseWork(bound, p.server.recv[k], p.server.tasks[k]) >= 3
    ensures Work(bound, p.(server := Session.Settle(p.server, k, seen, reply, true))) < Work(bound, p)
  {
    var s := p.server;
    var s' := Session.Settle(s, k, seen, reply, true);
    TaskWorkUpdate(bound, s.recv, s.tasks, k, s'.tasks[k]);
    ToClientWorkAppend(s.sent, p.read, s'.sent[|s.sent|]);
    assert SendingCalls(p.(server := s')) == SendingCalls(p) && SendingCallbacks(s') == SendingCallbacks(s);
  }

  lemma LowerTask(bound: Bound, p: State, s': Session.State, k: nat)
    requires k in p.server.tasks && k < |p.server.recv|
    requires k in s'.tasks
    requires s' == p.server.(initialized := s'.initialized, tasks := p.server.tasks[k := s'.tasks[k]])
    requires PhaseWork(bound, p.server.recv[k], s'.tasks[k]) < PhaseWork(bound, p.server.recv[k], p.server.tasks[k])
    ensures Work(bound, p.(server := s')) < Work(bound, p)
  {
    TaskWorkUpdate(bound, p.server.recv, p.server.tasks, k, s'.tasks[k]);
    assert SendingCalls(p.(server := s')) == SendingCalls(p) && SendingCallbacks(s') == SendingCallbacks(p.server);
  }

  lemma RecordKeepsWork(bound: Bound, p: State, uri: Uri, on: bool)
    ensures Work(bound, p.(server := Session.Record(p.server, uri, on))) == Work(bound, p)
  {
    var r := Session.Record(p.server, uri, on);
    assert SendingCalls(p.(server := r)) == SendingCalls(p) && SendingCallbacks(r) == SendingCallbacks(p.server);
  }

  lemma LowerBegin(v: ServerConfig, bound: Bound, p: State, k: nat)
    requires Session.Enabled(v, p.server, Session.Begin(k, true)) && Session.TaskOk(v, p.server, k)
    requires |p.server.sent| !in p.read
    ensures Work(bound, p.(server := Session.BeginTask(v, p.server, k, true))) < Work(bound, p)
  {
    var s, s' := p.server, Session.BeginTask(v, p.server, k, true);
    var msg := s.recv[k];
    if Session.NeedsInitialized(msg.verb) && !s.initialized {
      LowerTask(bound, p, s', k);
    } else if msg.verb.ResourcesSubscribe? || msg.verb.ResourcesUnsubscribe? {
      var r := Session.Record(s, msg.params.uri, msg.verb.ResourcesSubscribe?);
      RecordKeepsWork(bound, p, msg.params.uri, msg.verb.ResourcesSubscribe?);
      LowerSettle(bound, p.(server := r), k, [], Success(Null));
    } else if Session.RequestVerb(msg.verb) && !Session.UserVerb(msg.verb) {
      var reply := if msg.verb.Initialize? then Session.InitializeReply(v, msg.params) else Success(Null);
      LowerSettle(bound, p, k, [], reply);
    } else {
      LowerTask(bound, p, s', k);
    }
  }

  lemma LowerAct(c: ClientConfig, v: ServerConfig, bound: Bound, p: State, k: nat, call: Id)
    requires WellBehaved(c, v, bound) && Session.Enabled(v, p.server, Session.Act(k, call, true))
    requires |p.server.sent| !in p.read
    ensures Work(bound, p.(server := Session.ActTask(v, p.server, k, call, true))) < Work(bound, p)
  {
    var s, s' := p.server, Session.ActTask(v, p.server, k, call, true);
    var msg, seen := s.recv[k], s.tasks[k].seen;
    var action := v.handler(msg.verb, msg.params, seen);
    match action
    case Return(value) => LowerSettle(bound, p, k, seen, Success(value));
    case Fail => LowerSettle(bound, p, k, seen, Failure(Session.INTERNAL_ERROR));
    case Report(_, _, _) => LowerTask(bound, p, s', k);
    case Ask(_, _) => LowerAsk(bound, p, s', k, call);
  }

  lemma LowerAsk(bound: Bound, p: State, s': Session.State, k: nat, call: Id)
    requires k in p.server.tasks && k < |p.server.recv| && p.server.tasks[k].Running? && |p.server.sent| !in p.read
    requires k in s'.tasks && call in s'.callbacks && |s'.sent| > |p.server.sent| && s'.sent[|p.server.sent|].Query?
    requires s' == p.server.(callbacks := p.server.callbacks[call := s'.callbacks[call]],
                             tasks := p.server.tasks[k := Session.Awaiting(p.server.tasks[k].seen, call)],
                             sent := p.server.sent + [s'.sent[|p.server.sent|]])
    requires |p.server.tasks[k].seen| < bound(p.server.recv[k].verb, p.server.recv[k].params)
    ensures Work(bound, p.(server := s')) < Work(bound, p)
  {
    var s := p.server;
    TaskWorkUpdate(bound, s.recv, s.tasks, k, s'.tasks[k]);
    ToClientWorkAppend(s.sent, p.read, s'.sent[|s.sent|]);
    assert SendingCalls(p.(server := s')) == SendingCalls(p);
    assert SendingCallbacks(s') <= SendingCallbacks(s) + {call};
    Sets.SubsetSize(SendingCallbacks(s'), SendingCallbacks(s) + {call});
  }

  lemma LowerSendDone(c: ClientConfig, v: ServerConfig, bound: Bound, p: State, call: Id)
    requires Inv(c, v, p) && Session.Enabled(v, p.server, Session.SendDone(call, true))
    ensures Work(bound, p.(server := Session.Next(v, p.server, Session.SendDone(call, true)))) < Work(bound, p)
  {
    var s, s' := p.server, Session.Next(v, p.server, Session.SendDone(call, true));
    assert SendingCalls(p.(server := s')) == SendingCalls(p);
    assert SendingCallbacks(s) == SendingCallbacks(s') + {call} && call !in SendingCallbacks(s');
  }

  lemma LowerHandOver(c: ClientConfig, v: ServerConfig, bound: Bound, p: State, k: nat)
    requires Inv(c, v, p) && Session.Enabled(v, p.server, Session.HandOver(k))
    ensures Work(bound, p.(server := Session.Next(v, p.server, Session.HandOver(k)))) < Work(bound, p)
  {
    var s := p.server;
    var call := s.recv[k].id;
    assert Session.CallbackOk(s, call);
    var owner := s.callbacks[call].owner;
    if owner.Some? { assert Session.TaskOk(v, s, owner.value); }
    LowerHandOverMove(v, bound, p, k);
  }

  lemma LowerHandOverMove(v: ServerConfig, bound: Bound, p: State, k: nat)
    requires Session.Enabled(v, p.server, Session.HandOver(k)) && Session.CallbackOk(p.server, p.server.recv[k].id)
    requires p.server.callbacks[p.server.recv[k].id].owner.Some? ==>
               p.server.callbacks[p.server.recv[k].id].owner.value < |p.server.recv|
    ensures Work(bound, p.(server := Session.Next(v, p.server, Session.HandOver(k)))) < Work(bound, p)
  {
    var s, s' := p.server, Session.Next(v, p.server, Session.HandOver(k));
    TaskWorkUpdate(bound, s.recv, s.tasks, k, Session.Done);
    var owner := s.callbacks[s.recv[k].id].owner;
    if owner.Some? {
      TaskWorkUpdate(bound, s.recv, s.tasks[k := Session.Done], owner.value, s'.tasks[owner.value]);
    }
    assert SendingCalls(p.(server := s')) == SendingCalls(p);
    assert SendingCallbacks(s') == SendingCallbacks(s);
  }

  lemma LowerEmit(c: ClientConfig, v: ServerConfig, bound: Bound, p: State)
    requires Inv(c, v, p) && Session.Enabled(v, p.server, Session.Emit(true))
    ensures Work(bound, p.(server := Session.Next(v, p.server, Session.Emit(true)))) < Work(bound, p)
  {
    var s, s' := p.server, Session.Next(v, p.server, Session.Emit(true));
    ToClientWorkAppend(s.sent, p.read, Session.Tell(Session.NoticeOf(s.inbox[0])));
    assert SendingCalls(p.(server := s')) == SendingCalls(p);
    assert SendingCallbacks(s') == SendingCallbacks(s);
  }

  lemma LowerRead(c: ClientConfig, v: ServerConfig, bound: Bound, p: State, j: nat)
    requires Inv(c, v, p) && Enabled(c, v, p, Read(j, true))
    ensures Work(bound, Next(c, v, p, Read(j, true))) < Work(bound, p)
  {
    ReadEffect(c, p.client, j, p.server.sent[j].msg, true);
    assert Session.SentOk(p.server, j);
    assert |p.client.sent| !in p.delivered.Keys;
    LowerReadMove(bound, p, j, Next(c, v, p, Read(j, true)));
  }

  lemma LowerReadMove(bound: Bound, p: State, j: nat, p': State)
    requires j < |p.server.sent| && j !in p.read && p.client.held.None? && |p.client.sent| !in p.delivered.Keys
    requires p' == p.(client := p'.client, read := p.read + {j}, answers := p'.answers)
    requires p'.client.calls == p.client.calls
    requires p'.client.held.None? || p.server.sent[j].Answer?
    requires || p'.client.sent == p.client.sent
             || (p.server.sent[j].Query? && p'.client.held.None? && |p'.client.sent| > |p.client.sent|
                 && p'.client.sent[|p.client.sent|].msg.verb.NoMethod?
                 && p'.client.sent == p.client.sent + [p'.client.sent[|p.client.sent|]])
    ensures Work(bound, p') < Work(bound, p)
  {
    ToClientWorkRead(p.server.sent, p.read, j);
    assert SendingCalls(p') == SendingCalls(p);
    if p'.client.sent != p.client.sent {
      ToServerWorkAppend(bound, p.client.sent, p.delivered.Keys, p'.client.sent[|p.client.sent|]);
    }
  }

  lemma LowerSendReturn(c: ClientConfig, bound: Bound, p: State, call: Id)
    requires Client.Enabled(c, p.client, Client.SendReturn(call, true))
    ensures Work(bound, p.(client := Client.Next(c, p.client, Client.SendReturn(call, true)))) < Work(bound, p)
  {
    var p' := p.(client := Client.Next(c, p.client, Client.SendReturn(call, true)));
    assert SendingCalls(p) == SendingCalls(p') + {call} && call !in SendingCalls(p');
  }

  lemma LowerHandBack(c: ClientConfig, bound: Bound, p: State)
    requires Client.Enabled(c, p.client, Client.HandBack)
    ensures Work(bound, p.(client := Client.Next(c, p.client, Client.HandBack))) < Work(bound, p)
  {
    var p' := p.(client := Client.Next(c, p.client, Client.HandBack));
    assert SendingCalls(p) == SendingCalls(p');
  }

  lemma LowerNext(c: ClientConfig, v: ServerConfig, bound: Bound, p: State, step: Step)
    requires WellBehaved(c, v, bound) && Inv(c, v, p) && Internal(step) && Enabled(c, v, p, step)
    ensures Work(bound, Next(c, v, p, step)) < Work(bound, p)
  {
    match step
    case Deliver(i) => LowerDeliver(c, v, bound, p, i);
    case Read(j, _) => LowerRead(c, v, bound, p, j);
    case AtClient(st) =>
      if st.HandBack? { LowerHandBack(c, bound, p); } else { LowerSendReturn(c, bound, p, st.call); }
    case AtServer(st) =>
      match st
      case Begin(k, _) =>
        assert Session.TaskOk(v, p.server, k);
        LowerBegin(v, bound, p, k);
      case Act(k, call, _) => LowerAct(c, v, bound, p, k, call);
      case SendDone(call, _) => LowerSendDone(c, v, bound, p, call);
      case HandOver(k) => LowerHandOver(c, v, bound, p, k);
      case Discard(k) => LowerTask(bound, p, Session.Next(v, p.server, st), k);
      case Emit(_) => LowerEmit(c, v, bound, p);
  }

  // ----- an open call always leaves an internal step enabled

  lemma CallbackCanMove(c: ClientConfig, v: ServerConfig, bound: Bound, p: State, since: nat, call: Id)
    returns (step: Step)
    requires WellBehaved(c, v, bound) && LiveInv(c, v, bound, p, since) && p.client.held.None?
    requires call in p.server.callbacks && p.server.callbacks[call].Open()
    ensures Internal(step) && Enabled(c, v, p, step)
  {
    var b := p.server.callbacks[call];
    assert CallbackLive(c, p, call) && Session.CallbackOk(p.server, call);
    if b.status.Sending? {
      step := AtServer(Session.SendDone(call, true));
    } else if b.at.value !in p.read {
      step := Read(b.at.value, true);
    } else {
      CallbackTask(c, v, p, call);
      var i := p.answers[b.at.value];
      step := if i !in p.delivered then Deliver(i) else AtServer(Session.HandOver(p.delivered[i]));
    }
  }

  lemma TaskCanMove(c: ClientConfig, v: ServerConfig, bound: Bound, p: State, since: nat, k: nat)
    returns (step: Step)
    requires WellBehaved(c, v, bound) && LiveInv(c, v, bound, p, since) && p.client.held.None?
    requires k in p.server.tasks && p.server.tasks[k].Live() && k < |p.server.recv|
    requires !p.server.recv[k].verb.NoMethod? && Session.Provided(v, p.server.recv[k])
    ensures Internal(step) && Enabled(c, v, p, step)
  {
    assert Session.TaskOk(v, p.server, k);
    match p.server.tasks[k]
    case Spawned => step := AtServer(Session.Begin(k, true));
    case Running(_) =>
      var id := Sets.FreshString(p.server.callbacks.Keys + p.client.calls.Keys);
      step := AtServer(Session.Act(k, id, true));
    case Awaiting(_, call) => step := CallbackCanMove(c, v, bound, p, since, call);
  }

  lemma OpenCallCanMove(c: ClientConfig, v: ServerConfig, bound: Bound, p: State, since: nat, id: Id)
    returns (step: Step)
    requires WellBehaved(c, v, bound) && LiveInv(c, v, bound, p, since)
    requires id in p.client.calls && p.client.calls[id].Open()
    ensures Internal(step) && Enabled(c, v, p, step)
  {
    if p.client.held.Some? {
      var held := p.client.held.value.msg.id;
      step := if p.client.calls[held].status.Sending? then AtClient(Client.SendReturn(held, true))
              else AtClient(Client.HandBack);
    } else if p.client.calls[id].status.Sending? {
      step := AtClient(Client.SendReturn(id, true));
    } else {
      assert CallLive(v, p, since, id) && Client.CallOk(c, p.client, id);
      var i := p.client.calls[id].at.value;
      if i !in p.delivered {
        step := Deliver(i);
      } else {
        CallTask(c, v, p, id);
        var k := p.delivered[i];
        if p.server.tasks[k].Replied? {
          assert Session.TaskOk(v, p.server, k);
          step := Read(p.server.tasks[k].at.value, true);
        } else {
          step := TaskCanMove(c, v, bound, p, since, k);
        }
      }
    }
  }

  // ----- what a finished call returned

  lemma ReturnedIsDirect(c: ClientConfig, v: ServerConfig, bound: Bound, p: State, since: nat, id: Id)
    requires WellBehaved(c, v, bound) && LiveInv(c, v, bound, p, since)
    requires id in p.client.calls && p.client.calls[id].status.Returned?
    requires p.client.calls[id].at.Some? && p.client.calls[id].at.value >= since
    ensures var call := p.client.calls[id];
            ReplyOf(call.status.msg) == Direct(c, v, bound, call.verb, call.params)
  {
    var call := p.client.calls[id];
    assert CallLive(v, p, since, id) && ReturnOk(p, id);
    assert Session.SentOk(p.server, call.status.from);
    var k := p.server.sent[call.status.from].task;
    assert Session.TaskOk(v, p.server, k) && TaskLive(c, v, bound, p, since, k);
    ReceivedIsCall(c, v, p, k);
    ResponseRoundTrip(p.server.recv[k].id, p.server.tasks[k].reply);
  }

  // ----- whole runs

  ghost predicate AllReliable(v: ServerConfig, steps: seq<Step>) {
    forall n :: 0 <= n < |steps| ==> Reliable(v, steps[n])
  }

  ghost predicate AllInternal(steps: seq<Step>) {
    forall n :: 0 <= n < |steps| ==> Internal(steps[n])
  }

  /** Calls made after the start have their request in the history since the start. */
  ghost predicate MadeSince(known: set<Id>, p: State, since: nat) {
    forall id :: id in p.client.calls ==>
                   id in known || (p.client.calls[id].at.Some? && p.client.calls[id].at.value >= since)
  }

  lemma MadeSinceNext(
    c: ClientConfig, v: ServerConfig, known: set<Id>, p: State, since: nat, step: Step)
    requires MadeSince(known, p, since) && since <= |p.client.sent| && Reliable(v, step) && Enabled(c, v, p, step)
    ensures MadeSince(known, Next(c, v, p, step), since)
  {
    if step.Read? { ReadEffect(c, p.client, step.j, p.server.sent[step.j].msg, step.delivered); }
  }

  lemma LiveExec(
    c: ClientConfig, v: ServerConfig, bound: Bound, known: set<Id>, p: State, since: nat, steps: seq<Step>)
    requires WellBehaved(c, v, bound) && LiveInv(c, v, bound, p, since) && MadeSince(known, p, since)
    requires Legal(c, v, p, steps) && AllReliable(v, steps)
    ensures LiveInv(c, v, bound, Exec(c, v, p, steps), since)
    ensures MadeSince(known, Exec(c, v, p, steps), since)
    decreases |steps|
  {
    if steps != [] {
      LiveNext(c, v, bound, p, since, steps[0]);
      MadeSinceNext(c, v, known, p, since, steps[0]);
      LiveExec(c, v, bound, known, Next(c, v, p, steps[0]), since, steps[1..]);
    }
  }

  /** A call ended with the value that direct evaluation of the handlers gives. */
  ghost predicate Finished(c: ClientConfig, v: ServerConfig, bound: Bound, call: Client.Call)
    requires WellBehaved(c, v, bound)
  {
    call.status.Returned? && ReplyOf(call.status.msg) == Direct(c, v, bound, call.verb, call.params)
  }

  /**
   From a quiet initialized session, after any reliable run with any number of calls that the server
   serves, nested callbacks, pings both ways and updates: every internal step lowers the work left;
   while a call is open some internal step is enabled; and a call made since the start that is not
   open has returned what direct evaluation gives.
   */
  lemma NestedCallsFinish(c: ClientConfig, v: ServerConfig, bound: Bound, start: State, steps: seq<Step>)
    requires WellBehaved(c, v, bound) && Inv(c, v, start) && Quiet(start)
    requires Legal(c, v, start, steps) && AllReliable(v, steps)
    ensures var p := Exec(c, v, start, steps);
            && (forall step :: Internal(step) && Enabled(c, v, p, step) ==>
                                 Work(bound, Next(c, v, p, step)) < Work(bound, p))
            && ((exists id :: id in p.client.calls && p.client.calls[id].Open()) ==>
                  exists step :: Internal(step) && Enabled(c, v, p, step))
            && (forall id :: id in p.client.calls && id !in start.client.calls ==>
                               p.client.calls[id].Open() || Finished(c, v, bound, p.client.calls[id]))
  {
    var since := |start.client.sent|;
    QuietIsLive(c, v, bound, start);
    LiveExec(c, v, bound, start.client.calls.Keys, start, since, steps);
    var p := Exec(c, v, start, steps);
    forall step | Internal(step) && Enabled(c, v, p, step)
      ensures Work(bound, Next(c, v, p, step)) < Work(bound, p)
    {
      LowerNext(c, v, bound, p, step);
    }
    if id :| id in p.client.calls && p.client.calls[id].Open() {
      var step := OpenCallCanMove(c, v, bound, p, since, id);
    }
    forall id | id in p.client.calls && id !in start.client.calls && !p.client.calls[id].Open()
      ensures Finished(c, v, bound, p.client.calls[id])
    {
      assert CallLive(v, p, since, id);
      ReturnedIsDirect(c, v, bound, p, since, id);
    }
  }

  /** Internal steps alone cannot go on for longer than the work left. */
  lemma InternalRunsEnd(c: ClientConfig, v: ServerConfig, bound: Bound, p: State, since: nat, steps: seq<Step>)
    requires WellBehaved(c, v, bound) && LiveInv(c, v, bound, p, since)
    requires Legal(c, v, p, steps) && AllInternal(steps)
    ensures |steps| <= Work(bound, p)
    decreases |steps|
  {
    if steps != [] {
      LowerNext(c, v, bound, p, steps[0]);
      LiveNext(c, v, bound, p, since, steps[0]);
      InternalRunsEnd(c, v, bound, Next(c, v, p, steps[0]), since, steps[1..]);
    }
  }

  /** Nothing is left that could move a call on. */
  ghost predicate Settled(c: ClientConfig, v: ServerConfig, p: State) {
    forall step :: Internal(step) ==> !Enabled(c, v, p, step)
  }

  lemma InternalIsReliable(v: ServerConfig, steps: seq<Step>)
    requires AllInternal(steps)
    ensures AllReliable(v, steps)
  {
  }

  /**
   After any reliable run from a quiet initialized session, the peers left to themselves take at most
   as many steps as there is work left; and when they can take no more, every call made since the
   start has returned what direct evaluation gives.
   */
  lemma EveryCallReturns(
    c: ClientConfig, v: ServerConfig, bound: Bound, start: State, steps: seq<Step>, p: State, alone: seq<Step>)
    requires WellBehaved(c, v, bound) && Inv(c, v, start) && Quiet(start)
    requires Legal(c, v, start, steps) && AllReliable(v, steps)
    requires p == Exec(c, v, start, steps) && Legal(c, v, p, alone) && AllInternal(alone)
    ensures var q := Exec(c, v, p, alone);
            && |alone| <= Work(bound, p)
            && (Settled(c, v, q) ==>
                  forall id :: id in q.client.calls && id !in start.client.calls ==>
                                 Finished(c, v, bound, q.client.calls[id]))
  {
    var since, known := |start.client.sent|, start.client.calls.Keys;
    QuietIsLive(c, v, bound, start);
    LiveExec(c, v, bound, known, start, since, steps);
    InternalRunsEnd(c, v, bound, p, since, alone);
    InternalIsReliable(v, alone);
    LiveExec(c, v, bound, known, p, since, alone);
    var q := Exec(c, v, p, alone);
    if Settled(c, v, q) {
      forall id | id in q.client.calls && id !in start.client.calls ensures Finished(c, v, bound, q.client.calls[id]) {
        if q.client.calls[id].Open() {
          var step := OpenCallCanMove(c, v, bound, q, since, id);
        }
        assert CallLive(v, q, since, id);
        ReturnedIsDirect(c, v, bound, q, since, id);
      }
    }
  }

  lemma MoveOn(c: ClientConfig, v: ServerConfig, bound: Bound, p: State, since: nat, id: Id)
    returns (step: Step, p': State)
    requires WellBehaved(c, v, bound) && LiveInv(c, v, bound, p, since)
    requires id in p.client.calls && p.client.calls[id].Open()
    ensures Internal(step) && Enabled(c, v, p, step) && p' == Next(c, v, p, step)
    ensures LiveInv(c, v, bound, p', since) && Work(bound, p') < Work(bound, p)
  {
    step := OpenCallCanMove(c, v, bound, p, since, id);
    p' := Next(c, v, p, step);
    LowerNext(c, v, bound, p, step);
    LiveNext(c, v, bound, p, since, step);
  }

  lemma InternalFirst(c: ClientConfig, v: ServerConfig, p: State, step: Step, p': State, rest: seq<Step>)
    requires Internal(step) && Enabled(c, v, p, step) && p' == Next(c, v, p, step)
    requires Legal(c, v, p', rest) && AllInternal(rest)
    ensures Legal(c, v, p, [step] + rest) && AllInternal([step] + rest)
    ensures Exec(c, v, p, [step] + rest) == Exec(c, v, p', rest)
  {
    RunFirst(c, v, p, step, rest);
  }

  ghost predicate NoneOpen(p: State) {
    forall id :: id in p.client.calls ==> !p.client.calls[id].Open()
  }

  /** From every reachable state, internal steps alone can bring every open call to its end. */
  lemma OpenCallsCanFinish(c: ClientConfig, v: ServerConfig, bound: Bound, p: State, since: nat)
    returns (steps: seq<Step>)
    requires WellBehaved(c, v, bound) && LiveInv(c, v, bound, p, since)
    ensures Legal(c, v, p, steps) && AllInternal(steps)
    ensures NoneOpen(Exec(c, v, p, steps))
    decreases Work(bound, p)
  {
    if !NoneOpen(p) {
      var id :| id in p.client.calls && p.client.calls[id].Open();
      var step, p' := MoveOn(c, v, bound, p, since, id);
      var rest := OpenCallsCanFinish(c, v, bound, p', since);
      InternalFirst(c, v, p, step, p', rest);
      steps := [step] + rest;
    } else {
      steps := [];
    }
  }
}
