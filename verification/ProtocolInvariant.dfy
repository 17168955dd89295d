/** Every step of the joint machine keeps its invariant. */
module ProtocolInvariant {
  import opened Messages
  import opened Negotiation
  import opened Protocol
  import Session
  import Client

  // ----- parts of the invariant that only depend on histories growing

  lemma AnswersKept(c: ClientConfig, p: State, p': State)
    requires AnswersOk(c, p)
    requires p.server.sent <= p'.server.sent && p.client.sent <= p'.client.sent
    requires forall j :: j in p.answers ==> j in p'.answers && p'.answers[j] == p.answers[j]
    requires forall i :: |p.client.sent| <= i < |p'.client.sent| ==> AnswerOk(c, p', i)
    ensures AnswersOk(c, p')
  {
    forall n | 0 <= n < |p'.client.sent| ensures AnswerOk(c, p', n) {
      if n < |p.client.sent| { assert AnswerOk(c, p, n); }
    }
  }

  lemma ReturnsKept(p: State, p': State)
    requires ReturnsOk(p)
    requires p.server.sent <= p'.server.sent && p.server.recv <= p'.server.recv
    requires forall id :: id in p'.client.calls ==>
                            (id in p.client.calls && p'.client.calls[id] == p.client.calls[id]) || ReturnOk(p', id)
    ensures ReturnsOk(p')
  {
    forall id | id in p'.client.calls ensures ReturnOk(p', id) {
      if id in p.client.calls { assert ReturnOk(p, id); }
    }
  }

  lemma GivensKept(c: ClientConfig, p: State, p': State)
    requires GivensOk(c, p) && p'.server.callbacks == p.server.callbacks
    requires p.server.sent <= p'.server.sent && p.server.recv <= p'.server.recv
    requires p.client.sent <= p'.client.sent && p.origin <= p'.origin
    ensures GivensOk(c, p')
  {
    forall call | call in p'.server.callbacks ensures GivenOk(c, p', call) {
      assert GivenOk(c, p, call);
    }
  }

  lemma SeensKept(c: ClientConfig, v: ServerConfig, p: State, p': State)
    requires SeensOk(c, v, p) && p.server.recv <= p'.server.recv
    requires forall k :: k in p'.server.tasks ==>
                           && k < |p'.server.recv|
                           && ((k in p.server.tasks && p'.server.tasks[k] == p.server.tasks[k])
                               || p'.server.tasks[k].Spawned?)
    ensures SeensOk(c, v, p')
  {
    forall k | k in p'.server.tasks ensures k < |p'.server.recv| && SeenOk(c, v, p', k) {
      if k in p.server.tasks { assert SeenOk(c, v, p, k); }
    }
  }

  lemma DeliverLink(c: ClientConfig, v: ServerConfig, p: State, i: nat)
    requires LinkOk(p) && Enabled(c, v, p, Deliver(i))
    ensures LinkOk(Next(c, v, p, Deliver(i)))
  {
  }

  lemma InvDeliver(c: ClientConfig, v: ServerConfig, p: State, i: nat)
    requires Inv(c, v, p) && Enabled(c, v, p, Deliver(i))
    ensures Inv(c, v, Next(c, v, p, Deliver(i)))
  {
    var p' := Next(c, v, p, Deliver(i));
    Session.InvReceive(v, p.server, p.client.sent[i].msg);
    DeliverLink(c, v, p, i);
    AnswersKept(c, p, p');
    ReturnsKept(p, p');
    GivensKept(c, p, p');
    SeensKept(c, v, p, p');
  }

  // ----- steps of the session

  /** A response that reaches a callback of the session was made by the client for that callback. */
  lemma HandedOverReply(c: ClientConfig, v: ServerConfig, p: State, k: nat)
    requires Inv(c, v, p) && Session.Enabled(v, p.server, Session.HandOver(k))
    ensures AnsweredBy(c, p, p.server.recv[k].id, k, ReplyOf(p.server.recv[k]))
  {
    var i := p.origin[k];
    assert Client.SentOk(c, p.client, i);
    assert AnswerOk(c, p, i);
    assert p.client.sent[i].Reply?;
    var j := p.client.sent[i].to;
    assert Session.SentOk(p.server, j);
    var q := p.server.sent[j].msg;
    ResponseRoundTrip(p.server.recv[k].id, ClientReply(c, q.verb, q.params).value);
  }

  lemma GivenNext(c: ClientConfig, v: ServerConfig, p: State, st: Session.Step, s': Session.State, call: Id)
    requires Inv(c, v, p) && Session.Enabled(v, p.server, st)
    requires p.server.sent <= s'.sent && p.server.recv <= s'.recv
    requires call in s'.callbacks && Session.CallbackMoves(p.server, st, s', call)
    ensures GivenOk(c, p.(server := s'), call)
  {
    if call in p.server.callbacks { assert GivenOk(c, p, call); }
    if st.HandOver? { HandedOverReply(c, v, p, st.task); }
  }

  lemma SeenNext(c: ClientConfig, v: ServerConfig, p: State, st: Session.Step, s': Session.State, k: nat)
    requires Inv(c, v, p) && Session.Enabled(v, p.server, st)
    requires k in p.server.tasks && k in s'.tasks && s'.recv == p.server.recv && k < |s'.recv|
    requires Session.TaskMoves(v, p.server, st, s', k)
    ensures SeenOk(c, v, p.(server := s'), k)
  {
    assert SeenOk(c, v, p, k) && Session.TaskOk(v, p.server, k);
    if st.HandOver? { HandedOverReply(c, v, p, st.task); }
    SeenMove(c, v, p, st, s', k);
  }

  lemma SeenMove(c: ClientConfig, v: ServerConfig, p: State, st: Session.Step, s': Session.State, k: nat)
    requires k in p.server.tasks && k in s'.tasks && s'.recv == p.server.recv && k < |s'.recv|
    requires Session.TaskOk(v, p.server, k) && SeenOk(c, v, p, k) && Session.TaskMoves(v, p.server, st, s', k)
    requires st.HandOver? ==>
               && st.task < |p.server.recv| && p.server.recv[st.task].id in p.server.callbacks
               && var b := p.server.callbacks[p.server.recv[st.task].id];
               ClientReply(c, b.verb, b.params) == Some(ReplyOf(p.server.recv[st.task]))
    ensures SeenOk(c, v, p.(server := s'), k)
  {
    if s'.tasks[k].Running? && s'.tasks[k] != p.server.tasks[k] && !st.Begin? {
      var seen := p.server.tasks[k].seen;
      var event := s'.tasks[k].seen[|seen|];
      assert s'.tasks[k].seen == seen + [event];
      ReplaysOneMore(c, v, p.server.recv[k], seen, event);
    }
  }

  lemma FlagNext(c: ClientConfig, v: ServerConfig, p: State, k: nat)
    requires Inv(c, v, p) && k < |p.server.recv| && p.server.recv[k].verb.NotifyInitialized?
    ensures Agreement(c, v)
  {
    var i := p.origin[k];
    assert Client.SentOk(c, p.client, i);
    assert p.client.sent[i].Ask? ==> Client.CallOk(c, p.client, p.client.sent[i].call);
  }

  lemma InvAtServer(c: ClientConfig, v: ServerConfig, p: State, st: Session.Step)
    requires Inv(c, v, p) && Enabled(c, v, p, AtServer(st))
    ensures Inv(c, v, Next(c, v, p, AtServer(st)))
  {
    Session.InvNext(v, p.server, st);
    Session.NextExtends(v, p.server, st);
    Session.NextMoves(v, p.server, st);
    InvServerMove(c, v, p, st, Session.Next(v, p.server, st));
  }

  lemma GivensMove(c: ClientConfig, v: ServerConfig, p: State, st: Session.Step, s': Session.State)
    requires Inv(c, v, p) && Session.Enabled(v, p.server, st) && Session.Moves(v, p.server, st, s')
    ensures GivensOk(c, p.(server := s'))
  {
    forall call | call in s'.callbacks ensures GivenOk(c, p.(server := s'), call) {
      assert Session.CallbackMoves(p.server, st, s', call);
      GivenNext(c, v, p, st, s', call);
    }
  }

  lemma SeensMove(c: ClientConfig, v: ServerConfig, p: State, st: Session.Step, s': Session.State)
    requires Inv(c, v, p) && Session.Enabled(v, p.server, st) && Session.Moves(v, p.server, st, s')
    ensures SeensOk(c, v, p.(server := s'))
  {
    forall k | k in s'.tasks ensures k < |s'.recv| && SeenOk(c, v, p.(server := s'), k) {
      assert Session.TaskMoves(v, p.server, st, s', k);
      SeenNext(c, v, p, st, s', k);
    }
  }

  lemma LinkMove(v: ServerConfig, p: State, st: Session.Step, s': Session.State)
    requires LinkOk(p) && Session.Moves(v, p.server, st, s') && p.server.sent <= s'.sent
    requires st.Act? || st.PingClient? ==> st.call !in p.client.calls
    ensures LinkOk(p.(server := s'))
  {
    forall id | id in p.client.calls ensures id !in s'.callbacks {
      assert id in s'.callbacks ==> Session.CallbackMoves(p.server, st, s', id);
    }
  }

  lemma InvServerMove(c: ClientConfig, v: ServerConfig, p: State, st: Session.Step, s': Session.State)
    requires Inv(c, v, p) && Session.Enabled(v, p.server, st) && !st.Receive?
    requires st.Act? || st.PingClient? ==> st.call !in p.client.calls
    requires Session.Inv(v, s') && Session.Extends(p.server, s') && Session.Moves(v, p.server, st, s')
    ensures Inv(c, v, p.(server := s'))
  {
    var p' := p.(server := s');
    AnswersKept(c, p, p');
    ReturnsKept(p, p');
    GivensMove(c, v, p, st, s');
    SeensMove(c, v, p, st, s');
    LinkMove(v, p, st, s');
    if s'.initialized && !p.server.initialized { FlagNext(c, v, p, st.task); }
  }

  // ----- steps of the client

  /** What reading one message can do to the client. */
  lemma ReadEffect(c: ClientConfig, s: Client.State, j: nat, msg: Message, d: bool)
    requires Client.Enabled(c, s, Client.Read(j, msg, d))
    ensures var s' := Client.Next(c, s, Client.Read(j, msg, d));
            && s'.calls == s.calls && s'.initialized == s.initialized && s'.concluded == s.concluded
            && (s'.held == s.held || (s'.held == Some(Client.Held(j, msg)) && msg.verb.NoMethod?))
            && (s'.sent == s.sent
                || (d && !msg.verb.NoMethod? && ClientReply(c, msg.verb, msg.params).Some?
                    && (msg.verb.Ping? || msg.verb.RootsList? || msg.verb.SamplingCreateMessage?)
                    && s'.sent
                       == s.sent + [Client.Reply(j, Response(msg.id, ClientReply(c, msg.verb, msg.params).value))]))
            && (msg.jsonrpc == JSONRPC_VERSION && d && !msg.verb.NoMethod?
                && ClientReply(c, msg.verb, msg.params).Some? ==>
                  |s'.sent| == |s.sent| + 1)
            && (msg.jsonrpc == JSONRPC_VERSION && msg.verb.NoMethod? && msg.id in s.calls ==>
                  s'.held == Some(Client.Held(j, msg)))
  {
  }

  lemma InvRead(c: ClientConfig, v: ServerConfig, p: State, j: nat, d: bool)
    requires Inv(c, v, p) && Enabled(c, v, p, Read(j, d))
    ensures Inv(c, v, Next(c, v, p, Read(j, d)))
  {
    var msg := p.server.sent[j].msg;
    var st := Client.Read(j, msg, d);
    Client.InvNext(c, p.client, st);
    assert Session.SentOk(p.server, j);
    ReadEffect(c, p.client, j, msg, d);
    InvReadMove(c, v, p, j, Client.Next(c, p.client, st));
  }

  lemma InvReadMove(c: ClientConfig, v: ServerConfig, p: State, j: nat, client': Client.State)
    requires Inv(c, v, p) && j < |p.server.sent| && j !in p.read && Client.Inv(c, client')
    requires client'.calls == p.client.calls && client'.initialized == p.client.initialized
    requires client'.held == p.client.held || client'.held == Some(Client.Held(j, p.server.sent[j].msg))
    requires var q := p.server.sent[j].msg;
             || client'.sent == p.client.sent
             || (p.server.sent[j].Query? && !q.verb.NoMethod? && ClientReply(c, q.verb, q.params).Some?
                 && client'.sent
                    == p.client.sent + [Client.Reply(j, Response(q.id, ClientReply(c, q.verb, q.params).value))])
    ensures Inv(c, v, p.(client := client', read := p.read + {j},
                         answers := if |client'.sent| > |p.client.sent| then p.answers[j := |p.client.sent|]
                                    else p.answers))
  {
    var p' := p.(client := client', read := p.read + {j},
                 answers := if |client'.sent| > |p.client.sent| then p.answers[j := |p.client.sent|] else p.answers);
    ReadLink(p, j, p');
    AnswersKept(c, p, p');
    ReturnsKept(p, p');
    GivensKept(c, p, p');
    SeensKept(c, v, p, p');
  }

  lemma ReadLink(p: State, j: nat, p': State)
    requires LinkOk(p) && j < |p.server.sent| && j !in p.read
    requires p' == p.(client := p'.client, read := p.read + {j}, answers := p'.answers)
    requires p'.client.calls == p.client.calls && p.client.sent <= p'.client.sent
    requires || p'.answers == p.answers
             || (p'.answers == p.answers[j := |p.client.sent|] && |p'.client.sent| > |p.client.sent|
                 && p'.client.sent[|p.client.sent|].Reply? && p'.client.sent[|p.client.sent|].to == j)
    ensures LinkOk(p')
  {
    forall n | n in p'.answers
      ensures && n in p'.read && p'.answers[n] < |p'.client.sent|
              && p'.client.sent[p'.answers[n]].Reply? && p'.client.sent[p'.answers[n]].to == n
    {
      if n != j { assert n in p.answers; }
    }
  }

  /** A request received by the session under the id of a call is the request of that call. */
  lemma ReceivedIsCall(c: ClientConfig, v: ServerConfig, p: State, k: nat)
    requires Inv(c, v, p) && k < |p.server.recv| && Session.RequestVerb(p.server.recv[k].verb)
    ensures p.server.recv[k].id in p.client.calls
    ensures var call := p.client.calls[p.server.recv[k].id];
            && p.server.recv[k] == Request(p.server.recv[k].id, call.verb, call.params)
            && call.at == Some(p.origin[k])
  {
    assert Client.SentOk(c, p.client, p.origin[k]);
  }

  /** The response the reader holds is the session's reply to the call that will take it. */
  lemma HeldAnswersCall(c: ClientConfig, v: ServerConfig, p: State)
    requires Inv(c, v, p) && p.client.held.Some?
    ensures p.client.held.value.msg.id in p.client.calls
    ensures RepliesTo(p, p.client.held.value.from, p.client.held.value.msg.id)
  {
    var h := p.client.held.value;
    assert Session.SentOk(p.server, h.from);
    var k := p.server.sent[h.from].task;
    assert Session.TaskOk(v, p.server, k);
    ReceivedIsCall(c, v, p, k);
  }

  /** The client concludes `initialize` with success only when both sides agree. */
  lemma AcceptedMeansAgreement(c: ClientConfig, v: ServerConfig, p: State, id: Id)
    requires Inv(c, v, p) && id in p.client.calls
    requires p.client.calls[id].verb.Initialize? && p.client.calls[id].status.Returned?
    requires Client.Judge(c, p.client.calls[id].status.msg).Accepted?
    ensures Agreement(c, v)
  {
    var st := p.client.calls[id].status;
    assert ReturnOk(p, id) && Client.CallOk(c, p.client, id);
    assert Session.SentOk(p.server, st.from);
    assert Session.TaskOk(v, p.server, p.server.sent[st.from].task);
    CheckClientIsOrder(RequiredByServer(v.parts, v.needs), OfferedByClient(c.parts));
    CheckServerIsOrder(RequiredByClient(c.parts, c.needs), OfferedByServer(v.parts));
  }

  /** What a step of the client other than reading can do. */
  lemma ClientEffect(c: ClientConfig, s: Client.State, st: Client.Step)
    requires Client.Enabled(c, s, st) && !st.Read?
    ensures var s' := Client.Next(c, s, st);
            && (s'.sent == s.sent
                || (|s'.sent| == |s.sent| + 1 && s.sent <= s'.sent && !s'.sent[|s.sent|].Reply?))
            && (s'.held == s.held || s'.held.None?)
            && (forall id :: id in s'.calls ==> id in s.calls || (st.StartCall? && st.call == id))
            && (forall id :: id in s'.calls ==>
                  || (id in s.calls && s'.calls[id] == s.calls[id])
                  || !s'.calls[id].status.Returned?
                  || (st.HandBack? && id in s.calls && id == s.held.value.msg.id
                      && s'.calls[id] == s.calls[id].(status := Client.Returned(s.held.value.from, s.held.value.msg))))
            && (s'.initialized ==> s.initialized
                                   || (st.Conclude? && Client.Judge(c, s.calls[st.call].status.msg).Accepted?))
  {
  }

  lemma InvAtClient(c: ClientConfig, v: ServerConfig, p: State, st: Client.Step)
    requires Inv(c, v, p) && Enabled(c, v, p, AtClient(st))
    ensures Inv(c, v, Next(c, v, p, AtClient(st)))
  {
    Client.InvNext(c, p.client, st);
    ClientEffect(c, p.client, st);
    if st.HandBack? { HeldAnswersCall(c, v, p); }
    if st.Conclude? && Client.Judge(c, p.client.calls[st.call].status.msg).Accepted? {
      AcceptedMeansAgreement(c, v, p, st.call);
    }
    InvClientMove(c, v, p, Client.Next(c, p.client, st));
  }

  lemma ClientLink(p: State, p': State)
    requires LinkOk(p) && p' == p.(client := p'.client) && p.client.sent <= p'.client.sent
    requires forall id :: id in p'.client.calls ==> id !in p.server.callbacks
    ensures LinkOk(p')
  {
  }

  lemma ClientParts(c: ClientConfig, v: ServerConfig, p: State, p': State)
    requires AnswersOk(c, p) && GivensOk(c, p) && SeensOk(c, v, p) && HeldOk(p)
    requires p' == p.(client := p'.client) && p.client.sent <= p'.client.sent
    requires |p'.client.sent| > |p.client.sent| ==>
               |p'.client.sent| == |p.client.sent| + 1 && !p'.client.sent[|p.client.sent|].Reply?
    requires p'.client.held == p.client.held || p'.client.held.None?
    ensures AnswersOk(c, p') && GivensOk(c, p') && SeensOk(c, v, p') && HeldOk(p')
  {
    AnswersKept(c, p, p');
    GivensKept(c, p, p');
    SeensKept(c, v, p, p');
  }

  lemma InvClientMove(c: ClientConfig, v: ServerConfig, p: State, client': Client.State)
    requires Inv(c, v, p) && Client.Inv(c, client')
    requires client'.sent == p.client.sent
             || (|client'.sent| == |p.client.sent| + 1 && p.client.sent <= client'.sent
                 && !client'.sent[|p.client.sent|].Reply?)
    requires forall id :: id in client'.calls ==> id !in p.server.callbacks
    requires forall id :: id in client'.calls ==>
                            (id in p.client.calls && client'.calls[id] == p.client.calls[id])
                            || ReturnOk(p.(client := client'), id)
    requires client'.held == p.client.held || client'.held.None?
    requires client'.initialized ==> Agreement(c, v)
    ensures Inv(c, v, p.(client := client'))
  {
    var p' := p.(client := client');
    assert p.client.sent <= client'.sent;
    ClientLink(p, p');
    ClientParts(c, v, p, p');
    ReturnsKept(p, p');
  }

  lemma InvNext(c: ClientConfig, v: ServerConfig, p: State, step: Step)
    requires Inv(c, v, p) && Enabled(c, v, p, step)
    ensures Inv(c, v, Next(c, v, p, step))
  {
    match step
    case Deliver(i) => InvDeliver(c, v, p, i);
    case AtServer(st) => InvAtServer(c, v, p, st);
    case Read(j, d) => InvRead(c, v, p, j, d);
    case AtClient(st) => InvAtClient(c, v, p, st);
  }
}
