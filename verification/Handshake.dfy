/** The handshake can complete exactly when the two configurations agree. */
module Handshake {
  import opened Messages
  import opened Negotiation
  import opened Protocol
  import opened ProtocolTheorems
  import opened Liveness
  import Session
  import Client

  /** `parts` is what the option list fills. */
  ghost predicate Fills<Slot(!new)>(options: seq<Setting<Slot>>, parts: set<Slot>) {
    forall slot :: slot in parts <==> FilledBy(options, slot)
  }

  /** Agreement of two peers built from option lists: equal versions and matching interfaces. */
  lemma AgreementIsInterfaces(
    c: ClientConfig, v: ServerConfig, clientOptions: seq<Setting<ClientSlot>>, serverOptions: seq<Setting<ServerSlot>>)
    requires Fills(clientOptions, c.parts) && Fills(serverOptions, v.parts)
    ensures Agreement(c, v) <==>
              c.version == v.version && InterfacesMatch(clientOptions, c.needs, serverOptions, v.needs)
  {
    CheckClientIsOrder(RequiredByServer(v.parts, v.needs), OfferedByClient(c.parts));
    CheckServerIsOrder(RequiredByClient(c.parts, c.needs), OfferedByServer(v.parts));
  }

  /** The client after it has sent `initialize` and while it waits for the response. */
  function Asked(c: ClientConfig, id: Id): State {
    FRESH.(client := Client.FRESH.(
             calls := map[id := Client.Call(Initialize, Client.InitializeParams(c), Some(0), true, Client.Waiting)],
             sent := [Client.Ask(id, Request(id, Initialize, Client.InitializeParams(c)))]))
  }

  lemma Asking(c: ClientConfig, v: ServerConfig, id: Id, rest: seq<Step>) returns (steps: seq<Step>)
    requires id != "" && Legal(c, v, Asked(c, id), rest)
    ensures Legal(c, v, FRESH, steps) && Exec(c, v, FRESH, steps) == Exec(c, v, Asked(c, id), rest)
  {
    var s0 := AtClient(Client.StartCall(id, Initialize, Client.InitializeParams(c), true));
    var s1 := AtClient(Client.SendReturn(id, true));
    var p1 := Next(c, v, FRESH, s0);
    assert p1.client.calls
        == map[id := Client.Call(Initialize, Client.InitializeParams(c), Some(0), false, Client.Sending)];
    var p2 := Next(c, v, p1, s1);
    assert p2.client.calls == Asked(c, id).client.calls;
    RunFirst(c, v, p1, s1, rest);
    RunFirst(c, v, FRESH, s0, [s1] + rest);
    steps := [s0] + ([s1] + rest);
  }

  /** The same client after it has read the server's agreement and told the server so. */
  function Answered(c: ClientConfig, v: ServerConfig, id: Id): State {
    var request := Request(id, Initialize, Client.InitializeParams(c));
    var reply := Success(InitializeResult(v.version, OfferedByServer(v.parts)));
    State(
      Client.State(
        true,
        map[id := Client.Call(Initialize, Client.InitializeParams(c), Some(0), true,
                              Client.Returned(0, Response(id, reply)))],
        None, {id},
        [Client.Ask(id, request), Client.Note(Notice(NotifyInitialized, NO_PARAMS))], []),
      Session.FRESH.(
        recv := [request], tasks := map[0 := Session.Replied([], reply, Some(0))],
        sent := [Session.Answer(0, Response(id, reply))]),
      [0], map[0 := 0], {0}, map[])
  }

  lemma Answering(c: ClientConfig, v: ServerConfig, id: Id, rest: seq<Step>) returns (steps: seq<Step>)
    requires id != "" && Agreement(c, v) && Legal(c, v, Answered(c, v, id), rest)
    ensures Legal(c, v, Asked(c, id), steps)
    ensures Exec(c, v, Asked(c, id), steps) == Exec(c, v, Answered(c, v, id), rest)
  {
    CheckClientIsOrder(RequiredByServer(v.parts, v.needs), OfferedByClient(c.parts));
    CheckServerIsOrder(RequiredByClient(c.parts, c.needs), OfferedByServer(v.parts));
    var p2 := Asked(c, id);
    var reply := Success(InitializeResult(v.version, OfferedByServer(v.parts)));
    var s2, s3, s4 := Deliver(0), AtServer(Session.Begin(0, true)), Read(0, true);
    var s5, s6 := AtClient(Client.HandBack), AtClient(Client.Conclude(id, true));
    var p3 := Next(c, v, p2, s2);
    assert p3.server.tasks == map[0 := Session.Spawned];
    var p4 := Next(c, v, p3, s3);
    assert p4.server.tasks == map[0 := Session.Replied([], reply, Some(0))];
    assert p4.server.sent == [Session.Answer(0, Response(id, reply))];
    var p5 := Next(c, v, p4, s4);
    assert p5.client.held == Some(Client.Held(0, Response(id, reply)));
    var p6 := Next(c, v, p5, s5);
    assert p6.client.calls == Answered(c, v, id).client.calls;
    var p7 := Next(c, v, p6, s6);
    assert p7 == Answered(c, v, id);
    RunFirst(c, v, p6, s6, rest);
    RunFirst(c, v, p5, s5, [s6] + rest);
    RunFirst(c, v, p4, s4, [s5] + ([s6] + rest));
    RunFirst(c, v, p3, s3, [s4] + ([s5] + ([s6] + rest)));
    RunFirst(c, v, p2, s2, [s3] + ([s4] + ([s5] + ([s6] + rest))));
    steps := [s2] + ([s3] + ([s4] + ([s5] + ([s6] + rest))));
  }

  /** The server has taken note. */
  function Ready(c: ClientConfig, v: ServerConfig, id: Id): State {
    var p := Answered(c, v, id);
    p.(server := p.server.(
         initialized := true,
         recv := p.server.recv + [Notice(NotifyInitialized, NO_PARAMS)],
         tasks := p.server.tasks[1 := Session.Done]),
       origin := [0, 1], delivered := map[0 := 0, 1 := 1])
  }

  lemma Completing(c: ClientConfig, v: ServerConfig, id: Id) returns (steps: seq<Step>)
    ensures Legal(c, v, Answered(c, v, id), steps) && Exec(c, v, Answered(c, v, id), steps) == Ready(c, v, id)
  {
    var p7 := Answered(c, v, id);
    var s7, s8 := Deliver(1), AtServer(Session.Begin(1, true));
    var p8 := Next(c, v, p7, s7);
    assert p8.server.recv[1] == Notice(NotifyInitialized, NO_PARAMS);
    assert p8.server.tasks == p7.server.tasks[1 := Session.Spawned];
    var p9 := Next(c, v, p8, s8);
    assert p9.server.tasks == Ready(c, v, id).server.tasks;
    assert p9 == Ready(c, v, id);
    RunFirst(c, v, p8, s8, []);
    RunFirst(c, v, p7, s7, [s8] + []);
    steps := [s7] + ([s8] + []);
  }

  lemma ReadyIsQuiet(c: ClientConfig, v: ServerConfig, id: Id)
    ensures Quiet(Ready(c, v, id))
  {
    assert Ready(c, v, id).client.calls[id].status.Returned?;
  }

  ghost predicate ReachesQuiet(c: ClientConfig, v: ServerConfig, steps: seq<Step>) {
    Legal(c, v, FRESH, steps) && Quiet(Exec(c, v, FRESH, steps))
  }

  /**
   Some run of the client against the server ends with an initialized session and nothing going on,
   if and only if versions are equal and each side offers what the other requires.
   */
  lemma InitializesIffAgreement(c: ClientConfig, v: ServerConfig)
    ensures (exists steps :: ReachesQuiet(c, v, steps)) <==> Agreement(c, v)
  {
    if steps :| ReachesQuiet(c, v, steps) {
      HandshakeIsSafe(c, v, steps);
    }
    if Agreement(c, v) {
      var completing := Completing(c, v, "1");
      var answering := Answering(c, v, "1", completing);
      var steps := Asking(c, v, "1", answering);
      ReadyIsQuiet(c, v, "1");
      assert ReachesQuiet(c, v, steps);
    }
  }
}
