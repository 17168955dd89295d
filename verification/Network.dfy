/**
 One server with any number of sessions, and a client of this library at the other end of each.  Seen
 from one session, every run of this network is a run of one client against one session, so all that
 was proved of those holds of every session of a server.
 */
module Network {
  import opened Messages
  import opened Protocol
  import opened ProtocolTheorems
  import Server
  import ServerTheorems
  import Session
  import Client

  /** The configuration of the client at the other end of each session. */
  type Clients = SessionId -> Client.ClientConfig

  /** `pairs` holds, for each session, the session together with its client and all between them. */
  datatype Net = Net(server: Server.State, pairs: map<SessionId, Protocol.State>)

  const START := Net(Server.START, map[])

  datatype Move =
    | Open(session: SessionId)
    | Close(session: SessionId)
    | Between(session: SessionId, step: Protocol.Step)
    | Forward(session: SessionId)

  /** Session ids are fresh.  A message that the server would not let in is a message that is lost. */
  predicate CanMove(cs: Clients, v: Session.ServerConfig, n: Net, move: Move) {
    match move
    case Open(a) => a !in n.server.sessions
    case Close(_) => true
    case Between(a, st) =>
      && a in n.pairs && Protocol.Enabled(cs(a), v, n.pairs[a], st)
      && (match st
          case Deliver(i) => a in n.server.live && n.pairs[a].client.sent[i].msg.jsonrpc == JSONRPC_VERSION
          case AtServer(sst) => Server.Enabled(v, n.server, Server.Local(a, sst))
          case _ => true)
    case Forward(a) => Server.Enabled(v, n.server, Server.Forward(a))
  }

  /** What a progress report is to the session that takes it. */
  function TakeReport(r: Server.Report): Protocol.Step {
    AtServer(Session.Take(Session.Progressed(r.token, r.progress, r.total)))
  }

  /** The part of a move that one session and its client see. */
  function SeenBy(n: Net, move: Move, a: SessionId): seq<Protocol.Step> {
    match move
    case Between(b, st) => if a == b then [st] else []
    case Forward(_) =>
      if n.server.reports != [] && Server.Destination(n.server, n.server.reports[0].token) == Some(a)
      then [TakeReport(n.server.reports[0])] else []
    case _ => []
  }

  /** The move as a step of the server; reading and other steps of a client are none. */
  function ServerStep(n: Net, move: Move): seq<Server.Step>
    requires move.Between? && move.step.Deliver? ==>
               move.session in n.pairs && move.step.i < |n.pairs[move.session].client.sent|
  {
    match move
    case Open(a) => [Server.Open(a)]
    case Close(a) => [Server.Close(a)]
    case Forward(a) => [Server.Forward(a)]
    case Between(a, Deliver(i)) => [Server.Incoming(a, n.pairs[a].client.sent[i].msg)]
    case Between(a, AtServer(st)) => [Server.Local(a, st)]
    case Between(_, _) => []
  }

  function NextServer(cs: Clients, v: Session.ServerConfig, n: Net, move: Move): Server.State
    requires n.server.live <= n.server.sessions.Keys && CanMove(cs, v, n, move)
  {
    var steps := ServerStep(n, move);
    if steps == [] then n.server else Server.Next(v, n.server, steps[0])
  }

  ghost predicate Matches(n: Net) {
    && n.server.live <= n.server.sessions.Keys && n.pairs.Keys == n.server.sessions.Keys
    && (forall a :: a in n.pairs ==> n.pairs[a].server == n.server.sessions[a])
  }

  function NextNet(cs: Clients, v: Session.ServerConfig, n: Net, move: Move): Net
    requires Matches(n) && CanMove(cs, v, n, move)
  {
    var server := NextServer(cs, v, n, move);
    match move
    case Open(a) => Net(server, n.pairs[a := Protocol.FRESH])
    case Close(_) => Net(server, n.pairs)
    case Between(a, st) => Net(server, n.pairs[a := Protocol.Next(cs(a), v, n.pairs[a], st)])
    case Forward(_) =>
      (match Server.Destination(n.server, n.server.reports[0].token)
       case None => Net(server, n.pairs)
       case Some(to) =>
         Net(server, n.pairs[to := Protocol.Next(cs(to), v, n.pairs[to], TakeReport(n.server.reports[0]))]))
  }

  lemma MatchesNext(cs: Clients, v: Session.ServerConfig, n: Net, move: Move)
    requires Matches(n) && CanMove(cs, v, n, move)
    ensures Matches(NextNet(cs, v, n, move))
  {
    match move
    case Between(a, Deliver(i)) => MatchesDeliver(cs, v, n, a, i);
    case _ =>
  }

  lemma MatchesDeliver(cs: Clients, v: Session.ServerConfig, n: Net, a: SessionId, i: nat)
    requires Matches(n) && CanMove(cs, v, n, Between(a, Deliver(i)))
    ensures Matches(NextNet(cs, v, n, Between(a, Deliver(i))))
  {
    Server.DispatchReceives(v, n.server, a, n.pairs[a].client.sent[i].msg);
  }

  ghost predicate LegalNet(cs: Clients, v: Session.ServerConfig, n: Net, moves: seq<Move>)
    requires Matches(n)
    decreases |moves|
  {
    moves == []
    || (CanMove(cs, v, n, moves[0])
        && (MatchesNext(cs, v, n, moves[0]); LegalNet(cs, v, NextNet(cs, v, n, moves[0]), moves[1..])))
  }

  ghost function ExecNet(cs: Clients, v: Session.ServerConfig, n: Net, moves: seq<Move>): (r: Net)
    requires Matches(n) && LegalNet(cs, v, n, moves)
    ensures Matches(r)
    decreases |moves|
  {
    if moves == [] then n
    else
      MatchesNext(cs, v, n, moves[0]);
      ExecNet(cs, v, NextNet(cs, v, n, moves[0]), moves[1..])
  }

  // ----- one session of the network

  /** The pair of a session, or the pair it will begin as. */
  function PairOf(n: Net, a: SessionId): Protocol.State {
    if a in n.pairs then n.pairs[a] else Protocol.FRESH
  }

  ghost function StepsSeenBy(
    cs: Clients, v: Session.ServerConfig, n: Net, moves: seq<Move>, a: SessionId): seq<Protocol.Step>
    requires Matches(n) && LegalNet(cs, v, n, moves)
    decreases |moves|
  {
    if moves == [] then []
    else
      MatchesNext(cs, v, n, moves[0]);
      SeenBy(n, moves[0], a) + StepsSeenBy(cs, v, NextNet(cs, v, n, moves[0]), moves[1..], a)
  }

  lemma OneMoveSeen(cs: Clients, v: Session.ServerConfig, n: Net, move: Move, a: SessionId)
    requires Matches(n) && CanMove(cs, v, n, move)
    ensures var n', seen := NextNet(cs, v, n, move), SeenBy(n, move, a);
            if seen == [] then PairOf(n', a) == PairOf(n, a)
            else |seen| == 1 && Protocol.Enabled(cs(a), v, PairOf(n, a), seen[0])
                 && PairOf(n', a) == Protocol.Next(cs(a), v, PairOf(n, a), seen[0])
  {
  }

  /** What one session and its client see of a run is a run of the two, and ends where they are. */
  lemma SeenIsRun(cs: Clients, v: Session.ServerConfig, n: Net, moves: seq<Move>, a: SessionId)
    requires Matches(n) && LegalNet(cs, v, n, moves)
    ensures Legal(cs(a), v, PairOf(n, a), StepsSeenBy(cs, v, n, moves, a))
    ensures Exec(cs(a), v, PairOf(n, a), StepsSeenBy(cs, v, n, moves, a)) == PairOf(ExecNet(cs, v, n, moves), a)
    decreases |moves|
  {
    if moves != [] {
      var n' := NextNet(cs, v, n, moves[0]);
      MatchesNext(cs, v, n, moves[0]);
      SeenIsRun(cs, v, n', moves[1..], a);
      OneMoveSeen(cs, v, n, moves[0], a);
      var seen, rest := SeenBy(n, moves[0], a), StepsSeenBy(cs, v, n', moves[1..], a);
      if seen == [] {
        assert seen + rest == rest;
      } else {
        assert seen == [seen[0]];
        RunFirst(cs(a), v, PairOf(n, a), seen[0], rest);
      }
    }
  }

  // ----- what every session of the server therefore keeps

  /** On every session: initialized only in agreement, and no guarded handler past its check without. */
  lemma EveryHandshakeIsSafe(cs: Clients, v: Session.ServerConfig, moves: seq<Move>, a: SessionId)
    requires LegalNet(cs, v, START, moves) && a in ExecNet(cs, v, START, moves).server.sessions
    ensures var s := ExecNet(cs, v, START, moves).server.sessions[a];
            && (s.initialized ==> Agreement(cs(a), v))
            && (forall k :: Session.PastFirstCheck(s, k) ==> Agreement(cs(a), v))
  {
    SeenIsRun(cs, v, START, moves, a);
    HandshakeIsSafe(cs(a), v, StepsSeenBy(cs, v, START, moves, a));
  }

  /** On every session: what a call of its client returns was made by its session, for that very call. */
  lemma EveryResponseBelongsToItsCall(
    cs: Clients, v: Session.ServerConfig, moves: seq<Move>, n: Net, a: SessionId, p: Protocol.State, id: Id)
    requires LegalNet(cs, v, START, moves) && n == ExecNet(cs, v, START, moves)
    requires a in n.pairs && p == n.pairs[a] && id in p.client.calls && p.client.calls[id].status.Returned?
    ensures a in n.server.sessions && p.server == n.server.sessions[a]
    ensures var st := p.client.calls[id].status;
            && st.from < |p.server.sent| && p.server.sent[st.from].Answer?
            && MadeFor(cs(a), v, p, p.server.sent[st.from].task, id, st.msg)
  {
    SeenIsRun(cs, v, START, moves, a);
    ResponsesBelongToCalls(cs(a), v, StepsSeenBy(cs, v, START, moves, a), id);
  }

  /** On every session: what a callback takes is its own client's one answer to that very callback. */
  lemma EveryAnswerBelongsToItsCallback(
    cs: Clients, v: Session.ServerConfig, moves: seq<Move>, n: Net, a: SessionId, p: Protocol.State, call: Id)
    requires LegalNet(cs, v, START, moves) && n == ExecNet(cs, v, START, moves)
    requires a in n.pairs && p == n.pairs[a] && call in p.server.callbacks && p.server.callbacks[call].status.Given?
    ensures a in n.server.sessions && p.server == n.server.sessions[a]
    ensures var st := p.server.callbacks[call].status;
            && AnsweredBy(cs(a), p, call, st.from, st.reply)
            && AnswersAs(cs(a), p.server.callbacks[call].verb, p.server.callbacks[call].params, st.reply)
  {
    SeenIsRun(cs, v, START, moves, a);
    AnswersBelongToCallbacks(cs(a), v, StepsSeenBy(cs, v, START, moves, a), call);
  }

  // ----- the network adds nothing to the server

  ghost function ServerSteps(cs: Clients, v: Session.ServerConfig, n: Net, moves: seq<Move>): seq<Server.Step>
    requires Matches(n) && LegalNet(cs, v, n, moves)
    decreases |moves|
  {
    if moves == [] then []
    else
      MatchesNext(cs, v, n, moves[0]);
      ServerStep(n, moves[0]) + ServerSteps(cs, v, NextNet(cs, v, n, moves[0]), moves[1..])
  }

  /** A run of the network, as the server sees it, is a run of the server. */
  lemma NetIsServerRun(cs: Clients, v: Session.ServerConfig, n: Net, moves: seq<Move>)
    requires Matches(n) && LegalNet(cs, v, n, moves)
    ensures ServerTheorems.Legal(v, n.server, ServerSteps(cs, v, n, moves))
    ensures ServerTheorems.Exec(v, n.server, ServerSteps(cs, v, n, moves)) == ExecNet(cs, v, n, moves).server
    decreases |moves|
  {
    if moves != [] {
      var n' := NextNet(cs, v, n, moves[0]);
      MatchesNext(cs, v, n, moves[0]);
      NetIsServerRun(cs, v, n', moves[1..]);
      var first, rest := ServerStep(n, moves[0]), ServerSteps(cs, v, n', moves[1..]);
      if first == [] {
        assert first + rest == rest;
      } else {
        assert (first + rest)[0] == first[0] && (first + rest)[1..] == rest;
      }
    }
  }
}
