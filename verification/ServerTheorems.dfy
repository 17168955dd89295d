/** What holds of every run of a server with any number of sessions and any clients. */
module ServerTheorems {
  import opened Messages
  import opened Negotiation
  import opened Server
  import Session

  ghost predicate Legal(cfg: ServerConfig, g: State, steps: seq<Step>)
    requires g.live <= g.sessions.Keys
    decreases |steps|
  {
    steps == [] || (Enabled(cfg, g, steps[0]) && Legal(cfg, Next(cfg, g, steps[0]), steps[1..]))
  }

  ghost function Exec(cfg: ServerConfig, g: State, steps: seq<Step>): (r: State)
    requires g.live <= g.sessions.Keys && Legal(cfg, g, steps)
    ensures r.live <= r.sessions.Keys
    decreases |steps|
  {
    if steps == [] then g else Exec(cfg, Next(cfg, g, steps[0]), steps[1..])
  }

  // ----- every session keeps its own invariant

  ghost predicate Inv(cfg: ServerConfig, g: State) {
    && g.live <= g.sessions.Keys
    && (forall id :: id in g.sessions ==> Session.Inv(cfg, g.sessions[id]))
  }

  lemma InvNext(cfg: ServerConfig, g: State, step: Step)
    requires Inv(cfg, g) && Enabled(cfg, g, step)
    ensures Inv(cfg, Next(cfg, g, step))
  {
    match step
    case Open(_) =>
    case Close(_) =>
    case Incoming(id, msg) =>
      if msg.jsonrpc == JSONRPC_VERSION && id in g.live {
        DispatchReceives(cfg, g, id, msg);
        Session.InvReceive(cfg, g.sessions[id], msg);
      }
    case Local(id, st) => Session.InvNext(cfg, g.sessions[id], st);
    case Forward(_) =>
      var r := g.reports[0];
      if Destination(g, r.token).Some? {
        Session.InvNext(cfg, g.sessions[g.progresses[r.token]],
                        Session.Take(Session.Progressed(r.token, r.progress, r.total)));
      }
  }

  lemma InvExec(cfg: ServerConfig, g: State, steps: seq<Step>)
    requires Inv(cfg, g) && Legal(cfg, g, steps)
    ensures Inv(cfg, Exec(cfg, g, steps))
    decreases |steps|
  {
    if steps != [] {
      InvNext(cfg, g, steps[0]);
      InvExec(cfg, Next(cfg, g, steps[0]), steps[1..]);
    }
  }

  /** Replies are conserved on every session of a server, whatever all its clients do. */
  lemma RepliesConservedEverywhere(cfg: ServerConfig, steps: seq<Step>, session: SessionId, id: Id)
    requires Legal(cfg, START, steps) && session in Exec(cfg, START, steps).sessions
    ensures Session.Conserved(Exec(cfg, START, steps).sessions[session], id)
  {
    InvExec(cfg, START, steps);
    Session.InvConserves(cfg, Exec(cfg, START, steps).sessions[session], id);
  }

  /** What dispatch did to the session that a message was let in to. */
  ghost predicate StartsAtMostOne(cfg: ServerConfig, s: Session.State, s': Session.State, msg: Message) {
    && s' == s.(recv := s.recv + [msg], tasks := s'.tasks)
    && |s.recv| !in s.tasks
    && s'.tasks == if Session.Route(cfg, msg).Launch? then s.tasks[|s.recv| := Session.Spawned] else s.tasks
  }

  /**
   A message starts at most one task, and only on its own session; with the wrong version or an
   unknown session it is refused and changes nothing; and a refused message starts no task.
   */
  lemma DispatchIsLocal(cfg: ServerConfig, g: State, id: SessionId, msg: Message)
    requires Inv(cfg, g)
    ensures var g' := Dispatch(cfg, g, id, msg);
            && g'.live == g.live && g'.reports == g.reports && g'.sessions.Keys == g.sessions.Keys
            && (forall other :: other in g.sessions && other != id ==> g'.sessions[other] == g.sessions[other])
            && (msg.jsonrpc != JSONRPC_VERSION || id !in g.live ==> g' == g && Verdict(cfg, g, id, msg).Some?)
            && (msg.jsonrpc == JSONRPC_VERSION && id in g.live ==>
                  && StartsAtMostOne(cfg, g.sessions[id], g'.sessions[id], msg)
                  && (Verdict(cfg, g, id, msg).Some? <==> Session.Route(cfg, msg).Reject?))
            && (Verdict(cfg, g, id, msg) == Some(SessionNotFound) <==> msg.jsonrpc == "2.0" && id !in g.live)
  {
    if msg.jsonrpc == JSONRPC_VERSION && id in g.live {
      DispatchReceives(cfg, g, id, msg);
      TaskNumbersAreUsed(cfg, g.sessions[id]);
    }
  }

  lemma TaskNumbersAreUsed(cfg: ServerConfig, s: Session.State)
    requires Session.Inv(cfg, s)
    ensures |s.recv| !in s.tasks
  {
    assert |s.recv| in s.tasks ==> Session.TaskOk(cfg, s, |s.recv|);
  }

  // ----- where progress reports go

  /** Handlers report under the progress token of their own request, and only if it has one. */
  ghost predicate ReportsOwnToken(cfg: ServerConfig) {
    forall verb, params, seen ::
      cfg.handler(verb, params, seen).Report? ==>
        cfg.handler(verb, params, seen).token == params.token && params.token != "" && TakesToken(verb)
  }

  /** Requests whose progress token is stored on dispatch. */
  predicate TakesToken(verb: Method) {
    verb.PromptsList? || verb.PromptsGet? || verb.ResourcesList? || verb.ResourcesRead?
    || verb.ResourcesTemplatesList? || verb.ToolsList? || verb.ToolsCall?
  }

  /** The session that stored a token last. */
  ghost function LastStored(stored: seq<Stored>, token: Token): Option<SessionId> {
    if stored == [] then None
    else
      var last := stored[|stored| - 1];
      if last.token == token then Some(last.session) else LastStored(stored[..|stored| - 1], token)
  }

  ghost predicate TokensStored(g: State, s: Session.State) {
    forall k :: k in s.tasks ==>
                  k < |s.recv| && (TakesToken(s.recv[k].verb) && s.recv[k].params.token != "" ==>
                                     s.recv[k].params.token in g.progresses)
  }

  ghost predicate RoutingInv(cfg: ServerConfig, g: State) {
    && (forall id :: id in g.sessions ==> TokensStored(g, g.sessions[id]))
    && (forall n :: 0 <= n < |g.reports| ==> g.reports[n].token in g.progresses)
    && (forall t :: (if t in g.progresses then Some(g.progresses[t]) else None) == LastStored(g.stored, t))
  }

  lemma LocalKeepsTokens(cfg: ServerConfig, g: State, s: Session.State, st: Session.Step)
    requires Session.Inv(cfg, s) && TokensStored(g, s) && Session.Enabled(cfg, s, st) && !st.Receive?
    ensures TokensStored(g, Session.Next(cfg, s, st))
  {
    Session.NextMoves(cfg, s, st);
  }

  lemma LaunchStoresToken(cfg: ServerConfig, msg: Message)
    requires Session.Route(cfg, msg).Launch? && TakesToken(msg.verb) && msg.params.token != ""
    ensures Session.Route(cfg, msg).storesToken
  {
  }

  lemma RoutingDispatch(cfg: ServerConfig, g: State, id: SessionId, msg: Message)
    requires Inv(cfg, g) && RoutingInv(cfg, g)
    ensures RoutingInv(cfg, Dispatch(cfg, g, id, msg))
  {
    if msg.jsonrpc == JSONRPC_VERSION && id in g.live {
      var g' := Dispatch(cfg, g, id, msg);
      DispatchIsLocal(cfg, g, id, msg);
      var routed := Session.Route(cfg, msg);
      forall other | other in g'.sessions ensures TokensStored(g', g'.sessions[other]) {
        assert TokensStored(g, g.sessions[other]);
        if other == id && routed.Launch? && TakesToken(msg.verb) && msg.params.token != "" {
          LaunchStoresToken(cfg, msg);
        }
      }
      if routed.Launch? && routed.storesToken {
        assert g'.stored[..|g'.stored| - 1] == g.stored;
      }
    }
  }

  lemma RoutingNext(cfg: ServerConfig, g: State, step: Step)
    requires ReportsOwnToken(cfg) && Inv(cfg, g) && RoutingInv(cfg, g) && Enabled(cfg, g, step)
    ensures RoutingInv(cfg, Next(cfg, g, step))
  {
    var g' := Next(cfg, g, step);
    match step
    case Open(_) =>
    case Close(_) =>
    case Incoming(id, msg) => RoutingDispatch(cfg, g, id, msg);
    case Local(id, st) =>
      LocalKeepsTokens(cfg, g, g.sessions[id], st);
      if st.Act? { assert TokensStored(g, g.sessions[id]); }
      forall other | other in g'.sessions ensures TokensStored(g', g'.sessions[other]) {
        assert other != id ==> TokensStored(g, g.sessions[other]);
      }
    case Forward(_) =>
      forall other | other in g'.sessions ensures TokensStored(g', g'.sessions[other]) {
        assert TokensStored(g, g.sessions[other]);
      }
  }

  lemma RoutingExec(cfg: ServerConfig, g: State, steps: seq<Step>)
    requires ReportsOwnToken(cfg) && Inv(cfg, g) && RoutingInv(cfg, g) && Legal(cfg, g, steps)
    ensures RoutingInv(cfg, Exec(cfg, g, steps))
    decreases |steps|
  {
    if steps != [] {
      InvNext(cfg, g, steps[0]);
      RoutingNext(cfg, g, steps[0]);
      RoutingExec(cfg, Next(cfg, g, steps[0]), steps[1..]);
    }
  }

  /** The step lets in a request that starts a handler and carries the token. */
  predicate Dispatches(cfg: ServerConfig, g: State, step: Step, token: Token) {
    && step.Incoming? && Verdict(cfg, g, step.session, step.msg).None?
    && Session.Route(cfg, step.msg).Launch? && TakesToken(step.msg.verb)
    && step.msg.params.token == token && token != ""
  }

  /** The session of the last step of a run that dispatched a request with the token. */
  ghost function LastDispatched(cfg: ServerConfig, g: State, steps: seq<Step>, token: Token): Option<SessionId>
    requires g.live <= g.sessions.Keys && Legal(cfg, g, steps)
    decreases |steps|
  {
    if steps == [] then None
    else
      match LastDispatched(cfg, Next(cfg, g, steps[0]), steps[1..], token)
      case Some(id) => Some(id)
      case None => if Dispatches(cfg, g, steps[0], token) then Some(steps[0].session) else None
  }

  lemma StoredNext(cfg: ServerConfig, g: State, step: Step, token: Token)
    requires g.live <= g.sessions.Keys && Enabled(cfg, g, step)
    ensures LastStored(Next(cfg, g, step).stored, token)
            == if Dispatches(cfg, g, step, token) then Some(step.session) else LastStored(g.stored, token)
  {
    var g' := Next(cfg, g, step);
    if g'.stored != g.stored {
      assert g'.stored == g.stored + [Stored(step.msg.params.token, step.session)];
      assert g'.stored[..|g'.stored| - 1] == g.stored;
    }
  }

  /** What the server has stored under a token is the session that dispatched a request with it last. */
  lemma StoredIsLastDispatched(cfg: ServerConfig, g: State, steps: seq<Step>, token: Token)
    requires g.live <= g.sessions.Keys && Legal(cfg, g, steps)
    ensures LastStored(Exec(cfg, g, steps).stored, token)
            == match LastDispatched(cfg, g, steps, token)
               case Some(id) => Some(id)
               case None => LastStored(g.stored, token)
    decreases |steps|
  {
    if steps != [] {
      StoredNext(cfg, g, steps[0], token);
      StoredIsLastDispatched(cfg, Next(cfg, g, steps[0]), steps[1..], token);
    }
  }

  /**
   In every run, the next report to be routed has a token that leads to a session: the one that
   dispatched a request with that token last.  If that session is live the report waits until its
   listen loop is free and is then taken by it, and nothing else changes on any session; otherwise
   the report goes nowhere and no session changes.
   */
  lemma ReportsAreRouted(cfg: ServerConfig, steps: seq<Step>)
    requires ReportsOwnToken(cfg) && Legal(cfg, START, steps) && Exec(cfg, START, steps).reports != []
    ensures var g := Exec(cfg, START, steps);
            var r := g.reports[0];
            var to := LastDispatched(cfg, START, steps, r.token);
            && to.Some?
            && (Enabled(cfg, g, Forward(r.from)) <==>
                  (to.value in g.live ==> to.value in g.sessions && g.sessions[to.value].inbox == []))
            && (Enabled(cfg, g, Forward(r.from)) ==>
                  var g' := Next(cfg, g, Forward(r.from));
                  && g'.reports == g.reports[1..]
                  && g'.sessions
                     == (if to.value !in g.live then g.sessions
                         else g.sessions[to.value := g.sessions[to.value].(
                                inbox := [Session.Progressed(r.token, r.progress, r.total)])]))
  {
    InvExec(cfg, START, steps);
    RoutingExec(cfg, START, steps);
    var r := Exec(cfg, START, steps).reports[0];
    StoredIsLastDispatched(cfg, START, steps, r.token);
    var update := Session.Progressed(r.token, r.progress, r.total);
    assert [] + [update] == [update];
  }
  // ----- which sessions are live

  /** What the steps of a run do to the registry, in order. */
  ghost function RegistryOf(steps: seq<Step>): seq<Setting<SessionId>> {
    if steps == [] then []
    else
      (match steps[0]
       case Open(id) => [Setting(id, true)]
       case Close(id) => [Setting(id, false)]
       case _ => [])
      + RegistryOf(steps[1..])
  }

  ghost predicate LiveOk(g: State, so: seq<Setting<SessionId>>) {
    forall id :: id in g.live <==> FilledBy(so, id)
  }

  lemma LiveNext(cfg: ServerConfig, g: State, step: Step, so: seq<Setting<SessionId>>)
    requires g.live <= g.sessions.Keys && Enabled(cfg, g, step) && LiveOk(g, so)
    ensures LiveOk(Next(cfg, g, step), so + RegistryOf([step]))
  {
    assert [step][1..] == [];
    var g' := Next(cfg, g, step);
    match step
    case Open(a) =>
      assert RegistryOf([step]) == [Setting(a, true)];
      forall id ensures id in g'.live <==> FilledBy(so + [Setting(a, true)], id) {
        FilledByOneMore(so, Setting(a, true), id);
      }
    case Close(a) =>
      assert RegistryOf([step]) == [Setting(a, false)];
      forall id ensures id in g'.live <==> FilledBy(so + [Setting(a, false)], id) {
        FilledByOneMore(so, Setting(a, false), id);
      }
    case _ => assert so + RegistryOf([step]) == so;
  }

  lemma LiveExec(cfg: ServerConfig, g: State, steps: seq<Step>, so: seq<Setting<SessionId>>)
    requires g.live <= g.sessions.Keys && Legal(cfg, g, steps) && LiveOk(g, so)
    ensures LiveOk(Exec(cfg, g, steps), so + RegistryOf(steps))
    decreases |steps|
  {
    if steps == [] {
      assert so + [] == so;
    } else {
      LiveNext(cfg, g, steps[0], so);
      LiveExec(cfg, Next(cfg, g, steps[0]), steps[1..], so + RegistryOf([steps[0]]));
      assert [steps[0]][1..] == [];
      assert so + RegistryOf([steps[0]]) + RegistryOf(steps[1..]) == so + RegistryOf(steps);
    }
  }

  /** A session is live exactly when the last thing a run did to its place in the registry was to open it. */
  lemma LiveFollowsRun(cfg: ServerConfig, steps: seq<Step>, id: SessionId)
    requires Legal(cfg, START, steps)
    ensures id in Exec(cfg, START, steps).live <==> FilledBy(RegistryOf(steps), id)
  {
    LiveExec(cfg, START, steps, []);
    assert [] + RegistryOf(steps) == RegistryOf(steps);
  }
}
