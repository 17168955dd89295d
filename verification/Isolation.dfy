/**
 Sessions do not interfere.  When sessions use different progress tokens and handlers are functions
 of their parameters, removing every step of the other sessions from a run leaves a run, and leaves
 one session's state and everything sent to it as it was.
 */
module Isolation {
  import opened Messages
  import opened Server
  import opened ServerTheorems
  import Session

  /** Each progress token belongs to one session. */
  type Ownership = Token -> SessionId

  ghost predicate UsesOwnToken(cfg: ServerConfig, own: Ownership, step: Step) {
    step.Incoming? && Session.Route(cfg, step.msg).Launch? && Session.Route(cfg, step.msg).storesToken ==>
      own(step.msg.params.token) == step.session
  }

  /** The steps of one session, in order. */
  ghost function StepsOf(steps: seq<Step>, a: SessionId): seq<Step> {
    if steps == [] then []
    else (if steps[0].session == a then [steps[0]] else []) + StepsOf(steps[1..], a)
  }

  ghost function ReportsOf(reports: seq<Report>, a: SessionId): seq<Report> {
    if reports == [] then []
    else (if reports[0].from == a then [reports[0]] else []) + ReportsOf(reports[1..], a)
  }

  lemma {:induction false} ReportsOfAppend(reports: seq<Report>, more: seq<Report>, a: SessionId)
    ensures ReportsOf(reports + more, a) == ReportsOf(reports, a) + ReportsOf(more, a)
  {
    if reports == [] {
      assert reports + more == more;
    } else {
      var all := reports + more;
      var head := if reports[0].from == a then [reports[0]] else [];
      assert all[0] == reports[0] && all[1..] == reports[1..] + more;
      ReportsOfAppend(reports[1..], more, a);
      assert ReportsOf(all, a) == head + (ReportsOf(reports[1..], a) + ReportsOf(more, a));
    }
  }

  // ----- tokens lead to their owners

  ghost predicate TokensOwnedBy(own: Ownership, id: SessionId, s: Session.State) {
    forall k :: k in s.tasks ==>
                  k < |s.recv| && (TakesToken(s.recv[k].verb) && s.recv[k].params.token != "" ==>
                                     own(s.recv[k].params.token) == id)
  }

  ghost predicate OwnInv(own: Ownership, g: State) {
    && (forall t :: t in g.progresses ==> g.progresses[t] == own(t))
    && (forall n :: 0 <= n < |g.reports| ==> own(g.reports[n].token) == g.reports[n].from)
    && (forall id :: id in g.sessions ==> TokensOwnedBy(own, id, g.sessions[id]))
  }

  lemma OwnLocal(cfg: ServerConfig, own: Ownership, id: SessionId, s: Session.State, st: Session.Step)
    requires Session.Inv(cfg, s) && TokensOwnedBy(own, id, s) && Session.Enabled(cfg, s, st) && !st.Receive?
    ensures TokensOwnedBy(own, id, Session.Next(cfg, s, st))
  {
    Session.NextMoves(cfg, s, st);
  }

  lemma OwnDispatch(cfg: ServerConfig, own: Ownership, g: State, id: SessionId, msg: Message)
    requires UsesOwnToken(cfg, own, Incoming(id, msg))
    requires Inv(cfg, g) && OwnInv(own, g) && Enabled(cfg, g, Incoming(id, msg))
    ensures OwnInv(own, Next(cfg, g, Incoming(id, msg)))
  {
    var g' := Next(cfg, g, Incoming(id, msg));
    DispatchIsLocal(cfg, g, id, msg);
    forall other | other in g'.sessions ensures TokensOwnedBy(own, other, g'.sessions[other]) {
      assert TokensOwnedBy(own, other, g.sessions[other]);
      if other == id && Session.Route(cfg, msg).Launch? && TakesToken(msg.verb) && msg.params.token != "" {
        LaunchStoresToken(cfg, msg);
      }
    }
  }

  lemma OwnNext(cfg: ServerConfig, own: Ownership, g: State, step: Step)
    requires ReportsOwnToken(cfg) && UsesOwnToken(cfg, own, step)
    requires Inv(cfg, g) && OwnInv(own, g) && Enabled(cfg, g, step)
    ensures OwnInv(own, Next(cfg, g, step))
  {
    var g' := Next(cfg, g, step);
    match step
    case Open(_) =>
    case Close(_) =>
    case Incoming(id, msg) => OwnDispatch(cfg, own, g, id, msg);
    case Local(id, st) =>
      OwnLocal(cfg, own, id, g.sessions[id], st);
      assert TokensOwnedBy(own, id, g.sessions[id]);
      forall other | other in g'.sessions ensures TokensOwnedBy(own, other, g'.sessions[other]) {
        assert other != id ==> TokensOwnedBy(own, other, g.sessions[other]);
      }
    case Forward(_) =>
      forall other | other in g'.sessions ensures TokensOwnedBy(own, other, g'.sessions[other]) {
        assert TokensOwnedBy(own, other, g.sessions[other]);
      }
  }

  // ----- the two runs side by side

  /** Two servers look the same from session `a`. */
  ghost predicate SameFor(own: Ownership, a: SessionId, g: State, h: State) {
    && (a in g.live <==> a in h.live)
    && (a in g.sessions <==> a in h.sessions)
    && (a in g.sessions ==> g.sessions[a] == h.sessions[a])
    && (forall t :: own(t) == a ==> (t in g.progresses <==> t in h.progresses)
                                    && (t in g.progresses ==> g.progresses[t] == h.progresses[t]))
    && h.reports == ReportsOf(g.reports, a)
  }

  lemma OtherIncoming(
    cfg: ServerConfig, own: Ownership, a: SessionId, g: State, h: State, id: SessionId, msg: Message)
    requires Inv(cfg, g) && OwnInv(own, g) && UsesOwnToken(cfg, own, Incoming(id, msg))
    requires id != a && SameFor(own, a, g, h)
    ensures SameFor(own, a, Dispatch(cfg, g, id, msg), h)
  {
    DispatchIsLocal(cfg, g, id, msg);
  }

  lemma OtherLocal(
    cfg: ServerConfig, own: Ownership, a: SessionId, g: State, h: State, id: SessionId, st: Session.Step)
    requires g.live <= g.sessions.Keys && Enabled(cfg, g, Local(id, st)) && id != a && SameFor(own, a, g, h)
    ensures SameFor(own, a, Next(cfg, g, Local(id, st)), h)
  {
    ReportsOfAppend(g.reports, ReportOf(cfg, g.sessions[id], id, st), a);
  }

  lemma OtherForward(cfg: ServerConfig, own: Ownership, a: SessionId, g: State, h: State, id: SessionId)
    requires g.live <= g.sessions.Keys && OwnInv(own, g) && Enabled(cfg, g, Forward(id))
    requires id != a && SameFor(own, a, g, h)
    ensures SameFor(own, a, Next(cfg, g, Forward(id)), h)
  {
  }

  lemma OtherStep(cfg: ServerConfig, own: Ownership, a: SessionId, g: State, h: State, step: Step)
    requires Inv(cfg, g) && OwnInv(own, g) && UsesOwnToken(cfg, own, step)
    requires Enabled(cfg, g, step) && step.session != a && SameFor(own, a, g, h)
    ensures SameFor(own, a, Next(cfg, g, step), h)
  {
    match step
    case Open(_) =>
    case Close(_) =>
    case Incoming(id, msg) => OtherIncoming(cfg, own, a, g, h, id, msg);
    case Local(id, st) => OtherLocal(cfg, own, a, g, h, id, st);
    case Forward(id) => OtherForward(cfg, own, a, g, h, id);
  }

  lemma OwnStep(cfg: ServerConfig, own: Ownership, a: SessionId, g: State, h: State, step: Step)
    requires Inv(cfg, g) && OwnInv(own, g) && UsesOwnToken(cfg, own, step) && h.live <= h.sessions.Keys
    requires Enabled(cfg, g, step) && step.session == a && SameFor(own, a, g, h)
    ensures Enabled(cfg, h, step) && SameFor(own, a, Next(cfg, g, step), Next(cfg, h, step))
  {
    match step
    case Incoming(id, msg) => OwnIncoming(cfg, own, g, h, id, msg);
    case Local(id, st) => ReportsOfAppend(g.reports, ReportOf(cfg, g.sessions[id], id, st), a);
    case Forward(_) => assert h.reports[1..] == ReportsOf(g.reports[1..], a);
    case _ =>
  }

  lemma OwnIncoming(cfg: ServerConfig, own: Ownership, g: State, h: State, id: SessionId, msg: Message)
    requires g.live <= g.sessions.Keys && h.live <= h.sessions.Keys
    requires Enabled(cfg, g, Incoming(id, msg)) && SameFor(own, id, g, h)
    ensures Enabled(cfg, h, Incoming(id, msg))
    ensures SameFor(own, id, Next(cfg, g, Incoming(id, msg)), Next(cfg, h, Incoming(id, msg)))
  {
    if msg.jsonrpc == JSONRPC_VERSION && id in g.live {
      DispatchReceives(cfg, g, id, msg);
      DispatchReceives(cfg, h, id, msg);
    }
  }

  lemma SideBySide(cfg: ServerConfig, own: Ownership, a: SessionId, g: State, h: State, steps: seq<Step>)
    requires ReportsOwnToken(cfg) && Inv(cfg, g) && OwnInv(own, g) && h.live <= h.sessions.Keys
    requires SameFor(own, a, g, h) && Legal(cfg, g, steps)
    requires forall n :: 0 <= n < |steps| ==> UsesOwnToken(cfg, own, steps[n])
    ensures Legal(cfg, h, StepsOf(steps, a))
    ensures SameFor(own, a, Exec(cfg, g, steps), Exec(cfg, h, StepsOf(steps, a)))
    decreases |steps|
  {
    if steps != [] {
      var step, rest := steps[0], steps[1..];
      InvNext(cfg, g, step);
      OwnNext(cfg, own, g, step);
      if step.session == a {
        OwnStep(cfg, own, a, g, h, step);
        SideBySide(cfg, own, a, Next(cfg, g, step), Next(cfg, h, step), rest);
        assert StepsOf(steps, a)[1..] == StepsOf(rest, a);
      } else {
        OtherStep(cfg, own, a, g, h, step);
        SideBySide(cfg, own, a, Next(cfg, g, step), h, rest);
        assert StepsOf(steps, a) == StepsOf(rest, a);
      }
    }
  }

  /**
   Deleting all steps of the other sessions from any run leaves a run, in which session `a` has the
   same state: the same flag, subscriptions, pending callbacks and tasks, and the same messages
   received and sent, in the same order.
   */
  lemma SessionsDoNotInterfere(cfg: ServerConfig, own: Ownership, a: SessionId, steps: seq<Step>)
    requires ReportsOwnToken(cfg) && Legal(cfg, START, steps)
    requires forall n :: 0 <= n < |steps| ==> UsesOwnToken(cfg, own, steps[n])
    ensures Legal(cfg, START, StepsOf(steps, a))
    ensures var g, h := Exec(cfg, START, steps), Exec(cfg, START, StepsOf(steps, a));
            && (a in g.live <==> a in h.live)
            && (a in g.sessions <==> a in h.sessions)
            && (a in g.sessions ==> g.sessions[a] == h.sessions[a])
  {
    SideBySide(cfg, own, a, START, START, steps);
  }
}
