/**
 Subscriptions on a server with many sessions: which of the resource updates that a fan-out loop
 offers to a session become notices to its client.
 */
module Subscriptions {
  import opened Messages
  import opened Negotiation
  import opened Notices
  import opened Fanout
  import Server
  import ServerTheorems
  import Session

  // ----- every session knows what it is subscribed to

  ghost predicate AllSubscriptionsOk(g: Server.State) {
    forall s :: s in g.sessions ==> Session.SubscriptionsOk(g.sessions[s])
  }

  lemma SubscriptionsNext(cfg: ServerConfig, g: Server.State, step: Server.Step)
    requires g.live <= g.sessions.Keys && AllSubscriptionsOk(g) && Server.Enabled(cfg, g, step)
    ensures AllSubscriptionsOk(Server.Next(cfg, g, step))
  {
    var g' := Server.Next(cfg, g, step);
    if step.Incoming? && step.msg.jsonrpc == JSONRPC_VERSION && step.session in g.live {
      Server.DispatchReceives(cfg, g, step.session, step.msg);
    }
    if step.Local? { Session.SubscriptionsNext(cfg, g.sessions[step.session], step.step); }
    forall s | s in g'.sessions ensures Session.SubscriptionsOk(g'.sessions[s]) {
      assert s in g.sessions ==> Session.SubscriptionsOk(g.sessions[s]);
    }
  }

  lemma SubscriptionsExec(cfg: ServerConfig, g: Server.State, steps: seq<Server.Step>)
    requires g.live <= g.sessions.Keys && AllSubscriptionsOk(g) && ServerTheorems.Legal(cfg, g, steps)
    ensures AllSubscriptionsOk(ServerTheorems.Exec(cfg, g, steps))
    decreases |steps|
  {
    if steps != [] {
      SubscriptionsNext(cfg, g, steps[0]);
      SubscriptionsExec(cfg, Server.Next(cfg, g, steps[0]), steps[1..]);
    }
  }

  /** What is settled on session `a` after a step, from what was settled before. */
  ghost function SettledAfter(
    g: Server.State, step: Server.Step, a: SessionId, so: seq<Setting<Uri>>): seq<Setting<Uri>>
  {
    match step
    case Open(id) => if id == a then [] else so
    case Local(id, st) => if id == a && a in g.sessions then so + Session.SettingOf(g.sessions[a], st) else so
    case _ => so
  }

  /** The subscribes and unsubscribes that a run completes on session `a` since it was opened, in order. */
  ghost function SettledOn(
    cfg: ServerConfig, g: Server.State, steps: seq<Server.Step>, a: SessionId, so: seq<Setting<Uri>>)
    : seq<Setting<Uri>>
    requires g.live <= g.sessions.Keys && ServerTheorems.Legal(cfg, g, steps)
    decreases |steps|
  {
    if steps == [] then so
    else SettledOn(cfg, Server.Next(cfg, g, steps[0]), steps[1..], a, SettledAfter(g, steps[0], a, so))
  }

  ghost predicate SettledOk(g: Server.State, a: SessionId, so: seq<Setting<Uri>>) {
    a in g.sessions ==> g.sessions[a].changes == so
  }

  lemma SettledNext(cfg: ServerConfig, g: Server.State, step: Server.Step, a: SessionId, so: seq<Setting<Uri>>)
    requires g.live <= g.sessions.Keys && Server.Enabled(cfg, g, step) && SettledOk(g, a, so)
    ensures SettledOk(Server.Next(cfg, g, step), a, SettledAfter(g, step, a, so))
  {
    match step
    case Incoming(id, msg) =>
      if msg.jsonrpc == JSONRPC_VERSION && id in g.live { Server.DispatchReceives(cfg, g, id, msg); }
    case Local(id, st) => Session.ChangesNext(cfg, g.sessions[id], st);
    case _ =>
  }

  lemma SettledExec(
    cfg: ServerConfig, g: Server.State, steps: seq<Server.Step>, a: SessionId, so: seq<Setting<Uri>>)
    requires g.live <= g.sessions.Keys && ServerTheorems.Legal(cfg, g, steps) && SettledOk(g, a, so)
    ensures SettledOk(ServerTheorems.Exec(cfg, g, steps), a, SettledOn(cfg, g, steps, a, so))
    decreases |steps|
  {
    if steps != [] {
      SettledNext(cfg, g, steps[0], a, so);
      SettledExec(cfg, Server.Next(cfg, g, steps[0]), steps[1..], a, SettledAfter(g, steps[0], a, so));
    }
  }

  /**
   On every session of a server, whatever the other sessions do: when its listen loop handles an update
   of a resource, it writes the notification that announces it exactly when the last subscribe or
   unsubscribe that the run completed for that resource on that session was a subscribe; and no other
   session changes.
   */
  lemma NoticeIffSubscribedEverywhere(
    cfg: ServerConfig, steps: seq<Server.Step>, g: Server.State, a: SessionId, u: Session.Update)
    requires ServerTheorems.Legal(cfg, Server.START, steps) && g == ServerTheorems.Exec(cfg, Server.START, steps)
    requires a in g.sessions && g.sessions[a].inbox != [] && g.sessions[a].inbox[0] == u && u.ResourceUpdated?
    ensures Server.Enabled(cfg, g, Server.Local(a, Session.Emit(true)))
    ensures var sessions := Server.Next(cfg, g, Server.Local(a, Session.Emit(true))).sessions;
            && sessions.Keys == g.sessions.Keys
            && (forall b :: b in g.sessions && b != a ==> sessions[b] == g.sessions[b])
            && var sent, before := sessions[a].sent, g.sessions[a].sent;
            if FilledBy(SettledOn(cfg, Server.START, steps, a, []), u.uri)
            then |sent| == |before| + 1 && sent[..|before|] == before
                 && sent[|before|].Tell? && Session.Announces(sent[|before|].msg, u)
            else sent == before
  {
    SubscriptionsExec(cfg, Server.START, steps);
    SettledExec(cfg, Server.START, steps, a, []);
    var s := g.sessions[a];
    assert Session.SubscriptionsOk(s);
    if Session.PassesOn(s, u) { Session.EmitAnnounces(cfg, s); }
  }

  // ----- the notices are exactly the updates handled while subscribed

  /** What is known of a session from the steps of a run alone. */
  datatype Seen = Seen(settled: seq<Setting<Uri>>, flags: seq<bool>)

  /**
   After a step: what is settled on session `s`, and for each resource update that its listen loop has
   handled, whether the last subscribe or unsubscribe of the resource until then was a subscribe.
   */
  ghost function SeenAfter(f: State, step: Step, s: SessionId, so: Seen): Seen {
    match step
    case Rest(st) =>
      var settled := SettledAfter(f.server, st, s, so.settled);
      if st == Server.Open(s) then Seen(settled, [])
      else if st.Local? && st.session == s && st.step.Emit? && s in f.server.sessions
              && f.server.sessions[s].inbox != [] && f.server.sessions[s].inbox[0].ResourceUpdated?
      then Seen(settled, so.flags + [FilledBy(so.settled, f.server.sessions[s].inbox[0].uri)])
      else Seen(settled, so.flags)
    case _ => so
  }

  ghost function SeenIn(cfg: ServerConfig, f: State, steps: seq<Step>, s: SessionId, so: Seen): Seen
    requires f.server.live <= f.server.sessions.Keys && Legal(cfg, ResourceUpdates, f, steps)
    decreases |steps|
  {
    if steps == [] then so
    else SeenIn(cfg, Next(cfg, ResourceUpdates, f, steps[0]), steps[1..], s, SeenAfter(f, steps[0], s, so))
  }

  /** The notices of the updates whose flag is set. */
  function Picked(updates: seq<Session.Update>, flags: seq<bool>): seq<Message>
    requires |flags| <= |updates|
  {
    if flags == [] then []
    else
      var n := |flags| - 1;
      Picked(updates, flags[..n]) + (if flags[n] then [Session.NoticeOf(updates[n])] else [])
  }

  lemma {:induction false} PickedMoreOffers(updates: seq<Session.Update>, u: Session.Update, flags: seq<bool>)
    requires |flags| <= |updates|
    ensures Picked(updates + [u], flags) == Picked(updates, flags)
  {
    if flags != [] { PickedMoreOffers(updates, u, flags[..|flags| - 1]); }
  }

  /** Handled and flagged, or in hand: that is all that was offered. */
  ghost predicate Exact(f: State, s: SessionId, flags: seq<bool>)
    requires s in f.server.sessions && s in f.offered
  {
    var it, offered := f.server.sessions[s], f.offered[s];
    && |flags| <= |offered|
    && InboxNotices(ResourceUpdates, it.inbox) == NoticesOf(offered[|flags|..])
    && SentNotices(ResourceUpdates, it.sent) == Picked(offered, flags)
  }

  ghost predicate AllPulledOnTopic(f: State) {
    forall n :: 0 <= n < |f.pulled| ==> IsOn(ResourceUpdates, f.pulled[n])
  }

  lemma ExactOffer(cfg: ServerConfig, f: State, t: SessionId, s: SessionId, flags: seq<bool>)
    requires Known(f) && AllPulledOnTopic(f) && Enabled(cfg, ResourceUpdates, f, Offer(t))
    requires s in f.server.sessions && Exact(f, s, flags)
    ensures var f' := Next(cfg, ResourceUpdates, f, Offer(t));
            s in f'.server.sessions && s in f'.offered && Exact(f', s, flags)
  {
    if t == s {
      var u, offered := f.pulled[|f.pulled| - 1], f.offered[s];
      InboxNoticesAppend(ResourceUpdates, f.server.sessions[s].inbox, u);
      PickedMoreOffers(offered, u, flags);
      assert (offered + [u])[|flags|..] == offered[|flags|..] + [u];
      assert NoticesOf(offered[|flags|..] + [u]) == NoticesOf(offered[|flags|..]) + [Session.NoticeOf(u)];
      assert Somes([NoticeFor(ResourceUpdates, u)]) == [Session.NoticeOf(u)];
    }
  }

  lemma FirstOfNotices(updates: seq<Session.Update>, n: nat)
    requires n < |updates|
    ensures NoticesOf(updates[n..]) == [Session.NoticeOf(updates[n])] + NoticesOf(updates[n + 1..])
  {
  }

  /** The notice at the front of what is in hand is that of the next update offered. */
  lemma NextInHand(head: Message, rest: seq<Message>, offered: seq<Session.Update>, n: nat)
    requires n <= |offered| && [head] + rest == NoticesOf(offered[n..])
    ensures n < |offered| && head == Session.NoticeOf(offered[n]) && rest == NoticesOf(offered[n + 1..])
  {
    assert |NoticesOf(offered[n..])| > 0;
    FirstOfNotices(offered, n);
    assert ([head] + rest)[0] == head && ([head] + rest)[1..] == rest;
  }

  lemma PickedOneMore(updates: seq<Session.Update>, flags: seq<bool>, flag: bool)
    requires |flags| < |updates|
    ensures Picked(updates, flags + [flag])
            == Picked(updates, flags) + (if flag then [Session.NoticeOf(updates[|flags|])] else [])
  {
    assert (flags + [flag])[..|flags|] == flags;
  }

  /** The listen loop handles an update of the topic: it is the next of those offered. */
  lemma ExactEmit(
    s: Session.State, st: Session.Step, s': Session.State, offered: seq<Session.Update>, flags: seq<bool>)
    requires st.Emit? && st.delivered && StagesMove(ResourceUpdates, s, st, s') && Session.SubscriptionsOk(s)
    requires |flags| <= |offered| && InboxNotices(ResourceUpdates, s.inbox) == NoticesOf(offered[|flags|..])
    requires SentNotices(ResourceUpdates, s.sent) == Picked(offered, flags)
    ensures var more := if s.inbox[0].ResourceUpdated? then flags + [FilledBy(s.changes, s.inbox[0].uri)] else flags;
            && |more| <= |offered|
            && InboxNotices(ResourceUpdates, s'.inbox) == NoticesOf(offered[|more|..])
            && SentNotices(ResourceUpdates, s'.sent) == Picked(offered, more)
  {
    if s.inbox[0].ResourceUpdated? {
      var head, rest := Session.NoticeOf(s.inbox[0]), InboxNotices(ResourceUpdates, s'.inbox);
      OnTopicIsHeard(ResourceUpdates, s.inbox[0]);
      NextInHand(head, rest, offered, |flags|);
      PickedOneMore(offered, flags, FilledBy(s.changes, s.inbox[0].uri));
    } else {
      OffTopicIsSilent(ResourceUpdates, s.inbox[0]);
      var sent, inbox := SentNotices(ResourceUpdates, s.sent), InboxNotices(ResourceUpdates, s'.inbox);
      assert sent + [] == sent && [] + inbox == inbox;
    }
  }

  lemma ExactLocal(cfg: ServerConfig, f: State, st: Session.Step, s: SessionId, flags: seq<bool>)
    requires Known(f) && AllSubscriptionsOk(f.server) && s in f.server.sessions && Exact(f, s, flags)
    requires Enabled(cfg, ResourceUpdates, f, Rest(Server.Local(s, st))) && (st.Emit? ==> st.delivered)
    ensures var f' := Next(cfg, ResourceUpdates, f, Rest(Server.Local(s, st)));
            && s in f'.server.sessions && s in f'.offered
            && Exact(f', s, SeenAfter(f, Rest(Server.Local(s, st)), s, Seen(f.server.sessions[s].changes, flags)).flags)
  {
    var it := f.server.sessions[s];
    LocalStages(cfg, ResourceUpdates, it, st);
    assert Session.SubscriptionsOk(it);
    if st.Emit? { ExactEmit(it, st, Session.Next(cfg, it, st), f.offered[s], flags); }
  }

  lemma ExactForward(cfg: ServerConfig, f: State, id: SessionId, s: SessionId, flags: seq<bool>)
    requires Known(f) && s in f.server.sessions && Exact(f, s, flags)
    requires Enabled(cfg, ResourceUpdates, f, Rest(Server.Forward(id)))
    ensures var f' := Next(cfg, ResourceUpdates, f, Rest(Server.Forward(id)));
            s in f'.server.sessions && s in f'.offered && Exact(f', s, flags)
  {
    var it, r := f.server.sessions[s], f.server.reports[0];
    var update := Session.Progressed(r.token, r.progress, r.total);
    InboxNoticesAppend(ResourceUpdates, it.inbox, update);
    OffTopicIsSilent(ResourceUpdates, update);
    var inbox := InboxNotices(ResourceUpdates, it.inbox);
    assert inbox + [] == inbox;
  }

  lemma ExactRest(cfg: ServerConfig, f: State, st: Server.Step, s: SessionId, flags: seq<bool>)
    requires Known(f) && AllSubscriptionsOk(f.server)
    requires Enabled(cfg, ResourceUpdates, f, Rest(st)) && !LosesWrite(Rest(st))
    requires s in f.server.sessions && Exact(f, s, flags) && !(st.Open? && st.session == s)
    ensures var f' := Next(cfg, ResourceUpdates, f, Rest(st));
            && s in f'.server.sessions && s in f'.offered
            && Exact(f', s, SeenAfter(f, Rest(st), s, Seen(f.server.sessions[s].changes, flags)).flags)
  {
    var g := f.server;
    match st
    case Open(_) =>
    case Close(_) =>
    case Incoming(id, msg) =>
      if msg.jsonrpc == JSONRPC_VERSION && id in g.live { Server.DispatchReceives(cfg, g, id, msg); }
    case Local(id, lst) => if id == s { ExactLocal(cfg, f, lst, s, flags); }
    case Forward(id) => ExactForward(cfg, f, id, s, flags);
  }

  /** What is known of session `s`, once it exists. */
  ghost predicate ExactIfOpen(f: State, s: SessionId, so: Seen) {
    && AllPulledOnTopic(f) && AllSubscriptionsOk(f.server) && SettledOk(f.server, s, so.settled)
    && (s in f.server.sessions ==> s in f.offered && Exact(f, s, so.flags))
  }

  lemma ExactNext(cfg: ServerConfig, f: State, step: Step, s: SessionId, so: Seen)
    requires Inv(f) && ExactIfOpen(f, s, so) && Enabled(cfg, ResourceUpdates, f, step) && !LosesWrite(step)
    ensures ExactIfOpen(Next(cfg, ResourceUpdates, f, step), s, SeenAfter(f, step, s, so))
  {
    match step
    case Pull(_) =>
    case Offer(t) =>
      SubscriptionsNext(cfg, f.server, OfferStep(f, t));
      if s in f.server.sessions { ExactOffer(cfg, f, t, s, so.flags); }
    case Rest(st) => ExactNextRest(cfg, f, st, s, so);
  }

  lemma ExactNextRest(cfg: ServerConfig, f: State, st: Server.Step, s: SessionId, so: Seen)
    requires Inv(f) && ExactIfOpen(f, s, so) && Enabled(cfg, ResourceUpdates, f, Rest(st)) && !LosesWrite(Rest(st))
    ensures ExactIfOpen(Next(cfg, ResourceUpdates, f, Rest(st)), s, SeenAfter(f, Rest(st), s, so))
  {
    SubscriptionsNext(cfg, f.server, st);
    SettledNext(cfg, f.server, st, s, so.settled);
    RestLive(cfg, f.server, st);
    if s in f.server.sessions && !(st.Open? && st.session == s) { ExactRest(cfg, f, st, s, so.flags); }
  }

  ghost predicate NoWriteLost(steps: seq<Step>) {
    forall n :: 0 <= n < |steps| ==> !LosesWrite(steps[n])
  }

  lemma ExactExec(cfg: ServerConfig, f: State, steps: seq<Step>, s: SessionId, so: Seen)
    requires Inv(f) && ExactIfOpen(f, s, so) && Legal(cfg, ResourceUpdates, f, steps) && NoWriteLost(steps)
    ensures ExactIfOpen(Exec(cfg, ResourceUpdates, f, steps), s, SeenIn(cfg, f, steps, s, so))
    decreases |steps|
  {
    if steps != [] {
      var f' := Next(cfg, ResourceUpdates, f, steps[0]);
      ExactNext(cfg, f, steps[0], s, so);
      InvNext(cfg, ResourceUpdates, f, steps[0]);
      assert forall n :: 0 <= n < |steps[1..]| ==> steps[1..][n] == steps[n + 1];
      ExactExec(cfg, f', steps[1..], s, SeenAfter(f, steps[0], s, so));
    }
  }

  /**
   In every run in which no write of a notice fails: a live session's resource-updated notices are
   exactly the notices of those updates, of all pulled since it came in and in their order, that its
   listen loop handled when the last subscribe or unsubscribe that the run had completed for the
   resource was a subscribe.
   */
  lemma ResourceNoticesAreExact(cfg: ServerConfig, steps: seq<Step>, s: SessionId)
    requires Legal(cfg, ResourceUpdates, START, steps) && NoWriteLost(steps)
    requires s in Exec(cfg, ResourceUpdates, START, steps).server.live
    ensures var f := Exec(cfg, ResourceUpdates, START, steps);
            var flags := SeenIn(cfg, START, steps, s, Seen([], [])).flags;
            && f.pulled == PulledBy(steps)
            && s in f.since && f.since[s] <= |f.pulled| && |flags| <= |f.pulled[f.since[s]..]|
            && AnnouncesAll(NoticesOf(f.pulled), f.pulled)
            && SentNotices(ResourceUpdates, f.server.sessions[s].sent) == Picked(f.pulled[f.since[s]..], flags)
            && (s !in f.todo && f.server.sessions[s].inbox == [] ==> |flags| == |f.pulled[f.since[s]..]|)
  {
    ExactExec(cfg, START, steps, s, Seen([], []));
    EveryUpdateOfferedOnce(cfg, ResourceUpdates, steps, s);
    var f := Exec(cfg, ResourceUpdates, START, steps);
    NoticesAnnounceAll(f.pulled);
    PickedUpToLast(f.offered[s], f.pulled[f.since[s]..], SeenIn(cfg, START, steps, s, Seen([], [])).flags);
  }

  /** The update in hand of a walk that has not come to the session adds nothing. */
  lemma PickedUpToLast(offered: seq<Session.Update>, all: seq<Session.Update>, flags: seq<bool>)
    requires |flags| <= |offered| && (all == offered || (all != [] && offered == all[..|all| - 1]))
    ensures |flags| <= |all| && Picked(all, flags) == Picked(offered, flags)
  {
    if all != offered {
      assert offered + [all[|all| - 1]] == all;
      PickedMoreOffers(offered, all[|all| - 1], flags);
    }
  }
}
