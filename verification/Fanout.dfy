/**
 One fan-out loop of the server among everything else that goes on.  The loop pulls an update from
 its source and walks the registry, offering the update to one session after the other; each offer
 waits until the session's listen loop is free.  Between any two of its steps every other goroutine
 may move: other loops, tasks, dispatch, and sessions that come and go.
 */
module Fanout {
  import opened Messages
  import opened Notices
  import Server
  import ServerTheorems
  import Session

  type ServerConfig = Session.ServerConfig

  /**
   `todo` holds the sessions that were in the registry when the walk began, are still in it, and have
   not had their turn; `visited` those that have.  `offered` is the history of the offers to each
   session, and `since` the place in `pulled` where that history begins.
   */
  datatype State = State(
    server: Server.State,
    pulled: seq<Session.Update>,
    todo: set<SessionId>,
    visited: set<SessionId>,
    offered: map<SessionId, seq<Session.Update>>,
    since: map<SessionId, nat>)

  const START := State(Server.START, [], {}, {}, map[], map[])

  datatype Step =
    | Pull(update: Session.Update)
    | Offer(session: SessionId)
    | Rest(step: Server.Step)

  /** The offer of the update in hand, as a step of the server. */
  function OfferStep(f: State, s: SessionId): Server.Step
    requires f.pulled != []
  {
    Server.Local(s, Session.Take(f.pulled[|f.pulled| - 1]))
  }

  /** This loop is the only one that makes offers on its topic. */
  predicate IsOffer(topic: Topic, step: Server.Step) {
    step.Local? && step.step.Take? && IsOn(topic, step.step.update)
  }

  /**
   A walk visits every session that stays in the registry, once; a session that enters the registry
   during the walk may be visited too, or not.
   */
  predicate Enabled(cfg: ServerConfig, topic: Topic, f: State, step: Step) {
    match step
    case Pull(u) => IsOn(topic, u) && !u.Progressed? && f.todo == {}
    case Offer(s) =>
      && f.pulled != [] && s in f.server.live && s !in f.visited && s in f.offered && s in f.since
      && Server.Enabled(cfg, f.server, OfferStep(f, s))
    case Rest(st) => Server.Enabled(cfg, f.server, st) && !IsOffer(topic, st)
  }

  function Next(cfg: ServerConfig, topic: Topic, f: State, step: Step): (f': State)
    requires f.server.live <= f.server.sessions.Keys && Enabled(cfg, topic, f, step)
    ensures f'.server.live <= f'.server.sessions.Keys
  {
    match step
    case Pull(u) => f.(pulled := f.pulled + [u], todo := f.server.live, visited := {})
    case Offer(s) =>
      f.(server := Server.Next(cfg, f.server, OfferStep(f, s)),
         todo := f.todo - {s}, visited := f.visited + {s},
         offered := f.offered[s := f.offered[s] + [f.pulled[|f.pulled| - 1]]],
         since := if s in f.todo then f.since else f.since[s := |f.pulled| - 1])
    case Rest(st) =>
      var f' := f.(server := Server.Next(cfg, f.server, st));
      match st
      case Open(id) => f'.(todo := f.todo - {id}, offered := f.offered[id := []], since := f.since[id := |f.pulled|])
      case Close(id) => f'.(todo := f.todo - {id})
      case _ => f'
  }

  ghost predicate Legal(cfg: ServerConfig, topic: Topic, f: State, steps: seq<Step>)
    requires f.server.live <= f.server.sessions.Keys
    decreases |steps|
  {
    steps == [] || (Enabled(cfg, topic, f, steps[0]) && Legal(cfg, topic, Next(cfg, topic, f, steps[0]), steps[1..]))
  }

  ghost function Exec(cfg: ServerConfig, topic: Topic, f: State, steps: seq<Step>): (r: State)
    requires f.server.live <= f.server.sessions.Keys && Legal(cfg, topic, f, steps)
    ensures r.server.live <= r.server.sessions.Keys
    decreases |steps|
  {
    if steps == [] then f else Exec(cfg, topic, Next(cfg, topic, f, steps[0]), steps[1..])
  }

  // ----- a run of the loop is a run of the server

  /** The steps of a run that the server sees: offers are the listen loops' takes. */
  ghost function Erase(cfg: ServerConfig, topic: Topic, f: State, steps: seq<Step>): seq<Server.Step>
    requires f.server.live <= f.server.sessions.Keys && Legal(cfg, topic, f, steps)
    decreases |steps|
  {
    if steps == [] then []
    else
      (match steps[0]
       case Pull(_) => []
       case Offer(s) => [OfferStep(f, s)]
       case Rest(st) => [st])
      + Erase(cfg, topic, Next(cfg, topic, f, steps[0]), steps[1..])
  }

  lemma ErasedIsServerRun(cfg: ServerConfig, topic: Topic, f: State, steps: seq<Step>)
    requires f.server.live <= f.server.sessions.Keys && Legal(cfg, topic, f, steps)
    ensures ServerTheorems.Legal(cfg, f.server, Erase(cfg, topic, f, steps))
    ensures ServerTheorems.Exec(cfg, f.server, Erase(cfg, topic, f, steps)) == Exec(cfg, topic, f, steps).server
    decreases |steps|
  {
    if steps != [] {
      var f' := Next(cfg, topic, f, steps[0]);
      ErasedIsServerRun(cfg, topic, f', steps[1..]);
      var rest := Erase(cfg, topic, f', steps[1..]);
      match steps[0]
      case Pull(_) => assert [] + rest == rest;
      case Offer(s) => assert ([OfferStep(f, s)] + rest)[1..] == rest;
      case Rest(st) => assert ([st] + rest)[1..] == rest;
    }
  }

  // ----- every update once, in order

  ghost predicate Known(f: State) {
    && f.server.live <= f.server.sessions.Keys
    && f.server.sessions.Keys <= f.offered.Keys && f.offered.Keys == f.since.Keys
    && f.todo <= f.server.live && f.todo * f.visited == {}
  }

  /** What was offered to a session is a stretch of what was pulled, starting where the session came in. */
  ghost predicate StretchOk(f: State, s: SessionId)
    requires s in f.offered && s in f.since
  {
    && f.since[s] + |f.offered[s]| <= |f.pulled|
    && f.offered[s] == f.pulled[f.since[s]..f.since[s] + |f.offered[s]|]
    && (s in f.server.live ==>
          && f.since[s] + |f.offered[s]| == |f.pulled| - (if s in f.todo then 1 else 0)
          && (s !in f.todo && s !in f.visited ==> f.since[s] == |f.pulled|))
  }

  ghost predicate Inv(f: State) {
    && Known(f)
    && (f.todo != {} ==> f.pulled != [])
    && (forall s :: s in f.server.sessions ==> StretchOk(f, s))
  }

  lemma KnownNext(cfg: ServerConfig, topic: Topic, f: State, step: Step)
    requires Known(f) && Enabled(cfg, topic, f, step)
    ensures Known(Next(cfg, topic, f, step))
  {
  }

  /** Which sessions are live after a step of the server. */
  lemma RestLive(cfg: ServerConfig, g: Server.State, st: Server.Step)
    requires g.live <= g.sessions.Keys && Server.Enabled(cfg, g, st)
    ensures var g' := Server.Next(cfg, g, st);
            && g'.live == (match st case Open(id) => g.live + {id} case Close(id) => g.live - {id} case _ => g.live)
            && g'.sessions.Keys == (if st.Open? then g.sessions.Keys + {st.session} else g.sessions.Keys)
  {
  }

  lemma InvNext(cfg: ServerConfig, topic: Topic, f: State, step: Step)
    requires Inv(f) && Enabled(cfg, topic, f, step)
    ensures Inv(Next(cfg, topic, f, step))
  {
    var f' := Next(cfg, topic, f, step);
    KnownNext(cfg, topic, f, step);
    if step.Rest? { RestLive(cfg, f.server, step.step); }
    forall s | s in f'.server.sessions ensures StretchOk(f', s) {
      if s in f.server.sessions { assert StretchOk(f, s); }
      if step.Rest? { RestStretch(cfg, topic, f, step.step, s); } else { WalkStretch(cfg, topic, f, step, s); }
    }
  }

  lemma RestStretch(cfg: ServerConfig, topic: Topic, f: State, st: Server.Step, s: SessionId)
    requires Known(f) && Enabled(cfg, topic, f, Rest(st)) && s in Next(cfg, topic, f, Rest(st)).server.sessions
    requires s in f.server.sessions ==> StretchOk(f, s)
    ensures var f' := Next(cfg, topic, f, Rest(st));
            s in f'.offered && s in f'.since && StretchOk(f', s)
  {
    RestLive(cfg, f.server, st);
    assert f.pulled[|f.pulled|..|f.pulled|] == [];
  }

  lemma WalkStretch(cfg: ServerConfig, topic: Topic, f: State, step: Step, s: SessionId)
    requires Known(f) && Enabled(cfg, topic, f, step) && !step.Rest? && s in f.server.sessions && StretchOk(f, s)
    ensures var f' := Next(cfg, topic, f, step);
            s in f'.offered && s in f'.since && StretchOk(f', s)
  {
  }

  lemma InvExec(cfg: ServerConfig, topic: Topic, f: State, steps: seq<Step>)
    requires Inv(f) && Legal(cfg, topic, f, steps)
    ensures Inv(Exec(cfg, topic, f, steps))
    decreases |steps|
  {
    if steps != [] {
      InvNext(cfg, topic, f, steps[0]);
      InvExec(cfg, topic, Next(cfg, topic, f, steps[0]), steps[1..]);
    }
  }

  /** The updates that the loop pulled in a run, in order. */
  ghost function PulledBy(steps: seq<Step>): seq<Session.Update> {
    if steps == [] then [] else (if steps[0].Pull? then [steps[0].update] else []) + PulledBy(steps[1..])
  }

  lemma PulledIsRun(cfg: ServerConfig, topic: Topic, f: State, steps: seq<Step>)
    requires f.server.live <= f.server.sessions.Keys && Legal(cfg, topic, f, steps)
    ensures Exec(cfg, topic, f, steps).pulled == f.pulled + PulledBy(steps)
    decreases |steps|
  {
    if steps != [] { PulledIsRun(cfg, topic, Next(cfg, topic, f, steps[0]), steps[1..]); }
  }

  /**
   In every run, whatever the other goroutines do between two offers: a live session has been offered
   every update pulled since it came in, each exactly once and in order, less only the one in hand
   if its turn in the walk is still to come.
   */
  lemma EveryUpdateOfferedOnce(cfg: ServerConfig, topic: Topic, steps: seq<Step>, s: SessionId)
    requires Legal(cfg, topic, START, steps) && s in Exec(cfg, topic, START, steps).server.live
    ensures var f := Exec(cfg, topic, START, steps);
            && f.pulled == PulledBy(steps)
            && s in f.offered && s in f.since && f.since[s] <= |f.pulled| - (if s in f.todo then 1 else 0)
            && f.offered[s] == f.pulled[f.since[s]..|f.pulled| - (if s in f.todo then 1 else 0)]
  {
    InvExec(cfg, topic, START, steps);
    PulledIsRun(cfg, topic, START, steps);
    assert [] + PulledBy(steps) == PulledBy(steps);
    assert StretchOk(Exec(cfg, topic, START, steps), s);
  }

  // ----- a session that stays

  /** The session is neither opened again nor closed. */
  ghost predicate Stays(steps: seq<Step>, s: SessionId) {
    forall n :: 0 <= n < |steps| && steps[n].Rest? && (steps[n].step.Open? || steps[n].step.Close?) ==>
                  steps[n].step.session != s
  }

  lemma StayNext(cfg: ServerConfig, topic: Topic, f: State, step: Step, s: SessionId)
    requires Inv(f) && Enabled(cfg, topic, f, step) && Stays([step], s)
    requires s in f.server.live && f.since[s] < |f.pulled|
    ensures var f' := Next(cfg, topic, f, step);
            s in f'.server.live && s in f'.since && f'.since[s] == f.since[s] < |f'.pulled|
  {
    assert StretchOk(f, s);
    if step.Rest? {
      RestLive(cfg, f.server, step.step);
      assert [step][0].step.session != s || !(step.step.Open? || step.step.Close?);
    }
  }

  lemma StayExec(cfg: ServerConfig, topic: Topic, f: State, steps: seq<Step>, s: SessionId)
    requires Inv(f) && Legal(cfg, topic, f, steps) && Stays(steps, s)
    requires s in f.server.live && f.since[s] < |f.pulled|
    ensures var f' := Exec(cfg, topic, f, steps);
            Inv(f') && s in f'.server.live && s in f'.since && f'.since[s] == f.since[s]
    decreases |steps|
  {
    if steps != [] {
      assert [steps[0]][0] == steps[0];
      StayNext(cfg, topic, f, steps[0], s);
      InvNext(cfg, topic, f, steps[0]);
      assert forall n :: 0 <= n < |steps[1..]| ==> steps[1..][n] == steps[n + 1];
      StayExec(cfg, topic, Next(cfg, topic, f, steps[0]), steps[1..], s);
    }
  }

  /**
   While a session stays in the registry, each update pulled after the one it began with is offered to
   it exactly once, and in the order of the updates.
   */
  lemma StandingSessionMissesNothing(
    cfg: ServerConfig, topic: Topic, before: seq<Step>, f: State, after: seq<Step>, s: SessionId)
    requires Legal(cfg, topic, START, before) && f == Exec(cfg, topic, START, before)
    requires Legal(cfg, topic, f, after) && Stays(after, s)
    requires s in f.server.live && s in f.since && f.since[s] < |f.pulled|
    ensures var g := Exec(cfg, topic, f, after);
            && s in g.offered && f.since[s] <= |g.pulled| - (if s in g.todo then 1 else 0)
            && g.offered[s] == g.pulled[f.since[s]..|g.pulled| - (if s in g.todo then 1 else 0)]
  {
    InvExec(cfg, topic, START, before);
    StayExec(cfg, topic, f, after, s);
    assert StretchOk(Exec(cfg, topic, f, after), s);
  }

  // ----- through the listen loop to the transport

  /** `xs` is `ys` with some elements left out. */
  ghost predicate Within<T(!new)>(xs: seq<T>, ys: seq<T>)
    decreases |ys|
  {
    xs == []
    || (ys != []
        && (Within(xs, ys[..|ys| - 1])
            || (xs[|xs| - 1] == ys[|ys| - 1] && Within(xs[..|xs| - 1], ys[..|ys| - 1]))))
  }

  lemma WithinMore<T(!new)>(xs: seq<T>, ys: seq<T>, x: T)
    requires Within(xs, ys)
    ensures Within(xs + [x], ys + [x])
  {
    assert (xs + [x])[..|xs|] == xs && (ys + [x])[..|ys|] == ys;
  }

  lemma {:induction false} WithinDrop<T(!new)>(a: seq<T>, b: seq<T>, c: seq<T>, ys: seq<T>)
    requires Within(a + b + c, ys)
    ensures Within(a + c, ys)
    decreases |ys|
  {
    var xs := a + b + c;
    if xs == [] || a + c == [] {
      assert a + c == [];
    } else if Within(xs, ys[..|ys| - 1]) {
      WithinDrop(a, b, c, ys[..|ys| - 1]);
    } else if c != [] {
      assert xs[..|xs| - 1] == a + b + c[..|c| - 1];
      WithinDrop(a, b, c[..|c| - 1], ys[..|ys| - 1]);
      assert (a + c)[..|a + c| - 1] == a + c[..|c| - 1];
    } else if b != [] {
      assert xs[..|xs| - 1] == a + b[..|b| - 1] + c;
      WithinDrop(a, b[..|b| - 1], c, ys[..|ys| - 1]);
    } else {
      assert a + c == xs;
    }
  }

  function NoticesOf(updates: seq<Session.Update>): seq<Message> {
    seq(|updates|, i requires 0 <= i < |updates| => Session.NoticeOf(updates[i]))
  }

  /** Message by message, what announces the updates. */
  ghost predicate AnnouncesAll(msgs: seq<Message>, updates: seq<Session.Update>) {
    |msgs| == |updates| && forall n :: 0 <= n < |msgs| ==> Session.Announces(msgs[n], updates[n])
  }

  lemma NoticesAnnounceAll(updates: seq<Session.Update>)
    ensures AnnouncesAll(NoticesOf(updates), updates)
  {
    forall n | 0 <= n < |updates| ensures Session.Announces(NoticesOf(updates)[n], updates[n]) {
      Session.NoticeAnnounces(updates[n]);
    }
  }

  /** The session's notices on the topic, sent or in hand. */
  function Through(topic: Topic, s: Session.State): seq<Message> {
    SentNotices(topic, s.sent) + InboxNotices(topic, s.inbox)
  }

  /** Nothing is lost on the topic: no write fails, and the topic is not filtered by subscriptions. */
  ghost predicate Lossless(topic: Topic, steps: seq<Step>) {
    !topic.ResourceUpdates? && forall n :: 0 <= n < |steps| ==> !LosesWrite(steps[n])
  }

  predicate LosesWrite(step: Step) {
    step.Rest? && step.step.Local? && step.step.step.Emit? && !step.step.step.delivered
  }

  ghost predicate CarriedBy(lossless: bool, topic: Topic, through: seq<Message>, offered: seq<Session.Update>) {
    if lossless then through == NoticesOf(offered) else Within(through, NoticesOf(offered))
  }

  ghost predicate Carried(lossless: bool, topic: Topic, f: State) {
    && (forall n :: 0 <= n < |f.pulled| ==> IsOn(topic, f.pulled[n]))
    && (forall s :: s in f.server.sessions ==>
          s in f.offered && CarriedBy(lossless, topic, Through(topic, f.server.sessions[s]), f.offered[s]))
  }

  lemma OfferCarries(lossless: bool, topic: Topic, s: Session.State, offered: seq<Session.Update>, u: Session.Update)
    requires IsOn(topic, u) && CarriedBy(lossless, topic, Through(topic, s), offered)
    ensures CarriedBy(lossless, topic, Through(topic, s.(inbox := s.inbox + [u])), offered + [u])
  {
    InboxNoticesAppend(topic, s.inbox, u);
    var notice := Session.NoticeOf(u);
    assert Through(topic, s.(inbox := s.inbox + [u])) == Through(topic, s) + [notice];
    assert NoticesOf(offered + [u]) == NoticesOf(offered) + [notice];
    WithinMoreUnless(lossless, Through(topic, s), NoticesOf(offered), notice);
  }

  lemma WithinMoreUnless(lossless: bool, xs: seq<Message>, ys: seq<Message>, x: Message)
    requires if lossless then xs == ys else Within(xs, ys)
    ensures if lossless then xs + [x] == ys + [x] else Within(xs + [x], ys + [x])
  {
    if !lossless { WithinMore(xs, ys, x); }
  }

  lemma MoveCarries(
    lossless: bool, topic: Topic, s: Session.State, st: Session.Step, s': Session.State, offered: seq<Session.Update>)
    requires CarriedBy(lossless, topic, Through(topic, s), offered) && StagesMove(topic, s, st, s')
    requires lossless && st.Emit? ==> st.delivered && !topic.ResourceUpdates?
    ensures CarriedBy(lossless, topic, Through(topic, s'), offered)
  {
    if st.Emit? {
      var head, rest := Somes([NoticeFor(topic, s.inbox[0])]), InboxNotices(topic, s'.inbox);
      var sent := SentNotices(topic, s.sent);
      assert sent + (head + rest) == sent + head + rest;
      if st.delivered && Session.PassesOn(s, s.inbox[0]) {
        assert Through(topic, s') == Through(topic, s);
      } else if lossless {
        OffTopicIsSilent(topic, s.inbox[0]);
        assert Through(topic, s') == Through(topic, s);
      } else {
        WithinDrop(sent, head, rest, NoticesOf(offered));
        assert sent + [] == sent;
      }
    }
  }

  lemma RestCarries(
    cfg: ServerConfig, lossless: bool, topic: Topic, f: State, st: Server.Step, s: SessionId)
    requires Known(f) && Enabled(cfg, topic, f, Rest(st)) && !topic.ProgressOn?
    requires lossless ==> !topic.ResourceUpdates? && !LosesWrite(Rest(st))
    requires s in f.server.sessions && CarriedBy(lossless, topic, Through(topic, f.server.sessions[s]), f.offered[s])
    requires !(st.Open? && st.session == s)
    ensures s in Server.Next(cfg, f.server, st).sessions
    ensures CarriedBy(lossless, topic, Through(topic, Server.Next(cfg, f.server, st).sessions[s]), f.offered[s])
  {
    var g := f.server;
    match st
    case Open(_) =>
    case Close(_) =>
    case Incoming(id, msg) =>
      if msg.jsonrpc == JSONRPC_VERSION && id in g.live { Server.DispatchReceives(cfg, g, id, msg); }
    case Local(id, lst) =>
      if id == s {
        LocalStages(cfg, topic, g.sessions[s], lst);
        MoveCarries(lossless, topic, g.sessions[s], lst, Session.Next(cfg, g.sessions[s], lst), f.offered[s]);
      }
    case Forward(_) =>
      var r := g.reports[0];
      InboxNoticesAppend(topic, g.sessions[s].inbox, Session.Progressed(r.token, r.progress, r.total));
      assert Somes([NoticeFor(topic, Session.Progressed(r.token, r.progress, r.total))]) == [];
  }

  lemma OfferCarried(cfg: ServerConfig, lossless: bool, topic: Topic, f: State, s: SessionId)
    requires Known(f) && Carried(lossless, topic, f) && Enabled(cfg, topic, f, Offer(s))
    ensures Carried(lossless, topic, Next(cfg, topic, f, Offer(s)))
  {
    OfferCarries(lossless, topic, f.server.sessions[s], f.offered[s], f.pulled[|f.pulled| - 1]);
  }

  lemma CarriedNext(cfg: ServerConfig, lossless: bool, topic: Topic, f: State, step: Step)
    requires Inv(f) && Carried(lossless, topic, f) && Enabled(cfg, topic, f, step) && !topic.ProgressOn?
    requires lossless ==> !topic.ResourceUpdates? && !LosesWrite(step)
    ensures Carried(lossless, topic, Next(cfg, topic, f, step))
  {
    var f' := Next(cfg, topic, f, step);
    match step
    case Pull(_) =>
    case Offer(s) => OfferCarried(cfg, lossless, topic, f, s);
    case Rest(st) =>
      RestLive(cfg, f.server, st);
      forall s | s in f'.server.sessions
        ensures s in f'.offered && CarriedBy(lossless, topic, Through(topic, f'.server.sessions[s]), f'.offered[s])
      {
        if !(st.Open? && st.session == s) { RestCarries(cfg, lossless, topic, f, st, s); }
      }
  }

  lemma CarriedExec(cfg: ServerConfig, lossless: bool, topic: Topic, f: State, steps: seq<Step>)
    requires Inv(f) && Carried(lossless, topic, f) && Legal(cfg, topic, f, steps) && !topic.ProgressOn?
    requires lossless ==> Lossless(topic, steps)
    ensures Carried(lossless, topic, Exec(cfg, topic, f, steps))
    decreases |steps|
  {
    if steps != [] {
      CarriedNext(cfg, lossless, topic, f, steps[0]);
      InvNext(cfg, topic, f, steps[0]);
      assert forall n :: 0 <= n < |steps[1..]| ==> steps[1..][n] == steps[n + 1];
      CarriedExec(cfg, lossless, topic, Next(cfg, topic, f, steps[0]), steps[1..]);
    }
  }

  /**
   What a live session writes on the topic are the notifications that announce the updates pulled since
   it came in, in their order, none twice; if no write fails and subscriptions do not filter the topic, none is missing
   either, once the session has had its turn and its listen loop is free.
   */
  lemma NoticesFollowUpdates(cfg: ServerConfig, topic: Topic, steps: seq<Step>, s: SessionId)
    requires Legal(cfg, topic, START, steps) && !topic.ProgressOn?
    requires s in Exec(cfg, topic, START, steps).server.live
    ensures var f := Exec(cfg, topic, START, steps);
            && s in f.since && f.since[s] <= |f.pulled|
            && f.pulled == PulledBy(steps)
            && var all := NoticesOf(f.pulled[f.since[s]..]);
            && AnnouncesAll(all, f.pulled[f.since[s]..])
            && Within(SentNotices(topic, f.server.sessions[s].sent), all)
            && (Lossless(topic, steps) && s !in f.todo && f.server.sessions[s].inbox == [] ==>
                  SentNotices(topic, f.server.sessions[s].sent) == all)
  {
    var f := Exec(cfg, topic, START, steps);
    EveryUpdateOfferedOnce(cfg, topic, steps, s);
    NoticesAnnounceAll(f.pulled[f.since[s]..]);
    CarriedExec(cfg, false, topic, START, steps);
    var sent, inbox := SentNotices(topic, f.server.sessions[s].sent), InboxNotices(topic, f.server.sessions[s].inbox);
    assert sent + inbox + [] == sent + inbox && sent + [] == sent;
    WithinDrop(sent, inbox, [], NoticesOf(f.offered[s]));
    WithinPrefix(sent, f.offered[s], f.pulled[f.since[s]..]);
    if Lossless(topic, steps) { CarriedExec(cfg, true, topic, START, steps); }
  }

  lemma WithinPrefix(xs: seq<Message>, offered: seq<Session.Update>, all: seq<Session.Update>)
    requires Within(xs, NoticesOf(offered))
    requires all == offered || (all != [] && offered == all[..|all| - 1])
    ensures Within(xs, NoticesOf(all))
  {
    if all != offered { assert NoticesOf(all)[..|all| - 1] == NoticesOf(offered); }
  }
}
