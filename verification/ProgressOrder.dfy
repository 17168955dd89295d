/** The order of progress values holds in every run of the server. */
module ProgressOrder {
  import opened Messages
  import opened Server
  import opened ServerTheorems
  import opened Progress
  import opened Notices
  import Session
  import Client

  /** The call that uses a progress token: its method and its parameters. */
  datatype Use = Use(verb: Method, params: Params)

  predicate IsUse(msg: Message, t: Token) {
    TakesToken(msg.verb) && msg.params.token == t
  }

  /** The handler of the call is the long-running tool. */
  ghost predicate RunsLong(cfg: ServerConfig, use: Use) {
    forall seen: seq<Session.Event> ::
      cfg.handler(use.verb, use.params, seen) == LongRunning(use.params, seen)
  }

  // ----- the task that uses the token

  /** The one task for the token: where it stands, after `made` reports. */
  ghost predicate UserOk(s: Session.State, k: nat, use: Use, made: nat)
    requires k in s.tasks && k < |s.recv|
  {
    && s.recv[k].verb == use.verb && s.recv[k].params == use.params
    && (s.tasks[k].Spawned? ==> made == 0)
    && (s.tasks[k].Running? ==> |s.tasks[k].seen| == made)
    && (s.tasks[k].Replied? ==> Truncate(use.params.total) <= made)
    && !s.tasks[k].Awaiting?
  }

  ghost predicate IsUser(t: Token, g: State, id: SessionId, k: nat) {
    id in g.sessions && k in g.sessions[id].tasks && k < |g.sessions[id].recv| && IsUse(g.sessions[id].recv[k], t)
  }

  ghost predicate UsersOk(t: Token, use: Use, g: State, used: bool, made: nat) {
    && (forall id, k :: IsUser(t, g, id, k) ==> used && UserOk(g.sessions[id], k, use, made))
    && (forall id, k, id', k' :: IsUser(t, g, id, k) && IsUser(t, g, id', k') ==> id == id' && k == k')
    && (!used ==> made == 0 && t !in g.progresses)
  }

  ghost predicate StagesOk(t: Token, use: Use, g: State, made: nat) {
    && made <= Count(use.params.total)
    && (t !in g.progresses ==> ReportNotices(t, g.reports) == [])
    && (t in g.progresses ==> g.progresses[t] in g.sessions)
    && (forall id :: id in g.sessions ==> StageOk(t, use, g, made, id))
  }

  ghost predicate StageOk(t: Token, use: Use, g: State, made: nat, id: SessionId)
    requires id in g.sessions
  {
    if t in g.progresses && g.progresses[t] == id
    then Rising(Pipeline(t, g.sessions[id], g.reports), made, use.params.total)
    else && SentNotices(ProgressOn(t), g.sessions[id].sent) == []
         && InboxNotices(ProgressOn(t), g.sessions[id].inbox) == []
  }

  // ----- each kind of step

  lemma OpenUsers(cfg: ServerConfig, t: Token, use: Use, g: State, id: SessionId, used: bool, made: nat)
    requires Inv(cfg, g) && UsersOk(t, use, g, used, made)
    ensures UsersOk(t, use, Next(cfg, g, Open(id)), used, made)
  {
    var g' := Next(cfg, g, Open(id));
    forall o, k: nat | IsUser(t, g', o, k) ensures used && UserOk(g'.sessions[o], k, use, made) && IsUser(t, g, o, k) {
      assert o != id;
      assert IsUser(t, g, o, k);
    }
  }

  lemma FreshPipeline(t: Token, reports: seq<Report>)
    ensures SentNotices(ProgressOn(t), Session.FRESH.sent) == []
    ensures InboxNotices(ProgressOn(t), Session.FRESH.inbox) == []
    ensures Pipeline(t, Session.FRESH, reports) == ReportNotices(t, reports)
  {
  }

  lemma OpenStage(t: Token, use: Use, g: State, g': State, made: nat, o: SessionId)
    requires o in g.sessions && StageOk(t, use, g, made, o)
    requires o in g'.sessions && (g'.sessions[o] == g.sessions[o] || g'.sessions[o] == Session.FRESH)
    requires g'.progresses == g.progresses && g'.reports == g.reports
    ensures StageOk(t, use, g', made, o)
  {
    FreshPipeline(t, g.reports);
    if t in g.progresses && g.progresses[t] == o {
      RisingEnd(SentNotices(ProgressOn(t), g.sessions[o].sent), InboxNotices(ProgressOn(t), g.sessions[o].inbox),
                ReportNotices(t, g.reports), made, use.params.total);
    }
  }

  lemma OpenOrder(cfg: ServerConfig, t: Token, use: Use, g: State, id: SessionId, used: bool, made: nat)
    requires Inv(cfg, g) && UsersOk(t, use, g, used, made) && StagesOk(t, use, g, made)
    ensures UsersOk(t, use, Next(cfg, g, Open(id)), used, made) && StagesOk(t, use, Next(cfg, g, Open(id)), made)
  {
    var g' := Next(cfg, g, Open(id));
    OpenUsers(cfg, t, use, g, id, used, made);
    forall o | o in g'.sessions ensures StageOk(t, use, g', made, o) {
      if o in g.sessions {
        assert StageOk(t, use, g, made, o);
        OpenStage(t, use, g, g', made, o);
      }
    }
  }

  lemma RisingEnd(a: seq<Message>, b: seq<Message>, c: seq<Message>, made: nat, total: real)
    ensures Rising(a + b + c, made, total) ==> Rising(c, made, total)
  {
    var all := a + b + c;
    assert forall n :: 0 <= n < |c| ==> c[n] == all[|a| + |b| + n];
  }

  lemma StoredTokenIsUse(cfg: ServerConfig, msg: Message)
    requires Session.Route(cfg, msg).Launch? && Session.Route(cfg, msg).storesToken
    ensures IsUse(msg, msg.params.token)
  {
  }

  lemma IncomingUsers(
    cfg: ServerConfig, t: Token, use: Use, g: State, id: SessionId, msg: Message, used: bool, made: nat)
    requires Inv(cfg, g) && UsersOk(t, use, g, used, made)
    requires IsUse(msg, t) ==> !used && use == Use(msg.verb, msg.params)
    ensures UsersOk(t, use, Dispatch(cfg, g, id, msg), used || IsUse(msg, t), made)
  {
    var g' := Dispatch(cfg, g, id, msg);
    DispatchIsLocal(cfg, g, id, msg);
    if msg.jsonrpc == JSONRPC_VERSION && id in g.live {
      forall o, k: nat | IsUser(t, g', o, k)
        ensures (used || IsUse(msg, t)) && UserOk(g'.sessions[o], k, use, made)
        ensures IsUser(t, g, o, k) || (IsUse(msg, t) && o == id && k == |g.sessions[id].recv|)
      {
        assert o != id || k < |g.sessions[id].recv| ==> IsUser(t, g, o, k);
      }
      if Session.Route(cfg, msg).Launch? && Session.Route(cfg, msg).storesToken { StoredTokenIsUse(cfg, msg); }
    } else {
      forall o, k: nat | IsUser(t, g', o, k) ensures used && UserOk(g'.sessions[o], k, use, made) {
        assert IsUser(t, g, o, k);
      }
    }
  }

  /** Dispatch touches only the token it stores, and nothing that is on its way. */
  lemma DispatchStages(cfg: ServerConfig, t: Token, g: State, id: SessionId, msg: Message, o: SessionId)
    requires Inv(cfg, g) && o in g.sessions
    ensures var g' := Dispatch(cfg, g, id, msg);
            && g'.reports == g.reports && g'.sessions.Keys == g.sessions.Keys
            && g'.sessions[o].sent == g.sessions[o].sent && g'.sessions[o].inbox == g.sessions[o].inbox
            && (g'.progresses == g.progresses
                || (g'.progresses == g.progresses[msg.params.token := id] && id in g.sessions
                    && IsUse(msg, msg.params.token)))
  {
    DispatchIsLocal(cfg, g, id, msg);
    if Session.Route(cfg, msg).Launch? && Session.Route(cfg, msg).storesToken { StoredTokenIsUse(cfg, msg); }
  }

  lemma IncomingStages(
    cfg: ServerConfig, t: Token, use: Use, g: State, id: SessionId, msg: Message, used: bool, made: nat)
    requires Inv(cfg, g) && UsersOk(t, use, g, used, made) && StagesOk(t, use, g, made)
    requires IsUse(msg, t) ==> !used && use == Use(msg.verb, msg.params)
    ensures StagesOk(t, use, Dispatch(cfg, g, id, msg), made)
  {
    var g' := Dispatch(cfg, g, id, msg);
    if g.sessions.Keys != {} {
      var any :| any in g.sessions.Keys;
      DispatchStages(cfg, t, g, id, msg, any);
    }
    forall o | o in g'.sessions ensures StageOk(t, use, g', made, o) {
      DispatchStages(cfg, t, g, id, msg, o);
      StageFrame(t, use, g, g', made, o);
    }
  }

  lemma StageFrame(t: Token, use: Use, g: State, g': State, made: nat, o: SessionId)
    requires StagesOk(t, use, g, made) && o in g.sessions && o in g'.sessions && g'.reports == g.reports
    requires g'.sessions[o].sent == g.sessions[o].sent && g'.sessions[o].inbox == g.sessions[o].inbox
    requires t in g.progresses ==> t in g'.progresses && g'.progresses[t] == g.progresses[t]
    ensures StageOk(t, use, g', made, o)
  {
    assert StageOk(t, use, g, made, o);
  }

  /** How many reports the token has seen after a step. */
  ghost function MadeAfter(cfg: ServerConfig, t: Token, g: State, step: Step, made: nat): nat
    requires Enabled(cfg, g, step)
  {
    if step.Local? && ReportNotices(t, ReportOf(cfg, g.sessions[step.session], step.session, step.step)) != []
    then made + 1 else made
  }

  /** A report under the token comes from its one task, and carries the next number. */
  lemma NextReport(
    cfg: ServerConfig, t: Token, use: Use, g: State, id: SessionId, st: Session.Step, used: bool, made: nat)
    requires ReportsOwnToken(cfg) && RunsLong(cfg, use) && Inv(cfg, g) && UsersOk(t, use, g, used, made)
    requires Enabled(cfg, g, Local(id, st))
    ensures var rs := ReportOf(cfg, g.sessions[id], id, st);
            && ReportNotices(t, rs) == (if MadeAfter(cfg, t, g, Local(id, st), made) == made + 1
                                       then [Mark(t, made + 1, use.params.total)] else [])
            && (MadeAfter(cfg, t, g, Local(id, st), made) == made + 1 ==>
                  st.Act? && IsUser(t, g, id, st.task) && made < Truncate(use.params.total))
  {
    var s := g.sessions[id];
    var rs := ReportOf(cfg, s, id, st);
    if rs != [] && rs[0].token == t {
      var k := st.task;
      assert IsUser(t, g, id, k);
      assert cfg.handler(use.verb, use.params, s.tasks[k].seen) == LongRunning(use.params, s.tasks[k].seen);
      assert rs == [Report(t, made + 1, use.params.total, id)];
      SingleReport(t, rs[0]);
    } else if rs != [] {
      SingleReport(t, rs[0]);
    } else {
      assert ReportNotices(t, rs) == [];
    }
  }

  lemma SingleReport(t: Token, r: Report)
    ensures ReportNotices(t, [r]) == if r.token == t then [Mark(t, r.progress, r.total)] else []
  {
    ReportNoticesAppend(t, [], r);
    assert [] + [r] == [r];
  }

  lemma LocalUsers(
    cfg: ServerConfig, t: Token, use: Use, g: State, id: SessionId, st: Session.Step, used: bool, made: nat)
    requires ReportsOwnToken(cfg) && RunsLong(cfg, use) && t != ""
    requires Inv(cfg, g) && UsersOk(t, use, g, used, made) && Enabled(cfg, g, Local(id, st))
    ensures UsersOk(t, use, Next(cfg, g, Local(id, st)), used, MadeAfter(cfg, t, g, Local(id, st), made))
  {
    var g' := Next(cfg, g, Local(id, st));
    var s, s' := g.sessions[id], g'.sessions[id];
    var made' := MadeAfter(cfg, t, g, Local(id, st), made);
    NextReport(cfg, t, use, g, id, st, used, made);
    Session.NextMoves(cfg, s, st);
    forall o, k: nat | IsUser(t, g', o, k) ensures used && UserOk(g'.sessions[o], k, use, made') && IsUser(t, g, o, k) {
      assert IsUser(t, g, o, k);
      if o == id {
        assert Session.TaskMoves(cfg, s, st, s', k);
        UserMoves(cfg, t, use, g, id, st, s', k, made);
      }
    }
  }

  lemma UserMoves(
    cfg: ServerConfig, t: Token, use: Use, g: State, id: SessionId, st: Session.Step, s': Session.State,
    k: nat, made: nat)
    requires RunsLong(cfg, use) && t != "" && Enabled(cfg, g, Local(id, st)) && IsUser(t, g, id, k)
    requires UserOk(g.sessions[id], k, use, made) && s'.recv == g.sessions[id].recv && k in s'.tasks
    requires Session.TaskMoves(cfg, g.sessions[id], st, s', k)
    ensures UserOk(s', k, use, if st.Act? && st.task == k && s'.tasks[k].Running? then made + 1 else made)
    ensures MadeAfter(cfg, t, g, Local(id, st), made) == made + 1
            || !(st.Act? && st.task == k && s'.tasks[k].Running?)
    ensures MadeAfter(cfg, t, g, Local(id, st), made) == made + 1 && st.Act? && st.task == k ==> s'.tasks[k].Running?
  {
    var s := g.sessions[id];
    if st.Act? && st.task == k {
      assert cfg.handler(use.verb, use.params, s.tasks[k].seen) == LongRunning(use.params, s.tasks[k].seen);
      var rs := ReportOf(cfg, s, id, st);
      if rs != [] {
        SingleReport(t, rs[0]);
        assert rs == [rs[0]];
      } else {
        assert ReportNotices(t, rs) == [];
      }
    }
  }

  lemma QueueMoves(
    cfg: ServerConfig, t: Token, use: Use, g: State, id: SessionId, st: Session.Step, used: bool, made: nat)
    requires ReportsOwnToken(cfg) && RunsLong(cfg, use) && Inv(cfg, g) && UsersOk(t, use, g, used, made)
    requires Enabled(cfg, g, Local(id, st))
    ensures var made' := MadeAfter(cfg, t, g, Local(id, st), made);
            ReportNotices(t, Next(cfg, g, Local(id, st)).reports)
            == ReportNotices(t, g.reports) + (if made' == made + 1 then [Mark(t, made + 1, use.params.total)] else [])
  {
    var rs := ReportOf(cfg, g.sessions[id], id, st);
    NextReport(cfg, t, use, g, id, st, used, made);
    if rs == [] {
      assert g.reports + rs == g.reports;
      assert ReportNotices(t, rs) == [];
    } else {
      assert rs == [rs[0]];
      ReportNoticesAppend(t, g.reports, rs[0]);
      SingleReport(t, rs[0]);
    }
  }

  /** The report queue after a step of a session, and what is known when it has grown. */
  lemma LocalReports(
    cfg: ServerConfig, t: Token, use: Use, g: State, id: SessionId, st: Session.Step, used: bool, made: nat)
    requires ReportsOwnToken(cfg) && RunsLong(cfg, use) && RoutingInv(cfg, g) && t != ""
    requires Inv(cfg, g) && UsersOk(t, use, g, used, made) && Enabled(cfg, g, Local(id, st))
    ensures var made' := MadeAfter(cfg, t, g, Local(id, st), made);
            && (made' == made || (made' == made + 1 && made < Truncate(use.params.total) && t in g.progresses))
            && ReportNotices(t, Next(cfg, g, Local(id, st)).reports)
               == ReportNotices(t, g.reports)
                  + (if made' == made + 1 then [Mark(t, made + 1, use.params.total)] else [])
  {
    NextReport(cfg, t, use, g, id, st, used, made);
    QueueMoves(cfg, t, use, g, id, st, used, made);
    if MadeAfter(cfg, t, g, Local(id, st), made) == made + 1 { UserHasToken(cfg, t, g, id, st.task); }
  }

  lemma LocalSession(cfg: ServerConfig, t: Token, g: State, id: SessionId, st: Session.Step)
    requires g.live <= g.sessions.Keys && Enabled(cfg, g, Local(id, st))
    ensures var g' := Next(cfg, g, Local(id, st));
            && id in g.sessions && id in g'.sessions
            && g' == g.(sessions := g.sessions[id := g'.sessions[id]], reports := g'.reports)
            && StagesMove(ProgressOn(t), g.sessions[id], st, g'.sessions[id])
  {
    LocalStages(cfg, ProgressOn(t), g.sessions[id], st);
  }

  lemma LocalStagesOk(
    cfg: ServerConfig, t: Token, use: Use, g: State, id: SessionId, st: Session.Step, used: bool, made: nat)
    requires ReportsOwnToken(cfg) && RunsLong(cfg, use) && RoutingInv(cfg, g) && t != ""
    requires Inv(cfg, g) && UsersOk(t, use, g, used, made) && StagesOk(t, use, g, made)
    requires Enabled(cfg, g, Local(id, st))
    ensures StagesOk(t, use, Next(cfg, g, Local(id, st)), MadeAfter(cfg, t, g, Local(id, st), made))
  {
    LocalReports(cfg, t, use, g, id, st, used, made);
    LocalSession(cfg, t, g, id, st);
    StagesAfterLocal(t, use, g, Next(cfg, g, Local(id, st)), id, st, made, MadeAfter(cfg, t, g, Local(id, st), made));
  }

  lemma StagesAfterLocal(
    t: Token, use: Use, g: State, g': State, id: SessionId, st: Session.Step, made: nat, made': nat)
    requires StagesOk(t, use, g, made) && id in g.sessions && id in g'.sessions
    requires g' == g.(sessions := g.sessions[id := g'.sessions[id]], reports := g'.reports)
    requires StagesMove(ProgressOn(t), g.sessions[id], st, g'.sessions[id])
    requires made' == made || (made' == made + 1 && made < Truncate(use.params.total) && t in g.progresses)
    requires ReportNotices(t, g'.reports)
             == ReportNotices(t, g.reports) + (if made' == made + 1 then [Mark(t, made + 1, use.params.total)] else [])
    ensures StagesOk(t, use, g', made')
  {
    var added := if made' == made + 1 then [Mark(t, made + 1, use.params.total)] else [];
    forall o | o in g'.sessions ensures StageOk(t, use, g', made', o) {
      assert StageOk(t, use, g, made, o);
      if o == id && t in g.progresses && g.progresses[t] == o {
        StageMoves(t, use, g.sessions[o], g'.sessions[o], st, ReportNotices(t, g.reports), added, made, made');
      } else if t in g.progresses && g.progresses[t] == o {
        StageMoves(t, use, g.sessions[o], g.sessions[o], Session.Discard(0), ReportNotices(t, g.reports), added,
                   made, made');
      }
    }
  }

  lemma UserHasToken(cfg: ServerConfig, t: Token, g: State, id: SessionId, k: nat)
    requires RoutingInv(cfg, g) && IsUser(t, g, id, k) && t != ""
    ensures t in g.progresses
  {
    assert TokensStored(g, g.sessions[id]);
  }

  /** The oldest update leaves the inbox: it is sent, or left out. */
  lemma EmitKeepsRising(
    sent: seq<Message>, head: seq<Message>, inbox: seq<Message>, queued: seq<Message>, out: seq<Message>,
    made: nat, total: real)
    requires Rising(sent + (head + inbox) + queued, made, total)
    requires out == sent + head || out == sent
    ensures Rising(out + inbox + queued, made, total)
  {
    if out == sent + head {
      assert out + inbox + queued == sent + (head + inbox) + queued;
    } else {
      assert sent + (head + inbox) + queued == sent + head + (inbox + queued);
      RisingDrop(sent, head, inbox + queued, made, total);
      assert sent + (inbox + queued) == out + inbox + queued;
    }
  }

  lemma ReportKeepsRising(
    t: Token, through: seq<Message>, queued: seq<Message>, added: seq<Message>, made: nat, made': nat, total: real)
    requires Rising(through + queued, made, total)
    requires (made' == made && added == []) || (made' == made + 1 && added == [Mark(t, made + 1, total)])
    ensures Rising(through + (queued + added), made', total)
  {
    if added == [] {
      assert queued + added == queued;
    } else {
      RisingMore(t, through + queued, made, total);
      assert through + (queued + added) == through + queued + [Mark(t, made + 1, total)];
    }
  }

  lemma StageMoves(
    t: Token, use: Use, s: Session.State, s': Session.State, st: Session.Step,
    queued: seq<Message>, added: seq<Message>, made: nat, made': nat)
    requires Rising(SentNotices(ProgressOn(t), s.sent) + InboxNotices(ProgressOn(t), s.inbox) + queued,
                    made, use.params.total)
    requires StagesMove(ProgressOn(t), s, st, s')
    requires (made' == made && added == []) || (made' == made + 1 && added == [Mark(t, made + 1, use.params.total)])
    ensures Rising(SentNotices(ProgressOn(t), s'.sent) + InboxNotices(ProgressOn(t), s'.inbox) + (queued + added),
                   made', use.params.total)
  {
    if st.Emit? {
      EmitKeepsRising(SentNotices(ProgressOn(t), s.sent), Somes([NoticeFor(ProgressOn(t), s.inbox[0])]),
                      InboxNotices(ProgressOn(t), s'.inbox), queued, SentNotices(ProgressOn(t), s'.sent),
                      made, use.params.total);
    }
    ReportKeepsRising(t, SentNotices(ProgressOn(t), s'.sent) + InboxNotices(ProgressOn(t), s'.inbox),
                      queued, added, made, made', use.params.total);
  }

  lemma ForwardUsers(cfg: ServerConfig, t: Token, use: Use, g: State, id: SessionId, used: bool, made: nat)
    requires Inv(cfg, g) && UsersOk(t, use, g, used, made) && Enabled(cfg, g, Forward(id))
    ensures UsersOk(t, use, Next(cfg, g, Forward(id)), used, made)
  {
    var g' := Next(cfg, g, Forward(id));
    forall o, k: nat | IsUser(t, g', o, k) ensures used && UserOk(g'.sessions[o], k, use, made) && IsUser(t, g, o, k) {
      assert IsUser(t, g, o, k);
    }
  }

  lemma ForwardStages(cfg: ServerConfig, t: Token, use: Use, g: State, id: SessionId, made: nat)
    requires Inv(cfg, g) && RoutingInv(cfg, g) && StagesOk(t, use, g, made) && Enabled(cfg, g, Forward(id))
    ensures StagesOk(t, use, Next(cfg, g, Forward(id)), made)
  {
    var g' := Next(cfg, g, Forward(id));
    ReportNoticesPop(t, g.reports);
    forall o | o in g'.sessions ensures StageOk(t, use, g', made, o) {
      assert StageOk(t, use, g, made, o);
      ForwardStage(cfg, t, use, g, id, o, made);
    }
  }

  /** The oldest report leaves the queue: it enters the inbox, or is left out. */
  lemma ForwardKeepsRising(
    sent: seq<Message>, inbox: seq<Message>, moved: seq<Message>, queued: seq<Message>, inbox': seq<Message>,
    made: nat, total: real)
    requires Rising(sent + inbox + (moved + queued), made, total)
    requires inbox' == inbox + moved || inbox' == inbox
    ensures Rising(sent + inbox' + queued, made, total)
  {
    assert sent + inbox + (moved + queued) == (sent + inbox) + moved + queued;
    if inbox' == inbox + moved {
      assert sent + inbox' + queued == (sent + inbox) + moved + queued;
    } else {
      RisingDrop(sent + inbox, moved, queued, made, total);
    }
  }

  lemma ForwardStage(cfg: ServerConfig, t: Token, use: Use, g: State, id: SessionId, o: SessionId, made: nat)
    requires g.live <= g.sessions.Keys && Enabled(cfg, g, Forward(id))
    requires o in g.sessions && StageOk(t, use, g, made, o)
    ensures o in Next(cfg, g, Forward(id)).sessions && StageOk(t, use, Next(cfg, g, Forward(id)), made, o)
  {
    var g' := Next(cfg, g, Forward(id));
    var r := g.reports[0];
    var s, s' := g.sessions[o], g'.sessions[o];
    var update := Session.Progressed(r.token, r.progress, r.total);
    var moved := Somes([NoticeOfReport(t, r)]);
    ReportNoticesPop(t, g.reports);
    InboxNoticesAppend(ProgressOn(t), s.inbox, update);
    assert NoticeFor(ProgressOn(t), update) == NoticeOfReport(t, r);
    assert s' == s || (s' == s.(inbox := s.inbox + [update]) && r.token in g.progresses && g.progresses[r.token] == o);
    if t in g.progresses && g.progresses[t] == o {
      ForwardKeepsRising(SentNotices(ProgressOn(t), s.sent), InboxNotices(ProgressOn(t), s.inbox), moved,
                         ReportNotices(t, g'.reports), InboxNotices(ProgressOn(t), s'.inbox), made, use.params.total);
    } else if s' != s {
      assert r.token != t;
      assert moved == [];
    }
  }

  // ----- whole runs

  predicate StepUses(step: Step, t: Token) {
    step.Incoming? && IsUse(step.msg, t)
  }

  /** The token is used by at most one more message, and that one is the given call. */
  ghost predicate UsedOnce(steps: seq<Step>, t: Token, use: Use, used: bool) {
    && (forall n :: 0 <= n < |steps| && StepUses(steps[n], t) ==>
          !used && use == Use(steps[n].msg.verb, steps[n].msg.params))
    && (forall n, m :: 0 <= n < m < |steps| ==> !(StepUses(steps[n], t) && StepUses(steps[m], t)))
  }

  lemma OrderNext(cfg: ServerConfig, t: Token, use: Use, g: State, step: Step, used: bool, made: nat)
    requires ReportsOwnToken(cfg) && RunsLong(cfg, use) && t != ""
    requires Inv(cfg, g) && RoutingInv(cfg, g) && UsersOk(t, use, g, used, made) && StagesOk(t, use, g, made)
    requires Enabled(cfg, g, step)
    requires StepUses(step, t) ==> !used && use == Use(step.msg.verb, step.msg.params)
    ensures UsersOk(t, use, Next(cfg, g, step), used || StepUses(step, t), MadeAfter(cfg, t, g, step, made))
    ensures StagesOk(t, use, Next(cfg, g, step), MadeAfter(cfg, t, g, step, made))
  {
    match step
    case Open(id) => OpenOrder(cfg, t, use, g, id, used, made);
    case Close(_) => CloseOrder(cfg, t, use, g, step, used, made);
    case Incoming(id, msg) =>
      IncomingUsers(cfg, t, use, g, id, msg, used, made);
      IncomingStages(cfg, t, use, g, id, msg, used, made);
    case Local(id, st) =>
      LocalUsers(cfg, t, use, g, id, st, used, made);
      LocalStagesOk(cfg, t, use, g, id, st, used, made);
    case Forward(id) =>
      ForwardUsers(cfg, t, use, g, id, used, made);
      ForwardStages(cfg, t, use, g, id, made);
  }

  lemma CloseOrder(cfg: ServerConfig, t: Token, use: Use, g: State, step: Step, used: bool, made: nat)
    requires Inv(cfg, g) && UsersOk(t, use, g, used, made) && StagesOk(t, use, g, made) && step.Close?
    ensures UsersOk(t, use, Next(cfg, g, step), used, made) && StagesOk(t, use, Next(cfg, g, step), made)
  {
    var g' := Next(cfg, g, step);
    forall o, k: nat | IsUser(t, g', o, k) ensures used && UserOk(g'.sessions[o], k, use, made) && IsUser(t, g, o, k) {
      assert IsUser(t, g, o, k);
    }
    forall o | o in g'.sessions ensures StageOk(t, use, g', made, o) {
      assert StageOk(t, use, g, made, o);
    }
  }

  lemma OrderExec(
    cfg: ServerConfig, t: Token, use: Use, g: State, steps: seq<Step>, used: bool, made: nat) returns (most: nat)
    requires ReportsOwnToken(cfg) && RunsLong(cfg, use) && t != ""
    requires Inv(cfg, g) && RoutingInv(cfg, g) && UsersOk(t, use, g, used, made) && StagesOk(t, use, g, made)
    requires Legal(cfg, g, steps) && UsedOnce(steps, t, use, used)
    ensures StagesOk(t, use, Exec(cfg, g, steps), most)
    decreases |steps|
  {
    if steps == [] {
      most := made;
    } else {
      var step := steps[0];
      OrderNext(cfg, t, use, g, step, used, made);
      InvNext(cfg, g, step);
      RoutingNext(cfg, g, step);
      assert forall n :: 0 <= n < |steps[1..]| ==> steps[1..][n] == steps[n + 1];
      most := OrderExec(cfg, t, use, Next(cfg, g, step), steps[1..],
                        used || StepUses(step, t), MadeAfter(cfg, t, g, step, made));
    }
  }

  // ----- the client's end

  lemma SentIsRising(t: Token, use: Use, g: State, made: nat, id: SessionId)
    requires StagesOk(t, use, g, made) && id in g.sessions
    ensures Rising(SentNotices(ProgressOn(t), g.sessions[id].sent), made, use.params.total)
  {
    assert StageOk(t, use, g, made, id);
    var s := g.sessions[id];
    if t in g.progresses && g.progresses[t] == id {
      RisingStart(SentNotices(ProgressOn(t), s.sent), InboxNotices(ProgressOn(t), s.inbox), ReportNotices(t, g.reports),
                  made, use.params.total);
    }
  }

  lemma RisingStart(a: seq<Message>, b: seq<Message>, c: seq<Message>, made: nat, total: real)
    requires Rising(a + b + c, made, total)
    ensures Rising(a, made, total)
  {
    assert forall n :: 0 <= n < |a| ==> a[n] == (a + b + c)[n];
  }

  /** Every read of the client takes a message further on in `sent` than the reads before it. */
  ghost predicate ReadsForward(steps: seq<Client.Step>, sent: seq<Session.Sent>, from: nat)
    decreases |steps|
  {
    steps == []
    || (if steps[0].Read?
        then && from <= steps[0].from < |sent| && steps[0].msg == sent[steps[0].from].msg
             && ReadsForward(steps[1..], sent, steps[0].from + 1)
        else ReadsForward(steps[1..], sent, from))
  }

  /** The progress notices that the client's listener was given for a token, in order. */
  function HeardMarks(t: Token, heard: seq<Message>): seq<Message> {
    Somes(seq(|heard|, i requires 0 <= i < |heard| => if About(ProgressOn(t), heard[i]) then Some(heard[i]) else None))
  }

  lemma HeardMarksAppend(t: Token, heard: seq<Message>, msg: Message)
    ensures HeardMarks(t, heard + [msg]) == HeardMarks(t, heard) + (if About(ProgressOn(t), msg) then [msg] else [])
  {
    var all := heard + [msg];
    var last := if About(ProgressOn(t), msg) then Some(msg) else None;
    var before :=
      seq(|heard|, i requires 0 <= i < |heard| => if About(ProgressOn(t), heard[i]) then Some(heard[i]) else None);
    SomesAppend(before, [last]);
    assert seq(|all|, i requires 0 <= i < |all| => if About(ProgressOn(t), all[i]) then Some(all[i]) else None)
        == before + [last];
  }

  /** Messages about the token's progress are notices, not requests or responses. */
  ghost predicate ToldOnly(t: Token, sent: seq<Session.Sent>) {
    forall j :: 0 <= j < |sent| ==> sent[j].Tell? || !About(ProgressOn(t), sent[j].msg)
  }

  /** Reading a message gives the listener that message, or nothing. */
  lemma ReadHears(
    c: Client.ClientConfig, t: Token, s: Client.State, j: nat, delivered: bool, sent: seq<Session.Sent>)
    requires j < |sent| && Client.Enabled(c, s, Client.Read(j, sent[j].msg, delivered))
    requires sent[j].Tell? || !About(ProgressOn(t), sent[j].msg)
    ensures var s' := Client.Next(c, s, Client.Read(j, sent[j].msg, delivered));
            || HeardMarks(t, s'.heard) == HeardMarks(t, s.heard)
            || HeardMarks(t, s'.heard) == HeardMarks(t, s.heard) + Somes([NoticeIn(ProgressOn(t), sent[j])])
  {
    var s' := Client.Next(c, s, Client.Read(j, sent[j].msg, delivered));
    if s'.heard != s.heard {
      assert s'.heard == s.heard + [sent[j].msg];
      HeardMarksAppend(t, s.heard, sent[j].msg);
    }
  }

  /** Leaving out `skipped`, and perhaps `it`, keeps the order. */
  lemma RisingSkip(
    heard: seq<Message>, skipped: seq<Message>, it: seq<Message>, rest: seq<Message>, made: nat, total: real)
    requires Rising(heard + (skipped + it + rest), made, total)
    ensures Rising(heard + it + rest, made, total) && Rising(heard + rest, made, total)
  {
    assert heard + (skipped + it + rest) == heard + skipped + (it + rest);
    RisingDrop(heard, skipped, it + rest, made, total);
    assert heard + (it + rest) == heard + it + rest;
    RisingDrop(heard, it, rest, made, total);
  }

  /** Reading one message further on: what was heard, then all that is still unread, keeps rising. */
  lemma ReadKeepsRising(
    c: Client.ClientConfig, t: Token, s: Client.State, j: nat, delivered: bool,
    sent: seq<Session.Sent>, from: nat, made: nat, total: real)
    requires from <= j < |sent| && Client.Enabled(c, s, Client.Read(j, sent[j].msg, delivered))
    requires sent[j].Tell? || !About(ProgressOn(t), sent[j].msg)
    requires Rising(HeardMarks(t, s.heard) + SentNotices(ProgressOn(t), sent[from..]), made, total)
    ensures var s' := Client.Next(c, s, Client.Read(j, sent[j].msg, delivered));
            Rising(HeardMarks(t, s'.heard) + SentNotices(ProgressOn(t), sent[j + 1..]), made, total)
  {
    SentNoticesSplit(ProgressOn(t), sent, from, j);
    RisingSkip(HeardMarks(t, s.heard), SentNotices(ProgressOn(t), sent[from..j]),
               Somes([NoticeIn(ProgressOn(t), sent[j])]), SentNotices(ProgressOn(t), sent[j + 1..]), made, total);
    ReadHears(c, t, s, j, delivered, sent);
  }

  lemma HeardExec(
    c: Client.ClientConfig, t: Token, s: Client.State, clientSteps: seq<Client.Step>,
    sent: seq<Session.Sent>, from: nat, made: nat, total: real)
    requires Client.Legal(c, s, clientSteps) && ReadsForward(clientSteps, sent, from) && from <= |sent|
    requires ToldOnly(t, sent)
    requires Rising(HeardMarks(t, s.heard) + SentNotices(ProgressOn(t), sent[from..]), made, total)
    ensures Rising(HeardMarks(t, Client.Exec(c, s, clientSteps).heard), made, total)
    decreases |clientSteps|
  {
    if clientSteps == [] {
      RisingStart(HeardMarks(t, s.heard), [], SentNotices(ProgressOn(t), sent[from..]), made, total);
    } else {
      var s' := Client.Next(c, s, clientSteps[0]);
      var next := HeardStep(c, t, s, clientSteps, s', sent, from, made, total);
      HeardExec(c, t, s', clientSteps[1..], sent, next, made, total);
    }
  }

  lemma OthersHearNothing(c: Client.ClientConfig, s: Client.State, step: Client.Step)
    requires Client.Enabled(c, s, step) && !step.Read?
    ensures Client.Next(c, s, step).heard == s.heard
  {
  }

  /** One step of the client, and the position its next read may start from. */
  lemma HeardStep(
    c: Client.ClientConfig, t: Token, s: Client.State, clientSteps: seq<Client.Step>, s': Client.State,
    sent: seq<Session.Sent>, from: nat, made: nat, total: real) returns (next: nat)
    requires clientSteps != [] && Client.Enabled(c, s, clientSteps[0]) && s' == Client.Next(c, s, clientSteps[0])
    requires ReadsForward(clientSteps, sent, from) && from <= |sent| && ToldOnly(t, sent)
    requires Rising(HeardMarks(t, s.heard) + SentNotices(ProgressOn(t), sent[from..]), made, total)
    ensures next <= |sent| && ReadsForward(clientSteps[1..], sent, next)
    ensures Rising(HeardMarks(t, s'.heard) + SentNotices(ProgressOn(t), sent[next..]), made, total)
  {
    var step := clientSteps[0];
    if step.Read? {
      ReadKeepsRising(c, t, s, step.from, step.delivered, sent, from, made, total);
      next := step.from + 1;
    } else {
      OthersHearNothing(c, s, step);
      next := from;
    }
  }

  /** Handlers do not send the client progress of their own making, in the place of a request. */
  ghost predicate AsksNoProgress(cfg: ServerConfig, t: Token) {
    forall verb, params, seen ::
      cfg.handler(verb, params, seen).Ask? ==>
        !(cfg.handler(verb, params, seen).verb.NotifyProgress? && cfg.handler(verb, params, seen).params.token == t)
  }

  ghost predicate QuietAsks(t: Token, s: Session.State) {
    forall call :: call in s.callbacks ==>
                     !(s.callbacks[call].verb.NotifyProgress? && s.callbacks[call].params.token == t)
  }

  lemma QuietLocal(cfg: ServerConfig, t: Token, s: Session.State, st: Session.Step)
    requires Session.Inv(cfg, s) && QuietAsks(t, s) && AsksNoProgress(cfg, t)
    requires Session.Enabled(cfg, s, st) && !st.Receive?
    ensures QuietAsks(t, Session.Next(cfg, s, st))
  {
    var s' := Session.Next(cfg, s, st);
    Session.NextMoves(cfg, s, st);
    Session.InvNext(cfg, s, st);
    forall call | call in s'.callbacks
      ensures !(s'.callbacks[call].verb.NotifyProgress? && s'.callbacks[call].params.token == t)
    {
      assert Session.CallbackMoves(s, st, s', call) && Session.CallbackOk(s', call);
      if call !in s.callbacks && st.Act? {
        assert Session.TaskOk(cfg, s', st.task);
        var ask := cfg.handler(s'.recv[st.task].verb, s'.recv[st.task].params, s'.tasks[st.task].seen);
        assert ask.verb == s'.callbacks[call].verb && ask.params == s'.callbacks[call].params;
      }
    }
  }

  ghost predicate AllQuiet(t: Token, g: State) {
    forall id :: id in g.sessions ==> QuietAsks(t, g.sessions[id])
  }

  lemma QuietNext(cfg: ServerConfig, t: Token, g: State, step: Step)
    requires Inv(cfg, g) && AllQuiet(t, g) && AsksNoProgress(cfg, t) && Enabled(cfg, g, step)
    ensures AllQuiet(t, Next(cfg, g, step))
  {
    var g' := Next(cfg, g, step);
    match step
    case Incoming(id, msg) => DispatchIsLocal(cfg, g, id, msg);
    case Local(id, st) =>
      QuietLocal(cfg, t, g.sessions[id], st);
      forall o | o in g'.sessions ensures QuietAsks(t, g'.sessions[o]) {
        assert o != id ==> QuietAsks(t, g.sessions[o]);
      }
    case _ =>
      forall o | o in g'.sessions ensures QuietAsks(t, g'.sessions[o]) {
        assert o in g.sessions ==> QuietAsks(t, g.sessions[o]);
      }
  }

  lemma QuietExec(cfg: ServerConfig, t: Token, g: State, steps: seq<Step>)
    requires Inv(cfg, g) && AllQuiet(t, g) && AsksNoProgress(cfg, t) && Legal(cfg, g, steps)
    ensures Inv(cfg, Exec(cfg, g, steps)) && AllQuiet(t, Exec(cfg, g, steps))
    decreases |steps|
  {
    if steps != [] {
      InvNext(cfg, g, steps[0]);
      QuietNext(cfg, t, g, steps[0]);
      QuietExec(cfg, t, Next(cfg, g, steps[0]), steps[1..]);
    }
  }

  /** Progress under the token reaches the client only as notices. */
  lemma ProgressIsTold(cfg: ServerConfig, t: Token, s: Session.State)
    requires Session.Inv(cfg, s) && QuietAsks(t, s)
    ensures ToldOnly(t, s.sent)
  {
    forall j | 0 <= j < |s.sent| ensures s.sent[j].Tell? || !About(ProgressOn(t), s.sent[j].msg) {
      assert Session.SentOk(s, j);
    }
  }

  lemma RisingUpTo(marks: seq<Message>, made: nat, total: real)
    requires Rising(marks, made, total) && made <= Count(total)
    ensures Rising(marks, Count(total), total)
  {
  }

  /** The server's half: what a session has sent about the token's progress is in order. */
  lemma SentInOrder(cfg: ServerConfig, t: Token, use: Use, steps: seq<Step>, id: SessionId) returns (made: nat)
    requires ReportsOwnToken(cfg) && AsksNoProgress(cfg, t) && RunsLong(cfg, use) && t != ""
    requires Legal(cfg, START, steps) && UsedOnce(steps, t, use, false)
    requires id in Exec(cfg, START, steps).sessions
    ensures made <= Count(use.params.total) && ToldOnly(t, Exec(cfg, START, steps).sessions[id].sent)
    ensures Rising(SentNotices(ProgressOn(t), Exec(cfg, START, steps).sessions[id].sent), made, use.params.total)
  {
    made := OrderExec(cfg, t, use, START, steps, false, 0);
    SentIsRising(t, use, Exec(cfg, START, steps), made, id);
    QuietExec(cfg, t, START, steps);
    ProgressIsTold(cfg, t, Exec(cfg, START, steps).sessions[id]);
  }

  /**
   For a token used by one long-running call, in every run of the server with all its sessions, and
   in every run of a client that reads what was sent to its session in order, whatever it misses and
   whatever else it does: the values its listener is given strictly increase, from 1 up to the number
   of steps, with one and the same total.
   */
  lemma ProgressIsInOrder(
    cfg: ServerConfig, c: Client.ClientConfig, t: Token, use: Use, steps: seq<Step>, id: SessionId,
    clientSteps: seq<Client.Step>)
    requires ReportsOwnToken(cfg) && AsksNoProgress(cfg, t) && RunsLong(cfg, use) && t != ""
    requires Legal(cfg, START, steps) && UsedOnce(steps, t, use, false)
    requires id in Exec(cfg, START, steps).sessions
    requires Client.Legal(c, Client.FRESH, clientSteps)
    requires ReadsForward(clientSteps, Exec(cfg, START, steps).sessions[id].sent, 0)
    ensures var heard := HeardMarks(t, Client.Exec(c, Client.FRESH, clientSteps).heard);
            && Rising(heard, Count(use.params.total), use.params.total)
            && Covers(Count(use.params.total), use.params.total)
            && (forall n :: 0 <= n < |heard| ==> heard[n].params.progress as real <= heard[n].params.total)
  {
    var made := SentInOrder(cfg, t, use, steps, id);
    var sent := Exec(cfg, START, steps).sessions[id].sent;
    assert sent[0..] == sent;
    HeardExec(c, t, Client.FRESH, clientSteps, sent, 0, made, use.params.total);
    RisingUpTo(HeardMarks(t, Client.Exec(c, Client.FRESH, clientSteps).heard), made, use.params.total);
    CountCovers(use.params.total, Count(use.params.total));
  }
}
