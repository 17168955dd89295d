/**
 Progress of a long-running call when nothing is lost: once the call has been answered and nothing is
 on its way any more, the client's listener was given every value from 1 up to the number of steps.
 */
module ProgressInFull {
  import opened Messages
  import opened Negotiation
  import opened Notices
  import opened Server
  import opened ServerTheorems
  import opened Progress
  import opened ProgressOrder
  import Session
  import Client

  /** The values 1, 2, ..., `made`, with one total. */
  function Marks(t: Token, made: nat, total: real): seq<Message> {
    seq(made, i requires 0 <= i < made => Mark(t, i + 1, total))
  }

  /** One message for each of the values 1, 2, ... that the number of steps `total` covers, in order. */
  ghost predicate AllValues(t: Token, msgs: seq<Message>, total: real) {
    && Covers(|msgs|, total)
    && forall n :: 0 <= n < |msgs| ==> Session.Announces(msgs[n], Session.Progressed(t, n + 1, total))
  }

  lemma MarksAreAllValues(t: Token, total: real)
    ensures AllValues(t, Marks(t, Count(total), total), total)
  {
    CountCovers(total, Count(total));
    forall n: nat | n < Count(total)
      ensures Session.Announces(Marks(t, Count(total), total)[n], Session.Progressed(t, n + 1, total))
    {
      Session.NoticeAnnounces(Session.Progressed(t, n + 1, total));
    }
  }

  // ----- runs in which session `a` loses nothing

  /** The session stays, and none of its writes of a notification fails. */
  predicate Keeps(a: SessionId, g: State, step: Step) {
    && !(step.Close? && step.session == a)
    && !(step.Open? && step.session == a && a in g.sessions)
    && !(step.Local? && step.session == a && step.step.Emit? && !step.step.delivered)
  }

  ghost predicate NothingLost(cfg: ServerConfig, a: SessionId, g: State, steps: seq<Step>)
    requires g.live <= g.sessions.Keys && Legal(cfg, g, steps)
    decreases |steps|
  {
    steps == [] || (Keeps(a, g, steps[0]) && NothingLost(cfg, a, Next(cfg, g, steps[0]), steps[1..]))
  }

  // ----- the token belongs to the session that uses it

  ghost predicate OwnerOk(t: Token, g: State) {
    && (t in g.progresses ==> g.progresses[t] in g.sessions)
    && (forall id, k: nat :: IsUser(t, g, id, k) ==> t in g.progresses && g.progresses[t] == id)
  }

  lemma OwnerDispatch(
    cfg: ServerConfig, t: Token, use: Use, g: State, id: SessionId, msg: Message, used: bool, made: nat)
    requires Inv(cfg, g) && RoutingInv(cfg, g) && UsersOk(t, use, g, used, made) && OwnerOk(t, g) && t != ""
    requires IsUse(msg, t) ==> !used
    ensures OwnerOk(t, Dispatch(cfg, g, id, msg))
  {
    var g' := Dispatch(cfg, g, id, msg);
    DispatchIsLocal(cfg, g, id, msg);
    if Session.Route(cfg, msg).Launch? && Session.Route(cfg, msg).storesToken { StoredTokenIsUse(cfg, msg); }
    if msg.jsonrpc == JSONRPC_VERSION && id in g.live {
      forall o, k: nat | IsUser(t, g', o, k) ensures t in g'.progresses && g'.progresses[t] == o {
        assert o != id || k < |g.sessions[id].recv| ==> IsUser(t, g, o, k);
        if o == id && k == |g.sessions[id].recv| { LaunchStoresToken(cfg, msg); }
      }
    }
  }

  lemma OwnerNext(cfg: ServerConfig, t: Token, use: Use, g: State, step: Step, used: bool, made: nat)
    requires Inv(cfg, g) && RoutingInv(cfg, g) && UsersOk(t, use, g, used, made) && OwnerOk(t, g) && t != ""
    requires Enabled(cfg, g, step) && (StepUses(step, t) ==> !used)
    ensures OwnerOk(t, Next(cfg, g, step))
  {
    var g' := Next(cfg, g, step);
    match step
    case Incoming(id, msg) => OwnerDispatch(cfg, t, use, g, id, msg, used, made);
    case Local(id, st) =>
      Session.NextMoves(cfg, g.sessions[id], st);
      forall o, k: nat | IsUser(t, g', o, k) ensures t in g'.progresses && g'.progresses[t] == o {
        assert IsUser(t, g, o, k);
      }
    case _ =>
      forall o, k: nat | IsUser(t, g', o, k) ensures t in g'.progresses && g'.progresses[t] == o {
        assert IsUser(t, g, o, k);
      }
  }

  // ----- everything reported is on its way, or was sent

  ghost predicate FullOk(t: Token, use: Use, g: State, made: nat, a: SessionId) {
    && (t !in g.progresses ==> made == 0)
    && (t in g.progresses && g.progresses[t] == a ==>
          && a in g.live && a in g.sessions
          && Pipeline(t, g.sessions[a], g.reports) == Marks(t, made, use.params.total))
  }

  lemma FullDispatch(
    cfg: ServerConfig, t: Token, use: Use, g: State, id: SessionId, msg: Message, used: bool, made: nat, a: SessionId)
    requires Inv(cfg, g) && UsersOk(t, use, g, used, made) && StagesOk(t, use, g, made) && FullOk(t, use, g, made, a)
    requires IsUse(msg, t) ==> !used
    ensures FullOk(t, use, Dispatch(cfg, g, id, msg), made, a)
  {
    DispatchIsLocal(cfg, g, id, msg);
    if a in g.sessions {
      DispatchStages(cfg, t, g, id, msg, a);
      assert StageOk(t, use, g, made, a);
    }
    if Session.Route(cfg, msg).Launch? && Session.Route(cfg, msg).storesToken { StoredTokenIsUse(cfg, msg); }
  }

  /** An update on the token leaves the inbox by being sent, when its write does not fail. */
  lemma EmitKeepsAll(t: Token, s: Session.State, st: Session.Step, s': Session.State)
    requires StagesMove(ProgressOn(t), s, st, s') && (st.Emit? ==> st.delivered)
    ensures SentNotices(ProgressOn(t), s'.sent) + InboxNotices(ProgressOn(t), s'.inbox)
            == SentNotices(ProgressOn(t), s.sent) + InboxNotices(ProgressOn(t), s.inbox)
  {
    if st.Emit? {
      var head := Somes([NoticeFor(ProgressOn(t), s.inbox[0])]);
      if !Session.PassesOn(s, s.inbox[0]) { OffTopicIsSilent(ProgressOn(t), s.inbox[0]); }
      Regrouped(SentNotices(ProgressOn(t), s.sent), head, InboxNotices(ProgressOn(t), s'.inbox));
    }
  }

  lemma Regrouped(a: seq<Message>, b: seq<Message>, c: seq<Message>)
    ensures a + b + c == a + (b + c)
  {
  }

  lemma RegroupedAcross(a: seq<Message>, b: seq<Message>, c: seq<Message>, d: seq<Message>)
    ensures a + b + (c + d) == a + (b + c) + d
  {
  }

  lemma OneMoreMark(t: Token, through: seq<Message>, queued: seq<Message>, made: nat, total: real)
    requires through + queued == Marks(t, made, total)
    ensures through + (queued + [Mark(t, made + 1, total)]) == Marks(t, made + 1, total)
  {
    Regrouped(through, queued, [Mark(t, made + 1, total)]);
    assert Marks(t, made + 1, total) == Marks(t, made, total) + [Mark(t, made + 1, total)];
  }

  lemma FullLocal(
    cfg: ServerConfig, t: Token, use: Use, g: State, id: SessionId, st: Session.Step,
    used: bool, made: nat, a: SessionId)
    requires ReportsOwnToken(cfg) && RunsLong(cfg, use) && RoutingInv(cfg, g) && t != ""
    requires Inv(cfg, g) && UsersOk(t, use, g, used, made) && FullOk(t, use, g, made, a)
    requires Enabled(cfg, g, Local(id, st)) && Keeps(a, g, Local(id, st))
    ensures FullOk(t, use, Next(cfg, g, Local(id, st)), MadeAfter(cfg, t, g, Local(id, st), made), a)
  {
    LocalReports(cfg, t, use, g, id, st, used, made);
    LocalSession(cfg, t, g, id, st);
    FullAfterLocal(t, use, g, Next(cfg, g, Local(id, st)), id, st, made, MadeAfter(cfg, t, g, Local(id, st), made), a);
  }

  lemma FullAfterLocal(
    t: Token, use: Use, g: State, g': State, id: SessionId, st: Session.Step, made: nat, made': nat, a: SessionId)
    requires FullOk(t, use, g, made, a) && id in g.sessions && id in g'.sessions
    requires g' == g.(sessions := g.sessions[id := g'.sessions[id]], reports := g'.reports)
    requires StagesMove(ProgressOn(t), g.sessions[id], st, g'.sessions[id])
    requires id == a && st.Emit? ==> st.delivered
    requires made' == made || (made' == made + 1 && t in g.progresses)
    requires ReportNotices(t, g'.reports)
             == ReportNotices(t, g.reports) + (if made' == made + 1 then [Mark(t, made + 1, use.params.total)] else [])
    ensures FullOk(t, use, g', made', a)
  {
    if t in g.progresses && g.progresses[t] == a {
      if id == a { EmitKeepsAll(t, g.sessions[a], st, g'.sessions[a]); }
      var s' := g'.sessions[a];
      var through := SentNotices(ProgressOn(t), s'.sent) + InboxNotices(ProgressOn(t), s'.inbox);
      if made' == made + 1 {
        OneMoreMark(t, through, ReportNotices(t, g.reports), made, use.params.total);
      } else {
        assert ReportNotices(t, g.reports) + [] == ReportNotices(t, g.reports);
      }
    }
  }

  lemma FullForward(cfg: ServerConfig, t: Token, use: Use, g: State, id: SessionId, made: nat, a: SessionId)
    requires Inv(cfg, g) && FullOk(t, use, g, made, a) && Enabled(cfg, g, Forward(id))
    ensures FullOk(t, use, Next(cfg, g, Forward(id)), made, a)
  {
    if t in g.progresses && g.progresses[t] == a {
      var r, s := g.reports[0], g.sessions[a];
      var update := Session.Progressed(r.token, r.progress, r.total);
      var sent, inbox := SentNotices(ProgressOn(t), s.sent), InboxNotices(ProgressOn(t), s.inbox);
      var moved, queued := Somes([NoticeOfReport(t, r)]), ReportNotices(t, g.reports[1..]);
      ReportNoticesPop(t, g.reports);
      InboxNoticesAppend(ProgressOn(t), s.inbox, update);
      assert NoticeFor(ProgressOn(t), update) == NoticeOfReport(t, r);
      RegroupedAcross(sent, inbox, moved, queued);
      if r.token != t { NoReport(t, r); }
      assert r.token != t ==> inbox + moved == inbox;
    }
  }

  lemma NoReport(t: Token, r: Report)
    requires r.token != t
    ensures Somes([NoticeOfReport(t, r)]) == []
  {
    assert NoticeOfReport(t, r) == None;
  }

  lemma FullNext(
    cfg: ServerConfig, t: Token, use: Use, g: State, step: Step, used: bool, made: nat, a: SessionId)
    requires ReportsOwnToken(cfg) && RunsLong(cfg, use) && t != "" && OwnerOk(t, g)
    requires Inv(cfg, g) && RoutingInv(cfg, g) && UsersOk(t, use, g, used, made) && StagesOk(t, use, g, made)
    requires FullOk(t, use, g, made, a) && Enabled(cfg, g, step) && Keeps(a, g, step)
    requires StepUses(step, t) ==> !used
    ensures FullOk(t, use, Next(cfg, g, step), MadeAfter(cfg, t, g, step, made), a)
  {
    match step
    case Open(_) =>
    case Close(_) =>
    case Incoming(id, msg) => FullDispatch(cfg, t, use, g, id, msg, used, made, a);
    case Local(id, st) => FullLocal(cfg, t, use, g, id, st, used, made, a);
    case Forward(id) => FullForward(cfg, t, use, g, id, made, a);
  }

  /** Everything known about the token after some steps: `made` reports, all of them accounted for. */
  ghost predicate Accounted(cfg: ServerConfig, t: Token, use: Use, g: State, used: bool, made: nat, a: SessionId) {
    && Inv(cfg, g) && RoutingInv(cfg, g) && UsersOk(t, use, g, used, made) && StagesOk(t, use, g, made)
    && OwnerOk(t, g) && FullOk(t, use, g, made, a)
  }

  lemma AccountedNext(
    cfg: ServerConfig, t: Token, use: Use, g: State, step: Step, used: bool, made: nat, a: SessionId)
    requires ReportsOwnToken(cfg) && RunsLong(cfg, use) && t != "" && Accounted(cfg, t, use, g, used, made, a)
    requires Enabled(cfg, g, step) && Keeps(a, g, step)
    requires StepUses(step, t) ==> !used && use == Use(step.msg.verb, step.msg.params)
    ensures Accounted(cfg, t, use, Next(cfg, g, step), used || StepUses(step, t), MadeAfter(cfg, t, g, step, made), a)
  {
    InvNext(cfg, g, step);
    RoutingNext(cfg, g, step);
    OrderNext(cfg, t, use, g, step, used, made);
    OwnerNext(cfg, t, use, g, step, used, made);
    FullNext(cfg, t, use, g, step, used, made, a);
  }

  lemma AccountedExec(
    cfg: ServerConfig, t: Token, use: Use, g: State, steps: seq<Step>, used: bool, made: nat, a: SessionId)
    returns (ever: bool, most: nat)
    requires ReportsOwnToken(cfg) && RunsLong(cfg, use) && t != "" && Accounted(cfg, t, use, g, used, made, a)
    requires Legal(cfg, g, steps) && UsedOnce(steps, t, use, used) && NothingLost(cfg, a, g, steps)
    ensures Accounted(cfg, t, use, Exec(cfg, g, steps), ever, most, a)
    decreases |steps|
  {
    if steps == [] {
      ever, most := used, made;
    } else {
      var step := steps[0];
      AccountedNext(cfg, t, use, g, step, used, made, a);
      assert forall n :: 0 <= n < |steps[1..]| ==> steps[1..][n] == steps[n + 1];
      ever, most := AccountedExec(cfg, t, use, Next(cfg, g, step), steps[1..],
                                  used || StepUses(step, t), MadeAfter(cfg, t, g, step, made), a);
    }
  }

  /** The call at `k` of session `a` was answered, and nothing about the token is on its way any more. */
  ghost predicate CallIsOver(t: Token, g: State, a: SessionId, k: nat) {
    && IsUser(t, g, a, k) && g.sessions[a].tasks[k].Replied?
    && g.sessions[a].inbox == [] && ReportNotices(t, g.reports) == []
  }

  /** Once a long-running call has finished and nothing was lost, all its values were sent, in order. */
  lemma AllMarksAreSent(
    cfg: ServerConfig, t: Token, use: Use, steps: seq<Step>, a: SessionId, k: nat)
    requires ReportsOwnToken(cfg) && RunsLong(cfg, use) && t != ""
    requires Legal(cfg, START, steps) && UsedOnce(steps, t, use, false) && NothingLost(cfg, a, START, steps)
    requires CallIsOver(t, Exec(cfg, START, steps), a, k)
    ensures SentNotices(ProgressOn(t), Exec(cfg, START, steps).sessions[a].sent)
            == Marks(t, Count(use.params.total), use.params.total)
    ensures AllValues(t, Marks(t, Count(use.params.total), use.params.total), use.params.total)
  {
    MarksAreAllValues(t, use.params.total);
    var ever, most := AccountedExec(cfg, t, use, START, steps, false, 0, a);
    AllSentWhenOver(cfg, t, use, Exec(cfg, START, steps), ever, most, a, k);
  }

  lemma AllSentWhenOver(
    cfg: ServerConfig, t: Token, use: Use, g: State, used: bool, made: nat, a: SessionId, k: nat)
    requires Accounted(cfg, t, use, g, used, made, a) && CallIsOver(t, g, a, k)
    ensures SentNotices(ProgressOn(t), g.sessions[a].sent) == Marks(t, Count(use.params.total), use.params.total)
  {
    var sent := SentNotices(ProgressOn(t), g.sessions[a].sent);
    assert UserOk(g.sessions[a], k, use, made);
    assert sent + [] + [] == sent;
  }

  // ----- the client's end

  /** The client reads every message of the session from `from` on, one after the other. */
  ghost predicate ReadsAll(steps: seq<Client.Step>, sent: seq<Session.Sent>, from: nat)
    decreases |steps|
  {
    if steps == [] then from == |sent|
    else if steps[0].Read?
    then && from < |sent| && steps[0].from == from && steps[0].msg == sent[from].msg
         && ReadsAll(steps[1..], sent, from + 1)
    else ReadsAll(steps[1..], sent, from)
  }

  /** The message, if it is about the token's progress, is one that a listener is given. */
  ghost predicate Hearable(t: Token, sent: Session.Sent) {
    About(ProgressOn(t), sent.msg) ==> sent.Tell? && sent.msg.jsonrpc == JSONRPC_VERSION && sent.msg.params.decodes
  }

  lemma ReadHearsIt(
    c: Client.ClientConfig, t: Token, s: Client.State, j: nat, delivered: bool, sent: Session.Sent)
    requires ProgressListener in c.parts && Hearable(t, sent)
    requires Client.Enabled(c, s, Client.Read(j, sent.msg, delivered))
    ensures HeardMarks(t, Client.Next(c, s, Client.Read(j, sent.msg, delivered)).heard)
            == HeardMarks(t, s.heard) + Somes([NoticeIn(ProgressOn(t), sent)])
  {
    var s' := Client.Next(c, s, Client.Read(j, sent.msg, delivered));
    assert Somes([NoticeIn(ProgressOn(t), sent)]) == if About(ProgressOn(t), sent.msg) then [sent.msg] else [];
    if s'.heard != s.heard {
      assert s'.heard == s.heard + [sent.msg];
      HeardMarksAppend(t, s.heard, sent.msg);
    }
  }

  lemma HeardAll(
    c: Client.ClientConfig, t: Token, s: Client.State, clientSteps: seq<Client.Step>,
    sent: seq<Session.Sent>, from: nat)
    requires ProgressListener in c.parts && (forall j :: 0 <= j < |sent| ==> Hearable(t, sent[j]))
    requires Client.Legal(c, s, clientSteps) && from <= |sent| && ReadsAll(clientSteps, sent, from)
    ensures HeardMarks(t, Client.Exec(c, s, clientSteps).heard)
            == HeardMarks(t, s.heard) + SentNotices(ProgressOn(t), sent[from..])
    decreases |clientSteps|
  {
    if clientSteps != [] {
      var step := clientSteps[0];
      var s' := Client.Next(c, s, step);
      if step.Read? {
        ReadHearsIt(c, t, s, from, step.delivered, sent[from]);
        HeardAll(c, t, s', clientSteps[1..], sent, from + 1);
        FirstNotice(t, sent, from);
        Regrouped(HeardMarks(t, s.heard), Somes([NoticeIn(ProgressOn(t), sent[from])]),
                  SentNotices(ProgressOn(t), sent[from + 1..]));
      } else {
        OthersHearNothing(c, s, step);
        HeardAll(c, t, s', clientSteps[1..], sent, from);
      }
    }
  }

  lemma FirstNotice(t: Token, sent: seq<Session.Sent>, from: nat)
    requires from < |sent|
    ensures SentNotices(ProgressOn(t), sent[from..])
            == Somes([NoticeIn(ProgressOn(t), sent[from])]) + SentNotices(ProgressOn(t), sent[from + 1..])
  {
    SentNoticesSplit(ProgressOn(t), sent, from, from);
    assert sent[from..from] == [];
  }

  lemma MarksAreHearable(t: Token, sent: seq<Session.Sent>, made: nat, total: real)
    requires ToldOnly(t, sent) && SentNotices(ProgressOn(t), sent) == Marks(t, made, total)
    ensures forall j :: 0 <= j < |sent| ==> Hearable(t, sent[j])
  {
    forall j | 0 <= j < |sent| ensures Hearable(t, sent[j]) {
      if About(ProgressOn(t), sent[j].msg) {
        SentNoticesSplit(ProgressOn(t), sent, 0, j);
        assert sent[0..] == sent && Somes([NoticeIn(ProgressOn(t), sent[j])]) == [sent[j].msg];
        assert sent[j].msg in Marks(t, made, total);
      }
    }
  }

  /**
   A long-running call under a token used once, in a run of the server with all its sessions in which
   the call's own session loses nothing: once the call has been answered and nothing is on its way,
   a client that has read all of its session's messages has given its listener exactly the values
   1, 2, ... up to the number of steps, each with the total.
   */
  lemma ProgressIsHeardInFull(
    cfg: ServerConfig, c: Client.ClientConfig, t: Token, use: Use, steps: seq<Step>, a: SessionId, k: nat,
    clientSteps: seq<Client.Step>)
    requires ReportsOwnToken(cfg) && AsksNoProgress(cfg, t) && RunsLong(cfg, use) && t != ""
    requires Legal(cfg, START, steps) && UsedOnce(steps, t, use, false) && NothingLost(cfg, a, START, steps)
    requires CallIsOver(t, Exec(cfg, START, steps), a, k)
    requires ProgressListener in c.parts && Client.Legal(c, Client.FRESH, clientSteps)
    requires ReadsAll(clientSteps, Exec(cfg, START, steps).sessions[a].sent, 0)
    ensures AllValues(t, HeardMarks(t, Client.Exec(c, Client.FRESH, clientSteps).heard), use.params.total)
  {
    var sent := Exec(cfg, START, steps).sessions[a].sent;
    AllMarksAreSent(cfg, t, use, steps, a, k);
    QuietExec(cfg, t, START, steps);
    ProgressIsTold(cfg, t, Exec(cfg, START, steps).sessions[a]);
    MarksAreHearable(t, sent, Count(use.params.total), use.params.total);
    HeardAll(c, t, Client.FRESH, clientSteps, sent, 0);
    assert sent[0..] == sent;
  }
}
