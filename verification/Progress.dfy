/**
 Progress of a long-running tool call, from the loop that produces it to the client's listener.
 Reports pass through the reporter's channel, the session's listen loop and the transport, each of
 which keeps order and may drop; what comes out is strictly increasing.
 */
module Progress {
  import opened Messages
  import opened Notices
  import opened Server
  import Session

  // ----- the producer

  /** The conversion of a floating-point number to an integer, toward zero. */
  function Truncate(x: real): int {
    if x >= 0.0 then x.Floor else -((-x).Floor)
  }

  /** How many reports a number of steps makes. */
  function Count(total: real): nat {
    if Truncate(total) > 0 then Truncate(total) else 0
  }

  /** The conversion rounds toward zero. */
  lemma TruncateRounds(x: real)
    ensures x >= 0.0 ==> Truncate(x) as real <= x < Truncate(x) as real + 1.0
    ensures x < 0.0 ==> Truncate(x) as real - 1.0 < x <= Truncate(x) as real
  {
  }

  /** `n` is the number of reports that a loop up to the number of steps `total` makes. */
  predicate Covers(n: nat, total: real) {
    if total >= 0.0 then n as real <= total < n as real + 1.0 else n == 0
  }

  /** `Count` is the one such number; for a whole number of steps it is that number. */
  lemma CountCovers(total: real, n: nat)
    ensures Covers(n, total) <==> n == Count(total)
    ensures Count(n as real) == n
  {
    TruncateRounds(total);
    TruncateRounds(n as real);
  }

  datatype Point = Point(progress: nat, total: real)

  /** The long-running tool as a handler: one report per step, then the result. */
  function LongRunning(params: Params, seen: seq<Session.Event>): Session.Action {
    if params.token != "" && |seen| < Truncate(params.total)
    then Session.Report(params.token, |seen| + 1, params.total)
    else Session.Return(Data("Long running operation completed."))
  }

  /**
   The loop of the tool.  `accepts` is how many reports are taken before the call's context or the
   server is done; the loop then ends with an error.
   */
  method CallLongRunningOperation(params: Params, accepts: nat)
    returns (reports: seq<Point>, completed: bool)
    ensures |reports| <= accepts
    ensures forall n :: 0 <= n < |reports| ==> reports[n] == Point(n + 1, params.total)
    ensures forall seen: seq<Session.Event> ::
              |seen| < |reports| ==>
                LongRunning(params, seen)
                == Session.Report(params.token, reports[|seen|].progress, reports[|seen|].total)
    ensures completed ==> forall seen: seq<Session.Event> :: |seen| == |reports| ==> LongRunning(params, seen).Return?
    ensures completed ==> if params.token == "" then reports == [] else Covers(|reports|, params.total)
    ensures !completed ==> params.token != "" && accepts == |reports| && |reports| as real + 1.0 <= params.total
  {
    reports := [];
    var i := 0;
    TruncateRounds(params.total);
    while i < Truncate(params.total)
      invariant 0 <= i && (i <= Truncate(params.total) || i == 0)
      invariant |reports| <= accepts && |reports| == if params.token == "" then 0 else i
      invariant forall n :: 0 <= n < |reports| ==> reports[n] == Point(n + 1, params.total)
    {
      if params.token != "" {
        if |reports| == accepts { return reports, false; }
        reports := reports + [Point(i + 1, params.total)];
      }
      i := i + 1;
    }
    return reports, true;
  }

  // ----- the stages

  /** The notice that a report becomes. */
  function Mark(t: Token, progress: nat, total: real): Message {
    Session.NoticeOf(Session.Progressed(t, progress, total))
  }

  function NoticeOfReport(t: Token, r: Report): Option<Message> {
    if r.token == t then Some(Mark(t, r.progress, r.total)) else None
  }

  function ReportNotices(t: Token, reports: seq<Report>): seq<Message> {
    Somes(seq(|reports|, i requires 0 <= i < |reports| => NoticeOfReport(t, reports[i])))
  }

  lemma ReportNoticesAppend(t: Token, reports: seq<Report>, item: Report)
    ensures ReportNotices(t, reports + [item]) == ReportNotices(t, reports) + Somes([NoticeOfReport(t, item)])
  {
    var all := reports + [item];
    SomesAppend(seq(|reports|, i requires 0 <= i < |reports| => NoticeOfReport(t, reports[i])),
                [NoticeOfReport(t, item)]);
    assert seq(|all|, i requires 0 <= i < |all| => NoticeOfReport(t, all[i]))
        == seq(|reports|, i requires 0 <= i < |reports| => NoticeOfReport(t, reports[i])) + [NoticeOfReport(t, item)];
  }

  lemma ReportNoticesPop(t: Token, reports: seq<Report>)
    requires reports != []
    ensures ReportNotices(t, reports) == Somes([NoticeOfReport(t, reports[0])]) + ReportNotices(t, reports[1..])
  {
    var tail := reports[1..];
    assert seq(|reports|, i requires 0 <= i < |reports| => NoticeOfReport(t, reports[i]))
        == [NoticeOfReport(t, reports[0])] + seq(|tail|, i requires 0 <= i < |tail| => NoticeOfReport(t, tail[i]));
    SomesAppend([NoticeOfReport(t, reports[0])], seq(|tail|, i requires 0 <= i < |tail| => NoticeOfReport(t, tail[i])));
  }

  /** Everything reported under `t` that is on its way through session `s`, oldest first. */
  function Pipeline(t: Token, s: Session.State, reports: seq<Report>): seq<Message> {
    SentNotices(ProgressOn(t), s.sent) + InboxNotices(ProgressOn(t), s.inbox) + ReportNotices(t, reports)
  }

  /** Strictly increasing from 1 up to `made`, with one total. */
  ghost predicate Rising(marks: seq<Message>, made: nat, total: real) {
    && (forall n :: 0 <= n < |marks| ==> 1 <= marks[n].params.progress <= made && marks[n].params.total == total)
    && (forall n, m :: 0 <= n < m < |marks| ==> marks[n].params.progress < marks[m].params.progress)
  }

  /** Leaving marks out keeps the order. */
  lemma RisingDrop(a: seq<Message>, b: seq<Message>, c: seq<Message>, made: nat, total: real)
    requires Rising(a + b + c, made, total)
    ensures Rising(a + c, made, total)
  {
    var all, kept := a + b + c, a + c;
    forall n | 0 <= n < |kept|
      ensures kept[n] == all[if n < |a| then n else n + |b|]
    {
    }
  }

  lemma RisingMore(t: Token, marks: seq<Message>, made: nat, total: real)
    requires Rising(marks, made, total)
    ensures Rising(marks + [Mark(t, made + 1, total)], made + 1, total)
  {
  }
}
