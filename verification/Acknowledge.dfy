/**
 The rule between a transport and a handler loop: a message is handed over together with a channel
 that receives exactly one acknowledgement.  Any number of transport readers share one handler loop;
 a StdIO reader is one of them, and each open HTTP request of the SSE server is another.  The same
 loop also starts and stops sessions, between two messages.
 */
module Acknowledge {
  import opened Messages
  import StdIO

  /** A reader is about to offer its `line`-th message, is offering it, or waits for its acknowledgement. */
  datatype Phase = Ready | Offering | Unacknowledged

  /** `lines` are the messages that the reader has to forward, one after the other. */
  datatype Reader = Reader(lines: seq<string>, line: nat, phase: Phase)

  datatype Event = Taken(reader: nat, line: nat) | Acked(reader: nat, line: nat)

  /** `hand` is the reader whose message the handler loop is working on; `log` is what has happened. */
  datatype State = State(readers: map<nat, Reader>, hand: seq<nat>, live: set<SessionId>, log: seq<Event>)

  const START := State(map[], [], {}, [])

  datatype Step =
    | Connect(reader: nat, lines: seq<string>)
    | Offer(reader: nat)
    | Take(reader: nat)
    | Ack
    | StartSession(session: SessionId)
    | StopSession(session: SessionId)

  predicate Enabled(s: State, step: Step) {
    match step
    case Connect(r, _) => r !in s.readers
    case Offer(r) => r in s.readers && s.readers[r].phase.Ready? && s.readers[r].line < |s.readers[r].lines|
    case Take(r) => r in s.readers && s.readers[r].phase.Offering? && s.hand == []
    case Ack => s.hand != [] && s.hand[0] in s.readers
    case StartSession(_) => s.hand == []
    case StopSession(_) => s.hand == []
  }

  function Next(s: State, step: Step): State
    requires Enabled(s, step)
  {
    match step
    case Connect(r, lines) => s.(readers := s.readers[r := Reader(lines, 0, Ready)])
    case Offer(r) => s.(readers := s.readers[r := s.readers[r].(phase := Offering)])
    case Take(r) =>
      s.(readers := s.readers[r := s.readers[r].(phase := Unacknowledged)],
         hand := [r], log := s.log + [Taken(r, s.readers[r].line)])
    case Ack =>
      var r := s.hand[0];
      s.(readers := s.readers[r := s.readers[r].(line := s.readers[r].line + 1, phase := Ready)],
         hand := [], log := s.log + [Acked(r, s.readers[r].line)])
    case StartSession(id) => s.(live := s.live + {id})
    case StopSession(id) => s.(live := s.live - {id})
  }

  ghost predicate Legal(s: State, steps: seq<Step>)
    decreases |steps|
  {
    steps == [] || (Enabled(s, steps[0]) && Legal(Next(s, steps[0]), steps[1..]))
  }

  ghost function Exec(s: State, steps: seq<Step>): State
    requires Legal(s, steps)
    decreases |steps|
  {
    if steps == [] then s else Exec(Next(s, steps[0]), steps[1..])
  }

  ghost predicate Waits(s: State, r: nat) {
    r in s.readers && s.readers[r].phase.Unacknowledged?
  }

  /** Taking and acknowledging alternate, and an acknowledgement is for the message taken before it. */
  ghost predicate Alternates(log: seq<Event>) {
    && (forall n :: 0 <= n < |log| ==> (log[n].Taken? <==> n % 2 == 0))
    && (forall n :: 0 < n < |log| && log[n].Acked? ==>
          log[n].reader == log[n - 1].reader && log[n].line == log[n - 1].line)
  }

  /** A reader's lines are acknowledged one after the other, from 0. */
  ghost predicate AckedBefore(log: seq<Event>, r: nat, line: nat) {
    forall l: nat :: l < line ==> Acked(r, l) in log
  }

  ghost predicate InOrder(log: seq<Event>) {
    forall n :: 0 <= n < |log| && log[n].Taken? ==> AckedBefore(log[..n], log[n].reader, log[n].line)
  }

  ghost predicate Once(log: seq<Event>) {
    forall n, m :: 0 <= n < m < |log| ==> log[n] != log[m]
  }

  /** Which events a reader at this point can have behind it. */
  ghost predicate ReaderOk(s: State, r: nat)
    requires r in s.readers
  {
    && AckedBefore(s.log, r, s.readers[r].line)
    && (s.readers[r].phase.Unacknowledged? <==> s.hand == [r])
  }

  /** Nothing has happened that the readers have not got to. */
  ghost predicate EventOk(s: State, e: Event) {
    && e.reader in s.readers
    && (if e.Acked? then e.line < s.readers[e.reader].line
        else e.line < s.readers[e.reader].line
             || (e.line == s.readers[e.reader].line && s.hand == [e.reader]))
  }

  ghost predicate Inv(s: State) {
    && |s.hand| <= 1 && |s.log| % 2 == |s.hand|
    && (forall r :: r in s.readers ==> ReaderOk(s, r))
    && (forall n :: 0 <= n < |s.log| ==> EventOk(s, s.log[n]))
    && (s.hand != [] ==>
          && s.hand[0] in s.readers && s.readers[s.hand[0]].phase.Unacknowledged?
          && s.log[|s.log| - 1] == Taken(s.hand[0], s.readers[s.hand[0]].line))
    && Alternates(s.log) && InOrder(s.log) && Once(s.log)
  }

  lemma AckedStays(log: seq<Event>, e: Event, r: nat, line: nat)
    requires AckedBefore(log, r, line)
    ensures AckedBefore(log + [e], r, line)
  {
    forall l: nat | l < line ensures Acked(r, l) in log + [e] {
      assert Acked(r, l) in log;
    }
  }

  lemma OrderStays(log: seq<Event>, e: Event)
    requires InOrder(log) && (e.Taken? ==> AckedBefore(log, e.reader, e.line))
    ensures InOrder(log + [e])
  {
    var more := log + [e];
    forall n | 0 <= n < |more| && more[n].Taken? ensures AckedBefore(more[..n], more[n].reader, more[n].line) {
      assert more[..n] == log[..n];
      if n == |log| { assert log[..n] == log; }
    }
  }

  lemma InvTake(s: State, r: nat)
    requires Inv(s) && Enabled(s, Take(r))
    ensures Inv(Next(s, Take(r)))
  {
    var s' := Next(s, Take(r));
    var e := Taken(r, s.readers[r].line);
    assert ReaderOk(s, r);
    OrderStays(s.log, e);
    forall q | q in s'.readers ensures ReaderOk(s', q) {
      assert ReaderOk(s, q);
      AckedStays(s.log, e, q, s.readers[q].line);
    }
    forall n | 0 <= n < |s'.log| ensures EventOk(s', s'.log[n]) {
      if n < |s.log| { assert EventOk(s, s.log[n]); }
    }
    forall n | 0 <= n < |s.log| ensures s.log[n] != e {
      assert EventOk(s, s.log[n]);
    }
  }

  lemma AckReaders(s: State)
    requires Inv(s) && Enabled(s, Ack)
    ensures forall q :: q in Next(s, Ack).readers ==> ReaderOk(Next(s, Ack), q)
  {
    var s' := Next(s, Ack);
    var r := s.hand[0];
    var line := s.readers[r].line;
    var e := Acked(r, line);
    forall q | q in s'.readers ensures ReaderOk(s', q) {
      assert ReaderOk(s, q);
      AckedStays(s.log, e, q, s.readers[q].line);
      if q == r {
        forall l: nat | l < line + 1 ensures Acked(r, l) in s'.log {
          if l == line { assert s'.log[|s.log|] == e; }
        }
      }
    }
  }

  lemma AckEvents(s: State)
    requires Inv(s) && Enabled(s, Ack)
    ensures var s' := Next(s, Ack);
            (forall n :: 0 <= n < |s'.log| ==> EventOk(s', s'.log[n])) && Once(s'.log)
  {
    var s' := Next(s, Ack);
    forall n | 0 <= n < |s'.log| ensures EventOk(s', s'.log[n]) {
      if n < |s.log| { assert EventOk(s, s.log[n]); }
    }
    forall n | 0 <= n < |s.log| ensures s.log[n] != s'.log[|s.log|] {
      assert EventOk(s, s.log[n]);
    }
  }

  lemma AckAlternates(log: seq<Event>, r: nat, line: nat)
    requires Alternates(log) && |log| % 2 == 1 && log[|log| - 1] == Taken(r, line)
    ensures Alternates(log + [Acked(r, line)])
  {
    var more := log + [Acked(r, line)];
    forall n | 0 <= n < |more| ensures more[n].Taken? <==> n % 2 == 0 {
      if n < |log| { assert more[n] == log[n]; }
    }
  }

  lemma InvAck(s: State)
    requires Inv(s) && Enabled(s, Ack)
    ensures Inv(Next(s, Ack))
  {
    OrderStays(s.log, Acked(s.hand[0], s.readers[s.hand[0]].line));
    AckReaders(s);
    AckEvents(s);
    AckAlternates(s.log, s.hand[0], s.readers[s.hand[0]].line);
  }

  lemma InvControl(s: State, s': State)
    requires Inv(s) && s' == s.(live := s'.live)
    ensures Inv(s')
  {
    forall q | q in s'.readers ensures ReaderOk(s', q) {
      assert ReaderOk(s, q);
    }
    forall n | 0 <= n < |s'.log| ensures EventOk(s', s'.log[n]) {
      assert EventOk(s, s.log[n]);
    }
  }

  lemma InvNext(s: State, step: Step)
    requires Inv(s) && Enabled(s, step)
    ensures Inv(Next(s, step))
  {
    var s' := Next(s, step);
    match step
    case Take(r) => InvTake(s, r);
    case Ack => InvAck(s);
    case StartSession(_) => InvControl(s, s');
    case StopSession(_) => InvControl(s, s');
    case Connect(_, _) =>
      forall q | q in s'.readers ensures ReaderOk(s', q) {
        if q in s.readers { assert ReaderOk(s, q); }
      }
      forall n | 0 <= n < |s'.log| ensures EventOk(s', s'.log[n]) {
        assert EventOk(s, s.log[n]);
      }
    case Offer(_) =>
      forall q | q in s'.readers ensures ReaderOk(s', q) {
        assert ReaderOk(s, q);
      }
      forall n | 0 <= n < |s'.log| ensures EventOk(s', s'.log[n]) {
        assert EventOk(s, s.log[n]);
      }
  }

  lemma InvExec(s: State, steps: seq<Step>)
    requires Inv(s) && Legal(s, steps)
    ensures Inv(Exec(s, steps))
    decreases |steps|
  {
    if steps != [] {
      InvNext(s, steps[0]);
      InvExec(Next(s, steps[0]), steps[1..]);
    }
  }

  /**
   However many readers share a handler loop, it acknowledges each message it takes, once, before it
   takes another; it has at most one message in hand; and a reader's next message is taken only
   after all its earlier ones were acknowledged.
   */
  lemma AcknowledgedOnceBeforeNext(steps: seq<Step>)
    requires Legal(START, steps)
    ensures var s := Exec(START, steps);
            && Records(s.log, LoopSteps(steps))
            && Alternates(s.log) && Once(s.log) && InOrder(s.log) && |s.hand| <= 1
            && (forall r, q :: Waits(s, r) && Waits(s, q) ==> r == q)
  {
    InvExec(START, steps);
    RecordsExec(START, steps, []);
    assert [] + LoopSteps(steps) == LoopSteps(steps);
    var s := Exec(START, steps);
    forall r, q | Waits(s, r) && Waits(s, q) ensures r == q {
      assert ReaderOk(s, r) && ReaderOk(s, q);
    }
  }

  /** The steps in which the loop takes a message from a reader or acknowledges one. */
  predicate IsLoopStep(step: Step) { step.Take? || step.Ack? }

  function LoopSteps(steps: seq<Step>): seq<Step> {
    if steps == [] then [] else (if IsLoopStep(steps[0]) then [steps[0]] else []) + LoopSteps(steps[1..])
  }

  /** The log records exactly the loop's steps of a run, each as what it is and for the reader it names. */
  ghost predicate Records(log: seq<Event>, steps: seq<Step>) {
    && |log| == |steps|
    && forall n :: 0 <= n < |log| ==>
                     if steps[n].Take? then log[n].Taken? && log[n].reader == steps[n].reader
                     else steps[n].Ack? && log[n].Acked?
  }

  lemma RecordsNext(s: State, step: Step, so: seq<Step>)
    requires Enabled(s, step) && Records(s.log, so)
    ensures Records(Next(s, step).log, if IsLoopStep(step) then so + [step] else so)
  {
  }

  lemma RecordsExec(s: State, steps: seq<Step>, so: seq<Step>)
    requires Legal(s, steps) && Records(s.log, so)
    ensures Records(Exec(s, steps).log, so + LoopSteps(steps))
    decreases |steps|
  {
    if steps == [] {
      assert so + [] == so;
    } else {
      var more := if IsLoopStep(steps[0]) then so + [steps[0]] else so;
      RecordsNext(s, steps[0], so);
      RecordsExec(Next(s, steps[0]), steps[1..], more);
      OneStepLess(so, steps);
    }
  }

  lemma OneStepLess(so: seq<Step>, steps: seq<Step>)
    requires steps != []
    ensures (if IsLoopStep(steps[0]) then so + [steps[0]] else so) + LoopSteps(steps[1..]) == so + LoopSteps(steps)
  {
    var rest := LoopSteps(steps[1..]);
    assert so + [steps[0]] + rest == so + ([steps[0]] + rest);
    assert [] + rest == rest;
  }

  // ----- what the loop gets from one reader

  /** The messages taken from reader `r`, oldest first. */
  function TakenFrom(log: seq<Event>, r: nat, lines: seq<string>): seq<string> {
    if log == [] then []
    else
      var last := log[|log| - 1];
      TakenFrom(log[..|log| - 1], r, lines)
      + (if last == Taken(r, last.line) && last.line < |lines| then [lines[last.line]] else [])
  }

  lemma TakenOneMore(log: seq<Event>, e: Event, r: nat, lines: seq<string>)
    ensures TakenFrom(log + [e], r, lines)
            == TakenFrom(log, r, lines)
               + (if e == Taken(r, e.line) && e.line < |lines| then [lines[e.line]] else [])
  {
    assert (log + [e])[..|log|] == log;
  }

  lemma {:induction false} TakenFromNone(log: seq<Event>, r: nat, lines: seq<string>)
    requires forall n :: 0 <= n < |log| ==> log[n].reader != r
    ensures TakenFrom(log, r, lines) == []
  {
    if log != [] { TakenFromNone(log[..|log| - 1], r, lines); }
  }

  /** How many messages of a reader the loop has taken. */
  function Count(reader: Reader): nat {
    reader.line + (if reader.phase.Unacknowledged? then 1 else 0)
  }

  ghost predicate PrefixOk(s: State, r: nat)
    requires r in s.readers
  {
    var it := s.readers[r];
    && Count(it) <= |it.lines| && (it.phase.Offering? ==> it.line < |it.lines|)
    && TakenFrom(s.log, r, it.lines) == it.lines[..Count(it)]
  }

  ghost predicate PrefixesOk(s: State) {
    forall r :: r in s.readers ==> PrefixOk(s, r)
  }

  lemma PrefixTake(s: State, q: nat, r: nat)
    requires Enabled(s, Take(q)) && r in s.readers && PrefixOk(s, r)
    ensures PrefixOk(Next(s, Take(q)), r)
  {
    TakenOneMore(s.log, Taken(q, s.readers[q].line), r, s.readers[r].lines);
  }

  lemma PrefixAck(s: State, r: nat)
    requires Enabled(s, Ack) && s.readers[s.hand[0]].phase.Unacknowledged? && r in s.readers && PrefixOk(s, r)
    ensures PrefixOk(Next(s, Ack), r)
  {
    TakenOneMore(s.log, Acked(s.hand[0], s.readers[s.hand[0]].line), r, s.readers[r].lines);
  }

  lemma PrefixConnect(s: State, q: nat, lines: seq<string>, r: nat)
    requires Inv(s) && PrefixesOk(s) && Enabled(s, Connect(q, lines)) && (r in s.readers || r == q)
    ensures PrefixOk(Next(s, Connect(q, lines)), r)
  {
    if r == q {
      forall n | 0 <= n < |s.log| ensures s.log[n].reader != r {
        assert EventOk(s, s.log[n]);
      }
      TakenFromNone(s.log, r, lines);
    } else {
      assert PrefixOk(s, r);
    }
  }

  lemma PrefixNext(s: State, step: Step, r: nat)
    requires Inv(s) && PrefixesOk(s) && Enabled(s, step) && r in Next(s, step).readers
    ensures PrefixOk(Next(s, step), r)
  {
    assert r in s.readers ==> PrefixOk(s, r);
    match step
    case Take(q) => PrefixTake(s, q, r);
    case Ack => PrefixAck(s, r);
    case Connect(q, lines) => PrefixConnect(s, q, lines, r);
    case _ =>
  }

  lemma PrefixExec(s: State, steps: seq<Step>)
    requires Inv(s) && PrefixesOk(s) && Legal(s, steps)
    ensures PrefixesOk(Exec(s, steps))
    decreases |steps|
  {
    if steps != [] {
      forall r | r in Next(s, steps[0]).readers ensures PrefixOk(Next(s, steps[0]), r) {
        PrefixNext(s, steps[0], r);
      }
      InvNext(s, steps[0]);
      PrefixExec(Next(s, steps[0]), steps[1..]);
    }
  }

  /**
   A StdIO reader over what a peer has written, among any other readers: in every run, the messages
   the handler loop takes from it are the first of those the peer sent, in order, none left out and
   none twice, if all of them survive framing.
   */
  lemma LoopTakesWhatWasSent(
    steps: seq<Step>, r: nat, decodes: StdIO.Decodes, messages: seq<string>)
    requires Legal(START, steps) && r in Exec(START, steps).readers
    requires Exec(START, steps).readers[r].lines == StdIO.Recovered(decodes, StdIO.Frames(messages))
    requires forall n :: 0 <= n < |messages| ==> StdIO.Framable(messages[n]) && decodes(messages[n])
    ensures var s := Exec(START, steps);
            Count(s.readers[r]) <= |messages| && TakenFrom(s.log, r, messages) == messages[..Count(s.readers[r])]
  {
    StdIO.FramingRoundTrip(decodes, messages);
    PrefixExec(START, steps);
    assert PrefixOk(Exec(START, steps), r);
  }
}
