/**
 The StdIO transport: one message per line.  `Send` appends an encoded message and a newline;
 `Start` scans lines with the limits of Go's line scanner and forwards those that decode.
 */
module StdIO {

  /** `bufio.MaxScanTokenSize`: a line must be shorter than this, carriage return included. */
  const MAX_TOKEN := 65536

  const LF := '\n'
  const CR := '\r'

  // ----- scanning, as a function

  function LineEnd(input: string): (e: nat)
    ensures e <= |input|
    ensures forall i :: 0 <= i < e ==> input[i] != LF
    ensures e < |input| ==> input[e] == LF
  {
    if input == "" || input[0] == LF then 0 else 1 + LineEnd(input[1..])
  }

  function DropCR(line: string): string {
    if line != "" && line[|line| - 1] == CR then line[..|line| - 1] else line
  }

  /** The lines the scanner yields before the input ends or a line is too long. */
  function ScanLines(input: string): seq<string> {
    if input == "" || LineEnd(input) >= MAX_TOKEN then []
    else
      var e := LineEnd(input);
      [DropCR(input[..e])] + (if e < |input| then ScanLines(input[e + 1..]) else [])
  }

  type Decodes = string -> bool

  /** The lines that are forwarded: not empty, and decodable. */
  function Keep(decodes: Decodes, lines: seq<string>): seq<string> {
    if lines == [] then []
    else (if lines[0] != "" && decodes(lines[0]) then [lines[0]] else []) + Keep(decodes, lines[1..])
  }

  function Recovered(decodes: Decodes, input: string): seq<string> {
    Keep(decodes, ScanLines(input))
  }

  // ----- the transport

  class Transport {
    var written: string

    constructor ()
      ensures written == ""
    {
      written := "";
    }

    /** Writes one message; `room` is how much the writer takes before it reports an error. */
    method Send(encoded: string, room: nat) returns (ok: bool)
      modifies this
      ensures ok <==> |Frame(encoded)| <= room
      ensures written == old(written) + (if ok then Frame(encoded) else Frame(encoded)[..room])
    {
      var bytes := encoded + [LF];
      if |bytes| > room {
        written := written + bytes[..room];
        return false;
      }
      written := written + bytes;
      return true;
    }

    /** Sends messages one after the other, up to the first write that fails; `n` is how many got out. */
    method SendAll(messages: seq<string>, rooms: seq<nat>) returns (n: nat)
      requires |rooms| == |messages|
      modifies this
      ensures n <= |messages|
      ensures forall i :: 0 <= i < n ==> |Frame(messages[i])| <= rooms[i]
      ensures n < |messages| ==> rooms[n] < |Frame(messages[n])|
      ensures written == old(written) + Frames(messages[..n])
                         + (if n < |messages| then Frame(messages[n])[..rooms[n]] else "")
    {
      n := 0;
      while n < |messages|
        invariant n <= |messages| && written == old(written) + Frames(messages[..n])
        invariant forall i :: 0 <= i < n ==> |Frame(messages[i])| <= rooms[i]
      {
        FramesOneMore(messages[..n], messages[n]);
        assert messages[..n + 1] == messages[..n] + [messages[n]];
        var ok := Send(messages[n], rooms[n]);
        if !ok { return; }
        n := n + 1;
      }
    }
  }

  function Frame(encoded: string): string { encoded + [LF] }

  function Frames(messages: seq<string>): string {
    if messages == [] then "" else Frame(messages[0]) + Frames(messages[1..])
  }

  lemma {:induction false} FramesOneMore(messages: seq<string>, last: string)
    ensures Frames(messages + [last]) == Frames(messages) + Frame(last)
  {
    if messages != [] {
      var all := messages + [last];
      assert all[0] == messages[0] && all[1..] == messages[1..] + [last];
      FramesOneMore(messages[1..], last);
      assert Frames(all) == Frame(messages[0]) + (Frames(messages[1..]) + Frame(last));
    }
  }

  /** The end of the line that starts at `pos`. */
  method FindLineEnd(input: string, pos: nat) returns (end: nat)
    requires pos <= |input|
    ensures pos <= end <= |input| && end == pos + LineEnd(input[pos..])
  {
    end := pos;
    while end < |input| && input[end] != LF
      invariant pos <= end <= |input|
      invariant forall i :: pos <= i < end ==> input[i] != LF
    {
      end := end + 1;
    }
    LineEndIs(input[pos..], end - pos);
  }

  /** What is left after the line at the front. */
  function AfterLine(input: string): string {
    if LineEnd(input) < |input| then input[LineEnd(input) + 1..] else ""
  }

  lemma ScanFirst(input: string)
    requires input != ""
    ensures ScanLines(input)
            == if LineEnd(input) >= MAX_TOKEN then []
               else [DropCR(input[..LineEnd(input)])] + ScanLines(AfterLine(input))
  {
  }

  lemma KeepFirst(decodes: Decodes, line: string, lines: seq<string>)
    ensures Keep(decodes, [line] + lines)
            == (if line != "" && decodes(line) then [line] else []) + Keep(decodes, lines)
  {
    assert ([line] + lines)[1..] == lines;
  }

  /** Scanning one line of what is left. */
  lemma RecoverLine(decodes: Decodes, rest: string, e: nat, after: string)
    requires rest != "" && e == LineEnd(rest) && after == AfterLine(rest)
    ensures var line := DropCR(rest[..e]);
            Recovered(decodes, rest)
            == if e >= MAX_TOKEN then []
               else (if line != "" && decodes(line) then [line] else []) + Recovered(decodes, after)
  {
    ScanFirst(rest);
    KeepFirst(decodes, DropCR(rest[..e]), ScanLines(after));
  }

  /** Reads the whole input, line by line, and forwards what decodes. */
  method Start(input: string, decodes: Decodes) returns (forwarded: seq<string>)
    ensures forwarded == Recovered(decodes, input)
  {
    forwarded := [];
    var pos := 0;
    ghost var all := Recovered(decodes, input);
    ghost var left := all;
    assert input[0..] == input;
    while pos < |input|
      invariant 0 <= pos <= |input|
      invariant left == Recovered(decodes, input[pos..])
      invariant forwarded + left == all
    {
      var end := FindLineEnd(input, pos);
      var next := if end < |input| then end + 1 else end;
      var line := DropCR(input[pos..end]);
      RecoverSlice(decodes, input, pos, end, next);
      if end - pos >= MAX_TOKEN {
        return;
      }
      pos := next;
      var kept := if line != "" && decodes(line) then [line] else [];
      Regroup(forwarded, kept, Recovered(decodes, input[pos..]));
      left := Recovered(decodes, input[pos..]);
      forwarded := forwarded + kept;
    }
    assert input[pos..] == "";
  }

  lemma Regroup<T>(a: seq<T>, b: seq<T>, c: seq<T>)
    ensures a + (b + c) == (a + b) + c
  {
  }

  lemma RecoverSlice(decodes: Decodes, input: string, pos: nat, end: nat, next: nat)
    requires pos < |input| && pos <= end <= |input| && end == pos + LineEnd(input[pos..])
    requires next == if end < |input| then end + 1 else end
    ensures var line := DropCR(input[pos..end]);
            Recovered(decodes, input[pos..])
            == if end - pos >= MAX_TOKEN then []
               else (if line != "" && decodes(line) then [line] else []) + Recovered(decodes, input[next..])
  {
    var rest := input[pos..];
    assert rest[..end - pos] == input[pos..end];
    assert input[next..] == if end - pos < |rest| then rest[end - pos + 1..] else "";
    RecoverLine(decodes, rest, end - pos, input[next..]);
  }

  lemma {:induction false} LineEndIs(input: string, e: nat)
    requires e <= |input| && (forall i :: 0 <= i < e ==> input[i] != LF) && (e < |input| ==> input[e] == LF)
    ensures LineEnd(input) == e
  {
    if e > 0 { LineEndIs(input[1..], e - 1); }
  }

  // ----- the round trip, and exactly when it holds

  /** A message that survives framing. */
  ghost predicate Framable(m: string) {
    && m != "" && |m| < MAX_TOKEN && m[|m| - 1] != CR
    && forall i :: 0 <= i < |m| ==> m[i] != LF
  }

  lemma ScanFrame(m: string, rest: string)
    requires forall i :: 0 <= i < |m| ==> m[i] != LF
    ensures ScanLines(Frame(m) + rest) == if |m| >= MAX_TOKEN then [] else [DropCR(m)] + ScanLines(rest)
  {
    var input := Frame(m) + rest;
    assert input[|m|] == LF;
    LineEndIs(input, |m|);
    assert input[..|m|] == m && input[|m| + 1..] == rest;
  }

  lemma {:induction false} FramedLines(messages: seq<string>)
    requires forall n, i :: 0 <= n < |messages| && 0 <= i < |messages[n]| ==> messages[n][i] != LF
    requires forall n :: 0 <= n < |messages| ==> |messages[n]| < MAX_TOKEN
    ensures |ScanLines(Frames(messages))| == |messages|
    ensures forall n :: 0 <= n < |messages| ==> ScanLines(Frames(messages))[n] == DropCR(messages[n])
  {
    if messages != [] {
      ScanFrame(messages[0], Frames(messages[1..]));
      FramedLines(messages[1..]);
    }
  }

  lemma {:induction false} KeepAll(decodes: Decodes, lines: seq<string>)
    ensures |Keep(decodes, lines)| <= |lines|
    ensures |Keep(decodes, lines)| == |lines| <==>
              forall n :: 0 <= n < |lines| ==> lines[n] != "" && decodes(lines[n])
    ensures |Keep(decodes, lines)| == |lines| ==> Keep(decodes, lines) == lines
  {
    if lines != [] {
      KeepAll(decodes, lines[1..]);
      assert forall n :: 1 <= n < |lines| ==> lines[n] == lines[1..][n - 1];
    }
  }

  lemma {:induction false} KeptIsLine(decodes: Decodes, lines: seq<string>, n: nat)
    requires n < |Keep(decodes, lines)|
    ensures Keep(decodes, lines)[n] in lines && Keep(decodes, lines)[n] != "" && decodes(Keep(decodes, lines)[n])
  {
    var kept := lines[0] != "" && decodes(lines[0]);
    if !kept || n > 0 {
      KeptIsLine(decodes, lines[1..], if kept then n - 1 else n);
      assert forall x :: x in lines[1..] ==> x in lines;
    }
  }

  lemma {:induction false} LinesAreShort(input: string, line: string)
    requires line in ScanLines(input)
    ensures |line| < MAX_TOKEN && forall i :: 0 <= i < |line| ==> line[i] != LF
    decreases |input|
  {
    ScanFirst(input);
    if line != DropCR(input[..LineEnd(input)]) {
      assert line in ScanLines(AfterLine(input));
      LinesAreShort(AfterLine(input), line);
    }
  }

  /**
   What `Start` recovers from what `Send` wrote is the messages in order, if and only if every
   message decodes, is not empty, has no line feed, does not end in a carriage return, and is
   shorter than the scanner's limit.
   */
  lemma FramingRoundTrip(decodes: Decodes, messages: seq<string>)
    ensures Recovered(decodes, Frames(messages)) == messages <==>
              forall n :: 0 <= n < |messages| ==> Framable(messages[n]) && decodes(messages[n])
  {
    if forall n :: 0 <= n < |messages| ==> Framable(messages[n]) && decodes(messages[n]) {
      FramedLines(messages);
      assert ScanLines(Frames(messages)) == messages;
      KeepAll(decodes, messages);
    }
    if Recovered(decodes, Frames(messages)) == messages {
      RoundTripIsFramable(decodes, messages);
    }
  }

  lemma RoundTripIsFramable(decodes: Decodes, messages: seq<string>)
    requires Recovered(decodes, Frames(messages)) == messages
    ensures forall n :: 0 <= n < |messages| ==> Framable(messages[n]) && decodes(messages[n])
  {
    var lines := ScanLines(Frames(messages));
    forall n | 0 <= n < |messages|
      ensures messages[n] != "" && decodes(messages[n]) && |messages[n]| < MAX_TOKEN
      ensures forall i :: 0 <= i < |messages[n]| ==> messages[n][i] != LF
    {
      KeptIsLine(decodes, lines, n);
      LinesAreShort(Frames(messages), messages[n]);
    }
    FramedLines(messages);
    KeepAll(decodes, lines);
    assert lines == messages;
  }

  /**
   Whatever follows in the stream, such as the rest of a write that failed: messages that survive
   framing and were written whole are recovered first, in order, and only then what follows.
   */
  lemma {:induction false} WholeMessagesSurvive(decodes: Decodes, messages: seq<string>, rest: string)
    requires forall n :: 0 <= n < |messages| ==> Framable(messages[n]) && decodes(messages[n])
    ensures Recovered(decodes, Frames(messages) + rest) == messages + Recovered(decodes, rest)
  {
    if messages == [] {
      assert Frames(messages) + rest == rest;
    } else {
      Regroup(Frame(messages[0]), Frames(messages[1..]), rest);
      RecoverFrame(decodes, messages[0], Frames(messages[1..]) + rest);
      WholeMessagesSurvive(decodes, messages[1..], rest);
      assert [messages[0]] + messages[1..] == messages;
      Regroup([messages[0]], messages[1..], Recovered(decodes, rest));
    }
  }

  lemma RecoverFrame(decodes: Decodes, m: string, rest: string)
    requires Framable(m) && decodes(m)
    ensures Recovered(decodes, Frame(m) + rest) == [m] + Recovered(decodes, rest)
  {
    ScanFrame(m, rest);
    assert ([m] + ScanLines(rest))[1..] == ScanLines(rest);
  }
  /** The scanner's limit in numbers: the longest line that is forwarded has 65535 characters. */
  lemma LineLimit(decodes: Decodes, m: string)
    requires decodes(m) && (forall i :: 0 <= i < |m| ==> m[i] != '\n') && (m != "" ==> m[|m| - 1] != '\r')
    ensures |m| == 65535 ==> Recovered(decodes, Frame(m)) == [m]
    ensures |m| == 65536 ==> Recovered(decodes, Frame(m)) == []
  {
    ScanFrame(m, "");
    assert Frame(m) + "" == Frame(m);
    if |m| == 65535 {
      RecoverFrame(decodes, m, "");
      assert [m] + [] == [m];
    }
  }

  /** `at` lists, in order, exactly the places of the lines that are forwarded. */
  ghost predicate Places(decodes: Decodes, lines: seq<string>, at: seq<nat>) {
    && (forall k :: 0 <= k < |at| ==> at[k] < |lines| && lines[at[k]] != "" && decodes(lines[at[k]]))
    && (forall k, l :: 0 <= k < l < |at| ==> at[k] < at[l])
    && (forall i: nat :: i < |lines| && lines[i] != "" && decodes(lines[i]) ==> i in at)
  }

  /** What is kept are the lines at those places: a bad line is skipped, and those after it are not lost. */
  lemma {:induction false} KeptPlaces(decodes: Decodes, lines: seq<string>) returns (at: seq<nat>)
    ensures Places(decodes, lines, at) && |at| == |Keep(decodes, lines)|
    ensures forall k :: 0 <= k < |at| ==> Keep(decodes, lines)[k] == lines[at[k]]
  {
    at := [];
    if lines != [] {
      var n := |lines| - 1;
      KeepAppend(decodes, lines[..n], lines[n]);
      at := KeptPlaces(decodes, lines[..n]);
      assert lines == lines[..n] + [lines[n]];
      if lines[n] != "" && decodes(lines[n]) { at := at + [n]; }
    }
  }

  lemma {:induction false} KeepAppend(decodes: Decodes, lines: seq<string>, line: string)
    ensures Keep(decodes, lines + [line])
            == Keep(decodes, lines) + (if line != "" && decodes(line) then [line] else [])
  {
    if lines == [] {
      assert [] + [line] == [line];
    } else {
      var all := lines + [line];
      assert all[0] == lines[0] && all[1..] == lines[1..] + [line];
      KeepAppend(decodes, lines[1..], line);
    }
  }

  /**
   Whatever lines a peer writes, none of them too long: those that are forwarded are exactly the ones
   that are not empty and decode once a carriage return at the end is dropped, in order.
   */
  lemma LinesAreRecovered(decodes: Decodes, lines: seq<string>, bare: seq<string>) returns (at: seq<nat>)
    requires forall n, i :: 0 <= n < |lines| && 0 <= i < |lines[n]| ==> lines[n][i] != LF
    requires forall n :: 0 <= n < |lines| ==> |lines[n]| < MAX_TOKEN
    requires |bare| == |lines| && forall n :: 0 <= n < |lines| ==> Bare(lines[n], bare[n])
    ensures Places(decodes, bare, at) && |at| == |Recovered(decodes, Frames(lines))|
    ensures forall k :: 0 <= k < |at| ==> Recovered(decodes, Frames(lines))[k] == bare[at[k]]
  {
    FramedLines(lines);
    assert ScanLines(Frames(lines)) == bare;
    at := KeptPlaces(decodes, bare);
  }

  /** `bare` is the line without the carriage return at its end, if it has one. */
  ghost predicate Bare(line: string, bare: string) {
    line == bare + "\r" || (line == bare && (line != "" ==> line[|line| - 1] != '\r'))
  }
}
