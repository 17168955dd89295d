/**
 Cursor pagination of the everything server's resource list: a cursor is the decimal index of the
 next page, and a page is a slice that panics when its bounds are out of order.
 */
module Pagination {

  const MAX_INT := 0x7FFF_FFFF_FFFF_FFFF

  // ----- decimal numbers

  predicate IsDigit(c: char) { '0' <= c <= '9' }

  predicate AllDigits(s: string) { s != "" && forall i :: 0 <= i < |s| ==> IsDigit(s[i]) }

  function Digit(d: nat): char
    requires d < 10
  {
    ('0' as int + d) as char
  }

  function Print(n: nat): (s: string)
    ensures AllDigits(s)
  {
    if n < 10 then [Digit(n)] else Print(n / 10) + [Digit(n % 10)]
  }

  function DigitsValue(s: string): nat
    requires forall i :: 0 <= i < |s| ==> IsDigit(s[i])
  {
    if s == "" then 0
    else
      assert IsDigit(s[|s| - 1]);
      10 * DigitsValue(s[..|s| - 1]) + (s[|s| - 1] as int - '0' as int)
  }

  function Clamp(n: int): int {
    if n > MAX_INT then MAX_INT else if n < -MAX_INT - 1 then -MAX_INT - 1 else n
  }

  /** The integer that `strconv.Atoi` returns, ignoring its error: 0 on bad syntax, else clamped. */
  function Atoi(s: string): int {
    var negative := s != "" && s[0] == '-';
    var digits := if s != "" && (s[0] == '-' || s[0] == '+') then s[1..] else s;
    if !AllDigits(digits) then 0
    else if negative then Clamp(0 - DigitsValue(digits)) else Clamp(DigitsValue(digits))
  }

  lemma {:induction false} PrintedValue(n: nat)
    ensures DigitsValue(Print(n)) == n
  {
    if n >= 10 {
      PrintedValue(n / 10);
      assert Print(n)[..|Print(n)| - 1] == Print(n / 10);
    }
  }

  /** Printing an index and parsing it back gives the index. */
  lemma PrintParse(n: nat)
    requires n <= MAX_INT
    ensures Atoi(Print(n)) == n && Print(n) != ""
  {
    PrintedValue(n);
    assert IsDigit(Print(n)[0]);
  }

  lemma {:induction false} DigitsOfZeros(s: string)
    requires AllDigits(s)
    ensures DigitsValue("0" + s) == DigitsValue(s)
  {
    var all := "0" + s;
    if |s| == 1 {
      assert all[..1] == "0" && s[..0] == "" && DigitsValue("0") == 0;
      assert "0"[..0] == "";
    } else {
      assert all[..|all| - 1] == "0" + s[..|s| - 1];
      DigitsOfZeros(s[..|s| - 1]);
    }
  }

  lemma AtoiOfSigned(digits: string)
    requires AllDigits(digits)
    ensures Atoi(digits) == Clamp(DigitsValue(digits)) && Atoi("+" + digits) == Clamp(DigitsValue(digits))
    ensures Atoi("-" + digits) == Clamp(0 - DigitsValue(digits))
  {
    assert IsDigit(digits[0]);
    assert ("+" + digits)[1..] == digits && ("-" + digits)[1..] == digits;
  }

  /** Anything that is not decimal digits, with or without a sign, is read as 0. */
  lemma AtoiOfOther(s: string)
    requires !AllDigits(s)
    ensures Atoi("-" + s) == 0 && Atoi("+" + s) == 0
    ensures s == "" || (s[0] != '-' && s[0] != '+') ==> Atoi(s) == 0
  {
    assert ("+" + s)[1..] == s && ("-" + s)[1..] == s;
  }

  /** A cursor is read as a signed decimal number, with leading zeros, up to the ends of 64 bits. */
  lemma AtoiReads(n: nat)
    ensures Atoi(Print(n)) == (if n <= 0x7FFF_FFFF_FFFF_FFFF then n else 0x7FFF_FFFF_FFFF_FFFF)
    ensures Atoi("+" + Print(n)) == Atoi(Print(n)) && Atoi("0" + Print(n)) == Atoi(Print(n))
    ensures Atoi("-" + Print(n)) == (if n <= 0x8000_0000_0000_0000 then 0 - n else -0x8000_0000_0000_0000)
  {
    PrintedValue(n);
    AtoiOfSigned(Print(n));
    DigitsOfZeros(Print(n));
    AtoiOfSigned("0" + Print(n));
  }

  // ----- one page

  datatype Outcome<T> = Page(items: seq<T>, next: string) | Panic

  /** 64-bit addition of a non-negative `b`: it wraps around above the largest integer. */
  function Plus(a: int, b: nat): int {
    if a + b > MAX_INT then a + b - 2 * (MAX_INT + 1) else a + b
  }

  function StartOf(cursor: string): int {
    if cursor == "" then 0 else Atoi(cursor)
  }

  /** What one call returns, or that its slice panics. */
  function PageAt<T>(resources: seq<T>, pageSize: nat, cursor: string): Outcome<T> {
    var start, unbounded := StartOf(cursor), Plus(StartOf(cursor), pageSize);
    var end := if unbounded > |resources| then |resources| else unbounded;
    if 0 <= start <= end
    then Page(resources[start..end], if end < |resources| then Print(end) else "")
    else Panic
  }

  /**
   The page at a cursor.  The slice panics exactly when the cursor is an index outside the list, or
   so far up that adding the page size wraps around.
   */
  method ListResources<T>(resources: seq<T>, pageSize: nat, cursor: string) returns (r: Outcome<T>)
    requires |resources| <= MAX_INT && pageSize <= MAX_INT
    ensures r == PageAt(resources, pageSize, cursor)
    ensures r.Panic? <==> !(0 <= StartOf(cursor) <= |resources|) || StartOf(cursor) + pageSize > MAX_INT
    ensures r.Page? ==>
              var start := StartOf(cursor);
              var end := start + |r.items|;
              && end <= |resources| && r.items == resources[start..end] && |r.items| <= pageSize
              && (r.next == "" <==> end == |resources|)
              && (r.next != "" ==> |r.items| == pageSize && Atoi(r.next) == end)
  {
    var startIndex := 0;
    if cursor != "" {
      startIndex := Atoi(cursor);
    }
    var endIndex := Plus(startIndex, pageSize);
    if endIndex > |resources| {
      endIndex := |resources|;
    }
    if !(0 <= startIndex <= endIndex) {
      return Panic;
    }
    var page := resources[startIndex..endIndex];
    var nextCursor := "";
    if endIndex < |resources| {
      nextCursor := Print(endIndex);
      PrintParse(endIndex);
    }
    return Page(page, nextCursor);
  }

  /** A cursor that the server never issued can panic: the first index past the end of its list. */
  lemma ForeignCursorCanPanic<T>(resources: seq<T>)
    requires |resources| == 100
    ensures PageAt(resources, 10, "101").Panic?
  {
    assert "101"[..2] == "10" && "10"[..1] == "1" && "1"[..0] == "";
    assert DigitsValue("1") == 1;
    assert DigitsValue("10") == 10;
    assert DigitsValue("101") == 101;
  }

  function Concat<T>(pages: seq<seq<T>>): seq<T> {
    if pages == [] then [] else Concat(pages[..|pages| - 1]) + pages[|pages| - 1]
  }

  lemma OnePageMore<T>(resources: seq<T>, pages: seq<seq<T>>, page: seq<T>, done: nat)
    requires done + |page| <= |resources| && page == resources[done..done + |page|]
    requires Concat(pages) == resources[..done]
    ensures Concat(pages + [page]) == resources[..done + |page|]
  {
    assert (pages + [page])[..|pages|] == pages;
    assert resources[..done] + page == resources[..done + |page|];
  }

  /** Following the cursors from the empty one ends, never panics, and the pages make up the list. */
  method Collect<T>(resources: seq<T>, pageSize: nat) returns (pages: seq<seq<T>>)
    requires pageSize > 0 && |resources| + pageSize <= MAX_INT
    ensures Concat(pages) == resources && |pages| >= 1
    ensures forall n :: 0 <= n < |pages| - 1 ==> |pages[n]| == pageSize
    ensures |pages[|pages| - 1]| <= pageSize
  {
    var cursor := "";
    pages := [];
    ghost var done := 0;
    var more := true;
    while more
      invariant 0 <= done <= |resources| && Concat(pages) == resources[..done]
      invariant more ==> done == StartOf(cursor)
      invariant more && cursor != "" ==> done < |resources|
      invariant more ==> forall n :: 0 <= n < |pages| ==> |pages[n]| == pageSize
      invariant !more ==> done == |resources| && |pages| >= 1 && |pages[|pages| - 1]| <= pageSize
                          && forall n :: 0 <= n < |pages| - 1 ==> |pages[n]| == pageSize
      decreases more, |resources| - done
    {
      var r := ListResources(resources, pageSize, cursor);
      assert r.Page?;
      OnePageMore(resources, pages, r.items, done);
      pages := pages + [r.items];
      done := done + |r.items|;
      cursor := r.next;
      more := cursor != "";
    }
    assert resources[..done] == resources;
  }
}
