/** Facts about finite sets that several proofs need. */
module Sets {

  lemma SubsetSize<T>(a: set<T>, b: set<T>)
    requires a <= b
    ensures |a| <= |b|
  {
    assert b == a + (b - a);
  }

  lemma InjectionBounds(a: set<nat>, b: set<nat>, f: map<nat, nat>)
    requires forall x :: x in a ==> x in f && f[x] in b
    requires forall x, y :: x in a && y in a && f[x] == f[y] ==> x == y
    ensures |a| <= |b|
  {
    if a != {} {
      var x :| x in a;
      InjectionBounds(a - {x}, b - {f[x]}, f);
    }
  }

  lemma Longest(used: set<string>) returns (n: nat)
    ensures forall x :: x in used ==> |x| <= n
  {
    if used == {} {
      n := 0;
    } else {
      var x :| x in used;
      var m := Longest(used - {x});
      n := if |x| > m then |x| else m;
    }
  }

  /** There is always an identifier that is not in use. */
  lemma FreshString(used: set<string>) returns (x: string)
    ensures x !in used && x != ""
  {
    var n := Longest(used);
    x := seq(n + 1, _ => 'x');
  }
}
