/** Sequence functions shared by the locked queue and the command system. */
module Seqs {

  ghost predicate Distinct<T>(s: seq<T>) {
    forall i, j :: 0 <= i < j < |s| ==> s[i] != s[j]
  }

  /** The sequence with every element equal to `x` taken out, the rest in order (std::list::remove). */
  function Without<T(==)>(s: seq<T>, x: T): seq<T> {
    if s == [] then []
    else Without(s[..|s| - 1], x) + if s[|s| - 1] == x then [] else [s[|s| - 1]]
  }

  function Reversed<T>(s: seq<T>): seq<T> {
    if s == [] then [] else [s[|s| - 1]] + Reversed(s[..|s| - 1])
  }

  /** Position of the first element equal to `x`, or the length when there is none. */
  function IndexOf<T(==)>(s: seq<T>, x: T): (k: nat)
    ensures k <= |s|
    ensures k < |s| ==> s[k] == x
    ensures k == |s| <==> x !in s
    ensures forall j :: 0 <= j < k ==> s[j] != x
  {
    if s == [] then 0 else if s[0] == x then 0 else 1 + IndexOf(s[1..], x)
  }

  /** How many of the elements equal `x`. */
  function Count<T(==)>(s: seq<T>, x: T): nat {
    if s == [] then 0 else Count(s[..|s| - 1], x) + if s[|s| - 1] == x then 1 else 0
  }

  lemma {:induction false} WithoutMembers<T>(s: seq<T>, x: T)
    ensures forall y :: y in Without(s, x) <==> y in s && y != x
    ensures |Without(s, x)| <= |s|
  {
    if s != [] {
      WithoutMembers(s[..|s| - 1], x);
      assert s == s[..|s| - 1] + [s[|s| - 1]];
    }
  }

  lemma {:induction false} WithoutAbsent<T>(s: seq<T>, x: T)
    requires x !in s
    ensures Without(s, x) == s
  {
    if s != [] {
      WithoutAbsent(s[..|s| - 1], x);
      assert s == s[..|s| - 1] + [s[|s| - 1]];
    }
  }

  lemma {:induction false} WithoutAppend<T>(a: seq<T>, b: seq<T>, x: T)
    ensures Without(a + b, x) == Without(a, x) + Without(b, x)
  {
    if b == [] {
      assert a + b == a;
    } else {
      var c := b[..|b| - 1];
      assert (a + b)[..|a + b| - 1] == a + c;
      WithoutAppend(a, c, x);
    }
  }

  /** On distinct elements `Without` takes out one place and closes the gap. */
  lemma {:induction false} WithoutAt<T>(s: seq<T>, k: nat)
    requires Distinct(s) && k < |s|
    ensures Without(s, s[k]) == s[..k] + s[k + 1..]
  {
    var x := s[k];
    assert s == s[..k] + [x] + s[k + 1..];
    WithoutAppend(s[..k] + [x], s[k + 1..], x);
    WithoutAppend(s[..k], [x], x);
    WithoutAbsent(s[..k], x);
    WithoutAbsent(s[k + 1..], x);
    assert Without([x], x) == [];
  }

  lemma {:induction false} WithoutDistinct<T>(s: seq<T>, x: T)
    requires Distinct(s)
    ensures Distinct(Without(s, x))
  {
    if x in s {
      var k := IndexOf(s, x);
      WithoutAt(s, k);
    } else {
      WithoutAbsent(s, x);
    }
  }

  lemma {:induction false} WithoutReversed<T>(s: seq<T>, x: T)
    ensures Without(Reversed(s), x) == Reversed(Without(s, x))
  {
    if s != [] {
      var c, y := s[..|s| - 1], s[|s| - 1];
      WithoutReversed(c, x);
      WithoutAppend([y], Reversed(c), x);
      assert Without([y], x) == if y == x then [] else [y];
      if y != x {
        assert (Without(c, x) + [y])[..|Without(c, x)|] == Without(c, x);
      } else {
        assert Without(c, x) + [] == Without(c, x);
      }
    }
  }

  lemma {:induction false} ReversedMembers<T>(s: seq<T>)
    ensures forall y :: y in Reversed(s) <==> y in s
  {
    if s != [] {
      ReversedMembers(s[..|s| - 1]);
      assert s == s[..|s| - 1] + [s[|s| - 1]];
    }
  }

  lemma DistinctAppend<T>(s: seq<T>, x: T)
    requires Distinct(s) && x !in s
    ensures Distinct(s + [x]) && Distinct([x] + s)
  {
  }

  /** Distinct elements have one position. */
  lemma IndexUnique<T>(s: seq<T>, k: nat)
    requires Distinct(s) && k < |s|
    ensures IndexOf(s, s[k]) == k
  {
  }

  /** Where a surviving element ends up when another one is removed. */
  lemma {:induction false} WithoutIndex<T>(s: seq<T>, x: T, y: T)
    requires Distinct(s) && y in s && x in s && x != y
    ensures y in Without(s, x)
    ensures IndexOf(Without(s, x), y) == IndexOf(s, y) - if IndexOf(s, x) < IndexOf(s, y) then 1 else 0
  {
    var k, i := IndexOf(s, x), IndexOf(s, y);
    WithoutAt(s, k);
    WithoutDistinct(s, x);
    var w := Without(s, x);
    var j := if k < i then i - 1 else i;
    assert w[j] == y;
    IndexUnique(w, j);
  }
}
