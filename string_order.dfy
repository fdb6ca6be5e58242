/**
 * Python's ordering of `str` values (lexicographic by code point, a proper prefix
 * first) and `sorted(list(set(xs)))` for a list of strings: the distinct elements
 * in strictly ascending order.
 */
module StringOrder {

  /** `a < b` on Python strings: a proper prefix sorts first. */
  predicate Less(a: string, b: string)
    ensures |a| < |b| && a == b[..|a|] ==> Less(a, b)
    ensures Less(a, b) ==> a != b
    decreases |a|
  {
    if |a| == 0 then |b| > 0
    else if |b| == 0 then false
    else if a[0] != b[0] then a[0] < b[0]
    else Less(a[1..], b[1..])
  }

  lemma {:induction false} LessIrreflexive(a: string)
    ensures !Less(a, a)
    decreases |a|
  {
    if |a| > 0 { LessIrreflexive(a[1..]); }
  }

  lemma {:induction false} LessTotal(a: string, b: string)
    ensures a == b || Less(a, b) || Less(b, a)
    decreases |a|
  {
    if |a| > 0 && |b| > 0 && a[0] == b[0] {
      LessTotal(a[1..], b[1..]);
      if a[1..] == b[1..] {
        assert a == [a[0]] + a[1..] && b == [b[0]] + b[1..];
      }
    }
  }

  lemma {:induction false} LessTransitive(a: string, b: string, c: string)
    requires Less(a, b) && Less(b, c)
    ensures Less(a, c)
    decreases |a|
  {
    if |a| > 0 && a[0] == b[0] && b[0] == c[0] {
      LessTransitive(a[1..], b[1..], c[1..]);
    }
  }

  lemma LessAsymmetric(a: string, b: string)
    requires Less(a, b)
    ensures !Less(b, a)
  {
    if Less(b, a) {
      LessTransitive(a, b, a);
      LessIrreflexive(a);
    }
  }

  /** Every element is `Less` than every later one: sorted, with no repeats. */
  predicate StrictlyAscending(r: seq<string>) {
    forall i, j :: 0 <= i < j < |r| ==> Less(r[i], r[j])
  }

  /** Places `x` in an ascending sequence, unless it is already there. */
  function Insert(x: string, r: seq<string>): (r': seq<string>)
    requires StrictlyAscending(r)
    ensures StrictlyAscending(r')
    ensures forall y :: y in r' <==> y == x || y in r
    ensures |r'| <= |r| + 1
    decreases |r|
  {
    if r == [] then [x]
    else if x == r[0] then r
    else if Less(x, r[0]) then
      assert forall j :: 0 < j < |r| ==> Less(x, r[j]) by {
        forall j | 0 < j < |r| ensures Less(x, r[j]) { LessTransitive(x, r[0], r[j]); }
      }
      [x] + r
    else
      LessTotal(x, r[0]);
      var tail := Insert(x, r[1..]);
      assert forall y :: y in tail ==> Less(r[0], y) by {
        forall y | y in tail ensures Less(r[0], y) {
          if y != x {
            var j :| 1 <= j < |r| && r[j] == y;
          }
        }
      }
      [r[0]] + tail
  }

  /** `sorted(list(set(xs)))`: the distinct elements of `xs`, ascending. */
  function SortedDistinct(xs: seq<string>): (r: seq<string>)
    ensures StrictlyAscending(r)
    ensures forall y :: y in r <==> y in xs
    ensures |r| <= |xs|
    decreases |xs|
  {
    if xs == [] then [] else Insert(xs[0], SortedDistinct(xs[1..]))
  }

  /**
   * Two strictly ascending sequences with the same elements are equal, so the
   * order in which `list(set(xs))` happens to enumerate the set does not matter.
   */
  lemma {:induction false} AscendingUnique(r1: seq<string>, r2: seq<string>)
    requires StrictlyAscending(r1) && StrictlyAscending(r2)
    requires forall y :: y in r1 <==> y in r2
    ensures r1 == r2
    decreases |r1|
  {
    // Neither is empty unless both are.
    if r1 != [] { assert r1[0] in r1; }
    if r2 != [] { assert r2[0] in r2; }
    if r1 != [] && r2 != [] {
      // Each head is the least element of both, so the heads agree.
      if r1[0] != r2[0] {
        var i :| 0 <= i < |r2| && r2[i] == r1[0];
        var j :| 0 <= j < |r1| && r1[j] == r2[0];
        assert i > 0 && j > 0;
        LessAsymmetric(r2[0], r1[0]);
      }
      assert r1 == [r1[0]] + r1[1..] && r2 == [r2[0]] + r2[1..];
      forall y ensures y in r1[1..] <==> y in r2[1..] {
        if y in r1[1..] {
          var j :| 1 <= j < |r1| && r1[j] == y;
          LessIrreflexive(r1[0]);
          assert y in r2 && y != r2[0];
        }
        if y in r2[1..] {
          var j :| 1 <= j < |r2| && r2[j] == y;
          LessIrreflexive(r2[0]);
          assert y in r1 && y != r1[0];
        }
      }
      AscendingUnique(r1[1..], r2[1..]);
    }
  }

  /** The result of `SortedDistinct` depends only on the set of elements. */
  lemma SortedDistinctOfSameSet(xs: seq<string>, ys: seq<string>)
    requires forall y :: y in xs <==> y in ys
    ensures SortedDistinct(xs) == SortedDistinct(ys)
  {
    AscendingUnique(SortedDistinct(xs), SortedDistinct(ys));
  }
}
