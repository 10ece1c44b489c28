/**
 * Per-frame metric samples and the ordering a finished job's data is stored
 * in: `OrderBy(a => a.value).ThenBy(a => a.index)`, value ascending, ties by
 * frame index ascending, nothing dropped and nothing merged.
 */
module Samples {

  /** One `(index, value)` pair: a frame index and its metric value. */
  datatype Sample = Sample(index: int, value: real)

  /** `a` may stand before `b` in the stored order. */
  predicate NotAfter(a: Sample, b: Sample) {
    a.value < b.value || (a.value == b.value && a.index <= b.index)
  }

  predicate Sorted(s: seq<Sample>) {
    forall i, j :: 0 <= i < j < |s| ==> NotAfter(s[i], s[j])
  }

  /** The order is antisymmetric on samples: two samples that may each stand first are equal. */
  lemma NotAfterAntisymmetric(a: Sample, b: Sample)
    requires NotAfter(a, b) && NotAfter(b, a)
    ensures a == b
  {
  }

  /** Putting `a` in front of sorted `t` keeps it sorted when `a` may stand before `t`'s first sample. */
  lemma SortedCons(a: Sample, t: seq<Sample>)
    requires Sorted(t) && (t != [] ==> NotAfter(a, t[0]))
    ensures Sorted([a] + t)
  {
    var r := [a] + t;
    forall i, j | 0 <= i < j < |r| ensures NotAfter(r[i], r[j]) {
      if i == 0 {
        assert NotAfter(t[0], t[j - 1]) || j == 1;
      } else {
        assert r[i] == t[i - 1] && r[j] == t[j - 1];
      }
    }
  }

  /** Inserts `x` into sorted `s` at the place the stored order gives it. */
  function Insert(x: Sample, s: seq<Sample>): (r: seq<Sample>)
    requires Sorted(s)
    ensures Sorted(r)
    ensures multiset(r) == multiset(s) + multiset{x}
    ensures |r| == |s| + 1 && (r[0] == x || (s != [] && r[0] == s[0]))
  {
    if s == [] then [x]
    else if NotAfter(x, s[0]) then
      SortedCons(x, s);
      [x] + s
    else
      var rest := Insert(x, s[1..]);
      assert s == [s[0]] + s[1..];
      assert NotAfter(s[0], rest[0]) by {
        if rest[0] != x {
          assert NotAfter(s[0], s[1]);
        }
      }
      SortedCons(s[0], rest);
      [s[0]] + rest
  }

  /** The stored order of a job's samples. */
  function Sort(s: seq<Sample>): (r: seq<Sample>)
    ensures Sorted(r)
    ensures multiset(r) == multiset(s)
    ensures |r| == |s|
  {
    if s == [] then []
    else
      assert s == [s[0]] + s[1..];
      Insert(s[0], Sort(s[1..]))
  }

  /**
   * There is only one sorted arrangement of a multiset of samples, so the
   * stored data does not depend on the sorting algorithm (or its stability).
   */
  lemma {:induction false} SortedPermutationUnique(a: seq<Sample>, b: seq<Sample>)
    requires Sorted(a) && Sorted(b)
    requires multiset(a) == multiset(b)
    ensures a == b
    decreases |a|
  {
    if a != [] {
      assert |b| == |multiset(b)| == |a| > 0;
      assert a[0] in multiset(b);
      assert b[0] in multiset(a);
      var i :| 0 <= i < |b| && b[i] == a[0];
      var j :| 0 <= j < |a| && a[j] == b[0];
      assert NotAfter(b[0], a[0]);
      assert NotAfter(a[0], b[0]);
      NotAfterAntisymmetric(a[0], b[0]);
      assert a == [a[0]] + a[1..];
      assert b == [b[0]] + b[1..];
      assert multiset(a) == multiset{a[0]} + multiset(a[1..]);
      assert multiset(b) == multiset{b[0]} + multiset(b[1..]);
      assert a[0] == b[0];
      assert multiset(a[1..]) == multiset(a) - multiset{a[0]};
      assert multiset(b[1..]) == multiset(b) - multiset{b[0]};
      SortedPermutationUnique(a[1..], b[1..]);
    }
  }

  /** Sorting a sequence is the identity exactly when it is already in stored order. */
  lemma SortFixesSorted(s: seq<Sample>)
    ensures Sort(s) == s <==> Sorted(s)
  {
    if Sorted(s) {
      SortedPermutationUnique(Sort(s), s);
    }
  }

  /** Equal values keep frame-index order; lower values come first. */
  lemma SortExample()
    ensures Sort([Sample(5, 10.0), Sample(2, 10.0), Sample(3, 5.0)])
         == [Sample(3, 5.0), Sample(2, 10.0), Sample(5, 10.0)]
  {
    var input := [Sample(5, 10.0), Sample(2, 10.0), Sample(3, 5.0)];
    var expected := [Sample(3, 5.0), Sample(2, 10.0), Sample(5, 10.0)];
    assert input == [input[0]] + [input[1]] + [input[2]];
    assert expected == [input[2]] + [input[1]] + [input[0]];
    assert multiset(input) == multiset(expected);
    assert Sorted(expected);
    SortedPermutationUnique(Sort(input), expected);
  }
}
