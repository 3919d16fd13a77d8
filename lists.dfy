/**
 * Order-preserving selection from a list and first-match search: the meaning
 * of every `Array.prototype.filter` and `find` in the store's screens.
 */
module Lists {
  import opened Wrappers

  /** `a` is obtained from `b` by deleting elements, without reordering the rest. */
  ghost predicate IsSubsequence<T>(a: seq<T>, b: seq<T>)
    decreases |b|
  {
    if a == [] then true
    else if b == [] then false
    else (a[0] == b[0] && IsSubsequence(a[1..], b[1..])) || IsSubsequence(a, b[1..])
  }

  /** The elements of `s` for which `keep` holds, in their original order. */
  function Filter<T>(s: seq<T>, keep: T -> bool): (r: seq<T>)
    ensures |r| <= |s|
    decreases |s|
  {
    if s == [] then []
    else if keep(s[0]) then [s[0]] + Filter(s[1..], keep)
    else Filter(s[1..], keep)
  }

  /** Filtering a list with a given first element. */
  lemma FilterCons<T>(x: T, s: seq<T>, keep: T -> bool)
    ensures Filter([x] + s, keep) == (if keep(x) then [x] else []) + Filter(s, keep)
  {
    assert ([x] + s)[0] == x && ([x] + s)[1..] == s;
  }

  /** The selection holds exactly the elements of `s` that pass `keep`. */
  lemma {:induction false} FilterMembers<T(!new)>(s: seq<T>, keep: T -> bool)
    ensures forall x :: x in Filter(s, keep) <==> x in s && keep(x)
    decreases |s|
  {
    if s != [] {
      FilterMembers(s[1..], keep);
      assert s == [s[0]] + s[1..];
    }
  }

  /** The selection keeps the order of `s`. */
  lemma {:induction false} FilterIsSubsequence<T>(s: seq<T>, keep: T -> bool)
    ensures IsSubsequence(Filter(s, keep), s)
    decreases |s|
  {
    if s != [] {
      FilterIsSubsequence(s[1..], keep);
      if keep(s[0]) {
        var rest := Filter(s[1..], keep);
        assert ([s[0]] + rest)[1..] == rest;
      }
    }
  }

  /** Each element passing `keep` occurs in the selection as often as in `s`; the others not at all. */
  lemma {:induction false} FilterCounts<T(!new)>(s: seq<T>, keep: T -> bool)
    ensures forall x :: multiset(Filter(s, keep))[x] == if keep(x) then multiset(s)[x] else 0
    decreases |s|
  {
    if s != [] {
      FilterCounts(s[1..], keep);
      assert s == [s[0]] + s[1..];
    }
  }

  /** The selection is the whole list exactly when every element passes. */
  lemma {:induction false} FilterFull<T(!new)>(s: seq<T>, keep: T -> bool)
    ensures |Filter(s, keep)| == |s| <==> forall x :: x in s ==> keep(x)
    decreases |s|
  {
    if s != [] {
      FilterFull(s[1..], keep);
      assert s == [s[0]] + s[1..];
    }
  }

  /** A filter that every element passes returns the list itself. */
  lemma {:induction false} FilterKeepsAll<T(!new)>(s: seq<T>, keep: T -> bool)
    requires forall x :: x in s ==> keep(x)
    ensures Filter(s, keep) == s
  {
    if s != [] {
      FilterKeepsAll(s[1..], keep);
    }
  }

  /**
   * When every position that passes in `s` also passes in `t` (a list of the
   * same length, element for element), the selection from `t` is at least as long.
   */
  lemma {:induction false} FilterLengthMonotone<T(!new)>(s: seq<T>, t: seq<T>, keep: T -> bool)
    requires |s| == |t|
    requires forall i :: 0 <= i < |s| && keep(s[i]) ==> keep(t[i])
    ensures |Filter(s, keep)| <= |Filter(t, keep)|
  {
    if s != [] {
      FilterLengthMonotone(s[1..], t[1..], keep);
    }
  }

  /** Two tests that agree on every element of `s` select the same elements. */
  lemma {:induction false} FilterSameTest<T(!new)>(s: seq<T>, keep1: T -> bool, keep2: T -> bool)
    requires forall x :: x in s ==> keep1(x) == keep2(x)
    ensures Filter(s, keep1) == Filter(s, keep2)
    decreases |s|
  {
    if s != [] {
      assert forall x :: x in s[1..] ==> x in s;
      FilterSameTest(s[1..], keep1, keep2);
    }
  }

  /** The selection from two lists put end to end is as long as the two selections together. */
  lemma {:induction false} FilterLengthAppend<T(!new)>(a: seq<T>, b: seq<T>, keep: T -> bool)
    ensures |Filter(a + b, keep)| == |Filter(a, keep)| + |Filter(b, keep)|
    decreases |a|
  {
    if a == [] {
      assert a + b == b;
    } else {
      var x := a[0];
      assert a == [x] + a[1..];
      assert a + b == [x] + (a[1..] + b);
      FilterCons(x, a[1..] + b, keep);
      FilterCons(x, a[1..], keep);
      FilterLengthAppend(a[1..], b, keep);
    }
  }

  /** The number of elements of `s` that pass `keep`, counted from the last one backwards. */
  ghost function CountWhere<T>(s: seq<T>, keep: T -> bool): nat
    decreases |s|
  {
    if s == [] then 0
    else CountWhere(s[..|s| - 1], keep) + (if keep(s[|s| - 1]) then 1 else 0)
  }

  /** A filter keeps exactly as many elements as pass its test. */
  lemma {:induction false} FilterLength<T(!new)>(s: seq<T>, keep: T -> bool)
    ensures |Filter(s, keep)| == CountWhere(s, keep)
    decreases |s|
  {
    if s != [] {
      var init, last := s[..|s| - 1], s[|s| - 1];
      assert s == init + [last];
      FilterLength(init, keep);
      FilterLengthAppend(init, [last], keep);
      assert [last][1..] == [];
    }
  }

  /** `findIndex`: the position of the first element that passes `test`, if any. */
  function FindFirst<T>(s: seq<T>, test: T -> bool): (r: Option<nat>)
    ensures r.Some? ==> r.value < |s| && test(s[r.value])
    ensures r.Some? ==> forall j :: 0 <= j < r.value ==> !test(s[j])
    ensures r.None? <==> forall j :: 0 <= j < |s| ==> !test(s[j])
    decreases |s|
  {
    if s == [] then None
    else if test(s[0]) then Some(0)
    else match FindFirst(s[1..], test)
      case None => None
      case Some(k) => Some(k + 1)
  }
}
