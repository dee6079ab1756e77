/** Python's list comprehension with a condition. */
module Filters {
  import opened Sorting

  function Filter<T(!new)>(s: seq<T>, keep: T -> bool): (r: seq<T>)
    ensures forall x :: x in r <==> x in s && keep(x)
  {
    if s == [] then []
    else
      var r := Filter(s[..|s| - 1], keep);
      if keep(s[|s| - 1]) then r + [s[|s| - 1]] else r
  }

  lemma {:induction false} FilterAll<T(!new)>(s: seq<T>, keep: T -> bool)
    requires forall x :: x in s ==> keep(x)
    ensures Filter(s, keep) == s
  {
    if s != [] { FilterAll(s[..|s| - 1], keep); }
  }

  lemma {:induction false} FilterSame<T(!new)>(s: seq<T>, one: T -> bool, two: T -> bool)
    requires forall x :: x in s ==> one(x) == two(x)
    ensures Filter(s, one) == Filter(s, two)
  {
    if s != [] { FilterSame(s[..|s| - 1], one, two); }
  }

  /** A part of a sorted list is sorted. */
  lemma {:induction false} FilterSorted<T(!new)>(s: seq<T>, keep: T -> bool, le: (T, T) -> bool)
    requires Sorted(s, le)
    ensures Sorted(Filter(s, keep), le)
  {
    if s != [] {
      var n := |s| - 1;
      FilterSorted(s[..n], keep, le);
      var r := Filter(s[..n], keep);
      forall i | 0 <= i < |r| ensures le(r[i], s[n]) {
        assert r[i] in r;
        var j :| 0 <= j < n && s[..n][j] == r[i];
        assert le(s[j], s[n]);
      }
    }
  }

  /** Filtering by a weaker condition first makes no difference. */
  lemma {:induction false} FilterTwice<T(!new)>(s: seq<T>, weak: T -> bool, strong: T -> bool)
    requires forall x :: x in s && strong(x) ==> weak(x)
    ensures Filter(Filter(s, weak), strong) == Filter(s, strong)
  {
    if s != [] {
      var n := |s| - 1;
      FilterTwice(s[..n], weak, strong);
      var r := Filter(s[..n], weak);
      if weak(s[n]) { assert (r + [s[n]])[..|r|] == r; }
    }
  }

  /** A first element that fails the condition can be dropped. */
  lemma {:induction false} FilterDropsHead<T(!new)>(s: seq<T>, keep: T -> bool)
    requires s != [] && !keep(s[0])
    ensures Filter(s, keep) == Filter(s[1..], keep)
  {
    if |s| > 1 {
      var n := |s| - 1;
      FilterDropsHead(s[..n], keep);
      assert s[..n][1..] == s[1..][..n - 1];
    }
  }

  lemma {:induction false} FilterShrinks<T(!new)>(s: seq<T>, weak: T -> bool, strong: T -> bool)
    requires forall x :: x in s && strong(x) ==> weak(x)
    ensures |Filter(s, strong)| <= |Filter(s, weak)|
  {
    if s != [] { FilterShrinks(s[..|s| - 1], weak, strong); }
  }
}
