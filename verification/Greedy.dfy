/**
 * The greedy pass shared by detection de-duplication and non-maximum suppression: walk a list
 * from best to worst and keep an element unless one already kept conflicts with it.
 */
module Greedy {
  import opened Sorting
  import opened Sets

  /** One mark an element: does it survive the pass? */
  function Marks<T>(s: seq<T>, conflict: (T, T) -> bool): (m: seq<bool>)
    ensures |m| == |s|
  {
    if s == [] then []
    else
      var m := Marks(s[..|s| - 1], conflict);
      m + [forall j :: 0 <= j < |m| && m[j] ==> !conflict(s[j], s[|s| - 1])]
  }

  /** The marked elements, in order. */
  function Select<T>(s: seq<T>, m: seq<bool>): (r: seq<T>)
    requires |m| == |s|
  {
    if s == [] then []
    else
      var r := Select(s[..|s| - 1], m[..|s| - 1]);
      if m[|s| - 1] then r + [s[|s| - 1]] else r
  }

  /** The survivors. */
  function Survivors<T>(s: seq<T>, conflict: (T, T) -> bool): (r: seq<T>) {
    Select(s, Marks(s, conflict))
  }

  /** The marks solve the pass's own equation: kept exactly when no earlier kept element conflicts. */
  ghost predicate Solves<T>(m: seq<bool>, s: seq<T>, conflict: (T, T) -> bool) {
    && |m| == |s|
    && (forall i :: 0 <= i < |s| ==> (m[i] <==> (forall j :: 0 <= j < i && m[j] ==> !conflict(s[j], s[i]))))
  }

  lemma {:induction false} MarksSolve<T>(s: seq<T>, conflict: (T, T) -> bool)
    ensures Solves(Marks(s, conflict), s, conflict)
  {
    if s != [] {
      var n := |s| - 1;
      MarksSolve(s[..n], conflict);
      SolvesMore(Marks(s[..n], conflict), Marks(s, conflict)[n], s, conflict);
    }
  }

  lemma SolvesMore<T>(m: seq<bool>, b: bool, s: seq<T>, conflict: (T, T) -> bool)
    requires |s| == |m| + 1 && Solves(m, s[..|m|], conflict)
    requires b <==> (forall j :: 0 <= j < |m| && m[j] ==> !conflict(s[j], s[|m|]))
    ensures Solves(m + [b], s, conflict)
  {
    var r := m + [b];
    assert r[..|m|] == m;
    forall i | 0 <= i < |s| ensures r[i] <==> (forall j :: 0 <= j < i && r[j] ==> !conflict(s[j], s[i])) {
      if i < |m| { SolvedBefore(r, s, conflict, |m|, i); }
    }
  }

  lemma SolvedBefore<T>(m: seq<bool>, s: seq<T>, conflict: (T, T) -> bool, n: nat, i: nat)
    requires i < n <= |s| && n <= |m| && Solves(m[..n], s[..n], conflict)
    ensures m[i] <==> (forall j :: 0 <= j < i && m[j] ==> !conflict(s[j], s[i]))
  {
    var w, r := m[..n], s[..n];
    assert w[i] == m[i] && r[i] == s[i];
    assert forall j :: 0 <= j < i ==> w[j] == m[j] && r[j] == s[j];
  }

  /** No other marking solves it. */
  lemma {:induction false} SolutionUnique<T>(m: seq<bool>, s: seq<T>, conflict: (T, T) -> bool)
    requires Solves(m, s, conflict)
    ensures m == Marks(s, conflict)
  {
    MarksSolve(s, conflict);
    var w := Marks(s, conflict);
    var i := 0;
    while i < |s|
      invariant 0 <= i <= |s| && forall j :: 0 <= j < i ==> m[j] == w[j]
    {
      i := i + 1;
    }
  }

  lemma {:induction false} SelectMembers<T>(s: seq<T>, m: seq<bool>, x: T)
    requires |m| == |s|
    ensures x in Select(s, m) <==> exists i :: 0 <= i < |s| && m[i] && s[i] == x
  {
    if s != [] {
      var n := |s| - 1;
      SelectMembers(s[..n], m[..n], x);
      if i :| 0 <= i < |s| && m[i] && s[i] == x {
        if i < n { assert m[..n][i] && s[..n][i] == x; }
      }
      if x in Select(s[..n], m[..n]) {
        var i :| 0 <= i < n && m[..n][i] && s[..n][i] == x;
        assert m[i] && s[i] == x;
      }
    }
  }

  /** An element the pass has not met is kept, or not, by what is kept so far: the loop's step. */
  lemma SurvivorsStep<T>(s: seq<T>, i: nat, conflict: (T, T) -> bool)
    requires i < |s|
    ensures var kept := Survivors(s[..i], conflict);
            Survivors(s[..i + 1], conflict)
            == if exists k :: k in kept && conflict(k, s[i]) then kept else kept + [s[i]]
  {
    var t := s[..i + 1];
    assert t[..i] == s[..i];
    var m := Marks(s[..i], conflict);
    var kept := Select(s[..i], m);
    assert Marks(t, conflict)[..i] == m;
    if k :| k in kept && conflict(k, s[i]) {
      SelectMembers(s[..i], m, k);
      var j :| 0 <= j < i && m[j] && s[..i][j] == k;
      assert conflict(t[j], t[i]);
    } else {
      forall j | 0 <= j < |m| && m[j] ensures !conflict(t[j], t[i]) {
        SelectMembers(s[..i], m, t[j]);
        assert m[j] && s[..i][j] == t[j];
        assert t[j] in kept;
      }
    }
  }

  lemma {:induction false} SurvivorsAreFewer<T>(s: seq<T>, conflict: (T, T) -> bool)
    ensures |Survivors(s, conflict)| <= |s|
  {
    if s != [] {
      SurvivorsAreFewer(s[..|s| - 1], conflict);
      assert s[..|s|] == s;
      SurvivorsStep(s, |s| - 1, conflict);
    }
  }

  /** No two elements of the list, at different places, conflict. */
  ghost predicate ConflictFree<T>(s: seq<T>, conflict: (T, T) -> bool) {
    forall i, j :: 0 <= i < j < |s| ==> !conflict(s[i], s[j])
  }

  lemma {:induction false} SurvivorsConflictFree<T>(s: seq<T>, conflict: (T, T) -> bool)
    ensures ConflictFree(Survivors(s, conflict), conflict)
  {
    if s != [] {
      var n := |s| - 1;
      SurvivorsConflictFree(s[..n], conflict);
      assert s[..n + 1] == s;
      SurvivorsStep(s, n, conflict);
      var kept := Survivors(s[..n], conflict);
      forall i | 0 <= i < |kept| && !(exists k :: k in kept && conflict(k, s[n])) ensures !conflict(kept[i], s[n]) {
        assert kept[i] in kept;
      }
    }
  }

  lemma {:induction false} AllSurvive<T>(s: seq<T>, conflict: (T, T) -> bool)
    requires ConflictFree(s, conflict)
    ensures Survivors(s, conflict) == s
  {
    if s != [] {
      var n := |s| - 1;
      AllSurvive(s[..n], conflict);
      assert s[..n + 1] == s;
      SurvivorsStep(s, n, conflict);
      forall k | k in s[..n] ensures !conflict(k, s[n]) {
        var i :| 0 <= i < n && s[..n][i] == k;
        assert s[i] == k;
      }
    }
  }

  ghost predicate Symmetric<T(!new)>(conflict: (T, T) -> bool) {
    forall a, b :: conflict(a, b) ==> conflict(b, a)
  }

  lemma {:induction false} InsertKeepsConflictFree<T(!new)>(x: T, s: seq<T>, le: (T, T) -> bool,
                                                            conflict: (T, T) -> bool)
    requires Symmetric(conflict) && ConflictFree([x] + s, conflict)
    ensures ConflictFree(Insert(x, s, le), conflict)
  {
    if s == [] || le(x, s[0]) {
    } else {
      forall i, j | 0 <= i < j < |[x] + s[1..]| ensures !conflict(([x] + s[1..])[i], ([x] + s[1..])[j]) {
        assert ([x] + s[1..])[j] == ([x] + s)[j + 1];
        assert ([x] + s[1..])[i] == ([x] + s)[if i == 0 then 0 else i + 1];
      }
      InsertKeepsConflictFree(x, s[1..], le, conflict);
      InsertKeeps(x, s[1..], le);
      var r := Insert(x, s[1..], le);
      forall i | 0 <= i < |r| ensures !conflict(s[0], r[i]) {
        assert r[i] in multiset(r);
        if r[i] == x {
          assert !conflict(([x] + s)[0], ([x] + s)[1]);
        } else {
          var j :| 0 <= j < |s[1..]| && s[1..][j] == r[i];
          assert !conflict(([x] + s)[1], ([x] + s)[j + 2]);
        }
      }
    }
  }

  lemma {:induction false} SortKeepsConflictFree<T(!new)>(s: seq<T>, le: (T, T) -> bool, conflict: (T, T) -> bool)
    requires Symmetric(conflict) && ConflictFree(s, conflict)
    ensures ConflictFree(StableSort(s, le), conflict)
  {
    if s != [] {
      SortKeepsConflictFree(s[1..], le, conflict);
      var r := StableSort(s[1..], le);
      forall i | 0 <= i < |r| ensures !conflict(s[0], r[i]) {
        SortMembers(s[1..], le, r[i]);
        var j :| 0 <= j < |s[1..]| && s[1..][j] == r[i];
        assert s[1 + j] == r[i];
      }
      InsertKeepsConflictFree(s[0], r, le, conflict);
    }
  }

  /** `a` is ranked strictly before `b`. */
  predicate Better<T(==)>(a: T, b: T, le: (T, T) -> bool) {
    a != b && le(a, b)
  }

  /** `kept` is the kernel of `all`: exactly the elements no better kept element conflicts with. */
  ghost predicate Kernel<T>(kept: set<T>, all: set<T>, le: (T, T) -> bool, conflict: (T, T) -> bool) {
    && kept <= all
    && (forall d :: d in all ==> (d in kept <==> forall k :: k in kept && Better(k, d, le) ==> !conflict(k, d)))
  }

  /** The elements ranked strictly before `d`. */
  ghost function Above<T(!new)>(d: T, all: set<T>, le: (T, T) -> bool): (r: set<T>)
    ensures forall k :: k in r <==> k in all && Better(k, d, le)
  {
    set k | k in all && Better(k, d, le)
  }

  lemma AboveShrinks<T(!new)>(k: T, d: T, all: set<T>, le: (T, T) -> bool)
    requires TotalOrder(le) && k in Above(d, all, le)
    ensures Above(k, all, le) < Above(d, all, le)
  {
    forall j | j in Above(k, all, le) ensures j in Above(d, all, le) {
      assert le(j, k) && le(k, d);
    }
    assert k !in Above(k, all, le);
  }

  lemma {:induction false} KernelUniqueAt<T(!new)>(one: set<T>, two: set<T>, all: set<T>, le: (T, T) -> bool,
                                                   conflict: (T, T) -> bool, d: T)
    requires TotalOrder(le) && Kernel(one, all, le, conflict) && Kernel(two, all, le, conflict) && d in all
    ensures d in one <==> d in two
    decreases Above(d, all, le)
  {
    hide TotalOrder;
    forall k | k in all && Better(k, d, le) ensures k in one <==> k in two {
      AboveShrinks(k, d, all, le);
      KernelUniqueAt(one, two, all, le, conflict, k);
    }
    hide Better;
  }

  /** A set of ranked elements has one kernel. */
  lemma KernelUnique<T(!new)>(one: set<T>, two: set<T>, all: set<T>, le: (T, T) -> bool, conflict: (T, T) -> bool)
    requires TotalOrder(le) && Kernel(one, all, le, conflict) && Kernel(two, all, le, conflict)
    ensures one == two
  {
    forall d | d in all ensures d in one <==> d in two { KernelUniqueAt(one, two, all, le, conflict, d); }
  }

  /** An element met at `i` is dropped because of a better one, or because a copy of it came before. */
  lemma DroppedFor<T(!new)>(s: seq<T>, le: (T, T) -> bool, conflict: (T, T) -> bool, i: nat)
    requires TotalOrder(le) && Sorted(s, le) && i < |s| && !Marks(s, conflict)[i]
    ensures exists k :: (k in Survivors(s, conflict) && conflict(k, s[i])
                         && (Better(k, s[i], le) || (k == s[i] && exists j :: 0 <= j < i && s[j] == k)))
  {
    MarksSolve(s, conflict);
    var m := Marks(s, conflict);
    var j :| 0 <= j < i && m[j] && conflict(s[j], s[i]);
    SelectMembers(s, m, s[j]);
    assert le(s[j], s[i]);
    assert s[j] in Survivors(s, conflict);
  }

  /** What survives a pass over a ranked list is the kernel of its elements. */
  lemma SurvivorsAreKernel<T(!new)>(s: seq<T>, le: (T, T) -> bool, conflict: (T, T) -> bool)
    requires TotalOrder(le) && Sorted(s, le)
    ensures Kernel(Elements(Survivors(s, conflict)), Elements(s), le, conflict)
  {
    var m, kept := Marks(s, conflict), Survivors(s, conflict);
    forall d | d in kept ensures d in s { SelectMembers(s, m, d); }
    forall d | d in s
      ensures d in kept <==> forall k :: k in kept && Better(k, d, le) ==> !conflict(k, d)
    {
      if d in kept {
        forall k | k in kept && Better(k, d, le) ensures !conflict(k, d) { KeptNotBeaten(s, le, conflict, k, d); }
      } else {
        var i := First(s, d);
        SelectMembers(s, m, d);
        DroppedFor(s, le, conflict, i);
      }
    }
  }

  lemma KeptNotBeaten<T(!new)>(s: seq<T>, le: (T, T) -> bool, conflict: (T, T) -> bool, k: T, d: T)
    requires TotalOrder(le) && Sorted(s, le)
    requires k in Survivors(s, conflict) && d in Survivors(s, conflict) && Better(k, d, le)
    ensures !conflict(k, d)
  {
    var m := Marks(s, conflict);
    MarksSolve(s, conflict);
    SelectMembers(s, m, k);
    SelectMembers(s, m, d);
    var i :| 0 <= i < |s| && m[i] && s[i] == d;
    var j :| 0 <= j < |s| && m[j] && s[j] == k;
    if i < j { assert le(s[i], s[j]); }
  }

  lemma First<T>(s: seq<T>, d: T) returns (i: nat)
    requires d in s
    ensures i < |s| && s[i] == d && d !in s[..i]
  {
    i := 0;
    while s[i] != d
      invariant i < |s| && d in s[i..] && d !in s[..i]
      decreases |s| - i
    {
      assert s[i..] == [s[i]] + s[i + 1..];
      i := i + 1;
    }
  }

  lemma OneMore<T>(s: seq<T>, x: T, d: T)
    ensures multiset(s + [x])[d] == multiset(s)[d] + if x == d then 1 else 0
  {
  }

  /** How often an element survives: once if it conflicts with its own copies, else every time. */
  lemma {:induction false} Multiplicity<T(!new)>(s: seq<T>, le: (T, T) -> bool, conflict: (T, T) -> bool, d: T)
    requires TotalOrder(le) && Sorted(s, le)
    ensures d in Survivors(s, conflict) ==>
            multiset(Survivors(s, conflict))[d] == if conflict(d, d) then 1 else multiset(s)[d]
  {
    if s != [] {
      hide Survivors, Better, Marks;
      var n := |s| - 1;
      var r := s[..n];
      assert s == r + [s[n]] && s[..n + 1] == s;
      Multiplicity(r, le, conflict, d);
      SurvivorsStep(s, n, conflict);
      var kept := Survivors(r, conflict);
      OneMore(r, s[n], d);
      OneMore(kept, s[n], d);
      if s[n] == d && !conflict(d, d) {
        if k :| k in kept && conflict(k, s[n]) {
          BeatenThroughout(s, le, conflict, k, d);
        } else if d !in kept && d in r {
          DroppedCopy(r, le, conflict, d);
        }
      }
    }
  }

  /** A copy is dropped because of some kept element that conflicts with it. */
  lemma DroppedCopy<T(!new)>(s: seq<T>, le: (T, T) -> bool, conflict: (T, T) -> bool, d: T)
    requires TotalOrder(le) && Sorted(s, le) && d in s && d !in Survivors(s, conflict)
    ensures exists k :: k in Survivors(s, conflict) && conflict(k, d)
  {
    SelectMembers(s, Marks(s, conflict), d);
    var i := First(s, d);
    DroppedFor(s, le, conflict, i);
  }

  /** A kept element that conflicts with the last one `d`, and is another, keeps out every earlier copy of `d`. */
  lemma BeatenThroughout<T(!new)>(s: seq<T>, le: (T, T) -> bool, conflict: (T, T) -> bool, k: T, d: T)
    requires TotalOrder(le) && Sorted(s, le) && s != [] && s[|s| - 1] == d
    requires k in Survivors(s[..|s| - 1], conflict) && k != d && conflict(k, d)
    ensures d !in Survivors(s[..|s| - 1], conflict)
  {
    var r := s[..|s| - 1];
    if d in Survivors(r, conflict) {
      SelectMembers(r, Marks(r, conflict), k);
      var j :| 0 <= j < |r| && Marks(r, conflict)[j] && r[j] == k;
      assert le(s[j], s[|s| - 1]);
      KeptNotBeaten(r, le, conflict, k, d);
    }
  }
}
