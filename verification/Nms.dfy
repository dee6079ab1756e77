/** Non-maximum suppression of the detections that overlapping tiles report, on integer boxes. */
module Nms {
  import opened Greedy
  import opened Sorting
  import D = Detections

  datatype PixelBox = PixelBox(x: int, y: int, w: int, h: int)

  datatype Scored = Scored(name: string, score: real, box: PixelBox)

  function Min(a: int, b: int): int { if a <= b then a else b }

  function Max(a: int, b: int): int { if a >= b then a else b }

  function Inter(a: PixelBox, b: PixelBox): int {
    Max(0, Min(a.x + a.w, b.x + b.w) - Max(a.x, b.x)) * Max(0, Min(a.y + a.h, b.y + b.h) - Max(a.y, b.y))
  }

  /** Intersection over union; sides below 0 count as 0 in the areas. */
  function PixelIou(a: PixelBox, b: PixelBox): real {
    if Inter(a, b) == 0 then 0.0
    else
      var union := Max(0, a.w) * Max(0, a.h) + Max(0, b.w) * Max(0, b.h) - Inter(a, b);
      if union > 0 then Inter(a, b) as real / union as real else 0.0
  }

  /** Higher scores first; equal scores keep their order. */
  predicate ScoreLe(a: Scored, b: Scored) { a.score >= b.score }

  /** A kept detection suppresses another of its label that overlaps it by the threshold or more. */
  predicate Suppresses(kept: Scored, det: Scored, iouThreshold: real) {
    !(det.name != kept.name || PixelIou(det.box, kept.box) < iouThreshold)
  }

  function SuppressedBy(iouThreshold: real): (Scored, Scored) -> bool {
    (kept, det) => Suppresses(kept, det, iouThreshold)
  }

  function Suppressed(detections: seq<Scored>, iouThreshold: real): seq<Scored> {
    Survivors(StableSort(detections, ScoreLe), SuppressedBy(iouThreshold))
  }

  method NonMaximumSuppression(detections: seq<Scored>, iouThreshold: real) returns (kept: seq<Scored>)
    ensures kept == Suppressed(detections, iouThreshold)
  {
    var ordered := StableSort(detections, ScoreLe);
    ghost var conflict := SuppressedBy(iouThreshold);
    kept := [];
    for i := 0 to |ordered|
      invariant kept == Survivors(ordered[..i], conflict)
    {
      var det := ordered[i];
      SurvivorsStep(ordered, i, conflict);
      if forall k :: k in kept ==> det.name != k.name || PixelIou(det.box, k.box) < iouThreshold {
        kept := kept + [det];
      }
    }
    assert ordered[..|ordered|] == ordered;
  }

  // ---------------------------------------------------------------------------------------------
  // The overlap is the one used on real boxes.
  // ---------------------------------------------------------------------------------------------

  function RealBox(a: PixelBox): D.Box { D.Box(a.x as real, a.y as real, a.w as real, a.h as real) }

  lemma InterAgrees(a: PixelBox, b: PixelBox)
    ensures Inter(a, b) >= 0
    ensures Inter(a, b) as real == D.Inter(RealBox(a), RealBox(b))
  {
    var w := Max(0, Min(a.x + a.w, b.x + b.w) - Max(a.x, b.x));
    var h := Max(0, Min(a.y + a.h, b.y + b.h) - Max(a.y, b.y));
    assert D.InterWidth(RealBox(a), RealBox(b)) == w as real;
    assert D.InterHeight(RealBox(a), RealBox(b)) == h as real;
    assert w >= 0 && h >= 0;
    Product(w, h);
  }

  lemma Product(w: int, h: int)
    ensures (w * h) as real == w as real * h as real
    ensures w >= 0 && h >= 0 ==> w * h >= 0
  {
  }

  lemma AreaAgrees(a: PixelBox)
    requires a.w > 0 && a.h > 0
    ensures D.Area(RealBox(a)) == (Max(0, a.w) * Max(0, a.h)) as real
  {
    Product(a.w, a.h);
  }

  lemma IouIsRatio(a: PixelBox, b: PixelBox, areas: int)
    requires D.Area(RealBox(a)) + D.Area(RealBox(b)) == areas as real
    ensures D.Iou(RealBox(a), RealBox(b)) == D.Ratio(Inter(a, b) as real, areas as real)
  {
    InterAgrees(a, b);
    hide D.Inter, D.Ratio, D.Area, Inter;
  }

  /** The two overlap functions of the repository agree on integer boxes, degenerate ones included. */
  lemma PixelIouAgrees(a: PixelBox, b: PixelBox)
    ensures PixelIou(a, b) == D.Iou(RealBox(a), RealBox(b))
  {
    InterAgrees(a, b);
    if Inter(a, b) > 0 {
      SolidBoxes(a, b);
      AreaAgrees(a);
      AreaAgrees(b);
      IouIsRatio(a, b, Max(0, a.w) * Max(0, a.h) + Max(0, b.w) * Max(0, b.h));
      hide D.Iou, D.Area, D.Inter, Inter;
    } else {
      hide D.Inter, Inter, D.Area;
    }
  }

  lemma SolidBoxes(a: PixelBox, b: PixelBox)
    requires Inter(a, b) > 0
    ensures a.w > 0 && a.h > 0 && b.w > 0 && b.h > 0
  {
    InterAgrees(a, b);
    D.InterWithin(RealBox(a), RealBox(b));
  }

  // ---------------------------------------------------------------------------------------------
  // What is kept.
  // ---------------------------------------------------------------------------------------------

  lemma {:induction false} SurvivorsSorted<T(!new)>(s: seq<T>, le: (T, T) -> bool, conflict: (T, T) -> bool)
    requires Sorted(s, le)
    ensures Sorted(Survivors(s, conflict), le)
  {
    if s != [] {
      var n := |s| - 1;
      var kept := Survivors(s[..n], conflict);
      SurvivorsSorted(s[..n], le, conflict);
      assert s[..n + 1] == s;
      SurvivorsStep(s, n, conflict);
      forall i | 0 <= i < |kept| ensures le(kept[i], s[n]) {
        SelectMembers(s[..n], Marks(s[..n], conflict), kept[i]);
        assert kept[i] in kept;
        var j :| 0 <= j < n && s[..n][j] == kept[i];
        assert le(s[j], s[n]);
      }
    }
  }

  lemma ScoreIsTotalPreorder()
    ensures TotalPreorder(ScoreLe)
  {
  }

  /** Of one label, and overlapping by the threshold or more. */
  predicate SameObject(a: Scored, b: Scored, iouThreshold: real) {
    a.name == b.name && PixelIou(a.box, b.box) >= iouThreshold
  }

  ghost predicate SuppressedIn(kept: seq<Scored>, d: Scored, iouThreshold: real) {
    exists k :: k in kept && k.score >= d.score && SameObject(d, k, iouThreshold)
  }

  /**
   * The result: in order of score, no two of one label overlapping enough, and a detection left out only for a kept
   * one of its label, of no lower score, that overlaps it enough.
   */
  lemma SuppressionMeans(detections: seq<Scored>, iouThreshold: real)
    ensures var kept := Suppressed(detections, iouThreshold);
            && Sorted(kept, ScoreLe)
            && ConflictFree(kept, SuppressedBy(iouThreshold))
            && (forall i, j :: 0 <= i < j < |kept| ==>
                  kept[i].score >= kept[j].score && !SameObject(kept[j], kept[i], iouThreshold))
            && (forall d :: d in kept ==> d in detections)
            && (forall d :: d in detections && d !in kept ==> SuppressedIn(kept, d, iouThreshold))
  {
    var ordered, conflict := StableSort(detections, ScoreLe), SuppressedBy(iouThreshold);
    var kept, m := Survivors(ordered, conflict), Marks(ordered, conflict);
    ScoreIsTotalPreorder();
    SortSorts(detections, ScoreLe);
    SurvivorsSorted(ordered, ScoreLe, conflict);
    SurvivorsConflictFree(ordered, conflict);
    MarksSolve(ordered, conflict);
    hide PixelIou;
    assert forall k, d :: conflict(k, d) <==> SameObject(d, k, iouThreshold);
    hide SameObject;
    hide ConflictFree, Suppresses, Suppressed, TotalPreorder, Marks;
    forall d | d in kept ensures d in detections {
      SelectMembers(ordered, m, d);
      SortMembers(detections, ScoreLe, d);
    }
    forall d | d in detections && d !in kept ensures SuppressedIn(kept, d, iouThreshold) {
      SortMembers(detections, ScoreLe, d);
      SelectMembers(ordered, m, d);
      var i :| 0 <= i < |ordered| && ordered[i] == d;
      var j :| 0 <= j < i && m[j] && conflict(ordered[j], ordered[i]);
      SelectMembers(ordered, m, ordered[j]);
      assert ordered[j] in kept && ScoreLe(ordered[j], ordered[i]);
    }
    assert kept == Suppressed(detections, iouThreshold);
  }

  /** Suppressing twice changes nothing. */
  lemma SuppressionIsIdempotent(detections: seq<Scored>, iouThreshold: real)
    ensures var kept := Suppressed(detections, iouThreshold); Suppressed(kept, iouThreshold) == kept
  {
    var kept := Suppressed(detections, iouThreshold);
    SuppressionMeans(detections, iouThreshold);
    SortOfSorted(kept, ScoreLe);
    AllSurvive(kept, SuppressedBy(iouThreshold));
  }

  // ---------------------------------------------------------------------------------------------
  // Exactly when the order does not matter.
  // ---------------------------------------------------------------------------------------------

  /** Nothing kept of a strictly higher score suppresses `d`. */
  ghost predicate Free(kept: seq<Scored>, d: Scored, iouThreshold: real) {
    forall k :: k in kept && k.score > d.score ==> !Suppresses(k, d, iouThreshold)
  }

  /** No two different detections of one score are both free. */
  ghost predicate OneFree(detections: seq<Scored>, iouThreshold: real) {
    forall d, e :: (d in detections && e in detections && d != e && d.score == e.score
                    && Free(Suppressed(detections, iouThreshold), d, iouThreshold)
                    ==> !Free(Suppressed(detections, iouThreshold), e, iouThreshold))
  }

  function FreeOf(kept: seq<Scored>, iouThreshold: real, s: seq<Scored>): seq<Scored>
    decreases |s|
  {
    if s == [] then []
    else
      var r := FreeOf(kept, iouThreshold, s[..|s| - 1]);
      if FreeNow(kept, s[|s| - 1], iouThreshold) then r + [s[|s| - 1]] else r
  }

  predicate FreeNow(kept: seq<Scored>, d: Scored, iouThreshold: real) {
    forall k :: k in kept ==> !(k.score > d.score && Suppresses(k, d, iouThreshold))
  }

  lemma FreeNowIs(kept: seq<Scored>, d: Scored, iouThreshold: real)
    ensures FreeNow(kept, d, iouThreshold) <==> Free(kept, d, iouThreshold)
  {
  }

  lemma {:induction false} FreeMembers(kept: seq<Scored>, iouThreshold: real, s: seq<Scored>, d: Scored)
    ensures d in FreeOf(kept, iouThreshold, s) <==> d in s && FreeNow(kept, d, iouThreshold)
    decreases |s|
  {
    if s != [] {
      hide FreeNow;
      FreeMembers(kept, iouThreshold, s[..|s| - 1], d);
      assert s == s[..|s| - 1] + [s[|s| - 1]];
    }
  }

  lemma {:induction false} FreeCounts(kept: seq<Scored>, iouThreshold: real, s: seq<Scored>, d: Scored)
    ensures multiset(FreeOf(kept, iouThreshold, s))[d] == if FreeNow(kept, d, iouThreshold) then multiset(s)[d] else 0
    decreases |s|
  {
    if s != [] {
      hide FreeNow;
      FreeCounts(kept, iouThreshold, s[..|s| - 1], d);
      assert s == s[..|s| - 1] + [s[|s| - 1]];
    }
  }

  lemma {:induction false} FreeSorted(kept: seq<Scored>, iouThreshold: real, s: seq<Scored>)
    requires Sorted(s, ScoreLe)
    ensures Sorted(FreeOf(kept, iouThreshold, s), ScoreLe)
    decreases |s|
  {
    if s != [] {
      var n := |s| - 1;
      hide FreeNow;
      FreeSorted(kept, iouThreshold, s[..n]);
      var r := FreeOf(kept, iouThreshold, s[..n]);
      forall i | 0 <= i < |r| ensures ScoreLe(r[i], s[n]) {
        FreeMembers(kept, iouThreshold, s[..n], r[i]);
        var j :| 0 <= j < n && s[..n][j] == r[i];
        assert ScoreLe(s[j], s[n]);
      }
    }
  }

  /** The list is free of `kept`, up to place `n`, and so are the survivors. */
  lemma {:induction false} FreePrefix(kept: seq<Scored>, iouThreshold: real, s: seq<Scored>, n: nat)
    requires n <= |s|
    ensures FreeOf(kept, iouThreshold, s[..n]) <= FreeOf(kept, iouThreshold, s)
    decreases |s|
  {
    if n < |s| {
      assert s[..|s| - 1][..n] == s[..n];
      FreePrefix(kept, iouThreshold, s[..|s| - 1], n);
    } else {
      assert s[..n] == s;
    }
  }

  lemma {:induction false} SurvivorsPrefix<T>(s: seq<T>, conflict: (T, T) -> bool, n: nat)
    requires n <= |s|
    ensures Survivors(s[..n], conflict) <= Survivors(s, conflict)
    decreases |s|
  {
    if n < |s| {
      assert s[..|s| - 1][..n] == s[..n];
      SurvivorsPrefix(s[..|s| - 1], conflict, n);
      assert s[..|s|] == s;
      SurvivorsStep(s, |s| - 1, conflict);
    } else {
      assert s[..n] == s;
    }
  }

  /** What survives and comes before an element survives among what comes before. */
  lemma EarlierSurvivors<T>(s: seq<T>, conflict: (T, T) -> bool, n: nat, k: T)
    requires n <= |s| && k in Survivors(s, conflict)
    requires forall i :: n <= i < |s| ==> s[i] != k
    ensures k in Survivors(s[..n], conflict)
  {
    var m, w := Marks(s, conflict), Marks(s[..n], conflict);
    SelectMembers(s, m, k);
    var i :| 0 <= i < |s| && m[i] && s[i] == k;
    MarksPrefix(s, conflict, n);
    SelectMembers(s[..n], w, k);
    assert w[i] && s[..n][i] == k;
  }

  lemma {:induction false} MarksPrefix<T>(s: seq<T>, conflict: (T, T) -> bool, n: nat)
    requires n <= |s|
    ensures Marks(s[..n], conflict) == Marks(s, conflict)[..n]
    decreases |s|
  {
    if n < |s| {
      assert s[..|s| - 1][..n] == s[..n];
      MarksPrefix(s[..|s| - 1], conflict, n);
      assert Marks(s, conflict)[..n] == Marks(s[..|s| - 1], conflict)[..n];
    } else {
      assert s[..n] == s;
    }
  }

  /** One more element: kept if it is free, and otherwise suppressed by a survivor. */
  lemma FreeStep(kept: seq<Scored>, iouThreshold: real, s: seq<Scored>)
    requires s != []
    requires var front, conflict := s[..|s| - 1], SuppressedBy(iouThreshold);
             && Survivors(front, conflict) == Survivors(FreeOf(kept, iouThreshold, front), conflict)
             && (FreeNow(kept, s[|s| - 1], iouThreshold)
                 || exists k :: k in Survivors(front, conflict) && Suppresses(k, s[|s| - 1], iouThreshold))
    ensures Survivors(s, SuppressedBy(iouThreshold))
            == Survivors(FreeOf(kept, iouThreshold, s), SuppressedBy(iouThreshold))
  {
    var conflict, n := SuppressedBy(iouThreshold), |s| - 1;
    var f, x := FreeOf(kept, iouThreshold, s[..n]), s[n];
    assert s[..n] + [x] == s;
    hide FreeNow, Suppresses;
    assert FreeOf(kept, iouThreshold, s) == if FreeNow(kept, x, iouThreshold) then f + [x] else f;
    hide FreeOf, Survivors;
    SurvivorsOfMore(s[..n], x, conflict);
    if FreeNow(kept, x, iouThreshold) {
      SurvivorsOfMore(f, x, conflict);
    } else {
      var k :| k in Survivors(s[..n], conflict) && Suppresses(k, x, iouThreshold);
      assert conflict(k, x);
    }
  }

  lemma SurvivorsOfMore<T>(s: seq<T>, x: T, conflict: (T, T) -> bool)
    ensures Survivors(s + [x], conflict)
            == if exists k :: k in Survivors(s, conflict) && conflict(k, x) then Survivors(s, conflict)
               else Survivors(s, conflict) + [x]
  {
    var t := s + [x];
    assert t[..|s|] == s && t[..|s| + 1] == t;
    hide Survivors;
    SurvivorsStep(t, |s|, conflict);
  }

  /**
   * The pass over a sorted list keeps what it keeps of the free ones alone, if what is kept of these is what
   * makes the others unfree.
   */
  lemma {:induction false} OnlyFreeMatter(kept: seq<Scored>, iouThreshold: real, s: seq<Scored>, all: seq<Scored>)
    requires Sorted(all, ScoreLe) && s <= all
    requires kept == Survivors(FreeOf(kept, iouThreshold, all), SuppressedBy(iouThreshold))
    ensures Survivors(s, SuppressedBy(iouThreshold))
            == Survivors(FreeOf(kept, iouThreshold, s), SuppressedBy(iouThreshold))
    decreases |s|
  {
    var conflict := SuppressedBy(iouThreshold);
    if s != [] {
      var n := |s| - 1;
      var front, x := s[..n], s[n];
      OnlyFreeMatter(kept, iouThreshold, front, all);
      if !FreeNow(kept, x, iouThreshold) {
        var k :| k in kept && k.score > x.score && Suppresses(k, x, iouThreshold);
        UnfreeSuppressed(kept, iouThreshold, s, all, k);
      }
      FreeStep(kept, iouThreshold, s);
    }
  }

  /** Whoever makes the next element unfree survives among those before it. */
  lemma UnfreeSuppressed(kept: seq<Scored>, iouThreshold: real, s: seq<Scored>, all: seq<Scored>, k: Scored)
    requires Sorted(all, ScoreLe) && s <= all && s != []
    requires kept == Survivors(FreeOf(kept, iouThreshold, all), SuppressedBy(iouThreshold))
    requires k in kept && k.score > s[|s| - 1].score
    ensures k in Survivors(FreeOf(kept, iouThreshold, s[..|s| - 1]), SuppressedBy(iouThreshold))
  {
    var n := |s| - 1;
    assert s[..n] == all[..n];
    var free, part := FreeOf(kept, iouThreshold, all), FreeOf(kept, iouThreshold, all[..n]);
    hide FreeNow, Suppresses;
    FreePrefix(kept, iouThreshold, all, n);
    FreeRest(kept, iouThreshold, all, n);
    assert all[n] == s[n] && free[..|part|] == part;
    hide FreeOf, Survivors;
    forall i | |part| <= i < |free| ensures free[i] != k {
      var j :| n <= j < |all| && all[j] == free[i];
      if j > n { assert ScoreLe(all[n], all[j]); }
    }
    EarlierSurvivors(free, SuppressedBy(iouThreshold), |part|, k);
  }

  /** The free ones beyond a prefix's come from beyond the prefix. */
  lemma {:induction false} FreeRest(kept: seq<Scored>, iouThreshold: real, s: seq<Scored>, n: nat)
    requires n <= |s|
    ensures forall i :: |FreeOf(kept, iouThreshold, s[..n])| <= i < |FreeOf(kept, iouThreshold, s)|
                        ==> exists j :: n <= j < |s| && s[j] == FreeOf(kept, iouThreshold, s)[i]
    decreases |s|
  {
    if n == |s| {
      assert s[..n] == s;
    } else {
      var front := s[..|s| - 1];
      assert front[..n] == s[..n];
      FreeRest(kept, iouThreshold, front, n);
      hide FreeNow;
      forall i | |FreeOf(kept, iouThreshold, s[..n])| <= i < |FreeOf(kept, iouThreshold, s)|
        ensures exists j :: n <= j < |s| && s[j] == FreeOf(kept, iouThreshold, s)[i]
      {
        if i < |FreeOf(kept, iouThreshold, front)| {
          var j :| n <= j < |front| && front[j] == FreeOf(kept, iouThreshold, front)[i];
          assert s[j] == FreeOf(kept, iouThreshold, s)[i];
        } else {
          assert s[|s| - 1] == FreeOf(kept, iouThreshold, s)[i];
        }
      }
    }
  }

  /** A list's own survivors are free, so they are what is kept of its free ones. */
  lemma {:induction false} OwnFree(kept: seq<Scored>, iouThreshold: real, s: seq<Scored>, all: seq<Scored>)
    requires Sorted(all, ScoreLe) && s <= all && kept == Survivors(all, SuppressedBy(iouThreshold))
    ensures Survivors(s, SuppressedBy(iouThreshold))
            == Survivors(FreeOf(kept, iouThreshold, s), SuppressedBy(iouThreshold))
    decreases |s|
  {
    var conflict := SuppressedBy(iouThreshold);
    if s != [] {
      var n := |s| - 1;
      var front, x := s[..n], s[n];
      OwnFree(kept, iouThreshold, front, all);
      if !FreeNow(kept, x, iouThreshold) {
        var k :| k in kept && k.score > x.score && Suppresses(k, x, iouThreshold);
        assert all[n] == x && all[..n] == front;
        hide Survivors, Suppresses, FreeOf;
        forall i | n <= i < |all| ensures all[i] != k { if i > n { assert ScoreLe(all[n], all[i]); } }
        EarlierSurvivors(all, conflict, n, k);
      }
      FreeStep(kept, iouThreshold, s);
    }
  }

  /** One free detection for each score leaves the order no say. */
  lemma OneFreeSuffices(a: seq<Scored>, b: seq<Scored>, iouThreshold: real)
    requires multiset(a) == multiset(b) && OneFree(a, iouThreshold)
    ensures Suppressed(a, iouThreshold) == Suppressed(b, iouThreshold)
  {
    var one, two, conflict := StableSort(a, ScoreLe), StableSort(b, ScoreLe), SuppressedBy(iouThreshold);
    var kept := Survivors(one, conflict);
    ScoreIsTotalPreorder();
    SortSorts(a, ScoreLe);
    SortSorts(b, ScoreLe);
    SortKeeps(a, ScoreLe);
    SortKeeps(b, ScoreLe);
    var free, other := FreeOf(kept, iouThreshold, one), FreeOf(kept, iouThreshold, two);
    FreeSorted(kept, iouThreshold, one);
    FreeSorted(kept, iouThreshold, two);
    SameFree(kept, iouThreshold, one, two);
    NoFreeTies(a, iouThreshold);
    assert kept == Suppressed(a, iouThreshold);
    hide FreeOf, Suppressed, OneFree, ScoreLe;
    SortedUniqueOn(free, other, ScoreLe);
    OwnFree(kept, iouThreshold, one, one);
    OnlyFreeMatter(kept, iouThreshold, two, two);
    SuppressedIs(b, iouThreshold);
  }

  lemma SuppressedIs(a: seq<Scored>, iouThreshold: real)
    ensures Suppressed(a, iouThreshold) == Survivors(StableSort(a, ScoreLe), SuppressedBy(iouThreshold))
  {
  }

  lemma SameFree(kept: seq<Scored>, iouThreshold: real, s: seq<Scored>, t: seq<Scored>)
    requires multiset(s) == multiset(t)
    ensures multiset(FreeOf(kept, iouThreshold, s)) == multiset(FreeOf(kept, iouThreshold, t))
  {
    hide FreeOf, FreeNow;
    forall d ensures multiset(FreeOf(kept, iouThreshold, s))[d] == multiset(FreeOf(kept, iouThreshold, t))[d] {
      FreeCounts(kept, iouThreshold, s, d);
      FreeCounts(kept, iouThreshold, t, d);
    }
  }

  lemma NoFreeTies(a: seq<Scored>, iouThreshold: real)
    requires OneFree(a, iouThreshold)
    ensures NoTies(FreeOf(Suppressed(a, iouThreshold), iouThreshold, StableSort(a, ScoreLe)), ScoreLe)
  {
    var kept, sorted := Suppressed(a, iouThreshold), StableSort(a, ScoreLe);
    var free := FreeOf(kept, iouThreshold, sorted);
    hide FreeOf, FreeNow, Free, Suppressed;
    forall i, j | 0 <= i < |free| && 0 <= j < |free| && ScoreLe(free[i], free[j]) && ScoreLe(free[j], free[i])
      ensures free[i] == free[j]
    {
      FreeMembers(kept, iouThreshold, sorted, free[i]);
      FreeMembers(kept, iouThreshold, sorted, free[j]);
      SortMembers(a, ScoreLe, free[i]);
      SortMembers(a, ScoreLe, free[j]);
      FreeNowIs(kept, free[i], iouThreshold);
      FreeNowIs(kept, free[j], iouThreshold);
    }
  }

  /** Put first in the list, an element comes before all others of its score. */
  lemma {:induction false} InsertFirst(d: Scored, s: seq<Scored>) returns (h: nat)
    requires Sorted(s, ScoreLe)
    ensures h <= |s| && Insert(d, s, ScoreLe) == s[..h] + [d] + s[h..]
    ensures (forall i :: 0 <= i < h ==> s[i].score > d.score) && (forall i :: h <= i < |s| ==> s[i].score <= d.score)
  {
    if s == [] || ScoreLe(d, s[0]) {
      h := 0;
      forall i | 0 <= i < |s| ensures s[i].score <= d.score { if i > 0 { assert ScoreLe(s[0], s[i]); } }
    } else {
      var k := InsertFirst(d, s[1..]);
      h := k + 1;
      assert s[..h] == [s[0]] + s[1..][..k] && s[h..] == s[1..][k..];
      forall i | 0 <= i < h ensures s[i].score > d.score { if i > 0 { assert s[i] == s[1..][i - 1]; } }
      forall i | h <= i < |s| ensures s[i].score <= d.score { assert s[i] == s[1..][i - 1]; }
    }
  }

  lemma SurvivorIsIn<T>(s: seq<T>, conflict: (T, T) -> bool, k: T)
    requires k in Survivors(s, conflict)
    ensures k in s
  {
    SelectMembers(s, Marks(s, conflict), k);
  }

  /** A free detection put first is the first of its score or a lower one to be kept. */
  lemma FirstIsKept(d: Scored, rest: seq<Scored>, iouThreshold: real) returns (h: nat)
    requires Free(Suppressed([d] + rest, iouThreshold), d, iouThreshold)
    ensures var kept := Suppressed([d] + rest, iouThreshold);
            h < |kept| && kept[h] == d && forall i :: 0 <= i < h ==> kept[i].score > d.score
  {
    var s := StableSort(rest, ScoreLe);
    ScoreIsTotalPreorder();
    SortSorts(rest, ScoreLe);
    var p := InsertFirst(d, s);
    assert ([d] + rest)[1..] == rest;
    assert StableSort([d] + rest, ScoreLe) == s[..p] + [d] + s[p..];
    hide StableSort, Survivors, Suppresses;
    h := KeptAfterHigher(d, s[..p], s[p..], iouThreshold);
  }

  /** A free detection is kept next after those of higher score. */
  lemma KeptAfterHigher(d: Scored, higher: seq<Scored>, lower: seq<Scored>, iouThreshold: real) returns (h: nat)
    requires forall i :: 0 <= i < |higher| ==> higher[i].score > d.score
    requires Free(Survivors(higher + [d] + lower, SuppressedBy(iouThreshold)), d, iouThreshold)
    ensures var kept := Survivors(higher + [d] + lower, SuppressedBy(iouThreshold));
            h < |kept| && kept[h] == d && forall i :: 0 <= i < h ==> kept[i].score > d.score
  {
    var conflict, p, all := SuppressedBy(iouThreshold), |higher|, higher + [d] + lower;
    var before := Survivors(higher, conflict);
    assert all[..p] == higher && all[..p + 1] == higher + [d];
    hide Survivors, Suppresses;
    SurvivorsPrefix(all, conflict, p);
    SurvivorsPrefix(all, conflict, p + 1);
    SurvivorsOfMore(higher, d, conflict);
    forall k | k in before ensures k in Survivors(all, conflict) && k.score > d.score {
      SurvivorIsIn(higher, conflict, k);
    }
    h := |before|;
  }

  /**
   * Exactly when the order in which tiles report does not matter: when no two different detections of one score
   * are both left unsuppressed by what is kept of the higher scores.
   */
  lemma OrderMattersExactly(a: seq<Scored>, iouThreshold: real)
    ensures (forall b :: multiset(b) == multiset(a) ==> Suppressed(b, iouThreshold) == Suppressed(a, iouThreshold))
            <==> OneFree(a, iouThreshold)
  {
    hide Suppressed, Free;
    if OneFree(a, iouThreshold) {
      forall b | multiset(b) == multiset(a) ensures Suppressed(b, iouThreshold) == Suppressed(a, iouThreshold) {
        OneFreeSuffices(a, b, iouThreshold);
      }
    } else if forall b :: multiset(b) == multiset(a) ==> Suppressed(b, iouThreshold) == Suppressed(a, iouThreshold) {
      var d, e :| d in a && e in a && d != e && d.score == e.score
        && Free(Suppressed(a, iouThreshold), d, iouThreshold) && Free(Suppressed(a, iouThreshold), e, iouThreshold);
      var r := Without(a, d);
      var q := Without(a, e);
      assert multiset([d] + r) == multiset(a) && multiset([e] + q) == multiset(a);
      var h := FirstIsKept(d, r, iouThreshold);
      var g := FirstIsKept(e, q, iouThreshold);
    }
  }

  /** The list with one copy of `d` taken out. */
  lemma Without(a: seq<Scored>, d: Scored) returns (r: seq<Scored>)
    requires d in a
    ensures multiset([d] + r) == multiset(a)
  {
    var i :| 0 <= i < |a| && a[i] == d;
    r := a[..i] + a[i + 1..];
    assert a == a[..i] + [d] + a[i + 1..];
  }

  /** In particular if no two detections tie in score. */
  lemma OrderOfTilesDoesNotMatter(a: seq<Scored>, b: seq<Scored>, iouThreshold: real)
    requires multiset(a) == multiset(b) && NoTies(a, ScoreLe)
    ensures Suppressed(a, iouThreshold) == Suppressed(b, iouThreshold)
  {
    hide Suppressed, Free;
    assert forall i, j :: 0 <= i < |a| && 0 <= j < |a| && a[i].score == a[j].score ==> ScoreLe(a[i], a[j]);
    OneFreeSuffices(a, b, iouThreshold);
  }

  /** Three boxes of one score in a row, each overlapping the next by more than half. */
  function Tied(i: nat): Scored { Scored("car", 0.5, PixelBox(3 * i, 0, 10, 10)) }

  lemma TiedSuppress(i: nat, j: nat)
    requires i < 3 && j < 3
    ensures Suppresses(Tied(i), Tied(j), 0.5) <==> -1 <= i - j <= 1
  {
    var a, b := Tied(i).box, Tied(j).box;
    var apart := if i <= j then j - i else i - j;
    assert Inter(a, b) == (10 - 3 * apart) * 10;
    assert PixelIou(a, b) == (100 - 30 * apart) as real / (100 + 30 * apart) as real;
    hide Inter, PixelIou;
    TiedQuotient(apart);
    assert PixelIou(b, a) == PixelIou(a, b) by {
      PixelIouAgrees(a, b);
      PixelIouAgrees(b, a);
      D.IouSymmetric(RealBox(a), RealBox(b));
    }
  }

  lemma TiedQuotient(apart: nat)
    requires apart < 3
    ensures (100 - 30 * apart) as real / (100 + 30 * apart) as real >= 0.5 <==> apart <= 1
  {
  }

  /** With ties it does: the first of the tied boxes to come wins. */
  lemma TiesDependOnOrder()
    ensures Suppressed([Tied(0), Tied(1), Tied(2)], 0.5) == [Tied(0), Tied(2)]
    ensures Suppressed([Tied(1), Tied(0), Tied(2)], 0.5) == [Tied(1)]
  {
    TiedSuppress(0, 1);
    TiedSuppress(0, 2);
    TiedSuppress(1, 2);
    TiedSuppress(1, 0);
    var a, b, c := Tied(0), Tied(1), Tied(2);
    TiedInOrder(a, b, c);
    TiedInOrder(b, a, c);
    var conflict := SuppressedBy(0.5);
    assert conflict(a, b) && !conflict(a, c) && conflict(b, a) && conflict(b, c);
    FirstOfThree(a, b, c, conflict);
    FirstOfThree(b, a, c, conflict);
  }

  lemma TiedInOrder(a: Scored, b: Scored, c: Scored)
    requires a.score == b.score == c.score
    ensures Suppressed([a, b, c], 0.5) == Survivors([a, b, c], SuppressedBy(0.5))
  {
    assert Sorted([a, b, c], ScoreLe);
    SortOfSorted([a, b, c], ScoreLe);
  }

  /** The pass over three elements, the first of which conflicts with the second. */
  lemma FirstOfThree<T>(a: T, b: T, c: T, conflict: (T, T) -> bool)
    requires conflict(a, b)
    ensures Survivors([a, b, c], conflict) == if conflict(a, c) then [a] else [a, c]
  {
    var s := [a, b, c];
    assert s[..0] == [] && s[..1] == [a] && s[..2] == [a, b] && s[..3] == s;
    assert Survivors(s[..0], conflict) == [];
    hide Survivors;
    SurvivorsStep(s, 0, conflict);
    SurvivorsStep(s, 1, conflict);
    SurvivorsStep(s, 2, conflict);
  }
}
