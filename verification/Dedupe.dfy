/**
 * De-duplication of detections: sort, keep greedily from the most confident down, sort again;
 * and the merge of the lists that several partitions of one video produced.
 */
module Dedupe {
  import opened Sorting
  import opened Sets
  import opened Detections
  import opened Greedy

  const TIME_TOLERANCE: real := 0.000000001

  /** The test of the inner loop: is `cand` a duplicate of `keep`? */
  predicate Conflict(keep: Detection, cand: Detection, iouThreshold: real, sameClassOnly: bool) {
    && !(sameClassOnly && keep.className != cand.className)
    && !(Abs(keep.timestamp - cand.timestamp) > TIME_TOLERANCE)
    && Iou(keep.box, cand.box) >= iouThreshold
  }

  function ConflictBy(iouThreshold: real, sameClassOnly: bool): (Detection, Detection) -> bool {
    (keep, cand) => Conflict(keep, cand, iouThreshold, sameClassOnly)
  }

  /** The order in which candidates are met: two stable sorts, one after the other. */
  function Ordered(ds: seq<Detection>): seq<Detection> {
    StableSort(StableSort(ds, TimelineLe), ConfidenceLe)
  }

  /** What is kept, in timeline order. */
  function Kept(ds: seq<Detection>, iouThreshold: real, sameClassOnly: bool): seq<Detection> {
    StableSort(Survivors(Ordered(ds), ConflictBy(iouThreshold, sameClassOnly)), TimelineLe)
  }

  /** The de-duplication loop. */
  method DedupeDetections(ds: seq<Detection>, iouThreshold: real, sameClassOnly: bool) returns (r: seq<Detection>)
    ensures r == Kept(ds, iouThreshold, sameClassOnly)
  {
    var ordered := Ordered(ds);
    ghost var conflict := ConflictBy(iouThreshold, sameClassOnly);
    var kept: seq<Detection> := [];
    for i := 0 to |ordered|
      invariant kept == Survivors(ordered[..i], conflict)
    {
      var cand := ordered[i];
      var duplicate := false;
      var k := 0;
      while k < |kept|
        invariant 0 <= k <= |kept|
        invariant !duplicate ==> forall j :: 0 <= j < k ==> !Conflict(kept[j], cand, iouThreshold, sameClassOnly)
        invariant duplicate ==> exists d :: d in kept && Conflict(d, cand, iouThreshold, sameClassOnly)
      {
        var keep := kept[k];
        k := k + 1;
        if sameClassOnly && keep.className != cand.className { continue; }
        if Abs(keep.timestamp - cand.timestamp) > TIME_TOLERANCE { continue; }
        if Iou(keep.box, cand.box) >= iouThreshold {
          duplicate := true;
          assert keep in kept && Conflict(keep, cand, iouThreshold, sameClassOnly);
          break;
        }
      }
      SurvivorsStep(ordered, i, conflict);
      assert duplicate <==> exists d :: d in kept && conflict(d, ordered[i]);
      if !duplicate { kept := kept + [cand]; }
    }
    assert ordered[..|ordered|] == ordered;
    r := StableSort(kept, TimelineLe);
  }

  // ---------------------------------------------------------------------------------------------
  // The two sorts amount to one ranking.
  // ---------------------------------------------------------------------------------------------

  lemma ConflictIsSymmetric(iouThreshold: real, sameClassOnly: bool)
    ensures Symmetric(ConflictBy(iouThreshold, sameClassOnly))
  {
    forall a: Detection, b: Detection | Conflict(a, b, iouThreshold, sameClassOnly)
      ensures Conflict(b, a, iouThreshold, sameClassOnly)
    {
      IouSymmetric(a.box, b.box);
    }
  }

  lemma OrderedIsRanked(ds: seq<Detection>)
    ensures Sorted(Ordered(ds), RankLe()) && multiset(Ordered(ds)) == multiset(ds)
  {
    var first := StableSort(ds, TimelineLe);
    TimelineIsTotalOrder();
    ConfidenceIsTotalPreorder();
    SortSorts(ds, TimelineLe);
    SortKeeps(ds, TimelineLe);
    StableSortIsLexicographic(first, ConfidenceLe, TimelineLe);
    SortKeeps(first, ConfidenceLe);
  }

  lemma SameElements(a: seq<Detection>, b: seq<Detection>)
    requires multiset(a) == multiset(b)
    ensures Elements(a) == Elements(b)
  {
    forall d ensures d in a <==> d in b {
      assert d in a <==> d in multiset(a);
      assert d in b <==> d in multiset(b);
    }
  }

  /** The result says nothing about the order of the input. */
  lemma OrderDoesNotMatter(a: seq<Detection>, b: seq<Detection>, iouThreshold: real, sameClassOnly: bool)
    requires multiset(a) == multiset(b)
    ensures Kept(a, iouThreshold, sameClassOnly) == Kept(b, iouThreshold, sameClassOnly)
  {
    OrderedIsRanked(a);
    OrderedIsRanked(b);
    RankIsTotalOrder();
    hide Ordered, RankLe, TotalOrder, Sorted;
    SortedUnique(Ordered(a), Ordered(b), RankLe());
  }

  // ---------------------------------------------------------------------------------------------
  // What is kept.
  // ---------------------------------------------------------------------------------------------

  /**
   * A detection is kept if and only if no better-ranked kept one conflicts with it; the result is
   * in timeline order.
   */
  lemma KeptIsKernel(ds: seq<Detection>, iouThreshold: real, sameClassOnly: bool)
    ensures var kept := Kept(ds, iouThreshold, sameClassOnly);
            Sorted(kept, TimelineLe)
            && Kernel(Elements(kept), Elements(ds), RankLe(), ConflictBy(iouThreshold, sameClassOnly))
  {
    var conflict := ConflictBy(iouThreshold, sameClassOnly);
    var survivors := Survivors(Ordered(ds), conflict);
    OrderedIsRanked(ds);
    RankIsTotalOrder();
    TimelineIsTotalOrder();
    SortSorts(survivors, TimelineLe);
    SortKeeps(survivors, TimelineLe);
    SameElements(Ordered(ds), ds);
    SameElements(survivors, Kept(ds, iouThreshold, sameClassOnly));
    hide RankLe, TimelineLe, Kernel, Sorted;
    SurvivorsAreKernel(Ordered(ds), RankLe(), conflict);
  }

  /** `d` is a duplicate of `k`: of its class, if classes are kept apart, of its time, and overlapping it enough. */
  predicate DuplicateOf(k: Detection, d: Detection, iouThreshold: real, sameClassOnly: bool) {
    && (sameClassOnly ==> k.className == d.className)
    && -0.000000001 <= k.timestamp - d.timestamp <= 0.000000001
    && Iou(k.box, d.box) >= iouThreshold
  }

  /**
   * The same on the detections' fields: the result runs forwards in time, and a detection is kept if and only if it is
   * no duplicate of another kept one that is more confident, or as confident and earlier in time, class and place.
   */
  lemma KeptInOrder(ds: seq<Detection>, iouThreshold: real, sameClassOnly: bool)
    ensures var kept := Kept(ds, iouThreshold, sameClassOnly);
            && (forall i, j :: 0 <= i < j < |kept| ==> InTimelineOrder(kept[i], kept[j]))
            && (forall d :: d in kept <==>
                              && d in ds
                              && forall k :: k in kept && k != d && RanksFirst(k, d) ==>
                                               !DuplicateOf(k, d, iouThreshold, sameClassOnly))
  {
    var kept := Kept(ds, iouThreshold, sameClassOnly);
    KeptIsKernel(ds, iouThreshold, sameClassOnly);
    hide Kept, InTimelineOrder, RanksFirst, TimelineLe, Iou;
    forall i, j | 0 <= i < j < |kept| ensures InTimelineOrder(kept[i], kept[j]) { TimelineMeans(kept[i], kept[j]); }
    assert forall k, d :: ConflictBy(iouThreshold, sameClassOnly)(k, d) <==>
                            DuplicateOf(k, d, iouThreshold, sameClassOnly);
    hide Conflict, ConflictBy, DuplicateOf, RankLe;
    forall d ensures d in kept <==> d in ds && forall k :: k in kept && k != d && RanksFirst(k, d) ==>
                                                             !DuplicateOf(k, d, iouThreshold, sameClassOnly) {
      forall k ensures RankLe()(k, d) <==> RanksFirst(k, d) { RankMeans(k, d); }
      assert d in Elements(ds) <==> d in ds;
      assert forall k :: k in Elements(kept) <==> k in kept;
    }
  }

  /** The kernel leaves no choice: any set with the property is the set of kept detections. */
  lemma KernelIsKept(ds: seq<Detection>, iouThreshold: real, sameClassOnly: bool, chosen: set<Detection>)
    requires Kernel(chosen, Elements(ds), RankLe(), ConflictBy(iouThreshold, sameClassOnly))
    ensures chosen == Elements(Kept(ds, iouThreshold, sameClassOnly))
  {
    KeptIsKernel(ds, iouThreshold, sameClassOnly);
    RankIsTotalOrder();
    hide *;
    KernelUnique(chosen, Elements(Kept(ds, iouThreshold, sameClassOnly)), Elements(ds), RankLe(),
                 ConflictBy(iouThreshold, sameClassOnly));
  }

  /** Everything dropped is a duplicate of something kept that is at least as confident. */
  lemma DroppedIsCovered(ds: seq<Detection>, iouThreshold: real, sameClassOnly: bool, d: Detection)
    requires d in ds && d !in Kept(ds, iouThreshold, sameClassOnly)
    ensures exists k :: (k in Kept(ds, iouThreshold, sameClassOnly)
                         && Conflict(k, d, iouThreshold, sameClassOnly) && k.confidence >= d.confidence)
  {
    KeptIsKernel(ds, iouThreshold, sameClassOnly);
    hide Kept;
    var kept := Kept(ds, iouThreshold, sameClassOnly);
    assert d in Elements(ds) && d !in Elements(kept);
    var k :| k in Elements(kept) && Better(k, d, RankLe()) && ConflictBy(iouThreshold, sameClassOnly)(k, d);
    assert k in kept && ConfidenceLe(k, d);
  }

  /** No two kept detections are duplicates of each other. */
  lemma KeptConflictFree(ds: seq<Detection>, iouThreshold: real, sameClassOnly: bool)
    ensures ConflictFree(Kept(ds, iouThreshold, sameClassOnly), ConflictBy(iouThreshold, sameClassOnly))
  {
    var conflict := ConflictBy(iouThreshold, sameClassOnly);
    ConflictIsSymmetric(iouThreshold, sameClassOnly);
    SurvivorsConflictFree(Ordered(ds), conflict);
    SortKeepsConflictFree(Survivors(Ordered(ds), conflict), TimelineLe, conflict);
  }

  /** De-duplicating twice changes nothing. */
  lemma DedupeIsIdempotent(ds: seq<Detection>, iouThreshold: real, sameClassOnly: bool)
    ensures var kept := Kept(ds, iouThreshold, sameClassOnly);
            Kept(kept, iouThreshold, sameClassOnly) == kept
  {
    var conflict := ConflictBy(iouThreshold, sameClassOnly);
    var kept := Kept(ds, iouThreshold, sameClassOnly);
    KeptConflictFree(ds, iouThreshold, sameClassOnly);
    KeptIsKernel(ds, iouThreshold, sameClassOnly);
    ConflictIsSymmetric(iouThreshold, sameClassOnly);
    SortKeepsConflictFree(kept, TimelineLe, conflict);
    SortKeepsConflictFree(StableSort(kept, TimelineLe), ConfidenceLe, conflict);
    AllSurvive(Ordered(kept), conflict);
    OrderedIsRanked(kept);
    TimelineIsTotalOrder();
    hide ConflictFree, Symmetric, Kernel, TotalOrder, Sorted, TimelineLe;
    SortSorts(Ordered(kept), TimelineLe);
    SortKeeps(Ordered(kept), TimelineLe);
    SortedUnique(StableSort(Ordered(kept), TimelineLe), kept, TimelineLe);
  }

  lemma KeptIsShorter(ds: seq<Detection>, iouThreshold: real, sameClassOnly: bool)
    ensures |Kept(ds, iouThreshold, sameClassOnly)| <= |ds|
  {
    SurvivorsAreFewer(Ordered(ds), ConflictBy(iouThreshold, sameClassOnly));
  }

  // ---------------------------------------------------------------------------------------------
  // Copies.
  // ---------------------------------------------------------------------------------------------

  /** A detection is a duplicate of its own copies. */
  predicate SelfConflicting(d: Detection, iouThreshold: real) {
    Iou(d.box, d.box) >= iouThreshold
  }

  /** When: the threshold is met by 1 and the box has an area, or the threshold asks for nothing. */
  lemma SelfConflictMeans(d: Detection, iouThreshold: real, sameClassOnly: bool)
    ensures Conflict(d, d, iouThreshold, sameClassOnly) == SelfConflicting(d, iouThreshold)
    ensures SelfConflicting(d, iouThreshold) <==> iouThreshold <= 0.0 || (iouThreshold <= 1.0 && Solid(d.box))
  {
    IouFull(d.box, d.box);
    IouBounds(d.box, d.box);
  }

  /** How often a kept detection is listed: once, or, if it is no duplicate of itself, as often as in the input. */
  lemma KeptTimes(ds: seq<Detection>, iouThreshold: real, sameClassOnly: bool, d: Detection)
    requires d in Kept(ds, iouThreshold, sameClassOnly)
    ensures multiset(Kept(ds, iouThreshold, sameClassOnly))[d]
            == if SelfConflicting(d, iouThreshold) then 1 else multiset(ds)[d]
  {
    var conflict := ConflictBy(iouThreshold, sameClassOnly);
    var survivors := Survivors(Ordered(ds), conflict);
    OrderedIsRanked(ds);
    RankIsTotalOrder();
    SortKeeps(survivors, TimelineLe);
    SortMembers(survivors, TimelineLe, d);
    assert conflict(d, d) == SelfConflicting(d, iouThreshold) by { SelfConflictMeans(d, iouThreshold, sameClassOnly); }
    hide SelfConflicting, RankLe, Survivors, Sorted, TotalOrder;
    Multiplicity(Ordered(ds), RankLe(), conflict, d);
  }

  /** If two lists keep the same detections, all duplicates of themselves, they keep the same list. */
  lemma SameKeptSameList(a: seq<Detection>, b: seq<Detection>, iouThreshold: real, sameClassOnly: bool)
    requires Elements(Kept(a, iouThreshold, sameClassOnly)) == Elements(Kept(b, iouThreshold, sameClassOnly))
    requires forall d :: d in Kept(a, iouThreshold, sameClassOnly) ==> SelfConflicting(d, iouThreshold)
    ensures Kept(a, iouThreshold, sameClassOnly) == Kept(b, iouThreshold, sameClassOnly)
  {
    var one, two := Kept(a, iouThreshold, sameClassOnly), Kept(b, iouThreshold, sameClassOnly);
    KeptIsKernel(a, iouThreshold, sameClassOnly);
    KeptIsKernel(b, iouThreshold, sameClassOnly);
    hide Kept, Kernel, SelfConflicting, TimelineLe;
    forall d ensures multiset(one)[d] == multiset(two)[d] {
      assert d in one <==> d in Elements(one);
      assert d in two <==> d in Elements(two);
      if d in one {
        KeptTimes(a, iouThreshold, sameClassOnly, d);
        KeptTimes(b, iouThreshold, sameClassOnly, d);
      } else {
        assert d !in multiset(one) && d !in multiset(two);
      }
    }
    assert multiset(one) == multiset(two);
    TimelineIsTotalOrder();
    SortedUnique(one, two, TimelineLe);
  }

  /**
   * Only which detections there are matters, not how many copies of each and in which order,
   * provided those that are kept are duplicates of themselves.
   */
  lemma OnlyElementsMatter(a: seq<Detection>, b: seq<Detection>, iouThreshold: real, sameClassOnly: bool)
    requires Elements(a) == Elements(b)
    requires forall d :: d in Kept(a, iouThreshold, sameClassOnly) ==> SelfConflicting(d, iouThreshold)
    ensures Kept(a, iouThreshold, sameClassOnly) == Kept(b, iouThreshold, sameClassOnly)
  {
    KeptIsKernel(a, iouThreshold, sameClassOnly);
    hide *;
    KernelIsKept(b, iouThreshold, sameClassOnly, Elements(Kept(a, iouThreshold, sameClassOnly)));
    SameKeptSameList(a, b, iouThreshold, sameClassOnly);
  }

  /**
   * When copies collapse: every list with the same detections gives the same result if and only
   * if every kept detection is a duplicate of itself.
   */
  lemma CopiesCollapseExactly(ds: seq<Detection>, iouThreshold: real, sameClassOnly: bool)
    ensures (forall d :: d in Kept(ds, iouThreshold, sameClassOnly) ==> SelfConflicting(d, iouThreshold))
            <==> (forall other :: Elements(other) == Elements(ds)
                                  ==> Kept(other, iouThreshold, sameClassOnly) == Kept(ds, iouThreshold, sameClassOnly))
  {
    hide Kept, SelfConflicting;
    if forall d :: d in Kept(ds, iouThreshold, sameClassOnly) ==> SelfConflicting(d, iouThreshold) {
      forall other | Elements(other) == Elements(ds)
        ensures Kept(other, iouThreshold, sameClassOnly) == Kept(ds, iouThreshold, sameClassOnly)
      {
        OnlyElementsMatter(ds, other, iouThreshold, sameClassOnly);
      }
    } else {
      var d :| d in Kept(ds, iouThreshold, sameClassOnly) && !SelfConflicting(d, iouThreshold);
      KeptIsKernel(ds, iouThreshold, sameClassOnly);
      assert d in Elements(Kept(ds, iouThreshold, sameClassOnly)) && d in Elements(ds);
      var more := ds + [d];
      assert Elements(more) == Elements(ds);
      if Kept(more, iouThreshold, sameClassOnly) == Kept(ds, iouThreshold, sameClassOnly) {
        KeptTimes(ds, iouThreshold, sameClassOnly, d);
        KeptTimes(more, iouThreshold, sameClassOnly, d);
      }
    }
  }

  // ---------------------------------------------------------------------------------------------
  // Merging.
  // ---------------------------------------------------------------------------------------------

  function Concat(groups: seq<seq<Detection>>): seq<Detection> {
    if groups == [] then [] else Concat(groups[..|groups| - 1]) + groups[|groups| - 1]
  }

  /** Merge many lists into one; classes are always kept apart. */
  method MergeDetectionSets(groups: seq<seq<Detection>>, iouThreshold: real) returns (r: seq<Detection>)
    ensures r == Kept(Concat(groups), iouThreshold, true)
  {
    var combined: seq<Detection> := [];
    for i := 0 to |groups|
      invariant combined == Concat(groups[..i])
    {
      assert groups[..i + 1][..i] == groups[..i];
      combined := combined + groups[i];
    }
    assert groups[..|groups|] == groups;
    r := DedupeDetections(combined, iouThreshold, true);
  }

  lemma {:induction false} ConcatMembers(groups: seq<seq<Detection>>, d: Detection)
    ensures d in Concat(groups) <==> exists g :: 0 <= g < |groups| && d in groups[g]
  {
    if groups != [] {
      var n := |groups| - 1;
      ConcatMembers(groups[..n], d);
      if d in Concat(groups[..n]) {
        var g :| 0 <= g < n && d in groups[..n][g];
        assert d in groups[g];
      }
      if g :| 0 <= g < |groups| && d in groups[g] {
        if g < n { assert d in groups[..n][g]; }
      }
    }
  }

  ghost predicate InSomeGroup(d: Detection, groups: seq<seq<Detection>>) {
    exists g :: 0 <= g < |groups| && d in groups[g]
  }

  /** The lists hold nothing but detections of `whole`. */
  ghost predicate DrawnFrom(groups: seq<seq<Detection>>, whole: seq<Detection>) {
    forall d :: InSomeGroup(d, groups) ==> d in whole
  }

  /** The lists are drawn from `whole` and miss none of it. */
  ghost predicate Cover(groups: seq<seq<Detection>>, whole: seq<Detection>) {
    forall d :: d in whole <==> InSomeGroup(d, groups)
  }

  /** Every detection is a duplicate of its copies, by a condition on the inputs alone. */
  ghost predicate Proper(ds: seq<Detection>, iouThreshold: real) {
    iouThreshold <= 0.0 || (iouThreshold <= 1.0 && forall d :: d in ds ==> Solid(d.box))
  }

  lemma KeptOfProper(ds: seq<Detection>, iouThreshold: real, d: Detection)
    requires Proper(ds, iouThreshold) && d in Kept(ds, iouThreshold, true)
    ensures d in ds && SelfConflicting(d, iouThreshold)
  {
    KeptIsKernel(ds, iouThreshold, true);
    hide Kept;
    assert d in Elements(Kept(ds, iouThreshold, true)) && d in Elements(ds);
    SelfConflictMeans(d, iouThreshold, true);
  }

  /**
   * The merge law: lists that together cover `whole`, overlapping or not, in any order and with
   * any number of copies, merge into exactly what de-duplicating `whole` gives.
   */
  lemma MergeOfCover(groups: seq<seq<Detection>>, whole: seq<Detection>, iouThreshold: real)
    requires Cover(groups, whole) && Proper(whole, iouThreshold)
    ensures Kept(Concat(groups), iouThreshold, true) == Kept(whole, iouThreshold, true)
  {
    forall d ensures d in Concat(groups) <==> d in whole { ConcatMembers(groups, d); }
    assert Elements(Concat(groups)) == Elements(whole);
    forall d | d in Kept(whole, iouThreshold, true) ensures SelfConflicting(d, iouThreshold) {
      KeptOfProper(whole, iouThreshold, d);
    }
    hide *;
    OnlyElementsMatter(whole, Concat(groups), iouThreshold, true);
  }

  /** What is kept of a list is the kernel of every part of the list that contains it. */
  lemma KernelOfPart(kept: set<Detection>, part: set<Detection>, all: set<Detection>,
                     le: (Detection, Detection) -> bool,
                     conflict: (Detection, Detection) -> bool)
    requires Kernel(kept, all, le, conflict) && kept <= part <= all
    ensures Kernel(kept, part, le, conflict)
  {
    hide Better;
  }

  /** Two lists keep the same exactly when each contains what the other keeps. */
  lemma SameKeptExactly(a: seq<Detection>, b: seq<Detection>, iouThreshold: real)
    requires Proper(a, iouThreshold) && Proper(b, iouThreshold)
    ensures Kept(a, iouThreshold, true) == Kept(b, iouThreshold, true)
            <==> (forall d :: d in Kept(a, iouThreshold, true) ==> d in b)
                 && (forall d :: d in Kept(b, iouThreshold, true) ==> d in a)
  {
    var one, two := Kept(a, iouThreshold, true), Kept(b, iouThreshold, true);
    KeptIsKernel(a, iouThreshold, true);
    KeptIsKernel(b, iouThreshold, true);
    forall d | d in one ensures d in a { KeptOfProper(a, iouThreshold, d); }
    forall d | d in two ensures d in b { KeptOfProper(b, iouThreshold, d); }
    if (forall d :: d in one ==> d in b) && (forall d :: d in two ==> d in a) {
      hide Kept, Kernel, RankLe, Proper;
      var both := Elements(a) * Elements(b);
      KernelOfPart(Elements(one), both, Elements(a), RankLe(), ConflictBy(iouThreshold, true));
      KernelOfPart(Elements(two), both, Elements(b), RankLe(), ConflictBy(iouThreshold, true));
      RankIsTotalOrder();
      KernelUnique(Elements(one), Elements(two), both, RankLe(), ConflictBy(iouThreshold, true));
      forall d | d in one ensures SelfConflicting(d, iouThreshold) { KeptOfProper(a, iouThreshold, d); }
      SameKeptSameList(a, b, iouThreshold, true);
    }
  }

  /**
   * What a partition may miss: lists drawn from `whole` merge into what de-duplicating `whole`
   * gives if and only if each detection that `whole` keeps is in one of them.
   */
  lemma MergeExactly(groups: seq<seq<Detection>>, whole: seq<Detection>, iouThreshold: real)
    requires DrawnFrom(groups, whole) && Proper(whole, iouThreshold)
    ensures Kept(Concat(groups), iouThreshold, true) == Kept(whole, iouThreshold, true)
            <==> (forall d :: d in Kept(whole, iouThreshold, true) ==> InSomeGroup(d, groups))
  {
    forall d ensures d in Concat(groups) <==> InSomeGroup(d, groups) { ConcatMembers(groups, d); }
    assert Proper(Concat(groups), iouThreshold);
    hide Kept;
    forall d | d in Kept(Concat(groups), iouThreshold, true) ensures d in whole {
      KeptOfProper(Concat(groups), iouThreshold, d);
    }
    hide Proper;
    SameKeptExactly(Concat(groups), whole, iouThreshold);
  }

  /**
   * Merging some lists first: the result is that of merging all at once exactly when the first merge drops
   * nothing that the whole would keep.
   */
  lemma MergeInStagesExactly(first: seq<Detection>, rest: seq<Detection>, iouThreshold: real)
    requires Proper(first + rest, iouThreshold)
    ensures Kept(first + Kept(rest, iouThreshold, true), iouThreshold, true) == Kept(first + rest, iouThreshold, true)
            <==> (forall d :: d in Kept(first + rest, iouThreshold, true) ==>
                                d in first || d in Kept(rest, iouThreshold, true))
  {
    assert forall d :: d in rest ==> d in first + rest;
    assert Proper(rest, iouThreshold);
    var merged := Kept(rest, iouThreshold, true);
    hide Kept;
    forall d | d in merged ensures d in rest { KeptOfProper(rest, iouThreshold, d); }
    assert Proper(first + merged, iouThreshold);
    forall d | d in Kept(first + merged, iouThreshold, true) ensures d in first + rest {
      KeptOfProper(first + merged, iouThreshold, d);
    }
    hide Proper;
    SameKeptExactly(first + merged, first + rest, iouThreshold);
  }

  // ---------------------------------------------------------------------------------------------
  // Merging is not associative.
  // ---------------------------------------------------------------------------------------------

  /** Three boxes in a row, each overlapping the next by more than half, the ends by a quarter. */
  function Chain(i: nat): Detection
    requires i < 3
  {
    Detection(0.0, Box(3.0 * i as real, 0.0, 10.0, 10.0), "car", 0.9 - 0.1 * i as real)
  }

  lemma ChainConflicts(i: nat, j: nat)
    requires i < 3 && j < 3
    ensures Conflict(Chain(i), Chain(j), 0.5, true) <==> -1 <= i - j <= 1
  {
    var a, b := Chain(i).box, Chain(j).box;
    var apart := if i <= j then j - i else i - j;
    assert InterWidth(a, b) == 10.0 - 3.0 * apart as real && InterHeight(a, b) == 10.0;
    assert Area(a) == 100.0 && Area(b) == 100.0;
    hide InterWidth, InterHeight, Area;
    assert Inter(a, b) == 100.0 - 30.0 * apart as real;
    hide Inter;
    ChainRatio(apart);
    hide Ratio;
  }

  lemma ChainRatio(apart: nat)
    requires apart < 3
    ensures Ratio(100.0 - 30.0 * apart as real, 200.0) >= 0.5 <==> apart <= 1
  {
    if apart == 0 {
      assert Ratio(100.0, 200.0) == 1.0;
    } else if apart == 1 {
      assert Ratio(70.0, 200.0) == 70.0 / 130.0;
    } else {
      assert Ratio(40.0, 200.0) == 40.0 / 160.0;
    }
  }

  lemma ChainRanked(i: nat, j: nat)
    requires i < j < 3
    ensures Better(Chain(i), Chain(j), RankLe()) && !Better(Chain(j), Chain(i), RankLe())
  {
    assert Chain(i).confidence > Chain(j).confidence;
    assert ConfidenceLe(Chain(i), Chain(j)) && !ConfidenceLe(Chain(j), Chain(i));
  }

  lemma PairDropsItsSecond()
    ensures Chain(2) !in Kept([Chain(1), Chain(2)], 0.5, true)
  {
    var b, c := Chain(1), Chain(2);
    KeptIsKernel([b, c], 0.5, true);
    ChainConflicts(1, 2);
    ChainRanked(1, 2);
    hide Kept, Conflict, RankLe, Better, Chain, Sorted;
    assert b in Elements(Kept([b, c], 0.5, true));
    assert c !in Elements(Kept([b, c], 0.5, true));
  }

  lemma ChainKeepsItsThird()
    ensures Chain(2) in Kept([Chain(0), Chain(1), Chain(2)], 0.5, true)
  {
    var a, b, c := Chain(0), Chain(1), Chain(2);
    var all := Kept([a, b, c], 0.5, true);
    KeptIsKernel([a, b, c], 0.5, true);
    ChainConflicts(0, 1);
    ChainConflicts(0, 2);
    ChainRanked(0, 1);
    ChainRanked(1, 2);
    ChainRanked(0, 2);
    hide Kept, Conflict, RankLe, Better, Chain, Sorted;
    assert a in Elements(all);
    assert b !in Elements(all);
    assert c in Elements(all);
  }

  /** Merging the last two of the chain first loses the third; merging all three at once keeps it. */
  lemma MergeIsNotAssociative()
    ensures var a, b, c := Chain(0), Chain(1), Chain(2);
            Kept([a] + Kept([b, c], 0.5, true), 0.5, true) != Kept([a, b, c], 0.5, true)
  {
    var a, b, c := Chain(0), Chain(1), Chain(2);
    var inner := Kept([b, c], 0.5, true);
    PairDropsItsSecond();
    ChainKeepsItsThird();
    ChainRanked(0, 2);
    assert a != c;
    KeptIsKernel([a] + inner, 0.5, true);
    hide Kept, RankLe, Better, Chain, Sorted;
    assert c !in Elements([a] + inner);
    assert c !in Elements(Kept([a] + inner, 0.5, true));
  }
}
