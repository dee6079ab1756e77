/** Validation of a run against a second model: greedy one-to-one matching of two detection lists. */
module Critic {
  import opened Dedupe
  import opened Detections
  import opened Greedy
  import opened Matching
  import opened Options
  import opened Orchestrator
  import opened PartitionedRun
  import opened Rounding
  import opened Sets
  import opened Sorting

  const RATIO_SCALE: real := 10000.0

  datatype Report = Report(primaryCount: nat, secondaryCount: nat, agreed: nat, agreementRatio: real,
                           primaryOnly: seq<Detection>, secondaryOnly: seq<Detection>)

  /** The test a candidate is put to: the same as for duplicates, within one class. */
  predicate Compatible(cand: Detection, det: Detection, threshold: real) {
    Conflict(cand, det, threshold, true)
  }

  method FindMatch(det: Detection, candidates: seq<Detection>, threshold: real, used: set<nat>) returns (m: Option<nat>)
    ensures m == FirstMatch(det, candidates, threshold, used, 0)
    ensures forall k :: 0 <= k < (if m.Some? then m.value else |candidates|) && k !in used ==>
                          !DuplicateOf(candidates[k], det, threshold, true)
    ensures m.Some? ==> m.value < |candidates| && m.value !in used
                        && DuplicateOf(candidates[m.value], det, threshold, true)
  {
    FirstMatchMeans(det, candidates, threshold, used, 0);
    for i := 0 to |candidates|
      invariant FirstMatch(det, candidates, threshold, used, i) == FirstMatch(det, candidates, threshold, used, 0)
    {
      if i in used { continue; }
      var cand := candidates[i];
      if cand.className != det.className { continue; }
      if Abs(cand.timestamp - det.timestamp) > TIME_TOLERANCE { continue; }
      if Iou(cand.box, det.box) >= threshold { return Some(i); }
    }
    return None;
  }

  /** The first free compatible candidate from `i` on. */
  function FirstMatch(det: Detection, candidates: seq<Detection>, threshold: real, used: set<nat>,
                      i: nat): (m: Option<nat>)
    requires i <= |candidates|
    ensures m.Some? ==>
            i <= m.value < |candidates| && m.value !in used && Compatible(candidates[m.value], det, threshold)
    ensures m.None? ==> forall k :: i <= k < |candidates| && k !in used ==> !Compatible(candidates[k], det, threshold)
    decreases |candidates| - i
  {
    if i == |candidates| then None
    else if i !in used && Compatible(candidates[i], det, threshold) then Some(i)
    else FirstMatch(det, candidates, threshold, used, i + 1)
  }

  lemma {:induction false} FirstMatchMeans(det: Detection, candidates: seq<Detection>, threshold: real, used: set<nat>,
                                           i: nat)
    requires i <= |candidates|
    ensures
      var m := FirstMatch(det, candidates, threshold, used, i);
      && (forall k :: i <= k < (if m.Some? then m.value else |candidates|) && k !in used ==>
            !DuplicateOf(candidates[k], det, threshold, true))
      && (m.Some? ==> m.value < |candidates| && m.value !in used
                      && DuplicateOf(candidates[m.value], det, threshold, true))
    decreases |candidates| - i
  {
    hide Iou;
    if i < |candidates| && (i in used || !Compatible(candidates[i], det, threshold)) {
      FirstMatchMeans(det, candidates, threshold, used, i + 1);
    }
  }

  /** Which secondary detection each matched primary one gets, both by index. */
  function Match(primary: seq<Detection>, secondary: seq<Detection>, threshold: real): map<nat, nat> {
    if primary == [] then map[]
    else
      var n := |primary| - 1;
      var m := Match(primary[..n], secondary, threshold);
      var found := FirstMatch(primary[n], secondary, threshold, m.Values, 0);
      if found.Some? then m[n := found.value] else m
  }

  /** The detections whose index is not among `taken`, in order. */
  function Others(ds: seq<Detection>, taken: set<nat>): seq<Detection> {
    if ds == [] then []
    else
      var r := Others(ds[..|ds| - 1], taken);
      if |ds| - 1 in taken then r else r + [ds[|ds| - 1]]
  }

  lemma OthersStep(ds: seq<Detection>, taken: set<nat>, i: nat)
    requires i < |ds|
    ensures Others(ds[..i + 1], taken)
            == if i in taken then Others(ds[..i], taken) else Others(ds[..i], taken) + [ds[i]]
  {
    assert ds[..i + 1][..i] == ds[..i];
  }

  lemma MatchStep(primary: seq<Detection>, secondary: seq<Detection>, threshold: real, i: nat)
    requires i < |primary|
    ensures var m := Match(primary[..i], secondary, threshold);
            var found := FirstMatch(primary[i], secondary, threshold, m.Values, 0);
            Match(primary[..i + 1], secondary, threshold) == if found.Some? then m[i := found.value] else m
  {
    assert primary[..i + 1][..i] == primary[..i];
    hide FirstMatch;
  }

  /** The comprehension over the secondary detections whose index was not matched. */
  method Unmatched(secondary: seq<Detection>, matched: set<nat>) returns (r: seq<Detection>)
    ensures r == Others(secondary, matched)
  {
    r := [];
    for i := 0 to |secondary|
      invariant r == Others(secondary[..i], matched)
    {
      OthersStep(secondary, matched, i);
      if i !in matched { r := r + [secondary[i]]; }
    }
    assert secondary[..|secondary|] == secondary;
  }

  lemma {:induction false} MatchedBefore(primary: seq<Detection>, secondary: seq<Detection>, threshold: real)
    ensures forall k :: k in Match(primary, secondary, threshold) ==> k < |primary|
  {
    hide FirstMatch;
    if primary != [] { MatchedBefore(primary[..|primary| - 1], secondary, threshold); }
  }

  /** One more match: the next primary detection and its candidate are taken, the others left over stay. */
  lemma OneMatched(primary: seq<Detection>, m: map<nat, nat>, i: nat, v: nat)
    requires i < |primary| && forall k :: k in m ==> k < i
    ensures var r := m[i := v];
            && |r| == |m| + 1 && r.Values == m.Values + {v} && (forall k :: k in r ==> k < i + 1)
            && Others(primary[..i + 1], r.Keys) == Others(primary[..i], m.Keys)
  {
    hide Others;
    OthersIgnoreLater(primary[..i], m.Keys, i);
    NewValue(m, i, v);
    NewKey(m, i, v);
    OthersStep(primary, m.Keys + {i}, i);
  }

  method SecondaryModelValidation(primary: seq<Detection>, secondary: seq<Detection>, threshold: real)
    returns (report: Report)
    ensures var m := Match(primary, secondary, threshold);
            && report.primaryCount == |primary| && report.secondaryCount == |secondary|
            && report.agreed == |m|
            && report.primaryOnly == Others(primary, m.Keys)
            && report.secondaryOnly == Others(secondary, m.Values)
            && report.agreementRatio == Ratio(|m|, |primary|)
  {
    var agreed := 0;
    var primaryOnly: seq<Detection> := [];
    var matchedSecondary: set<nat> := {};
    assert Others(primary[..0], {}) == [] && Match(primary[..0], secondary, threshold) == map[];
    hide *;
    for i := 0 to |primary|
      invariant agreed == |Match(primary[..i], secondary, threshold)|
      invariant matchedSecondary == Match(primary[..i], secondary, threshold).Values
      invariant primaryOnly == Others(primary[..i], Match(primary[..i], secondary, threshold).Keys)
    {
      ghost var m := Match(primary[..i], secondary, threshold);
      MatchedBefore(primary[..i], secondary, threshold);
      var pdet := primary[i];
      var found := FindMatch(pdet, secondary, threshold, matchedSecondary);
      MatchStep(primary, secondary, threshold, i);
      if found.None? {
        OthersStep(primary, m.Keys, i);
        primaryOnly := primaryOnly + [pdet];
      } else {
        OneMatched(primary, m, i, found.value);
        agreed := agreed + 1;
        matchedSecondary := matchedSecondary + {found.value};
      }
    }
    assert primary[..|primary|] == primary;
    var secondaryOnly := Unmatched(secondary, matchedSecondary);
    report := Report(|primary|, |secondary|, agreed, Ratio(agreed, |primary|), primaryOnly, secondaryOnly);
  }

  function Ratio(agreed: nat, total: nat): real {
    if total == 0 then 0.0 else RoundTo(agreed as real / total as real, RATIO_SCALE)
  }

  /** The ratio is the share of the primary detections that were matched, to four decimals. */
  lemma RatioTells(agreed: nat, total: nat, share: real)
    requires total > 0 ==> share * total as real == agreed as real
    requires total == 0 ==> share == 0.0
    ensures Ratio(agreed, total) == if total == 0 then 0.0 else RoundTo(share, 10000.0)
  {
    hide RoundTo;
    if total > 0 {
      var x := total as real;
      Quotient(share, x);
      assert agreed as real / x == share;
    }
  }

  lemma Quotient(share: real, total: real)
    requires total != 0.0
    ensures share * total / total == share
  {
  }

  lemma {:induction false} OthersIgnoreLater(ds: seq<Detection>, taken: set<nat>, i: nat)
    requires i >= |ds|
    ensures Others(ds, taken + {i}) == Others(ds, taken)
  {
    if ds != [] { OthersIgnoreLater(ds[..|ds| - 1], taken, i); }
  }

  // ---------------------------------------------------------------------------------------------
  // The matching.
  // ---------------------------------------------------------------------------------------------

  /** A one-to-one matching of compatible detections. */
  ghost predicate Valid(m: map<nat, nat>, primary: seq<Detection>, secondary: seq<Detection>, threshold: real) {
    && (forall p :: p in m ==>
                      p < |primary| && m[p] < |secondary| && Compatible(secondary[m[p]], primary[p], threshold))
    && Injective(m)
  }

  /** No primary and secondary detection left over could have been matched. */
  ghost predicate Maximal(m: map<nat, nat>, primary: seq<Detection>, secondary: seq<Detection>, threshold: real) {
    forall p, s :: (0 <= p < |primary| && 0 <= s < |secondary| && p !in m && s !in m.Values
                    ==> !Compatible(secondary[s], primary[p], threshold))
  }

  /** One more primary detection, matched to a free compatible candidate. */
  lemma MatchOne(m: map<nat, nat>, primary: seq<Detection>, secondary: seq<Detection>, threshold: real, n: nat, v: nat)
    requires n < |primary| && Valid(m, primary[..n], secondary, threshold)
             && Maximal(m, primary[..n], secondary, threshold)
    requires v < |secondary| && v !in m.Values && Compatible(secondary[v], primary[n], threshold)
    ensures Valid(m[n := v], primary[..n + 1], secondary, threshold)
    ensures Maximal(m[n := v], primary[..n + 1], secondary, threshold)
  {
    hide Compatible;
    assert forall p :: 0 <= p < n ==> primary[..n][p] == primary[p] == primary[..n + 1][p];
    assert n !in m;
    NewValue(m, n, v);
    forall p | p in m ensures m[p] in m.Values {}
  }

  /** One more primary detection, for which no free candidate is compatible. */
  lemma MatchNone(m: map<nat, nat>, primary: seq<Detection>, secondary: seq<Detection>, threshold: real, n: nat)
    requires n < |primary| && Valid(m, primary[..n], secondary, threshold)
             && Maximal(m, primary[..n], secondary, threshold)
    requires forall k :: 0 <= k < |secondary| && k !in m.Values ==> !Compatible(secondary[k], primary[n], threshold)
    ensures Valid(m, primary[..n + 1], secondary, threshold)
    ensures Maximal(m, primary[..n + 1], secondary, threshold)
  {
    hide Compatible;
    assert forall p :: 0 <= p < n ==> primary[..n][p] == primary[p] == primary[..n + 1][p];
  }

  /** The greedy matching is one-to-one, pairs only compatible detections, and cannot be extended. */
  lemma {:induction false} MatchIsMaximal(primary: seq<Detection>, secondary: seq<Detection>, threshold: real)
    ensures Valid(Match(primary, secondary, threshold), primary, secondary, threshold)
    ensures Maximal(Match(primary, secondary, threshold), primary, secondary, threshold)
  {
    if primary != [] {
      var n := |primary| - 1;
      var m := Match(primary[..n], secondary, threshold);
      MatchIsMaximal(primary[..n], secondary, threshold);
      var found := FirstMatch(primary[n], secondary, threshold, m.Values, 0);
      assert Match(primary, secondary, threshold) == if found.Some? then m[n := found.value] else m;
      hide Compatible, Valid, Maximal, Match;
      assert primary[..n + 1] == primary;
      if found.Some? {
        MatchOne(m, primary, secondary, threshold, n, found.value);
      } else {
        MatchNone(m, primary, secondary, threshold, n);
      }
    }
  }

  /** The secondary detection was matched to a primary one before `p`. */
  ghost predicate TakenBefore(m: map<nat, nat>, p: nat, s: nat) {
    exists q :: q < p && q in m && m[q] == s
  }

  /**
   * In numbers: each primary detection in turn gets the first secondary one of its class, its time and enough overlap
   * that none before it got, and goes without only where there is none.
   */
  ghost predicate FirstComeFirstServed(m: map<nat, nat>, primary: seq<Detection>, secondary: seq<Detection>,
                                       threshold: real) {
    && (forall p :: p in m ==>
          p < |primary| && m[p] < |secondary| && DuplicateOf(secondary[m[p]], primary[p], threshold, true))
    && (forall p, s :: (0 <= p < |primary| && 0 <= s < (if p in m then m[p] else |secondary|)
                        && s < |secondary| && DuplicateOf(secondary[s], primary[p], threshold, true)
                        ==> TakenBefore(m, p, s)))
  }

  lemma {:induction false} MatchTells(primary: seq<Detection>, secondary: seq<Detection>, threshold: real)
    ensures FirstComeFirstServed(Match(primary, secondary, threshold), primary, secondary, threshold)
  {
    if primary != [] {
      var n := |primary| - 1;
      var m := Match(primary[..n], secondary, threshold);
      MatchTells(primary[..n], secondary, threshold);
      MatchedBefore(primary[..n], secondary, threshold);
      FirstMatchMeans(primary[n], secondary, threshold, m.Values, 0);
      var found := FirstMatch(primary[n], secondary, threshold, m.Values, 0);
      assert Match(primary, secondary, threshold) == if found.Some? then m[n := found.value] else m;
      hide *;
      OneServed(m, primary, secondary, threshold, found);
    }
  }

  lemma OneServed(m: map<nat, nat>, primary: seq<Detection>, secondary: seq<Detection>, threshold: real,
                  found: Option<nat>)
    requires primary != [] && FirstComeFirstServed(m, primary[..|primary| - 1], secondary, threshold)
    requires forall k :: 0 <= k < (if found.Some? then found.value else |secondary|) && k !in m.Values ==>
                           k >= |secondary| || !DuplicateOf(secondary[k], primary[|primary| - 1], threshold, true)
    requires found.Some? ==> found.value < |secondary|
                             && DuplicateOf(secondary[found.value], primary[|primary| - 1], threshold, true)
    ensures FirstComeFirstServed(if found.Some? then m[|primary| - 1 := found.value] else m, primary, secondary,
                                 threshold)
  {
    hide DuplicateOf;
    var n, front := |primary| - 1, primary[..|primary| - 1];
    var r := if found.Some? then m[n := found.value] else m;
    assert forall p :: 0 <= p < n ==> front[p] == primary[p];
    forall p, s | (0 <= p < |primary| && 0 <= s < (if p in r then r[p] else |secondary|)
                   && s < |secondary| && DuplicateOf(secondary[s], primary[p], threshold, true))
      ensures TakenBefore(r, p, s)
    {
      if p < n {
        assert TakenBefore(m, p, s);
        var q :| q < p && q in m && m[q] == s;
        assert r[q] == s;
      } else {
        assert s in m.Values;
        var q :| q in m && m[q] == s;
        assert q < n && r[q] == s;
      }
    }
  }

  /** The greedy matching finds at least half as many agreements as any other matching could. */
  lemma AtLeastHalf(primary: seq<Detection>, secondary: seq<Detection>, threshold: real, other: map<nat, nat>)
    requires Valid(other, primary, secondary, threshold)
    ensures |other| <= 2 * |Match(primary, secondary, threshold)|
  {
    MatchIsMaximal(primary, secondary, threshold);
    hide Match;
    TwiceMaximal(primary, secondary, threshold, Match(primary, secondary, threshold), other);
  }

  lemma TwiceMaximal(primary: seq<Detection>, secondary: seq<Detection>, threshold: real, m: map<nat, nat>,
                     other: map<nat, nat>)
    requires Valid(other, primary, secondary, threshold)
    requires Valid(m, primary, secondary, threshold) && Maximal(m, primary, secondary, threshold)
    ensures |other| <= 2 * |m|
  {
    var met, missed := other.Keys * m.Keys, other.Keys - m.Keys;
    MissedForTaken(primary, secondary, threshold, m, other, missed);
    ImageSize(other, missed);
    SizeByValues(m);
    hide *;
    SubsetSize(Image(other, missed), m.Values);
    SubsetSize(met, m.Keys);
    SplitSize(other.Keys, m.Keys);
    SizeOf(other);
    SizeOf(m);
  }

  /** A maximal matching misses a pair only where it has taken the pair's candidate. */
  lemma MissedForTaken(primary: seq<Detection>, secondary: seq<Detection>, threshold: real, m: map<nat, nat>,
                       other: map<nat, nat>, missed: set<nat>)
    requires Valid(other, primary, secondary, threshold) && Maximal(m, primary, secondary, threshold)
    requires missed <= other.Keys && forall p :: p in missed ==> p !in m
    ensures Image(other, missed) <= m.Values
  {
    hide Compatible;
    forall v | v in Image(other, missed) ensures v in m.Values {
      var p :| p in missed && other[p] == v;
      assert Compatible(secondary[v], primary[p], threshold);
    }
  }

  /** What is left over keeps its order: each comes right after those left over in front of it. */
  lemma {:induction false} OthersPlace(ds: seq<Detection>, taken: set<nat>, i: nat)
    requires i < |ds| && i !in taken
    ensures
      var r, front := Others(ds, taken), Others(ds[..i], taken);
      |front| < |r| && r[..|front|] == front && r[|front|] == ds[i]
  {
    var n := |ds| - 1;
    if i < n {
      OthersPlace(ds[..n], taken, i);
      assert ds[..n][..i] == ds[..i];
    }
  }

  lemma {:induction false} OthersCount(ds: seq<Detection>, taken: set<nat>)
    requires forall i :: i in taken ==> i < |ds|
    ensures |Others(ds, taken)| + |taken| == |ds|
  {
    if ds == [] {
      assert taken == {};
    } else {
      var n := |ds| - 1;
      if n in taken {
        OthersCount(ds[..n], taken - {n});
        OthersIgnoreLater(ds[..n], taken - {n}, n);
        assert taken - {n} + {n} == taken;
      } else {
        OthersCount(ds[..n], taken);
      }
    }
  }

  /** Every detection of either list is either agreed on or listed as found by one model only. */
  lemma CountsAddUp(primary: seq<Detection>, secondary: seq<Detection>, threshold: real)
    ensures var m := Match(primary, secondary, threshold);
            && |m| + |Others(primary, m.Keys)| == |primary|
            && |m| + |Others(secondary, m.Values)| == |secondary|
  {
    var m := Match(primary, secondary, threshold);
    MatchIsMaximal(primary, secondary, threshold);
    hide Match, Compatible;
    SizeByValues(m);
    assert |m| == |m.Keys|;
    OthersCount(primary, m.Keys);
    OthersCount(secondary, m.Values);
  }

  /**
   * Full agreement: if no two primary detections are duplicates, each is a duplicate of itself,
   * and each occurs in the secondary list, all of them are agreed on, whatever else the list holds.
   */
  lemma FullAgreement(primary: seq<Detection>, secondary: seq<Detection>, threshold: real)
    requires ConflictFree(primary, ConflictBy(threshold, true))
    requires forall d :: d in primary ==> d in secondary && SelfConflicting(d, threshold)
    ensures |Match(primary, secondary, threshold)| == |primary|
    ensures Ratio(|Match(primary, secondary, threshold)|, |primary|) == if primary == [] then 0.0 else 1.0
  {
    var m := Match(primary, secondary, threshold);
    MatchIsMaximal(primary, secondary, threshold);
    forall p | 0 <= p < |primary| ensures p in m { OwnCopyIsFree(primary, secondary, threshold, p); }
    hide Match, Compatible, Conflict, ConflictFree;
    assert Others(primary, m.Keys) == [] by { NoOthers(primary, m.Keys); }
    CountsAddUp(primary, secondary, threshold);
    if primary != [] { RatioOfAll(|primary|); }
  }

  lemma RatioOfAll(n: nat)
    requires n > 0
    ensures Ratio(n, n) == 1.0
  {
    var x := n as real;
    assert x / x == 1.0;
    RoundFixes(1.0, RATIO_SCALE);
    hide RoundTo;
  }

  lemma {:induction false} NoOthers(ds: seq<Detection>, taken: set<nat>)
    requires forall i :: 0 <= i < |ds| ==> i in taken
    ensures Others(ds, taken) == []
  {
    if ds != [] { NoOthers(ds[..|ds| - 1], taken); }
  }

  /** A copy of a primary detection is no match for the others, so it is matched to it or left for it. */
  lemma OwnCopyIsFree(primary: seq<Detection>, secondary: seq<Detection>, threshold: real, p: nat)
    requires p < |primary| && ConflictFree(primary, ConflictBy(threshold, true))
    requires primary[p] in secondary && SelfConflicting(primary[p], threshold)
    ensures p in Match(primary, secondary, threshold)
  {
    var m := Match(primary, secondary, threshold);
    MatchIsMaximal(primary, secondary, threshold);
    SelfConflictMeans(primary[p], threshold, true);
    ConflictIsSymmetric(threshold, true);
    hide Match, Conflict, SelfConflicting;
    var s :| 0 <= s < |secondary| && secondary[s] == primary[p];
    assert Compatible(secondary[s], primary[p], threshold);
    forall q | 0 <= q < |primary| && q != p ensures !Compatible(secondary[s], primary[q], threshold) {
      var early, late := if p < q then p else q, if p < q then q else p;
      assert !ConflictBy(threshold, true)(primary[early], primary[late]);
      assert !ConflictBy(threshold, true)(primary[late], primary[early]);
    }
    hide Compatible;
  }

  /** Which detections, by index, may be matched. */
  function EdgesOf(primary: seq<Detection>, secondary: seq<Detection>, threshold: real): Edges {
    (p: nat, s: nat) => p < |primary| && s < |secondary| && Compatible(secondary[s], primary[p], threshold)
  }

  lemma ValidIsMatching(m: map<nat, nat>, primary: seq<Detection>, secondary: seq<Detection>, threshold: real)
    ensures Valid(m, primary, secondary, threshold) <==> IsMatching(m, EdgesOf(primary, secondary, threshold))
  {
    hide Compatible;
  }

  ghost predicate IsLargest(m: map<nat, nat>, primary: seq<Detection>, secondary: seq<Detection>, threshold: real) {
    forall other :: Valid(other, primary, secondary, threshold) ==> |other| <= |m|
  }

  /** The greedy matching is the largest exactly if no path of compatible pairs augments it. */
  lemma GreedyIsLargestExactly(primary: seq<Detection>, secondary: seq<Detection>, threshold: real)
    ensures IsLargest(Match(primary, secondary, threshold), primary, secondary, threshold)
            <==> !Augmentable(Match(primary, secondary, threshold), EdgesOf(primary, secondary, threshold))
  {
    var m, edge := Match(primary, secondary, threshold), EdgesOf(primary, secondary, threshold);
    MatchIsMaximal(primary, secondary, threshold);
    hide Match, EdgesOf, Valid, Maximal, IsMatching, Augmentable;
    forall other: map<nat, nat> ensures Valid(other, primary, secondary, threshold) <==> IsMatching(other, edge) {
      ValidIsMatching(other, primary, secondary, threshold);
    }
    LargestExactly(m, edge);
  }

  /**
   * It is, wherever no secondary detection is compatible with two primary ones, and wherever no primary one is
   * with two secondary ones.
   */
  lemma UnambiguousIsLargest(primary: seq<Detection>, secondary: seq<Detection>, threshold: real)
    requires OneTaker(EdgesOf(primary, secondary, threshold)) || OneChoice(EdgesOf(primary, secondary, threshold))
    ensures IsLargest(Match(primary, secondary, threshold), primary, secondary, threshold)
  {
    var m, edge := Match(primary, secondary, threshold), EdgesOf(primary, secondary, threshold);
    MatchIsMaximal(primary, secondary, threshold);
    ValidIsMatching(m, primary, secondary, threshold);
    assert CannotExtend(m, edge) by { hide Match, Compatible, Valid; }
    hide Match, EdgesOf, Valid, Maximal, IsMatching, Augmentable, IsLargest, CannotExtend, OneTaker, OneChoice;
    UnambiguousNotAugmentable(m, edge);
    GreedyIsLargestExactly(primary, secondary, threshold);
  }

  /** The greedy matching need not be the largest: here it finds one agreement where two are possible. */
  lemma GreedyIsNotOptimal()
    ensures var primary, secondary := [Chain(1), Chain(0)], [Chain(0), Chain(2)];
            |Match(primary, secondary, 0.5)| == 1 && Valid(map[0 := 1, 1 := 0], primary, secondary, 0.5)
  {
    GreedyTakesOne();
    CrosswiseIsValid();
    hide *;
  }

  lemma CrosswiseIsValid()
    ensures Valid(map[0 := 1, 1 := 0], [Chain(1), Chain(0)], [Chain(0), Chain(2)], 0.5)
  {
    ChainConflicts(2, 1);
    ChainConflicts(0, 0);
    hide Chain, Conflict;
  }

  lemma GreedyTakesOne()
    ensures Match([Chain(1), Chain(0)], [Chain(0), Chain(2)], 0.5) == map[0 := 0]
  {
    var primary, secondary := [Chain(1), Chain(0)], [Chain(0), Chain(2)];
    ChainConflicts(0, 1);
    NothingLeft();
    assert FirstMatch(Chain(1), secondary, 0.5, {}, 0) == Some(0);
    hide Chain, FirstMatch;
    assert primary[..0] == [] && primary[..1] == [Chain(1)] && primary[..2] == primary;
    assert Match(primary[..0], secondary, 0.5) == map[];
    hide Match;
    MatchStep(primary, secondary, 0.5, 0);
    NewValue(map[], 0, 0);
    MatchStep(primary, secondary, 0.5, 1);
  }

  lemma NothingLeft()
    ensures FirstMatch(Chain(0), [Chain(0), Chain(2)], 0.5, {0}, 0) == None
  {
    var secondary := [Chain(0), Chain(2)];
    ChainConflicts(2, 0);
    hide Chain, Conflict;
    assert FirstMatch(Chain(0), secondary, 0.5, {0}, 2) == None;
    assert FirstMatch(Chain(0), secondary, 0.5, {0}, 1) == None;
  }

  // ---------------------------------------------------------------------------------------------
  // A run reviewed by its own model.
  // ---------------------------------------------------------------------------------------------

  /** What the second model sees: all frames of the requested window, whatever the tile. */
  function SecondOpinion(video: Video, input: RunInput): seq<Detection> {
    Detect(FramesIn(video, input.window))
  }

  /** What a run cut into windows reports was requested; a run that is not reports nothing else. */
  ghost predicate InRequest(video: Video, input: RunInput, split: Split, threshold: real)
    requires Sound(split)
  {
    Timed(split) ==>
      forall d :: d in RunDetections(video, input, split, threshold) ==> InWindow(d.timestamp, input.window)
  }

  /**
   * Reviewing a run, partitioned or not, with a model that sees the same things reports full agreement, under the
   * threshold the run was merged with, if the run reports nothing outside the window requested.
   */
  lemma SameModelAgrees(video: Video, input: RunInput, split: Split, threshold: real)
    requires Sound(split) && Proper(Detect(video), threshold) && InRequest(video, input, split, threshold)
    ensures var primary := RunDetections(video, input, split, threshold);
            |Match(primary, SecondOpinion(video, input), threshold)| == |primary|
  {
    var primary, secondary := RunDetections(video, input, split, threshold), SecondOpinion(video, input);
    var all := CutList(video, input, split);
    CutRun(video, input, split, threshold);
    KeptConflictFree(all, threshold, true);
    BothProper(video, input, split, threshold);
    hide RunDetections, Kept, ConflictFree, CutList, ChildDetections, SelfConflicting, Match, Proper, Detect,
      TimeReached, InWindow;
    forall d | d in primary ensures d in secondary && SelfConflicting(d, threshold) {
      KeptOfProper(all, threshold, d);
      CutListMeans(video, input, split, d);
      InTime(video, input, split, threshold, d);
      ChildReports(video, input.(tile := None), d);
      UntiledChild(video, input, d);
    }
    FullAgreement(primary, secondary, threshold);
  }

  lemma InTime(video: Video, input: RunInput, split: Split, threshold: real, d: Detection)
    requires Sound(split) && InRequest(video, input, split, threshold)
    requires d in RunDetections(video, input, split, threshold) && CutHas(video, input, split, d)
    ensures InWindow(d.timestamp, input.window)
  {
    hide RunDetections, InWindow;
  }

  lemma UntiledChild(video: Video, input: RunInput, d: Detection)
    requires d in ChildDetections(video, input.(tile := None))
    ensures d in SecondOpinion(video, input)
  {
    SortMembers(SecondOpinion(video, input), TimelineLe, d);
  }
}
