/** One-to-one matchings between two lists, by index, and when one is as large as can be. */
module Matching {
  import opened Sets

  /** Which pairs may be matched. */
  type Edges = (nat, nat) -> bool

  ghost predicate IsMatching(m: map<nat, nat>, edge: Edges) {
    && (forall p :: p in m ==> edge(p, m[p]))
    && Injective(m)
  }

  ghost predicate Injective(m: map<nat, nat>) {
    forall p, q :: p in m && q in m && p != q ==> m[p] != m[q]
  }

  // ----- sizes -----

  function Image(m: map<nat, nat>, keys: set<nat>): (r: set<nat>)
    requires keys <= m.Keys
    ensures forall v :: v in r <==> exists k :: k in keys && m[k] == v
  {
    set k | k in keys :: m[k]
  }

  lemma {:induction false} ImageSize(m: map<nat, nat>, keys: set<nat>)
    requires keys <= m.Keys && Injective(m)
    ensures |Image(m, keys)| == |keys|
    decreases |keys|
  {
    if keys != {} {
      var k :| k in keys;
      ImageSize(m, keys - {k});
      assert Image(m, keys) == Image(m, keys - {k}) + {m[k]};
    }
  }

  lemma SizeOf(m: map<nat, nat>)
    ensures |m| == |m.Keys|
  {
  }

  lemma SizeByValues(m: map<nat, nat>)
    requires Injective(m)
    ensures |m.Values| == |m|
  {
    ImageSize(m, m.Keys);
    assert Image(m, m.Keys) == m.Values;
    SizeOf(m);
  }

  lemma NewValue(m: map<nat, nat>, k: nat, v: nat)
    requires k !in m
    ensures m[k := v].Values == m.Values + {v}
  {
    var r := m[k := v];
    forall x | x in r.Values ensures x in m.Values + {v} {
      var j :| j in r && r[j] == x;
      if j != k { assert m[j] == x; }
    }
    forall x | x in m.Values + {v} ensures x in r.Values {
      if x == v {
        assert r[k] == x;
      } else {
        var j :| j in m && m[j] == x;
        assert r[j] == x;
      }
    }
  }

  lemma NewKey(m: map<nat, nat>, k: nat, v: nat)
    requires k !in m
    ensures m[k := v].Keys == m.Keys + {k} && |m[k := v]| == |m| + 1
  {
    assert m[k := v].Keys == m.Keys + {k};
    SizeOf(m[k := v]);
    SizeOf(m);
  }

  // ----- augmenting paths -----

  /** `p` could have the candidate that `q` has. */
  ghost predicate Leads(m: map<nat, nat>, edge: Edges, p: nat, q: nat) {
    q in m && edge(p, m[q])
  }

  ghost predicate LeadsOn(m: map<nat, nat>, edge: Edges, path: seq<nat>) {
    forall i :: 0 <= i < |path| - 1 ==> Leads(m, edge, path[i], path[i + 1])
  }

  ghost predicate Simple(path: seq<nat>) {
    forall i, j :: 0 <= i < j < |path| ==> path[i] != path[j]
  }

  /** From an unmatched element, each could have what the next one has. */
  ghost predicate Alternating(m: map<nat, nat>, edge: Edges, path: seq<nat>) {
    path != [] && path[0] !in m && Simple(path) && LeadsOn(m, edge, path)
  }

  /** And the last could have a candidate that nobody has. */
  ghost predicate Augments(m: map<nat, nat>, edge: Edges, path: seq<nat>, s: nat) {
    Alternating(m, edge, path) && s !in m.Values && edge(path[|path| - 1], s)
  }

  ghost predicate Augmentable(m: map<nat, nat>, edge: Edges) {
    exists path, s :: Augments(m, edge, path, s)
  }

  /** Giving one element another, free, candidate. */
  lemma Rematched(m: map<nat, nat>, edge: Edges, q: nat, s: nat)
    requires IsMatching(m, edge) && q in m && s !in m.Values && edge(q, s)
    ensures IsMatching(m[q := s], edge) && |m[q := s]| == |m| && m[q] !in m[q := s].Values
  {
    var r := m[q := s];
    forall p | p in m ensures m[p] in m.Values {}
    assert r.Keys == m.Keys;
    SizeOf(m);
    SizeOf(r);
    assert m[q] in m.Values;
    forall p | p in r ensures r[p] != m[q] {}
  }

  lemma Matched(m: map<nat, nat>, edge: Edges, p: nat, s: nat)
    requires IsMatching(m, edge) && p !in m && s !in m.Values && edge(p, s)
    ensures IsMatching(m[p := s], edge) && |m[p := s]| == |m| + 1
  {
    forall q | q in m ensures m[q] in m.Values {}
    NewKey(m, p, s);
  }

  /** What is left of an augmenting path when its last element takes the free candidate. */
  lemma Shortened(m: map<nat, nat>, edge: Edges, path: seq<nat>, s: nat)
    requires IsMatching(m, edge) && Augments(m, edge, path, s) && |path| > 1
    ensures
      var k := |path| - 1;
      && path[k] in m && IsMatching(m[path[k] := s], edge) && |m[path[k] := s]| == |m|
      && Augments(m[path[k] := s], edge, path[..k], m[path[k]])
  {
    var k := |path| - 1;
    assert Leads(m, edge, path[k - 1], path[k]);
    Rematched(m, edge, path[k], s);
    var r, front := m[path[k] := s], path[..k];
    forall i | 0 <= i < |front| - 1 ensures Leads(r, edge, front[i], front[i + 1]) {
      assert Leads(m, edge, path[i], path[i + 1]);
    }
  }

  /** An augmenting path gives a larger matching. */
  lemma {:induction false} Augment(m: map<nat, nat>, edge: Edges, path: seq<nat>, s: nat) returns (r: map<nat, nat>)
    requires IsMatching(m, edge) && Augments(m, edge, path, s)
    ensures IsMatching(r, edge) && |r| == |m| + 1
    decreases |path|
  {
    if |path| == 1 {
      r := m[path[0] := s];
      Matched(m, edge, path[0], s);
    } else {
      var k := |path| - 1;
      Shortened(m, edge, path, s);
      hide IsMatching, Augments;
      r := Augment(m[path[k] := s], edge, path[..k], m[path[k]]);
    }
  }

  // ----- without one, there is no larger matching -----

  ghost predicate Reached(m: map<nat, nat>, edge: Edges, p: nat) {
    exists path :: Alternating(m, edge, path) && path[|path| - 1] == p
  }

  lemma UnmatchedReached(m: map<nat, nat>, edge: Edges, p: nat)
    requires p !in m
    ensures Reached(m, edge, p)
  {
    assert Alternating(m, edge, [p]);
  }

  lemma ReachedNext(m: map<nat, nat>, edge: Edges, p: nat, q: nat)
    requires Reached(m, edge, p) && Leads(m, edge, p, q)
    ensures Reached(m, edge, q)
  {
    var path :| Alternating(m, edge, path) && path[|path| - 1] == p;
    hide Leads;
    if q in path {
      var i :| 0 <= i < |path| && path[i] == q;
      var part := path[..i + 1];
      forall j | 0 <= j < |part| - 1 ensures Leads(m, edge, part[j], part[j + 1]) {
        assert Leads(m, edge, path[j], path[j + 1]);
      }
      assert Alternating(m, edge, part);
    } else {
      assert Alternating(m, edge, path + [q]);
    }
  }

  /** What a reached element could have, a reached element has. */
  lemma ReachedTaken(m: map<nat, nat>, edge: Edges, p: nat, s: nat)
    requires !Augmentable(m, edge) && Reached(m, edge, p) && edge(p, s)
    ensures exists q :: q in m && m[q] == s && Reached(m, edge, q)
  {
    var path :| Alternating(m, edge, path) && path[|path| - 1] == p;
    assert !Augments(m, edge, path, s);
    var q :| q in m && m[q] == s;
    ReachedNext(m, edge, p, q);
  }

  /** The reached elements of another matching have candidates of reached ones; the others are matched. */
  lemma NoLarger(m: map<nat, nat>, edge: Edges, other: map<nat, nat>)
    requires IsMatching(m, edge) && !Augmentable(m, edge) && IsMatching(other, edge)
    ensures |other| <= |m|
  {
    var a := set p | p in other.Keys && Reached(m, edge, p);
    var c := set p | p in m.Keys && Reached(m, edge, p);
    forall v | v in Image(other, a) ensures v in Image(m, c) {
      var p :| p in a && other[p] == v;
      ReachedTaken(m, edge, p, v);
      var q :| q in m && m[q] == v && Reached(m, edge, q);
      assert q in c;
    }
    forall p | p in other.Keys - a ensures p in m.Keys - c {
      if p !in m { UnmatchedReached(m, edge, p); }
    }
    ImageSize(other, a);
    ImageSize(m, c);
    hide *;
    SubsetSize(Image(other, a), Image(m, c));
    SubsetSize(other.Keys - a, m.Keys - c);
    PartSize(other.Keys, a);
    PartSize(m.Keys, c);
    SizeOf(other);
    SizeOf(m);
  }

  lemma PartSize<T>(whole: set<T>, part: set<T>)
    requires part <= whole
    ensures |whole| == |part| + |whole - part|
  {
    assert whole == part + (whole - part);
  }

  /** Berge's theorem, for matchings between two sides: largest means that no path augments. */
  lemma LargestExactly(m: map<nat, nat>, edge: Edges)
    requires IsMatching(m, edge)
    ensures (forall other :: IsMatching(other, edge) ==> |other| <= |m|) <==> !Augmentable(m, edge)
  {
    hide IsMatching, Augments;
    if Augmentable(m, edge) {
      var path, s :| Augments(m, edge, path, s);
      var r := Augment(m, edge, path, s);
    } else {
      forall other | IsMatching(other, edge) ensures |other| <= |m| { NoLarger(m, edge, other); }
    }
  }

  // ----- where no path can augment -----

  ghost predicate CannotExtend(m: map<nat, nat>, edge: Edges) {
    forall p, s :: edge(p, s) ==> p in m || s in m.Values
  }

  /** No candidate could go to two elements. */
  ghost predicate OneTaker(edge: Edges) {
    forall p, q, s :: edge(p, s) && edge(q, s) ==> p == q
  }

  /** No element could have two candidates. */
  ghost predicate OneChoice(edge: Edges) {
    forall p, s, t :: edge(p, s) && edge(p, t) ==> s == t
  }

  /** Then a matching that cannot be extended is the largest. */
  lemma UnambiguousNotAugmentable(m: map<nat, nat>, edge: Edges)
    requires IsMatching(m, edge) && CannotExtend(m, edge) && (OneTaker(edge) || OneChoice(edge))
    ensures !Augmentable(m, edge)
  {
    forall path, s | Alternating(m, edge, path) && s !in m.Values ensures !edge(path[|path| - 1], s) {
      var k := |path| - 1;
      if k > 0 {
        assert Leads(m, edge, path[0], path[1]) && Leads(m, edge, path[k - 1], path[k]);
        assert m[path[k]] in m.Values;
      }
    }
  }
}
