/** Python's `sorted`: a stable sort by a comparison that is a total preorder. */
module Sorting {

  ghost predicate TotalPreorder<T(!new)>(le: (T, T) -> bool) {
    && (forall a, b :: le(a, b) || le(b, a))
    && (forall a, b, c :: le(a, b) && le(b, c) ==> le(a, c))
  }

  ghost predicate TotalOrder<T(!new)>(le: (T, T) -> bool) {
    && TotalPreorder(le)
    && (forall a, b :: le(a, b) && le(b, a) ==> a == b)
  }

  ghost predicate Sorted<T>(s: seq<T>, le: (T, T) -> bool) {
    forall i, j :: 0 <= i < j < |s| ==> le(s[i], s[j])
  }

  /** Put `x` in front of the first element it may precede; `x` stood in front of all of `s`. */
  function Insert<T>(x: T, s: seq<T>, le: (T, T) -> bool): (r: seq<T>)
    ensures |r| == |s| + 1
  {
    if s == [] || le(x, s[0]) then [x] + s else [s[0]] + Insert(x, s[1..], le)
  }

  /** Stable sort: elements that tie under `le` keep their order. */
  function StableSort<T>(s: seq<T>, le: (T, T) -> bool): (r: seq<T>)
    ensures |r| == |s|
  {
    if s == [] then [] else Insert(s[0], StableSort(s[1..], le), le)
  }

  lemma {:induction false} InsertKeeps<T>(x: T, s: seq<T>, le: (T, T) -> bool)
    ensures multiset(Insert(x, s, le)) == multiset{x} + multiset(s)
  {
    if s == [] || le(x, s[0]) {
    } else {
      InsertKeeps(x, s[1..], le);
      assert s == [s[0]] + s[1..];
    }
  }

  lemma {:induction false} SortKeeps<T>(s: seq<T>, le: (T, T) -> bool)
    ensures multiset(StableSort(s, le)) == multiset(s)
  {
    if s != [] {
      SortKeeps(s[1..], le);
      InsertKeeps(s[0], StableSort(s[1..], le), le);
      assert s == [s[0]] + s[1..];
    }
  }

  lemma SortMembers<T>(s: seq<T>, le: (T, T) -> bool, x: T)
    ensures x in StableSort(s, le) <==> x in s
  {
    SortKeeps(s, le);
    assert x in multiset(StableSort(s, le)) <==> x in multiset(s);
  }

  lemma {:induction false} InsertSorts<T(!new)>(x: T, s: seq<T>, le: (T, T) -> bool)
    requires TotalPreorder(le) && Sorted(s, le)
    ensures Sorted(Insert(x, s, le), le)
  {
    if s == [] || le(x, s[0]) {
    } else {
      InsertSorts(x, s[1..], le);
      InsertKeeps(x, s[1..], le);
      var r := Insert(x, s[1..], le);
      forall i | 0 <= i < |r| ensures le(s[0], r[i]) {
        assert r[i] in multiset(r);
      }
    }
  }

  lemma {:induction false} SortSorts<T(!new)>(s: seq<T>, le: (T, T) -> bool)
    requires TotalPreorder(le)
    ensures Sorted(StableSort(s, le), le)
  {
    if s != [] {
      SortSorts(s[1..], le);
      InsertSorts(s[0], StableSort(s[1..], le), le);
    }
  }

  /** Two keys at once: first `major`, and among its ties the order `minor`. */
  function Lex<T>(major: (T, T) -> bool, minor: (T, T) -> bool): (T, T) -> bool {
    (a, b) => major(a, b) && (major(b, a) ==> minor(a, b))
  }

  lemma {:induction false} InsertIsLexicographic<T(!new)>(x: T, s: seq<T>, major: (T, T) -> bool, minor: (T, T) -> bool)
    requires TotalPreorder(major)
    requires Sorted(s, Lex(major, minor)) && forall y :: y in s ==> minor(x, y)
    ensures Sorted(Insert(x, s, major), Lex(major, minor))
  {
    if s == [] {
    } else if major(x, s[0]) {
      forall i | 0 <= i < |s| ensures Lex(major, minor)(x, s[i]) {
        assert s[i] in s;
        if i > 0 { assert Lex(major, minor)(s[0], s[i]); }
      }
    } else {
      InsertIsLexicographic(x, s[1..], major, minor);
      InsertKeeps(x, s[1..], major);
      var r := Insert(x, s[1..], major);
      forall i | 0 <= i < |r| ensures Lex(major, minor)(s[0], r[i]) {
        assert r[i] in multiset(r);
        assert r[i] == x || r[i] in s[1..];
      }
    }
  }

  /** Stability, as it is used: sorting by `minor` first and by `major` after sorts by both. */
  lemma {:induction false} StableSortIsLexicographic<T(!new)>(s: seq<T>, major: (T, T) -> bool, minor: (T, T) -> bool)
    requires TotalPreorder(major) && Sorted(s, minor)
    ensures Sorted(StableSort(s, major), Lex(major, minor))
  {
    if s != [] {
      StableSortIsLexicographic(s[1..], major, minor);
      forall y | y in StableSort(s[1..], major) ensures minor(s[0], y) {
        SortMembers(s[1..], major, y);
        var i :| 0 <= i < |s[1..]| && s[1..][i] == y;
        assert s[1 + i] == y;
      }
      InsertIsLexicographic(s[0], StableSort(s[1..], major), major, minor);
    }
  }

  /** No two different elements of the list tie. */
  ghost predicate NoTies<T>(s: seq<T>, le: (T, T) -> bool) {
    forall i, j :: 0 <= i < |s| && 0 <= j < |s| && le(s[i], s[j]) && le(s[j], s[i]) ==> s[i] == s[j]
  }

  lemma SameHead<T(!new)>(a: seq<T>, b: seq<T>, le: (T, T) -> bool)
    requires TotalPreorder(le) && NoTies(a, le) && Sorted(a, le) && Sorted(b, le) && multiset(a) == multiset(b)
             && a != []
    ensures b != [] && a[0] == b[0] && multiset(a[1..]) == multiset(b[1..])
  {
    assert |multiset(a)| == |a| && |multiset(b)| == |b|;
    assert a[0] in multiset(b) && b[0] in multiset(a);
    var i :| 0 <= i < |b| && b[i] == a[0];
    var j :| 0 <= j < |a| && a[j] == b[0];
    assert le(a[0], a[j]) && le(a[j], a[0]);
    assert a == [a[0]] + a[1..] && b == [b[0]] + b[1..];
    assert multiset(a[1..]) == multiset(a) - multiset{a[0]};
  }

  /** Where nothing ties, a multiset has one sorted arrangement. */
  lemma {:induction false} SortedUniqueOn<T(!new)>(a: seq<T>, b: seq<T>, le: (T, T) -> bool)
    requires TotalPreorder(le) && NoTies(a, le) && Sorted(a, le) && Sorted(b, le) && multiset(a) == multiset(b)
    ensures a == b
  {
    if a == [] {
      assert |multiset(b)| == 0;
    } else {
      SameHead(a, b, le);
      assert NoTies(a[1..], le) && Sorted(a[1..], le) && Sorted(b[1..], le);
      hide NoTies, Sorted, TotalPreorder;
      SortedUniqueOn(a[1..], b[1..], le);
      assert a == [a[0]] + a[1..] && b == [b[0]] + b[1..];
    }
  }

  /** A total order leaves one sorted arrangement of a multiset. */
  lemma SortedUnique<T(!new)>(a: seq<T>, b: seq<T>, le: (T, T) -> bool)
    requires TotalOrder(le) && Sorted(a, le) && Sorted(b, le) && multiset(a) == multiset(b)
    ensures a == b
  {
    SortedUniqueOn(a, b, le);
  }

  /** Sorting a sorted list changes nothing, ties included. */
  lemma {:induction false} SortOfSorted<T(!new)>(s: seq<T>, le: (T, T) -> bool)
    requires Sorted(s, le)
    ensures StableSort(s, le) == s
  {
    if s != [] { SortOfSorted(s[1..], le); }
  }
}
