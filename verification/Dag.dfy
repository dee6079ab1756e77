/** Task graphs: known dependencies, ranks, cycles, and what a stuck topological peel means. */
module Dag {
  import opened Tasks
  import opened Sets

  /** Dependencies are known and rank lower: the graph is a DAG. */
  ghost predicate Ranked(g: Graph, rank: map<Id, nat>) {
    && (forall id :: id in g.nodes ==> id in rank)
    && (forall id, dep :: id in g.nodes && dep in g.nodes[id].task.dependsOn ==> dep in g.nodes && rank[dep] < rank[id])
  }

  /** Place `i` of `p` depends on the next. */
  ghost predicate EdgeAt(g: Graph, p: seq<Id>, i: int) {
    0 <= i < |p| - 1 && p[i] in g.nodes && p[i + 1] in g.nodes[p[i]].task.dependsOn
  }

  /** `p` leads from a task down its dependencies. */
  ghost predicate DependsVia(g: Graph, p: seq<Id>) {
    && |p| > 0
    && (forall id :: id in p ==> id in g.nodes)
    && (forall i :: 0 <= i < |p| - 1 ==> EdgeAt(g, p, i))
  }

  ghost predicate Known(g: Graph) {
    forall id, dep :: id in g.nodes && dep in g.nodes[id].task.dependsOn ==> dep in g.nodes
  }

  /** No task lists a dependency twice. */
  ghost predicate NoRepeats(g: Graph) {
    forall id :: id in g.nodes ==> NoDup(g.nodes[id].task.dependsOn)
  }

  /** `p` leads round: each task depends on the next, the last on the first. */
  ghost predicate Cycle(g: Graph, p: seq<Id>) {
    DependsVia(g, p) && p[0] in g.nodes[p[|p| - 1]].task.dependsOn
  }

  ghost predicate HasCycle(g: Graph) {
    exists p :: Cycle(g, p)
  }

  // ----- ranks and cycles exclude each other -----

  lemma {:induction false} RankFalls(g: Graph, rank: map<Id, nat>, p: seq<Id>, i: nat)
    requires Ranked(g, rank) && DependsVia(g, p) && i < |p|
    ensures rank[p[i]] + i <= rank[p[0]]
  {
    if i > 0 {
      RankFalls(g, rank, p, i - 1);
      assert EdgeAt(g, p, i - 1);
    }
  }

  lemma RankedHasNoCycle(g: Graph, rank: map<Id, nat>)
    requires Ranked(g, rank)
    ensures !HasCycle(g)
  {
    if p :| Cycle(g, p) {
      RankFalls(g, rank, p, |p| - 1);
    }
  }

  /** Two tasks, the second listing the first twice among its dependencies. */
  function ListedTwice(): Graph {
    var first := Task("a", "a", "", 15000, 5, "", "agent", [], 1);
    var second := Task("b", "b", "", 15000, 5, "", "agent", ["a", "a"], 1);
    AddTask(AddTask(Graph(map[], []), first), second)
  }

  /** A repeated dependency is not a cycle, though validation reports it as one. */
  lemma RepeatIsNoCycle()
    ensures GraphOk(ListedTwice()) && Known(ListedTwice()) && !HasCycle(ListedTwice()) && !NoRepeats(ListedTwice())
  {
    var g := ListedTwice();
    assert "a" != "b" by { assert "a"[0] != "b"[0]; }
    assert g.order == ["a", "b"];
    var deps := g.nodes["b"].task.dependsOn;
    assert deps == ["a", "a"] && deps[0] == deps[1];
    assert !NoDup(g.nodes["b"].task.dependsOn);
    assert Ranked(g, map["a" := 0, "b" := 1]);
    RankedHasNoCycle(g, map["a" := 0, "b" := 1]);
  }

  // ----- a set of tasks that all depend into the set holds a cycle -----

  ghost predicate DependsInto(g: Graph, id: Id, c: set<Id>) {
    id in g.nodes && exists dep :: dep in g.nodes[id].task.dependsOn && dep in c
  }

  ghost predicate Trapped(g: Graph, c: set<Id>) {
    c <= g.nodes.Keys && forall id :: id in c ==> DependsInto(g, id, c)
  }

  lemma {:induction false} Walk(g: Graph, c: set<Id>, n: nat) returns (p: seq<Id>)
    requires Trapped(g, c) && c != {}
    ensures |p| == n + 1 && DependsVia(g, p) && forall id :: id in p ==> id in c
  {
    if n == 0 {
      var id :| id in c;
      p := [id];
    } else {
      var q := Walk(g, c, n - 1);
      var tip := q[|q| - 1];
      assert DependsInto(g, tip, c);
      var dep :| dep in g.nodes[tip].task.dependsOn && dep in c;
      p := q + [dep];
      forall i | 0 <= i < |p| - 1 ensures EdgeAt(g, p, i) {
        if i < |q| - 1 { assert EdgeAt(g, q, i); }
      }
    }
  }

  lemma {:induction false} Pigeonhole(p: seq<Id>, c: set<Id>)
    requires |p| > |c| && forall id :: id in p ==> id in c
    ensures !NoDup(p)
  {
    var last := |p| - 1;
    assert p[last] in c;
    if NoDup(p) {
      forall id | id in p[..last] ensures id in c - {p[last]} {
        var i :| 0 <= i < last && p[..last][i] == id;
        assert p[i] == id;
      }
      Pigeonhole(p[..last], c - {p[last]});
    }
  }

  lemma TrappedHasCycle(g: Graph, c: set<Id>)
    requires Trapped(g, c) && c != {}
    ensures HasCycle(g)
  {
    var p := Walk(g, c, |c|);
    Pigeonhole(p, c);
    var i, j :| 0 <= i < j < |p| && p[i] == p[j];
    hide Trapped, DependsInto, NoDup;
    LoopIsCycle(g, p, i, j);
  }

  /** A path that comes back to a task goes round in between. */
  lemma LoopIsCycle(g: Graph, p: seq<Id>, i: nat, j: nat)
    requires DependsVia(g, p) && i < j < |p| && p[i] == p[j]
    ensures Cycle(g, p[i..j])
  {
    var q := p[i..j];
    forall k | 0 <= k < |q| - 1 ensures EdgeAt(g, q, k) {
      assert EdgeAt(g, p, i + k);
    }
    assert EdgeAt(g, p, j - 1);
    assert q[|q| - 1] == p[j - 1] && q[0] == p[i];
  }

  // ----- peeling -----

  /** A list is without copies iff its front is and its last element is not in it. */
  lemma NoDupLast(s: seq<Id>)
    requires s != []
    ensures NoDup(s) <==> NoDup(s[..|s| - 1]) && s[|s| - 1] !in s[..|s| - 1]
  {
    var last := |s| - 1;
    var front := s[..last];
    if NoDup(s) {
      forall x | x in front ensures x != s[last] {
        var i :| 0 <= i < last && front[i] == x;
        assert s[i] == x;
      }
      forall i, j | 0 <= i < j < last ensures front[i] != front[j] { assert s[i] != s[j]; }
    }
    if NoDup(front) && s[last] !in front {
      forall i, j | 0 <= i < j < |s| ensures s[i] != s[j] {
        assert front[i] == s[i] && front[i] in front;
        if j < last { assert front[j] == s[j]; }
      }
    }
  }

  lemma {:induction false} ElementsSize(s: seq<Id>)
    ensures |Elements(s)| <= |s|
    ensures |Elements(s)| == |s| <==> NoDup(s)
  {
    if s != [] {
      var last := |s| - 1;
      ElementsSize(s[..last]);
      NoDupLast(s);
      hide NoDup;
      assert s == s[..last] + [s[last]];
      assert Elements(s) == Elements(s[..last]) + {s[last]};
    }
  }

  /** The in-degree counter of a task when `done` have been peeled off: entries counted, tasks taken off. */
  function Left(deps: seq<Id>, done: set<Id>): int {
    |deps| - |Elements(deps) * done|
  }

  /** The counter is zero only when every dependency is peeled off, and none was listed twice. */
  lemma LeftZero(deps: seq<Id>, done: set<Id>)
    ensures Left(deps, done) >= 0
    ensures Left(deps, done) == 0 <==> Elements(deps) <= done && NoDup(deps)
  {
    ElementsSize(deps);
    var e, x := Elements(deps), Elements(deps) * done;
    assert e == x + (e - x);
    assert |e| == |x| + |e - x|;
    if |x| == |e| { assert e - x == {}; }
  }

  lemma LeftStep(deps: seq<Id>, done: set<Id>, id: Id)
    requires id !in done
    ensures Left(deps, done + {id}) == Left(deps, done) - if id in deps then 1 else 0
  {
    if id in deps {
      assert Elements(deps) * (done + {id}) == Elements(deps) * done + {id};
    } else {
      assert Elements(deps) * (done + {id}) == Elements(deps) * done;
    }
  }

  /** The peeled tasks rank above their dependencies, which are peeled too. */
  ghost predicate Peeled(g: Graph, done: set<Id>, rank: map<Id, nat>) {
    && done <= g.nodes.Keys && rank.Keys == done
    && forall id, dep :: id in done && dep in g.nodes[id].task.dependsOn ==> dep in done && rank[dep] < rank[id]
  }

  /** Peeling is stuck: exactly the peeled tasks have a zero counter. */
  ghost predicate Stuck(g: Graph, done: set<Id>) {
    forall id :: id in g.nodes ==> (id in done <==> Left(g.nodes[id].task.dependsOn, done) == 0)
  }

  /** A task that stays, listing no dependency twice, waits for another one that stays. */
  lemma StuckWaits(g: Graph, done: set<Id>, id: Id)
    requires Known(g) && Stuck(g, done) && id in g.nodes && id !in done && NoDup(g.nodes[id].task.dependsOn)
    ensures DependsInto(g, id, g.nodes.Keys - done)
  {
    LeftZero(g.nodes[id].task.dependsOn, done);
    var dep :| dep in Elements(g.nodes[id].task.dependsOn) && dep !in done;
  }

  /** What peels off completely is what lists no dependency twice and has no cycle. */
  lemma StuckMeans(g: Graph, done: set<Id>, rank: map<Id, nat>)
    requires Known(g) && Peeled(g, done, rank) && Stuck(g, done)
    ensures done == g.nodes.Keys <==> NoRepeats(g) && !HasCycle(g)
    ensures done == g.nodes.Keys ==> Ranked(g, rank)
  {
    hide Left, HasCycle, NoDup, DependsInto, Known;
    if done == g.nodes.Keys {
      RankedHasNoCycle(g, rank);
      forall id | id in g.nodes ensures NoDup(g.nodes[id].task.dependsOn) {
        LeftZero(g.nodes[id].task.dependsOn, done);
      }
    } else if NoRepeats(g) {
      var c := g.nodes.Keys - done;
      forall id | id in c ensures DependsInto(g, id, c) {
        StuckWaits(g, done, id);
      }
      assert g.nodes.Keys == done + c;
      TrappedHasCycle(g, c);
    }
  }

  // ----- Kahn's bookkeeping -----

  function DepsOf(g: Graph, id: Id): seq<Id>
    requires id in g.nodes
  {
    g.nodes[id].task.dependsOn
  }

  /** The in-degree counters agree with what has been peeled, and the queue holds what is due. */
  ghost predicate Counting(g: Graph, indeg: map<Id, int>, queue: seq<Id>, done: set<Id>) {
    && indeg.Keys == g.nodes.Keys
    && NoDup(queue)
    && (forall id :: id in queue ==> id in g.nodes && id !in done)
    && (forall id :: id in g.nodes ==> indeg[id] == Left(DepsOf(g, id), done))
    && (forall id :: id in g.nodes ==> (id in queue || id in done <==> indeg[id] == 0))
  }

  /** Halfway through the dependents of `tid`: those in `seen` are taken down already. */
  ghost predicate CountingUpTo(g: Graph, indeg: map<Id, int>, queue: seq<Id>, done: set<Id>, tid: Id, seen: set<Id>) {
    && indeg.Keys == g.nodes.Keys
    && NoDup(queue)
    && (forall id :: id in queue ==> id in g.nodes && id !in done && id != tid)
    && (forall id :: id in g.nodes ==> indeg[id] == Left(DepsOf(g, id), if id in seen then done + {tid} else done))
    && (forall id :: id in g.nodes ==> (id in queue || id in done || id == tid <==> indeg[id] == 0))
  }

  lemma NoDupAppend(s: seq<Id>, x: Id)
    requires NoDup(s) && x !in s
    ensures NoDup(s + [x])
  {
  }

  /** A task that does not depend on `tid`: nothing to count. */
  lemma UpToSame(g: Graph, indeg: map<Id, int>, queue: seq<Id>, done: set<Id>, tid: Id, seen: set<Id>, other: Id)
    requires CountingUpTo(g, indeg, queue, done, tid, seen) && tid !in done
    requires other in g.nodes && other !in seen && tid !in DepsOf(g, other)
    ensures CountingUpTo(g, indeg, queue, done, tid, seen + {other})
  {
    LeftStep(DepsOf(g, other), done, tid);
    hide Left, NoDup;
  }

  /** A dependent that waits for others still: counter down. */
  lemma UpToLess(g: Graph, indeg: map<Id, int>, queue: seq<Id>, done: set<Id>, tid: Id, seen: set<Id>, other: Id)
    requires CountingUpTo(g, indeg, queue, done, tid, seen) && tid in g.nodes && tid !in done
    requires other in g.nodes && other !in seen && tid in DepsOf(g, other) && indeg[other] != 1
    ensures CountingUpTo(g, indeg[other := indeg[other] - 1], queue, done, tid, seen + {other})
  {
    LeftStep(DepsOf(g, other), done, tid);
    LeftZero(DepsOf(g, other), done + {tid});
    hide Left, NoDup, DepsOf;
    assert indeg[other] > 0;
  }

  /** A dependent that waited for `tid` alone: counter down to zero, and queued. */
  lemma UpToDue(g: Graph, indeg: map<Id, int>, queue: seq<Id>, done: set<Id>, tid: Id, seen: set<Id>, other: Id)
    requires CountingUpTo(g, indeg, queue, done, tid, seen) && tid in g.nodes && tid !in done
    requires other in g.nodes && other !in seen && tid in DepsOf(g, other) && indeg[other] == 1
    ensures CountingUpTo(g, indeg[other := 0], queue + [other], done, tid, seen + {other})
  {
    LeftStep(DepsOf(g, other), done, tid);
    LeftZero(DepsOf(g, other), done + {tid});
    hide Left;
    assert other !in queue && other !in done && other != tid;
    NoDupAppend(queue, other);
    hide NoDup;
  }

  lemma StartUpTo(g: Graph, indeg: map<Id, int>, queue: seq<Id>, done: set<Id>, tid: Id)
    requires tid !in queue && Counting(g, indeg, queue + [tid], done)
    ensures CountingUpTo(g, indeg, queue, done, tid, {})
  {
    var q := queue + [tid];
    assert forall i :: 0 <= i < |queue| ==> q[i] == queue[i];
    assert forall id :: id in q <==> id in queue || id == tid;
  }

  lemma EndUpTo(g: Graph, indeg: map<Id, int>, queue: seq<Id>, done: set<Id>, tid: Id)
    requires CountingUpTo(g, indeg, queue, done, tid, g.nodes.Keys)
    ensures Counting(g, indeg, queue, done + {tid})
  {
  }

  lemma InitialCounting(g: Graph, indeg: map<Id, int>, queue: seq<Id>)
    requires indeg.Keys == g.nodes.Keys && NoDup(queue)
    requires forall id :: id in g.nodes ==> indeg[id] == |DepsOf(g, id)|
    requires forall id :: id in queue <==> id in g.nodes && indeg[id] == 0
    ensures Counting(g, indeg, queue, {})
  {
    forall id | id in g.nodes ensures indeg[id] == Left(DepsOf(g, id), {}) {
      assert Elements(DepsOf(g, id)) * {} == {};
    }
  }

  /** What is popped has all its dependencies peeled, and was not peeled itself. */
  lemma PopIsDue(g: Graph, indeg: map<Id, int>, queue: seq<Id>, done: set<Id>)
    requires queue != [] && Counting(g, indeg, queue, done)
    ensures
      var tid := queue[|queue| - 1];
      && tid in g.nodes && tid !in done && tid !in queue[..|queue| - 1]
      && (forall dep :: dep in DepsOf(g, tid) ==> dep in done)
  {
    var tid := queue[|queue| - 1];
    assert tid in queue;
    LeftZero(DepsOf(g, tid), done);
    forall dep | dep in DepsOf(g, tid) ensures dep in done { assert dep in Elements(DepsOf(g, tid)); }
  }

  /** `seen` counts the peeled tasks and bounds their ranks. */
  ghost predicate PeeledSoFar(g: Graph, done: set<Id>, rank: map<Id, nat>, seen: nat) {
    Peeled(g, done, rank) && seen == |done| && forall id :: id in done ==> rank[id] < seen
  }

  lemma PeelOne(g: Graph, done: set<Id>, rank: map<Id, nat>, seen: nat, tid: Id)
    requires Peeled(g, done, rank) && tid in g.nodes && tid !in done
    requires forall id :: id in done ==> rank[id] < seen
    requires forall dep :: dep in g.nodes[tid].task.dependsOn ==> dep in done
    ensures Peeled(g, done + {tid}, rank[tid := seen])
  {
  }

  lemma PeelStep(g: Graph, done: set<Id>, rank: map<Id, nat>, seen: nat, tid: Id)
    requires PeeledSoFar(g, done, rank, seen) && tid in g.nodes && tid !in done
    requires forall dep :: dep in DepsOf(g, tid) ==> dep in done
    ensures PeeledSoFar(g, done + {tid}, rank[tid := seen], seen + 1)
  {
    assert forall dep :: dep in g.nodes[tid].task.dependsOn ==> dep in DepsOf(g, tid);
    assert rank.Keys == done;
    PeelOne(g, done, rank, seen, tid);
    hide Peeled;
    assert |done + {tid}| == |done| + 1;
  }

  /** One turn of the peel: the last in the queue is popped, counted and ranked. */
  lemma PopStep(g: Graph, indeg: map<Id, int>, queue: seq<Id>, done: set<Id>, rank: map<Id, nat>, seen: nat)
    requires queue != [] && Counting(g, indeg, queue, done) && PeeledSoFar(g, done, rank, seen)
    ensures
      var tid, rest := queue[|queue| - 1], queue[..|queue| - 1];
      && tid in g.nodes && tid !in done && tid !in rest && Counting(g, indeg, rest + [tid], done)
      && PeeledSoFar(g, done + {tid}, rank[tid := seen], seen + 1)
  {
    hide Counting, PeeledSoFar, Left;
    var tid, rest := queue[|queue| - 1], queue[..|queue| - 1];
    assert queue == rest + [tid];
    PopIsDue(g, indeg, queue, done);
    PeelStep(g, done, rank, seen, tid);
  }

  lemma ProperSubset(a: set<Id>, b: set<Id>)
    requires a <= b && a != b
    ensures |a| < |b|
  {
    assert b == a + (b - a);
    assert b - a != {};
  }

  lemma PeelEnds(g: Graph, indeg: map<Id, int>, done: set<Id>, rank: map<Id, nat>, seen: nat)
    requires Known(g) && Counting(g, indeg, [], done) && PeeledSoFar(g, done, rank, seen)
    ensures seen == |g.nodes| <==> NoRepeats(g) && !HasCycle(g)
    ensures seen == |g.nodes| ==> Ranked(g, rank)
  {
    hide Left, NoRepeats, HasCycle, Known;
    assert Stuck(g, done);
    StuckMeans(g, done, rank);
    if done != g.nodes.Keys { ProperSubset(done, g.nodes.Keys); }
  }

  // ----- progress -----

  /** In a DAG with an unfinished task and no task that stands in the way, some task is ready. */
  lemma {:induction false} Progress(g: Graph, rank: map<Id, nat>, id: Id)
    requires Ranked(g, rank) && id in g.nodes && g.nodes[id].status.Pending?
    requires forall other :: other in g.nodes ==> g.nodes[other].status.Pending? || Success(g.nodes[other].status)
    ensures ReadyIds(g) != {}
    decreases rank[id]
  {
    if id in ReadyIds(g) {
    } else {
      var dep :| dep in g.nodes[id].task.dependsOn && !Done(g, dep);
      Progress(g, rank, dep);
    }
  }
}
