/** The planner: the mutable task graph, its validation by Kahn's algorithm, and mission templates. */
module Planner {
  import opened Sorting
  import opened Options
  import opened Tasks
  import opened Dag
  import opened Templates
  import C = Counting

  class TaskNode {
    const task: Task
    var status: Status
    var attempts: nat
    var agent: Option<Name>
    var result: Option<Reply>
    var error: Option<Note>

    constructor (task: Task)
      ensures this.task == task && View() == FreshNode(task)
    {
      this.task := task;
      status := Pending;
      attempts := 0;
      agent := None;
      result := None;
      error := None;
    }

    lemma TaskOfView()
      ensures View().task == task && View().attempts == attempts && View().error == error && View().result == result
    {
    }

    function View(): Node
      reads this
    {
      Node(task, status, attempts, agent, result, error)
    }
  }

  class TaskGraph {
    var nodes: map<Id, TaskNode>
    var order: seq<Id>

    ghost predicate Valid()
      reads this
    {
      && (forall i, j :: 0 <= i < j < |order| ==> order[i] != order[j])
      && (forall id :: id in order <==> id in nodes)
      && (forall id :: id in nodes ==> nodes[id].task.id == id)
    }

    /** The graph as a value. */
    function View(): Graph
      reads this, nodes.Values
    {
      Graph(map id | id in nodes :: nodes[id].View(), order)
    }

    constructor ()
      ensures Valid() && nodes == map[] && View() == Graph(map[], [])
    {
      nodes := map[];
      order := [];
    }

    /** Adds a task; a known id is refused and nothing changes. */
    method Add(task: Task) returns (added: Option<TaskNode>)
      requires Valid()
      modifies this
      ensures Valid() && View() == AddTask(old(View()), task)
      ensures added.None? <==> task.id in old(nodes)
      ensures added.None? ==> nodes == old(nodes) && order == old(order)
      ensures nodes.Values <= old(nodes.Values) + (if added.Some? then {added.value} else {})
      ensures added.Some? ==>
              fresh(added.value) && nodes == old(nodes)[task.id := added.value] && order == old(order) + [task.id]
    {
      if task.id in nodes {
        return None;
      }
      var node := new TaskNode(task);
      MoreValues(nodes, task.id, node);
      nodes := nodes[task.id := node];
      order := order + [task.id];
      added := Some(node);
      assert forall id :: id in old(nodes) ==> nodes[id].View() == old(nodes[id].View());
      hide Valid, View, AddTask;
      Added(task, node);
    }

    /** The graph is as before, with the new node last. */
    twostate lemma Added(task: Task, new node: TaskNode)
      requires old(Valid()) && task.id !in old(nodes) && node.View() == FreshNode(task)
      requires nodes == old(nodes)[task.id := node] && order == old(order) + [task.id]
      requires forall id :: id in old(nodes) ==> nodes[id].View() == old(nodes[id].View())
      ensures Valid() && View() == AddTask(old(View()), task)
    {
      assert task.id !in old(order);
      assert View().nodes == old(View()).nodes[task.id := FreshNode(task)];
    }

    lemma NextSeen(ids: seq<Id>, k: nat)
      requires k < |ids|
      ensures forall id :: id in ids[..k + 1] <==> id in ids[..k] || id == ids[k]
    {
      assert ids[..k + 1] == ids[..k] + [ids[k]];
    }

    lemma MoreValues(m: map<Id, TaskNode>, id: Id, node: TaskNode)
      ensures m[id := node].Values <= m.Values + {node}
    {
    }

    /** Every dependency is a task of the graph. */
    method DependenciesKnown() returns (ok: bool)
      requires Valid()
      ensures ok <==> Known(View())
    {
      for i := 0 to |order|
        invariant forall k :: 0 <= k < i ==> forall dep :: dep in nodes[order[k]].task.dependsOn ==> dep in nodes
      {
        var deps := nodes[order[i]].task.dependsOn;
        for j := 0 to |deps|
          invariant forall k :: 0 <= k < j ==> deps[k] in nodes
        {
          if deps[j] !in nodes {
            var g := View();
            assert order[i] in g.nodes && deps[j] in g.nodes[order[i]].task.dependsOn && deps[j] !in g.nodes;
            return false;
          }
        }
      }
      forall id, dep | id in View().nodes && dep in View().nodes[id].task.dependsOn ensures dep in View().nodes {
        var k :| 0 <= k < |order| && order[k] == id;
      }
      ok := true;
    }

    /** One count per listed dependency. */
    method InDegrees() returns (indeg: map<Id, int>)
      requires Valid()
      ensures indeg.Keys == nodes.Keys
      ensures forall id :: id in nodes ==> indeg[id] == |nodes[id].task.dependsOn|
    {
      indeg := map id | id in nodes :: 0;
      for i := 0 to |order|
        invariant indeg.Keys == nodes.Keys
        invariant forall k :: 0 <= k < i ==> indeg[order[k]] == |nodes[order[k]].task.dependsOn|
        invariant forall k :: i <= k < |order| ==> indeg[order[k]] == 0
      {
        var deps := nodes[order[i]].task.dependsOn;
        for j := 0 to |deps|
          invariant indeg.Keys == nodes.Keys
          invariant indeg[order[i]] == j
          invariant forall k :: 0 <= k < i ==> indeg[order[k]] == |nodes[order[k]].task.dependsOn|
          invariant forall k :: i < k < |order| ==> indeg[order[k]] == 0
        {
          indeg := indeg[order[i] := indeg[order[i]] + 1];
        }
      }
      forall id | id in nodes ensures indeg[id] == |nodes[id].task.dependsOn| {
        var k :| 0 <= k < |order| && order[k] == id;
      }
    }

    method InitialQueue(indeg: map<Id, int>) returns (queue: seq<Id>)
      requires Valid() && indeg.Keys == nodes.Keys
      ensures NoDup(queue) && forall id :: id in queue <==> id in nodes && indeg[id] == 0
    {
      queue := [];
      for i := 0 to |order|
        invariant NoDup(queue)
        invariant forall id :: id in queue <==> id in order[..i] && indeg[id] == 0
      {
        assert order[..i + 1] == order[..i] + [order[i]];
        if indeg[order[i]] == 0 {
          queue := queue + [order[i]];
        }
      }
      assert order[..|order|] == order;
    }

    /** `g` has this graph's tasks and dependencies, which never change once a task is added. */
    ghost predicate Shape(g: Graph)
      reads this
    {
      g.nodes.Keys == nodes.Keys && forall id :: id in nodes ==> DepsOf(g, id) == nodes[id].task.dependsOn
    }

    /** Takes the task just popped off the counters of its dependents, and queues those that are due. */
    method TakeOff(ghost g: Graph, tid: Id, indeg0: map<Id, int>, queue0: seq<Id>, ghost done: set<Id>)
      returns (indeg: map<Id, int>, queue: seq<Id>)
      requires Valid() && Shape(g) && tid in nodes && tid !in done && tid !in queue0
      requires Counting(g, indeg0, queue0 + [tid], done)
      ensures Counting(g, indeg, queue, done + {tid})
    {
      hide Counting, CountingUpTo;
      indeg, queue := indeg0, queue0;
      ghost var seen: set<Id> := {};
      StartUpTo(g, indeg0, queue0, done, tid);
      for k := 0 to |order|
        invariant CountingUpTo(g, indeg, queue, done, tid, seen)
        invariant forall id :: id in seen <==> id in order[..k]
      {
        var other := order[k];
        DomainOf(g, indeg, queue, done, tid, seen);
        if tid in nodes[other].task.dependsOn {
          if indeg[other] == 1 {
            UpToDue(g, indeg, queue, done, tid, seen, other);
          } else {
            UpToLess(g, indeg, queue, done, tid, seen, other);
          }
          indeg := indeg[other := indeg[other] - 1];
          if indeg[other] == 0 {
            queue := queue + [other];
          }
        } else {
          UpToSame(g, indeg, queue, done, tid, seen, other);
        }
        seen := seen + {other};
        NextSeen(order, k);
      }
      assert order[..|order|] == order;
      assert seen == g.nodes.Keys;
      EndUpTo(g, indeg, queue, done, tid);
    }

    lemma DomainOf(g: Graph, indeg: map<Id, int>, queue: seq<Id>, done: set<Id>, tid: Id, seen: set<Id>)
      requires CountingUpTo(g, indeg, queue, done, tid, seen)
      ensures indeg.Keys == g.nodes.Keys
    {
    }

    /** Kahn's algorithm: accepts exactly the graphs with no dependency listed twice and no cycle. */
    method AssertAcyclic(ghost g: Graph) returns (ok: bool, ghost rank: map<Id, nat>)
      requires Valid() && g == View() && Known(g)
      ensures ok <==> NoRepeats(g) && !HasCycle(g)
      ensures ok ==> Ranked(g, rank)
    {
      assert Shape(g);
      hide View, Counting, PeeledSoFar, HasCycle, NoRepeats, NoDup, Known, Ranked;
      var indeg := InDegrees();
      var queue := InitialQueue(indeg);
      InitialCounting(g, indeg, queue);
      var seen := 0;
      ghost var done: set<Id> := {};
      rank := map[];
      NothingPeeled(g);
      while queue != []
        invariant Counting(g, indeg, queue, done)
        invariant PeeledSoFar(g, done, rank, seen)
        decreases g.nodes.Keys - done
      {
        PopStep(g, indeg, queue, done, rank, seen);
        var tid := queue[|queue| - 1];
        queue := queue[..|queue| - 1];
        indeg, queue := TakeOff(g, tid, indeg, queue, done);
        rank, done, seen := rank[tid := seen], done + {tid}, seen + 1;
      }
      PeelEnds(g, indeg, done, rank, seen);
      ok := seen == |nodes|;
    }

    lemma NothingPeeled(g: Graph)
      ensures PeeledSoFar(g, {}, map[], 0)
    {
    }

    /** Accepts exactly the graphs with known dependencies, none listed twice, and no cycle; these are ranked. */
    method Validate() returns (error: Option<PlanError>, ghost rank: map<Id, nat>)
      requires Valid()
      ensures error.None? <==> Known(View()) && NoRepeats(View()) && !HasCycle(View())
      ensures error.None? ==> Ranked(View(), rank)
      ensures error.Some? ==> error.value == if Known(View()) then CyclicGraph else UnknownDependency
    {
      rank := map[];
      var known := DependenciesKnown();
      if !known {
        return Some(UnknownDependency), rank;
      }
      var ok;
      ok, rank := AssertAcyclic(View());
      error := if ok then None else Some(CyclicGraph);
    }

    // ----- scheduling -----

    predicate IsDone()
      reads this, nodes.Values
      ensures IsDone() <==> GraphDone(View())
      ensures IsDone() <==> forall id :: id in nodes ==>
                nodes[id].status.Completed? || nodes[id].status.Failed? || nodes[id].status.Delegated?
    {
      assert forall id :: id in nodes ==> View().nodes[id].status == nodes[id].status;
      forall id :: id in nodes ==> Over(nodes[id].status)
    }

    predicate HasFailed()
      reads this, nodes.Values
      ensures HasFailed() <==> HasFailures(View())
    {
      assert forall id :: id in nodes ==> View().nodes[id].status == nodes[id].status;
      exists id :: id in nodes && nodes[id].status.Failed?
    }

    predicate HasSucceeded()
      reads this, nodes.Values
      ensures HasSucceeded() <==> HasSuccess(View())
    {
      assert forall id :: id in nodes ==> View().nodes[id].status == nodes[id].status;
      exists id :: id in nodes && Success(nodes[id].status)
    }

    predicate DepDone(id: Id)
      reads this, nodes.Values
      ensures DepDone(id) <==> Done(View(), id)
    {
      id in nodes && Success(nodes[id].status)
    }

    /** When one node's fields were assigned, the value of the graph changes there only. */
    twostate lemma OnlyNode(id: Id)
      requires old(Valid()) && nodes == old(nodes) && order == old(order) && id in nodes
      requires forall other :: other in nodes && nodes[other] != nodes[id] ==> unchanged(nodes[other])
      ensures View() == old(View()).(nodes := old(View()).nodes[id := nodes[id].View()])
    {
      forall other | other in nodes && other != id ensures nodes[other].View() == old(nodes[other].View()) {
        assert nodes[other].task.id != nodes[id].task.id;
      }
    }

    function Results(): map<Id, Reply>
      reads this, nodes.Values
    {
      map id | id in nodes && nodes[id].result.Some? :: nodes[id].result.value
    }

    /** Marks a pending task ready when all its dependencies are done. */
    method MarkIfReady(id: Id) returns (ready: bool)
      requires Valid() && id in nodes
      modifies nodes[id]
      ensures ready == IsReady(old(View()), id)
      ensures View() == if ready then WithReady(old(View()), id) else old(View())
    {
      var node := nodes[id];
      RunnableMeans(id);
      ViewNode(id);
      hide IsReady, DepDone;
      ready := (node.status.Pending? || node.status.Ready?)
               && forall dep :: dep in node.task.dependsOn ==> DepDone(dep);
      if ready {
        node.status := Ready;
        OnlyNode(id);
      }
    }

    /** Tasks whose dependencies are all done, marked ready, the most urgent first. */
    method ReadyTasks() returns (wave: seq<Id>)
      requires Valid()
      modifies nodes.Values
      ensures nodes == old(nodes) && order == old(order)
      ensures View() == MarkReady(old(View()))
      ensures wave == StableSort(ReadyInOrder(old(View()), order), MoreUrgent(Priorities(old(View()))))
      ensures DueInOrder(old(View()), wave) && DueMarked(old(View()), View())
    {
      hide *;
      ghost var g := View();
      ViewOk();
      var ready: seq<Id> := [];
      NothingMarked(g);
      for i := 0 to |order|
        invariant nodes == old(nodes) && order == old(order)
        invariant View() == MarkReadyAmong(g, order[..i])
        invariant ready == ReadyInOrder(g, order[..i])
      {
        MarkReadyStep(g, i);
        var added := MarkIfReady(order[i]);
        if added {
          ready := ready + [order[i]];
        }
      }
      WholeOrder(g);
      wave := StableSort(ready, MoreUrgent(map id | id in nodes :: nodes[id].task.priority));
      WaveIsDue(g);
      DueAreMarked(g);
    }

    lemma WholeOrder(g: Graph)
      requires Shape(g) && g.order == order && forall id :: id in nodes ==> g.nodes[id].task == nodes[id].task
      ensures order[..|order|] == order && MarkReadyAmong(g, order) == MarkReady(g)
      ensures (map id | id in nodes :: nodes[id].task.priority) == Priorities(g)
    {
    }

    lemma RunnableMeans(id: Id)
      requires id in nodes
      ensures (nodes[id].status.Pending? || nodes[id].status.Ready?)
              && (forall dep :: dep in nodes[id].task.dependsOn ==> DepDone(dep))
              <==> IsReady(View(), id)
    {
      hide DepDone, Done;
    }

    lemma ViewNode(id: Id)
      requires id in nodes
      ensures View().nodes[id] == nodes[id].View() && View().nodes.Keys == nodes.Keys && View().order == order
    {
    }

    lemma ViewKeys()
      ensures View().nodes.Keys == nodes.Keys
    {
    }

    lemma ViewOk()
      requires Valid()
      ensures GraphOk(View()) && View().order == order && Shape(View())
      ensures forall id :: id in nodes ==> View().nodes[id].task == nodes[id].task
    {
    }
  }

  // ----- what `ReadyTasks` computes -----

  function Priorities(g: Graph): map<Id, int> {
    map id | id in g.nodes :: g.nodes[id].task.priority
  }

  /** Lower numbers are more urgent. */
  function MoreUrgent(priority: map<Id, int>): (Id, Id) -> bool {
    (a, b) => (if a in priority then priority[a] else 0) <= if b in priority then priority[b] else 0
  }

  function ReadyInOrder(g: Graph, ids: seq<Id>): seq<Id> {
    if ids == [] then []
    else
      var last := ids[|ids| - 1];
      ReadyInOrder(g, ids[..|ids| - 1]) + if IsReady(g, last) then [last] else []
  }

  function MarkReadyAmong(g: Graph, ids: seq<Id>): Graph {
    Graph(map id | id in g.nodes :: if id in ids && IsReady(g, id) then g.nodes[id].(status := Ready)
                                    else g.nodes[id], g.order)
  }

  function WithReady(g: Graph, id: Id): Graph
    requires id in g.nodes
  {
    g.(nodes := g.nodes[id := g.nodes[id].(status := Ready)])
  }

  function MarkReady(g: Graph): Graph {
    MarkReadyAmong(g, g.order)
  }

  lemma NothingMarked(g: Graph)
    ensures MarkReadyAmong(g, []) == g && ReadyInOrder(g, []) == []
  {
    assert MarkReadyAmong(g, []).nodes == g.nodes;
  }

  /** Marking a task ready makes no dependency done or undone. */
  lemma MarkedDeps(g: Graph, ids: seq<Id>, task: Task)
    ensures DepsDone(MarkReadyAmong(g, ids), task) <==> DepsDone(g, task)
  {
    hide IsReady;
    var h := MarkReadyAmong(g, ids);
    forall dep ensures Done(h, dep) <==> Done(g, dep) { MarkedDone(g, ids, dep); }
  }

  lemma MarkedDone(g: Graph, ids: seq<Id>, dep: Id)
    ensures Done(MarkReadyAmong(g, ids), dep) <==> Done(g, dep)
  {
    hide DepsDone;
  }

  lemma MarkedOne(g: Graph, ids: seq<Id>, id: Id)
    requires id in g.nodes && id !in ids
    ensures
      var h := MarkReadyAmong(g, ids);
      && h.nodes[id] == g.nodes[id]
      && MarkReadyAmong(g, ids + [id]) == (if IsReady(g, id) then WithReady(h, id) else h)
  {
    hide IsReady;
    var h := MarkReadyAmong(g, ids);
    assert MarkReadyAmong(g, ids + [id]).nodes
        == (if IsReady(g, id) then h.nodes[id := h.nodes[id].(status := Ready)] else h.nodes);
  }

  /** The loop body of `ReadyTasks`, on values. */
  lemma MarkReadyStep(g: Graph, i: nat)
    requires GraphOk(g) && i < |g.order|
    ensures
      var id, h := g.order[i], MarkReadyAmong(g, g.order[..i]);
      && id in g.nodes && h.nodes.Keys == g.nodes.Keys && h.nodes[id] == g.nodes[id]
      && (IsReady(g, id) <==> IsReady(h, id))
      && MarkReadyAmong(g, g.order[..i + 1])
         == (if IsReady(g, id) then WithReady(h, id) else h)
      && ReadyInOrder(g, g.order[..i + 1]) == ReadyInOrder(g, g.order[..i]) + (if IsReady(g, id) then [id] else [])
  {
    var id := g.order[i];
    assert g.order[..i + 1] == g.order[..i] + [id];
    assert id in g.order && id !in g.order[..i];
    hide DepsDone, Done;
    MarkedDeps(g, g.order[..i], g.nodes[id].task);
    MarkedOne(g, g.order[..i], id);
    hide MarkReadyAmong;
  }

  /** The wave is the ready set, each task once. */
  lemma {:induction false} ReadyMembers(g: Graph, ids: seq<Id>, id: Id)
    ensures id in ReadyInOrder(g, ids) <==> id in ids && IsReady(g, id)
  {
    hide IsReady;
    if ids != [] {
      var last := |ids| - 1;
      ReadyMembers(g, ids[..last], id);
      assert ids == ids[..last] + [ids[last]];
    }
  }

  // ----- the wave, in its order -----

  /** `a` was added to the graph before `b`. */
  ghost predicate AddedBefore(g: Graph, a: Id, b: Id) {
    exists k, l :: 0 <= k < l < |g.order| && g.order[k] == a && g.order[l] == b
  }

  ghost function Older(g: Graph): (Id, Id) -> bool { (a, b) => AddedBefore(g, a, b) }

  /** The lower priority number goes first, and among equals the task added first. */
  ghost predicate GoesFirst(g: Graph, a: Id, b: Id) {
    && a in g.nodes && b in g.nodes
    && (g.nodes[a].task.priority < g.nodes[b].task.priority
        || (g.nodes[a].task.priority == g.nodes[b].task.priority && AddedBefore(g, a, b)))
  }

  /** Not yet run, and every dependency has completed or been delegated. */
  ghost predicate IsDue(g: Graph, id: Id) {
    && id in g.nodes && (g.nodes[id].status.Pending? || g.nodes[id].status.Ready?)
    && forall dep :: dep in g.nodes[id].task.dependsOn ==>
         dep in g.nodes && (g.nodes[dep].status.Completed? || g.nodes[dep].status.Delegated?)
  }

  /** The tasks that are due, the most urgent first. */
  ghost predicate DueInOrder(g: Graph, wave: seq<Id>) {
    && (forall id :: id in wave <==> IsDue(g, id))
    && (forall i, j :: 0 <= i < j < |wave| ==> GoesFirst(g, wave[i], wave[j]))
  }

  /** Those due are marked ready, and nothing else has changed. */
  ghost predicate DueMarked(g: Graph, h: Graph) {
    && h.order == g.order && h.nodes.Keys == g.nodes.Keys
    && forall id :: id in g.nodes ==>
         h.nodes[id] == if IsDue(g, id) then g.nodes[id].(status := Ready) else g.nodes[id]
  }

  lemma DueAreMarked(g: Graph)
    requires GraphOk(g)
    ensures DueMarked(g, MarkReady(g))
  {
    forall id | id in g.nodes ensures IsReady(g, id) <==> IsDue(g, id) {}
    hide IsReady, IsDue;
  }

  lemma {:induction false} ReadyAsAdded(g: Graph, ids: seq<Id>)
    requires ids <= g.order
    ensures Sorted(ReadyInOrder(g, ids), Older(g))
  {
    hide IsReady;
    if ids != [] {
      var n := |ids| - 1;
      ReadyAsAdded(g, ids[..n]);
      forall id | id in ReadyInOrder(g, ids[..n]) ensures AddedBefore(g, id, ids[n]) {
        ReadyMembers(g, ids[..n], id);
        var k :| 0 <= k < n && ids[k] == id;
        assert g.order[k] == id && g.order[n] == ids[n];
      }
    }
  }

  lemma WaveIsDue(g: Graph)
    requires GraphOk(g)
    ensures DueInOrder(g, StableSort(ReadyInOrder(g, g.order), MoreUrgent(Priorities(g))))
  {
    hide *;
    WaveMembers(g, MoreUrgent(Priorities(g)));
    WaveByUrgency(g);
    UrgentAreDue(g, StableSort(ReadyInOrder(g, g.order), MoreUrgent(Priorities(g))));
  }

  lemma WaveByUrgency(g: Graph)
    ensures Sorted(StableSort(ReadyInOrder(g, g.order), MoreUrgent(Priorities(g))),
                   Lex(MoreUrgent(Priorities(g)), Older(g)))
  {
    hide *;
    UrgencyIsTotal(Priorities(g));
    ReadyAsAdded(g, g.order);
    StableSortIsLexicographic(ReadyInOrder(g, g.order), MoreUrgent(Priorities(g)), Older(g));
  }

  lemma UrgentAreDue(g: Graph, wave: seq<Id>)
    requires forall id :: id in wave <==> IsDue(g, id)
    requires Sorted(wave, Lex(MoreUrgent(Priorities(g)), Older(g)))
    ensures DueInOrder(g, wave)
  {
    hide Lex, Older, IsDue, MoreUrgent, Priorities, GoesFirst;
    forall i, j | 0 <= i < j < |wave| ensures GoesFirst(g, wave[i], wave[j]) {
      assert wave[i] in wave && wave[j] in wave;
      DueIsListed(g, wave[i]);
      DueIsListed(g, wave[j]);
      UrgencyThenAge(g, wave[i], wave[j]);
    }
  }

  lemma DueIsListed(g: Graph, id: Id)
    requires IsDue(g, id)
    ensures id in g.nodes
  {
  }

  lemma WaveMembers(g: Graph, le: (Id, Id) -> bool)
    requires GraphOk(g)
    ensures forall id :: id in StableSort(ReadyInOrder(g, g.order), le) <==> IsDue(g, id)
  {
    var ready := ReadyInOrder(g, g.order);
    forall id ensures id in StableSort(ready, le) <==> id in g.nodes && IsReady(g, id) {
      SortMembers(ready, le, id);
      ReadyMembers(g, g.order, id);
    }
    hide StableSort, ReadyInOrder;
  }

  lemma UrgencyThenAge(g: Graph, a: Id, b: Id)
    requires a in g.nodes && b in g.nodes
    requires Lex(MoreUrgent(Priorities(g)), Older(g))(a, b)
    ensures GoesFirst(g, a, b)
  {
    hide AddedBefore;
  }

  lemma UrgencyIsTotal(priority: map<Id, int>)
    ensures TotalPreorder(MoreUrgent(priority))
  {
  }

  // ----- planning -----

  /** Adds the listed tasks one by one; the first bad entry ends it. */
  method BuildGraph(t: Template) returns (error: Option<PlanError>, graph: TaskGraph)
    ensures fresh(graph) && graph.Valid() && fresh(graph.nodes.Values)
    ensures error.None? <==> Listed(t.tasks)
    ensures error.None? ==> graph.View() == GraphOf(t, t.tasks)
    ensures error == FirstError(t.tasks)
  {
    NoErrorYet();
    hide *;
    graph := new TaskGraph();
    assert t.tasks[..0] == [] && graph.nodes.Values == {};
    EmptyList(t);
    for i := 0 to |t.tasks|
      invariant fresh(graph) && graph.Valid() && fresh(graph.nodes.Values)
      invariant Listed(t.tasks[..i]) && graph.View() == GraphOf(t, t.tasks[..i]) && FirstError(t.tasks[..i]).None?
    {
      ListStep(t, i);
      FirstErrorStep(t.tasks, i);
      EntryErrorIs(t, t.tasks[..i], t.tasks[i]);
      TaskIds(t, t.tasks[i]);
      var bad := SpecError(t.tasks[i]);
      if bad.Some? {
        return bad, graph;
      }
      graph.ViewKeys();
      var added := graph.Add(TaskFor(t, t.tasks[i]));
      if added.None? {
        return Some(DuplicateId), graph;
      }
    }
    assert t.tasks[..|t.tasks|] == t.tasks;
    error := None;
  }

  /**
   * Plans a mission: exactly the plannable templates are accepted, and the graph then holds the listed
   * tasks, fresh, in order, and is a ranked DAG.
   */
  method PlanMission(t: Template) returns (error: Option<PlanError>, graph: TaskGraph, ghost rank: map<Id, nat>)
    ensures fresh(graph) && graph.Valid() && fresh(graph.nodes.Values)
    ensures error.None? <==> Plannable(t)
    ensures error.None? ==>
            ListedGraph(graph.View(), t, t.tasks) && Ranked(graph.View(), rank) && C.Planned(graph.View())
    ensures error.Some? ==> error.value == Refusal(t)
    ensures error.None? <==> Acceptable(t)
    ensures error.None? ==> AsListed(graph.View(), t, |t.tasks|)
    ensures error.Some? ==> RefusedFor(t, error.value)
  {
    PlanFacts(t);
    hide *;
    rank := map[];
    if t.tasks == [] {
      graph := new TaskGraph();
      return Some(NoTasks), graph, rank;
    }
    error, graph := BuildGraph(t);
    if error.None? {
      ListedGraphIs(graph.View(), t);
      error, rank := graph.Validate();
      if error.None? { ListedIsPlanned(graph.View(), t); }
    }
  }

  lemma ListedGraphIs(g: Graph, t: Template)
    ensures ListedGraph(g, t, t.tasks) <==> Listed(t.tasks) && g == GraphOf(t, t.tasks)
  {
  }

  /** The order in which a template is looked at. */
  lemma PlanFacts(t: Template)
    ensures Plannable(t) ==> t.tasks != [] && Listed(t.tasks)
    ensures t.tasks != [] && Listed(t.tasks) ==>
            var g := GraphOf(t, t.tasks);
            && (Plannable(t) <==> Known(g) && NoRepeats(g) && !HasCycle(g))
            && (!Plannable(t) ==> Refusal(t) == if Known(g) then CyclicGraph else UnknownDependency)
    ensures t.tasks == [] ==> Refusal(t) == NoTasks
    ensures t.tasks != [] && FirstError(t.tasks).Some? ==> Refusal(t) == FirstError(t.tasks).value
    ensures Plannable(t) <==> Acceptable(t)
    ensures !Plannable(t) ==> RefusedFor(t, Refusal(t))
    ensures Listed(t.tasks) ==> AsListed(GraphOf(t, t.tasks), t, |t.tasks|)
  {
    ListedTellsEntries(t);
    if !Plannable(t) { RefusalTellsEntries(t); }
    FirstErrorTells(t, |t.tasks|);
    assert t.tasks[..|t.tasks|] == t.tasks;
    hide FirstError, Known, NoRepeats, HasCycle, Listed, GraphOf, Complete, Acceptable, AsListed, RefusedFor;
  }
}
