/** Mission templates: the tasks their entries list, and what makes a template plan. */
module Templates {
  import opened Options
  import opened Tasks
  import opened Dag
  import C = Counting

  /** One entry of a template's task list; `None` is a missing key. */
  datatype TaskSpec = TaskSpec(id: Option<Id>, kind: Option<string>, payload: string, deadlineMs: Option<int>,
                               priority: Option<int>, capability: string, agent: Name, dependsOn: seq<Id>,
                               maxRetries: Option<int>)

  datatype Template = Template(tasks: seq<TaskSpec>, taskMs: Option<int>, maxRetries: Option<int>)

  datatype PlanError = NoTasks | MissingId | NoAgentNamed | DuplicateId | UnknownDependency | CyclicGraph

  const DEFAULT_TASK_TIMEOUT_MS := 15000
  const DEFAULT_MAX_RETRIES := 1
  const DEFAULT_PRIORITY := 5

  function IdOf(spec: TaskSpec): Id { if spec.id.Some? then spec.id.value else "" }

  /** The task of a complete entry, with the template's defaults. */
  function TaskFor(t: Template, spec: TaskSpec): Task {
    Task(IdOf(spec), if spec.kind.Some? then spec.kind.value else IdOf(spec), spec.payload,
         OrElse(spec.deadlineMs, OrElse(t.taskMs, DEFAULT_TASK_TIMEOUT_MS)), OrElse(spec.priority, DEFAULT_PRIORITY),
         spec.capability, spec.agent, spec.dependsOn,
         OrElse(spec.maxRetries, OrElse(t.maxRetries, DEFAULT_MAX_RETRIES)))
  }

  /** What is wrong with one entry on its own. */
  function SpecError(spec: TaskSpec): Option<PlanError> {
    if spec.id.None? then Some(MissingId)
    else if spec.capability == "" && spec.agent == "" then Some(NoAgentNamed)
    else None
  }

  /** The entries are complete, and no id is used twice. */
  ghost predicate Listed(specs: seq<TaskSpec>) {
    && (forall i :: 0 <= i < |specs| ==> SpecError(specs[i]).None?)
    && (forall i, j :: 0 <= i < j < |specs| ==> IdOf(specs[i]) != IdOf(specs[j]))
  }

  /** The graph of the entries, each task fresh, in the order listed. */
  ghost function GraphOf(t: Template, specs: seq<TaskSpec>): Graph {
    if specs == [] then Graph(map[], [])
    else AddTask(GraphOf(t, specs[..|specs| - 1]), TaskFor(t, specs[|specs| - 1]))
  }

  /** The tasks of the graph are the entries', each fresh. */
  lemma {:induction false} GraphOfTasks(t: Template, specs: seq<TaskSpec>)
    ensures GraphOk(GraphOf(t, specs))
    ensures forall id :: id in GraphOf(t, specs).nodes ==>
                           GraphOf(t, specs).nodes[id] == FreshNode(GraphOf(t, specs).nodes[id].task)
  {
    if specs != [] {
      GraphOfTasks(t, specs[..|specs| - 1]);
      hide GraphOf;
      AddTaskOk(GraphOf(t, specs[..|specs| - 1]), TaskFor(t, specs[|specs| - 1]));
      GraphOfLast(t, specs);
    }
  }

  lemma {:induction false} GraphOfEntries(t: Template, specs: seq<TaskSpec>)
    ensures forall id :: id in GraphOf(t, specs).nodes ==>
                           exists spec :: spec in specs && GraphOf(t, specs).nodes[id].task == TaskFor(t, spec)
  {
    if specs != [] {
      var front, last := specs[..|specs| - 1], specs[|specs| - 1];
      GraphOfEntries(t, front);
      GraphOfLast(t, specs);
      hide GraphOf, TaskFor;
      forall id | id in GraphOf(t, specs).nodes
        ensures exists spec :: spec in specs && GraphOf(t, specs).nodes[id].task == TaskFor(t, spec)
      {
        if id in GraphOf(t, front).nodes {
          var spec :| spec in front && GraphOf(t, front).nodes[id].task == TaskFor(t, spec);
          assert spec in specs;
        } else {
          assert last in specs;
        }
      }
    }
  }

  lemma GraphOfLast(t: Template, specs: seq<TaskSpec>)
    requires specs != []
    ensures GraphOf(t, specs) == AddTask(GraphOf(t, specs[..|specs| - 1]), TaskFor(t, specs[|specs| - 1]))
  {
  }

  lemma AddTaskOk(g: Graph, task: Task)
    requires GraphOk(g)
    ensures GraphOk(AddTask(g, task))
  {
  }

  lemma {:induction false} GraphOfIds(t: Template, specs: seq<TaskSpec>, id: Id)
    ensures id in GraphOf(t, specs).nodes <==> exists spec :: spec in specs && IdOf(spec) == id
  {
    if specs != [] {
      var front, last := specs[..|specs| - 1], specs[|specs| - 1];
      GraphOfIds(t, front, id);
      assert specs == front + [last];
      assert id in GraphOf(t, specs).nodes <==> id in GraphOf(t, front).nodes || id == IdOf(last);
      hide GraphOf;
      if id in GraphOf(t, front).nodes {
        var spec :| spec in front && IdOf(spec) == id;
        assert spec in specs;
      }
      if id == IdOf(last) { assert last in specs; }
    }
  }

  /** A template that plans: complete entries, distinct ids, known dependencies, none twice, no cycle. */
  ghost predicate Plannable(t: Template) {
    && t.tasks != [] && Listed(t.tasks)
    && Known(GraphOf(t, t.tasks)) && NoRepeats(GraphOf(t, t.tasks)) && !HasCycle(GraphOf(t, t.tasks))
  }

  lemma ListedAppend(front: seq<TaskSpec>, spec: TaskSpec)
    requires Listed(front) && SpecError(spec).None? && forall other :: other in front ==> IdOf(other) != IdOf(spec)
    ensures Listed(front + [spec])
  {
    hide SpecError, IdOf;
    var all := front + [spec];
    forall i | 0 <= i < |all| ensures SpecError(all[i]).None? { if i < |front| { assert all[i] == front[i]; } }
    forall i, j | 0 <= i < j < |all| ensures IdOf(all[i]) != IdOf(all[j]) {
      assert all[i] == front[i] && front[i] in front;
      if j < |front| { assert all[j] == front[j]; }
    }
  }

  lemma NotListed(specs: seq<TaskSpec>, i: nat)
    requires i < |specs|
    requires SpecError(specs[i]).Some? || exists other :: other in specs[..i] && IdOf(other) == IdOf(specs[i])
    ensures !Listed(specs)
  {
    hide SpecError, IdOf;
    if SpecError(specs[i]).None? {
      var other :| other in specs[..i] && IdOf(other) == IdOf(specs[i]);
      var j :| 0 <= j < i && specs[..i][j] == other;
      assert IdOf(specs[j]) == IdOf(specs[i]);
    }
  }

  /** One entry more: fine iff it is complete and its id is new. */
  lemma ListStep(t: Template, i: nat)
    requires i < |t.tasks| && Listed(t.tasks[..i])
    ensures
      var spec := t.tasks[i];
      if SpecError(spec).Some? || IdOf(spec) in GraphOf(t, t.tasks[..i]).nodes then !Listed(t.tasks)
      else Listed(t.tasks[..i + 1])
    ensures GraphOf(t, t.tasks[..i + 1]) == AddTask(GraphOf(t, t.tasks[..i]), TaskFor(t, t.tasks[i]))
  {
    hide *;
    var spec, front := t.tasks[i], t.tasks[..i];
    assert t.tasks[..i + 1] == front + [spec] && (front + [spec])[..i] == front;
    GraphOfLast(t, front + [spec]);
    GraphOfIds(t, front, IdOf(spec));
    if SpecError(spec).Some? || IdOf(spec) in GraphOf(t, front).nodes {
      NotListed(t.tasks, i);
    } else {
      ListedAppend(front, spec);
    }
  }

  /** What is wrong with an entry after the ones in front of it. */
  function EntryError(front: seq<TaskSpec>, spec: TaskSpec): Option<PlanError> {
    if SpecError(spec).Some? then SpecError(spec)
    else if exists other :: other in front && IdOf(other) == IdOf(spec) then Some(DuplicateId)
    else None
  }

  /** The error of the first bad entry. */
  function FirstError(specs: seq<TaskSpec>): Option<PlanError> {
    if specs == [] then None
    else
      var front := specs[..|specs| - 1];
      var error := FirstError(front);
      if error.Some? then error else EntryError(front, specs[|specs| - 1])
  }

  /** An error stands, whatever follows. */
  lemma {:induction false} FirstErrorStands(specs: seq<TaskSpec>, i: nat)
    requires i <= |specs| && FirstError(specs[..i]).Some?
    ensures FirstError(specs) == FirstError(specs[..i])
    decreases |specs|
  {
    if i == |specs| {
      assert specs[..i] == specs;
    } else {
      var front := specs[..|specs| - 1];
      assert front[..i] == specs[..i];
      FirstErrorStands(front, i);
    }
  }

  lemma FirstErrorStep(specs: seq<TaskSpec>, i: nat)
    requires i < |specs| && FirstError(specs[..i]).None?
    ensures FirstError(specs[..i + 1]) == EntryError(specs[..i], specs[i])
    ensures EntryError(specs[..i], specs[i]).Some? ==> FirstError(specs) == EntryError(specs[..i], specs[i])
  {
    hide EntryError;
    assert specs[..i + 1][..i] == specs[..i];
    if EntryError(specs[..i], specs[i]).Some? { FirstErrorStands(specs, i + 1); }
  }

  lemma EntryErrorIs(t: Template, front: seq<TaskSpec>, spec: TaskSpec)
    ensures EntryError(front, spec)
            == if SpecError(spec).Some? then SpecError(spec)
               else if IdOf(spec) in GraphOf(t, front).nodes then Some(DuplicateId)
               else None
  {
    GraphOfIds(t, front, IdOf(spec));
    hide GraphOf;
  }

  lemma TaskIds(t: Template, spec: TaskSpec)
    ensures TaskFor(t, spec).id == IdOf(spec)
  {
  }

  lemma NoErrorYet()
    ensures FirstError([]).None?
  {
  }

  ghost predicate ListedGraph(g: Graph, t: Template, specs: seq<TaskSpec>) {
    Listed(specs) && g == GraphOf(t, specs)
  }

  lemma EmptyList(t: Template)
    ensures Listed([]) && GraphOf(t, []) == Graph(map[], [])
  {
  }

  /** A planned mission: the listed tasks, all fresh, and no others. */
  lemma ListedIsPlanned(g: Graph, t: Template)
    requires ListedGraph(g, t, t.tasks)
    ensures C.Planned(g)
    ensures forall id :: id in g.nodes <==> exists spec :: spec in t.tasks && IdOf(spec) == id
    ensures forall id :: id in g.nodes ==> exists spec :: spec in t.tasks && g.nodes[id].task == TaskFor(t, spec)
  {
    GraphOfTasks(t, t.tasks);
    GraphOfEntries(t, t.tasks);
    hide GraphOf, GraphOk;
    forall id
      ensures id in g.nodes <==> exists spec :: spec in t.tasks && IdOf(spec) == id
    {
      GraphOfIds(t, t.tasks, id);
    }
  }

  // ----- templates, told from their entries alone -----

  predicate Names(spec: TaskSpec) { spec.id.Some? && (spec.capability != "" || spec.agent != "") }

  /** The first `n` entries have ids, all different, and name an agent or a capability. */
  ghost predicate Complete(t: Template, n: nat)
    requires n <= |t.tasks|
  {
    && (forall i :: 0 <= i < n ==> Names(t.tasks[i]))
    && (forall i, j :: 0 <= i < j < n ==> t.tasks[i].id != t.tasks[j].id)
  }

  /** Some entry has this id. */
  ghost predicate HasEntry(t: Template, id: Id) {
    exists spec :: spec in t.tasks && spec.id == Some(id)
  }

  ghost predicate DependenciesListed(t: Template) {
    forall spec, dep :: spec in t.tasks && dep in spec.dependsOn ==> HasEntry(t, dep)
  }

  ghost predicate NoneListedTwice(t: Template) {
    forall spec :: spec in t.tasks ==> NoDup(spec.dependsOn)
  }

  predicate NeedsNext(p: seq<TaskSpec>, i: nat)
    requires i < |p| - 1
  {
    p[i + 1].id.Some? && p[i + 1].id.value in p[i].dependsOn
  }

  /** Each entry lists the next among its dependencies, and the last lists the first. */
  ghost predicate GoesRound(t: Template, p: seq<TaskSpec>) {
    && |p| > 0 && (forall spec :: spec in p ==> spec in t.tasks)
    && (forall i :: 0 <= i < |p| - 1 ==> NeedsNext(p, i))
    && p[0].id.Some? && p[0].id.value in p[|p| - 1].dependsOn
  }

  ghost predicate Circular(t: Template) {
    exists p :: GoesRound(t, p)
  }

  /** What a template must be like to plan. */
  ghost predicate Acceptable(t: Template) {
    && t.tasks != [] && Complete(t, |t.tasks|) && DependenciesListed(t) && NoneListedTwice(t) && !Circular(t)
  }

  /** The error is the first thing wrong: entry by entry, then the dependencies, then repeats and cycles. */
  ghost predicate RefusedFor(t: Template, error: PlanError) {
    match error
    case NoTasks => t.tasks == []
    case MissingId => exists i :: 0 <= i < |t.tasks| && Complete(t, i) && t.tasks[i].id.None?
    case NoAgentNamed => exists i :: 0 <= i < |t.tasks| && Complete(t, i) && t.tasks[i].id.Some? && !Names(t.tasks[i])
    case DuplicateId =>
      exists i :: 0 <= i < |t.tasks| && Complete(t, i) && Names(t.tasks[i])
                  && exists j :: 0 <= j < i && t.tasks[j].id == t.tasks[i].id
    case UnknownDependency => t.tasks != [] && Complete(t, |t.tasks|) && !DependenciesListed(t)
    case CyclicGraph =>
      && t.tasks != [] && Complete(t, |t.tasks|) && DependenciesListed(t) && (!NoneListedTwice(t) || Circular(t))
  }

  /** The task is the entry's; where the entry says nothing it has the template's defaults, or else the planner's. */
  predicate Reads(t: Template, spec: TaskSpec, task: Task) {
    && spec.id == Some(task.id) && task.dependsOn == spec.dependsOn
    && task.capability == spec.capability && task.preferred == spec.agent && task.payload == spec.payload
    && (match spec.kind case Some(kind) => task.kind == kind case None => task.kind == task.id)
    && (match spec.priority case Some(p) => task.priority == p case None => task.priority == 5)
    && (match (spec.deadlineMs, t.taskMs)
        case (Some(ms), _) => task.deadlineMs == ms
        case (None, Some(ms)) => task.deadlineMs == ms
        case (None, None) => task.deadlineMs == 15000)
    && (match (spec.maxRetries, t.maxRetries)
        case (Some(r), _) => task.maxRetries == r
        case (None, Some(r)) => task.maxRetries == r
        case (None, None) => task.maxRetries == 1)
  }

  /** One node for every entry, in the order listed, holding the entry's task and nothing yet of a run. */
  ghost predicate AsListed(g: Graph, t: Template, n: nat)
    requires n <= |t.tasks|
  {
    && |g.order| == n && (forall id :: id in g.nodes <==> id in g.order)
    && forall i :: 0 <= i < n ==>
         && g.order[i] in g.nodes && t.tasks[i].id == Some(g.order[i])
         && Reads(t, t.tasks[i], g.nodes[g.order[i]].task)
         && g.nodes[g.order[i]] == Node(g.nodes[g.order[i]].task, Pending, 0, None, None, None)
  }

  lemma TaskReads(t: Template, spec: TaskSpec)
    requires spec.id.Some?
    ensures Reads(t, spec, TaskFor(t, spec))
  {
  }

  lemma ListedIsComplete(t: Template, n: nat)
    requires n <= |t.tasks|
    ensures Listed(t.tasks[..n]) <==> Complete(t, n)
  {
    var front := t.tasks[..n];
    assert forall i :: 0 <= i < n ==> front[i] == t.tasks[i] && (SpecError(front[i]).None? <==> Names(t.tasks[i]));
    hide SpecError;
    if Listed(front) {
      forall i, j | 0 <= i < j < n ensures t.tasks[i].id != t.tasks[j].id {
        assert IdOf(front[i]) != IdOf(front[j]);
      }
    }
    if Complete(t, n) {
      forall i, j | 0 <= i < j < n ensures IdOf(front[i]) != IdOf(front[j]) {
        assert t.tasks[i].id != t.tasks[j].id;
      }
    }
  }

  lemma {:induction false} GraphAsListed(t: Template, n: nat)
    requires n <= |t.tasks| && Complete(t, n)
    ensures AsListed(GraphOf(t, t.tasks[..n]), t, n)
  {
    hide *;
    if n == 0 {
      assert t.tasks[..n] == [];
      NoneListed(t);
    } else {
      CompleteShorter(t, n);
      GraphAsListed(t, n - 1);
      var all := t.tasks[..n];
      assert all[..n - 1] == t.tasks[..n - 1] && all[n - 1] == t.tasks[n - 1];
      GraphOfLast(t, all);
      OneMoreListed(t, GraphOf(t, t.tasks[..n - 1]), n - 1);
    }
  }

  lemma NoneListed(t: Template)
    ensures AsListed(GraphOf(t, []), t, 0)
  {
  }

  lemma OneMoreListed(t: Template, g: Graph, n: nat)
    requires n < |t.tasks| && Complete(t, n + 1) && AsListed(g, t, n)
    ensures AsListed(AddTask(g, TaskFor(t, t.tasks[n])), t, n + 1)
  {
    assert Names(t.tasks[n]);
    TaskReads(t, t.tasks[n]);
    IdsSoFar(t, g, n);
    hide TaskFor, Reads, Complete;
  }

  /** The ids of the entries so far, and no entry after them has one of those. */
  lemma IdsSoFar(t: Template, g: Graph, n: nat)
    requires n < |t.tasks| && Complete(t, n + 1) && AsListed(g, t, n) && t.tasks[n].id.Some?
    ensures t.tasks[n].id.value !in g.nodes && TaskFor(t, t.tasks[n]).id == t.tasks[n].id.value
  {
    forall i | 0 <= i < n ensures g.order[i] != t.tasks[n].id.value { assert t.tasks[i].id != t.tasks[n].id; }
  }

  lemma NodeOfEntry(g: Graph, t: Template, spec: TaskSpec)
    requires AsListed(g, t, |t.tasks|) && spec in t.tasks
    ensures spec.id.Some? && spec.id.value in g.nodes && g.nodes[spec.id.value].task.dependsOn == spec.dependsOn
  {
    var i :| 0 <= i < |t.tasks| && t.tasks[i] == spec;
    assert t.tasks[i].id == Some(g.order[i]);
  }

  /** The entry of a task of the graph. */
  ghost function EntryOf(g: Graph, t: Template, id: Id): (spec: TaskSpec)
    requires AsListed(g, t, |t.tasks|) && id in g.nodes
    ensures spec in t.tasks && spec.id == Some(id) && spec.dependsOn == g.nodes[id].task.dependsOn
  {
    var i :| 0 <= i < |t.tasks| && g.order[i] == id;
    t.tasks[i]
  }

  /** What the graph says about dependencies is what the entries say. */
  lemma ByEntries(g: Graph, t: Template)
    requires AsListed(g, t, |t.tasks|)
    ensures Known(g) <==> DependenciesListed(t)
    ensures NoRepeats(g) <==> NoneListedTwice(t)
    ensures HasCycle(g) <==> Circular(t)
  {
    KnownByEntries(g, t);
    RepeatsByEntries(g, t);
    hide *;
    if HasCycle(g) { CycleOfEntries(g, t); }
    if Circular(t) { CycleOfTasks(g, t); }
  }

  lemma KnownByEntries(g: Graph, t: Template)
    requires AsListed(g, t, |t.tasks|)
    ensures Known(g) <==> DependenciesListed(t)
  {
    if Known(g) {
      forall spec, dep | spec in t.tasks && dep in spec.dependsOn ensures HasEntry(t, dep) {
        NodeOfEntry(g, t, spec);
        var other := EntryOf(g, t, dep);
      }
    }
    if DependenciesListed(t) {
      forall id, dep | id in g.nodes && dep in g.nodes[id].task.dependsOn ensures dep in g.nodes {
        var spec := EntryOf(g, t, id);
        assert HasEntry(t, dep);
        var other :| other in t.tasks && other.id == Some(dep);
        NodeOfEntry(g, t, other);
      }
    }
  }

  lemma RepeatsByEntries(g: Graph, t: Template)
    requires AsListed(g, t, |t.tasks|)
    ensures NoRepeats(g) <==> NoneListedTwice(t)
  {
    hide NoDup;
    forall spec | spec in t.tasks && NoRepeats(g) ensures NoDup(spec.dependsOn) { NodeOfEntry(g, t, spec); }
    forall id | id in g.nodes && NoneListedTwice(t) ensures NoDup(g.nodes[id].task.dependsOn) {
      var spec := EntryOf(g, t, id);
    }
  }

  lemma CycleOfEntries(g: Graph, t: Template)
    requires AsListed(g, t, |t.tasks|) && HasCycle(g)
    ensures Circular(t)
  {
    var p :| Cycle(g, p);
    hide AsListed;
    var specs := seq(|p|, i requires 0 <= i < |p| => EntryOf(g, t, p[i]));
    forall i | 0 <= i < |specs| - 1 ensures NeedsNext(specs, i) { assert EdgeAt(g, p, i); }
    assert GoesRound(t, specs);
  }

  lemma CycleOfTasks(g: Graph, t: Template)
    requires AsListed(g, t, |t.tasks|) && Circular(t)
    ensures HasCycle(g)
  {
    var specs: seq<TaskSpec> :| GoesRound(t, specs);
    forall spec | spec in specs
      ensures spec.id.Some? && spec.id.value in g.nodes && g.nodes[spec.id.value].task.dependsOn == spec.dependsOn
    {
      NodeOfEntry(g, t, spec);
    }
    hide AsListed;
    var p := seq(|specs|, i requires 0 <= i < |specs| => specs[i].id.value);
    forall i | 0 <= i < |p| - 1 ensures EdgeAt(g, p, i) { assert NeedsNext(specs, i); }
    assert Cycle(g, p);
  }

  /** The graph built from the entries tells what they say. */
  lemma ListedTellsEntries(t: Template)
    ensures Listed(t.tasks) <==> Complete(t, |t.tasks|)
    ensures Listed(t.tasks) ==> AsListed(GraphOf(t, t.tasks), t, |t.tasks|)
    ensures Plannable(t) <==> Acceptable(t)
  {
    assert t.tasks[..|t.tasks|] == t.tasks;
    ListedIsComplete(t, |t.tasks|);
    hide Listed, GraphOf, Known, NoRepeats, HasCycle, Complete, DependenciesListed, NoneListedTwice, Circular, AsListed;
    if Listed(t.tasks) {
      GraphAsListed(t, |t.tasks|);
      ByEntries(GraphOf(t, t.tasks), t);
    }
  }

  /** The error reported is the first thing wrong with the entries. */
  lemma RefusalTellsEntries(t: Template)
    requires !Plannable(t)
    ensures RefusedFor(t, Refusal(t))
  {
    ListedTellsEntries(t);
    assert t.tasks[..|t.tasks|] == t.tasks;
    hide RefusedFor;
    FirstErrorTells(t, |t.tasks|);
    if Listed(t.tasks) && t.tasks != [] { LateRefusal(t); }
    hide FirstError, Listed, GraphOf, Known, NoRepeats, HasCycle, Complete, DependenciesListed, NoneListedTwice,
      Circular, AsListed;
  }

  lemma LateRefusal(t: Template)
    requires Listed(t.tasks) && t.tasks != [] && !Plannable(t)
    ensures FirstError(t.tasks).None? && RefusedFor(t, Refusal(t))
  {
    ListedTellsEntries(t);
    assert t.tasks[..|t.tasks|] == t.tasks;
    hide RefusedFor;
    FirstErrorTells(t, |t.tasks|);
    hide FirstError, Listed, GraphOf, Known, NoRepeats, HasCycle, Complete, DependenciesListed, NoneListedTwice,
      Circular, AsListed;
    ByEntries(GraphOf(t, t.tasks), t);
    DependencyRefusals(t);
  }

  lemma DependencyRefusals(t: Template)
    requires t.tasks != [] && Complete(t, |t.tasks|)
    ensures !DependenciesListed(t) ==> RefusedFor(t, UnknownDependency)
    ensures DependenciesListed(t) && (!NoneListedTwice(t) || Circular(t)) ==> RefusedFor(t, CyclicGraph)
  {
    hide Complete, DependenciesListed, NoneListedTwice, Circular;
  }

  lemma {:induction false} FirstErrorTells(t: Template, n: nat)
    requires n <= |t.tasks|
    ensures FirstError(t.tasks[..n]).None? <==> Complete(t, n)
    ensures n > 0 && FirstError(t.tasks[..n]).Some? ==> RefusedFor(t, FirstError(t.tasks[..n]).value)
    ensures FirstError(t.tasks[..n]).Some? ==>
            var e := FirstError(t.tasks[..n]).value; e.MissingId? || e.NoAgentNamed? || e.DuplicateId?
  {
    if n > 0 {
      var front, spec := t.tasks[..n - 1], t.tasks[n - 1];
      var all := t.tasks[..n];
      assert all[..n - 1] == front && all[n - 1] == spec && |all| == n;
      CompleteShorter(t, n);
      hide RefusedFor, EntryError, Complete;
      FirstErrorTells(t, n - 1);
      if Complete(t, n - 1) { EntryTells(t, n - 1); }
    }
  }

  lemma CompleteShorter(t: Template, n: nat)
    requires 0 < n <= |t.tasks|
    ensures Complete(t, n) ==> Complete(t, n - 1)
  {
  }

  lemma SpecTells(t: Template, i: nat)
    requires i < |t.tasks| && Complete(t, i)
    ensures SpecError(t.tasks[i]).None? <==> Names(t.tasks[i])
    ensures SpecError(t.tasks[i]).Some? ==>
            var e := SpecError(t.tasks[i]).value; (e.MissingId? || e.NoAgentNamed?) && RefusedFor(t, e)
  {
  }

  lemma EntryTells(t: Template, i: nat)
    requires i < |t.tasks| && Complete(t, i)
    ensures
      var error := EntryError(t.tasks[..i], t.tasks[i]);
      && (error.None? <==> Complete(t, i + 1))
      && (error.Some? ==> RefusedFor(t, error.value)
                          && (error.value.MissingId? || error.value.NoAgentNamed? || error.value.DuplicateId?))
  {
    var front, spec := t.tasks[..i], t.tasks[i];
    SpecTells(t, i);
    hide SpecError;
    forall j | 0 <= j < i ensures Names(front[j]) && front[j] in front && front[j] == t.tasks[j] {
      assert Names(t.tasks[j]);
    }
    if Names(spec) && exists other :: other in front && IdOf(other) == IdOf(spec) {
      var other :| other in front && IdOf(other) == IdOf(spec);
      var j :| 0 <= j < i && front[j] == other;
      assert t.tasks[j].id == spec.id;
    } else if Names(spec) {
      forall j | 0 <= j < i ensures t.tasks[j].id != spec.id { assert IdOf(front[j]) != IdOf(spec); }
    }
  }

  /** Why a template does not plan: the first thing wrong, in the order in which things are looked at. */
  ghost function Refusal(t: Template): PlanError {
    if t.tasks == [] then NoTasks
    else if FirstError(t.tasks).Some? then FirstError(t.tasks).value
    else if !Known(GraphOf(t, t.tasks)) then UnknownDependency
    else CyclicGraph
  }
}
