/** Missions whose agents can only ever name finitely many tasks. */
module Termination {
  import opened Tasks
  import opened Sets
  import opened Attempts
  import opened Protocol
  import opened Safety
  import opened Counting
  import opened Lists
  import opened Prediction
  import opened Ledger
  import opened Outcomes

  /** Tasks that a mission may come to have, and names for them. */
  datatype Family = Family(tasks: iset<Task>, names: set<Id>)

  /** The names are enough: finitely many. */
  ghost predicate Finite(u: Family) {
    forall task :: task in u.tasks ==> task.id in u.names
  }

  /** The agent is on a list that the task may draw, and so many attempts are among those that such a list allows. */
  ghost predicate CanTry(env: Env, task: Task, agent: Name, k: nat) {
    exists list :: Drawable(env, task, list) && agent in list && 1 <= k <= |list| * Rounds(task)
  }

  /** Called at this attempt, the agent asks for the follow-up. */
  predicate AsksFor(env: Env, agent: Name, task: Task, up: map<Id, Reply>, k: nat, f: Followup) {
    var c := Invoke(env, agent, task, up, k);
    c.outcome.Replied? && f in FollowupsOf(c.outcome.reply)
  }

  /** At the attempts that a task of the family can make, agents only ask for tasks of the family. */
  ghost predicate Closed(env: Env, u: Family) {
    forall n: Node, agent, up, f ::
      (n.task in u.tasks && CanTry(env, n.task, agent, n.attempts) && AsksFor(env, agent, n.task, up, n.attempts, f))
      ==> FollowupTask(env, n, f) in u.tasks
  }

  /** A task at work keeps its ledger, by some list that it may have drawn. */
  ghost predicate Accounted(env: Env, s: Sys, id: Id)
    requires Active(s, id)
  {
    var n := s.graph.nodes[id];
    exists list :: Drawable(env, n.task, list)
                   && WorkerBooked(env, list, Upstream(s.graph, n.task), n, s.phase.workers[id])
  }

  /** A task of the wave: what it is about to add is of the family. */
  ghost predicate PlaceWithin(env: Env, u: Family, s: Sys, id: Id)
    requires Active(s, id)
  {
    && (!s.phase.workers[id].Submitted? ==> Accounted(env, s, id))
    && (s.phase.workers[id].Spawning? ==>
          forall f :: f in s.phase.workers[id].rest ==> FollowupTask(env, s.graph.nodes[id], f) in u.tasks)
  }

  ghost predicate TasksIn(u: Family, g: Graph) {
    forall id :: id in g.nodes ==> g.nodes[id].task in u.tasks
  }

  /** The mission's tasks are of the family, and so is what is about to be added. */
  ghost predicate Within(env: Env, u: Family, s: Sys) {
    TasksIn(u, s.graph) && forall id :: Active(s, id) ==> PlaceWithin(env, u, s, id)
  }

  lemma WithinNames(u: Family, g: Graph)
    requires Finite(u) && TasksIn(u, g) && GraphOk(g)
    ensures g.nodes.Keys <= u.names
  {
    forall id | id in g.nodes ensures id in u.names { assert g.nodes[id].task.id == id; }
  }

  // ----- a task's own step -----

  /** The lists by which a task keeps its ledger: its own, and no other. */
  lemma BookOf(env: Env, s: Sys, id: Id) returns (list: seq<Name>)
    requires Inv(s) && Active(s, id) && (!s.phase.workers[id].Submitted? ==> Accounted(env, s, id))
    ensures Drawable(env, s.graph.nodes[id].task, list)
    ensures BookedAt(env, map[id := list], s, id) && Draws(env, map[id := list], s, Move(id))
  {
    hide GraphOk, Upstream, DepsDone, CandidatesAt, LoopOk, SpentOk;
    assert NodeOk(s, id);
    var n := s.graph.nodes[id];
    if s.phase.workers[id].Submitted? {
      list := DrawnBy(env, s, id);
    } else {
      list :| Drawable(env, n.task, list) && WorkerBooked(env, list, Upstream(s.graph, n.task), n, s.phase.workers[id]);
    }
  }

  lemma OwnAccounted(env: Env, s: Sys, id: Id)
    requires Contract(env) && Inv(s) && Active(s, id) && (!s.phase.workers[id].Submitted? ==> Accounted(env, s, id))
    ensures Active(MoveTask(env, s, id), id) && Accounted(env, MoveTask(env, s, id), id)
  {
    var t := MoveTask(env, s, id);
    hide Inv, Contract, MoveTask, Accounted, BookedAt, Draws, HasBegun, Drawable, Grows;
    var list := BookOf(env, s, id);
    OwnBooked(env, map[id := list], s, id);
    MoverBegun(env, s, id);
    MoveKeeps(env, s, id);
    StaysActive(env, s, id);
    SameTaskAfter(env, s, id);
    BookIs(env, list, t, id);
  }

  lemma StaysActive(env: Env, s: Sys, id: Id)
    requires Active(s, id)
    ensures Active(MoveTask(env, s, id), id)
  {
    hide Upstream, CandidatesAt, FollowupTask, FollowupsOf, Invoke;
  }

  lemma SameTaskAfter(env: Env, s: Sys, id: Id)
    requires Active(s, id) && id in MoveTask(env, s, id).graph.nodes
    ensures MoveTask(env, s, id).graph.nodes[id].task == s.graph.nodes[id].task
  {
    hide Upstream, CandidatesAt, FollowupTask, FollowupsOf, Invoke;
  }

  lemma BookIs(env: Env, list: seq<Name>, t: Sys, id: Id)
    requires Active(t, id) && HasBegun(t, id) && BookedAt(env, map[id := list], t, id)
    requires Drawable(env, t.graph.nodes[id].task, list)
    ensures Accounted(env, t, id)
  {
    hide Drawable, WorkerBooked, Upstream, DepsDone;
  }

  /** The agent being called is one that the task may draw, at an attempt that the list allows. */
  lemma CallsAsItCan(env: Env, s: Sys, id: Id)
    requires Inv(s) && Active(s, id) && s.phase.workers[id].Calling? && Accounted(env, s, id)
    ensures s.phase.workers[id].agents != []
    ensures CanTry(env, s.graph.nodes[id].task, s.phase.workers[id].agents[0], s.graph.nodes[id].attempts)
  {
    hide GraphOk, Upstream, DepsDone, Drawable, SomeUnavailable;
    assert NodeOk(s, id);
    var n, w := s.graph.nodes[id], s.phase.workers[id];
    var list :| Drawable(env, n.task, list) && WorkerBooked(env, list, Upstream(s.graph, n.task), n, w);
    TriesLeftCounts(|w.agents|, Rounds(n.task), w.attempt + 1);
    assert w.agents[0] in list;
  }

  lemma AnswerWithin(env: Env, u: Family, s: Sys, id: Id)
    requires Closed(env, u) && Active(s, id) && s.phase.workers[id].Calling? && s.phase.workers[id].agents != []
    requires s.graph.nodes[id].task in u.tasks
    requires CanTry(env, s.graph.nodes[id].task, s.phase.workers[id].agents[0], s.graph.nodes[id].attempts)
    ensures
      var t := Answer(env, s, id);
      && Active(t, id)
      && (t.phase.workers[id].Spawning? ==>
            forall f :: f in t.phase.workers[id].rest ==> FollowupTask(env, t.graph.nodes[id], f) in u.tasks)
  {
    hide FollowupsOf, CanTry, Invoke;
    var t, w, n := Answer(env, s, id), s.phase.workers[id], s.graph.nodes[id];
    if t.phase.workers[id].Spawning? {
      forall f | f in t.phase.workers[id].rest ensures FollowupTask(env, t.graph.nodes[id], f) in u.tasks {
        assert AsksFor(env, w.agents[0], n.task, w.up, n.attempts, f);
        assert FollowupTask(env, t.graph.nodes[id], f) == FollowupTask(env, n, f);
      }
    }
  }

  lemma SpawnWithin(env: Env, u: Family, s: Sys, id: Id)
    requires TasksIn(u, s.graph) && Active(s, id) && s.phase.workers[id].Spawning? && PlaceWithin(env, u, s, id)
    ensures
      var t := Spawn(env, s, id);
      && TasksIn(u, t.graph) && Active(t, id)
      && (t.phase.workers[id].Spawning? ==>
            forall f :: f in t.phase.workers[id].rest ==> FollowupTask(env, t.graph.nodes[id], f) in u.tasks)
  {
    hide FollowupTask, Accounted;
    var w := s.phase.workers[id];
    if w.rest != [] { assert w.rest[0] in w.rest; }
  }

  /** The task that moves stays within the family, and adds nothing else. */
  lemma MoverWithin(env: Env, u: Family, s: Sys, id: Id)
    requires Contract(env) && Closed(env, u) && Inv(s) && TasksIn(u, s.graph) && Active(s, id)
             && PlaceWithin(env, u, s, id)
    ensures
      var t := MoveTask(env, s, id);
      TasksIn(u, t.graph) && Active(t, id) && PlaceWithin(env, u, t, id)
  {
    var t := MoveTask(env, s, id);
    OwnAccounted(env, s, id);
    StaysActive(env, s, id);
    MoveIs(env, s, id);
    hide Inv, Contract, Closed, Accounted, Answer, Spawn;
    match s.phase.workers[id]
    case Calling(_, agents, _, _) =>
      CallsAsItCan(env, s, id);
      AnswerWithin(env, u, s, id);
      AnswerAddsNone(env, s, id);
      hide MoveTask;
    case Spawning(_, _) =>
      SpawnWithin(env, u, s, id);
      hide MoveTask;
    case _ =>
      BeforeAnswer(env, s, id);
      hide MoveTask;
  }

  /** Which step a task's move is. */
  lemma MoveIs(env: Env, s: Sys, id: Id)
    requires Active(s, id)
    ensures s.phase.workers[id].Calling? && s.phase.workers[id].agents != [] ==>
            MoveTask(env, s, id) == Answer(env, s, id)
    ensures s.phase.workers[id].Spawning? ==> MoveTask(env, s, id) == Spawn(env, s, id)
  {
    hide Answer, Spawn;
  }

  lemma AnswerAddsNone(env: Env, s: Sys, id: Id)
    requires Active(s, id) && s.phase.workers[id].Calling? && s.phase.workers[id].agents != []
    ensures
      var t := Answer(env, s, id);
      && t.graph.nodes.Keys == s.graph.nodes.Keys
      && forall other :: other in s.graph.nodes ==> t.graph.nodes[other].task == s.graph.nodes[other].task
  {
    hide Invoke, FollowupsOf;
  }

  lemma BeforeAnswer(env: Env, s: Sys, id: Id)
    requires Active(s, id) && !s.phase.workers[id].Calling? && !s.phase.workers[id].Spawning?
    ensures
      var t := MoveTask(env, s, id);
      && Active(t, id) && !t.phase.workers[id].Spawning? && t.graph.nodes.Keys == s.graph.nodes.Keys
      && forall other :: other in s.graph.nodes ==> t.graph.nodes[other].task == s.graph.nodes[other].task
  {
    hide Upstream, CandidatesAt;
  }

  // ----- every step -----

  /** The others stay as they are. */
  lemma OtherWithin(env: Env, u: Family, s: Sys, mover: Id, id: Id)
    requires Contract(env) && Inv(s) && id != mover && Active(MoveTask(env, s, mover), id)
    requires Active(s, id) ==> PlaceWithin(env, u, s, id)
    ensures Active(s, id) && PlaceWithin(env, u, MoveTask(env, s, mover), id)
  {
    WasActive(env, s, mover, id);
    hide Inv, Contract, MoveTask, Upstream, WorkerBooked, Drawable, FollowupTask;
    MoveIsLocal(env, s, mover, id);
    OthersKeepUpstream(env, s, mover, id);
  }

  lemma WasActive(env: Env, s: Sys, mover: Id, id: Id)
    requires Inv(s) && Active(MoveTask(env, s, mover), id)
    ensures Active(s, id)
  {
    hide GraphOk, NodeOk, Upstream, CandidatesAt, Invoke, FollowupsOf, FollowupTask;
    if Active(s, mover) {
      match s.phase.workers[mover]
      case Submitted => hide LoopHead, Answer, Spawn;
      case AtLoop(_, _, _, _) => hide Begin, Answer, Spawn;
      case Checked(_, _, _, _) => hide Begin, LoopHead, Answer, Spawn;
      case Calling(_, _, _, _) => hide Begin, LoopHead, Spawn;
      case Spawning(_, _) => hide Begin, LoopHead, Answer;
      case Returned =>
    }
  }

  lemma MoveWithin(env: Env, u: Family, s: Sys, mover: Id)
    requires Contract(env) && Closed(env, u) && Inv(s) && Within(env, u, s) && Active(s, mover)
    ensures Within(env, u, MoveTask(env, s, mover))
  {
    var t := MoveTask(env, s, mover);
    hide Inv, Contract, Closed, MoveTask, PlaceWithin, TasksIn;
    MoverWithin(env, u, s, mover);
    forall id | Active(t, id) ensures PlaceWithin(env, u, t, id) {
      if id != mover { OtherWithin(env, u, s, mover, id); }
    }
  }

  lemma MainWithin(env: Env, u: Family, s: Sys)
    requires Inv(s) && Within(env, u, s)
    ensures Within(env, u, MainStep(s))
  {
    hide GraphOk, NodeOk, IsReady, GraphDone, Accounted, FollowupTask;
  }

  lemma Inactive(env: Env, s: Sys, id: Id)
    requires !Active(s, id)
    ensures MoveTask(env, s, id) == s
  {
  }

  lemma NextWithin(env: Env, u: Family, s: Sys, e: Event)
    requires Contract(env) && Closed(env, u) && Inv(s) && Within(env, u, s)
    ensures Within(env, u, Next(env, s, e))
  {
    hide Inv, Contract, Closed, MoveTask, MainStep, TasksIn;
    match e
    case Advance => MainWithin(env, u, s);
    case Move(id) => if Active(s, id) { MoveWithin(env, u, s, id); } else { Inactive(env, s, id); }
    case Cancel => SamePlaces(env, u, s, Next(env, s, e));
    case Tick(_) => SamePlaces(env, u, s, Next(env, s, e));
  }

  lemma SamePlaces(env: Env, u: Family, s: Sys, t: Sys)
    requires Within(env, u, s) && t.graph == s.graph && t.phase == s.phase
    ensures Within(env, u, t)
  {
    hide TasksIn, Drawable, WorkerBooked, FollowupTask;
    forall id | Active(t, id) ensures PlaceWithin(env, u, t, id) { assert PlaceWithin(env, u, s, id); }
  }

  lemma {:induction false} RunWithin(env: Env, u: Family, s: Sys, events: seq<Event>)
    requires Contract(env) && Closed(env, u) && Inv(s) && Within(env, u, s)
    ensures Within(env, u, Run(env, s, events))
    decreases |events|
  {
    hide Inv, Within, Next, Closed, Contract;
    if events != [] {
      NextWithin(env, u, s, events[0]);
      NextKeeps(env, s, events[0]);
      RunWithin(env, u, Next(env, s, events[0]), events[1..]);
    }
  }

  /** Termination with follow-ups: in such a mission no run, however long, makes more waves than there are names. */
  lemma FinitelyManyWaves(env: Env, u: Family, s: Sys, events: seq<Event>)
    requires Contract(env) && Closed(env, u) && Finite(u)
    requires Boundary(s.graph) && s.phase.Looping? && TasksIn(u, s.graph)
    ensures
      var t := Run(env, s, events);
      t.waves - s.waves <= |u.names| - |Used(s.graph)| && t.graph.nodes.Keys <= u.names
  {
    var t := Run(env, s, events);
    BoundaryStart(s);
    hide Run, Closed, Contract, Finite, TasksIn;
    assert Within(env, u, s);
    RunWithin(env, u, s, events);
    RunKeeps(env, s, events);
    WaveBound(env, s, events);
    hide PlaceWithin;
    WithinNames(u, t.graph);
    SubsetSize(Used(t.graph), u.names);
  }

  /** A wave strictly uses up names: what the executor's loop terminates by. */
  lemma WaveUsesNames(env: Env, u: Family, s: Sys, t: Sys)
    requires Contract(env) && Finite(u) && Inv(s) && s.phase.Looping? && ReadyIds(s.graph) != {}
    requires Reaches(env, StartWave(s), t) && Within(env, u, t)
    ensures Used(s.graph) < Used(t.graph) <= u.names
  {
    hide NodeOk, DepsDone, PlaceWithin, Finite, TasksIn;
    Between(s);
    StartKeeps(s);
    var events :| Run(env, StartWave(s), events) == t;
    RunKeeps(env, StartWave(s), events);
    WithinNames(u, t.graph);
    hide Run, Inv, GraphOk;
    var id :| id in ReadyIds(s.graph);
    assert id in Used(StartWave(s).graph) && id !in Used(s.graph);
    forall other | other in Used(s.graph) ensures other in Used(StartWave(s).graph) {}
    UsedGrows(StartWave(s).graph, t.graph);
  }

  lemma ReachesKeeps(env: Env, u: Family, s: Sys, t: Sys)
    requires Contract(env) && Closed(env, u) && Inv(s) && Within(env, u, s) && Reaches(env, s, t)
    ensures Inv(t) && Within(env, u, t)
  {
    hide Inv, Within, Contract, Closed, Run;
    var events :| Run(env, s, events) == t;
    RunKeeps(env, s, events);
    RunWithin(env, u, s, events);
  }
}
