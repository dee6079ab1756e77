/** The recursive meaning of a task graph, and the proof that every interleaved run computes it. */
module Meaning {
  import opened Options
  import opened Tasks
  import opened Dag
  import opened Attempts
  import opened Protocol
  import opened Safety
  import opened Lists
  import opened Ledger
  import opened Counting
  import opened Outcomes
  import opened Prediction

  /**
   * A task whose dependencies all succeed is tried with their results, on the candidates of its list; any
   * other task is blocked. Nothing here says in which order tasks run.
   */
  ghost function Meaning(env: Env, lists: map<Id, seq<Name>>, g: Graph, rank: map<Id, nat>, id: Id): Node
    requires Ranked(g, rank) && id in g.nodes
    decreases rank[id]
  {
    var task := g.nodes[id].task;
    if forall dep :: dep in task.dependsOn ==> Success(Meaning(env, lists, g, rank, dep).status) then
      var up := map dep | dep in task.dependsOn && Meaning(env, lists, g, rank, dep).result.Some?
                  :: Meaning(env, lists, g, rank, dep).result.value;
      TryAll(env, up, ListOf(lists, id), FreshNode(task).(status := Running)).node
    else
      FailedFor(FreshNode(task), BlockedNote)
  }

  ghost predicate NoFollowups(env: Env) {
    forall agent, task, up, k ::
      env.call(agent, task, up, k).outcome.Replied? ==> FollowupsOf(env.call(agent, task, up, k).outcome.reply) == []
  }

  /** The graph of the run is the planned one, its tasks on their way to their meaning. */
  ghost predicate Faithful(env: Env, lists: map<Id, seq<Name>>, g: Graph, rank: map<Id, nat>, s: Sys)
    requires Ranked(g, rank)
  {
    && s.graph.nodes.Keys == g.nodes.Keys
    && NothingToSpawn(s)
    && forall id :: id in g.nodes ==>
         && s.graph.nodes[id].task == g.nodes[id].task
         && (if Active(s, id) then PredictedAt(env, lists, s, id) == Meaning(env, lists, g, rank, id)
             else Fresh(s.graph.nodes[id]) || s.graph.nodes[id] == Meaning(env, lists, g, rank, id))
  }

  /** A ready task's dependencies have reached their meaning, so its own is to be tried now. */
  lemma ReadyMeaning(env: Env, lists: map<Id, seq<Name>>, g: Graph, rank: map<Id, nat>, s: Sys, id: Id)
    requires Ranked(g, rank) && Faithful(env, lists, g, rank, s) && !s.phase.InWave? && Boundary(s.graph)
    requires id in ReadyIds(s.graph)
    ensures
      TryAll(env, Upstream(s.graph, s.graph.nodes[id].task), ListOf(lists, id),
             s.graph.nodes[id].(status := Running)).node
      == Meaning(env, lists, g, rank, id)
  {
    hide GraphOk, TryAll;
    var task := s.graph.nodes[id].task;
    assert Fresh(s.graph.nodes[id]);
    forall dep | dep in task.dependsOn
      ensures dep in s.graph.nodes && s.graph.nodes[dep] == Meaning(env, lists, g, rank, dep)
    {
      assert Done(s.graph, dep);
    }
    var up := map dep | dep in task.dependsOn && Meaning(env, lists, g, rank, dep).result.Some?
                :: Meaning(env, lists, g, rank, dep).result.value;
    assert up == Upstream(s.graph, task);
  }

  /** When nothing is ready, a task that has not run is blocked by meaning too. */
  lemma {:induction false} BlockedMeaning(env: Env, lists: map<Id, seq<Name>>, g: Graph, rank: map<Id, nat>, s: Sys,
                                          id: Id)
    requires Ranked(g, rank) && Faithful(env, lists, g, rank, s) && !s.phase.InWave? && Boundary(s.graph)
    requires ReadyIds(s.graph) == {} && id in g.nodes && Fresh(s.graph.nodes[id])
    ensures Meaning(env, lists, g, rank, id) == FailedFor(s.graph.nodes[id], BlockedNote)
    decreases rank[id]
  {
    hide GraphOk, TryAll;
    assert id !in ReadyIds(s.graph);
    var dep :| dep in s.graph.nodes[id].task.dependsOn && !Done(s.graph, dep);
    if Fresh(s.graph.nodes[dep]) {
      BlockedMeaning(env, lists, g, rank, s, dep);
    }
    assert !Success(Meaning(env, lists, g, rank, dep).status);
  }

  // ----- one step -----

  lemma MoveFaithful(env: Env, lists: map<Id, seq<Name>>, g: Graph, rank: map<Id, nat>, s: Sys, mover: Id)
    requires Contract(env) && NoFollowups(env) && Draws(env, lists, s, Move(mover)) && Ranked(g, rank)
    requires Inv(s) && !s.cancelled && Faithful(env, lists, g, rank, s)
    ensures Faithful(env, lists, g, rank, MoveTask(env, s, mover))
  {
    hide Meaning, Inv, PredictedAt, Fresh, Contract, Draws;
    var t := MoveTask(env, s, mover);
    MoveAddsNothing(env, s, mover);
    if s.phase.InWave? {
      MoveInWaveOnly(env, s, mover);
      forall id | id in g.nodes ensures
        && t.graph.nodes[id].task == g.nodes[id].task
        && (if Active(t, id) then PredictedAt(env, lists, t, id) == Meaning(env, lists, g, rank, id)
            else Fresh(t.graph.nodes[id]) || t.graph.nodes[id] == Meaning(env, lists, g, rank, id))
      {
        hide MoveTask;
        if Active(s, id) { MovePredicted(env, lists, s, mover, id); }
      }
    }
  }

  /** No task of the wave is in the middle of adding follow-ups. */
  ghost predicate NothingToSpawn(s: Sys) {
    s.phase.InWave? ==>
      forall id :: id in s.phase.workers && s.phase.workers[id].Spawning? ==> s.phase.workers[id].rest == []
  }

  lemma MoverAddsNothing(env: Env, s: Sys, mover: Id)
    requires NoFollowups(env) && NothingToSpawn(s) && Active(s, mover)
    ensures
      var t := MoveTask(env, s, mover);
      && t.graph.nodes.Keys == s.graph.nodes.Keys
      && t.graph.nodes[mover].task == s.graph.nodes[mover].task
      && t.phase.InWave? && t.phase.workers.Keys == s.phase.workers.Keys
      && (t.phase.workers[mover].Spawning? ==> t.phase.workers[mover].rest == [])
  {
    hide Upstream, CandidatesAt, FollowupTask, FollowupsOf;
    match s.phase.workers[mover]
    case Submitted => hide LoopHead, Answer, Spawn;
    case AtLoop(_, _, _, _) => hide Begin, Answer, Spawn;
    case Checked(_, _, _, _) => hide Begin, LoopHead, Answer, Spawn;
    case Calling(_, _, _, _) => hide Begin, LoopHead, Spawn;
    case Spawning(_, _) => hide Begin, LoopHead, Answer;
    case Returned =>
  }

  /** Without follow-ups the node set stays, and so do the tasks and the wave. */
  lemma MoveAddsNothing(env: Env, s: Sys, mover: Id)
    requires NoFollowups(env) && NothingToSpawn(s)
    ensures
      var t := MoveTask(env, s, mover);
      && t.graph.nodes.Keys == s.graph.nodes.Keys
      && (forall id :: id in s.graph.nodes ==> t.graph.nodes[id].task == s.graph.nodes[id].task)
      && (forall id :: id in s.graph.nodes && !Active(s, id) ==> t.graph.nodes[id] == s.graph.nodes[id])
      && (forall id :: id in s.graph.nodes ==> (Active(s, id) <==> Active(t, id)))
      && NothingToSpawn(t)
  {
    if !Active(s, mover) {
    } else {
      MoverAddsNothing(env, s, mover);
      MoveWorkers(env, s, mover);
      hide MoveTask;
      forall id | id in s.graph.nodes && id != mover { MoveIsLocal(env, s, mover, id); }
    }
  }

  lemma MoveWorkers(env: Env, s: Sys, mover: Id)
    requires Active(s, mover)
    ensures
      var t := MoveTask(env, s, mover);
      && t.phase.InWave?
      && forall id :: id in s.phase.workers && id != mover ==>
                        id in t.phase.workers && t.phase.workers[id] == s.phase.workers[id]
  {
    hide Upstream, CandidatesAt, FollowupTask, FollowupsOf, Invoke;
    match s.phase.workers[mover]
    case Submitted => hide LoopHead, Answer, Spawn;
    case AtLoop(_, _, _, _) => hide Begin, Answer, Spawn;
    case Checked(_, _, _, _) => hide Begin, LoopHead, Answer, Spawn;
    case Calling(_, _, _, _) => hide Begin, LoopHead, Spawn;
    case Spawning(_, _) => hide Begin, LoopHead, Answer;
    case Returned =>
  }

  /** A task enters its wave with the fate the meaning gives it. */
  lemma StartPredicts(env: Env, lists: map<Id, seq<Name>>, g: Graph, rank: map<Id, nat>, s: Sys, id: Id)
    requires Ranked(g, rank) && s.phase.Looping? && Boundary(s.graph) && Faithful(env, lists, g, rank, s)
             && id in ReadyIds(s.graph)
    ensures Active(StartWave(s), id) && PredictedAt(env, lists, StartWave(s), id) == Meaning(env, lists, g, rank, id)
  {
    hide GraphOk, Meaning, TryAll;
    ReadyMeaning(env, lists, g, rank, s, id);
    DepsUntouched(s.graph, StartWave(s).graph, s.graph.nodes[id].task);
  }

  lemma StartFaithful(env: Env, lists: map<Id, seq<Name>>, g: Graph, rank: map<Id, nat>, s: Sys)
    requires Ranked(g, rank) && s.phase.Looping? && Boundary(s.graph) && Faithful(env, lists, g, rank, s)
    ensures Faithful(env, lists, g, rank, StartWave(s))
  {
    hide GraphOk, Meaning, TryAll, IsReady, PredictedAt, DepsDone;
    var t := StartWave(s);
    forall id | id in ReadyIds(s.graph)
      ensures PredictedAt(env, lists, t, id) == Meaning(env, lists, g, rank, id)
    {
      StartPredicts(env, lists, g, rank, s, id);
    }
  }

  lemma BlockFaithful(env: Env, lists: map<Id, seq<Name>>, g: Graph, rank: map<Id, nat>, s: Sys)
    requires Ranked(g, rank) && s.phase.Looping? && Boundary(s.graph) && Faithful(env, lists, g, rank, s)
    requires ReadyIds(s.graph) == {}
    ensures Faithful(env, lists, g, rank, Quit(s, BlockedNote))
  {
    hide GraphOk, Meaning, ReadyIds;
    var t := Quit(s, BlockedNote);
    forall id | id in g.nodes
      ensures t.graph.nodes[id].task == g.nodes[id].task && t.graph.nodes[id] == Meaning(env, lists, g, rank, id)
    {
      if Fresh(s.graph.nodes[id]) { BlockedMeaning(env, lists, g, rank, s, id); }
    }
    assert t.phase.Leaving? && t.graph.nodes.Keys == g.nodes.Keys;
    hide Quit, Boundary, Fresh;
  }

  /** Leaving a wave, the loop or the run: predicted ends are now actual ones. */
  lemma PhaseFaithful(env: Env, lists: map<Id, seq<Name>>, g: Graph, rank: map<Id, nat>, s: Sys, t: Sys)
    requires Ranked(g, rank) && Faithful(env, lists, g, rank, s)
    requires t.graph == s.graph && !t.phase.InWave?
    requires s.phase.InWave? ==> AllReturned(s.phase.workers)
    ensures Faithful(env, lists, g, rank, t)
  {
    hide Meaning, TryAll, Drive, Upstream;
  }

  /** No task was given up for lack of time. */
  ghost predicate InTime(g: Graph) {
    forall id :: id in g.nodes ==> g.nodes[id].error != Some(MissionTimeout)
  }

  /** Giving up for lack of time is seen on some task, unless every task was settled. */
  lemma TimeoutShows(s: Sys)
    requires Boundary(s.graph) && InTime(Quit(s, MissionTimeout).graph)
    ensures Quit(s, MissionTimeout) == s.(phase := Leaving)
  {
    hide GraphOk;
    forall id | id in s.graph.nodes ensures Settled(s.graph.nodes[id]) {
      assert Quit(s, MissionTimeout).graph.nodes[id].error != Some(MissionTimeout);
    }
    SettledQuit(s, MissionTimeout);
  }

  lemma MainFaithful(env: Env, lists: map<Id, seq<Name>>, g: Graph, rank: map<Id, nat>, s: Sys)
    requires Ranked(g, rank) && Inv(s) && !s.cancelled && Faithful(env, lists, g, rank, s)
    requires InTime(MainStep(s).graph)
    ensures Faithful(env, lists, g, rank, MainStep(s))
  {
    hide Faithful, NodeOk, Quit, StartWave, ReadyIds, GraphDone, Ranked, InTime;
    match s.phase
    case Looping =>
      Between(s);
      if GraphDone(s.graph) {
        PhaseFaithful(env, lists, g, rank, s, MainStep(s));
      } else if s.clock > s.deadline {
        TimeoutShows(s);
        PhaseFaithful(env, lists, g, rank, s, MainStep(s));
      } else if ReadyIds(s.graph) == {} {
        BlockFaithful(env, lists, g, rank, s);
      } else {
        StartFaithful(env, lists, g, rank, s);
      }
    case InWave(workers) => if AllReturned(workers) { PhaseFaithful(env, lists, g, rank, s, MainStep(s)); }
    case Leaving => PhaseFaithful(env, lists, g, rank, s, MainStep(s));
    case Ended(_) =>
  }

  lemma SameFaithful(env: Env, lists: map<Id, seq<Name>>, g: Graph, rank: map<Id, nat>, s: Sys, t: Sys)
    requires Ranked(g, rank) && Faithful(env, lists, g, rank, s) && t.graph == s.graph && t.phase == s.phase
    ensures Faithful(env, lists, g, rank, t)
  {
    hide Meaning, Predicted;
  }

  lemma NextFaithful(env: Env, lists: map<Id, seq<Name>>, g: Graph, rank: map<Id, nat>, s: Sys, e: Event)
    requires Contract(env) && NoFollowups(env) && Draws(env, lists, s, e) && Ranked(g, rank)
    requires Inv(s) && !s.cancelled && !e.Cancel? && Faithful(env, lists, g, rank, s)
    requires InTime(Next(env, s, e).graph)
    ensures Faithful(env, lists, g, rank, Next(env, s, e))
  {
    hide Faithful, MainStep, MoveTask, Inv, InTime, Ranked, Draws;
    match e
    case Advance => MainFaithful(env, lists, g, rank, s);
    case Move(id) => MoveFaithful(env, lists, g, rank, s, id);
    case Tick(_) => SameFaithful(env, lists, g, rank, s, Next(env, s, e));
  }

  // ----- every run -----

  lemma {:induction false} RunFaithful(env: Env, lists: map<Id, seq<Name>>, g: Graph, rank: map<Id, nat>, s: Sys,
                                       events: seq<Event>)
    requires Contract(env) && NoFollowups(env) && AsDrawn(env, lists, s, events) && Ranked(g, rank)
    requires Inv(s) && Faithful(env, lists, g, rank, s)
    requires !Run(env, s, events).cancelled && InTime(Run(env, s, events).graph)
    ensures Faithful(env, lists, g, rank, Run(env, s, events))
    decreases |events|
  {
    hide Faithful, Inv, InTime, Ranked, Next, Contract, NoFollowups, Draws;
    if events != [] {
      var t := Next(env, s, events[0]);
      NextKeeps(env, s, events[0]);
      NextOutside(env, s, events[0]);
      RunKeeps(env, s, events);
      RunKeeps(env, t, events[1..]);
      CancelSets(env, s, events[0]);
      TimeoutsStay(t, Run(env, s, events).graph);
      NextFaithful(env, lists, g, rank, s, events[0]);
      RunFaithful(env, lists, g, rank, t, events[1..]);
    }
  }

  lemma TimeoutsStay(t: Sys, h: Graph)
    requires Inv(t) && Grows(t.graph, h) && InTime(h)
    ensures InTime(t.graph)
  {
    hide GraphOk;
    forall id | id in t.graph.nodes ensures t.graph.nodes[id].error != Some(MissionTimeout) {
      assert NodeOk(t, id);
    }
  }

  lemma CancelSets(env: Env, s: Sys, e: Event)
    ensures e.Cancel? ==> Next(env, s, e).cancelled
  {
  }

  /** The graph's tasks are as the meaning says. */
  ghost predicate Meant(env: Env, lists: map<Id, seq<Name>>, g: Graph, rank: map<Id, nat>, h: Graph)
    requires Ranked(g, rank)
  {
    h.nodes.Keys == g.nodes.Keys && forall id :: id in g.nodes ==> h.nodes[id] == Meaning(env, lists, g, rank, id)
  }

  /** A run means its graph under any lists it draws. */
  lemma RunMeansLists(env: Env, lists: map<Id, seq<Name>>, rank: map<Id, nat>, s: Sys, events: seq<Event>)
    requires Contract(env) && NoFollowups(env) && AsDrawn(env, lists, s, events)
    requires Planned(s.graph) && s.phase.Looping? && Ranked(s.graph, rank)
    requires
      var t := Run(env, s, events);
      t.phase.Ended? && !t.cancelled && InTime(t.graph)
    ensures Meant(env, lists, s.graph, rank, Run(env, s, events).graph)
  {
    PlannedIsStartable(s);
    BoundaryStart(s);
    StartsFaithful(env, lists, rank, s);
    hide AsDrawn;
    RunFaithful(env, lists, s.graph, rank, s, events);
    RunKeeps(env, s, events);
    EndsTruthfully(env, s, events);
    EndsMeant(env, lists, s.graph, rank, Run(env, s, events));
  }

  /**
   * The refinement: whatever the interleaving and the policy, a run of a planned DAG that ends uncancelled
   * and gives up no task for lack of time leaves every task exactly as the recursive meaning says, under the
   * lists its tasks drew: result, attempts, agent, status and error.
   */
  lemma RunMeansDag(env: Env, rank: map<Id, nat>, s: Sys, events: seq<Event>)
    requires Contract(env) && NoFollowups(env)
    requires Planned(s.graph) && s.phase.Looping? && Ranked(s.graph, rank)
    requires
      var t := Run(env, s, events);
      t.phase.Ended? && !t.cancelled && InTime(t.graph)
    ensures
      var t, lists := Run(env, s, events), Drawn(env, s, events);
      && t.graph.nodes.Keys == s.graph.nodes.Keys
      && (forall id :: id in s.graph.nodes ==> t.graph.nodes[id] == Meaning(env, lists, s.graph, rank, id))
      && (forall id :: id in lists ==> id in s.graph.nodes && Drawable(env, s.graph.nodes[id].task, lists[id]))
  {
    PlannedIsStartable(s);
    BoundaryStart(s);
    hide Run, Drawn, Meaning, Planned, Inv, Drawable;
    DrawnAsDrawn(env, s, events);
    RunMeansLists(env, Drawn(env, s, events), rank, s, events);
    RunKeeps(env, s, events);
    forall id | id in Drawn(env, s, events)
      ensures id in s.graph.nodes && Drawable(env, s.graph.nodes[id].task, Drawn(env, s, events)[id])
    {
      DrawnAreDrawable(env, s, events, id);
      assert Run(env, s, events).graph.nodes[id].task == s.graph.nodes[id].task;
    }
  }

  lemma StartsFaithful(env: Env, lists: map<Id, seq<Name>>, rank: map<Id, nat>, s: Sys)
    requires Planned(s.graph) && s.phase.Looping? && Ranked(s.graph, rank)
    ensures Faithful(env, lists, s.graph, rank, s)
  {
    hide Meaning, GraphOk;
  }

  lemma EndsMeant(env: Env, lists: map<Id, seq<Name>>, g: Graph, rank: map<Id, nat>, t: Sys)
    requires Ranked(g, rank) && Faithful(env, lists, g, rank, t) && t.phase.Ended?
    requires forall id :: id in t.graph.nodes ==> Settled(t.graph.nodes[id])
    ensures t.graph.nodes.Keys == g.nodes.Keys
    ensures forall id :: id in g.nodes ==> t.graph.nodes[id] == Meaning(env, lists, g, rank, id)
  {
    hide Meaning;
  }

  // ----- who runs -----

  /** A path down the dependencies to a task that has one which is missing or did not succeed. */
  ghost predicate FailsBelow(h: Graph, id: Id, p: seq<Id>) {
    DependsVia(h, p) && p[0] == id && !DepsDone(h, h.nodes[p[|p| - 1]].task)
  }

  ghost predicate Blocked(h: Graph, id: Id) {
    id in h.nodes && h.nodes[id].error == Some(BlockedNote)
  }

  /** At the end of an uncancelled run in time: blocked is exactly to have an undone dependency. */
  lemma BlockedMeans(env: Env, lists: map<Id, seq<Name>>, t: Sys, id: Id)
    requires Inv(t) && Booked(env, lists, t) && !t.phase.InWave? && id in t.graph.nodes && InTime(t.graph)
    requires Settled(t.graph.nodes[id]) && CancelledIds(t.graph) == {}
    ensures Blocked(t.graph, id) <==> !DepsDone(t.graph, t.graph.nodes[id].task)
    ensures Blocked(t.graph, id) ==> t.graph.nodes[id].attempts == 0 && !HasBegun(t, id)
    ensures !Blocked(t.graph, id) ==>
      id in lists && (lists[id] != [] && t.graph.nodes[id].task.maxRetries >= 0 ==> t.graph.nodes[id].attempts > 0)
  {
    hide GraphOk, DepsDone, Upstream, NodeOk;
    assert BookedAt(env, lists, t, id);
    assert id !in CancelledIds(t.graph);
  }

  /** What lies on the way to an undone dependency did not run. */
  lemma {:induction false} FailsUpwards(env: Env, lists: map<Id, seq<Name>>, t: Sys, p: seq<Id>)
    requires Inv(t) && Booked(env, lists, t) && !t.phase.InWave? && InTime(t.graph) && CancelledIds(t.graph) == {}
    requires forall id :: id in t.graph.nodes ==> Settled(t.graph.nodes[id])
    requires DependsVia(t.graph, p) && !DepsDone(t.graph, t.graph.nodes[p[|p| - 1]].task)
    ensures Blocked(t.graph, p[0])
    decreases |p|
  {
    hide Inv, Booked, InTime, CancelledIds, HasBegun;
    BlockedMeans(env, lists, t, p[0]);
    if |p| > 1 {
      var q := p[1..];
      assert EdgeAt(t.graph, p, 0);
      forall i | 0 <= i < |q| - 1 ensures EdgeAt(t.graph, q, i) { assert EdgeAt(t.graph, p, i + 1); }
      FailsUpwards(env, lists, t, q);
      assert !Done(t.graph, p[1]);
    }
  }

  /**
   * In every run of a planned mission that ends uncancelled and in time, under every policy, and for follow-ups
   * too: a task ends blocked iff it, or a task it transitively depends on, has a dependency that is missing or
   * did not succeed; a blocked task drew no candidates and was never handed to an agent; any other task drew
   * its list and was tried, if the list names anybody and the task allows a try.
   */
  lemma RunsIffDependenciesSucceed(env: Env, s: Sys, events: seq<Event>, id: Id)
    requires Contract(env) && Planned(s.graph) && s.phase.Looping?
    requires
      var t := Run(env, s, events);
      t.phase.Ended? && !t.cancelled && InTime(t.graph) && id in t.graph.nodes
    ensures
      var h, lists := Run(env, s, events).graph, Drawn(env, s, events);
      && (Blocked(h, id) <==> exists p :: FailsBelow(h, id, p))
      && (Blocked(h, id) ==> h.nodes[id].attempts == 0 && id !in lists)
      && (!Blocked(h, id) ==>
            id in lists && (lists[id] != [] && h.nodes[id].task.maxRetries >= 0 ==> h.nodes[id].attempts > 0))
  {
    var t, lists := Run(env, s, events), Drawn(env, s, events);
    PlannedIsStartable(s);
    BoundaryStart(s);
    EndsTruthfully(env, s, events);
    RunIsBooked(env, s, events);
    BlockedMeans(env, lists, t, id);
    if Blocked(t.graph, id) { assert FailsBelow(t.graph, id, [id]); }
    hide Run, Drawn, Inv, Booked, HasBegun, Blocked, Settled, InTime, DepsDone, Contract, Planned;
    if p :| FailsBelow(t.graph, id, p) { FailsUpwards(env, lists, t, p); }
    if id in lists { DrawnAreDrawable(env, s, events, id); }
  }

  // ----- lists known beforehand -----

  lemma {:induction false} FixedRunAsDrawn(env: Env, lists: map<Id, seq<Name>>, g: Graph, s: Sys, events: seq<Event>)
    requires Contract(env) && NoFollowups(env) && Inv(s) && NothingToSpawn(s)
    requires Grows(g, s.graph) && s.graph.nodes.Keys == g.nodes.Keys && Fixed(env, lists, g, g.nodes.Keys)
    ensures AsDrawn(env, lists, s, events)
    decreases |events|
  {
    if events != [] {
      var e := events[0];
      var t := Next(env, s, e);
      NextKeeps(env, s, e);
      NextAddsNothing(env, s, e);
      GrowsTrans(g, s.graph, t.graph);
      hide Inv, Contract, Next, AlwaysDraws, Grows, NoFollowups, NothingToSpawn, Fixed;
      if Begins(s, e) { FixedDraws(env, lists, g, g.nodes.Keys, s, e.id); }
      FixedRunAsDrawn(env, lists, g, t, events[1..]);
    }
  }

  lemma NextAddsNothing(env: Env, s: Sys, e: Event)
    requires NoFollowups(env) && NothingToSpawn(s)
    ensures Next(env, s, e).graph.nodes.Keys == s.graph.nodes.Keys && NothingToSpawn(Next(env, s, e))
  {
    hide MoveTask, NoFollowups, IsReady;
    if e.Move? { MoveAddsNothing(env, s, e.id); }
  }

  /**
   * Where the candidates are known beforehand, all runs of a planned DAG that end uncancelled and in time end
   * with the same nodes: those of the meaning under these candidates.
   */
  lemma FixedRunMeansDag(env: Env, lists: map<Id, seq<Name>>, rank: map<Id, nat>, s: Sys, events: seq<Event>)
    requires Contract(env) && NoFollowups(env) && Fixed(env, lists, s.graph, s.graph.nodes.Keys)
    requires Planned(s.graph) && s.phase.Looping? && Ranked(s.graph, rank)
    requires
      var t := Run(env, s, events);
      t.phase.Ended? && !t.cancelled && InTime(t.graph)
    ensures Meant(env, lists, s.graph, rank, Run(env, s, events).graph)
  {
    PlannedIsStartable(s);
    BoundaryStart(s);
    GrowsSelf(s.graph);
    assert NothingToSpawn(s);
    hide *;
    FixedRunAsDrawn(env, lists, s.graph, s, events);
    RunMeansLists(env, lists, rank, s, events);
  }

  // ----- what `completed` says -----

  /** The mission is reported completed although some task did not succeed. */
  ghost predicate Misreported(t: Sys) {
    t.phase == Ended(MissionCompleted) && exists id :: id in t.graph.nodes && !Success(t.graph.nodes[id].status)
  }

  /** No task is meant to fail, and some task is meant to stay in progress. */
  ghost predicate MeansOpen(env: Env, lists: map<Id, seq<Name>>, g: Graph, rank: map<Id, nat>)
    requires Ranked(g, rank)
  {
    && (forall id :: id in g.nodes ==> !Meaning(env, lists, g, rank, id).status.Failed?)
    && (exists id :: id in g.nodes && Meaning(env, lists, g, rank, id).status.InProgress?)
  }

  lemma SettledStatus(n: Node)
    requires Settled(n)
    ensures n.status.Failed? || n.status.InProgress? || Success(n.status)
  {
  }

  /**
   * When `completed` is untrue: exactly when, under the lists the run draws, no task's meaning is to fail and
   * some task's is to stay in progress.
   */
  lemma CompletedTellsTheTruthExactly(env: Env, lists: map<Id, seq<Name>>, rank: map<Id, nat>, s: Sys,
                                      events: seq<Event>)
    requires Contract(env) && NoFollowups(env) && AsDrawn(env, lists, s, events)
    requires Planned(s.graph) && s.phase.Looping? && Ranked(s.graph, rank)
    requires
      var t := Run(env, s, events);
      t.phase.Ended? && !t.cancelled && InTime(t.graph)
    ensures Misreported(Run(env, s, events)) <==> MeansOpen(env, lists, s.graph, rank)
  {
    PlannedIsStartable(s);
    RunMeansLists(env, lists, rank, s, events);
    CompletedMeansNoneFailed(env, s, events);
    var t := Run(env, s, events);
    EndsTruthfully(env, s, events);
    hide Run, Meaning, AsDrawn, GraphOk, Contract, NoFollowups, Settled, CancelledIds, StatusOf;
    forall id | id in t.graph.nodes
      ensures t.graph.nodes[id].status.Failed? || t.graph.nodes[id].status.InProgress?
              || Success(t.graph.nodes[id].status)
    {
      SettledStatus(t.graph.nodes[id]);
    }
    OpenIffMisreported(env, lists, s.graph, rank, t);
  }

  lemma OpenIffMisreported(env: Env, lists: map<Id, seq<Name>>, g: Graph, rank: map<Id, nat>, t: Sys)
    requires Ranked(g, rank) && Meant(env, lists, g, rank, t.graph) && t.phase.Ended?
    requires forall id :: id in t.graph.nodes ==>
      t.graph.nodes[id].status.Failed? || t.graph.nodes[id].status.InProgress? || Success(t.graph.nodes[id].status)
    requires t.phase.status == MissionCompleted <==>
      forall id :: id in t.graph.nodes ==> Success(t.graph.nodes[id].status) || t.graph.nodes[id].status.InProgress?
    ensures Misreported(t) <==> MeansOpen(env, lists, g, rank)
  {
    hide Meaning, Ranked;
  }

  /** Where the candidates are known beforehand, so is whether `completed` will be true. */
  lemma FixedCompletedTellsTheTruth(env: Env, lists: map<Id, seq<Name>>, rank: map<Id, nat>, s: Sys, events: seq<Event>)
    requires Contract(env) && NoFollowups(env) && Fixed(env, lists, s.graph, s.graph.nodes.Keys)
    requires Planned(s.graph) && s.phase.Looping? && Ranked(s.graph, rank)
    requires
      var t := Run(env, s, events);
      t.phase.Ended? && !t.cancelled && InTime(t.graph)
    ensures Misreported(Run(env, s, events)) <==> MeansOpen(env, lists, s.graph, rank)
  {
    PlannedIsStartable(s);
    BoundaryStart(s);
    GrowsSelf(s.graph);
    assert NothingToSpawn(s);
    hide *;
    FixedRunAsDrawn(env, lists, s.graph, s, events);
    CompletedTellsTheTruthExactly(env, lists, rank, s, events);
  }
}
