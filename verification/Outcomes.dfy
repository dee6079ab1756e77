/** How missions end: dependency safety, final status, number of waves, cancellation, re-runs. */
module Outcomes {
  import opened Options
  import opened Tasks
  import opened Sets
  import opened Attempts
  import opened Protocol
  import opened Safety
  import opened Counting

  // ----- dependency safety -----

  /** A task is between its cancellation check and the agent's answer. */
  predicate Attempting(s: Sys, id: Id) {
    Active(s, id) && (s.phase.workers[id].Checked? || s.phase.workers[id].Calling?)
  }

  /** The task's dependencies succeeded, and its upstream context is exactly their results. */
  ghost predicate FedByDeps(s: Sys, id: Id)
    requires Attempting(s, id)
  {
    var up := s.phase.workers[id].up;
    && up.Keys == (set d | d in s.graph.nodes[id].task.dependsOn)
    && forall d :: d in s.graph.nodes[id].task.dependsOn ==>
         && d in s.graph.nodes && Success(s.graph.nodes[d].status)
         && s.graph.nodes[d].result == Some(up[d])
  }

  lemma AttemptIsFed(s: Sys, id: Id)
    requires Inv(s) && Attempting(s, id)
    ensures FedByDeps(s, id)
    ensures forall d :: d in s.graph.nodes[id].task.dependsOn ==> Settled(s.graph.nodes[d])
  {
    hide GraphOk;
    assert NodeOk(s, id);
    forall d | d in s.graph.nodes[id].task.dependsOn
      ensures d in s.graph.nodes && Settled(s.graph.nodes[d]) && s.graph.nodes[d].result.Some?
    {
      assert Done(s.graph, d);
      assert NodeOk(s, d);
    }
  }

  /**
   * Whenever an agent is about to be called or is being called, in any interleaving, the task's
   * dependencies are there and succeeded, its upstream context is exactly their results, and they
   * stay as they are for the rest of the run.
   */
  lemma DependencySafety(env: Env, s: Sys, before: seq<Event>, after: seq<Event>, id: Id)
    requires Contract(env) && Boundary(s.graph) && s.phase.Looping?
    requires Attempting(Run(env, s, before), id)
    ensures
      var t := Run(env, s, before);
      var u := Run(env, t, after);
      && FedByDeps(t, id)
      && forall d :: d in t.graph.nodes[id].task.dependsOn ==>
                       d in u.graph.nodes && u.graph.nodes[d] == t.graph.nodes[d]
  {
    hide Inv, Run, FedByDeps, Settled;
    BoundaryStart(s);
    RunKeeps(env, s, before);
    var t := Run(env, s, before);
    AttemptIsFed(t, id);
    RunKeeps(env, t, after);
    DepsPresent(t, id);
  }

  lemma DepsPresent(t: Sys, id: Id)
    requires Attempting(t, id) && FedByDeps(t, id)
    ensures forall d :: d in t.graph.nodes[id].task.dependsOn ==> d in t.graph.nodes
  {
  }

  lemma BoundaryStart(s: Sys)
    requires Boundary(s.graph) && s.phase.Looping?
    ensures Inv(s)
  {
  }

  /** At wave boundaries, finished tasks are there to stay, as they are. */
  lemma FinishedStay(env: Env, s: Sys, before: seq<Event>, after: seq<Event>, id: Id)
    requires Contract(env) && Boundary(s.graph) && s.phase.Looping?
    requires
      var t := Run(env, s, before);
      !t.phase.InWave? && id in t.graph.nodes
    ensures
      var t := Run(env, s, before);
      var u := Run(env, t, after);
      id in u.graph.nodes && (Over(t.graph.nodes[id].status) ==> u.graph.nodes[id] == t.graph.nodes[id])
  {
    hide Inv, Run;
    BoundaryStart(s);
    RunKeeps(env, s, before);
    var t := Run(env, s, before);
    Between(t);
    RunKeeps(env, t, after);
  }

  // ----- waves -----

  /** Tasks that have left the pending state. */
  function Used(g: Graph): set<Id> {
    set id | id in g.nodes && !g.nodes[id].status.Pending?
  }

  lemma UsedGrows(g: Graph, h: Graph)
    requires Grows(g, h)
    ensures Used(g) <= Used(h) && |Used(g)| <= |Used(h)|
  {
    assert Used(g) <= Used(h);
    SubsetSize(Used(g), Used(h));
  }

  /** A task enters at most one wave: what one wave starts, no later one starts again. */
  lemma EntersOneWave(env: Env, s: Sys, between: seq<Event>)
    requires Contract(env) && Inv(s) && s.phase.Looping?
    requires
      var t := Run(env, StartWave(s), between);
      t.phase.Looping?
    ensures ReadyIds(s.graph) !! ReadyIds(Run(env, StartWave(s), between).graph)
  {
    hide Inv, GraphOk, Run, NodeOk, DepsDone;
    Between(s);
    StartKeeps(s);
    RunKeeps(env, StartWave(s), between);
    var t := Run(env, StartWave(s), between);
    Between(t);
    forall id | id in ReadyIds(s.graph) ensures id !in ReadyIds(t.graph) {
      assert StartWave(s).graph.nodes[id].status.Running?;
    }
  }

  lemma NextWaves(env: Env, s: Sys, e: Event)
    requires Contract(env) && Inv(s)
    ensures s.waves + |Used(Next(env, s, e).graph)| >= Next(env, s, e).waves + |Used(s.graph)|
    ensures s.waves <= Next(env, s, e).waves
  {
    NextKeeps(env, s, e);
    UsedGrows(s.graph, Next(env, s, e).graph);
    if e.Advance? && MainStep(s).waves != s.waves {
      StartUses(s);
      assert Next(env, s, e) == StartWave(s);
    } else {
      MoveWaves(env, s, e);
    }
  }

  lemma MoveWaves(env: Env, s: Sys, e: Event)
    requires e.Advance? ==> MainStep(s).waves == s.waves
    ensures Next(env, s, e).waves == s.waves
  {
  }

  /** A wave that starts uses at least one task more. */
  lemma StartUses(s: Sys)
    requires Inv(s) && s.phase.Looping? && ReadyIds(s.graph) != {}
    ensures |Used(StartWave(s).graph)| >= |Used(s.graph)| + 1
  {
    hide GraphOk;
    Between(s);
    var wave := ReadyIds(s.graph);
    assert Used(StartWave(s).graph) == Used(s.graph) + wave;
    assert Used(s.graph) !! wave;
    assert |Used(s.graph) + wave| == |Used(s.graph)| + |wave|;
  }

  /** However many follow-ups agents add, a run never makes more waves than the graph has tasks in the end. */
  lemma {:induction false} WaveBound(env: Env, s: Sys, events: seq<Event>)
    requires Contract(env) && Inv(s)
    ensures Run(env, s, events).waves - s.waves <= |Used(Run(env, s, events).graph)| - |Used(s.graph)|
    ensures |Used(Run(env, s, events).graph)| <= |Run(env, s, events).graph.nodes|
    decreases |events|
  {
    hide Inv, Next;
    if events != [] {
      NextWaves(env, s, events[0]);
      NextKeeps(env, s, events[0]);
      WaveBound(env, Next(env, s, events[0]), events[1..]);
    } else {
      SubsetSize(Used(s.graph), s.graph.nodes.Keys);
    }
  }

  // ----- the final status -----

  /** Only a cancelled run marks tasks cancelled. */
  ghost predicate FlagOk(s: Sys) {
    !s.cancelled ==> CancelledIds(s.graph) == {}
  }

  /** The status reported is the graph's, or `cancelled` when the flag was up. */
  ghost predicate EndOk(s: Sys) {
    s.phase.Ended? ==> s.phase.status == StatusOf(s.graph, false) || (s.phase.status == MissionCancelled && s.cancelled)
  }

  lemma MoveFlag(env: Env, s: Sys, id: Id)
    requires Inv(s) && FlagOk(s)
    ensures FlagOk(MoveTask(env, s, id))
  {
    hide GraphOk, Upstream, DepsDone, CandidatesAt, FollowupTask, Invoke, FollowupsOf;
    if !s.cancelled && Active(s, id) {
      assert NodeOk(s, id);
      var t := MoveTask(env, s, id);
      assert forall other :: other in s.graph.nodes ==> other !in CancelledIds(s.graph);
      assert t.graph.nodes[id].error != Some(CancelledNote);
      hide MoveTask, NodeOk, Settled;
    }
  }

  lemma MainFlag(s: Sys)
    requires Inv(s) && FlagOk(s) && EndOk(s)
    ensures FlagOk(MainStep(s)) && EndOk(MainStep(s))
  {
    hide GraphOk, NodeOk, ReadyIds, GraphDone, HasFailures, HasSuccess;
    assert forall id :: id in s.graph.nodes && !s.cancelled ==> id !in CancelledIds(s.graph);
  }

  lemma NextFlag(env: Env, s: Sys, e: Event)
    requires Inv(s) && FlagOk(s) && EndOk(s)
    ensures FlagOk(Next(env, s, e)) && EndOk(Next(env, s, e))
  {
    hide MainStep, MoveTask, Inv;
    match e
    case Advance => MainFlag(s);
    case Move(id) =>
      MoveFlag(env, s, id);
      MoveInWaveOnly(env, s, id);
    case Cancel =>
    case Tick(_) =>
  }

  /** Outside a wave no task moves. */
  lemma MoveInWaveOnly(env: Env, s: Sys, id: Id)
    ensures !s.phase.InWave? ==> MoveTask(env, s, id) == s
    ensures s.phase.InWave? ==> MoveTask(env, s, id).phase.InWave?
    ensures MoveTask(env, s, id).cancelled == s.cancelled
  {
  }

  lemma {:induction false} RunFlag(env: Env, s: Sys, events: seq<Event>)
    requires Contract(env) && Inv(s) && FlagOk(s) && EndOk(s)
    ensures FlagOk(Run(env, s, events)) && EndOk(Run(env, s, events))
    decreases |events|
  {
    hide Inv, Next, FlagOk, EndOk;
    if events != [] {
      NextFlag(env, s, events[0]);
      NextKeeps(env, s, events[0]);
      RunFlag(env, Next(env, s, events[0]), events[1..]);
    }
  }

  /** A state from which a mission is run: no flag up yet, or tasks cancelled before under the same flag. */
  ghost predicate Startable(s: Sys) {
    Boundary(s.graph) && s.phase.Looping? && FlagOk(s)
  }

  /** Every run that ends reports `cancelled` only under the flag, and otherwise what its tasks say, all settled. */
  lemma EndsTruthfully(env: Env, s: Sys, events: seq<Event>)
    requires Contract(env) && Startable(s)
    requires Run(env, s, events).phase.Ended?
    ensures
      var t := Run(env, s, events);
      && (t.phase.status == MissionCancelled ==> t.cancelled)
      && (t.phase.status != MissionCancelled ==> t.phase.status == StatusOf(t.graph, false))
      && (!t.cancelled ==>
            CancelledIds(t.graph) == {} && forall id :: id in t.graph.nodes ==> Settled(t.graph.nodes[id]))
  {
    hide Run;
    BoundaryStart(s);
    RunKeeps(env, s, events);
    RunFlag(env, s, events);
  }

  /** Agents that never answer `in_progress`. */
  ghost predicate Decisive(env: Env) {
    forall agent, task, up, k ::
      env.call(agent, task, up, k).outcome.Replied? ==> !env.call(agent, task, up, k).outcome.reply.status.InProgress?
  }

  ghost predicate Decided(g: Graph) {
    forall id :: id in g.nodes ==> !g.nodes[id].status.InProgress?
  }

  lemma NextDecided(env: Env, s: Sys, e: Event)
    requires Decisive(env) && Decided(s.graph)
    ensures Decided(Next(env, s, e).graph)
  {
    hide Upstream, DepsDone, CandidatesAt, FollowupTask, FollowupsOf, IsReady;
  }

  lemma {:induction false} RunDecided(env: Env, s: Sys, events: seq<Event>)
    requires Decisive(env) && Decided(s.graph)
    ensures Decided(Run(env, s, events).graph)
    decreases |events|
  {
    hide Next, Decided, Decisive;
    if events != [] {
      NextDecided(env, s, events[0]);
      RunDecided(env, Next(env, s, events[0]), events[1..]);
    }
  }

  /**
   * The mission's status, for every interleaving of an uncancelled run whose agents decide: completed iff
   * every task succeeded, failed iff there are tasks and none succeeded, partial iff some did and some did not.
   */
  lemma FinalStatus(env: Env, s: Sys, events: seq<Event>)
    requires Contract(env) && Decisive(env) && Startable(s) && Decided(s.graph)
    requires Run(env, s, events).phase.Ended? && !Run(env, s, events).cancelled
    ensures
      var t := Run(env, s, events);
      && (t.phase.status == MissionCompleted <==>
            forall id :: id in t.graph.nodes ==> Success(t.graph.nodes[id].status))
      && (t.phase.status == MissionFailed <==>
            t.graph.nodes != map[] && forall id :: id in t.graph.nodes ==> !Success(t.graph.nodes[id].status))
      && (t.phase.status == MissionPartial <==>
            HasSuccess(t.graph) && exists id :: id in t.graph.nodes && !Success(t.graph.nodes[id].status))
  {
    EndsTruthfully(env, s, events);
    RunDecided(env, s, events);
    var t := Run(env, s, events);
    hide Run, GraphOk;
    forall id | id in t.graph.nodes ensures Success(t.graph.nodes[id].status) <==> !t.graph.nodes[id].status.Failed? {
      assert Settled(t.graph.nodes[id]);
    }
    if t.graph.nodes != map[] {
      var id :| id in t.graph.nodes;
    }
  }

  /** Without that rule on agents: `completed` only says that no task failed; some may be left in progress. */
  lemma CompletedMeansNoneFailed(env: Env, s: Sys, events: seq<Event>)
    requires Contract(env) && Startable(s)
    requires Run(env, s, events).phase.Ended? && !Run(env, s, events).cancelled
    ensures
      var t := Run(env, s, events);
      t.phase.status == MissionCompleted <==>
        forall id :: id in t.graph.nodes ==> Success(t.graph.nodes[id].status) || t.graph.nodes[id].status.InProgress?
  {
    EndsTruthfully(env, s, events);
    var t := Run(env, s, events);
    hide Run, GraphOk;
    forall id | id in t.graph.nodes
      ensures t.graph.nodes[id].status.Failed? || t.graph.nodes[id].status.InProgress?
              || Success(t.graph.nodes[id].status)
    {
      assert Settled(t.graph.nodes[id]);
    }
  }

  /** Conservation at the end: each task, follow-ups included, is counted once as completed or as failed. */
  lemma EveryTaskCountedOnce(base: Counters, env: Env, s: Sys, events: seq<Event>)
    requires Contract(env) && Planned(s.graph) && s.phase.Looping? && s.counters == base
    requires Run(env, s, events).phase.Ended? && !Run(env, s, events).cancelled
    ensures
      var t := Run(env, s, events);
      (t.counters.completed - base.completed) + (t.counters.failures - base.failures) == |t.graph.nodes|
  {
    PlannedIsStartable(s);
    Conservation(base, env, s, events);
    EndsTruthfully(env, s, events);
    var t := Run(env, s, events);
    hide Run, GraphOk;
    assert forall id :: id in t.graph.nodes ==> id !in CancelledIds(t.graph);
    assert WithReply(t.graph) + Wronged(t.graph) == t.graph.nodes.Keys;
    assert WithReply(t.graph) !! Wronged(t.graph);
    assert |WithReply(t.graph) + Wronged(t.graph)| == |WithReply(t.graph)| + |Wronged(t.graph)|;
  }

  lemma PlannedIsStartable(s: Sys)
    requires Planned(s.graph) && s.phase.Looping?
    ensures Startable(s)
  {
    assert CancelledIds(s.graph) == {};
  }

  // ----- cancellation -----

  /** Attempts made, and the one a task that has passed its check may still make. */
  function Allowance(s: Sys, id: Id): nat
    requires id in s.graph.nodes
  {
    s.graph.nodes[id].attempts + if Active(s, id) && s.phase.workers[id].Checked? then 1 else 0
  }

  lemma MoveAllowance(env: Env, s: Sys, mover: Id, id: Id)
    requires Inv(s) && s.cancelled && id in MoveTask(env, s, mover).graph.nodes
    ensures Allowance(MoveTask(env, s, mover), id) <= if id in s.graph.nodes then Allowance(s, id) else 0
  {
    hide GraphOk, NodeOk, Upstream, CandidatesAt, Invoke, FollowupsOf, FollowupTask;
    if Active(s, mover) {
      match s.phase.workers[mover]
      case Submitted => hide LoopHead, Answer, Spawn;
      case AtLoop(_, _, _, _) => hide Begin, Answer, Spawn;
      case Checked(_, _, _, _) => hide Begin, LoopHead, Answer, Spawn;
      case Calling(_, _, _, _) => hide Begin, LoopHead, Spawn;
      case Spawning(_, _) => hide Begin, LoopHead, Answer;
      case Returned =>
    }
  }

  lemma NextAllowance(env: Env, s: Sys, e: Event, id: Id)
    requires Inv(s) && s.cancelled && id in Next(env, s, e).graph.nodes
    ensures Allowance(Next(env, s, e), id) <= if id in s.graph.nodes then Allowance(s, id) else 0
  {
    hide MoveTask, GraphOk, NodeOk, GraphDone, ReadyIds;
    if e.Move? { MoveAllowance(env, s, e.id, id); }
  }

  lemma {:induction false} AtMostOneMore(env: Env, s: Sys, events: seq<Event>, id: Id)
    requires Contract(env) && Inv(s) && s.cancelled && id in Run(env, s, events).graph.nodes
    ensures Allowance(Run(env, s, events), id) <= if id in s.graph.nodes then Allowance(s, id) else 0
    decreases |events|
  {
    hide Inv, Next, Allowance;
    if events != [] {
      var t := Next(env, s, events[0]);
      NextKeeps(env, s, events[0]);
      NextOutside(env, s, events[0]);
      AtMostOneMore(env, t, events[1..], id);
      if id in t.graph.nodes { NextAllowance(env, s, events[0], id); }
    }
  }

  /**
   * Once the flag is up, in whatever state the run is: a task makes at most one more attempt, the one it
   * was already cleared for; a task not yet in the graph makes none; and the run can only end `cancelled`.
   */
  lemma CancelStops(env: Env, s: Sys, before: seq<Event>, after: seq<Event>, id: Id)
    requires Contract(env) && Startable(s) && EndOk(s)
    requires
      var t := Run(env, s, before);
      t.cancelled && !t.phase.Ended? && id in Run(env, t, after).graph.nodes
    ensures
      var t := Run(env, s, before);
      var u := Run(env, t, after);
      && u.graph.nodes[id].attempts <= (if id in t.graph.nodes then t.graph.nodes[id].attempts + 1 else 0)
      && (u.phase.Ended? ==> u.phase.status == MissionCancelled)
  {
    hide Run;
    BoundaryStart(s);
    RunKeeps(env, s, before);
    var t := Run(env, s, before);
    AtMostOneMore(env, t, after, id);
    EndsCancelled(env, t, after);
  }

  lemma {:induction false} EndsCancelled(env: Env, s: Sys, events: seq<Event>)
    requires s.cancelled && (s.phase.Ended? ==> s.phase.status == MissionCancelled)
    ensures
      var t := Run(env, s, events);
      t.cancelled && (t.phase.Ended? ==> t.phase.status == MissionCancelled)
    decreases |events|
  {
    hide Inv, Quit, StartWave;
    if events != [] {
      MoveStaysOpen(env, s, events[0]);
      EndsCancelled(env, Next(env, s, events[0]), events[1..]);
    }
  }

  lemma MoveStaysOpen(env: Env, s: Sys, e: Event)
    requires s.cancelled && (s.phase.Ended? ==> s.phase.status == MissionCancelled)
    ensures
      var t := Next(env, s, e);
      t.cancelled && (t.phase.Ended? ==> t.phase.status == MissionCancelled)
  {
    hide MoveTask;
    if e.Move? { MoveInWaveOnly(env, s, e.id); }
  }

  // ----- runs in which nothing happens -----

  /** Nothing can run: the flag is up, or every task is settled. */
  ghost predicate Idle(s: Sys) {
    !s.phase.InWave? && (s.cancelled || forall id :: id in s.graph.nodes ==> Settled(s.graph.nodes[id]))
  }

  lemma SettledQuit(s: Sys, note: Note)
    requires forall id :: id in s.graph.nodes ==> Settled(s.graph.nodes[id])
    ensures Quit(s, note) == s.(phase := Leaving) && ReadyIds(s.graph) == {}
  {
    assert Remaining(s.graph) == {};
    assert FailRemaining(s.graph, note).nodes == s.graph.nodes;
  }

  lemma IdleStep(env: Env, s: Sys, e: Event)
    requires Idle(s)
    ensures Idle(Next(env, s, e)) && Next(env, s, e).graph == s.graph && Next(env, s, e).counters == s.counters
  {
    hide Quit, ReadyIds, MoveTask, Settled;
    if e.Advance? && s.phase.Looping? && !s.cancelled {
      SettledQuit(s, MissionTimeout);
      SettledQuit(s, BlockedNote);
    }
    if e.Move? { MoveInWaveOnly(env, s, e.id); }
  }

  /** A mission cancelled before its start, or run again when settled, calls no agent and changes no task. */
  lemma {:induction false} IdleRun(env: Env, s: Sys, events: seq<Event>)
    requires Idle(s)
    ensures Run(env, s, events).graph == s.graph && Run(env, s, events).counters == s.counters
    decreases |events|
  {
    hide Idle, Next;
    if events != [] {
      IdleStep(env, s, events[0]);
      IdleRun(env, Next(env, s, events[0]), events[1..]);
    }
  }

  /**
   * Running a finished, uncancelled mission again: no agent is invoked, no count moves, the tasks are the
   * same; and the status is the same iff the second run did not end `cancelled`.
   */
  lemma RerunIsIdle(env: Env, s: Sys, first: seq<Event>, s2: Sys, second: seq<Event>)
    requires Contract(env) && Startable(s)
    requires
      var t := Run(env, s, first);
      t.phase.Ended? && !t.cancelled && s2.graph == t.graph && s2.phase.Looping?
    requires Run(env, s2, second).phase.Ended?
    ensures
      var t := Run(env, s, first);
      var u := Run(env, s2, second);
      && u.graph == t.graph && u.counters == s2.counters
      && (u.phase.status == t.phase.status <==> u.phase.status != MissionCancelled)
      && (!u.cancelled ==> u.phase.status == t.phase.status)
  {
    EndsTruthfully(env, s, first);
    BoundaryStart(s);
    RunKeeps(env, s, first);
    hide Run, GraphOk, Settled;
    IdleRun(env, s2, second);
    Between(Run(env, s, first));
    EndsTruthfully(env, s2, second);
  }
}
