/** The counters say exactly what the graph says, at every moment of every interleaving. */
module Counting {
  import opened Options
  import opened Tasks
  import opened Attempts
  import opened Protocol
  import opened Safety

  function WithReply(g: Graph): set<Id> {
    set id | id in g.nodes && g.nodes[id].result.Some?
  }

  /** Failed nodes that the failure counter counts: all but the cancelled ones. */
  function Wronged(g: Graph): set<Id> {
    set id | id in g.nodes && g.nodes[id].error.Some? && g.nodes[id].error.value != CancelledNote
  }

  function CancelledIds(g: Graph): set<Id> {
    set id | id in g.nodes && g.nodes[id].error == Some(CancelledNote)
  }

  predicate HasBegun(s: Sys, id: Id)
    requires id in s.graph.nodes
  {
    var n := s.graph.nodes[id];
    || n.result.Some?
    || (n.error.Some? && FromRun(n.error.value))
    || (s.phase.InWave? && id in s.phase.workers && !s.phase.workers[id].Submitted?)
  }

  function Begun(s: Sys): set<Id> {
    set id | id in s.graph.nodes && HasBegun(s, id)
  }

  /** `base` are the counters before the mission: the metrics object is shared. */
  ghost predicate Counted(base: Counters, s: Sys) {
    && s.counters.completed == base.completed + |WithReply(s.graph)|
    && s.counters.failures == base.failures + |Wronged(s.graph)|
    && s.counters.scheduled == base.scheduled + |Begun(s)|
  }

  /** The three sets of `t` are those of `s` with at most `id` added. */
  lemma CountedBy(base: Counters, s: Sys, t: Sys, id: Id, replied: bool, wronged: bool, begun: bool)
    requires Counted(base, s)
    requires WithReply(t.graph) == WithReply(s.graph) + (if replied then {id} else {})
    requires Wronged(t.graph) == Wronged(s.graph) + (if wronged then {id} else {})
    requires Begun(t) == Begun(s) + (if begun then {id} else {})
    requires replied ==> id !in WithReply(s.graph)
    requires wronged ==> id !in Wronged(s.graph)
    requires begun ==> id !in Begun(s)
    requires t.counters == Counters(s.counters.scheduled + (if begun then 1 else 0),
                                    s.counters.completed + (if replied then 1 else 0),
                                    s.counters.failures + (if wronged then 1 else 0))
    ensures Counted(base, t)
  {
    hide WithReply, Wronged, Begun;
  }

  /** What a task's own step does to the sets. */
  lemma OwnStepSets(s: Sys, t: Sys, id: Id)
    requires OwnStep(s, t, id) && !t.phase.workers[id].Submitted?
    ensures
      var m := t.graph.nodes[id];
      && WithReply(t.graph) == WithReply(s.graph) + (if m.result.Some? then {id} else {})
      && Wronged(t.graph) == Wronged(s.graph) + (if m.error.Some? && m.error.value != CancelledNote then {id} else {})
      && Begun(t) == Begun(s) + {id}
  {
    hide WorkerOk;
    forall other | other in t.graph.nodes && other != id
      ensures t.graph.nodes[other] == s.graph.nodes[other] && HasBegun(t, other) == HasBegun(s, other)
    {
    }
    assert HasBegun(t, id);
    hide HasBegun;
  }

  /** A task's own step, counted: by its node before and after, and whether it had begun. */
  lemma OwnStepCounts(base: Counters, s: Sys, t: Sys, id: Id)
    requires Inv(s) && Counted(base, s) && OwnStep(s, t, id) && !t.phase.workers[id].Submitted?
    requires
      var n, m := s.graph.nodes[id], t.graph.nodes[id];
      t.counters == Counters(s.counters.scheduled + (if s.phase.workers[id].Submitted? then 1 else 0),
                             s.counters.completed + (if n.result.None? && m.result.Some? then 1 else 0),
                             s.counters.failures + (if n.error.None? && m.error.Some?
                                                    && m.error.value != CancelledNote then 1 else 0))
    ensures Counted(base, t)
  {
    hide Counted, WithReply, Wronged, Begun, WorkerOk, NodeOk, GraphOk, HasBegun;
    var n, m := s.graph.nodes[id], t.graph.nodes[id];
    OwnStepSets(s, t, id);
    OwnStepMembers(s, t, id);
    var begun := s.phase.workers[id].Submitted?;
    var replied := n.result.None? && m.result.Some?;
    var wronged := n.error.None? && m.error.Some? && m.error.value != CancelledNote;
    CountedBy(base, s, t, id, replied, wronged, begun);
  }

  lemma OwnStepMembers(s: Sys, t: Sys, id: Id)
    requires Inv(s) && OwnStep(s, t, id)
    ensures id in WithReply(s.graph) <==> s.graph.nodes[id].result.Some?
    ensures id in Wronged(s.graph) <==> s.graph.nodes[id].error.Some? && s.graph.nodes[id].error.value != CancelledNote
    ensures id in Begun(s) <==> !s.phase.workers[id].Submitted?
    ensures s.graph.nodes[id].result.Some? ==> t.graph.nodes[id].result.Some?
    ensures s.graph.nodes[id].error.Some? ==> t.graph.nodes[id].error == s.graph.nodes[id].error
  {
    assert NodeOk(s, id);
  }

  // ----- one step -----

  lemma SpawnCounts(base: Counters, env: Env, s: Sys, id: Id)
    requires Inv(s) && Counted(base, s) && Active(s, id) && s.phase.workers[id].Spawning?
    ensures Counted(base, Spawn(env, s, id))
  {
    hide FollowupTask, WorkerOk, GraphOk, Counted;
    var t := Spawn(env, s, id);
    assert NodeOk(s, id);
    assert WithReply(t.graph) == WithReply(s.graph);
    assert Wronged(t.graph) == Wronged(s.graph);
    assert Begun(t) == Begun(s);
    CountedBy(base, s, t, id, false, false, false);
  }

  lemma LoopHeadCounts(base: Counters, env: Env, s: Sys, id: Id)
    requires Inv(s) && Counted(base, s) && Active(s, id) && s.phase.workers[id].AtLoop?
    ensures Counted(base, LoopHead(env, s, id))
  {
    hide Counted, GraphOk, OwnStep, Upstream, DepsDone;
    assert NodeOk(s, id);
    LoopHeadIsOwn(env, s, id);
    OwnStepCounts(base, s, LoopHead(env, s, id), id);
  }

  lemma AnswerCounts(base: Counters, env: Env, s: Sys, id: Id)
    requires Contract(env) && Inv(s) && Counted(base, s)
    requires Active(s, id) && s.phase.workers[id].Calling? && s.phase.workers[id].agents != []
    ensures Counted(base, Answer(env, s, id))
  {
    hide Counted, GraphOk, OwnStep, Upstream, DepsDone, FollowupsOf, Invoke;
    assert NodeOk(s, id);
    AnswerIsOwn(env, s, id);
    OwnStepCounts(base, s, Answer(env, s, id), id);
  }

  lemma MoveCounts(base: Counters, env: Env, s: Sys, id: Id)
    requires Contract(env) && Inv(s) && Counted(base, s)
    ensures Counted(base, MoveTask(env, s, id))
  {
    hide Counted, WorkerOk, Upstream, DepsDone, GraphOk, OwnStep, LoopHead, Answer, Spawn;
    if Active(s, id) {
      assert NodeOk(s, id);
      match s.phase.workers[id]
      case Submitted => BeginIsOwn(env, s, id); OwnStepCounts(base, s, Begin(env, s, id), id);
      case AtLoop(_, _, _, _) => LoopHeadCounts(base, env, s, id);
      case Checked(_, _, _, _) => TryIsOwn(env, s, id); OwnStepCounts(base, s, MoveTask(env, s, id), id);
      case Calling(_, agents, _, _) =>
        if agents != [] { AnswerCounts(base, env, s, id); }
      case Spawning(_, _) => SpawnCounts(base, env, s, id);
      case Returned =>
    }
  }

  lemma QuitSets(s: Sys, note: Note)
    requires Boundary(s.graph) && s.phase.Looping? && !FromRun(note)
    ensures WithReply(Quit(s, note).graph) == WithReply(s.graph)
    ensures Wronged(Quit(s, note).graph) == Wronged(s.graph) + Remaining(s.graph)
    ensures Wronged(s.graph) !! Remaining(s.graph)
  {
    hide GraphOk;
  }

  lemma QuitCounts(base: Counters, s: Sys, note: Note)
    requires Boundary(s.graph) && s.phase.Looping? && Counted(base, s) && !FromRun(note)
    ensures Counted(base, Quit(s, note))
  {
    hide GraphOk, WithReply, Wronged, Remaining;
    QuitSets(s, note);
    var t := Quit(s, note);
    forall id | id in s.graph.nodes ensures HasBegun(t, id) == HasBegun(s, id) {}
    assert Begun(t) == Begun(s);
  }

  lemma StartCounts(base: Counters, s: Sys)
    requires Boundary(s.graph) && s.phase.Looping? && Counted(base, s)
    ensures Counted(base, StartWave(s))
  {
    hide GraphOk, IsReady;
    var t := StartWave(s);
    assert WithReply(t.graph) == WithReply(s.graph);
    assert Wronged(t.graph) == Wronged(s.graph);
    assert Begun(t) == Begun(s);
  }

  /** Nothing but the phase changes, and no task is in the middle of a run. */
  lemma PhaseCounts(base: Counters, s: Sys, t: Sys)
    requires Inv(s) && Counted(base, s) && t.graph == s.graph && t.counters == s.counters && !t.phase.InWave?
    requires s.phase.InWave? ==> AllReturned(s.phase.workers)
    ensures Counted(base, t)
  {
    hide GraphOk;
    forall id | id in s.graph.nodes ensures HasBegun(t, id) == HasBegun(s, id) { assert NodeOk(s, id); }
    assert Begun(t) == Begun(s);
  }

  lemma MainCounts(base: Counters, s: Sys)
    requires Inv(s) && Counted(base, s)
    ensures Counted(base, MainStep(s))
  {
    hide Counted, Quit, StartWave, NodeOk, ReadyIds;
    match s.phase
    case Looping =>
      Between(s);
      if GraphDone(s.graph) || s.cancelled {
        PhaseCounts(base, s, MainStep(s));
      } else if s.clock > s.deadline {
        QuitCounts(base, s, MissionTimeout);
      } else if ReadyIds(s.graph) == {} {
        QuitCounts(base, s, BlockedNote);
      } else {
        StartCounts(base, s);
      }
    case InWave(workers) => if AllReturned(workers) { PhaseCounts(base, s, MainStep(s)); }
    case Leaving => PhaseCounts(base, s, MainStep(s));
    case Ended(_) =>
  }

  lemma OutsideCounts(base: Counters, s: Sys, t: Sys)
    requires Counted(base, s) && t.graph == s.graph && t.phase == s.phase && t.counters == s.counters
    ensures Counted(base, t)
  {
    assert Begun(t) == Begun(s);
  }

  lemma NextCounts(base: Counters, env: Env, s: Sys, e: Event)
    requires Contract(env) && Inv(s) && Counted(base, s)
    ensures Counted(base, Next(env, s, e))
  {
    hide MainStep, MoveTask, Inv, Counted;
    match e
    case Advance => MainCounts(base, s);
    case Move(id) => MoveCounts(base, env, s, id);
    case Cancel => OutsideCounts(base, s, Next(env, s, e));
    case Tick(_) => OutsideCounts(base, s, Next(env, s, e));
  }

  lemma {:induction false} RunCounts(base: Counters, env: Env, s: Sys, events: seq<Event>)
    requires Contract(env) && Inv(s) && Counted(base, s)
    ensures Counted(base, Run(env, s, events))
    decreases |events|
  {
    hide Inv, Counted, Next;
    if events != [] {
      NextCounts(base, env, s, events[0]);
      NextKeeps(env, s, events[0]);
      RunCounts(base, env, Next(env, s, events[0]), events[1..]);
    }
  }

  // ----- conservation -----

  /** A graph as the planner makes it. */
  ghost predicate Planned(g: Graph) {
    GraphOk(g) && forall id :: id in g.nodes ==> Fresh(g.nodes[id])
  }

  lemma StartIsCounted(base: Counters, s: Sys)
    requires Planned(s.graph) && s.phase.Looping? && s.counters == base
    ensures Inv(s) && Counted(base, s)
  {
    hide GraphOk;
    assert WithReply(s.graph) == {} && Wronged(s.graph) == {} && Begun(s) == {};
  }

  /** Tasks the main thread gave up on without running them. */
  function Skipped(g: Graph): set<Id> {
    set id | id in g.nodes && g.nodes[id].error.Some? && !FromRun(g.nodes[id].error.value)
  }

  /** At a boundary the begun tasks are the replied, the wronged that were not skipped, and the cancelled. */
  lemma BoundarySets(s: Sys)
    requires Inv(s) && !s.phase.InWave?
    ensures Begun(s) + Skipped(s.graph) == WithReply(s.graph) + Wronged(s.graph) + CancelledIds(s.graph)
    ensures Begun(s) !! Skipped(s.graph)
    ensures WithReply(s.graph) !! Wronged(s.graph) && (WithReply(s.graph) + Wronged(s.graph)) !! CancelledIds(s.graph)
  {
    hide GraphOk;
    Between(s);
  }

  /**
   * Conservation, at every moment outside a wave of every run: a scheduled task is counted as completed
   * or as failed, or it is one of those marked cancelled; the other failures are the skipped tasks.
   */
  lemma Conservation(base: Counters, env: Env, s: Sys, events: seq<Event>)
    requires Contract(env) && Planned(s.graph) && s.phase.Looping? && s.counters == base
    ensures
      var t := Run(env, s, events);
      !t.phase.InWave? ==>
        && (t.counters.scheduled - base.scheduled) + |Skipped(t.graph)|
           == (t.counters.completed - base.completed) + (t.counters.failures - base.failures) + |CancelledIds(t.graph)|
        && t.counters.completed - base.completed == |WithReply(t.graph)|
        && t.counters.failures - base.failures == |Wronged(t.graph)|
  {
    StartIsCounted(base, s);
    RunCounts(base, env, s, events);
    RunKeeps(env, s, events);
    var t := Run(env, s, events);
    hide Inv, WithReply, Wronged, Begun, Skipped, CancelledIds, Run, Planned;
    if !t.phase.InWave? {
      BoundarySets(t);
      var b, k := Begun(t), Skipped(t.graph);
      var r, w, c := WithReply(t.graph), Wronged(t.graph), CancelledIds(t.graph);
      assert |b + k| == |b| + |k|;
      assert |r + w + c| == |r| + |w| + |c|;
    }
  }
}
