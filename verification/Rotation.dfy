/** Waves under round-robin: exactly when every interleaving gives their tasks the same candidates. */
module Rotation {
  import opened Sorting
  import opened Text
  import opened Tasks
  import opened Registry
  import opened Attempts
  import opened Protocol
  import opened Safety
  import opened Lists
  import opened Counting
  import opened Progress
  import opened Confluence
  import opened Interleavings

  /** The task's first candidate is picked in turn among two agents or more. */
  predicate TakesTurn(env: Env, task: Task) {
    task.preferred == "" && task.capability != "" && |ForCapability(env.manifests, task.capability)| >= 2
  }

  /** No two tasks that are ready take turns at the same capability. */
  ghost predicate NoSharedTurn(env: Env, g: Graph) {
    forall w, v :: w in ReadyIds(g) && v in ReadyIds(g) && w != v ==> !ShareTurn(env, g, w, v)
  }

  predicate ShareTurn(env: Env, g: Graph, w: Id, v: Id)
    requires w in g.nodes && v in g.nodes
  {
    && TakesTurn(env, g.nodes[w].task) && TakesTurn(env, g.nodes[v].task)
    && g.nodes[w].task.capability == g.nodes[v].task.capability
  }

  /** The lists of a wave's tasks with the counters that the wave starts with. */
  function WaveLists(env: Env, s: Sys): map<Id, seq<Name>> {
    map id | id in ReadyIds(s.graph) :: CandidatesAt(env, s.rr, 0, s.graph.nodes[id].task).0
  }

  // ----- turns not shared -----

  /** A list depends on its own counter only, and on that only where there is a choice. */
  lemma ListByTurn(env: Env, task: Task, rr: map<string, nat>, k: nat, rr': map<string, nat>, k': nat)
    requires env.policy.RoundRobin?
    requires TakesTurn(env, task) ==> Count(rr, task.capability) == Count(rr', task.capability)
    ensures CandidatesAt(env, rr, k, task).0 == CandidatesAt(env, rr', k', task).0
  {
    if !TakesTurn(env, task) {
      if task.preferred != "" {
        PreferredIsFixed(env, task);
      } else if task.capability != "" {
        SoleAgentIsFixed(env, task);
      }
    }
  }

  /** Drawing a list moves the counter of its own capability, and only if the task names no agent. */
  lemma CountersMove(env: Env, task: Task, rr: map<string, nat>, k: nat, cap: string)
    requires env.policy.RoundRobin? && (task.preferred != "" || task.capability != cap)
    ensures Count(CandidatesAt(env, rr, k, task).1, cap) == Count(rr, cap)
  {
    hide ForCapability, FallbacksOf, AppendNew, Distinct;
  }

  lemma CounterOfMove(env: Env, s: Sys, id: Id)
    requires Active(s, id)
    ensures MoveTask(env, s, id).rr ==
      if s.phase.workers[id].Submitted? then CandidatesAt(env, s.rr, s.counters.scheduled, s.graph.nodes[id].task).1
      else s.rr
  {
    hide CandidatesAt, Upstream, Invoke, FollowupsOf, FollowupTask;
  }

  /** The counters that tasks still to begin will read are as they were when the wave started. */
  ghost predicate TurnsKept(env: Env, s0: Sys, s: Sys) {
    && s0.phase.InWave? && s.phase.InWave? && s.phase.workers.Keys == s0.phase.workers.Keys
    && forall id :: Active(s0, id) ==>
         && Active(s, id) && s.graph.nodes[id].task == s0.graph.nodes[id].task
         && (s.phase.workers[id].Submitted? ==> TurnKept(env, s0, s, s0.graph.nodes[id].task))
  }

  predicate TurnKept(env: Env, s0: Sys, s: Sys, task: Task) {
    TakesTurn(env, task) ==> Count(s.rr, task.capability) == Count(s0.rr, task.capability)
  }

  ghost predicate NoSharedTurnIn(env: Env, s0: Sys) {
    forall w, v :: Active(s0, w) && Active(s0, v) && w != v ==> !ShareTurn(env, s0.graph, w, v)
  }

  /** The mover itself is past its submission, its task the same. */
  lemma MoverMoves(env: Env, s: Sys, mover: Id)
    requires Contract(env) && Inv(s) && Active(s, mover)
    ensures
      var t := MoveTask(env, s, mover);
      && Active(t, mover) && t.phase.workers.Keys == s.phase.workers.Keys
      && t.graph.nodes[mover].task == s.graph.nodes[mover].task && !t.phase.workers[mover].Submitted?
  {
    hide MoveTask, Contract, WorkerOk, ExitOk;
    MovedKeys(env, s, mover);
    MoveKeeps(env, s, mover);
    MoverBegun(env, s, mover);
    hide Inv, HasBegun;
    NotSubmitted(MoveTask(env, s, mover), mover);
  }

  lemma MoveTurns(env: Env, s0: Sys, s: Sys, mover: Id)
    requires Contract(env) && env.policy.RoundRobin? && Inv(s) && NoSharedTurnIn(env, s0) && TurnsKept(env, s0, s)
    requires Active(s, mover) && Active(s0, mover)
    ensures TurnsKept(env, s0, MoveTask(env, s, mover))
  {
    var t := MoveTask(env, s, mover);
    MoverMoves(env, s, mover);
    CounterOfMove(env, s, mover);
    hide Inv, Contract, MoveTask, CandidatesAt, TakesTurn;
    forall id | Active(s0, id)
      ensures Active(t, id) && t.graph.nodes[id].task == s0.graph.nodes[id].task
      ensures t.phase.workers[id].Submitted? ==> TurnKept(env, s0, t, s0.graph.nodes[id].task)
    {
      if id != mover {
        MoveIsLocal(env, s, mover, id);
        if s.phase.workers[mover].Submitted? && TakesTurn(env, s0.graph.nodes[id].task) {
          NotItsTurn(env, s0, id, mover);
          CountersMove(env, s.graph.nodes[mover].task, s.rr, s.counters.scheduled, s0.graph.nodes[id].task.capability);
        }
      }
    }
  }

  lemma NotItsTurn(env: Env, s0: Sys, id: Id, mover: Id)
    requires NoSharedTurnIn(env, s0) && Active(s0, id) && Active(s0, mover) && id != mover
             && TakesTurn(env, s0.graph.nodes[id].task)
    ensures
      var task, other := s0.graph.nodes[id].task, s0.graph.nodes[mover].task;
      other.preferred != "" || other.capability != task.capability
  {
    assert !ShareTurn(env, s0.graph, id, mover);
  }

  ghost predicate ListsOf(env: Env, lists: map<Id, seq<Name>>, s0: Sys) {
    forall id :: Active(s0, id) ==> id in lists && lists[id] == CandidatesAt(env, s0.rr, 0, s0.graph.nodes[id].task).0
  }

  lemma DrawsAsListed(env: Env, lists: map<Id, seq<Name>>, s0: Sys, s: Sys, id: Id)
    requires env.policy.RoundRobin? && TurnsKept(env, s0, s) && ListsOf(env, lists, s0)
    requires Active(s0, id) && Active(s, id) && s.phase.workers[id].Submitted?
    ensures id in lists && lists[id] == DrawnBy(env, s, id)
  {
    var task := s0.graph.nodes[id].task;
    assert TurnKept(env, s0, s, task);
    hide CandidatesAt, TakesTurn;
    ListByTurn(env, task, s.rr, s.counters.scheduled, s0.rr, 0);
  }

  lemma NextTurns(env: Env, lists: map<Id, seq<Name>>, s0: Sys, s: Sys, e: Event)
    requires Contract(env) && env.policy.RoundRobin? && Inv(s0) && Inv(s) && NoSharedTurnIn(env, s0)
    requires TurnsKept(env, s0, s) && ListsOf(env, lists, s0) && (e.Move? || e.Tick?)
    ensures TurnsKept(env, s0, Next(env, s, e)) && Draws(env, lists, s, e)
  {
    hide Inv, Contract, MoveTask, NoSharedTurnIn, ListsOf, TurnsKept, DrawnBy;
    if !e.Move? {
      TickTurns(env, s0, s, e.ms);
    } else if !Active(s, e.id) {
      StaysPut(env, s, e.id);
    } else {
      StartedActive(env, s0, s, e.id);
      MoveTurns(env, s0, s, e.id);
      if Begins(s, e) { DrawsAsListed(env, lists, s0, s, e.id); }
    }
  }

  lemma TickTurns(env: Env, s0: Sys, s: Sys, ms: nat)
    requires TurnsKept(env, s0, s)
    ensures TurnsKept(env, s0, Next(env, s, Tick(ms)))
  {
    hide TakesTurn;
  }

  lemma StartedActive(env: Env, s0: Sys, s: Sys, id: Id)
    requires Inv(s0) && TurnsKept(env, s0, s) && Active(s, id)
    ensures Active(s0, id)
  {
    hide GraphOk, NodeOk, TakesTurn;
  }

  lemma {:induction false} RunTurns(env: Env, lists: map<Id, seq<Name>>, s0: Sys, s: Sys, events: seq<Event>)
    requires Contract(env) && env.policy.RoundRobin? && Inv(s0) && Inv(s) && NoSharedTurnIn(env, s0)
             && TurnsKept(env, s0, s)
    requires ListsOf(env, lists, s0) && WaveEvents(events)
    ensures AsDrawn(env, lists, s, events)
    decreases |events|
  {
    if events != [] {
      var e, t := events[0], Next(env, s, events[0]);
      NextKeeps(env, s, e);
      NextTurns(env, lists, s0, s, e);
      hide Inv, Contract, Next, CandidatesAt, TurnsKept, NoSharedTurnIn;
      RunTurns(env, lists, s0, t, events[1..]);
    }
  }

  lemma StartsTurns(env: Env, s: Sys)
    requires s.phase.Looping? && NoSharedTurn(env, s.graph)
    ensures
      var s0 := StartWave(s);
      ListsOf(env, WaveLists(env, s), s0) && NoSharedTurnIn(env, s0) && TurnsKept(env, s0, s0)
  {
    var s0 := StartWave(s);
    hide CandidatesAt, TakesTurn, IsReady;
    assert forall id :: Active(s0, id) ==> id in ReadyIds(s.graph) && s0.graph.nodes[id].task == s.graph.nodes[id].task;
    forall w, v | Active(s0, w) && Active(s0, v) && w != v ensures !ShareTurn(env, s0.graph, w, v) {
      assert !ShareTurn(env, s.graph, w, v);
    }
  }

  /** Turns that are not shared give every interleaving of the wave the same lists. */
  lemma UnsharedAllDraw(env: Env, s: Sys)
    requires Contract(env) && env.policy.RoundRobin? && Inv(s) && s.phase.Looping? && NoSharedTurn(env, s.graph)
    ensures AllDraw(env, WaveLists(env, s), StartWave(s))
  {
    var s0, lists := StartWave(s), WaveLists(env, s);
    Between(s);
    StartKeeps(s);
    StartsTurns(env, s);
    hide StartWave, WaveLists, ListsOf, NoSharedTurnIn, TurnsKept, AsDrawn, Inv, Contract, WaveEvents;
    forall events | WaveEvents(events) ensures AsDrawn(env, lists, s0, events) {
      RunTurns(env, lists, s0, s0, events);
    }
  }

  // ----- turns shared -----

  /** Two selections in a row for one capability that several agents offer begin with different agents. */
  lemma TurnsDiffer(env: Env, task: Task, rr: map<string, nat>, rr': map<string, nat>, k: nat, k': nat)
    requires env.policy.RoundRobin? && Directory(env.manifests) && TakesTurn(env, task)
    requires Count(rr', task.capability) == Count(rr, task.capability) + 1
    ensures
      var one, two := CandidatesAt(env, rr, k, task).0, CandidatesAt(env, rr', k', task).0;
      one != [] && two != [] && one[0] != two[0]
  {
    var cs := ForCapability(env.manifests, task.capability);
    var names := StableSort(Names(cs), StringLe);
    var c, n := Count(rr, task.capability), |names|;
    ForCapabilityDistinct(env.manifests, task.capability);
    SortKeeps(Names(cs), StringLe);
    CopiesByMultiset(Names(cs), names);
    SameLength(Names(cs), names);
    CandidateList(env.manifests, rr, name => env.load(k, name), env.policy, task);
    CandidateList(env.manifests, rr', name => env.load(k', name), env.policy, task);
    NextPlace(n, c);
    assert (c + 1) % n != c % n;
  }

  lemma SameLength(a: seq<Name>, b: seq<Name>)
    requires multiset(a) == multiset(b)
    ensures |a| == |b|
  {
    assert |multiset(a)| == |a| && |multiset(b)| == |b|;
  }

  /** A task that takes its turn moves its counter by one. */
  lemma TurnTaken(env: Env, task: Task, rr: map<string, nat>, k: nat)
    requires env.policy.RoundRobin? && TakesTurn(env, task)
    ensures Count(CandidatesAt(env, rr, k, task).1, task.capability) == Count(rr, task.capability) + 1
  {
    hide FallbacksOf, AppendNew, Distinct;
  }

  /** The list the second of two tasks draws at its submission, and the one it draws after the first has begun. */
  lemma SecondTurn(env: Env, s: Sys, w: Id, v: Id)
    requires env.policy.RoundRobin? && Directory(env.manifests) && w != v
    requires Active(s, w) && Active(s, v) && s.phase.workers[w].Submitted? && ShareTurn(env, s.graph, w, v)
    ensures
      var t := MoveTask(env, s, w);
      && Active(t, v) && t.phase.workers[v] == s.phase.workers[v]
      && DrawnBy(env, s, v) != [] && DrawnBy(env, t, v) != [] && DrawnBy(env, s, v)[0] != DrawnBy(env, t, v)[0]
  {
    var t := MoveTask(env, s, w);
    MoveIsLocal(env, s, w, v);
    CounterOfMove(env, s, w);
    TurnTaken(env, s.graph.nodes[w].task, s.rr, s.counters.scheduled);
    TurnsDiffer(env, s.graph.nodes[v].task, s.rr, t.rr, s.counters.scheduled, t.counters.scheduled);
    hide MoveTask, CandidatesAt, TakesTurn;
  }

  /**
   * Under round-robin there are lists that every interleaving of a wave draws exactly if no two of its tasks take
   * turns at one capability; they are then those of the counters that the wave starts with.
   */
  lemma RoundRobinDrawsExactly(env: Env, s: Sys)
    requires Contract(env) && env.policy.RoundRobin? && Directory(env.manifests) && Inv(s) && s.phase.Looping?
    ensures (exists lists :: AllDraw(env, lists, StartWave(s))) <==> NoSharedTurn(env, s.graph)
    ensures NoSharedTurn(env, s.graph) ==> AllDraw(env, WaveLists(env, s), StartWave(s))
  {
    if NoSharedTurn(env, s.graph) {
      UnsharedAllDraw(env, s);
    } else {
      var w, v :| w in ReadyIds(s.graph) && v in ReadyIds(s.graph) && w != v && ShareTurn(env, s.graph, w, v);
      if lists :| AllDraw(env, lists, StartWave(s)) { SharedDrawsTwo(env, s, w, v, lists); }
    }
  }

  lemma SharedStarts(env: Env, s: Sys, w: Id, v: Id)
    requires s.phase.Looping? && w in ReadyIds(s.graph) && v in ReadyIds(s.graph) && ShareTurn(env, s.graph, w, v)
    ensures
      var s0 := StartWave(s);
      && Active(s0, w) && Active(s0, v) && s0.phase.workers[w].Submitted? && s0.phase.workers[v].Submitted?
      && ShareTurn(env, s0.graph, w, v)
  {
    hide IsReady, TakesTurn;
  }

  /** A run that begins with a task's submission draws that task's list of the moment. */
  lemma FirstDraws(env: Env, lists: map<Id, seq<Name>>, s: Sys, v: Id, rest: seq<Event>)
    requires Active(s, v) && s.phase.workers[v].Submitted? && AsDrawn(env, lists, s, [Move(v)] + rest)
    ensures v in lists && lists[v] == DrawnBy(env, s, v)
    ensures AsDrawn(env, lists, MoveTask(env, s, v), rest)
  {
    hide DrawnBy, MoveTask;
    assert ([Move(v)] + rest)[1..] == rest;
  }

  lemma SharedDrawsTwo(env: Env, s: Sys, w: Id, v: Id, lists: map<Id, seq<Name>>)
    requires env.policy.RoundRobin? && Directory(env.manifests) && s.phase.Looping? && w != v
    requires w in ReadyIds(s.graph) && v in ReadyIds(s.graph) && ShareTurn(env, s.graph, w, v)
    ensures !AllDraw(env, lists, StartWave(s))
  {
    var s0 := StartWave(s);
    SharedStarts(env, s, w, v);
    SecondTurn(env, s0, w, v);
    hide ShareTurn, StartWave, MoveTask, DrawnBy, AsDrawn;
    var one, two := [Move(v)] + [], [Move(w)] + ([Move(v)] + []);
    assert WaveEvents(one) && WaveEvents(two);
    if AsDrawn(env, lists, s0, one) && AsDrawn(env, lists, s0, two) {
      FirstDraws(env, lists, s0, v, []);
      FirstDraws(env, lists, s0, w, [Move(v)] + []);
      FirstDraws(env, lists, MoveTask(env, s0, w), v, []);
      assert false;
    }
  }
}
