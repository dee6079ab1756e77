/**
 * What every run says about who was tried and how often: the tries of a task against the list it
 * drew, and why a task that was not tried was not.
 */
module Ledger {
  import opened Options
  import opened Tasks
  import opened Attempts
  import opened Protocol
  import opened Safety
  import opened Counting
  import opened Lists
  import opened Prediction

  // ----- one task -----

  /** A task in its loop: `agents` are left, the first of them tried `attempt` times. */
  ghost predicate LoopOk(env: Env, list: seq<Name>, up: map<Id, Reply>, n: Node, agents: seq<Name>, attempt: nat) {
    && attempt <= Rounds(n.task) && (agents == [] ==> attempt == 0) && (forall a :: a in agents ==> a in list)
    && n.attempts + TriesLeft(|agents|, Rounds(n.task), attempt) <= |list| * Rounds(n.task)
    && (!SomeUnavailable(env, list, n.task, up, n.attempts) ==>
          n.attempts + TriesLeft(|agents|, Rounds(n.task), attempt) == |list| * Rounds(n.task))
    && (n.attempts > 0 || (agents == list && attempt == 0) || n.task.maxRetries < 0)
  }

  /**
   * A task that is through: tried at most as often as its list allows, and if it failed with everybody available,
   * exactly so.
   */
  ghost predicate SpentOk(env: Env, list: seq<Name>, up: map<Id, Reply>, n: Node) {
    && n.attempts <= |list| * Rounds(n.task)
    && (n.result.None? && n.error.Some? && AttemptNote(n.error.value)
        && !SomeUnavailable(env, list, n.task, up, n.attempts)
        ==> n.attempts == |list| * Rounds(n.task))
    && (n.error != Some(CancelledNote) && list != [] && n.task.maxRetries >= 0 ==> n.attempts > 0)
    && EndsAsCalled(env, list, up, n)
  }

  /** It ended as its last call did. */
  ghost predicate EndsAsCalled(env: Env, list: seq<Name>, up: map<Id, Reply>, n: Node) {
    && AnsweredInTime(env, list, up, n)
    && (n.result.None? && n.error.Some? && AttemptNote(n.error.value)
        ==> NotesLastCall(env, list, up, n, n.error.value))
  }

  ghost predicate WorkerBooked(env: Env, list: seq<Name>, up: map<Id, Reply>, n: Node, w: Worker) {
    match w
    case Submitted => true
    case AtLoop(_, agents, attempt, last) =>
      LoopOk(env, list, up, n, agents, attempt) && NotesLastCall(env, list, up, n, last)
    case Checked(_, agents, attempt, _) => LoopOk(env, list, up, n, agents, attempt) && agents != []
      && attempt <= n.task.maxRetries
    case Calling(_, agents, attempt, _) =>
      && agents != [] && attempt <= n.task.maxRetries && LoopOk(env, list, up, n, agents, attempt + 1)
      && n.agent == Some(agents[0]) && n.attempts > 0
    case Spawning(_, _) => SpentOk(env, list, up, n)
    case Returned => SpentOk(env, list, up, n)
  }

  /** One more try of the first agent. */
  lemma LoopTried(env: Env, list: seq<Name>, up: map<Id, Reply>, n: Node, agents: seq<Name>, attempt: nat)
    requires LoopOk(env, list, up, n, agents, attempt) && agents != [] && attempt <= n.task.maxRetries
    ensures LoopOk(env, list, up, Attempted(n, agents[0]), agents, attempt + 1)
  {
  }

  /** On to the next agent: nothing is left of this one's tries, or it was unavailable. */
  lemma LoopSkipped(env: Env, list: seq<Name>, up: map<Id, Reply>, n: Node, agents: seq<Name>, attempt: nat)
    requires LoopOk(env, list, up, n, agents, attempt) && agents != []
    requires attempt == Rounds(n.task) || SomeUnavailable(env, list, n.task, up, n.attempts)
    requires n.attempts > 0 || n.task.maxRetries < 0
    ensures LoopOk(env, list, up, n, agents[1..], 0)
  {
    Product(|agents|, Rounds(n.task));
  }

  /** The agent just asked was one of the list, at the attempt just made. */
  lemma AskedOfList(env: Env, list: seq<Name>, up: map<Id, Reply>, n: Node, agents: seq<Name>, attempt: nat)
    requires LoopOk(env, list, up, n, agents, attempt) && agents != []
    ensures agents[0] in list
  {
  }

  lemma WasUnavailable(env: Env, list: seq<Name>, up: map<Id, Reply>, n: Node, agents: seq<Name>, attempt: nat)
    requires LoopOk(env, list, up, n, agents, attempt) && agents != [] && attempt > 0
    requires Invoke(env, agents[0], n.task, up, n.attempts).outcome.Unavailable?
    ensures SomeUnavailable(env, list, n.task, up, n.attempts)
  {
    assert agents[0] in list && UnavailableAt(env, agents[0], n.task, up, n.attempts);
  }

  /** A task that ends here, replied or given up, has spent no more than its list allows. */
  lemma LoopEnds(env: Env, list: seq<Name>, up: map<Id, Reply>, n: Node, agents: seq<Name>, attempt: nat, m: Node)
    requires LoopOk(env, list, up, n, agents, attempt) && m.task == n.task && m.attempts == n.attempts
    requires m.result.Some? || m.error == Some(CancelledNote) || agents == []
    requires m.result.Some? ==> n.attempts > 0
    requires EndsAsCalled(env, list, up, m)
    ensures SpentOk(env, list, up, m)
  {
    hide AnsweredInTime, NotesLastCall;
    if agents != [] { TriesLeftCounts(|agents|, Rounds(n.task), attempt); }
  }

  lemma TriesLeftCounts(c: nat, rounds: nat, attempt: nat)
    requires c > 0 && attempt <= rounds
    ensures TriesLeft(c, rounds, attempt) >= 0
  {
    Product(c, rounds);
    Nonnegative(c - 1, rounds);
  }

  lemma BeginBooked(env: Env, list: seq<Name>, up: map<Id, Reply>, n: Node)
    requires n == FreshNode(n.task).(status := Running)
    ensures LoopOk(env, list, up, n, list, 0) && NotesLastCall(env, list, up, n, NoAgent)
  {
  }

  /** A task that fails, given up or cancelled, keeps the note of its last call. */
  lemma FailsAsCalled(env: Env, list: seq<Name>, up: map<Id, Reply>, n: Node, last: Note)
    requires n.result.None? && NotesLastCall(env, list, up, n, last)
    ensures EndsAsCalled(env, list, up, FailedFor(n, last)) && EndsAsCalled(env, list, up, FailedFor(n, CancelledNote))
  {
  }

  // ----- the invariant -----

  /** Why a node that was not tried is as it is. */
  ghost predicate SkippedOk(s: Sys, n: Node) {
    && n.attempts == 0
    && (n.error == Some(BlockedNote) ==> (s.phase.Leaving? || s.phase.Ended?) && !DepsDone(s.graph, n.task))
  }

  ghost predicate BookedAt(env: Env, lists: map<Id, seq<Name>>, s: Sys, id: Id)
    requires id in s.graph.nodes
  {
    var n := s.graph.nodes[id];
    var up := Upstream(s.graph, n.task);
    if !HasBegun(s, id) then SkippedOk(s, n)
    else
      && id in lists && DepsDone(s.graph, n.task)
      && if Active(s, id) then WorkerBooked(env, lists[id], up, n, s.phase.workers[id])
         else SpentOk(env, lists[id], up, n)
  }

  ghost predicate Booked(env: Env, lists: map<Id, seq<Name>>, s: Sys) {
    forall id :: id in s.graph.nodes ==> BookedAt(env, lists, s, id)
  }

  lemma PlannedBooked(env: Env, lists: map<Id, seq<Name>>, s: Sys)
    requires Planned(s.graph) && s.phase.Looping?
    ensures Inv(s) && Booked(env, lists, s)
  {
    hide GraphOk, DepsDone, Upstream;
  }

  // ----- a task's own step -----

  lemma BeginOwn(env: Env, lists: map<Id, seq<Name>>, s: Sys, id: Id)
    requires Inv(s) && Active(s, id) && s.phase.workers[id].Submitted? && Draws(env, lists, s, Move(id))
    ensures BookedAt(env, lists, MoveTask(env, s, id), id)
  {
    hide GraphOk, Upstream, DepsDone, CandidatesAt, LoopOk;
    assert NodeOk(s, id);
    BeginBooked(env, lists[id], Upstream(s.graph, s.graph.nodes[id].task), s.graph.nodes[id]);
  }

  lemma LoopHeadOwn(env: Env, lists: map<Id, seq<Name>>, s: Sys, id: Id)
    requires Inv(s) && Active(s, id) && s.phase.workers[id].AtLoop? && BookedAt(env, lists, s, id)
    ensures
      var t, n := LoopHead(env, s, id), s.graph.nodes[id];
      && Active(t, id) && t.graph.nodes[id].task == n.task
      && WorkerBooked(env, lists[id], Upstream(s.graph, n.task), t.graph.nodes[id], t.phase.workers[id])
  {
    hide GraphOk, Upstream, DepsDone, LoopOk, SpentOk;
    assert NodeOk(s, id);
    hide NodeOk;
    var n, w, up := s.graph.nodes[id], s.phase.workers[id], Upstream(s.graph, s.graph.nodes[id].task);
    var t := LoopHead(env, s, id);
    hide NotesLastCall, AnsweredInTime, EndsAsCalled;
    FailsAsCalled(env, lists[id], up, n, w.last);
    if w.agents == [] {
      LoopEnds(env, lists[id], up, n, w.agents, w.attempt, t.graph.nodes[id]);
    } else if w.attempt > n.task.maxRetries {
      LoopFull(env, lists[id], up, n, w.agents, w.attempt);
      LoopSkipped(env, lists[id], up, n, w.agents, w.attempt);
    } else if s.cancelled {
      LoopEnds(env, lists[id], up, n, w.agents, w.attempt, t.graph.nodes[id]);
    }
  }

  /** An agent with no try left has had all of them. */
  lemma LoopFull(env: Env, list: seq<Name>, up: map<Id, Reply>, n: Node, agents: seq<Name>, attempt: nat)
    requires LoopOk(env, list, up, n, agents, attempt) && attempt > n.task.maxRetries
    ensures attempt == Rounds(n.task) && (n.attempts > 0 || n.task.maxRetries < 0)
  {
  }

  lemma CheckedOwn(env: Env, lists: map<Id, seq<Name>>, s: Sys, id: Id)
    requires Inv(s) && Active(s, id) && s.phase.workers[id].Checked? && BookedAt(env, lists, s, id)
    ensures
      var t, n := MoveTask(env, s, id), s.graph.nodes[id];
      && Active(t, id) && t.graph.nodes[id].task == n.task
      && WorkerBooked(env, lists[id], Upstream(s.graph, n.task), t.graph.nodes[id], t.phase.workers[id])
  {
    hide GraphOk, Upstream, DepsDone, LoopOk, SpentOk, NodeOk, Begin, LoopHead, Answer, Spawn;
    var n, w := s.graph.nodes[id], s.phase.workers[id];
    LoopTried(env, lists[id], Upstream(s.graph, n.task), n, w.agents, w.attempt);
  }

  lemma AnswerOwn(env: Env, lists: map<Id, seq<Name>>, s: Sys, id: Id)
    requires Inv(s) && Active(s, id) && s.phase.workers[id].Calling? && s.phase.workers[id].agents != []
             && BookedAt(env, lists, s, id)
    ensures
      var t, n := Answer(env, s, id), s.graph.nodes[id];
      && Active(t, id) && t.graph.nodes[id].task == n.task
      && WorkerBooked(env, lists[id], Upstream(s.graph, n.task), t.graph.nodes[id], t.phase.workers[id])
  {
    hide GraphOk, Upstream, DepsDone, LoopOk, SpentOk, FollowupsOf, Invoke;
    assert NodeOk(s, id);
    var n, w, up := s.graph.nodes[id], s.phase.workers[id], Upstream(s.graph, s.graph.nodes[id].task);
    var c := Invoke(env, w.agents[0], n.task, w.up, n.attempts);
    hide NotesLastCall, AnsweredInTime;
    assert w.agents[0] in lists[id] by { AskedOfList(env, lists[id], up, n, w.agents, w.attempt + 1); }
    if c.outcome.Replied? {
      ReplyWasInTime(env, lists[id], up, n, w.agents[0], c.outcome.reply);
      LoopEnds(env, lists[id], up, n, w.agents, w.attempt + 1, Answered(n, c.outcome.reply));
    } else {
      FailureIsNoted(env, lists[id], up, n, w.agents[0]);
      if c.outcome.Unavailable? {
        WasUnavailable(env, lists[id], up, n, w.agents, w.attempt + 1);
        LoopSkipped(env, lists[id], up, n, w.agents, w.attempt + 1);
      }
    }
  }

  lemma SpawnOwn(env: Env, lists: map<Id, seq<Name>>, s: Sys, id: Id)
    requires Inv(s) && Active(s, id) && s.phase.workers[id].Spawning? && BookedAt(env, lists, s, id)
    ensures
      var t, n := Spawn(env, s, id), s.graph.nodes[id];
      && Active(t, id) && t.graph.nodes[id].task == n.task
      && WorkerBooked(env, lists[id], Upstream(s.graph, n.task), t.graph.nodes[id], t.phase.workers[id])
  {
    hide GraphOk, Upstream, DepsDone, LoopOk, SpentOk, NodeOk, FollowupTask;
  }

  /** A task's own step keeps its book. */
  lemma OwnBooked(env: Env, lists: map<Id, seq<Name>>, s: Sys, id: Id)
    requires Contract(env) && Inv(s) && Active(s, id) && BookedAt(env, lists, s, id) && Draws(env, lists, s, Move(id))
    ensures id in MoveTask(env, s, id).graph.nodes && BookedAt(env, lists, MoveTask(env, s, id), id)
  {
    if s.phase.workers[id].Submitted? {
      MoverBegun(env, s, id);
      BeginOwn(env, lists, s, id);
    } else {
      OwnWorker(env, lists, s, id);
      MoverBegun(env, s, id);
      MoveKeeps(env, s, id);
      BookedHasBegun(env, lists, s, id);
      var task := s.graph.nodes[id].task;
      hide Inv, HasBegun, WorkerBooked, SpentOk, DepsDone, Upstream, MoveTask, Grows;
      DepsStay(s, MoveTask(env, s, id).graph, task);
    }
  }

  lemma BookedHasBegun(env: Env, lists: map<Id, seq<Name>>, s: Sys, id: Id)
    requires Active(s, id) && !s.phase.workers[id].Submitted? && BookedAt(env, lists, s, id)
    ensures id in lists && DepsDone(s.graph, s.graph.nodes[id].task)
  {
    hide DepsDone;
  }

  lemma OwnWorker(env: Env, lists: map<Id, seq<Name>>, s: Sys, id: Id)
    requires Contract(env) && Inv(s) && Active(s, id) && BookedAt(env, lists, s, id) && !s.phase.workers[id].Submitted?
    ensures
      var t, n := MoveTask(env, s, id), s.graph.nodes[id];
      && id in lists && Active(t, id) && t.graph.nodes[id].task == n.task
      && WorkerBooked(env, lists[id], Upstream(s.graph, n.task), t.graph.nodes[id], t.phase.workers[id])
  {
    BookedHasBegun(env, lists, s, id);
    var w := s.phase.workers[id];
    if w.Returned? || (w.Calling? && w.agents == []) {
      assert MoveTask(env, s, id) == s;
      hide Inv, WorkerBooked, Upstream, DepsDone;
    } else {
      hide Inv, BookedAt, WorkerBooked, Upstream, DepsDone, Answer, Spawn, LoopHead, Begin;
      match w
      case AtLoop(_, _, _, _) => LoopHeadOwn(env, lists, s, id);
      case Checked(_, _, _, _) => CheckedOwn(env, lists, s, id);
      case Calling(_, _, _, _) => AnswerOwn(env, lists, s, id);
      case Spawning(_, _) => SpawnOwn(env, lists, s, id);
    }
  }

  // ----- other steps -----

  /** A node that stays, with its place, keeps its book while the graph grows. */
  lemma SameBooked(env: Env, lists: map<Id, seq<Name>>, s: Sys, t: Sys, id: Id)
    requires Inv(s) && Grows(s.graph, t.graph) && id in s.graph.nodes && BookedAt(env, lists, s, id)
    requires id in t.graph.nodes && t.graph.nodes[id] == s.graph.nodes[id]
    requires Active(s, id) <==> Active(t, id)
    requires Active(s, id) ==> t.phase.workers[id] == s.phase.workers[id]
    requires (s.phase.Leaving? || s.phase.Ended?) ==> (t.phase.Leaving? || t.phase.Ended?) && t.graph == s.graph
    ensures BookedAt(env, lists, t, id)
  {
    var task := s.graph.nodes[id].task;
    assert HasBegun(s, id) <==> HasBegun(t, id);
    if HasBegun(s, id) {
      hide Inv, HasBegun, WorkerBooked, SpentOk, DepsDone, Upstream, Grows;
      DepsStay(s, t.graph, task);
    } else {
      hide Inv, HasBegun, WorkerBooked, SpentOk, DepsDone, Upstream, Grows;
    }
  }

  lemma MoveBooked(env: Env, lists: map<Id, seq<Name>>, s: Sys, mover: Id)
    requires Contract(env) && Inv(s) && Booked(env, lists, s) && Draws(env, lists, s, Move(mover))
    ensures Booked(env, lists, MoveTask(env, s, mover))
  {
    var t := MoveTask(env, s, mover);
    MoveKeeps(env, s, mover);
    if Active(s, mover) {
      OwnBooked(env, lists, s, mover);
      hide Inv, BookedAt, MoveTask, Contract, Draws;
      forall id | id in t.graph.nodes && id != mover ensures BookedAt(env, lists, t, id) {
        if id in s.graph.nodes {
          MoveIsLocal(env, s, mover, id);
          SameBooked(env, lists, s, t, id);
        } else {
          NewBooked(env, lists, s, mover, id);
        }
      }
    } else {
      assert t == s;
    }
  }

  /** A follow-up enters unbegun. */
  lemma NewBooked(env: Env, lists: map<Id, seq<Name>>, s: Sys, mover: Id, id: Id)
    requires Inv(s) && Active(s, mover) && id in MoveTask(env, s, mover).graph.nodes && id !in s.graph.nodes
    ensures BookedAt(env, lists, MoveTask(env, s, mover), id)
  {
    hide GraphOk, NodeOk, Upstream, CandidatesAt, FollowupTask, Invoke, FollowupsOf, DepsDone, WorkerBooked, SpentOk;
  }

  /** When a wave starts, its tasks have not begun, and the others stay as they are. */
  lemma StartBooked(env: Env, lists: map<Id, seq<Name>>, s: Sys)
    requires Inv(s) && s.phase.Looping? && Booked(env, lists, s)
    ensures Booked(env, lists, StartWave(s))
  {
    var t := StartWave(s);
    Between(s);
    StartKeeps(s);
    forall id | id in t.graph.nodes ensures BookedAt(env, lists, t, id) {
      if id in ReadyIds(s.graph) {
        ReadyUnbegun(s, id);
        hide Upstream, DepsDone, WorkerBooked, SpentOk, IsReady;
      } else {
        assert t.graph.nodes[id] == s.graph.nodes[id];
        hide StartWave, BookedAt, Inv, Grows;
        SameBooked(env, lists, s, t, id);
      }
    }
  }

  lemma ReadyUnbegun(s: Sys, id: Id)
    requires Boundary(s.graph) && s.phase.Looping? && id in ReadyIds(s.graph)
    ensures
      var t := StartWave(s);
      id in t.graph.nodes && !HasBegun(t, id)
        && t.graph.nodes[id] == FreshNode(s.graph.nodes[id].task).(status := Running)
  {
    hide GraphOk, DepsDone;
  }

  /** What the main thread gives up on was not begun; blocked means that some dependency did not succeed. */
  lemma QuitBooked(env: Env, lists: map<Id, seq<Name>>, s: Sys, note: Note)
    requires Inv(s) && s.phase.Looping? && Booked(env, lists, s)
    requires note == MissionTimeout || (note == BlockedNote && ReadyIds(s.graph) == {})
    ensures Booked(env, lists, Quit(s, note))
  {
    var t := Quit(s, note);
    Between(s);
    QuitKeeps(s, note);
    forall id | id in t.graph.nodes ensures BookedAt(env, lists, t, id) {
      if Fresh(s.graph.nodes[id]) {
        GivenUp(s, note, id);
        hide Upstream, DepsDone, WorkerBooked, SpentOk;
      } else {
        QuitSettles(s, note, id);
        hide Quit, BookedAt, Inv, Grows;
        SameBooked(env, lists, s, t, id);
      }
    }
  }

  lemma GivenUp(s: Sys, note: Note, id: Id)
    requires Boundary(s.graph) && s.phase.Looping? && id in s.graph.nodes && Fresh(s.graph.nodes[id])
    requires note == MissionTimeout || (note == BlockedNote && ReadyIds(s.graph) == {})
    ensures
      var t := Quit(s, note);
      && id in t.graph.nodes && !HasBegun(t, id) && t.graph.nodes[id].attempts == 0
      && t.graph.nodes[id].task == s.graph.nodes[id].task
      && (note == BlockedNote ==> !DepsDone(t.graph, s.graph.nodes[id].task))
  {
    hide GraphOk;
    if note == BlockedNote {
      assert id !in ReadyIds(s.graph);
      var dep :| dep in s.graph.nodes[id].task.dependsOn && !Done(s.graph, dep);
      assert !Done(Quit(s, note).graph, dep);
    }
  }

  /** Leaving a wave: those that have returned are through. */
  lemma LeaveWaveBooked(env: Env, lists: map<Id, seq<Name>>, s: Sys)
    requires Inv(s) && s.phase.InWave? && AllReturned(s.phase.workers) && Booked(env, lists, s)
    ensures Booked(env, lists, s.(phase := Looping))
  {
    var t := s.(phase := Looping);
    GrowsSelf(s.graph);
    forall id | id in t.graph.nodes ensures BookedAt(env, lists, t, id) {
      assert BookedAt(env, lists, s, id);
      if Active(s, id) {
        assert NodeOk(s, id);
        hide GraphOk, Upstream, DepsDone, SpentOk;
      } else {
        hide BookedAt, Inv, Grows;
        SameBooked(env, lists, s, t, id);
      }
    }
  }

  lemma SameGraphBooked(env: Env, lists: map<Id, seq<Name>>, s: Sys, t: Sys)
    requires Inv(s) && Booked(env, lists, s) && t.graph == s.graph
    requires (s.phase.InWave? || t.phase.InWave?) ==> t.phase == s.phase
    requires (s.phase.Leaving? || s.phase.Ended?) ==> (t.phase.Leaving? || t.phase.Ended?)
    ensures Booked(env, lists, t)
  {
    GrowsSelf(s.graph);
    forall id | id in t.graph.nodes ensures BookedAt(env, lists, t, id) {
      hide BookedAt, Inv, Grows;
      SameBooked(env, lists, s, t, id);
    }
  }

  lemma MainBooked(env: Env, lists: map<Id, seq<Name>>, s: Sys)
    requires Inv(s) && Booked(env, lists, s)
    ensures Booked(env, lists, MainStep(s))
  {
    hide Inv, Booked, Quit, StartWave, ReadyIds, GraphDone, AllReturned;
    match s.phase
    case Looping =>
      if GraphDone(s.graph) || s.cancelled {
        SameGraphBooked(env, lists, s, MainStep(s));
      } else if s.clock > s.deadline {
        QuitBooked(env, lists, s, MissionTimeout);
      } else if ReadyIds(s.graph) == {} {
        QuitBooked(env, lists, s, BlockedNote);
      } else {
        StartBooked(env, lists, s);
      }
    case InWave(workers) => if AllReturned(workers) { LeaveWaveBooked(env, lists, s); }
    case Leaving => SameGraphBooked(env, lists, s, MainStep(s));
    case Ended(_) =>
  }

  lemma NextBooked(env: Env, lists: map<Id, seq<Name>>, s: Sys, e: Event)
    requires Contract(env) && Inv(s) && Booked(env, lists, s) && Draws(env, lists, s, e)
    ensures Booked(env, lists, Next(env, s, e))
  {
    hide MainStep, MoveTask, Inv, Booked, Draws;
    match e
    case Advance => MainBooked(env, lists, s);
    case Move(id) => MoveBooked(env, lists, s, id);
    case Cancel => SameGraphBooked(env, lists, s, Next(env, s, e));
    case Tick(_) => SameGraphBooked(env, lists, s, Next(env, s, e));
  }

  lemma {:induction false} RunBooked(env: Env, lists: map<Id, seq<Name>>, s: Sys, events: seq<Event>)
    requires Contract(env) && Inv(s) && Booked(env, lists, s) && AsDrawn(env, lists, s, events)
    ensures Booked(env, lists, Run(env, s, events))
    decreases |events|
  {
    hide Inv, Booked, Next, Draws, Contract;
    if events != [] {
      NextBooked(env, lists, s, events[0]);
      NextKeeps(env, s, events[0]);
      RunBooked(env, lists, Next(env, s, events[0]), events[1..]);
    }
  }

  /**
   * One call by the agent's own account. If it overran the deadline it leaves no result and counts as a timeout, and
   * the same agent's tries go on; otherwise a reply is taken with its follow-ups, an unavailable agent is left, and
   * any other failure is noted as what it was.
   */
  lemma CallEnds(env: Env, s: Sys, id: Id)
    requires Active(s, id) && s.phase.workers[id].Calling? && s.phase.workers[id].agents != []
    ensures
      var w, n, t := s.phase.workers[id], s.graph.nodes[id], Next(env, s, Move(id));
      var agent, c := w.agents[0], env.call(w.agents[0], n.task, w.up, n.attempts);
      && Active(t, id)
      && (t.graph.nodes[id], t.phase.workers[id])
         == if 0 < n.task.deadlineMs < c.ms then
              (n, AtLoop(w.up, w.agents, w.attempt + 1, AgentTimeout(agent)))
            else match c.outcome
              case Replied(reply) =>
                (n.(result := Some(reply), status := reply.status),
                 Spawning(reply, if reply.nested != [] then reply.nested else reply.outer))
              case TimedOut => (n, AtLoop(w.up, w.agents, w.attempt + 1, AgentTimeout(agent)))
              case Unavailable => (n, AtLoop(w.up, w.agents[1..], 0, AgentUnavailable(agent)))
              case Raised => (n, AtLoop(w.up, w.agents, w.attempt + 1, AgentError(agent)))
  {
    hide LoopHead, Begin, Spawn;
  }

  // ----- every run -----

  /** Whatever a run draws, its ledger is kept. */
  lemma RunIsBooked(env: Env, s: Sys, events: seq<Event>)
    requires Contract(env) && Planned(s.graph) && s.phase.Looping?
    ensures Inv(Run(env, s, events)) && Booked(env, Drawn(env, s, events), Run(env, s, events))
  {
    PlannedBooked(env, Drawn(env, s, events), s);
    hide *;
    DrawnAsDrawn(env, s, events);
    RunBooked(env, Drawn(env, s, events), s, events);
    RunKeeps(env, s, events);
  }

  /**
   * A failed task with tries left: its agent answered `failed`, which is not retried; or the mission was cancelled
   * or gave it up; or some agent of the list it drew is unavailable to it at one of the attempts it made.
   */
  lemma FailedWithTriesLeft(env: Env, s: Sys, events: seq<Event>, id: Id)
    requires Contract(env) && Planned(s.graph) && s.phase.Looping? && id in Run(env, s, events).graph.nodes
    requires
      var n := Run(env, s, events).graph.nodes[id];
      n.status.Failed? && n.attempts < |ListOf(Drawn(env, s, events), id)| * Rounds(n.task)
    ensures
      var t, list := Run(env, s, events), ListOf(Drawn(env, s, events), id);
      var n := t.graph.nodes[id];
      || (n.result.Some? && n.result.value.status.Failed?)
      || (n.error.Some? && !AttemptNote(n.error.value))
      || SomeUnavailable(env, list, n.task, Upstream(t.graph, n.task), n.attempts)
  {
    var t := Run(env, s, events);
    PlannedBooked(env, Drawn(env, s, events), s);
    RunRetryBound(env, s, events, id);
    RunKeeps(env, s, events);
    hide Run, Drawn, SomeUnavailable, Booked, Upstream, DepsDone, GraphOk;
    assert NodeOk(t, id);
  }

  lemma BookedAttempts(env: Env, lists: map<Id, seq<Name>>, s: Sys, id: Id)
    requires Inv(s) && id in s.graph.nodes && BookedAt(env, lists, s, id)
    ensures
      var n, list := s.graph.nodes[id], ListOf(lists, id);
      && n.attempts <= |list| * Rounds(n.task)
      && (n.error.Some? && AttemptNote(n.error.value)
          && !SomeUnavailable(env, list, n.task, Upstream(s.graph, n.task), n.attempts)
          ==> n.attempts == |list| * Rounds(n.task))
  {
    hide GraphOk, DepsDone, Upstream, SomeUnavailable;
    assert NodeOk(s, id);
    var n, list := s.graph.nodes[id], ListOf(lists, id);
    Nonnegative(|list|, Rounds(n.task));
    if Active(s, id) && HasBegun(s, id) {
      var w := s.phase.workers[id];
      match w
      case AtLoop(_, agents, attempt, _) => if agents != [] { TriesLeftCounts(|agents|, Rounds(n.task), attempt); }
      case Checked(_, agents, attempt, _) => TriesLeftCounts(|agents|, Rounds(n.task), attempt);
      case Calling(_, agents, attempt, _) => TriesLeftCounts(|agents|, Rounds(n.task), attempt + 1);
      case Spawning(_, _) =>
      case Returned =>
    }
  }

  /**
   * Retries are bounded in every run, at every moment, under every policy, cancelled or not: a task is tried at
   * most once and `maxRetries` times more for each agent of the list it drew, a list that the selection gave it;
   * and exactly so often if it fails without anybody having been unavailable to it.
   */
  lemma RunRetryBound(env: Env, s: Sys, events: seq<Event>, id: Id)
    requires Contract(env) && Planned(s.graph) && s.phase.Looping? && id in Run(env, s, events).graph.nodes
    ensures
      var t, lists := Run(env, s, events), Drawn(env, s, events);
      var n, list := t.graph.nodes[id], ListOf(lists, id);
      && n.attempts <= |list| * Rounds(n.task)
      && (id in lists ==> Drawable(env, n.task, list))
      && (n.error.Some? && AttemptNote(n.error.value)
          && !SomeUnavailable(env, list, n.task, Upstream(t.graph, n.task), n.attempts)
          ==> n.attempts == |list| * Rounds(n.task))
  {
    PlannedBooked(env, Drawn(env, s, events), s);
    RunIsBooked(env, s, events);
    hide Run, Drawn, Inv, BookedAt, SomeUnavailable, Upstream, Drawable;
    BookedAttempts(env, Drawn(env, s, events), Run(env, s, events), id);
    if id in Drawn(env, s, events) { DrawnAreDrawable(env, s, events, id); }
  }

  /**
   * Results come from the agents, in time, in every run and at every moment: what a task that is through has as its
   * result, an agent of the list it drew replied within the task's deadline, when asked with the results the task
   * depends on; and a task whose tries failed carries the error of its last call, a timeout if that overran the
   * deadline.
   */
  lemma RunAnswersInTime(env: Env, s: Sys, events: seq<Event>, id: Id)
    requires Contract(env) && Planned(s.graph) && s.phase.Looping? && id in Run(env, s, events).graph.nodes
    ensures
      var t := Run(env, s, events);
      var n, list := t.graph.nodes[id], ListOf(Drawn(env, s, events), id);
      var up := Upstream(t.graph, n.task);
      && AnsweredInTime(env, list, up, n)
      && (n.result.None? && n.error.Some? && AttemptNote(n.error.value)
          ==> NotesLastCall(env, list, up, n, n.error.value))
  {
    RunIsBooked(env, s, events);
    hide Run, Drawn, Inv, BookedAt, Upstream, AnsweredInTime, NotesLastCall;
    BookedAnswers(env, Drawn(env, s, events), Run(env, s, events), id);
  }

  lemma BookedAnswers(env: Env, lists: map<Id, seq<Name>>, s: Sys, id: Id)
    requires Inv(s) && id in s.graph.nodes && BookedAt(env, lists, s, id)
    ensures EndsAsCalled(env, ListOf(lists, id), Upstream(s.graph, s.graph.nodes[id].task), s.graph.nodes[id])
  {
    hide GraphOk, DepsDone, Upstream, SomeUnavailable, LoopOk;
    assert NodeOk(s, id);
  }
}
