/** How many steps of its own a task of a wave has left, and that a wave can always be brought to its end. */
module Progress {
  import opened Tasks
  import opened Attempts
  import opened Protocol
  import opened Safety
  import opened Lists
  import opened Counting
  import opened Prediction

  /** From the loop's head to the return: three steps for a try, one to give up an agent or the task. */
  function LoopSteps(env: Env, up: map<Id, Reply>, agents: seq<Name>, attempt: nat, n: Node): nat
    decreases |agents|, Rounds(n.task) - attempt
  {
    if agents == [] then 1
    else if attempt > n.task.maxRetries then 1 + LoopSteps(env, up, agents[1..], 0, n)
    else
      var m := Attempted(n, agents[0]);
      3 + match Invoke(env, agents[0], n.task, up, m.attempts).outcome
          case Replied(reply) => |FollowupsOf(reply)| + 1
          case Unavailable => LoopSteps(env, up, agents[1..], 0, m)
          case _ => LoopSteps(env, up, agents, attempt + 1, m)
  }

  /** From the call of an agent on. */
  function CallSteps(env: Env, up: map<Id, Reply>, agents: seq<Name>, attempt: nat, n: Node): nat
    requires agents != []
  {
    1 + match Invoke(env, agents[0], n.task, up, n.attempts).outcome
        case Replied(reply) => |FollowupsOf(reply)| + 1
        case Unavailable => LoopSteps(env, up, agents[1..], 0, n)
        case _ => LoopSteps(env, up, agents, attempt + 1, n)
  }

  /** The steps left to a task at this place, if nobody cancels and it draws `list` when it begins. */
  function Steps(env: Env, list: seq<Name>, g: Graph, n: Node, w: Worker): nat {
    match w
    case Submitted => 1 + LoopSteps(env, Upstream(g, n.task), list, 0, n)
    case AtLoop(up, agents, attempt, _) => LoopSteps(env, up, agents, attempt, n)
    case Checked(up, agents, attempt, _) =>
      if agents == [] then 0 else 1 + CallSteps(env, up, agents, attempt, Attempted(n, agents[0]))
    case Calling(up, agents, attempt, _) => if agents == [] then 0 else CallSteps(env, up, agents, attempt, n)
    case Spawning(_, rest) => |rest| + 1
    case Returned => 0
  }

  function StepsAt(env: Env, lists: map<Id, seq<Name>>, s: Sys, id: Id): nat
    requires Active(s, id)
  {
    Steps(env, ListOf(lists, id), s.graph, s.graph.nodes[id], s.phase.workers[id])
  }

  // ----- one step -----

  lemma NoStepsIsReturned(env: Env, lists: map<Id, seq<Name>>, s: Sys, id: Id)
    requires Inv(s) && Active(s, id)
    ensures StepsAt(env, lists, s, id) == 0 <==> s.phase.workers[id].Returned?
  {
    hide GraphOk, Upstream, DepsDone, Invoke, FollowupsOf;
    assert NodeOk(s, id);
  }

  /** The step uses up one of those left; under a raised flag it may use up more. */
  ghost predicate StepUsed(before: nat, after: nat, cancelled: bool) {
    && (before == 0 ==> after == 0)
    && (before > 0 ==> after < before)
    && (before > 0 && !cancelled ==> after == before - 1)
  }

  lemma BeginUses(env: Env, lists: map<Id, seq<Name>>, s: Sys, id: Id)
    requires Draws(env, lists, s, Move(id)) && Active(s, id) && s.phase.workers[id].Submitted?
    ensures Active(Begin(env, s, id), id)
    ensures StepUsed(StepsAt(env, lists, s, id), StepsAt(env, lists, Begin(env, s, id), id), s.cancelled)
  {
    hide Upstream, CandidatesAt, LoopSteps;
  }

  lemma LoopHeadUses(env: Env, lists: map<Id, seq<Name>>, s: Sys, id: Id)
    requires Active(s, id) && s.phase.workers[id].AtLoop?
    ensures Active(LoopHead(env, s, id), id)
    ensures StepUsed(StepsAt(env, lists, s, id), StepsAt(env, lists, LoopHead(env, s, id), id), s.cancelled)
  {
    hide Upstream, CandidatesAt, Invoke, FollowupsOf;
  }

  lemma TryUses(env: Env, lists: map<Id, seq<Name>>, s: Sys, id: Id)
    requires Inv(s) && Active(s, id) && s.phase.workers[id].Checked?
    ensures Active(MoveTask(env, s, id), id)
    ensures StepUsed(StepsAt(env, lists, s, id), StepsAt(env, lists, MoveTask(env, s, id), id), s.cancelled)
  {
    hide Upstream, DepsDone, GraphOk, Invoke, FollowupsOf, LoopSteps, Begin, LoopHead, Answer, Spawn;
    assert NodeOk(s, id);
  }

  lemma AnswerUses(env: Env, lists: map<Id, seq<Name>>, s: Sys, id: Id)
    requires Active(s, id) && s.phase.workers[id].Calling? && s.phase.workers[id].agents != []
    ensures Active(Answer(env, s, id), id)
    ensures StepUsed(StepsAt(env, lists, s, id), StepsAt(env, lists, Answer(env, s, id), id), s.cancelled)
  {
    hide Upstream, Invoke, FollowupsOf;
    hide LoopSteps;
  }

  lemma SpawnUses(env: Env, lists: map<Id, seq<Name>>, s: Sys, id: Id)
    requires Active(s, id) && s.phase.workers[id].Spawning?
    ensures Active(Spawn(env, s, id), id)
    ensures StepUsed(StepsAt(env, lists, s, id), StepsAt(env, lists, Spawn(env, s, id), id), s.cancelled)
  {
    hide FollowupTask, LoopSteps, CallSteps;
  }

  /** Which step a task's move is. */
  lemma MoveIs(env: Env, s: Sys, id: Id)
    requires Active(s, id)
    ensures s.phase.workers[id].Submitted? ==> MoveTask(env, s, id) == Begin(env, s, id)
    ensures s.phase.workers[id].AtLoop? ==> MoveTask(env, s, id) == LoopHead(env, s, id)
    ensures s.phase.workers[id].Calling? && s.phase.workers[id].agents != [] ==>
            MoveTask(env, s, id) == Answer(env, s, id)
    ensures s.phase.workers[id].Spawning? ==> MoveTask(env, s, id) == Spawn(env, s, id)
    ensures s.phase.workers[id].Returned? ==> MoveTask(env, s, id) == s
  {
    hide Begin, LoopHead, Answer, Spawn;
  }

  /** A task's own move uses up a step. */
  lemma OwnUses(env: Env, lists: map<Id, seq<Name>>, s: Sys, id: Id)
    requires Draws(env, lists, s, Move(id)) && Inv(s) && Active(s, id)
    ensures Active(MoveTask(env, s, id), id)
    ensures StepUsed(StepsAt(env, lists, s, id), StepsAt(env, lists, MoveTask(env, s, id), id), s.cancelled)
  {
    NoStepsIsReturned(env, lists, s, id);
    MoveIs(env, s, id);
    hide Inv, Draws, StepsAt, MoveTask, Begin, LoopHead, Answer, Spawn;
    match s.phase.workers[id]
    case Submitted => BeginUses(env, lists, s, id);
    case AtLoop(_, _, _, _) => LoopHeadUses(env, lists, s, id);
    case Checked(_, _, _, _) => TryUses(env, lists, s, id);
    case Calling(_, agents, _, _) => CallersHaveAgents(s, id); AnswerUses(env, lists, s, id);
    case Spawning(_, _) => SpawnUses(env, lists, s, id);
    case Returned =>
  }

  lemma CallersHaveAgents(s: Sys, id: Id)
    requires Inv(s) && Active(s, id) && s.phase.workers[id].Calling?
    ensures s.phase.workers[id].agents != []
  {
    hide GraphOk, Upstream, DepsDone;
    assert NodeOk(s, id);
  }

  /** Another task's move, or an event outside, leaves the steps left alone. */
  lemma OthersKeepSteps(env: Env, lists: map<Id, seq<Name>>, s: Sys, e: Event, id: Id)
    requires Contract(env) && Inv(s) && Active(s, id) && !e.Advance? && e != Move(id)
    ensures Active(Next(env, s, e), id)
    ensures StepsAt(env, lists, Next(env, s, e), id) == StepsAt(env, lists, s, id)
  {
    hide Inv, Contract, MoveTask, Upstream, LoopSteps, CallSteps;
    if e.Move? {
      MoveIsLocal(env, s, e.id, id);
      OthersKeepUpstream(env, s, e.id, id);
    }
  }

  // ----- whole interleavings -----

  /** How often the task moves. */
  function MovesOf(events: seq<Event>, id: Id): nat {
    if events == [] then 0 else (if events[0] == Move(id) then 1 else 0) + MovesOf(events[1..], id)
  }

  predicate NoAdvance(events: seq<Event>) {
    forall e :: e in events ==> !e.Advance?
  }

  lemma {:induction false} RunUses(env: Env, lists: map<Id, seq<Name>>, s: Sys, events: seq<Event>, id: Id)
    requires Contract(env) && Inv(s) && Active(s, id) && AsDrawn(env, lists, s, events) && NoAdvance(events)
    ensures
      var t := Run(env, s, events);
      var left := StepsAt(env, lists, s, id) - MovesOf(events, id);
      && Active(t, id) && StepsAt(env, lists, t, id) <= (if left > 0 then left else 0)
      && (!t.cancelled ==> StepsAt(env, lists, t, id) == if left > 0 then left else 0)
    decreases |events|
  {
    if events != [] {
      var e, t := events[0], Next(env, s, events[0]);
      NextKeeps(env, s, e);
      NextOutside(env, s, e);
      RunKeeps(env, t, events[1..]);
      assert !e.Advance?;
      if e == Move(id) {
        OwnUses(env, lists, s, id);
        assert t == MoveTask(env, s, id);
      } else {
        OthersKeepSteps(env, lists, s, e, id);
      }
      hide Inv, Contract, Next, MoveTask, StepsAt, Draws;
      RunUses(env, lists, t, events[1..], id);
    }
  }

  lemma NextPredicted(env: Env, lists: map<Id, seq<Name>>, s: Sys, e: Event, id: Id)
    requires Contract(env) && Inv(s) && Active(s, id) && Draws(env, lists, s, e) && !e.Advance? && !s.cancelled
    ensures Active(Next(env, s, e), id)
            && PredictedAt(env, lists, Next(env, s, e), id) == PredictedAt(env, lists, s, id)
  {
    hide Inv, Contract, MoveTask, Draws, Drive, TryAll, Upstream;
    if e.Move? { MovePredicted(env, lists, s, e.id, id); }
  }

  /** Whatever the interleaving, a task of the wave keeps heading for its predicted end. */
  lemma {:induction false} RunPredicted(env: Env, lists: map<Id, seq<Name>>, s: Sys, events: seq<Event>, id: Id)
    requires Contract(env) && Inv(s) && Active(s, id) && AsDrawn(env, lists, s, events) && NoAdvance(events)
    requires !Run(env, s, events).cancelled
    ensures
      var t := Run(env, s, events);
      && Active(t, id) && PredictedAt(env, lists, t, id) == PredictedAt(env, lists, s, id)
      && (t.phase.workers[id].Returned? ==> t.graph.nodes[id] == PredictedAt(env, lists, s, id))
    decreases |events|
  {
    if events == [] {
      hide Drive, TryAll, Upstream, Inv, Contract;
    } else {
      var e, t := events[0], Next(env, s, events[0]);
      assert !e.Advance?;
      hide Inv, Contract, Next, PredictedAt, Draws, Grows;
      NextKeeps(env, s, e);
      NextOutside(env, s, e);
      RunKeeps(env, t, events[1..]);
      NextPredicted(env, lists, s, e, id);
      RunPredicted(env, lists, t, events[1..], id);
    }
  }

  /**
   * Every interleaving ends the wave: under the lists it draws, each task returns after a number of moves of its
   * own that is known when the wave starts, and, if nobody cancels, not before.
   */
  lemma WaveEndsExactly(env: Env, s: Sys, events: seq<Event>)
    requires Contract(env) && Inv(s) && s.phase.InWave? && NoAdvance(events)
    ensures
      var t, lists := Run(env, s, events), Drawn(env, s, events);
      var through := forall id :: id in s.phase.workers ==>
                                    Active(s, id) && MovesOf(events, id) >= StepsAt(env, lists, s, id);
      && t.phase.InWave? && t.phase.workers.Keys == s.phase.workers.Keys
      && (through ==> AllReturned(t.phase.workers))
      && (!t.cancelled && AllReturned(t.phase.workers) ==> through)
  {
    var t, lists := Run(env, s, events), Drawn(env, s, events);
    DrawnAsDrawn(env, s, events);
    RunKeeps(env, s, events);
    WaveStays(env, s, events);
    forall id | id in s.phase.workers
      ensures Active(s, id) && Active(t, id)
      ensures MovesOf(events, id) >= StepsAt(env, lists, s, id) ==> t.phase.workers[id].Returned?
      ensures !t.cancelled && t.phase.workers[id].Returned? ==> MovesOf(events, id) >= StepsAt(env, lists, s, id)
    {
      assert Active(s, id);
      RunUses(env, lists, s, events, id);
      NoStepsIsReturned(env, lists, t, id);
    }
  }

  lemma MovedKeys(env: Env, s: Sys, mover: Id)
    requires Active(s, mover)
    ensures MoveTask(env, s, mover).phase.InWave? && MoveTask(env, s, mover).phase.workers.Keys == s.phase.workers.Keys
    ensures MoveTask(env, s, mover).cancelled == s.cancelled
  {
    hide Upstream, CandidatesAt, FollowupTask, FollowupsOf, Invoke;
  }

  lemma StaysPut(env: Env, s: Sys, id: Id)
    requires !Active(s, id)
    ensures MoveTask(env, s, id) == s
  {
  }

  lemma {:induction false} WaveStays(env: Env, s: Sys, events: seq<Event>)
    requires s.phase.InWave? && NoAdvance(events)
    ensures Run(env, s, events).phase.InWave? && Run(env, s, events).phase.workers.Keys == s.phase.workers.Keys
    decreases |events|
  {
    if events != [] {
      var e := events[0];
      assert !e.Advance?;
      if e.Move? {
        if Active(s, e.id) { MovedKeys(env, s, e.id); } else { StaysPut(env, s, e.id); }
      }
      hide MoveTask;
      WaveStays(env, Next(env, s, e), events[1..]);
    }
  }

  // ----- bringing a wave to its end -----

  /** Only this task moves. */
  predicate Alone(events: seq<Event>, id: Id) {
    forall e :: e in events ==> e == Move(id)
  }

  /** The wave is the same, and the other tasks are where they were. */
  ghost predicate OthersWait(s: Sys, t: Sys, id: Id) {
    && s.phase.InWave? && t.phase.InWave? && t.phase.workers.Keys == s.phase.workers.Keys
    && forall other :: Active(s, other) && other != id ==>
                         Active(t, other) && t.phase.workers[other] == s.phase.workers[other]
  }

  lemma OthersWaitOn(s: Sys, t: Sys, u: Sys, id: Id)
    requires OthersWait(s, t, id) && OthersWait(t, u, id)
    ensures OthersWait(s, u, id)
  {
  }

  lemma OneStepOn(env: Env, lists: map<Id, seq<Name>>, s: Sys, id: Id)
    requires Contract(env) && Inv(s) && Active(s, id) && Draws(env, lists, s, Move(id))
             && !s.phase.workers[id].Returned?
    ensures
      var t := MoveTask(env, s, id);
      && Inv(t) && Grows(s.graph, t.graph) && Active(t, id) && !t.phase.workers[id].Submitted?
      && StepsAt(env, lists, t, id) < StepsAt(env, lists, s, id)
      && OthersWait(s, t, id)
  {
    var t := MoveTask(env, s, id);
    hide MoveTask, StepsAt, Draws;
    MoveKeeps(env, s, id);
    MoverBegun(env, s, id);
    OwnUses(env, lists, s, id);
    NoStepsIsReturned(env, lists, s, id);
    hide Inv, HasBegun, Contract, Grows;
    NotSubmitted(t, id);
    MovedKeys(env, s, id);
    forall other | Active(s, other) && other != id
      ensures Active(t, other) && t.phase.workers[other] == s.phase.workers[other]
    {
      MoveIsLocal(env, s, id, other);
    }
  }

  lemma FirstMove(env: Env, s: Sys, id: Id, rest: seq<Event>)
    ensures Run(env, s, [Move(id)] + rest) == Run(env, MoveTask(env, s, id), rest)
  {
    assert ([Move(id)] + rest)[1..] == rest;
  }

  lemma AloneRest(events: seq<Event>, id: Id)
    requires Alone(events, id) && events != []
    ensures events[0] == Move(id) && Alone(events[1..], id)
  {
    assert events[0] in events;
    assert forall e :: e in events[1..] ==> e in events;
  }

  lemma AloneMore(events: seq<Event>, id: Id)
    requires Alone(events, id)
    ensures Alone([Move(id)] + events, id)
  {
  }

  /** A task can always be brought to its return by its own moves; nobody else notices. */
  lemma {:induction false} TaskCanEnd(env: Env, lists: map<Id, seq<Name>>, s: Sys, id: Id) returns (events: seq<Event>)
    requires Contract(env) && Inv(s) && Active(s, id) && Draws(env, lists, s, Move(id))
    ensures Alone(events, id)
    ensures
      var t := Run(env, s, events);
      && Inv(t) && Grows(s.graph, t.graph) && Active(t, id) && t.phase.workers[id].Returned?
      && OthersWait(s, t, id)
    decreases StepsAt(env, lists, s, id)
  {
    if s.phase.workers[id].Returned? {
      events := [];
      GrowsSelf(s.graph);
    } else {
      var t := MoveTask(env, s, id);
      OneStepOn(env, lists, s, id);
      hide Inv, Contract, MoveTask, StepsAt, Grows, OthersWait;
      var rest := TaskCanEnd(env, lists, t, id);
      events := [Move(id)] + rest;
      AloneMore(rest, id);
      FirstMove(env, s, id, rest);
      GrowsTrans(s.graph, t.graph, Run(env, t, rest).graph);
      OthersWaitOn(s, t, Run(env, t, rest), id);
      hide Alone, Run;
    }
  }

  /** The tasks of the wave that have not returned. */
  function Unreturned(s: Sys): set<Id>
    requires s.phase.InWave?
  {
    set id | id in s.phase.workers && !s.phase.workers[id].Returned?
  }

  predicate OnlyMoves(events: seq<Event>) {
    forall e :: e in events ==> e.Move?
  }

  /** From wherever it is, a wave can be brought to its end. */
  lemma {:induction false} WaveCanEnd(env: Env, s: Sys) returns (events: seq<Event>)
    requires Contract(env) && Inv(s) && s.phase.InWave?
    ensures OnlyMoves(events)
    ensures
      var t := Run(env, s, events);
      Inv(t) && Grows(s.graph, t.graph) && t.phase.InWave? && AllReturned(t.phase.workers)
    decreases |Unreturned(s)|
  {
    if Unreturned(s) == {} {
      events := [];
      GrowsSelf(s.graph);
      forall id | id in s.phase.workers ensures s.phase.workers[id].Returned? { assert id !in Unreturned(s); }
    } else {
      var id :| id in Unreturned(s);
      assert Active(s, id);
      var first := TaskCanEnd(env, map[id := DrawnBy(env, s, id)], s, id);
      var t := Run(env, s, first);
      FewerLeft(s, t, id);
      hide Inv, Contract, Grows, Run, Unreturned;
      var rest := WaveCanEnd(env, t);
      events := first + rest;
      RunAppend(env, s, first, rest);
      GrowsTrans(s.graph, t.graph, Run(env, s, events).graph);
    }
  }

  lemma FewerLeft(s: Sys, t: Sys, id: Id)
    requires Inv(s) && Inv(t) && s.phase.InWave? && id in Unreturned(s) && Active(t, id)
             && t.phase.workers[id].Returned?
    requires OthersWait(s, t, id)
    ensures |Unreturned(t)| < |Unreturned(s)|
  {
    hide GraphOk, NodeOk;
    assert Unreturned(t) == Unreturned(s) - {id};
  }
}
