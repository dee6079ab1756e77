/** Whole missions: all runs end the same if all their waves do, follow-ups included. */
module Missions {
  import opened Options
  import opened Tasks
  import opened Registry
  import opened Attempts
  import opened Protocol
  import opened Safety
  import opened Lists
  import opened Counting
  import opened Outcomes
  import opened Prediction
  import opened Progress
  import opened Confluence
  import opened Interleavings
  import opened Rotation
  import opened TurnFates
  import opened Meaning
  import opened Termination

  /** The states agree on everything but the time and the order in which follow-ups came. */
  ghost predicate Alike(s: Sys, u: Sys) {
    && s.graph.nodes == u.graph.nodes && s.phase == u.phase && s.counters == u.counters && s.cancelled == u.cancelled
    && forall cap :: Count(s.rr, cap) == Count(u.rr, cap)
  }

  // ----- alike states step alike -----

  lemma AlikeLists(env: Env, rr: map<string, nat>, rr': map<string, nat>, k: nat, task: Task)
    requires forall cap :: Count(rr, cap) == Count(rr', cap)
    ensures CandidatesAt(env, rr, k, task).0 == CandidatesAt(env, rr', k, task).0
    ensures forall cap :: Count(CandidatesAt(env, rr, k, task).1, cap) == Count(CandidatesAt(env, rr', k, task).1, cap)
  {
    hide ForCapability, FallbacksOf, AppendNew, Distinct;
    assert CandidatesAt(env, rr, k, task).0 == CandidatesAt(env, rr', k, task).0;
    hide CandidatesAt, Count;
    forall cap ensures Count(CandidatesAt(env, rr, k, task).1, cap) == Count(CandidatesAt(env, rr', k, task).1, cap) {
      CounterMoves(env, task, rr, k, cap);
      CounterMoves(env, task, rr', k, cap);
    }
  }

  lemma AlikeUpstream(g: Graph, h: Graph, task: Task)
    requires g.nodes == h.nodes
    ensures Upstream(g, task) == Upstream(h, task)
  {
  }

  lemma AlikeBegin(env: Env, s: Sys, u: Sys, id: Id)
    requires Alike(s, u) && Active(s, id)
    ensures Alike(Begin(env, s, id), Begin(env, u, id))
  {
    AlikeLists(env, s.rr, u.rr, s.counters.scheduled, s.graph.nodes[id].task);
    AlikeUpstream(s.graph, u.graph, s.graph.nodes[id].task);
    hide CandidatesAt, Upstream, Count;
  }

  lemma AlikeLoopHead(env: Env, s: Sys, u: Sys, id: Id)
    requires Alike(s, u) && Active(s, id) && s.phase.workers[id].AtLoop?
    ensures Alike(LoopHead(env, s, id), LoopHead(env, u, id))
  {
    hide Count;
  }

  lemma AlikeAnswer(env: Env, s: Sys, u: Sys, id: Id)
    requires Alike(s, u) && Active(s, id) && s.phase.workers[id].Calling? && s.phase.workers[id].agents != []
    ensures Alike(Answer(env, s, id), Answer(env, u, id))
  {
    hide Count, Invoke, FollowupsOf;
  }

  lemma AlikeSpawn(env: Env, s: Sys, u: Sys, id: Id)
    requires Alike(s, u) && Active(s, id) && s.phase.workers[id].Spawning?
    ensures Alike(Spawn(env, s, id), Spawn(env, u, id))
  {
    hide Count, FollowupTask;
  }

  lemma AlikeMove(env: Env, s: Sys, u: Sys, id: Id)
    requires Alike(s, u)
    ensures Alike(MoveTask(env, s, id), MoveTask(env, u, id))
  {
    hide Count, Begin, LoopHead, Answer, Spawn;
    if Active(s, id) {
      match s.phase.workers[id]
      case Submitted => AlikeBegin(env, s, u, id);
      case AtLoop(_, _, _, _) => AlikeLoopHead(env, s, u, id);
      case Checked(_, _, _, _) =>
      case Calling(_, agents, _, _) => if agents != [] { AlikeAnswer(env, s, u, id); }
      case Spawning(_, _) => AlikeSpawn(env, s, u, id);
      case Returned =>
    }
  }

  lemma {:induction false} AlikeRun(env: Env, s: Sys, u: Sys, events: seq<Event>)
    requires Alike(s, u) && WaveEvents(events)
    ensures Alike(Run(env, s, events), Run(env, u, events))
    decreases |events|
  {
    if events != [] {
      var e := events[0];
      if e.Move? { AlikeMove(env, s, u, e.id); }
      hide MoveTask;
      assert Alike(Next(env, s, e), Next(env, u, e));
      AlikeRun(env, Next(env, s, e), Next(env, u, e), events[1..]);
    }
  }

  lemma AlikeStart(s: Sys, u: Sys)
    requires Alike(s, u)
    ensures ReadyIds(s.graph) == ReadyIds(u.graph) && Alike(StartWave(s), StartWave(u))
  {
    hide Count;
    forall id | id in s.graph.nodes ensures IsReady(s.graph, id) == IsReady(u.graph, id) {}
  }

  // ----- the counters that a wave moves -----

  /** Once all have returned, the counters say which tasks were in the wave, not who came first. */
  lemma SameTurns(env: Env, s0: Sys, a: seq<Event>, b: seq<Event>)
    requires Contract(env) && Inv(s0) && s0.phase.InWave? && WaveEvents(a) && WaveEvents(b)
    requires
      var t, u := Run(env, s0, a), Run(env, s0, b);
      && WaveOver(t) && WaveOver(u) && t.graph.nodes == u.graph.nodes && t.phase.workers.Keys == u.phase.workers.Keys
    ensures forall cap :: Count(Run(env, s0, a).rr, cap) == Count(Run(env, s0, b).rr, cap)
  {
    hide Inv, Contract, Run, Count, MovesTurn;
    forall cap ensures Count(Run(env, s0, a).rr, cap) == Count(Run(env, s0, b).rr, cap) {
      RunTurned(env, s0, a, cap);
      RunTurned(env, s0, b, cap);
      assert Turned(env, Run(env, s0, a), cap) == Turned(env, Run(env, s0, b), cap);
    }
  }

  // ----- one wave -----

  /** The wave has an outcome: all its interleavings end the same. */
  ghost predicate SteadyAt(env: Env, s: Sys) {
    SameEnds(env, StartWave(s))
  }

  lemma SameWave(base: Counters, env: Env, s: Sys, u: Sys, a: seq<Event>, b: seq<Event>)
    requires Contract(env) && Inv(s) && Inv(u) && Alike(s, u) && s.phase.Looping? && !s.cancelled && SteadyAt(env, s)
    requires Counted(base, s) && WaveEvents(a) && WaveEvents(b)
    requires WaveOver(Run(env, StartWave(s), a)) && WaveOver(Run(env, StartWave(u), b))
    ensures Alike(Run(env, StartWave(s), a).(phase := Looping), Run(env, StartWave(u), b).(phase := Looping))
  {
    var s0, u0 := StartWave(s), StartWave(u);
    AlikeStart(s, u);
    Between(s);
    StartKeeps(s);
    hide Inv, Contract, StartWave, Run, Counted, WaveEvents, Count, AllReturned, Grows;
    AlikeRun(env, s0, u0, b);
    RunKeeps(env, s0, a);
    RunKeeps(env, s0, b);
    WaveEndsCounted(base, env, s, a);
    WaveEndsCounted(base, env, s, b);
    SameCounters(base, Run(env, s0, a), Run(env, s0, b));
    SameWaveTurns(env, s, a, b);
    NeverCancelled(env, s0, a);
    NeverCancelled(env, s0, b);
  }

  lemma SameWaveTurns(env: Env, s: Sys, a: seq<Event>, b: seq<Event>)
    requires Contract(env) && Inv(s) && s.phase.Looping? && !s.cancelled && WaveEvents(a) && WaveEvents(b)
    requires
      var t, u := Run(env, StartWave(s), a), Run(env, StartWave(s), b);
      && WaveOver(t) && WaveOver(u) && t.graph.nodes == u.graph.nodes
    ensures forall cap :: Count(Run(env, StartWave(s), a).rr, cap) == Count(Run(env, StartWave(s), b).rr, cap)
    ensures !StartWave(s).cancelled
  {
    var s0 := StartWave(s);
    Between(s);
    StartKeeps(s);
    assert s0.phase.InWave? && !s0.cancelled;
    hide Inv, Contract, StartWave, Run, Count, AllReturned;
    assert NoAdvance(a) && NoAdvance(b);
    WaveStays(env, s0, a);
    WaveStays(env, s0, b);
    SameTurns(env, s0, a, b);
  }

  // ----- the whole run, wave by wave -----

  /** Every wave that the run makes has an outcome. */
  ghost predicate Steady(env: Env, s: Sys, events: seq<Event>)
    decreases |events|
  {
    events == [] ||
    ((events[0].Advance? && StartsWave(s) ==> SteadyAt(env, s)) && Steady(env, Next(env, s, events[0]), events[1..]))
  }

  lemma {:induction false} StaysCancelled(env: Env, s: Sys, events: seq<Event>)
    requires s.cancelled
    ensures Run(env, s, events).cancelled
    decreases |events|
  {
    hide Next;
    if events != [] {
      NextOutside(env, s, events[0]);
      StaysCancelled(env, Next(env, s, events[0]), events[1..]);
    }
  }

  lemma NotCancelling(env: Env, s: Sys, events: seq<Event>)
    requires events != [] && !Run(env, s, events).cancelled
    ensures !s.cancelled && !events[0].Cancel?
  {
    hide MainStep, MoveTask;
    NextOutside(env, s, events[0]);
    if s.cancelled || events[0].Cancel? { StaysCancelled(env, Next(env, s, events[0]), events[1..]); }
  }

  /** A run that ends splits into the rest of the wave it is in and what comes after. */
  lemma {:induction false} WavePart(env: Env, s: Sys, events: seq<Event>) returns (own: seq<Event>, rest: seq<Event>)
    requires s.phase.InWave? && Run(env, s, events).phase.Ended? && !Run(env, s, events).cancelled
    ensures WaveEvents(own) && WaveOver(Run(env, s, own)) && |rest| < |events|
    ensures
      var t := Run(env, s, own).(phase := Looping);
      Run(env, s, events) == Run(env, t, rest) && (Steady(env, s, events) ==> Steady(env, t, rest))
    decreases |events|
  {
    var e, t := events[0], Next(env, s, events[0]);
    NotCancelling(env, s, events);
    if e.Advance? && AllReturned(s.phase.workers) {
      own, rest := [], events[1..];
    } else {
      if e.Move? { MoveInWaveOnly(env, s, e.id); }
      assert t.phase.InWave?;
      hide SteadyAt, MoveTask, AllReturned, StartsWave;
      own, rest := WavePart(env, t, events[1..]);
      if !e.Advance? {
        var later := own;
        own := [e] + later;
        assert own[1..] == later;
      }
    }
  }

  /** What the main thread leaves is left as it is. */
  lemma {:induction false} LeftAsIs(env: Env, s: Sys, events: seq<Event>)
    requires s.phase.Leaving? || s.phase.Ended?
    ensures Run(env, s, events).graph == s.graph
    decreases |events|
  {
    if events != [] {
      var e := events[0];
      if e.Move? { MoveInWaveOnly(env, s, e.id); }
      hide MoveTask;
      LeftAsIs(env, Next(env, s, e), events[1..]);
    }
  }

  ghost predicate AllSettled(nodes: map<Id, Node>) {
    forall id :: id in nodes ==> Settled(nodes[id])
  }

  /** With everything settled the loop is left without a change. */
  lemma SettledLeaves(s: Sys)
    requires s.phase.Looping? && AllSettled(s.graph.nodes)
    ensures MainStep(s).phase.Leaving? && MainStep(s).graph == s.graph
  {
    SettledQuit(s, MissionTimeout);
    SettledQuit(s, BlockedNote);
    hide Settled, GraphDone;
  }

  /** The loop is left because all is done, or for lack of time with nothing left to give up. */
  lemma LeavesSettled(env: Env, s: Sys, events: seq<Event>)
    requires Contract(env) && Inv(s) && s.phase.Looping? && !s.cancelled && events != [] && events[0].Advance?
    requires InTime(Run(env, s, events).graph)
    ensures GraphDone(s.graph) || s.clock > s.deadline ==> AllSettled(s.graph.nodes)
  {
    Between(s);
    if GraphDone(s.graph) {
      DoneIsSettled(s);
    } else if s.clock > s.deadline {
      var t := Next(env, s, events[0]);
      assert t == Quit(s, MissionTimeout);
      NextKeeps(env, s, events[0]);
      RunKeeps(env, t, events[1..]);
      TimeoutsStay(t, Run(env, s, events).graph);
      TimeoutSettles(s);
    }
  }

  lemma TimeoutSettles(s: Sys)
    requires Boundary(s.graph) && InTime(Quit(s, MissionTimeout).graph)
    ensures AllSettled(s.graph.nodes)
  {
    hide GraphOk;
    forall id | id in s.graph.nodes ensures Settled(s.graph.nodes[id]) {
      assert Quit(s, MissionTimeout).graph.nodes[id].error != Some(MissionTimeout);
    }
  }

  /** Two missions at the same loop head that both leave it, leave the same. */
  lemma SameLeaving(s: Sys, u: Sys)
    requires Alike(s, u) && s.phase.Looping? && !s.cancelled
    requires AllSettled(s.graph.nodes)
             || (!StartsWave(s) && !StartsWave(u) && !GraphDone(s.graph) && s.clock <= s.deadline
                 && u.clock <= u.deadline)
    ensures !MainStep(s).phase.InWave? && !MainStep(s).phase.Looping?
    ensures !MainStep(u).phase.InWave? && !MainStep(u).phase.Looping?
    ensures MainStep(s).graph.nodes == MainStep(u).graph.nodes
  {
    AlikeStart(s, u);
    assert GraphDone(s.graph) == GraphDone(u.graph);
    if AllSettled(s.graph.nodes) {
      SettledLeaves(s);
      SettledLeaves(u);
    } else {
      SameQuit(s, u);
    }
    hide GraphDone, AllSettled, ReadyIds, StartWave, Quit, Count;
  }

  lemma SameQuit(s: Sys, u: Sys)
    requires Alike(s, u)
    ensures Quit(s, BlockedNote).graph.nodes == Quit(u, BlockedNote).graph.nodes
  {
    hide Count;
  }

  /** Up to the main thread's next step nothing happens at a loop head but time. */
  lemma HeadWaits(env: Env, s: Sys, e: Event)
    requires s.phase.Looping? && !e.Advance? && !e.Cancel?
    ensures Next(env, s, e) == s.(clock := Next(env, s, e).clock)
  {
    if e.Move? { MoveInWaveOnly(env, s, e.id); }
    hide MoveTask;
  }

  lemma HeadKeeps(base: Counters, env: Env, s: Sys, u: Sys, e: Event)
    requires Contract(env) && Inv(s) && Alike(s, u) && Counted(base, s) && s.phase.Looping? && !e.Advance? && !e.Cancel?
    ensures
      var t := Next(env, s, e);
      Inv(t) && Counted(base, t) && t.phase.Looping? && Alike(t, u) && Alike(u, t)
  {
    HeadWaits(env, s, e);
    NextKeeps(env, s, e);
    NextCounts(base, env, s, e);
    hide Inv, Counted, Next, Count;
  }

  /** The state after the wave: again a loop head, with its books in order. */
  lemma AfterWave(base: Counters, env: Env, s: Sys, own: seq<Event>)
    requires Contract(env) && Inv(s) && Counted(base, s) && s.phase.Looping? && WaveOver(Run(env, StartWave(s), own))
    ensures
      var t := Run(env, StartWave(s), own).(phase := Looping);
      Inv(t) && Counted(base, t)
  {
    var u := Run(env, StartWave(s), own);
    Between(s);
    StartKeeps(s);
    hide Inv, Counted, Run, AllReturned, StartWave, Contract;
    RunKeeps(env, StartWave(s), own);
    WaveEndsCounted(base, env, s, own);
    assert MainStep(u) == u.(phase := Looping);
    MainKeeps(u);
    MainCounts(base, u);
  }

  lemma {:induction false} SameMission(base: Counters, env: Env, s: Sys, u: Sys, a: seq<Event>, b: seq<Event>)
    requires Contract(env) && Inv(s) && Inv(u) && Alike(s, u) && s.phase.Looping?
    requires Counted(base, s) && Counted(base, u) && Steady(env, s, a)
    requires Run(env, s, a).phase.Ended? && !Run(env, s, a).cancelled && InTime(Run(env, s, a).graph)
    requires Run(env, u, b).phase.Ended? && !Run(env, u, b).cancelled && InTime(Run(env, u, b).graph)
    ensures Run(env, s, a).graph.nodes == Run(env, u, b).graph.nodes
    decreases |a| + |b|
  {
    assert a != [] && b != [];
    NotCancelling(env, s, a);
    NotCancelling(env, u, b);
    if !a[0].Advance? {
      HeadKeeps(base, env, s, u, a[0]);
      hide Inv, Counted, Next, Count, Contract, InTime, SteadyAt;
      SameMission(base, env, Next(env, s, a[0]), u, a[1..], b);
    } else if !b[0].Advance? {
      HeadKeeps(base, env, u, s, b[0]);
      hide Inv, Counted, Next, Count, Contract, InTime, SteadyAt;
      SameMission(base, env, s, Next(env, u, b[0]), a, b[1..]);
    } else {
      LeavesSettled(env, s, a);
      LeavesSettled(env, u, b);
      AlikeStart(s, u);
      hide Inv, Counted, Count, Contract, InTime, SteadyAt, AllSettled, GraphDone, ReadyIds, StartWave, Quit;
      if StartsWave(s) && StartsWave(u) {
        var own, rest := WavePart(env, StartWave(s), a[1..]);
        var own', rest' := WavePart(env, StartWave(u), b[1..]);
        SameWave(base, env, s, u, own, own');
        AfterWave(base, env, s, own);
        AfterWave(base, env, u, own');
        SameMission(base, env, Run(env, StartWave(s), own).(phase := Looping),
                    Run(env, StartWave(u), own').(phase := Looping), rest, rest');
      } else {
        SameLeaving(s, u);
        LeftAsIs(env, MainStep(s), a[1..]);
        LeftAsIs(env, MainStep(u), b[1..]);
      }
    }
  }

  /**
   * Mission confluence: if in every wave of one run all interleavings end the same, then all runs of the mission that
   * end uncancelled
   * and in time end with the same nodes, follow-ups included, the same counters and the same status.
   */
  lemma MissionConfluence(env: Env, s: Sys, a: seq<Event>, b: seq<Event>)
    requires Contract(env) && Planned(s.graph) && s.phase.Looping? && Steady(env, s, a)
    requires Run(env, s, a).phase.Ended? && !Run(env, s, a).cancelled && InTime(Run(env, s, a).graph)
    requires Run(env, s, b).phase.Ended? && !Run(env, s, b).cancelled && InTime(Run(env, s, b).graph)
    ensures
      var t, u := Run(env, s, a), Run(env, s, b);
      t.graph.nodes == u.graph.nodes && t.counters == u.counters && t.phase == u.phase
  {
    var t, u := Run(env, s, a), Run(env, s, b);
    PlannedIsStartable(s);
    BoundaryStart(s);
    StartIsCounted(s.counters, s);
    hide Inv, Counted, Contract, Run, Steady, InTime, Planned, Startable, Settled;
    SameMission(s.counters, env, s, s, a, b);
    RunKeeps(env, s, a);
    RunKeeps(env, s, b);
    RunCounts(s.counters, env, s, a);
    RunCounts(s.counters, env, s, b);
    EndCounters(s.counters, t, u);
    EndsTruthfully(env, s, a);
    EndsTruthfully(env, s, b);
    SameStatus(t.graph, u.graph);
  }

  lemma EndCounters(base: Counters, t: Sys, u: Sys)
    requires Counted(base, t) && Counted(base, u) && t.graph.nodes == u.graph.nodes && t.phase.Ended? && u.phase.Ended?
    ensures t.counters == u.counters
  {
    assert WithReply(t.graph) == WithReply(u.graph) && Wronged(t.graph) == Wronged(u.graph);
    assert Begun(t) == Begun(u);
  }

  lemma SameStatus(g: Graph, h: Graph)
    requires g.nodes == h.nodes
    ensures StatusOf(g, false) == StatusOf(h, false)
  {
  }

  // ----- missions that are known to be steady before they run -----

  /** Agents leave it to the executor to name their follow-ups. */
  ghost predicate NeverNames(env: Env) {
    forall agent, task, up, k, f ::
      (env.call(agent, task, up, k).outcome.Replied?
       && f in FollowupsOf(env.call(agent, task, up, k).outcome.reply)) ==> f.id == ""
  }

  lemma {:induction false} DigitsAreDigits(n: nat)
    ensures Digits(n) != [] && forall i :: 0 <= i < |Digits(n)| ==> Digits(n)[i] != 'f'
    decreases n
  {
    if n >= 10 { DigitsAreDigits(n / 10); }
  }

  /** The parent that a generated id was made from. */
  function Parent(id: Id): Id {
    if id == "" then ""
    else if id[|id| - 1] != 'f' then Parent(id[..|id| - 1])
    else if |id| >= 2 then id[..|id| - 2]
    else ""
  }

  lemma {:induction false} ParentOf(p: Id, x: string)
    requires forall i :: 0 <= i < |x| ==> x[i] != 'f'
    ensures Parent(p + "-f" + x) == p
    decreases |x|
  {
    var id := p + "-f" + x;
    if x == "" {
      assert id[..|id| - 2] == p;
    } else {
      var front := x[..|x| - 1];
      assert id[..|id| - 1] == p + "-f" + front;
      assert id[|id| - 1] == x[|x| - 1];
      ParentOf(p, front);
    }
  }

  /** A generated id tells its parent. */
  lemma GeneratedByOne(p: Id, n: nat)
    ensures Parent(p + "-f" + Digits(n)) == p
  {
    DigitsAreDigits(n);
    ParentOf(p, Digits(n));
  }

  /** All the follow-ups of a node are unnamed. */
  ghost predicate Unnamed(n: Node) {
    forall f :: f in Emits(n) ==> f.id == ""
  }

  lemma {:induction false} NamedIsGenerated(env: Env, n: Node, fs: seq<Followup>, id: Id)
    requires Named(env, n, fs, id).Some? && forall f :: f in fs ==> f.id == ""
    ensures id == n.task.id + "-f" + Digits(n.attempts)
  {
    hide FollowupTask;
    assert fs[0] in fs;
    if FollowupId(n, fs[0]) != id { NamedIsGenerated(env, n, fs[1..], id); }
  }

  /** What an agent's answer asks for is unnamed. */
  lemma {:induction false} DriveUnnamed(env: Env, up: map<Id, Reply>, agents: seq<Name>, attempt: nat, last: Note,
                                        node: Node)
    requires NeverNames(env) && node.result.None?
    ensures
      var e := Drive(env, up, agents, attempt, last, node).node;
      Unnamed(e) && e.task == node.task
    decreases |agents|, Rounds(node.task) - attempt
  {
    hide FollowupsOf;
    if agents == [] {
    } else if attempt > node.task.maxRetries {
      DriveUnnamed(env, up, agents[1..], 0, last, node);
    } else {
      var n := Attempted(node, agents[0]);
      var c := Invoke(env, agents[0], node.task, up, n.attempts);
      if c.outcome.Unavailable? {
        DriveUnnamed(env, up, agents[1..], 0, NoteFor(c.outcome, agents[0]), n);
      } else if !c.outcome.Replied? {
        DriveUnnamed(env, up, agents, attempt + 1, NoteFor(c.outcome, agents[0]), n);
      }
    }
  }

  lemma StartUnnamed(env: Env, lists: map<Id, seq<Name>>, s: Sys, id: Id)
    requires NeverNames(env) && Inv(s) && s.phase.Looping? && id in ReadyIds(s.graph)
    ensures Active(StartWave(s), id)
    ensures
      var e := PredictedAt(env, lists, StartWave(s), id);
      Unnamed(e) && e.task.id == id
  {
    PredictedAtStart(env, lists, s, id);
    var n := s.graph.nodes[id];
    assert NodeOk(s, id) && n.task.id == id;
    hide GraphOk, Upstream, PredictedAt, Unnamed;
    DriveUnnamed(env, Upstream(s.graph, n.task), ListOf(lists, id), 0, NoAgent, n.(status := Running));
  }

  /** Generated names never clash. */
  lemma UnnamedAgree(env: Env, lists: map<Id, seq<Name>>, s: Sys)
    requires NeverNames(env) && Inv(s) && s.phase.Looping?
    ensures Agreeing(env, lists, StartWave(s))
  {
    var s0 := StartWave(s);
    assert forall w :: Active(s0, w) ==> w in ReadyIds(s.graph);
    hide Inv, StartWave, NeverNames, PredictedAt, Named, ReadyIds;
    forall w, v, id | Active(s0, w) && Active(s0, v) && id !in s0.graph.nodes
      ensures SameTask(env, lists, s0, w, v, id)
    {
      if NamedAt(env, lists, s0, w, id).Some? && NamedAt(env, lists, s0, v, id).Some? {
        StartUnnamed(env, lists, s, w);
        StartUnnamed(env, lists, s, v);
        var m, n := PredictedAt(env, lists, s0, w), PredictedAt(env, lists, s0, v);
        NamedIsGenerated(env, m, Emits(m), id);
        NamedIsGenerated(env, n, Emits(n), id);
        GeneratedByOne(w, m.attempts);
        GeneratedByOne(v, n.attempts);
      }
    }
  }

  /** The policy reads neither counters nor loads. */
  predicate Static(policy: Policy) {
    policy.LatencyOptimized? || policy.HighestPriority? || policy.UnknownPolicy?
  }

  lemma StaticSteady(env: Env, s: Sys)
    requires Contract(env) && NeverNames(env) && Static(env.policy) && Inv(s) && s.phase.Looping? && !s.cancelled
    ensures SteadyAt(env, s)
  {
    var lists := map id | id in ReadyIds(s.graph) :: CandidatesAt(env, map[], 0, s.graph.nodes[id].task).0;
    hide Inv, Contract, NeverNames, IsReady, StartWave, CandidatesAt, AllDraw, Agreeing, SameEnds;
    forall id | id in ReadyIds(s.graph) ensures AlwaysDraws(env, s.graph.nodes[id].task, lists[id]) {
      StaticPolicyIsFixed(env, s.graph.nodes[id].task);
    }
    FixedAllDraw(env, lists, s);
    UnnamedAgree(env, lists, s);
    WaveConfluenceExactly(env, lists, s);
  }

  lemma {:induction false} StaticRunSteady(env: Env, s: Sys, events: seq<Event>)
    requires Contract(env) && NeverNames(env) && Static(env.policy) && Inv(s)
    ensures Steady(env, s, events)
    decreases |events|
  {
    if events != [] {
      if StartsWave(s) { StaticSteady(env, s); }
      NextKeeps(env, s, events[0]);
      hide Inv, Contract, NeverNames, SteadyAt, Next, StartsWave;
      StaticRunSteady(env, Next(env, s, events[0]), events[1..]);
    }
  }

  /**
   * With a policy that reads no counters or loads, and agents that leave naming to the executor, a mission has one
   * outcome: all its runs that end uncancelled and in time end the same.
   */
  lemma StaticMissionConfluence(env: Env, s: Sys, a: seq<Event>, b: seq<Event>)
    requires Contract(env) && NeverNames(env) && Static(env.policy) && Planned(s.graph) && s.phase.Looping?
    requires Run(env, s, a).phase.Ended? && !Run(env, s, a).cancelled && InTime(Run(env, s, a).graph)
    requires Run(env, s, b).phase.Ended? && !Run(env, s, b).cancelled && InTime(Run(env, s, b).graph)
    ensures
      var t, u := Run(env, s, a), Run(env, s, b);
      t.graph.nodes == u.graph.nodes && t.counters == u.counters && t.phase == u.phase
  {
    PlannedIsStartable(s);
    BoundaryStart(s);
    hide *;
    StaticRunSteady(env, s, a);
    MissionConfluence(env, s, a, b);
  }

  // ----- round-robin -----

  /** The follow-up names its agent, or nothing that several agents offer. */
  predicate TakesNoTurn(env: Env, f: Followup) {
    f.agent != "" || f.capability == "" || |ForCapability(env.manifests, f.capability)| < 2
  }

  /** Agents ask for such follow-ups only. */
  ghost predicate FollowupsTakeNoTurn(env: Env) {
    forall agent, task, up, k, f :: AsksFor(env, agent, task, up, k, f) ==> TakesNoTurn(env, f)
  }

  /** No two tasks of the whole mission take turns at one capability. */
  ghost predicate TurnsApart(env: Env, g: Graph) {
    forall w, v :: w in g.nodes && v in g.nodes && w != v ==> !ShareTurn(env, g, w, v)
  }

  /** The tasks of the graph, and all that take no turns. */
  ghost function Unturned(env: Env, g: Graph): Family {
    Family(iset t: Task | !TakesTurn(env, t) || (t.id in g.nodes && g.nodes[t.id].task == t), {})
  }

  lemma UnturnedClosed(env: Env, g: Graph)
    requires FollowupsTakeNoTurn(env)
    ensures Closed(env, Unturned(env, g))
  {
    hide ForCapability, CanTry, AsksFor;
  }

  lemma UnturnedWithin(env: Env, s: Sys)
    requires Boundary(s.graph) && s.phase.Looping?
    ensures Within(env, Unturned(env, s.graph), s)
  {
    hide TakesTurn;
  }

  /** So no wave of the mission shares a turn. */
  lemma UnturnedShareNone(env: Env, g: Graph, s: Sys)
    requires TurnsApart(env, g) && Within(env, Unturned(env, g), s) && GraphOk(s.graph)
    ensures NoSharedTurn(env, s.graph)
  {
    hide TakesTurn, IsReady, PlaceWithin;
    forall w, v | w in ReadyIds(s.graph) && v in ReadyIds(s.graph) && w != v ensures !ShareTurn(env, s.graph, w, v) {
      SharersAreOld(env, g, s, w, v);
    }
  }

  lemma SharersAreOld(env: Env, g: Graph, s: Sys, w: Id, v: Id)
    requires Within(env, Unturned(env, g), s) && GraphOk(s.graph) && w in s.graph.nodes && v in s.graph.nodes
    ensures ShareTurn(env, s.graph, w, v) ==> w in g.nodes && v in g.nodes && ShareTurn(env, g, w, v)
  {
    if ShareTurn(env, s.graph, w, v) {
      TurnTakerIsOld(env, g, s, w);
      TurnTakerIsOld(env, g, s, v);
    }
  }

  lemma TurnTakerIsOld(env: Env, g: Graph, s: Sys, w: Id)
    requires Within(env, Unturned(env, g), s) && GraphOk(s.graph) && w in s.graph.nodes
    requires TakesTurn(env, s.graph.nodes[w].task)
    ensures w in g.nodes && g.nodes[w].task == s.graph.nodes[w].task
  {
    hide TakesTurn, PlaceWithin;
    assert s.graph.nodes[w].task.id == w;
  }

  lemma RotatingSteady(env: Env, g: Graph, s: Sys)
    requires Contract(env) && NeverNames(env) && env.policy.RoundRobin? && TurnsApart(env, g)
    requires Inv(s) && s.phase.Looping? && !s.cancelled && Within(env, Unturned(env, g), s)
    ensures SteadyAt(env, s)
  {
    hide Contract, NeverNames, TurnsApart, Within, StartWave, AllDraw, Agreeing, SameEnds, WaveLists, NoSharedTurn,
      NodeOk;
    UnturnedShareNone(env, g, s);
    hide Inv;
    UnsharedAllDraw(env, s);
    UnnamedAgree(env, WaveLists(env, s), s);
    WaveConfluenceExactly(env, WaveLists(env, s), s);
  }

  lemma {:induction false} RotatingRunSteady(env: Env, g: Graph, s: Sys, events: seq<Event>)
    requires Contract(env) && NeverNames(env) && env.policy.RoundRobin? && TurnsApart(env, g)
    requires Closed(env, Unturned(env, g)) && Inv(s) && Within(env, Unturned(env, g), s)
    ensures Steady(env, s, events)
    decreases |events|
  {
    if events != [] {
      if StartsWave(s) { RotatingSteady(env, g, s); }
      hide Inv, Contract, NeverNames, SteadyAt, Next, StartsWave, TurnsApart, Closed, Within;
      NextKeeps(env, s, events[0]);
      NextWithin(env, Unturned(env, g), s, events[0]);
      RotatingRunSteady(env, g, Next(env, s, events[0]), events[1..]);
    }
  }

  /**
   * Under round-robin too: if no two tasks of the mission take turns at one capability, and agents ask only for
   * follow-ups that take no turns and leave naming to the executor, the mission has one outcome.
   */
  lemma RotatingMissionConfluence(env: Env, s: Sys, a: seq<Event>, b: seq<Event>)
    requires Contract(env) && NeverNames(env) && FollowupsTakeNoTurn(env) && env.policy.RoundRobin?
    requires Planned(s.graph) && s.phase.Looping? && TurnsApart(env, s.graph)
    requires Run(env, s, a).phase.Ended? && !Run(env, s, a).cancelled && InTime(Run(env, s, a).graph)
    requires Run(env, s, b).phase.Ended? && !Run(env, s, b).cancelled && InTime(Run(env, s, b).graph)
    ensures
      var t, u := Run(env, s, a), Run(env, s, b);
      t.graph.nodes == u.graph.nodes && t.counters == u.counters && t.phase == u.phase
  {
    PlannedIsStartable(s);
    BoundaryStart(s);
    UnturnedClosed(env, s.graph);
    UnturnedWithin(env, s);
    hide *;
    RotatingRunSteady(env, s.graph, s, a);
    MissionConfluence(env, s, a, b);
  }
}
