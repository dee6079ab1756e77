/** Which turns the tasks of a round-robin wave can get, and when that makes no difference to how the wave ends. */
module TurnFates {
  import opened Sets
  import opened Options
  import opened Tasks
  import opened Registry
  import opened Attempts
  import opened Protocol
  import opened Safety
  import opened Lists
  import opened Prediction
  import opened Progress
  import opened Confluence
  import opened Interleavings
  import opened Rotation

  // ----- the counters that a wave moves -----

  /** Beginning this task moves the counter of `cap`. */
  predicate MovesTurn(env: Env, task: Task, cap: string) {
    && env.policy.RoundRobin? && task.preferred == "" && task.capability == cap && cap != ""
    && ForCapability(env.manifests, cap) != []
  }

  lemma CounterMoves(env: Env, task: Task, rr: map<string, nat>, k: nat, cap: string)
    ensures Count(CandidatesAt(env, rr, k, task).1, cap) == Count(rr, cap) + if MovesTurn(env, task, cap) then 1 else 0
  {
    hide FallbacksOf, AppendNew, Distinct;
  }

  /** The tasks of the wave that have begun and moved the counter of `cap`. */
  function Turned(env: Env, s: Sys, cap: string): set<Id>
    requires s.phase.InWave?
  {
    set id | id in s.phase.workers && id in s.graph.nodes && !s.phase.workers[id].Submitted?
      && MovesTurn(env, s.graph.nodes[id].task, cap)
  }

  lemma TurnedMove(env: Env, s: Sys, mover: Id, cap: string)
    requires Contract(env) && Inv(s) && Active(s, mover)
    ensures
      var t := MoveTask(env, s, mover);
      && t.phase.InWave?
      && Count(t.rr, cap) - Count(s.rr, cap) == |Turned(env, t, cap)| - |Turned(env, s, cap)|
  {
    var t, task := MoveTask(env, s, mover), s.graph.nodes[mover].task;
    MovedKeys(env, s, mover);
    CounterOfMove(env, s, mover);
    CounterMoves(env, task, s.rr, s.counters.scheduled, cap);
    TurnedGrows(env, s, mover, cap);
    hide Inv, Contract, MoveTask, CandidatesAt, MovesTurn, Count;
    var more := if s.phase.workers[mover].Submitted? && MovesTurn(env, task, cap) then {mover} else {};
    assert Turned(env, s, cap) !! more;
    assert |Turned(env, s, cap) + more| == |Turned(env, s, cap)| + |more|;
    hide Turned;
  }

  lemma TurnedGrows(env: Env, s: Sys, mover: Id, cap: string)
    requires Contract(env) && Inv(s) && Active(s, mover) && MoveTask(env, s, mover).phase.InWave?
    ensures
      var turn := s.phase.workers[mover].Submitted? && MovesTurn(env, s.graph.nodes[mover].task, cap);
      var more := if turn then {mover} else {};
      Turned(env, MoveTask(env, s, mover), cap) == Turned(env, s, cap) + more
  {
    var t := MoveTask(env, s, mover);
    hide Contract, MoveTask, MovesTurn, Inv;
    MoverMoves(env, s, mover);
    forall id | id in s.phase.workers && id != mover
      ensures id in Turned(env, t, cap) <==> id in Turned(env, s, cap)
    {
      WorkersAreNodes(s, id);
      MoveIsLocal(env, s, mover, id);
    }
  }

  lemma WorkersAreNodes(s: Sys, id: Id)
    requires Inv(s) && s.phase.InWave? && id in s.phase.workers
    ensures id in s.graph.nodes
  {
    hide GraphOk, NodeOk;
  }

  lemma {:induction false} RunTurned(env: Env, s: Sys, events: seq<Event>, cap: string)
    requires Contract(env) && Inv(s) && s.phase.InWave? && WaveEvents(events)
    ensures
      var t := Run(env, s, events);
      && t.phase.InWave?
      && Count(t.rr, cap) - Count(s.rr, cap) == |Turned(env, t, cap)| - |Turned(env, s, cap)|
    decreases |events|
  {
    if events != [] {
      var e, t := events[0], Next(env, s, events[0]);
      NextKeeps(env, s, e);
      if e.Move? {
        if Active(s, e.id) { TurnedMove(env, s, e.id, cap); } else { StaysPut(env, s, e.id); }
      }
      hide Inv, Contract, MoveTask, Count, MovesTurn;
      RunTurned(env, t, events[1..], cap);
    }
  }

  // ----- the turns a task can get -----

  /** The tasks of the wave that take turns with this one, itself among them. */
  function Sharers(env: Env, g: Graph, v: Id): set<Id>
    requires v in g.nodes
  {
    set w | w in ReadyIds(g) && ShareTurn(env, g, w, v)
  }

  /** The list of a task before which `i` others have taken their turns. */
  function TurnList(env: Env, rr: map<string, nat>, task: Task, i: nat): seq<Name> {
    CandidatesAt(env, rr[task.capability := Count(rr, task.capability) + i], 0, task).0
  }

  /** The end a task is headed for with that list. */
  function EndAtTurn(env: Env, s: Sys, v: Id, i: nat): Node
    requires v in s.graph.nodes
  {
    var n := s.graph.nodes[v];
    TryAll(env, Upstream(s.graph, n.task), TurnList(env, s.rr, n.task, i), n.(status := Running)).node
  }

  /** No task's end depends on how many of those it shares with come before it. */
  ghost predicate OneFate(env: Env, s: Sys) {
    forall v, i: nat :: v in ReadyIds(s.graph) && i < |Sharers(env, s.graph, v)| ==>
                          EndAtTurn(env, s, v, i) == EndAtTurn(env, s, v, 0)
  }

  /** A list was drawn when the task began, by the counters of that moment. */
  lemma {:induction false} DrawnAt(env: Env, s: Sys, events: seq<Event>, w: Id) returns (k: nat)
    requires w in Drawn(env, s, events)
    ensures k < |events| && events[k] == Move(w)
    ensures
      var t := Run(env, s, events[..k]);
      && Active(t, w) && t.phase.workers[w].Submitted? && Drawn(env, s, events)[w] == DrawnBy(env, t, w)
    decreases |events|
  {
    hide Next, DrawnBy;
    if Begins(s, events[0]) && events[0].id == w {
      k := 0;
    } else {
      var j := DrawnAt(env, Next(env, s, events[0]), events[1..], w);
      k := j + 1;
      assert events[..k][0] == events[0] && events[..k][1..] == events[1..][..j];
    }
  }

  lemma StrictPart(a: set<Id>, b: set<Id>, w: Id)
    requires a <= b && w in b && w !in a
    ensures |a| < |b|
  {
    assert a <= b - {w};
    SubsetSize(a, b - {w});
  }

  /** Those who have taken their turn before a task that has yet to begin are among those it shares with. */
  lemma TurnedAreSharers(env: Env, s: Sys, t: Sys, w: Id)
    requires env.policy.RoundRobin? && s.phase.Looping? && w in ReadyIds(s.graph)
             && TakesTurn(env, s.graph.nodes[w].task)
    requires t.phase.InWave? && t.phase.workers.Keys == ReadyIds(s.graph) && Grows(StartWave(s).graph, t.graph)
    requires Active(t, w) && t.phase.workers[w].Submitted?
    ensures |Turned(env, t, s.graph.nodes[w].task.capability)| < |Sharers(env, s.graph, w)|
  {
    var cap := s.graph.nodes[w].task.capability;
    hide IsReady, ForCapability, Settled;
    forall v | v in Turned(env, t, cap) ensures v in Sharers(env, s.graph, w) {
      assert t.graph.nodes[v].task == s.graph.nodes[v].task;
    }
    hide MovesTurn, ReadyIds;
    StrictPart(Turned(env, t, cap), Sharers(env, s.graph, w), w);
  }

  /** Which turn a task got. */
  lemma DrawnTurn(env: Env, s: Sys, events: seq<Event>, w: Id) returns (i: nat)
    requires Contract(env) && env.policy.RoundRobin? && Inv(s) && s.phase.Looping? && WaveEvents(events)
    requires w in Drawn(env, StartWave(s), events)
    ensures w in ReadyIds(s.graph)
    ensures TakesTurn(env, s.graph.nodes[w].task) ==> i < |Sharers(env, s.graph, w)|
    ensures Drawn(env, StartWave(s), events)[w]
            == TurnList(env, s.rr, s.graph.nodes[w].task, if TakesTurn(env, s.graph.nodes[w].task) then i else 0)
  {
    var s0 := StartWave(s);
    var k := DrawnAt(env, s0, events, w);
    var t := Run(env, s0, events[..k]);
    FirstEvents(events, k);
    hide *;
    TurnsSoFar(env, s, events[..k], w);
    var task := s.graph.nodes[w].task;
    i := |Turned(env, t, task.capability)|;
    if TakesTurn(env, task) { TurnedAreSharers(env, s, t, w); }
    ListAfter(env, task, t.rr, t.counters.scheduled, s.rr, i);
    DrawnIs(env, t, w);
  }

  lemma FirstEvents(events: seq<Event>, k: nat)
    requires k <= |events| && WaveEvents(events)
    ensures WaveEvents(events[..k])
  {
  }

  lemma DrawnIs(env: Env, t: Sys, w: Id)
    requires Active(t, w)
    ensures w in t.graph.nodes
            && DrawnBy(env, t, w) == CandidatesAt(env, t.rr, t.counters.scheduled, t.graph.nodes[w].task).0
  {
  }

  lemma ListAfter(env: Env, task: Task, rr: map<string, nat>, k: nat, rr0: map<string, nat>, i: nat)
    requires env.policy.RoundRobin? && Count(rr, task.capability) == Count(rr0, task.capability) + i
    ensures CandidatesAt(env, rr, k, task).0 == TurnList(env, rr0, task, if TakesTurn(env, task) then i else 0)
  {
    hide CandidatesAt, TakesTurn;
    var at := if TakesTurn(env, task) then i else 0;
    ListByTurn(env, task, rr, k, rr0[task.capability := Count(rr0, task.capability) + at], 0);
  }

  /** In the middle of a wave the counters tell how many have taken their turns. */
  lemma TurnsSoFar(env: Env, s: Sys, before: seq<Event>, w: Id)
    requires Contract(env) && Inv(s) && s.phase.Looping? && WaveEvents(before)
    requires Active(Run(env, StartWave(s), before), w)
    ensures
      var t := Run(env, StartWave(s), before);
      && t.phase.workers.Keys == ReadyIds(s.graph) && Grows(StartWave(s).graph, t.graph)
      && w in ReadyIds(s.graph) && w in s.graph.nodes && t.graph.nodes[w].task == s.graph.nodes[w].task
      && var cap := s.graph.nodes[w].task.capability;
         Count(t.rr, cap) == Count(s.rr, cap) + |Turned(env, t, cap)|
  {
    var s0 := StartWave(s);
    Between(s);
    StartKeeps(s);
    StartFacts(s);
    assert NoAdvance(before);
    hide Inv, Contract, Run, StartWave, IsReady, Settled, MovesTurn, Count;
    WaveStays(env, s0, before);
    RunKeeps(env, s0, before);
    var cap := s.graph.nodes[w].task.capability;
    RunTurned(env, s0, before, cap);
    NoneTurned(env, s, cap);
  }

  lemma StartFacts(s: Sys)
    ensures
      var s0 := StartWave(s);
      && s0.phase.InWave? && s0.phase.workers.Keys == ReadyIds(s.graph) && s0.rr == s.rr && s0.cancelled == s.cancelled
      && s0.graph.nodes.Keys == s.graph.nodes.Keys
      && (forall id :: id in s.graph.nodes ==> s0.graph.nodes[id].task == s.graph.nodes[id].task)
      && (forall id :: Active(s0, id) <==> id in ReadyIds(s.graph))
      && (forall id :: Active(s0, id) ==> s0.phase.workers[id].Submitted?)
  {
    hide IsReady;
  }

  lemma NoneTurned(env: Env, s: Sys, cap: string)
    ensures StartWave(s).phase.InWave? && Turned(env, StartWave(s), cap) == {}
  {
    hide IsReady, MovesTurn;
  }

  /** These tasks of the wave take turns with this one, and have yet to begin, as it has. */
  ghost predicate Waiting(env: Env, s: Sys, others: set<Id>, v: Id) {
    && Active(s, v) && s.phase.workers[v].Submitted? && v !in others
    && forall w :: w in others ==> Active(s, w) && s.phase.workers[w].Submitted? && ShareTurn(env, s.graph, w, v)
  }

  /** Any turn that is there to be had can be had. */
  lemma {:induction false} TurnCanBe(env: Env, s: Sys, others: set<Id>, v: Id) returns (events: seq<Event>)
    requires Contract(env) && env.policy.RoundRobin? && Inv(s) && Waiting(env, s, others, v)
    ensures WaveEvents(events) && v in s.graph.nodes && v in Drawn(env, s, events)
    ensures Drawn(env, s, events)[v] == TurnList(env, s.rr, s.graph.nodes[v].task, |others|)
    decreases |others|
  {
    var task := s.graph.nodes[v].task;
    if others == {} {
      events := [Move(v)];
      DrawsFirst(env, s, v);
      hide *;
    } else {
      var w :| w in others;
      hide *;
      OneTurn(env, s, w, v, others);
      LessOne(others, w);
      var rest := TurnCanBe(env, MoveTask(env, s, w), others - {w}, v);
      events := [Move(w)] + rest;
      DrawsLater(env, s, w, v, rest);
      SameTurnList(env, task, MoveTask(env, s, w).rr, |others| - 1, s.rr, |others|);
    }
  }

  lemma LessOne(a: set<Id>, w: Id)
    requires w in a
    ensures |a - {w}| == |a| - 1
  {
  }

  lemma DrawsFirst(env: Env, s: Sys, v: Id)
    requires env.policy.RoundRobin? && Active(s, v) && s.phase.workers[v].Submitted?
    ensures WaveEvents([Move(v)]) && v in s.graph.nodes && v in Drawn(env, s, [Move(v)])
    ensures Drawn(env, s, [Move(v)])[v] == TurnList(env, s.rr, s.graph.nodes[v].task, 0)
  {
    var task := s.graph.nodes[v].task;
    assert Drawn(env, s, [Move(v)])[v] == DrawnBy(env, s, v);
    hide CandidatesAt, Drawn, MoveTask;
    ListByTurn(env, task, s.rr, s.counters.scheduled, s.rr[task.capability := Count(s.rr, task.capability)], 0);
  }

  lemma DrawsLater(env: Env, s: Sys, w: Id, v: Id, rest: seq<Event>)
    requires w != v && WaveEvents(rest) && v in Drawn(env, MoveTask(env, s, w), rest)
    ensures WaveEvents([Move(w)] + rest) && v in Drawn(env, s, [Move(w)] + rest)
    ensures Drawn(env, s, [Move(w)] + rest)[v] == Drawn(env, MoveTask(env, s, w), rest)[v]
  {
    hide MoveTask, DrawnBy;
    assert ([Move(w)] + rest)[1..] == rest && ([Move(w)] + rest)[0] == Move(w);
  }

  /** One more of them takes its turn. */
  lemma OneTurn(env: Env, s: Sys, w: Id, v: Id, others: set<Id>)
    requires Contract(env) && env.policy.RoundRobin? && Inv(s) && Waiting(env, s, others, v) && w in others
    ensures w != v && v in s.graph.nodes
    ensures
      var t, cap := MoveTask(env, s, w), s.graph.nodes[v].task.capability;
      && Inv(t) && Waiting(env, t, others - {w}, v) && t.graph.nodes[v] == s.graph.nodes[v]
      && Count(t.rr, cap) == Count(s.rr, cap) + 1
  {
    hide Inv, Contract, MoveTask, CandidatesAt, TakesTurn, Count;
    MoveKeeps(env, s, w);
    MoveIsLocal(env, s, w, v);
    OthersStay(env, s, w, v, others);
    CounterOfMove(env, s, w);
    TurnTaken(env, s.graph.nodes[w].task, s.rr, s.counters.scheduled);
  }

  lemma SameTurnList(env: Env, task: Task, rr: map<string, nat>, i: nat, rr': map<string, nat>, i': nat)
    requires env.policy.RoundRobin? && Count(rr, task.capability) + i == Count(rr', task.capability) + i'
    ensures TurnList(env, rr, task, i) == TurnList(env, rr', task, i')
  {
    hide CandidatesAt;
    var cap := task.capability;
    ListByTurn(env, task, rr[cap := Count(rr, cap) + i], 0, rr'[cap := Count(rr', cap) + i'], 0);
  }

  lemma OthersStay(env: Env, s: Sys, w: Id, v: Id, others: set<Id>)
    requires Active(s, w) && Active(s, v) && v != w
    requires forall x :: x in others ==> Active(s, x) && s.phase.workers[x].Submitted? && ShareTurn(env, s.graph, x, v)
    ensures
      var t := MoveTask(env, s, w);
      && v in t.graph.nodes
      && forall x :: x in others && x != w ==>
                       Active(t, x) && t.phase.workers[x].Submitted? && ShareTurn(env, t.graph, x, v)
  {
    var t := MoveTask(env, s, w);
    hide MoveTask, TakesTurn;
    MoveIsLocal(env, s, w, v);
    forall x | x in others && x != w
      ensures Active(t, x) && t.phase.workers[x].Submitted? && ShareTurn(env, t.graph, x, v)
    {
      MoveIsLocal(env, s, w, x);
    }
  }

  lemma {:induction false} SomeOf(a: set<Id>, i: nat) returns (b: set<Id>)
    requires i <= |a|
    ensures b <= a && |b| == i
  {
    if i == 0 {
      b := {};
    } else {
      var x :| x in a;
      var c := SomeOf(a - {x}, i - 1);
      b := c + {x};
    }
  }

  // ----- the exact condition -----

  /** The end of a task of the wave, by the list it has. */
  lemma EndByList(env: Env, lists: map<Id, seq<Name>>, s: Sys, v: Id, i: nat)
    requires Inv(s) && s.phase.Looping? && v in ReadyIds(s.graph)
    requires v in lists && lists[v] == TurnList(env, s.rr, s.graph.nodes[v].task, i)
    ensures Active(StartWave(s), v) && PredictedAt(env, lists, StartWave(s), v) == EndAtTurn(env, s, v, i)
  {
    hide Inv, IsReady, TurnList, TryAll, Upstream;
    PredictedAtStart(env, lists, s, v);
  }

  /** If no list matters, no turn does. */
  lemma FatedTurn(env: Env, lists: map<Id, seq<Name>>, s: Sys, v: Id, i: nat)
    requires Contract(env) && env.policy.RoundRobin? && Inv(s) && s.phase.Looping?
    requires AllFated(env, lists, StartWave(s)) && v in ReadyIds(s.graph) && i < |Sharers(env, s.graph, v)|
    ensures Active(StartWave(s), v) && EndAtTurn(env, s, v, i) == PredictedAt(env, lists, StartWave(s), v)
  {
    var s0 := StartWave(s);
    Between(s);
    StartKeeps(s);
    StartFacts(s);
    hide *;
    var others := SomeSharers(env, s, v, i);
    var events := TurnCanBe(env, s0, others, v);
    var drawn := lists + Drawn(env, s0, events);
    SameTurnList(env, s.graph.nodes[v].task, s0.rr, i, s.rr, i);
    EndByList(env, drawn, s, v, i);
    FatedAt(env, lists, s0, events);
    FateOf(env, lists, drawn, s0, v);
  }

  lemma FatedAt(env: Env, lists: map<Id, seq<Name>>, s0: Sys, events: seq<Event>)
    requires AllFated(env, lists, s0) && WaveEvents(events)
    ensures SameFate(env, lists, lists + Drawn(env, s0, events), s0)
  {
    hide SameFate, Drawn;
  }

  /** So many of those it shares with, all still to begin. */
  lemma SomeSharers(env: Env, s: Sys, v: Id, i: nat) returns (others: set<Id>)
    requires s.phase.Looping? && v in ReadyIds(s.graph) && i < |Sharers(env, s.graph, v)|
    ensures v in s.graph.nodes && Waiting(env, StartWave(s), others, v) && |others| == i
  {
    var s0 := StartWave(s);
    StartFacts(s);
    hide StartWave, TakesTurn, IsReady;
    var w :| w in Sharers(env, s.graph, v);
    assert ShareTurn(env, s.graph, v, v);
    LessOne(Sharers(env, s.graph, v), v);
    others := SomeOf(Sharers(env, s.graph, v) - {v}, i);
    forall w | w in others ensures ShareTurn(env, s0.graph, w, v) { assert ShareTurn(env, s.graph, w, v); }
  }

  lemma FateOf(env: Env, lists: map<Id, seq<Name>>, drawn: map<Id, seq<Name>>, s0: Sys, v: Id)
    requires SameFate(env, lists, drawn, s0) && Active(s0, v)
    ensures PredictedAt(env, drawn, s0, v) == PredictedAt(env, lists, s0, v)
  {
  }

  /** The lists of the counters that the wave starts with are those of the first turn. */
  lemma WaveListsFirst(env: Env, s: Sys, v: Id)
    requires env.policy.RoundRobin? && v in ReadyIds(s.graph)
    ensures v in WaveLists(env, s) && WaveLists(env, s)[v] == TurnList(env, s.rr, s.graph.nodes[v].task, 0)
  {
    hide CandidatesAt, IsReady;
    var task := s.graph.nodes[v].task;
    ListByTurn(env, task, s.rr, 0, s.rr[task.capability := Count(s.rr, task.capability)], 0);
  }

  /** If no turn matters, no list does. */
  lemma OneFateFated(env: Env, s: Sys)
    requires Contract(env) && env.policy.RoundRobin? && Inv(s) && s.phase.Looping? && OneFate(env, s)
    ensures AllFated(env, WaveLists(env, s), StartWave(s))
  {
    var s0, lists := StartWave(s), WaveLists(env, s);
    StartFacts(s);
    hide Inv, Contract, StartWave, TakesTurn, Drawn, TurnList, EndAtTurn, PredictedAt, WaveLists, ReadyIds, Sharers;
    forall events, w | WaveEvents(events) && Active(s0, w)
      ensures PredictedAt(env, lists + Drawn(env, s0, events), s0, w) == PredictedAt(env, lists, s0, w)
    {
      WaveListsFirst(env, s, w);
      EndByList(env, lists, s, w, 0);
      if w in Drawn(env, s0, events) {
        var i := DrawnTurn(env, s, events, w);
        EndByList(env, lists + Drawn(env, s0, events), s, w, if TakesTurn(env, s.graph.nodes[w].task) then i else 0);
      } else {
        EndByList(env, lists + Drawn(env, s0, events), s, w, 0);
      }
    }
    assert AllFated(env, lists, s0);
  }

  /**
   * Under round-robin, whatever the agents do: all interleavings of a wave end the same exactly if no task's end
   * depends on how many of those it takes turns with come before it, and tasks that ask for the same new id ask for
   * the same task.
   */
  lemma RoundRobinConfluenceExactly(env: Env, s: Sys)
    requires Contract(env) && env.policy.RoundRobin? && Inv(s) && s.phase.Looping? && !s.cancelled
    ensures SameEnds(env, StartWave(s)) <==> OneFate(env, s) && Agreeing(env, WaveLists(env, s), StartWave(s))
  {
    hide Inv, Contract, StartWave, WaveLists, ReadyIds, Sharers, EndAtTurn, Agreeing, SameEnds, AllFated, PredictedAt;
    ConfluentExactly(env, s);
    if OneFate(env, s) {
      OneFateFated(env, s);
      FatedConfluenceExactly(env, WaveLists(env, s), s);
    } else {
      hide OneFate;
      if lists :| AllFated(env, lists, StartWave(s)) && Agreeing(env, lists, StartWave(s)) {
        FatedOneFate(env, lists, s);
        assert false;
      }
    }
  }

  lemma FatedOneFate(env: Env, lists: map<Id, seq<Name>>, s: Sys)
    requires Contract(env) && env.policy.RoundRobin? && Inv(s) && s.phase.Looping? && AllFated(env, lists, StartWave(s))
    ensures OneFate(env, s)
  {
    assert forall v :: v in ReadyIds(s.graph) ==> v in s.graph.nodes;
    hide Inv, Contract, StartWave, ReadyIds, Sharers, EndAtTurn, AllFated, PredictedAt;
    forall v, i: nat | v in ReadyIds(s.graph) && i < |Sharers(env, s.graph, v)|
      ensures EndAtTurn(env, s, v, i) == EndAtTurn(env, s, v, 0)
    {
      FatedTurn(env, lists, s, v, i);
      FatedTurn(env, lists, s, v, 0);
    }
  }

  // ----- agents that answer -----

  /** The task may be tried, and every agent it could be given first answers its first call. */
  ghost predicate AnsweredFirst(env: Env, g: Graph, v: Id)
    requires v in g.nodes
  {
    var task := g.nodes[v].task;
    && task.maxRetries >= 0
    && forall m :: m in env.manifests && m.allowed && task.capability in m.capabilities ==>
                     Invoke(env, m.name, task, Upstream(g, task), 1).outcome.Replied?
  }

  /** The first of a list drawn in turn is an allowed agent that offers the capability. */
  lemma FirstIsOffered(env: Env, rr: map<string, nat>, k: nat, task: Task)
    requires env.policy.RoundRobin? && TakesTurn(env, task)
    ensures
      var list := CandidatesAt(env, rr, k, task).0;
      list != [] && exists m ::
        m in env.manifests && m.allowed && task.capability in m.capabilities && m.name == list[0]
  {
    var cs := ForCapability(env.manifests, task.capability);
    var load := name => env.load(k, name);
    ForCapabilityMembers(env.manifests, task.capability, cs[0]);
    assert cs[0] in cs;
    SelectPicksACandidate(env.manifests, rr, load, env.policy, task.capability);
    CandidateList(env.manifests, rr, load, env.policy, task);
    hide Select, ForCapability, Distinct, AppendNew, FallbacksOf, Best;
  }

  /** Such a task ends with the first agent of its list. */
  lemma EndsWithFirst(env: Env, s: Sys, v: Id, i: nat)
    requires env.policy.RoundRobin? && Inv(s) && s.phase.Looping? && v in ReadyIds(s.graph)
    requires TakesTurn(env, s.graph.nodes[v].task) && AnsweredFirst(env, s.graph, v)
    ensures
      var list := TurnList(env, s.rr, s.graph.nodes[v].task, i);
      list != [] && EndAtTurn(env, s, v, i).agent == Some(list[0])
  {
    var n := s.graph.nodes[v];
    var cap := n.task.capability;
    ReadyIsFresh(s, v);
    FirstIsOffered(env, s.rr[cap := Count(s.rr, cap) + i], 0, n.task);
    hide Inv, TakesTurn, ReadyIds, CandidatesAt, Upstream, Invoke, TryAll;
    FirstAnswers(env, Upstream(s.graph, n.task), TurnList(env, s.rr, n.task, i), n.task);
  }

  lemma ReadyIsFresh(s: Sys, v: Id)
    requires Inv(s) && s.phase.Looping? && v in ReadyIds(s.graph)
    ensures v in s.graph.nodes && s.graph.nodes[v] == FreshNode(s.graph.nodes[v].task)
  {
    hide GraphOk, DepsDone;
    Between(s);
  }

  /** The agent that answers is the one recorded. */
  lemma FirstAnswers(env: Env, up: map<Id, Reply>, list: seq<Name>, task: Task)
    requires list != [] && task.maxRetries >= 0 && Invoke(env, list[0], task, up, 1).outcome.Replied?
    ensures TryAll(env, up, list, FreshNode(task).(status := Running)).node.agent == Some(list[0])
  {
    var n := Attempted(FreshNode(task).(status := Running), list[0]);
    assert n.attempts == 1 && n.task == task;
    hide Invoke;
  }

  /** Two tasks that take turns at one capability: who comes first decides who is asked, and the ends differ. */
  lemma SharedTurnDiverges(env: Env, s: Sys, w: Id, v: Id)
    requires Contract(env) && env.policy.RoundRobin? && Directory(env.manifests)
    requires Inv(s) && s.phase.Looping? && !s.cancelled && w != v && w in ReadyIds(s.graph) && v in ReadyIds(s.graph)
    requires ShareTurn(env, s.graph, w, v) && AnsweredFirst(env, s.graph, v)
    ensures !SameEnds(env, StartWave(s))
  {
    FateDiffers(env, s, w, v);
    hide *;
    RoundRobinConfluenceExactly(env, s);
  }

  lemma FateDiffers(env: Env, s: Sys, w: Id, v: Id)
    requires env.policy.RoundRobin? && Directory(env.manifests) && Inv(s) && s.phase.Looping?
    requires w != v && w in ReadyIds(s.graph) && v in ReadyIds(s.graph)
    requires ShareTurn(env, s.graph, w, v) && AnsweredFirst(env, s.graph, v)
    ensures !OneFate(env, s)
  {
    hide Inv, IsReady, TakesTurn, AnsweredFirst, Sharers, EndAtTurn, TurnList;
    assert TakesTurn(env, s.graph.nodes[v].task);
    TwoSharers(env, s.graph, w, v);
    EndsWithFirst(env, s, v, 0);
    EndsWithFirst(env, s, v, 1);
    FirstTwoDiffer(env, s.rr, s.graph.nodes[v].task);
  }

  lemma FirstTwoDiffer(env: Env, rr: map<string, nat>, task: Task)
    requires env.policy.RoundRobin? && Directory(env.manifests) && TakesTurn(env, task)
    ensures
      var one, two := TurnList(env, rr, task, 0), TurnList(env, rr, task, 1);
      one != [] && two != [] && one[0] != two[0]
  {
    hide CandidatesAt, TakesTurn;
    var cap, c := task.capability, Count(rr, task.capability);
    TurnsDiffer(env, task, rr[cap := c], rr[cap := c + 1], 0, 0);
  }

  lemma TwoSharers(env: Env, g: Graph, w: Id, v: Id)
    requires w in ReadyIds(g) && v in ReadyIds(g) && w != v && ShareTurn(env, g, w, v)
    ensures |Sharers(env, g, v)| >= 2
  {
    hide IsReady, TakesTurn;
    assert ShareTurn(env, g, v, v);
    assert {w, v} <= Sharers(env, g, v);
    SubsetSize({w, v}, Sharers(env, g, v));
  }

  /**
   * So where the agents that offer a shared capability answer: exactly if no turn is shared and those that ask for
   * the same new id ask for the same task.
   */
  lemma AnsweredConfluenceExactly(env: Env, s: Sys)
    requires Contract(env) && env.policy.RoundRobin? && Directory(env.manifests)
    requires Inv(s) && s.phase.Looping? && !s.cancelled
    requires forall v :: v in ReadyIds(s.graph) && TakesTurn(env, s.graph.nodes[v].task) ==>
                           AnsweredFirst(env, s.graph, v)
    ensures SameEnds(env, StartWave(s)) <==>
      NoSharedTurn(env, s.graph) && Agreeing(env, WaveLists(env, s), StartWave(s))
  {
    if NoSharedTurn(env, s.graph) {
      hide Inv, Contract, StartWave, WaveLists, ShareTurn, IsReady, Agreeing, SameEnds, AnsweredFirst, TakesTurn;
      UnsharedAllDraw(env, s);
      WaveConfluenceExactly(env, WaveLists(env, s), s);
    } else {
      var w, v :| w in ReadyIds(s.graph) && v in ReadyIds(s.graph) && w != v && ShareTurn(env, s.graph, w, v);
      hide Inv, Contract, StartWave, WaveLists, IsReady, Agreeing, SameEnds, AnsweredFirst, TakesTurn;
      SharedTurnDiverges(env, s, w, v);
    }
  }
}
