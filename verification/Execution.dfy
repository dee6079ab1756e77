/** The executor: its methods, each proved to be a run of the mission protocol. */
module Execution {
  import opened Sorting
  import opened Options
  import opened Tasks
  import opened Registry
  import opened Attempts
  import opened Protocol
  import opened Safety
  import opened Ledger
  import opened Followups
  import opened Outcomes
  import opened Termination
  import opened Planner

  /** The cooperative cancellation flag; other threads may set it at any moment, nobody clears it. */
  class CancelFlag {
    var isSet: bool

    constructor ()
      ensures !isSet
    {
      isSet := false;
    }

    method Poll() returns (r: bool)
      modifies this
      ensures r == isSet && (old(isSet) ==> isSet)
    {
      if * { isSet := true; }
      r := isSet;
    }
  }

  /** A clock that never runs back. `waited` is the part of its time that was spent in calls and pauses. */
  class Clock {
    var now: int
    ghost var waited: nat

    constructor (now: int)
      ensures this.now == now
    {
      this.now := now;
    }

    method NowMs() returns (t: int)
      modifies this
      ensures t == now >= old(now) && waited == old(waited)
    {
      var d: nat :| d >= 0;
      now := now + d;
      t := now;
    }

    method Sleep(ms: nat)
      modifies this
      ensures now >= old(now) + ms && waited == old(waited) + ms
    {
      var d: nat :| d >= 0;
      now := now + ms + d;
      waited := waited + ms;
    }
  }

  class Metrics {
    var scheduled: nat
    var completed: nat
    var failures: nat

    constructor ()
      ensures Read() == Counters(0, 0, 0)
    {
      scheduled, completed, failures := 0, 0, 0;
    }

    function Read(): Counters
      reads this
    {
      Counters(scheduled, completed, failures)
    }
  }

  // ----- single protocol steps, by where the task is -----

  lemma BeginStep(env: Env, s: Sys, id: Id)
    requires Active(s, id) && s.phase.workers[id].Submitted?
    ensures MoveTask(env, s, id) == Begin(env, s, id)
  {
    hide Begin;
  }

  lemma ExhaustedStep(env: Env, s: Sys, id: Id)
    requires Active(s, id) && s.phase.workers[id].AtLoop? && s.phase.workers[id].agents == []
    ensures MoveTask(env, s, id)
         == PutNode(s, id, FailedFor(s.graph.nodes[id], s.phase.workers[id].last), Returned)
              .(counters := s.counters.(failures := s.counters.failures + 1))
  {
  }

  lemma NextAgentStep(env: Env, s: Sys, id: Id)
    requires Active(s, id) && s.phase.workers[id].AtLoop? && s.phase.workers[id].agents != []
    requires s.phase.workers[id].attempt > s.graph.nodes[id].task.maxRetries
    ensures
      var w := s.phase.workers[id];
      MoveTask(env, s, id) == PutWorker(s, id, AtLoop(w.up, w.agents[1..], 0, w.last))
  {
  }

  lemma CancelledStep(env: Env, s: Sys, id: Id)
    requires Active(s, id) && s.phase.workers[id].AtLoop? && s.phase.workers[id].agents != []
    requires s.phase.workers[id].attempt <= s.graph.nodes[id].task.maxRetries && s.cancelled
    ensures MoveTask(env, s, id) == PutNode(s, id, FailedFor(s.graph.nodes[id], CancelledNote), Returned)
  {
  }

  /** Cleared and counted: the check and the attempt, two steps. */
  lemma AttemptSteps(env: Env, s: Sys, id: Id)
    requires Active(s, id) && s.phase.workers[id].AtLoop? && s.phase.workers[id].agents != []
    requires s.phase.workers[id].attempt <= s.graph.nodes[id].task.maxRetries && !s.cancelled
    ensures
      var w := s.phase.workers[id];
      MoveTask(env, MoveTask(env, s, id), id)
        == PutNode(s, id, Attempted(s.graph.nodes[id], w.agents[0]), Calling(w.up, w.agents, w.attempt, w.last))
  {
    var w := s.phase.workers[id];
    var t := MoveTask(env, s, id);
    assert t == PutWorker(s, id, Checked(w.up, w.agents, w.attempt, w.last));
    var checked, calling := Checked(w.up, w.agents, w.attempt, w.last), Calling(w.up, w.agents, w.attempt, w.last);
    assert s.phase.workers[id := checked][id := calling]
        == s.phase.workers[id := Calling(w.up, w.agents, w.attempt, w.last)];
  }

  lemma AnswerStep(env: Env, s: Sys, id: Id)
    requires Active(s, id) && s.phase.workers[id].Calling? && s.phase.workers[id].agents != []
    ensures MoveTask(env, s, id) == Answer(env, s, id)
  {
    hide Answer;
  }

  lemma SpawnStep(env: Env, s: Sys, id: Id)
    requires Active(s, id) && s.phase.workers[id].Spawning?
    ensures MoveTask(env, s, id) == Spawn(env, s, id)
  {
    hide Spawn;
  }

  lemma TwoMoves(env: Env, s0: Sys, s: Sys, id: Id)
    requires Reaches(env, s0, s)
    ensures Reaches(env, s0, MoveTask(env, MoveTask(env, s, id), id))
  {
    hide MoveTask;
    OneMove(env, s0, s, id);
    OneMove(env, s0, MoveTask(env, s, id), id);
  }

  lemma OneMove(env: Env, s0: Sys, s: Sys, id: Id)
    requires Reaches(env, s0, s)
    ensures Reaches(env, s0, MoveTask(env, s, id))
  {
    hide MoveTask;
    ReachesStep(env, s0, s, Move(id));
  }

  // ----- a task's place in a wave -----

  /** In `s` the task `id` is at place `w`, and all other tasks are where they were in `s0`. */
  ghost predicate Placed(s0: Sys, s: Sys, id: Id, w: Worker) {
    && s0.phase.InWave? && id in s0.phase.workers
    && s.phase == InWave(s0.phase.workers[id := w]) && s.deadline == s0.deadline && s.waves == s0.waves
  }

  lemma PlacedPut(s0: Sys, s: Sys, id: Id, w: Worker, n: Node, w': Worker, c: Counters, rr: map<string, nat>)
    requires Placed(s0, s, id, w)
    ensures Placed(s0, PutNode(s, id, n, w').(counters := c), id, w')
    ensures Placed(s0, PutWorker(s, id, w').(counters := c, rr := rr), id, w')
  {
    assert s0.phase.workers[id := w][id := w'] == s0.phase.workers[id := w'];
  }

  lemma PlacedBy(s0: Sys, s: Sys, t: Sys, id: Id, w: Worker, w': Worker)
    requires Placed(s0, s, id, w) && s.phase.InWave?
    requires t.phase == InWave(s.phase.workers[id := w']) && t.deadline == s.deadline && t.waves == s.waves
    ensures Placed(s0, t, id, w')
  {
    assert s0.phase.workers[id := w][id := w'] == s0.phase.workers[id := w'];
  }

  lemma PlacedFlag(s0: Sys, s: Sys, id: Id, w: Worker, flag: bool, now: int)
    requires Placed(s0, s, id, w)
    ensures Placed(s0, s.(cancelled := flag), id, w) && Placed(s0, s.(clock := now), id, w)
  {
  }


  class Executor {
    const env: Env
    const metrics: Metrics
    const registry: AgentRegistry
    const cancel: CancelFlag
    const clock: Clock

    constructor (env: Env, metrics: Metrics, registry: AgentRegistry, cancel: CancelFlag, clock: Clock)
      ensures this.env == env && this.metrics == metrics && this.registry == registry && this.cancel == cancel
              && this.clock == clock
    {
      this.env, this.metrics, this.registry, this.cancel, this.clock := env, metrics, registry, cancel, clock;
    }

    /** The protocol state these objects are in, given where the run is. */
    ghost function Abs(graph: TaskGraph, phase: Phase, deadline: int, waves: nat): Sys
      reads graph, graph.nodes.Values, metrics, registry, cancel, clock
    {
      Sys(graph.View(), metrics.Read(), registry.rr, cancel.isSet, clock.now, deadline, phase, waves)
    }

    /** The objects are in protocol state `s`. */
    ghost predicate Mirrors(graph: TaskGraph, s: Sys)
      reads graph, graph.nodes.Values, metrics, registry, cancel, clock
    {
      graph.Valid() && registry.manifests == env.manifests && s == Abs(graph, s.phase, s.deadline, s.waves)
    }

    /** Polling the flag: the flag may go up, which is a protocol event. */
    method PollCancel(graph: TaskGraph, ghost s0: Sys, ghost s: Sys) returns (r: bool, ghost t: Sys)
      requires Mirrors(graph, s) && Reaches(env, s0, s)
      modifies cancel
      ensures Mirrors(graph, t) && Reaches(env, s0, t)
      ensures t == s.(cancelled := r)
    {
      r := cancel.Poll();
      t := s;
      if r && !s.cancelled {
        t := s.(cancelled := true);
        ReachesStep(env, s0, s, Cancel);
      }
    }

    /** Time passes, which is a protocol event. */
    method ReadClock(graph: TaskGraph, ghost s0: Sys, ghost s: Sys) returns (now: int, ghost t: Sys)
      requires Mirrors(graph, s) && Reaches(env, s0, s)
      modifies clock
      ensures Mirrors(graph, t) && Reaches(env, s0, t)
      ensures t == s.(clock := now)
    {
      now := clock.NowMs();
      t := s.(clock := now);
      ReachesStep(env, s0, s, Tick(now - s.clock));
    }

    method Pause(graph: TaskGraph, ms: nat, ghost s0: Sys, ghost s: Sys) returns (ghost t: Sys)
      requires Mirrors(graph, s) && Reaches(env, s0, s)
      modifies clock
      ensures Mirrors(graph, t) && Reaches(env, s0, t)
      ensures t == s.(clock := clock.now)
      ensures clock.now >= old(clock.now) + ms && clock.waited == old(clock.waited) + ms
    {
      clock.Sleep(ms);
      t := s.(clock := clock.now);
      ReachesStep(env, s0, s, Tick(clock.now - s.clock));
    }

    // ----- candidates -----

    /** Everyone with the capability who is not listed yet, appended. */
    method AppendCapable(names: seq<Name>, cap: string) returns (candidates: seq<Name>)
      ensures candidates == AppendNew(names, ForCapability(registry.manifests, cap))
    {
      candidates := names;
      var ms := ForCapability(registry.manifests, cap);
      for i := 0 to |ms|
        invariant AppendNew(candidates, ms[i..]) == AppendNew(names, ms)
      {
        if ms[i].name !in candidates {
          candidates := candidates + [ms[i].name];
        }
      }
    }

    /** Later copies dropped, order kept. */
    method KeepFirst(candidates: seq<Name>) returns (ordered: seq<Name>)
      ensures ordered == Distinct(candidates)
    {
      ordered := [];
      for i := 0 to |candidates|
        invariant ordered == Distinct(candidates[..i])
      {
        assert candidates[..i + 1][..i] == candidates[..i];
        if candidates[i] !in ordered {
          ordered := ordered + [candidates[i]];
        }
      }
      assert candidates[..|candidates|] == candidates;
    }

    /** The agents to try, in order: first choice, its manifest's fallbacks, everyone with the capability. */
    method AgentCandidates(task: Task, load: Name -> int) returns (ordered: seq<Name>)
      requires registry.manifests == env.manifests
      modifies registry`rr
      ensures (ordered, registry.rr) == Candidates(env.manifests, old(registry.rr), load, env.policy, task)
    {
      hide AppendNew, Distinct, ForCapability, FallbacksOf, Select;
      var candidates: seq<Name> := [];
      if task.preferred != "" {
        candidates := [task.preferred];
      } else if task.capability != "" {
        var selected := registry.SelectAgent(task.capability, env.policy, load);
        if selected.Some? {
          candidates := [selected.value];
        }
      }
      if candidates != [] {
        candidates := candidates + FallbacksOf(registry.manifests, candidates[0]);
      }
      if task.capability != "" {
        candidates := AppendCapable(candidates, task.capability);
      }
      ordered := KeepFirst(candidates);
    }

    // ----- one task -----

    /** The run that began in `s0` is in `s`, with the task `id` at place `w` and all other tasks where they were. */
    ghost predicate At(graph: TaskGraph, s0: Sys, s: Sys, id: Id, w: Worker)
      reads graph, graph.nodes.Values, metrics, registry, cancel, clock
    {
      && Mirrors(graph, s) && Reaches(env, s0, s)
      && s0.phase.InWave? && id in s0.phase.workers && id in graph.nodes
      && s.phase == InWave(s0.phase.workers[id := w]) && s.deadline == s0.deadline && s.waves == s0.waves
    }

    /** All but the graph is in protocol state `s`. */
    ghost predicate MirrorsBeside(s: Sys)
      reads metrics, registry, cancel, clock
    {
      && registry.manifests == env.manifests && s.counters == metrics.Read() && s.rr == registry.rr
      && s.cancelled == cancel.isSet && s.clock == clock.now
    }

    /** The protocol state, put together from its parts. */
    lemma MirrorsOf(graph: TaskGraph, s: Sys)
      requires graph.Valid() && registry.manifests == env.manifests
      requires s.graph == graph.View() && s.counters == metrics.Read() && s.rr == registry.rr
      requires s.cancelled == cancel.isSet && s.clock == clock.now
      ensures Mirrors(graph, s)
    {
    }

    /** The upstream context, read off the nodes. */
    function UpstreamOf(graph: TaskGraph, task: Task): map<Id, Reply>
      reads graph, graph.nodes.Values
      ensures UpstreamOf(graph, task) == Upstream(graph.View(), task)
    {
      var up := map dep | dep in task.dependsOn && dep in graph.nodes && graph.nodes[dep].result.Some? ::
                graph.nodes[dep].result.value;
      assert up == Upstream(graph.View(), task);
      up
    }

    lemma AtFacts(graph: TaskGraph, s0: Sys, s: Sys, id: Id, w: Worker)
      requires At(graph, s0, s, id, w)
      ensures Active(s, id) && s.phase.workers[id] == w && id in graph.nodes && registry.manifests == env.manifests
      ensures Mirrors(graph, s) && Reaches(env, s0, s) && s.graph == graph.View() && graph.Valid()
      ensures s.graph.nodes[id] == graph.nodes[id].View() && s.graph.nodes[id].task == graph.nodes[id].task
      ensures s.counters == metrics.Read() && s.rr == registry.rr && s.cancelled == cancel.isSet && s.clock == clock.now
    {
      hide Run, Reaches;
    }

    lemma AtPlaced(graph: TaskGraph, s0: Sys, s: Sys, id: Id, w: Worker)
      ensures At(graph, s0, s, id, w) <==>
              Mirrors(graph, s) && Reaches(env, s0, s) && id in graph.nodes && Placed(s0, s, id, w)
    {
      hide Run, Reaches, Mirrors;
    }

    /** The task is scheduled: its candidates are listed, and the results it depends on are read. */
    method BeginTask(graph: TaskGraph, id: Id, ghost s0: Sys)
      returns (agents: seq<Name>, up: map<Id, Reply>, ghost s: Sys)
      requires At(graph, s0, s0, id, Submitted)
      modifies metrics, registry`rr
      ensures At(graph, s0, s, id, AtLoop(up, agents, 0, NoAgent))
      ensures agents == CandidatesAt(env, s0.rr, s0.counters.scheduled, graph.nodes[id].task).0
      ensures up == Upstream(s0.graph, graph.nodes[id].task)
    {
      hide Run, Reaches, Mirrors, Abs, At, Placed, MoveTask, Candidates, Upstream, UpstreamOf;
      AtFacts(graph, s0, s0, id, Submitted);
      AtPlaced(graph, s0, s0, id, Submitted);
      BeginStep(env, s0, id);
      OneMove(env, s0, s0, id);
      var task := graph.nodes[id].task;
      var scheduled := metrics.scheduled;
      metrics.scheduled := metrics.scheduled + 1;
      agents := AgentCandidates(task, name => env.load(scheduled, name));
      up := UpstreamOf(graph, task);
      s := Begin(env, s0, id);
      MirrorsOf(graph, s);
      PlacedPut(s0, s0, id, Submitted, s0.graph.nodes[id], AtLoop(up, agents, 0, NoAgent), s.counters, s.rr);
      AtPlaced(graph, s0, s, id, AtLoop(up, agents, 0, NoAgent));
    }

    method CancelTask(graph: TaskGraph, id: Id, ghost s0: Sys, ghost s1: Sys, ghost w: Worker) returns (ghost s: Sys)
      requires At(graph, s0, s1, id, w) && w.AtLoop? && w.agents != []
      requires w.attempt <= graph.nodes[id].task.maxRetries && s1.cancelled
      modifies graph.nodes[id]
      ensures At(graph, s0, s, id, Returned) && graph.nodes[id].error == Some(CancelledNote)
      ensures graph.nodes[id].View() == FailedFor(old(graph.nodes[id].View()), CancelledNote)
    {
      hide Run, Reaches, Mirrors, Abs, At, Placed, MoveTask;
      AtFacts(graph, s0, s1, id, w);
      AtPlaced(graph, s0, s1, id, w);
      CancelledStep(env, s1, id);
      OneMove(env, s0, s1, id);
      var node := graph.nodes[id];
      node.status := Failed;
      node.error := Some(CancelledNote);
      graph.OnlyNode(id);
      s := PutNode(s1, id, FailedFor(s1.graph.nodes[id], CancelledNote), Returned);
      MirrorsOf(graph, s);
      PlacedPut(s0, s1, id, w, s.graph.nodes[id], Returned, s1.counters, s1.rr);
      AtPlaced(graph, s0, s, id, Returned);
    }

    /** No agent is left: the task fails with the last error. */
    method GiveUp(graph: TaskGraph, id: Id, last: Note, ghost s0: Sys, ghost s1: Sys, ghost w: Worker)
      returns (ghost s: Sys)
      requires At(graph, s0, s1, id, w) && w.AtLoop? && w.agents == [] && w.last == last
      modifies graph.nodes[id], metrics
      ensures At(graph, s0, s, id, Returned)
      ensures graph.nodes[id].View() == FailedFor(old(graph.nodes[id].View()), last)
    {
      hide Run, Reaches, Mirrors, Abs, At, Placed, MoveTask;
      AtFacts(graph, s0, s1, id, w);
      AtPlaced(graph, s0, s1, id, w);
      ExhaustedStep(env, s1, id);
      OneMove(env, s0, s1, id);
      var node := graph.nodes[id];
      node.status := Failed;
      node.error := Some(last);
      metrics.failures := metrics.failures + 1;
      graph.OnlyNode(id);
      s := MoveTask(env, s1, id);
      MirrorsOf(graph, s);
      PlacedPut(s0, s1, id, w, s.graph.nodes[id], Returned, s.counters, s1.rr);
      AtPlaced(graph, s0, s, id, Returned);
    }

    /** The attempt is counted on the node, and the agent noted. */
    method CountAttempt(graph: TaskGraph, id: Id, agent: Name, ghost s0: Sys, ghost s1: Sys, ghost w: Worker)
      returns (ghost s: Sys)
      requires At(graph, s0, s1, id, w) && w.AtLoop? && w.agents != [] && w.agents[0] == agent
      requires w.attempt <= graph.nodes[id].task.maxRetries && !s1.cancelled
      modifies graph.nodes[id]
      ensures At(graph, s0, s, id, Calling(w.up, w.agents, w.attempt, w.last))
      ensures graph.nodes[id].View() == Attempted(old(graph.nodes[id].View()), agent)
    {
      hide Run, Reaches, Mirrors, Abs, At, Placed, MoveTask;
      AtFacts(graph, s0, s1, id, w);
      AtPlaced(graph, s0, s1, id, w);
      AttemptSteps(env, s1, id);
      TwoMoves(env, s0, s1, id);
      var node := graph.nodes[id];
      node.attempts := node.attempts + 1;
      node.agent := Some(agent);
      graph.OnlyNode(id);
      s := MoveTask(env, MoveTask(env, s1, id), id);
      MirrorsOf(graph, s);
      PlacedPut(s0, s1, id, w, s.graph.nodes[id], Calling(w.up, w.agents, w.attempt, w.last), s1.counters, s1.rr);
      AtPlaced(graph, s0, s, id, Calling(w.up, w.agents, w.attempt, w.last));
    }

    /** The call to `agent` failed; where the task goes next depends on how. */
    method NoteFailure(graph: TaskGraph, id: Id, agent: Name, outcome: Outcome, ghost s0: Sys, ghost s1: Sys,
                       ghost w: Worker)
      returns (last: Note, ghost s: Sys)
      requires At(graph, s0, s1, id, w) && w.Calling? && w.agents != [] && w.agents[0] == agent && !outcome.Replied?
      requires outcome == Invoke(env, agent, graph.nodes[id].task, w.up, graph.nodes[id].attempts).outcome
      ensures last == NoteFor(outcome, agent)
      ensures At(graph, s0, s, id, AfterFailure(w, outcome))
    {
      hide Run, Reaches, Mirrors, Abs, At, Placed, MoveTask, Invoke;
      AtFacts(graph, s0, s1, id, w);
      AtPlaced(graph, s0, s1, id, w);
      AnswerStep(env, s1, id);
      OneMove(env, s0, s1, id);
      last := NoteFor(outcome, agent);
      s := MoveTask(env, s1, id);
      MirrorsOf(graph, s);
      PlacedPut(s0, s1, id, w, s.graph.nodes[id], AfterFailure(w, outcome), s1.counters, s1.rr);
      AtPlaced(graph, s0, s, id, AfterFailure(w, outcome));
    }

    /** The reply is taken: result, status, count. */
    method TakeReply(graph: TaskGraph, id: Id, reply: Reply, ghost s0: Sys, ghost s1: Sys, ghost w: Worker)
      returns (ghost s: Sys)
      requires At(graph, s0, s1, id, w) && w.Calling? && w.agents != []
      requires Invoke(env, w.agents[0], graph.nodes[id].task, w.up, graph.nodes[id].attempts).outcome == Replied(reply)
      modifies graph.nodes[id], metrics
      ensures At(graph, s0, s, id, Spawning(reply, FollowupsOf(reply)))
      ensures graph.nodes == old(graph.nodes)
      ensures graph.nodes[id].View() == old(graph.nodes[id].View()).(result := Some(reply), status := reply.status)
    {
      hide Run, Reaches, Mirrors, Abs, At, Placed, MoveTask, Invoke, FollowupsOf;
      AtFacts(graph, s0, s1, id, w);
      AtPlaced(graph, s0, s1, id, w);
      AnswerStep(env, s1, id);
      OneMove(env, s0, s1, id);
      var node := graph.nodes[id];
      node.result := Some(reply);
      node.status := reply.status;
      metrics.completed := metrics.completed + 1;
      graph.OnlyNode(id);
      s := Answer(env, s1, id);
      MirrorsOf(graph, s);
      PlacedPut(s0, s1, id, w, s.graph.nodes[id], Spawning(reply, FollowupsOf(reply)), s.counters, s1.rr);
      AtPlaced(graph, s0, s, id, Spawning(reply, FollowupsOf(reply)));
    }

    /** One follow-up is added to the graph; an id already taken is ignored. */
    method SpawnOne(graph: TaskGraph, id: Id, f: Followup, ghost s0: Sys, ghost s1: Sys, ghost w: Worker)
      returns (ghost s: Sys)
      requires At(graph, s0, s1, id, w) && w.Spawning? && w.rest != [] && f == w.rest[0]
      modifies graph
      ensures At(graph, s0, s, id, Spawning(w.reply, w.rest[1..]))
      ensures Extended(old(graph.nodes), graph.nodes) && fresh(graph.nodes.Values - old(graph.nodes.Values))
      ensures graph.View() == AddTask(old(graph.View()), FollowupTask(env, old(graph.nodes[id].View()), f))
    {
      hide Run, Reaches, Mirrors, Abs, At, Placed, MoveTask, FollowupTask;
      AtFacts(graph, s0, s1, id, w);
      AtPlaced(graph, s0, s1, id, w);
      SpawnStep(env, s1, id);
      OneMove(env, s0, s1, id);
      var added := graph.Add(FollowupTask(env, graph.nodes[id].View(), f));
      s := Spawn(env, s1, id);
      MirrorsOf(graph, s);
      PlacedBy(s0, s1, s, id, w, Spawning(w.reply, w.rest[1..]));
      AtPlaced(graph, s0, s, id, Spawning(w.reply, w.rest[1..]));
    }

    /** No follow-up is left: the task returns. */
    ghost method SpawnDone(graph: TaskGraph, id: Id, s0: Sys, s1: Sys, w: Worker) returns (s: Sys)
      requires At(graph, s0, s1, id, w) && w.Spawning? && w.rest == []
      ensures At(graph, s0, s, id, Returned)
    {
      hide Run, Reaches, Mirrors, Abs, At, Placed, MoveTask;
      AtFacts(graph, s0, s1, id, w);
      AtPlaced(graph, s0, s1, id, w);
      SpawnStep(env, s1, id);
      OneMove(env, s0, s1, id);
      s := Spawn(env, s1, id);
      MirrorsOf(graph, s);
      PlacedPut(s0, s1, id, w, s1.graph.nodes[id], Returned, s1.counters, s1.rr);
      AtPlaced(graph, s0, s, id, Returned);
    }

    /** Every follow-up of the reply is added, in order; a second one for an id changes nothing. */
    method SpawnFollowups(graph: TaskGraph, id: Id, reply: Reply, ghost s0: Sys, ghost s1: Sys) returns (ghost s: Sys)
      requires At(graph, s0, s1, id, Spawning(reply, FollowupsOf(reply)))
      modifies graph
      ensures At(graph, s0, s, id, Returned)
      ensures Extended(old(graph.nodes), graph.nodes) && fresh(graph.nodes.Values - old(graph.nodes.Values))
      ensures RecordsTaken(env, old(graph.View()), graph.View(), old(graph.nodes[id].View()), FollowupsOf(reply))
    {
      hide *;
      var followups := FollowupsOf(reply);
      assert followups[0..] == followups && followups[..0] == [];
      ExtendedSelf(graph.nodes);
      AtFacts(graph, s0, s1, id, Spawning(reply, followups));
      NoneTaken(env, graph.View(), graph.nodes[id].View());
      s := s1;
      for i := 0 to |followups|
        invariant At(graph, s0, s, id, Spawning(reply, followups[i..]))
        invariant Extended(old(graph.nodes), graph.nodes) && fresh(graph.nodes.Values - old(graph.nodes.Values))
        invariant RecordsTaken(env, old(graph.View()), graph.View(), old(graph.nodes[id].View()), followups[..i])
      {
        ghost var before := graph.nodes;
        OneMoreTaken(env, old(graph.View()), graph.View(), old(graph.nodes[id].View()), followups, i);
        ExtendedHas(old(graph.nodes), graph.nodes, [id]);
        s := SpawnOne(graph, id, followups[i], s0, s, Spawning(reply, followups[i..]));
        assert followups[i..][1..] == followups[i + 1..];
        ExtendedTrans(old(graph.nodes), before, graph.nodes);
      }
      assert followups[|followups|..] == [] && followups[..|followups|] == followups;
      s := SpawnDone(graph, id, s0, s, Spawning(reply, []));
    }

    /** The flag is polled while the task stays where it is. */
    method PollAt(graph: TaskGraph, id: Id, ghost s0: Sys, ghost s1: Sys, ghost w: Worker)
      returns (r: bool, ghost s: Sys)
      requires At(graph, s0, s1, id, w)
      modifies cancel
      ensures At(graph, s0, s, id, w) && r == s.cancelled
    {
      hide *;
      AtPlaced(graph, s0, s1, id, w);
      r, s := PollCancel(graph, s0, s1);
      PlacedFlag(s0, s1, id, w, r, s1.clock);
      AtPlaced(graph, s0, s, id, w);
    }

    /** Time passes, in a call or a pause, while the task stays where it is. */
    method PauseAt(graph: TaskGraph, id: Id, ms: nat, ghost s0: Sys, ghost s1: Sys, ghost w: Worker)
      returns (ghost s: Sys)
      requires At(graph, s0, s1, id, w)
      modifies clock
      ensures At(graph, s0, s, id, w)
      ensures clock.now >= old(clock.now) + ms && clock.waited == old(clock.waited) + ms
    {
      hide *;
      AtPlaced(graph, s0, s1, id, w);
      s := Pause(graph, ms, s0, s1);
      PlacedFlag(s0, s1, id, w, s1.cancelled, clock.now);
      AtPlaced(graph, s0, s, id, w);
    }

    /** The agent's tries are used up: on to the next. */
    ghost method NextAgent(graph: TaskGraph, id: Id, s0: Sys, s1: Sys, w: Worker) returns (s: Sys)
      requires At(graph, s0, s1, id, w) && w.AtLoop? && w.agents != [] && w.attempt > graph.nodes[id].task.maxRetries
      ensures At(graph, s0, s, id, AtLoop(w.up, w.agents[1..], 0, w.last))
    {
      hide Run, Reaches, Mirrors, Abs, At, Placed, MoveTask;
      AtFacts(graph, s0, s1, id, w);
      AtPlaced(graph, s0, s1, id, w);
      NextAgentStep(env, s1, id);
      OneMove(env, s0, s1, id);
      s := PutWorker(s1, id, AtLoop(w.up, w.agents[1..], 0, w.last));
      MirrorsOf(graph, s);
      PlacedPut(s0, s1, id, w, s1.graph.nodes[id], AtLoop(w.up, w.agents[1..], 0, w.last), s1.counters, s1.rr);
      AtPlaced(graph, s0, s, id, AtLoop(w.up, w.agents[1..], 0, w.last));
    }

    // ----- the retry loops -----

    /** One try: the attempt is counted, the call takes its time, and its reply or its failure is noted. */
    method TryOnce(graph: TaskGraph, id: Id, agent: Name, ghost attempt: nat, last0: Note, up: map<Id, Reply>,
                   ghost agents: seq<Name>, ghost s0: Sys, ghost s1: Sys)
      returns (outcome: Outcome, last: Note, ghost s: Sys)
      requires agents != [] && agents[0] == agent && At(graph, s0, s1, id, AtLoop(up, agents, attempt, last0))
      requires attempt <= graph.nodes[id].task.maxRetries && !s1.cancelled
      modifies graph, graph.nodes[id], metrics, clock
      ensures At(graph, s0, s, id, if outcome.Replied? then Returned
                 else AfterFailure(Calling(up, agents, attempt, last0), outcome))
      ensures Extended(old(graph.nodes), graph.nodes) && fresh(graph.nodes.Values - old(graph.nodes.Values))
      ensures graph.nodes[id] == old(graph.nodes[id])
      ensures !outcome.Replied? ==> graph.nodes == old(graph.nodes) && last == NoteFor(outcome, agent)
      ensures
        var n := old(graph.nodes[id].View()).(attempts := old(graph.nodes[id].attempts) + 1, agent := Some(agent));
        var c := env.call(agent, n.task, up, n.attempts);
        var late := 0 < n.task.deadlineMs < c.ms;
        var spent := if late then n.task.deadlineMs else c.ms;
        && outcome == (if late then TimedOut else c.outcome)
        && graph.nodes[id].View()
           == (if outcome.Replied? then n.(result := Some(outcome.reply), status := outcome.reply.status) else n)
        && clock.waited == old(clock.waited) + spent && clock.now >= old(clock.now) + spent
      ensures
        var n := Attempted(old(graph.nodes[id].View()), agent);
        var c := Invoke(env, agent, n.task, up, n.attempts);
        && outcome == c.outcome && (!outcome.Replied? ==> graph.nodes[id].View() == n)
        && clock.waited == old(clock.waited) + c.ms
    {
      hide *;
      ExtendedSelf(graph.nodes);
      AtFacts(graph, s0, s1, id, AtLoop(up, agents, attempt, last0));
      var node := graph.nodes[id];
      AttemptedIs(node.View(), agent);
      node.TaskOfView();
      InvokeIs(env, agent, node.task, up, node.attempts + 1);
      last := last0;
      s := CountAttempt(graph, id, agent, s0, s1, AtLoop(up, agents, attempt, last0));
      node.TaskOfView();
      var c := Invoke(env, agent, node.task, up, node.attempts);
      outcome := c.outcome;
      s := PauseAt(graph, id, c.ms, s0, s, Calling(up, agents, attempt, last0));
      if outcome.Replied? {
        s := TakeReply(graph, id, outcome.reply, s0, s, Calling(up, agents, attempt, last0));
        s := SpawnFollowups(graph, id, outcome.reply, s0, s);
        ExtendedHas(old(graph.nodes), graph.nodes, [id]);
      } else {
        last, s := NoteFailure(graph, id, agent, outcome, s0, s, Calling(up, agents, attempt, last0));
      }
    }

    lemma AttemptedIs(n: Node, agent: Name)
      ensures Attempted(n, agent).attempts == n.attempts + 1 && Attempted(n, agent).task == n.task
      ensures Attempted(n, agent) == n.(attempts := n.attempts + 1, agent := Some(agent))
    {
    }

    lemma InvokeIs(env: Env, agent: Name, task: Task, up: map<Id, Reply>, k: nat)
      ensures
        var c := env.call(agent, task, up, k);
        Invoke(env, agent, task, up, k) == if 0 < task.deadlineMs < c.ms then Call(task.deadlineMs, TimedOut) else c
    {
    }

    /**
     * The inner loop: one agent, tried until it answers, is unavailable, or its retries are used up; or the
     * run is cancelled. `finished` says the task has returned. The time it waits is what the tries' meaning
     * says, less only what a cancelled task does not try any more.
     */
    method TryAgent(graph: TaskGraph, id: Id, agent: Name, last0: Note, up: map<Id, Reply>,
                    ghost agents: seq<Name>, ghost list: seq<Name>, ghost s0: Sys, ghost s1: Sys)
      returns (finished: bool, last: Note, ghost s: Sys)
      requires agents != [] && agents[0] == agent && At(graph, s0, s1, id, AtLoop(up, agents, 0, last0))
      requires agent in list && graph.nodes[id].result.None?
      requires NotesLastCall(env, list, up, graph.nodes[id].View(), last0)
      modifies graph, graph.nodes[id], metrics, cancel, clock
      ensures At(graph, s0, s, id, if finished then Returned else AtLoop(up, agents[1..], 0, last))
      ensures !finished ==> graph.nodes == old(graph.nodes)
      ensures Extended(old(graph.nodes), graph.nodes) && fresh(graph.nodes.Values - old(graph.nodes.Values))
      ensures graph.nodes[id] == old(graph.nodes[id])
      ensures
        if finished then EndsAsCalled(env, list, up, graph.nodes[id].View())
        else graph.nodes[id].result.None? && NotesLastCall(env, list, up, graph.nodes[id].View(), last)
      ensures
        var total := TimeLeft(env, up, agents, 0, last0, old(graph.nodes[id].View()));
        var spent := clock.waited - old(clock.waited);
        && clock.now - old(clock.now) >= spent >= 0
        && (if finished then
              spent <= total && (graph.nodes[id].error != Some(CancelledNote) ==> spent == total)
            else
              spent + TimeLeft(env, up, agents[1..], 0, last, graph.nodes[id].View()) == total)
    {
      hide *;
      finished, last, s := false, last0, s1;
      AtFacts(graph, s0, s, id, AtLoop(up, agents, 0, last));
      ExtendedSelf(graph.nodes);
      var attempt := 0;
      var task := graph.nodes[id].task;
      ghost var n := graph.nodes[id].View();
      graph.nodes[id].TaskOfView();
      ghost var total := TimeLeft(env, up, agents, 0, last0, n);
      while attempt <= task.maxRetries
        invariant At(graph, s0, s, id, AtLoop(up, agents, attempt, last))
        invariant graph.nodes == old(graph.nodes) && id in graph.nodes
        invariant attempt >= 0
        invariant n == graph.nodes[id].View() && n.task == task
        invariant graph.nodes[id].result.None? && NotesLastCall(env, list, up, n, last)
        invariant clock.now - old(clock.now) >= clock.waited - old(clock.waited) >= 0
        invariant clock.waited - old(clock.waited) + TimeLeft(env, up, agents, attempt, last, n) == total
        decreases task.maxRetries + 1 - attempt
      {
        var cancelled;
        cancelled, s := PollAt(graph, id, s0, s, AtLoop(up, agents, attempt, last));
        if cancelled {
          graph.nodes[id].TaskOfView();
          FailsAsCalled(env, list, up, n, last);
          s := CancelTask(graph, id, s0, s, AtLoop(up, agents, attempt, last));
          return true, last, s;
        }
        TryTime(env, up, agents, attempt, last, n);
        AttemptedIs(n, agent);
        graph.nodes[id].TaskOfView();
        ghost var before := last;
        var outcome;
        outcome, last, s := TryOnce(graph, id, agent, attempt, last, up, agents, s0, s);
        if outcome.Replied? {
          AnsweredEnds(env, list, up, Attempted(n, agent), agent, outcome.reply);
          return true, last, s;
        }
        FailureIsNoted(env, list, up, Attempted(n, agent), agent);
        n := graph.nodes[id].View();
        graph.nodes[id].TaskOfView();
        AfterFailureIs(Calling(up, agents, attempt, before), outcome);
        if outcome.Unavailable? {
          return false, last, s;
        }
        attempt := attempt + 1;
        if attempt <= task.maxRetries {
          s := PauseAt(graph, id, env.backoffMs, s0, s, AtLoop(up, agents, attempt, last));
        }
      }
      SkipTime(env, up, agents, attempt, last, n);
      s := NextAgent(graph, id, s0, s, AtLoop(up, agents, attempt, last));
    }

    /**
     * The outer loop: one candidate after the other, until the task has returned. It waits as long as the tries
     * of the candidates it drew take, less only what a cancelled task does not try any more; so, under a
     * deadline, at most C((R + 1)D + RB).
     */
    method RunTask(graph: TaskGraph, id: Id, ghost s0: Sys)
      returns (ghost s: Sys, ghost drawn: seq<Name>, ghost context: map<Id, Reply>)
      requires At(graph, s0, s0, id, Submitted)
      requires graph.nodes[id].View() == FreshNode(graph.nodes[id].task).(status := Running)
      modifies graph, graph.nodes[id], metrics, registry`rr, cancel, clock
      ensures At(graph, s0, s, id, Returned)
      ensures Extended(old(graph.nodes), graph.nodes) && fresh(graph.nodes.Values - old(graph.nodes.Values))
      ensures graph.nodes[id] == old(graph.nodes[id])
      ensures drawn == CandidatesAt(env, s0.rr, s0.counters.scheduled, graph.nodes[id].task).0
      ensures context == Upstream(s0.graph, graph.nodes[id].task)
      ensures WaitsAsMeant(env, context, drawn, old(graph.nodes[id].View()), graph.nodes[id].View(),
                           clock.waited - old(clock.waited))
      ensures clock.now - old(clock.now) >= clock.waited - old(clock.waited)
      ensures EndsAsCalled(env, drawn, context, graph.nodes[id].View())
    {
      hide *;
      ExtendedSelf(graph.nodes);
      AtFacts(graph, s0, s0, id, Submitted);
      var agents, up;
      agents, up, s := BeginTask(graph, id, s0);
      NothingCalled(env, agents, up, graph.nodes[id]);
      drawn, context := agents, up;
      ghost var total := TimeLeft(env, up, agents, 0, NoAgent, graph.nodes[id].View());
      var last := NoAgent;
      assert agents[0..] == agents;
      for i := 0 to |agents|
        invariant At(graph, s0, s, id, AtLoop(up, agents[i..], 0, last))
        invariant graph.nodes == old(graph.nodes) && id in graph.nodes
        invariant clock.now - old(clock.now) >= clock.waited - old(clock.waited) >= 0
        invariant clock.waited - old(clock.waited) + TimeLeft(env, up, agents[i..], 0, last, graph.nodes[id].View())
                  == total
        invariant graph.nodes[id].result.None? && NotesLastCall(env, agents, up, graph.nodes[id].View(), last)
      {
        var finished;
        finished, last, s := TryAgent(graph, id, agents[i], last, up, agents[i..], agents, s0, s);
        if finished {
          ExtendedHas(old(graph.nodes), graph.nodes, [id]);
          graph.nodes[id].TaskOfView();
          WaitedSoFar(env, up, agents, old(graph.nodes[id].View()), graph.nodes[id].View(),
                      clock.waited - old(clock.waited));
          return;
        }
        assert agents[i..][1..] == agents[i + 1..];
      }
      assert agents[|agents|..] == [];
      NoTimeLeft(env, up, last, graph.nodes[id].View());
      graph.nodes[id].TaskOfView();
      FailsAsCalled(env, agents, up, graph.nodes[id].View(), last);
      s := GiveUp(graph, id, last, s0, s, AtLoop(up, [], 0, last));
      WaitedSoFar(env, up, agents, old(graph.nodes[id].View()), graph.nodes[id].View(),
                  clock.waited - old(clock.waited));
    }

    /** A submitted task is as new, but for its status. */
    lemma SubmittedIsFresh(graph: TaskGraph, s: Sys, id: Id)
      requires Inv(s) && At(graph, s, s, id, Submitted)
      ensures graph.nodes[id].View() == FreshNode(graph.nodes[id].task).(status := Running)
    {
      hide Run, Reaches, GraphOk, DepsDone;
      AtFacts(graph, s, s, id, Submitted);
      assert NodeOk(s, id);
    }

    // ----- waves -----

    /** The wave's tasks are marked running. */
    method MarkWave(graph: TaskGraph, wave: seq<Id>, ghost g: Graph)
      requires graph.Valid() && graph.View() == MarkReady(g) && GraphOk(g)
      requires forall id :: id in wave <==> id in ReadyIds(g)
      modifies graph.nodes.Values
      ensures graph.Valid() && graph.nodes == old(graph.nodes) && graph.order == old(graph.order)
      ensures graph.View() == MarkRunning(g, ReadyIds(g))
    {
      hide *;
      ghost var done: set<Id> := {};
      ReadyBeforeRunning(g);
      for i := 0 to |wave|
        invariant graph.Valid() && graph.nodes == old(graph.nodes) && graph.order == old(graph.order)
        invariant graph.View() == HalfRunning(g, done) && done <= ReadyIds(g)
        invariant forall id :: id in done <==> id in wave[..i]
      {
        graph.ViewKeys();
        RunningStep(g, done, wave[i]);
        MarkOne(graph, wave[i]);
        done := done + {wave[i]};
        assert wave[..i + 1] == wave[..i] + [wave[i]];
      }
      assert wave[..|wave|] == wave;
      assert done == ReadyIds(g);
      AllRunning(g);
    }

    method MarkOne(graph: TaskGraph, id: Id)
      requires graph.Valid() && id in graph.nodes && id in graph.View().nodes
      modifies graph.nodes[id]
      ensures graph.Valid() && graph.nodes == old(graph.nodes) && graph.order == old(graph.order)
      ensures graph.View() == old(graph.View()).(nodes :=
        old(graph.View()).nodes[id := old(graph.View()).nodes[id].(status := Running)])
    {
      graph.ViewNode(id);
      var node := graph.nodes[id];
      node.status := Running;
      graph.OnlyNode(id);
    }

    lemma StartMirrors(graph: TaskGraph, s0: Sys)
      requires graph.Valid() && graph.View() == MarkRunning(s0.graph, ReadyIds(s0.graph)) && MirrorsBeside(s0)
      ensures Mirrors(graph, StartWave(s0))
    {
    }

    /** All have returned, and the main thread goes back to its loop. */
    ghost method WaveEnds(graph: TaskGraph, start: Sys, s: Sys, s0: Sys, wave: seq<Id>) returns (t: Sys)
      requires Mirrors(graph, s) && Reaches(env, start, s) && InOrder(s, s0, wave, |wave|)
      requires forall id :: id in wave <==> id in ReadyIds(s0.graph)
      ensures Mirrors(graph, t) && Reaches(env, start, t) && t.phase == Looping && t.deadline == s0.deadline
    {
      hide Run, Reaches;
      ReachesStep(env, start, s, Advance);
      forall id | id in s.phase.workers ensures s.phase.workers[id].Returned? {
        assert id in wave;
      }
      t := MainStep(s);
    }

    /** The wave's next task is run. */
    method RunNth(graph: TaskGraph, wave: seq<Id>, i: nat, ghost s0: Sys, ghost start: Sys, ghost s1: Sys)
      returns (ghost s: Sys)
      requires i < |wave| && wave[i] in graph.nodes && WaveDue(s0, wave)
      requires Mirrors(graph, s1) && Reaches(env, start, s1) && InOrder(s1, s0, wave, i)
      requires Contract(env) && Inv(s1)
      modifies graph, graph.nodes.Values, metrics, registry`rr, cancel, clock
      ensures Mirrors(graph, s) && Reaches(env, start, s) && InOrder(s, s0, wave, i + 1) && Inv(s)
      ensures Extended(old(graph.nodes), graph.nodes) && fresh(graph.nodes.Values - old(graph.nodes.Values))
    {
      hide *;
      WaveFacts(s0, wave);
      NextInOrder(s1, s0, wave, i);
      ReachesSelf(env, s1);
      AtPlaced(graph, s1, s1, wave[i], Submitted);
      SubmittedIsFresh(graph, s1, wave[i]);
      ghost var drawn, context;
      s, drawn, context := RunTask(graph, wave[i], s1);
      AtPlaced(graph, s1, s, wave[i], Returned);
      ReachesInv(env, s1, s);
      ReachesTrans(env, start, s1, s);
      AfterInOrder(s1, s, s0, wave, i);
    }

    /** Every task of the wave is run; here one after the other, in the order of the wave. */
    method RunWave(graph: TaskGraph, wave: seq<Id>, ghost s0: Sys) returns (ghost s: Sys)
      requires graph.Valid() && graph.View() == MarkReady(s0.graph) && GraphOk(s0.graph)
      requires MirrorsBeside(s0) && WaveDue(s0, wave) && Contract(env) && Inv(s0)
      modifies graph, graph.nodes.Values, metrics, registry`rr, cancel, clock
      ensures Mirrors(graph, s) && Reaches(env, StartWave(s0), s) && Reaches(env, s0, s)
      ensures s.phase == Looping && s.deadline == s0.deadline
      ensures Extended(old(graph.nodes), graph.nodes) && fresh(graph.nodes.Values - old(graph.nodes.Values))
    {
      hide *;
      ExtendedSelf(graph.nodes);
      WaveFacts(s0, wave);
      MarkWave(graph, wave, s0.graph);
      graph.ViewKeys();
      ghost var start := StartWave(s0);
      StartMirrors(graph, s0);
      StartPhase(s0, wave);
      ReachesSelf(env, start);
      WaveInv(s0, wave);
      s := start;
      for i := 0 to |wave|
        invariant Mirrors(graph, s) && Reaches(env, start, s)
        invariant InOrder(s, s0, wave, i) && Inv(s)
        invariant forall id :: id in wave ==> id in graph.nodes
        invariant Extended(old(graph.nodes), graph.nodes) && fresh(graph.nodes.Values - old(graph.nodes.Values))
      {
        ghost var before := graph.nodes;
        s := RunNth(graph, wave, i, s0, start, s);
        ExtendedTrans(old(graph.nodes), before, graph.nodes);
        ExtendedHas(before, graph.nodes, wave);
      }
      s := WaveEnds(graph, start, s, s0, wave);
      ReachesStart(s0, wave);
      ReachesTrans(env, s0, start, s);
    }

    // ----- missions -----

    /** Whatever is not settled fails, and is counted. */
    method FailRest(graph: TaskGraph, note: Note)
      requires graph.Valid()
      modifies graph.nodes.Values, metrics
      ensures graph.Valid() && graph.nodes == old(graph.nodes) && graph.order == old(graph.order)
      ensures graph.View() == FailRemaining(old(graph.View()), note)
      ensures RestFailed(old(graph.View()), graph.View(), note)
      ensures metrics.Read() == CountFailed(old(metrics.Read()), |Remaining(old(graph.View()))|)
    {
      ghost var g, c0 := graph.View(), metrics.Read();
      FailRemainingTells(g, note);
      ghost var done: set<Id> := {};
      graph.ViewOk();
      graph.ViewKeys();
      hide *;
      NoneFailed(g, c0, note);
      assert g.order[..0] == [];
      for i := 0 to |graph.order|
        invariant graph.Valid() && graph.nodes == old(graph.nodes) && graph.order == old(graph.order)
        invariant FailedSoFar(g, graph.View(), c0, metrics.Read(), done, note)
        invariant forall id :: id in done <==> id in g.order[..i]
      {
        var id := graph.order[i];
        OrderStep(g, done, i);
        FailStep(g, graph.View(), c0, metrics.Read(), done, id, note);
        FailOne(graph, id, note);
        done := done + {id};
      }
      assert g.order[..|g.order|] == g.order;
      AllFailed(g, done, note);
    }

    method FailOne(graph: TaskGraph, id: Id, note: Note)
      requires graph.Valid() && id in graph.nodes
      modifies graph.nodes[id], metrics
      ensures graph.Valid() && graph.nodes == old(graph.nodes) && graph.order == old(graph.order)
      ensures (graph.View(), metrics.Read()) == FailedOne(old(graph.View()), old(metrics.Read()), id, note)
    {
      graph.ViewNode(id);
      var node := graph.nodes[id];
      if Unfinished(node.status) {
        node.status := Failed;
        node.error := Some(note);
        metrics.failures := metrics.failures + 1;
        graph.OnlyNode(id);
      }
    }

    /** The run is back at its loop, in state `s`. */
    ghost predicate AtHead(graph: TaskGraph, u: Family, start: Sys, s: Sys)
      reads graph, graph.nodes.Values, metrics, registry, cancel, clock
    {
      Mirrors(graph, s) && Reaches(env, start, s) && s.phase.Looping? && s.deadline == start.deadline && Inv(s)
        && Within(env, u, s)
    }

    lemma HeadFacts(graph: TaskGraph, u: Family, start: Sys, s: Sys)
      requires AtHead(graph, u, start, s)
      ensures Mirrors(graph, s) && Reaches(env, start, s) && graph.Valid() && MirrorsBeside(s)
              && s.graph == graph.View()
      ensures s.phase.Looping? && s.deadline == start.deadline && Boundary(s.graph) && GraphOk(s.graph) && Inv(s)
              && Within(env, u, s)
    {
      hide Run, Reaches, NodeOk;
      Between(s);
    }

    lemma HeadAgain(graph: TaskGraph, u: Family, start: Sys, s: Sys)
      requires Contract(env) && Closed(env, u) && Inv(start) && Within(env, u, start)
      requires Mirrors(graph, s) && Reaches(env, start, s) && s.phase.Looping? && s.deadline == start.deadline
      ensures AtHead(graph, u, start, s)
    {
      hide Run, Inv, Mirrors, Within, Contract, Closed;
      ReachesKeeps(env, u, start, s);
    }

    /** The loop is left, one way or the other; the graph is settled for good unless the flag is up. */
    ghost predicate Left(graph: TaskGraph, start: Sys, s: Sys)
      reads graph, graph.nodes.Values, metrics, registry, cancel, clock
    {
      Mirrors(graph, s) && Reaches(env, start, s) && s.phase.Leaving?
    }

    ghost method LeaveLoop(graph: TaskGraph, start: Sys, s: Sys) returns (t: Sys)
      requires Mirrors(graph, s) && Reaches(env, start, s) && s.phase.Looping? && (GraphDone(s.graph) || s.cancelled)
      ensures Left(graph, start, t)
    {
      hide Run, Reaches, GraphDone;
      ReachesStep(env, start, s, Advance);
      t := MainStep(s);
    }

    /** The rest is failed and the loop left: out of time, or nothing runnable. */
    method FailAndLeave(graph: TaskGraph, note: Note, ghost start: Sys, ghost s: Sys) returns (ghost t: Sys)
      requires Mirrors(graph, s) && Reaches(env, start, s) && s.phase.Looping? && !GraphDone(s.graph) && !s.cancelled
      requires if s.clock > s.deadline then note == MissionTimeout else ReadyIds(s.graph) == {} && note == BlockedNote
      modifies graph.nodes.Values, metrics
      ensures Left(graph, start, t) && graph.nodes == old(graph.nodes)
    {
      hide Run, Reaches, GraphDone, ReadyIds;
      ReachesStep(env, start, s, Advance);
      FailRest(graph, note);
      t := Quit(s, note);
    }

    /** What is reported: `cancelled` under the flag, otherwise what the tasks say. */
    method StatusNow(graph: TaskGraph, ghost start: Sys, ghost s: Sys) returns (status: MissionStatus, ghost t: Sys)
      requires Left(graph, start, s)
      modifies cancel
      ensures Mirrors(graph, t) && Reaches(env, start, t) && t.phase == Ended(status)
      ensures status == if cancel.isSet then MissionCancelled else TaskStatus(graph.View())
    {
      StatusTold(graph.View());
      hide Run, Reaches, HasFailures, HasSuccess, TaskStatus;
      var cancelled;
      cancelled, t := PollCancel(graph, start, s);
      if cancelled {
        status := MissionCancelled;
      } else if graph.HasFailed() {
        status := if graph.HasSucceeded() then MissionPartial else MissionFailed;
      } else {
        status := MissionCompleted;
      }
      ReachesStep(env, start, t, Advance);
      t := MainStep(t);
    }

    /** Ready tasks are listed; the wave is due if there are any. */
    method NextWave(graph: TaskGraph, ghost s: Sys) returns (wave: seq<Id>)
      requires Mirrors(graph, s) && GraphOk(s.graph) && s.phase.Looping? && !GraphDone(s.graph) && !s.cancelled
               && s.clock <= s.deadline
      modifies graph.nodes.Values
      ensures graph.Valid() && graph.nodes == old(graph.nodes) && graph.order == old(graph.order) && MirrorsBeside(s)
      ensures graph.View() == MarkReady(s.graph)
      ensures wave == [] ==> ReadyIds(s.graph) == {} && Mirrors(graph, s)
      ensures wave != [] ==> WaveDue(s, wave)
    {
      hide Run, GraphDone, MarkReady, ReadyInOrder, Priorities, MoreUrgent, StableSort;
      wave := graph.ReadyTasks();
      WaveIsReady(s, wave);
    }

    /** One turn of the mission loop, in the source's order: cancelled, out of time, nothing runnable, or a wave. */
    method Turn(graph: TaskGraph, deadline: int, ghost u: Family, ghost start: Sys, ghost head: Sys)
      returns (leave: bool, ghost s: Sys)
      requires Contract(env) && Closed(env, u) && Finite(u) && Inv(start) && Within(env, u, start)
      requires AtHead(graph, u, start, head) && !graph.IsDone() && deadline == start.deadline
      modifies graph, graph.nodes.Values, metrics, registry`rr, cancel, clock
      ensures if leave then Left(graph, start, s)
              else AtHead(graph, u, start, s) && u.names - Used(s.graph) < u.names - Used(head.graph)
      ensures Extended(old(graph.nodes), graph.nodes) && fresh(graph.nodes.Values - old(graph.nodes.Values))
    {
      hide *;
      ExtendedSelf(graph.nodes);
      HeadFacts(graph, u, start, head);
      leave := true;
      var cancelled;
      cancelled, s := PollCancel(graph, start, head);
      if cancelled {
        s := LeaveLoop(graph, start, s);
        return;
      }
      var now;
      now, s := ReadClock(graph, start, s);
      if now > deadline {
        s := FailAndLeave(graph, MissionTimeout, start, s);
        return;
      }
      var wave := NextWave(graph, s);
      if wave == [] {
        s := FailAndLeave(graph, BlockedNote, start, s);
        return;
      }
      leave := false;
      ghost var due := s;
      DueInv(head, due);
      s := RunWave(graph, wave, s);
      ReachesTrans(env, start, due, s);
      HeadAgain(graph, u, start, s);
      WaveShrinks(graph, u, start, head, due, s, wave);
    }

    /**
     * Runs a mission: waves until nothing is left to run, the flag is up, or time is out. Whatever the agents,
     * the flag and the clock do, the whole is a run of the protocol from its start to its end.
     */
    method RunMission(graph: TaskGraph, timeoutMs: int, ghost u: Family)
      returns (status: MissionStatus, results: map<Id, Reply>, ghost start: Sys, ghost s: Sys)
      requires graph.Valid() && registry.manifests == env.manifests && Contract(env) && Closed(env, u) && Finite(u)
      requires Boundary(graph.View()) && TasksIn(u, graph.View())
      modifies graph, graph.nodes.Values, metrics, registry`rr, cancel, clock
      ensures start == Start(old(graph.View()), old(metrics.Read()), old(registry.rr), old(cancel.isSet), start.clock,
                             timeoutMs)
      ensures start.clock >= old(clock.now)
      ensures Mirrors(graph, s) && Reaches(env, start, s) && s.phase == Ended(status)
      ensures results == ResultsOf(s.graph) && TellsResults(results, s.graph)
      ensures Extended(old(graph.nodes), graph.nodes) && fresh(graph.nodes.Values - old(graph.nodes.Values))
    {
      hide *;
      var started := clock.NowMs();
      start := Start(graph.View(), metrics.Read(), registry.rr, cancel.isSet, started, timeoutMs);
      Begins(graph, u, start, timeoutMs);
      var deadline := started + timeoutMs;
      ExtendedSelf(graph.nodes);
      s := start;
      while !graph.IsDone()
        invariant AtHead(graph, u, start, s)
        invariant Extended(old(graph.nodes), graph.nodes) && fresh(graph.nodes.Values - old(graph.nodes.Values))
        decreases u.names - Used(s.graph)
      {
        ghost var before := graph.nodes;
        var leave;
        leave, s := Turn(graph, deadline, u, start, s);
        ExtendedTrans(old(graph.nodes), before, graph.nodes);
        if leave {
          break;
        }
      }
      s := LeaveAtEnd(graph, u, start, s);
      status, s := StatusNow(graph, start, s);
      results := graph.Results();
      EndGraph(graph, s);
      ResultsTell(s.graph);
    }

    lemma EndFlag(graph: TaskGraph, s: Sys)
      requires Mirrors(graph, s)
      ensures s.cancelled == cancel.isSet
    {
    }

    lemma EndGraph(graph: TaskGraph, s: Sys)
      requires Mirrors(graph, s)
      ensures s.graph == graph.View() && graph.Valid() && graph.Results() == ResultsOf(s.graph)
    {
    }

    /** A loop that ended by itself is left too. */
    ghost method LeaveAtEnd(graph: TaskGraph, u: Family, start: Sys, s: Sys) returns (t: Sys)
      requires Left(graph, start, s) || (AtHead(graph, u, start, s) && graph.IsDone())
      ensures Left(graph, start, t)
    {
      hide Run, Reaches, Inv, Within, GraphDone;
      t := s;
      if s.phase.Looping? {
        t := LeaveLoop(graph, start, s);
      }
    }

    /** The wave used names that were left at the head of the loop. */
    lemma WaveShrinks(graph: TaskGraph, u: Family, start: Sys, head: Sys, due: Sys, s: Sys, wave: seq<Id>)
      requires Contract(env) && Finite(u) && AtHead(graph, u, start, s) && due.graph == head.graph && WaveDue(due, wave)
      requires Reaches(env, StartWave(due), s) && Inv(head) && head.phase.Looping? && due.cancelled == false
               && due.phase.Looping?
      ensures u.names - Used(s.graph) < u.names - Used(head.graph)
    {
      hide Run, Reaches, Mirrors, NodeOk, Contract, GraphDone;
      DueInv(head, due);
      hide Inv, Within, Finite;
      HeadFacts(graph, u, start, s);
      WaveUsesNames(env, u, due, s);
      var id :| id in Used(s.graph) && id !in Used(due.graph);
      assert id in u.names - Used(head.graph) && id !in u.names - Used(s.graph);
    }

    lemma Begins(graph: TaskGraph, u: Family, start: Sys, timeoutMs: int)
      requires graph.Valid() && registry.manifests == env.manifests && Boundary(graph.View())
      requires TasksIn(u, graph.View())
      requires start == Start(graph.View(), metrics.Read(), registry.rr, cancel.isSet, clock.now, timeoutMs)
      ensures AtHead(graph, u, start, start) && Inv(start) && Within(env, u, start)
      ensures start.deadline == clock.now + timeoutMs && start.clock == clock.now
    {
      ReachesSelf(env, start);
      BoundaryStart(start);
    }
  }

  function AfterFailure(w: Worker, outcome: Outcome): Worker
    requires w.Calling? && w.agents != [] && !outcome.Replied?
  {
    if outcome.Unavailable? then AtLoop(w.up, w.agents[1..], 0, NoteFor(outcome, w.agents[0]))
    else AtLoop(w.up, w.agents, w.attempt + 1, NoteFor(outcome, w.agents[0]))
  }

  /**
   * A task waits as long as its tries take; a cancelled one at most so long; and under a deadline that is at
   * most C((R + 1)D + RB).
   */
  ghost predicate WaitsAsMeant(env: Env, up: map<Id, Reply>, agents: seq<Name>, before: Node, after: Node, spent: int) {
    var total := TryAll(env, up, agents, before).ms;
    && 0 <= spent <= total && (after.error != Some(CancelledNote) ==> spent == total)
    && (before.task.deadlineMs > 0 && before.task.maxRetries >= 0 ==> spent <= TaskTime(env, |agents|, before.task))
  }

  lemma WaitedSoFar(env: Env, up: map<Id, Reply>, agents: seq<Name>, before: Node, after: Node, spent: int)
    requires 0 <= spent <= TimeLeft(env, up, agents, 0, NoAgent, before)
    requires after.error != Some(CancelledNote) ==> spent == TimeLeft(env, up, agents, 0, NoAgent, before)
    ensures WaitsAsMeant(env, up, agents, before, after, spent)
  {
    hide Drive, TaskTime;
    if before.task.deadlineMs > 0 && before.task.maxRetries >= 0 { TimeBound(env, up, agents, NoAgent, before); }
  }

  lemma AfterFailureIs(w: Worker, outcome: Outcome)
    requires w.Calling? && w.agents != [] && !outcome.Replied?
    ensures AfterFailure(w, outcome) ==
      if outcome.Unavailable? then AtLoop(w.up, w.agents[1..], 0, NoteFor(outcome, w.agents[0]))
      else AtLoop(w.up, w.agents, w.attempt + 1, NoteFor(outcome, w.agents[0]))
  {
  }

  /** Node objects are never replaced. */
  ghost predicate Extended(a: map<Id, TaskNode>, b: map<Id, TaskNode>) {
    forall id :: id in a ==> id in b && b[id] == a[id]
  }

  lemma ExtendedSelf(a: map<Id, TaskNode>)
    ensures Extended(a, a)
  {
  }

  lemma ExtendedTrans(a: map<Id, TaskNode>, b: map<Id, TaskNode>, c: map<Id, TaskNode>)
    requires Extended(a, b) && Extended(b, c)
    ensures Extended(a, c)
  {
  }

  lemma ExtendedHas(a: map<Id, TaskNode>, b: map<Id, TaskNode>, ids: seq<Id>)
    requires Extended(a, b) && forall id :: id in ids ==> id in a
    ensures forall id :: id in ids ==> id in b && b[id] == a[id]
  {
  }

  lemma NothingCalled(env: Env, list: seq<Name>, up: map<Id, Reply>, n: TaskNode)
    requires n.View() == FreshNode(n.task).(status := Running)
    ensures n.result.None? && NotesLastCall(env, list, up, n.View(), NoAgent)
  {
  }

  lemma AnsweredEnds(env: Env, list: seq<Name>, up: map<Id, Reply>, n: Node, agent: Name, reply: Reply)
    requires n.agent == Some(agent) && agent in list && n.attempts >= 1
    requires Invoke(env, agent, n.task, up, n.attempts).outcome == Replied(reply)
    ensures EndsAsCalled(env, list, up, Answered(n, reply))
    ensures Answered(n, reply) == n.(result := Some(reply), status := reply.status)
  {
    ReplyWasInTime(env, list, up, n, agent, reply);
    hide AnsweredInTime;
  }

  lemma ReachesInv(env: Env, s: Sys, t: Sys)
    requires Contract(env) && Inv(s) && Reaches(env, s, t)
    ensures Inv(t)
  {
    hide Inv, Contract;
    var events :| Run(env, s, events) == t;
    RunKeeps(env, s, events);
  }

  lemma WaveInv(s: Sys, wave: seq<Id>)
    requires Inv(s) && WaveDue(s, wave)
    ensures Inv(StartWave(s))
  {
    hide Inv, StartWave, GraphDone;
    Between(s);
    StartKeeps(s);
  }

  // ----- marking a wave -----

  /** The ready tasks marked ready, those in `done` already running. */
  ghost function HalfRunning(g: Graph, done: set<Id>): Graph {
    Graph(map id | id in g.nodes ::
            if id in done then g.nodes[id].(status := Running)
            else if id in g.order && IsReady(g, id) then g.nodes[id].(status := Ready)
            else g.nodes[id], g.order)
  }

  lemma ReadyBeforeRunning(g: Graph)
    ensures HalfRunning(g, {}) == MarkReady(g)
  {
    hide IsReady;
    assert HalfRunning(g, {}).nodes == MarkReady(g).nodes;
  }

  lemma RunningStep(g: Graph, done: set<Id>, id: Id)
    ensures id in ReadyIds(g) ==>
      var h := HalfRunning(g, done);
      id in h.nodes && HalfRunning(g, done + {id}) == h.(nodes := h.nodes[id := h.nodes[id].(status := Running)])
  {
    hide IsReady;
    if id in ReadyIds(g) {
      var h := HalfRunning(g, done);
      assert HalfRunning(g, done + {id}).nodes == h.nodes[id := h.nodes[id].(status := Running)];
    }
  }

  lemma AllRunning(g: Graph)
    requires GraphOk(g)
    ensures HalfRunning(g, ReadyIds(g)) == MarkRunning(g, ReadyIds(g))
  {
    hide IsReady;
    assert HalfRunning(g, ReadyIds(g)).nodes == MarkRunning(g, ReadyIds(g)).nodes;
  }

  // ----- a wave in order -----

  /** The loop is about to start this wave. */
  ghost predicate WaveDue(s: Sys, wave: seq<Id>) {
    && s.phase.Looping? && !GraphDone(s.graph) && !s.cancelled && s.clock <= s.deadline
    && ReadyIds(s.graph) != {}
    && (forall id :: id in wave <==> id in ReadyIds(s.graph))
    && (forall i, j :: 0 <= i < j < |wave| ==> wave[i] != wave[j])
  }

  lemma WaveFacts(s: Sys, wave: seq<Id>)
    requires WaveDue(s, wave)
    ensures forall id :: id in wave <==> id in ReadyIds(s.graph)
    ensures forall id :: id in wave ==> id in MarkRunning(s.graph, ReadyIds(s.graph)).nodes
  {
    hide IsReady;
  }

  lemma ReachesStart(s: Sys, wave: seq<Id>)
    requires WaveDue(s, wave)
    ensures forall env :: Reaches(env, s, StartWave(s))
  {
    forall env ensures Reaches(env, s, StartWave(s)) {
      ReachesSelf(env, s);
      ReachesStep(env, s, s, Advance);
    }
  }

  /** The first `k` tasks of the wave have returned, the others are still submitted. */
  ghost predicate InOrder(s: Sys, s0: Sys, wave: seq<Id>, k: int) {
    && 0 <= k <= |wave|
    && s.phase.InWave? && s.phase.workers.Keys == ReadyIds(s0.graph)
    && (forall i :: 0 <= i < |wave| && wave[i] in s.phase.workers ==>
                      s.phase.workers[wave[i]] == if i < k then Returned else Submitted)
    && s.deadline == s0.deadline && s.waves == s0.waves + 1
  }

  lemma StartPhase(s0: Sys, wave: seq<Id>)
    ensures InOrder(StartWave(s0), s0, wave, 0)
  {
    hide IsReady;
  }

  lemma NextInOrder(s: Sys, s0: Sys, wave: seq<Id>, i: int)
    requires InOrder(s, s0, wave, i) && i < |wave| && forall id :: id in wave <==> id in ReadyIds(s0.graph)
    ensures Placed(s, s, wave[i], Submitted)
  {
    hide ReadyIds;
    assert wave[i] in wave;
    assert s.phase.workers[wave[i] := Submitted] == s.phase.workers;
  }

  lemma AfterInOrder(s: Sys, t: Sys, s0: Sys, wave: seq<Id>, i: int)
    requires InOrder(s, s0, wave, i) && i < |wave| && Placed(s, t, wave[i], Returned) && WaveDue(s0, wave)
    ensures InOrder(t, s0, wave, i + 1)
  {
    hide ReadyIds, GraphDone;
  }

  // ----- failing the rest -----

  ghost function HalfFailed(g: Graph, done: set<Id>, note: Note): Graph {
    Graph(map id | id in g.nodes ::
            if id in done && Unfinished(g.nodes[id].status) then FailedFor(g.nodes[id], note) else g.nodes[id], g.order)
  }

  lemma NothingFailed(g: Graph, note: Note)
    ensures HalfFailed(g, {}, note) == g && |Remaining(g) * {}| == 0
  {
    assert HalfFailed(g, {}, note).nodes == g.nodes;
    assert Remaining(g) * {} == {};
  }

  /** Failing one task more, on the graph. */
  lemma FailGraphStep(g: Graph, done: set<Id>, id: Id, note: Note)
    requires id in g.nodes && id !in done
    ensures
      var h := HalfFailed(g, done, note);
      && id in h.nodes && h.nodes[id] == g.nodes[id]
      && HalfFailed(g, done + {id}, note)
         == (if Unfinished(g.nodes[id].status) then h.(nodes := h.nodes[id := FailedFor(g.nodes[id], note)]) else h)
  {
    var h := HalfFailed(g, done, note);
    assert HalfFailed(g, done + {id}, note).nodes
        == (if Unfinished(g.nodes[id].status) then h.nodes[id := FailedFor(g.nodes[id], note)] else h.nodes);
  }

  /** Failing one task more, in the count. */
  lemma FailCountStep(g: Graph, done: set<Id>, id: Id)
    requires id in g.nodes && id !in done
    ensures |Remaining(g) * (done + {id})| == |Remaining(g) * done| + if Unfinished(g.nodes[id].status) then 1 else 0
  {
    assert Remaining(g) * (done + {id}) == Remaining(g) * done + if Unfinished(g.nodes[id].status) then {id} else {};
  }

  lemma OrderStep(g: Graph, done: set<Id>, i: nat)
    requires GraphOk(g) && i < |g.order| && forall id :: id in done <==> id in g.order[..i]
    ensures g.order[i] in g.nodes && g.order[i] !in done
    ensures forall id :: id in done + {g.order[i]} <==> id in g.order[..i + 1]
  {
    assert g.order[..i + 1] == g.order[..i] + [g.order[i]];
    assert g.order[i] in g.order;
  }

  function CountFailed(c: Counters, k: nat): Counters { c.(failures := c.failures + k) }

  /** One node failed and counted, unless it is finished. */
  function FailedOne(h: Graph, c: Counters, id: Id, note: Note): (Graph, Counters) {
    if id in h.nodes && Unfinished(h.nodes[id].status)
    then (h.(nodes := h.nodes[id := FailedFor(h.nodes[id], note)]), CountFailed(c, 1))
    else (h, c)
  }

  /** So many of the unfinished are failed and counted. */
  ghost predicate FailedSoFar(g: Graph, h: Graph, c0: Counters, c: Counters, done: set<Id>, note: Note) {
    h == HalfFailed(g, done, note) && c == CountFailed(c0, |Remaining(g) * done|)
  }

  lemma FailStep(g: Graph, h: Graph, c0: Counters, c: Counters, done: set<Id>, id: Id, note: Note)
    requires FailedSoFar(g, h, c0, c, done, note) && id in g.nodes && id !in done
    ensures FailedSoFar(g, FailedOne(h, c, id, note).0, c0, FailedOne(h, c, id, note).1, done + {id}, note)
  {
    hide HalfFailed, Remaining, Unfinished;
    FailGraphStep(g, done, id, note);
    FailCountStep(g, done, id);
  }

  lemma NoneFailed(g: Graph, c: Counters, note: Note)
    ensures FailedSoFar(g, g, c, c, {}, note)
  {
    NothingFailed(g, note);
  }

  lemma AllFailed(g: Graph, done: set<Id>, note: Note)
    requires GraphOk(g) && forall id :: id in done <==> id in g.order
    ensures forall h, c0, c :: FailedSoFar(g, h, c0, c, done, note) ==>
      h == FailRemaining(g, note) && c == CountFailed(c0, |Remaining(g)|)
  {
    assert Remaining(g) * done == Remaining(g);
    assert HalfFailed(g, done, note).nodes == FailRemaining(g, note).nodes;
  }

  /** The sorted ready list is the ready set, each task once; if it is empty, nothing was marked. */
  lemma WaveIsReady(s: Sys, wave: seq<Id>)
    requires GraphOk(s.graph)
    requires wave == StableSort(ReadyInOrder(s.graph, s.graph.order), MoreUrgent(Priorities(s.graph)))
    ensures forall id :: id in wave <==> id in ReadyIds(s.graph)
    ensures forall i, j :: 0 <= i < j < |wave| ==> wave[i] != wave[j]
    ensures wave == [] <==> ReadyIds(s.graph) == {}
    ensures wave == [] ==> MarkReady(s.graph) == s.graph
  {
    var ready, le := ReadyInOrder(s.graph, s.graph.order), MoreUrgent(Priorities(s.graph));
    forall id ensures id in wave <==> id in ReadyIds(s.graph) {
      SortMembers(ready, le, id);
      ReadyMembers(s.graph, s.graph.order, id);
    }
    ReadyOnce(s.graph, s.graph.order);
    SortKeeps(ready, le);
    CopiesByMultiset(ready, wave);
    if wave == [] {
      assert forall id :: id !in wave;
      NoneReady(s.graph);
    } else {
      assert wave[0] in wave;
    }
  }

  lemma NoneReady(g: Graph)
    requires ReadyIds(g) == {}
    ensures MarkReady(g) == g
  {
    forall id | id in g.nodes ensures !IsReady(g, id) { assert id !in ReadyIds(g); }
    assert MarkReady(g).nodes == g.nodes;
  }

  lemma {:induction false} ReadyOnce(g: Graph, ids: seq<Id>)
    requires forall i, j :: 0 <= i < j < |ids| ==> ids[i] != ids[j]
    ensures NoDup(ReadyInOrder(g, ids))
  {
    if ids != [] {
      var last := |ids| - 1;
      ReadyOnce(g, ids[..last]);
      ReadyMembers(g, ids[..last], ids[last]);
    }
  }

  lemma DueInv(head: Sys, due: Sys)
    requires Inv(head) && head.phase.Looping? && due.graph == head.graph && due.phase.Looping?
    ensures Inv(due)
  {
    Between(head);
    BoundaryStart(due);
  }

  /** `partial` if some tasks failed and some completed or were delegated, `failed` if none was. */
  ghost function TaskStatus(g: Graph): MissionStatus {
    if forall id :: id in g.nodes ==> !g.nodes[id].status.Failed? then MissionCompleted
    else if exists id :: id in g.nodes && (g.nodes[id].status.Completed? || g.nodes[id].status.Delegated?)
    then MissionPartial
    else MissionFailed
  }

  lemma StatusTold(g: Graph)
    ensures StatusOf(g, false) == TaskStatus(g)
  {
  }

  /** Who had not finished has failed for this reason, and nobody else's node has changed. */
  ghost predicate RestFailed(g: Graph, h: Graph, note: Note) {
    && h.order == g.order && h.nodes.Keys == g.nodes.Keys
    && forall id :: id in g.nodes ==>
         var n := g.nodes[id];
         h.nodes[id] == if n.status.Pending? || n.status.Ready? || n.status.Running?
                        then Node(n.task, Failed, n.attempts, n.agent, n.result, Some(note)) else n
  }

  lemma FailRemainingTells(g: Graph, note: Note)
    ensures RestFailed(g, FailRemaining(g, note), note)
  {
  }

  /** These are the replies of the tasks that have one, each under its task's id. */
  ghost predicate TellsResults(results: map<Id, Reply>, g: Graph) {
    && (forall id :: id in results <==> id in g.nodes && g.nodes[id].result.Some?)
    && (forall id :: id in results ==> g.nodes[id].result == Some(results[id]))
  }

  lemma ResultsTell(g: Graph)
    ensures TellsResults(ResultsOf(g), g)
  {
  }

  /** The results of the tasks that have one. */
  function ResultsOf(g: Graph): map<Id, Reply> {
    map id | id in g.nodes && g.nodes[id].result.Some? :: g.nodes[id].result.value
  }
}
