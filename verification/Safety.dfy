/** What every step of a mission keeps, whatever the interleaving. */
module Safety {
  import opened Options
  import opened Tasks
  import opened Attempts
  import opened Protocol

  /** Agents keep the reply contract; the executor itself does not check it. */
  ghost predicate Contract(env: Env) {
    forall agent, task, up, k ::
      env.call(agent, task, up, k).outcome.Replied? ==>
        InTaskStatuses(env.call(agent, task, up, k).outcome.reply.status)
  }

  /** A node that will not change any more: it carries a reply, or an error. */
  predicate Settled(n: Node) {
    if n.result.Some? then n.error.None? && n.status == n.result.value.status && InTaskStatuses(n.status)
    else n.error.Some? && n.status.Failed?
  }

  predicate Fresh(n: Node) { n == FreshNode(n.task) }

  predicate Working(n: Node) { n.status.Running? && n.result.None? && n.error.None? }

  /** Errors that a task's tries can end with. */
  predicate AttemptNote(note: Note) {
    note.NoAgent? || note.AgentTimeout? || note.AgentUnavailable? || note.AgentError?
  }

  /** Errors that only a task that was run can carry. */
  predicate FromRun(note: Note) { AttemptNote(note) || note.CancelledNote? }

  ghost predicate WorkerOk(g: Graph, n: Node, w: Worker) {
    && DepsDone(g, n.task)
    && match w
       case Submitted => n == FreshNode(n.task).(status := Running)
       case AtLoop(up, _, _, last) => Working(n) && up == Upstream(g, n.task) && AttemptNote(last)
       case Checked(up, agents, attempt, last) =>
         Working(n) && up == Upstream(g, n.task) && AttemptNote(last) && agents != [] && attempt <= n.task.maxRetries
       case Calling(up, agents, _, last) =>
         Working(n) && up == Upstream(g, n.task) && AttemptNote(last) && agents != [] && n.attempts > 0
       case Spawning(reply, _) => Settled(n) && n.result == Some(reply)
       case Returned => Settled(n) && (n.error.Some? ==> FromRun(n.error.value))
  }

  ghost predicate NodeOk(s: Sys, id: Id)
    requires id in s.graph.nodes
  {
    if s.phase.InWave? && id in s.phase.workers then WorkerOk(s.graph, s.graph.nodes[id], s.phase.workers[id])
    else Fresh(s.graph.nodes[id]) || Settled(s.graph.nodes[id])
  }

  /** The loop is left only cancelled or with every node settled. */
  ghost predicate ExitOk(s: Sys) {
    (s.phase.Leaving? || s.phase.Ended?) && !s.cancelled ==>
      forall id :: id in s.graph.nodes ==> Settled(s.graph.nodes[id])
  }

  ghost predicate Inv(s: Sys) {
    && GraphOk(s.graph)
    && (s.phase.InWave? ==> s.phase.workers.Keys <= s.graph.nodes.Keys)
    && (forall id :: id in s.graph.nodes ==> NodeOk(s, id))
    && ExitOk(s)
  }

  /** At a wave boundary: tasks not yet run, and settled ones. */
  ghost predicate Boundary(g: Graph) {
    GraphOk(g) && forall id :: id in g.nodes ==> Fresh(g.nodes[id]) || Settled(g.nodes[id])
  }

  /** Nothing is removed, no task is rewritten, and what is settled stays as it is. */
  ghost predicate Grows(g: Graph, h: Graph) {
    forall id :: id in g.nodes ==>
      && id in h.nodes
      && h.nodes[id].task == g.nodes[id].task
      && (Settled(g.nodes[id]) ==> h.nodes[id] == g.nodes[id])
      && (!g.nodes[id].status.Pending? ==> !h.nodes[id].status.Pending?)
  }

  // ----- one step -----

  /** Other tasks do not notice a change of a node that is still at work. */
  lemma DepsUntouched(g: Graph, h: Graph, task: Task)
    requires DepsDone(g, task)
    requires forall dep :: dep in task.dependsOn ==> dep in h.nodes && h.nodes[dep] == g.nodes[dep]
    ensures DepsDone(h, task) && Upstream(h, task) == Upstream(g, task)
  {
  }

  lemma SameShape(g: Graph, h: Graph)
    requires GraphOk(g) && h.order == g.order && h.nodes.Keys == g.nodes.Keys
    requires forall id :: id in g.nodes ==> h.nodes[id].task == g.nodes[id].task
    ensures GraphOk(h)
  {
  }

  lemma GrowsSelf(g: Graph)
    ensures Grows(g, g)
  {
  }

  /** A task's own step that touches its node and its place only. */
  ghost predicate OwnStep(s: Sys, t: Sys, id: Id) {
    && Active(s, id) && Active(t, id)
    && var n := t.graph.nodes[id];
    && (n == s.graph.nodes[id] || Working(s.graph.nodes[id]))
    && n.task == s.graph.nodes[id].task && !n.status.Pending?
    && t.graph == s.graph.(nodes := s.graph.nodes[id := n])
    && t.phase == InWave(s.phase.workers[id := t.phase.workers[id]])
    && WorkerOk(s.graph, n, t.phase.workers[id])
  }

  lemma OwnStepNode(s: Sys, t: Sys, id: Id, other: Id)
    requires Inv(s) && OwnStep(s, t, id) && other in t.graph.nodes
    ensures NodeOk(t, other)
  {
    hide Upstream;
    assert NodeOk(s, other);
    if other == id {
      DepsUntouched(s.graph, t.graph, t.graph.nodes[id].task);
    } else if other in s.phase.workers {
      DepsUntouched(s.graph, t.graph, s.graph.nodes[other].task);
    }
  }

  lemma OwnStepGrows(s: Sys, t: Sys, id: Id)
    requires Inv(s) && OwnStep(s, t, id)
    ensures Grows(s.graph, t.graph)
  {
    hide WorkerOk, GraphOk, NodeOk;
  }

  lemma OwnStepKeeps(s: Sys, t: Sys, id: Id)
    requires Inv(s) && OwnStep(s, t, id)
    ensures Inv(t) && Grows(s.graph, t.graph)
  {
    hide WorkerOk, NodeOk, Grows, GraphOk, Working, Settled;
    forall other | other in t.graph.nodes ensures NodeOk(t, other) {
      OwnStepNode(s, t, id, other);
    }
    SameShape(s.graph, t.graph);
    OwnStepGrows(s, t, id);
  }

  lemma BeginIsOwn(env: Env, s: Sys, id: Id)
    requires Inv(s) && Active(s, id) && s.phase.workers[id].Submitted?
    ensures OwnStep(s, Begin(env, s, id), id)
  {
    hide Upstream, CandidatesAt;
    assert NodeOk(s, id);
    assert s.graph.nodes[id := s.graph.nodes[id]] == s.graph.nodes;
  }

  lemma LoopHeadIsOwn(env: Env, s: Sys, id: Id)
    requires Inv(s) && Active(s, id) && s.phase.workers[id].AtLoop?
    ensures OwnStep(s, LoopHead(env, s, id), id)
  {
    hide Upstream, DepsDone, GraphOk, ExitOk;
    assert NodeOk(s, id);
    assert s.graph.nodes[id := s.graph.nodes[id]] == s.graph.nodes;
  }

  lemma AnswerIsOwn(env: Env, s: Sys, id: Id)
    requires Contract(env) && Inv(s) && Active(s, id) && s.phase.workers[id].Calling?
             && s.phase.workers[id].agents != []
    ensures OwnStep(s, Answer(env, s, id), id)
  {
    hide Upstream, FollowupsOf, DepsDone, GraphOk;
    assert NodeOk(s, id);
    assert s.graph.nodes[id := s.graph.nodes[id]] == s.graph.nodes;
  }

  lemma TryIsOwn(env: Env, s: Sys, id: Id)
    requires Inv(s) && Active(s, id) && s.phase.workers[id].Checked?
    ensures OwnStep(s, MoveTask(env, s, id), id)
  {
    hide Upstream, Begin, LoopHead, Answer, Spawn;
    assert NodeOk(s, id);
  }

  lemma SpawnNode(env: Env, s: Sys, id: Id, other: Id)
    requires Inv(s) && Active(s, id) && s.phase.workers[id].Spawning?
    requires other in Spawn(env, s, id).graph.nodes
    ensures NodeOk(Spawn(env, s, id), other)
  {
    hide Upstream, FollowupTask, GraphOk;
    assert NodeOk(s, id);
    var t := Spawn(env, s, id);
    if other in s.graph.nodes {
      assert NodeOk(s, other);
      if other in s.phase.workers { DepsUntouched(s.graph, t.graph, s.graph.nodes[other].task); }
    }
  }

  lemma SpawnGraph(env: Env, s: Sys, id: Id)
    requires GraphOk(s.graph) && Active(s, id) && s.phase.workers[id].Spawning?
    ensures GraphOk(Spawn(env, s, id).graph) && Grows(s.graph, Spawn(env, s, id).graph)
    ensures s.graph.nodes.Keys <= Spawn(env, s, id).graph.nodes.Keys
  {
    hide FollowupTask;
  }

  lemma SpawnKeeps(env: Env, s: Sys, id: Id)
    requires Inv(s) && Active(s, id) && s.phase.workers[id].Spawning?
    ensures Inv(Spawn(env, s, id)) && Grows(s.graph, Spawn(env, s, id).graph)
  {
    hide WorkerOk, FollowupTask, NodeOk;
    var t := Spawn(env, s, id);
    SpawnGraph(env, s, id);
    hide GraphOk, AddTask, Grows;
    forall other | other in t.graph.nodes ensures NodeOk(t, other) {
      SpawnNode(env, s, id, other);
    }
  }

  lemma MoveKeeps(env: Env, s: Sys, id: Id)
    requires Contract(env) && Inv(s)
    ensures Inv(MoveTask(env, s, id)) && Grows(s.graph, MoveTask(env, s, id).graph)
  {
    hide OwnStep, Spawn, Begin, LoopHead, Answer, WorkerOk;
    if Active(s, id) {
      assert NodeOk(s, id);
      match s.phase.workers[id]
      case Submitted => BeginIsOwn(env, s, id); OwnStepKeeps(s, Begin(env, s, id), id);
      case AtLoop(_, _, _, _) => LoopHeadIsOwn(env, s, id); OwnStepKeeps(s, LoopHead(env, s, id), id);
      case Checked(_, _, _, _) => TryIsOwn(env, s, id); OwnStepKeeps(s, MoveTask(env, s, id), id);
      case Calling(_, agents, _, _) =>
        if agents != [] { AnswerIsOwn(env, s, id); OwnStepKeeps(s, Answer(env, s, id), id); }
      case Spawning(_, _) => SpawnKeeps(env, s, id);
      case Returned =>
    }
  }

  /** Reading a node's clause off the invariant outside a wave. */
  lemma Between(s: Sys)
    requires Inv(s) && !s.phase.InWave?
    ensures Boundary(s.graph)
  {
    forall id | id in s.graph.nodes ensures Fresh(s.graph.nodes[id]) || Settled(s.graph.nodes[id]) {
      assert NodeOk(s, id);
    }
  }

  lemma QuitSettles(s: Sys, note: Note, id: Id)
    requires Boundary(s.graph) && id in s.graph.nodes
    ensures Settled(Quit(s, note).graph.nodes[id]) && NodeOk(Quit(s, note), id)
    ensures Settled(s.graph.nodes[id]) ==> Quit(s, note).graph.nodes[id] == s.graph.nodes[id]
  {
  }

  lemma QuitKeeps(s: Sys, note: Note)
    requires Boundary(s.graph)
    ensures Inv(Quit(s, note)) && Grows(s.graph, Quit(s, note).graph)
  {
    hide NodeOk, Settled, GraphOk;
    var t := Quit(s, note);
    forall id | id in s.graph.nodes
      ensures Settled(t.graph.nodes[id]) && NodeOk(t, id)
      ensures Settled(s.graph.nodes[id]) ==> t.graph.nodes[id] == s.graph.nodes[id]
    {
      QuitSettles(s, note, id);
    }
    SameShape(s.graph, t.graph);
  }

  lemma StartNode(s: Sys, id: Id)
    requires Boundary(s.graph) && id in s.graph.nodes
    ensures NodeOk(StartWave(s), id)
    ensures Settled(s.graph.nodes[id]) ==> StartWave(s).graph.nodes[id] == s.graph.nodes[id]
  {
    hide Upstream, GraphOk;
    var t := StartWave(s);
    if id in t.phase.workers { DepsUntouched(s.graph, t.graph, s.graph.nodes[id].task); }
  }

  lemma StartKeeps(s: Sys)
    requires Boundary(s.graph)
    ensures Inv(StartWave(s)) && Grows(s.graph, StartWave(s).graph)
  {
    hide WorkerOk, NodeOk, IsReady, GraphOk;
    var t := StartWave(s);
    SameShape(s.graph, t.graph);
    forall id | id in s.graph.nodes
      ensures NodeOk(t, id) && (Settled(s.graph.nodes[id]) ==> t.graph.nodes[id] == s.graph.nodes[id])
    {
      StartNode(s, id);
    }
  }

  /** Leaving a wave, the loop or the run changes no node. */
  lemma PhaseKeeps(s: Sys, t: Sys)
    requires Inv(s) && t.graph == s.graph && !t.phase.InWave?
    requires s.phase.InWave? ==> AllReturned(s.phase.workers)
    requires t.phase.Looping? || t.cancelled || forall id :: id in s.graph.nodes ==> Settled(s.graph.nodes[id])
    ensures Inv(t)
  {
    hide Upstream, DepsDone;
    forall id | id in s.graph.nodes ensures NodeOk(t, id) { assert NodeOk(s, id); }
  }

  lemma DoneIsSettled(s: Sys)
    requires Inv(s) && s.phase.Looping? && GraphDone(s.graph)
    ensures forall id :: id in s.graph.nodes ==> Settled(s.graph.nodes[id])
  {
    Between(s);
  }

  lemma MainKeeps(s: Sys)
    requires Inv(s)
    ensures Inv(MainStep(s)) && Grows(s.graph, MainStep(s).graph)
  {
    hide Quit, StartWave, NodeOk, ReadyIds;
    match s.phase
    case Looping =>
      Between(s);
      if GraphDone(s.graph) || s.cancelled {
        if GraphDone(s.graph) { DoneIsSettled(s); }
        PhaseKeeps(s, MainStep(s));
      } else if s.clock > s.deadline {
        QuitKeeps(s, MissionTimeout);
      } else if ReadyIds(s.graph) == {} {
        QuitKeeps(s, BlockedNote);
      } else {
        StartKeeps(s);
      }
    case InWave(workers) => if AllReturned(workers) { PhaseKeeps(s, MainStep(s)); }
    case Leaving => PhaseKeeps(s, MainStep(s));
    case Ended(_) =>
  }

  /** Cancelling and the clock touch no node. */
  lemma OutsideKeeps(s: Sys, t: Sys)
    requires Inv(s) && t.graph == s.graph && t.phase == s.phase && (s.cancelled ==> t.cancelled)
    ensures Inv(t)
  {
    forall id | id in s.graph.nodes ensures NodeOk(t, id) { assert NodeOk(s, id); }
  }

  lemma NextKeeps(env: Env, s: Sys, e: Event)
    requires Contract(env) && Inv(s)
    ensures Inv(Next(env, s, e)) && Grows(s.graph, Next(env, s, e).graph)
  {
    hide MainStep, MoveTask, Inv;
    match e
    case Advance => MainKeeps(s);
    case Move(id) => MoveKeeps(env, s, id);
    case Cancel => OutsideKeeps(s, Next(env, s, e));
    case Tick(_) => OutsideKeeps(s, Next(env, s, e));
  }

  /** The cancel flag is never cleared, and the clock never runs back. */
  lemma NextOutside(env: Env, s: Sys, e: Event)
    ensures s.cancelled ==> Next(env, s, e).cancelled
    ensures s.clock <= Next(env, s, e).clock && s.deadline == Next(env, s, e).deadline
  {
  }

  // ----- whole runs -----

  lemma GrowsTrans(g: Graph, h: Graph, k: Graph)
    requires Grows(g, h) && Grows(h, k)
    ensures Grows(g, k)
  {
  }

  lemma {:induction false} RunKeeps(env: Env, s: Sys, events: seq<Event>)
    requires Contract(env) && Inv(s)
    ensures Inv(Run(env, s, events)) && Grows(s.graph, Run(env, s, events).graph)
    ensures s.cancelled ==> Run(env, s, events).cancelled
    ensures s.clock <= Run(env, s, events).clock && s.deadline == Run(env, s, events).deadline
    decreases |events|
  {
    hide Inv, Grows, Next;
    GrowsSelf(s.graph);
    if events != [] {
      var t := Next(env, s, events[0]);
      NextKeeps(env, s, events[0]);
      NextOutside(env, s, events[0]);
      RunKeeps(env, t, events[1..]);
      GrowsTrans(s.graph, t.graph, Run(env, s, events).graph);
    }
  }
}
