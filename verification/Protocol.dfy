/**
 * A mission as a step machine. The main thread advances the wave loop, the tasks of a wave move
 * one statement group at a time in any order, and from outside somebody may cancel and the clock
 * may tick. A run is any sequence of such events.
 */
module Protocol {
  import opened Options
  import opened Tasks
  import opened Registry
  import opened Attempts

  /** Where a task of the current wave is. `agents` are the candidates left, `attempt` the tries of the first. */
  datatype Worker =
    | Submitted
    | AtLoop(up: map<Id, Reply>, agents: seq<Name>, attempt: nat, last: Note)
    | Checked(up: map<Id, Reply>, agents: seq<Name>, attempt: nat, last: Note)
    | Calling(up: map<Id, Reply>, agents: seq<Name>, attempt: nat, last: Note)
    | Spawning(reply: Reply, rest: seq<Followup>)
    | Returned

  datatype Phase = Looping | InWave(workers: map<Id, Worker>) | Leaving | Ended(status: MissionStatus)

  datatype Counters = Counters(scheduled: nat, completed: nat, failures: nat)

  datatype Sys = Sys(graph: Graph, counters: Counters, rr: map<string, nat>, cancelled: bool,
                     clock: int, deadline: int, phase: Phase, waves: nat)

  datatype Event = Advance | Move(id: Id) | Cancel | Tick(ms: nat)

  // ----- follow-ups -----

  function Digits(n: nat): string {
    if n < 10 then [('0' as int + n) as char] else Digits(n / 10) + [('0' as int + n % 10) as char]
  }

  /** The id asked for, or one generated from the parent's id and attempt number. */
  function FollowupName(parent: Id, attempts: nat, f: Followup): Id {
    if f.id != "" then f.id else parent + "-f" + Digits(attempts)
  }

  function FollowupId(parent: Node, f: Followup): Id {
    FollowupName(parent.task.id, parent.attempts, f)
  }

  function FollowupTask(env: Env, parent: Node, f: Followup): Task {
    Task(FollowupId(parent, f), if f.kind.Some? then f.kind.value else "followup", f.payload,
         OrElse(f.deadlineMs, env.taskTimeoutMs), OrElse(f.priority, 5),
         f.capability, f.agent, f.dependsOn, OrElse(f.maxRetries, env.maxRetries))
  }

  // ----- one task -----

  function PutNode(s: Sys, id: Id, n: Node, w: Worker): Sys
    requires s.phase.InWave?
  {
    s.(graph := s.graph.(nodes := s.graph.nodes[id := n]), phase := InWave(s.phase.workers[id := w]))
  }

  function PutWorker(s: Sys, id: Id, w: Worker): Sys
    requires s.phase.InWave?
  {
    s.(phase := InWave(s.phase.workers[id := w]))
  }

  /** The candidates for a task, with the round-robin counters and the observed loads of the moment. */
  function CandidatesAt(env: Env, rr: map<string, nat>, scheduled: nat, task: Task): (seq<Name>, map<string, nat>) {
    Candidates(env.manifests, rr, name => env.load(scheduled, name), env.policy, task)
  }

  predicate Active(s: Sys, id: Id) {
    s.phase.InWave? && id in s.phase.workers && id in s.graph.nodes
  }

  function Begin(env: Env, s: Sys, id: Id): Sys
    requires Active(s, id)
  {
    var task := s.graph.nodes[id].task;
    var (agents, rr) := CandidatesAt(env, s.rr, s.counters.scheduled, task);
    PutWorker(s, id, AtLoop(Upstream(s.graph, task), agents, 0, NoAgent))
      .(counters := s.counters.(scheduled := s.counters.scheduled + 1), rr := rr)
  }

  function LoopHead(env: Env, s: Sys, id: Id): Sys
    requires Active(s, id) && s.phase.workers[id].AtLoop?
  {
    var w := s.phase.workers[id];
    var n := s.graph.nodes[id];
    if w.agents == [] then
      PutNode(s, id, FailedFor(n, w.last), Returned).(counters := s.counters.(failures := s.counters.failures + 1))
    else if w.attempt > n.task.maxRetries then PutWorker(s, id, AtLoop(w.up, w.agents[1..], 0, w.last))
    else if s.cancelled then PutNode(s, id, FailedFor(n, CancelledNote), Returned)
    else PutWorker(s, id, Checked(w.up, w.agents, w.attempt, w.last))
  }

  function Answer(env: Env, s: Sys, id: Id): Sys
    requires Active(s, id) && s.phase.workers[id].Calling? && s.phase.workers[id].agents != []
  {
    var w := s.phase.workers[id];
    var n := s.graph.nodes[id];
    var c := Invoke(env, w.agents[0], n.task, w.up, n.attempts);
    match c.outcome
    case Replied(reply) =>
      PutNode(s, id, Answered(n, reply), Spawning(reply, FollowupsOf(reply)))
        .(counters := s.counters.(completed := s.counters.completed + 1))
    case Unavailable => PutWorker(s, id, AtLoop(w.up, w.agents[1..], 0, NoteFor(c.outcome, w.agents[0])))
    case _ => PutWorker(s, id, AtLoop(w.up, w.agents, w.attempt + 1, NoteFor(c.outcome, w.agents[0])))
  }

  function Spawn(env: Env, s: Sys, id: Id): Sys
    requires Active(s, id) && s.phase.workers[id].Spawning?
  {
    var w := s.phase.workers[id];
    if w.rest == [] then PutWorker(s, id, Returned)
    else
      PutWorker(s, id, Spawning(w.reply, w.rest[1..]))
        .(graph := AddTask(s.graph, FollowupTask(env, s.graph.nodes[id], w.rest[0])))
  }

  /** One step of a task; a task that has no step to make stays. */
  function MoveTask(env: Env, s: Sys, id: Id): Sys {
    if !Active(s, id) then s
    else match s.phase.workers[id]
      case Submitted => Begin(env, s, id)
      case AtLoop(_, _, _, _) => LoopHead(env, s, id)
      case Checked(up, agents, attempt, last) =>
        if agents == [] then s
        else PutNode(s, id, Attempted(s.graph.nodes[id], agents[0]), Calling(up, agents, attempt, last))
      case Calling(_, agents, _, _) => if agents == [] then s else Answer(env, s, id)
      case Spawning(_, _) => Spawn(env, s, id)
      case Returned => s
  }

  // ----- the main thread -----

  function Quit(s: Sys, note: Note): Sys {
    s.(graph := FailRemaining(s.graph, note), phase := Leaving,
       counters := s.counters.(failures := s.counters.failures + |Remaining(s.graph)|))
  }

  function StartWave(s: Sys): Sys {
    var wave := ReadyIds(s.graph);
    s.(graph := MarkRunning(s.graph, wave), phase := InWave(map id | id in wave :: Submitted), waves := s.waves + 1)
  }

  predicate AllReturned(workers: map<Id, Worker>) {
    forall id :: id in workers ==> workers[id].Returned?
  }

  /** The main thread's next step starts a wave. */
  predicate StartsWave(s: Sys) {
    && s.phase.Looping? && !GraphDone(s.graph) && !s.cancelled && s.clock <= s.deadline && ReadyIds(s.graph) != {}
  }

  function MainStep(s: Sys): Sys {
    match s.phase
    case Looping =>
      if GraphDone(s.graph) || s.cancelled then s.(phase := Leaving)
      else if s.clock > s.deadline then Quit(s, MissionTimeout)
      else if ReadyIds(s.graph) == {} then Quit(s, BlockedNote)
      else StartWave(s)
    case InWave(workers) => if AllReturned(workers) then s.(phase := Looping) else s
    case Leaving => s.(phase := Ended(StatusOf(s.graph, s.cancelled)))
    case Ended(_) => s
  }

  function Next(env: Env, s: Sys, e: Event): Sys {
    match e
    case Advance => MainStep(s)
    case Move(id) => MoveTask(env, s, id)
    case Cancel => s.(cancelled := true)
    case Tick(ms) => s.(clock := s.clock + ms)
  }

  function Run(env: Env, s: Sys, events: seq<Event>): Sys
    decreases |events|
  {
    if events == [] then s else Run(env, Next(env, s, events[0]), events[1..])
  }

  /** The state in which the executor enters its loop: no counts, or the ones of earlier runs. */
  function Start(g: Graph, c: Counters, rr: map<string, nat>, cancelled: bool, now: int, timeoutMs: int): Sys {
    Sys(g, c, rr, cancelled, now, now + timeoutMs, Looping, 0)
  }

  // ----- reachability -----

  ghost predicate Reaches(env: Env, s: Sys, t: Sys) {
    exists events :: Run(env, s, events) == t
  }

  lemma {:induction false} RunAppend(env: Env, s: Sys, a: seq<Event>, b: seq<Event>)
    ensures Run(env, s, a + b) == Run(env, Run(env, s, a), b)
    decreases |a|
  {
    if a == [] {
      assert a + b == b;
    } else {
      assert (a + b)[1..] == a[1..] + b;
      RunAppend(env, Next(env, s, a[0]), a[1..], b);
    }
  }

  lemma ReachesSelf(env: Env, s: Sys)
    ensures Reaches(env, s, s)
  {
    assert Run(env, s, []) == s;
  }

  lemma ReachesStep(env: Env, s: Sys, t: Sys, e: Event)
    requires Reaches(env, s, t)
    ensures Reaches(env, s, Next(env, t, e))
  {
    var events :| Run(env, s, events) == t;
    RunAppend(env, s, events, [e]);
    assert Run(env, t, [e]) == Run(env, Next(env, t, e), []) == Next(env, t, e);
    assert Run(env, s, events + [e]) == Next(env, t, e);
  }

  lemma ReachesTrans(env: Env, s: Sys, t: Sys, u: Sys)
    requires Reaches(env, s, t) && Reaches(env, t, u)
    ensures Reaches(env, s, u)
  {
    var a :| Run(env, s, a) == t;
    var b :| Run(env, t, b) == u;
    RunAppend(env, s, a, b);
    assert Run(env, s, a + b) == u;
  }
}
