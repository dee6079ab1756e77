/** One task's tries: every candidate agent in turn, each retried as often as the task allows. */
module Attempts {
  import opened Options
  import opened Tasks
  import opened Registry

  /** What a mission runs in: its policy and the agents, which answer by (agent, task, upstream, attempt number). */
  datatype Env = Env(call: (Name, Task, map<Id, Reply>, nat) -> Call,
                     manifests: seq<Manifest>,
                     load: (nat, Name) -> int,
                     policy: Policy, backoffMs: nat,
                     taskTimeoutMs: int, maxRetries: int)

  /** The bounded runner: a deadline of zero or less is no deadline. */
  function Invoke(env: Env, agent: Name, task: Task, up: map<Id, Reply>, attempt: nat): Call {
    var c := env.call(agent, task, up, attempt);
    if 0 < task.deadlineMs < c.ms then Call(task.deadlineMs, TimedOut) else c
  }

  function Attempted(n: Node, agent: Name): Node {
    n.(attempts := n.attempts + 1, agent := Some(agent))
  }

  function Answered(n: Node, reply: Reply): Node {
    n.(result := Some(reply), status := reply.status)
  }

  function NoteFor(outcome: Outcome, agent: Name): Note
    requires !outcome.Replied?
  {
    match outcome
    case TimedOut => AgentTimeout(agent)
    case Unavailable => AgentUnavailable(agent)
    case Raised => AgentError(agent)
  }

  /** The node at the end, and the time spent. */
  datatype Tried = Tried(node: Node, ms: nat)

  function Later(t: Tried, ms: nat): Tried { t.(ms := t.ms + ms) }

  /** How many times one agent may be tried. */
  function Rounds(task: Task): nat { if task.maxRetries < 0 then 0 else task.maxRetries + 1 }

  /**
   * The meaning of the retry loops when nobody cancels: `agents` are the candidates left, the
   * first of them already tried `attempt` times, `last` the latest error.
   */
  function Drive(env: Env, up: map<Id, Reply>, agents: seq<Name>, attempt: nat, last: Note, node: Node): Tried
    decreases |agents|, Rounds(node.task) - attempt
  {
    if agents == [] then Tried(FailedFor(node, last), 0)
    else if attempt > node.task.maxRetries then Drive(env, up, agents[1..], 0, last, node)
    else
      var n := Attempted(node, agents[0]);
      var c := Invoke(env, agents[0], node.task, up, n.attempts);
      match c.outcome
      case Replied(reply) => Tried(Answered(n, reply), c.ms)
      case Unavailable => Later(Drive(env, up, agents[1..], 0, NoteFor(c.outcome, agents[0]), n), c.ms)
      case _ =>
        Later(Drive(env, up, agents, attempt + 1, NoteFor(c.outcome, agents[0]), n),
              c.ms + if attempt + 1 <= node.task.maxRetries then env.backoffMs else 0)
  }

  /** The whole of one uncancelled task run. */
  function TryAll(env: Env, up: map<Id, Reply>, agents: seq<Name>, node: Node): Tried {
    Drive(env, up, agents, 0, NoAgent, node)
  }

  function FollowupsOf(reply: Reply): seq<Followup> {
    if reply.nested != [] then reply.nested else reply.outer
  }

  // ----- how often and how long -----

  /** Tries left with `c` agents, the first of them already tried `attempt` times. */
  function TriesLeft(c: nat, rounds: nat, attempt: nat): int {
    c * rounds - attempt
  }

  /** Pauses left: none before an agent's first try. */
  function PausesLeft(c: nat, retries: nat, attempt: nat): int {
    c * retries - attempt
  }

  lemma Product(c: nat, x: nat)
    requires c > 0
    ensures c * x == (c - 1) * x + x
  {
  }

  lemma InvokeInTime(env: Env, agent: Name, task: Task, up: map<Id, Reply>, k: nat)
    requires task.deadlineMs > 0
    ensures Invoke(env, agent, task, up, k).ms <= task.deadlineMs
  {
  }

  /** Every candidate is tried at most `maxRetries + 1` times. */
  lemma {:induction false} DriveAttempts(env: Env, up: map<Id, Reply>, agents: seq<Name>, attempt: nat, last: Note,
                                         node: Node)
    requires attempt <= Rounds(node.task) && (agents == [] ==> attempt == 0)
    ensures Drive(env, up, agents, attempt, last, node).node.attempts
            <= node.attempts + TriesLeft(|agents|, Rounds(node.task), attempt)
    decreases |agents|, Rounds(node.task) - attempt
  {
    if agents == [] {
    } else if attempt > node.task.maxRetries {
      Product(|agents|, Rounds(node.task));
      DriveAttempts(env, up, agents[1..], 0, last, node);
    } else {
      var n := Attempted(node, agents[0]);
      var c := Invoke(env, agents[0], node.task, up, n.attempts);
      Product(|agents|, Rounds(node.task));
      if c.outcome.Unavailable? {
        DriveAttempts(env, up, agents[1..], 0, NoteFor(c.outcome, agents[0]), n);
      } else if !c.outcome.Replied? {
        DriveAttempts(env, up, agents, attempt + 1, NoteFor(c.outcome, agents[0]), n);
      }
      Nonnegative(|agents| - 1, Rounds(node.task));
    }
  }

  lemma Nonnegative(c: nat, x: nat)
    ensures c * x >= 0
  {
  }

  /** A task that has a try makes it. */
  lemma {:induction false} AttemptsRise(env: Env, up: map<Id, Reply>, agents: seq<Name>, attempt: nat, last: Note,
                                        node: Node)
    ensures Drive(env, up, agents, attempt, last, node).node.attempts
            >= node.attempts + if agents != [] && attempt <= node.task.maxRetries then 1 else 0
    decreases |agents|, Rounds(node.task) - attempt
  {
    if agents == [] {
    } else if attempt > node.task.maxRetries {
      AttemptsRise(env, up, agents[1..], 0, last, node);
    } else {
      var n := Attempted(node, agents[0]);
      var c := Invoke(env, agents[0], node.task, up, n.attempts);
      if c.outcome.Unavailable? {
        AttemptsRise(env, up, agents[1..], 0, NoteFor(c.outcome, agents[0]), n);
      } else if !c.outcome.Replied? {
        AttemptsRise(env, up, agents, attempt + 1, NoteFor(c.outcome, agents[0]), n);
      }
    }
  }

  /** One of these agents is unavailable to the task, within its deadline, at one of its first `attempts` attempts. */
  ghost predicate SomeUnavailable(env: Env, agents: seq<Name>, task: Task, up: map<Id, Reply>, attempts: nat) {
    exists agent, k :: agent in agents && 1 <= k <= attempts && UnavailableAt(env, agent, task, up, k)
  }

  predicate UnavailableAt(env: Env, agent: Name, task: Task, up: map<Id, Reply>, k: nat) {
    && env.call(agent, task, up, k).outcome.Unavailable?
    && (task.deadlineMs > 0 ==> env.call(agent, task, up, k).ms <= task.deadlineMs)
  }

  // ----- what the agents themselves did -----

  /** A result is what an agent of the list replied, within the task's deadline, to the last attempt made. */
  ghost predicate AnsweredInTime(env: Env, list: seq<Name>, up: map<Id, Reply>, n: Node) {
    n.result.Some? ==>
      && n.agent.Some? && n.agent.value in list && n.attempts >= 1
      && var c := env.call(n.agent.value, n.task, up, n.attempts);
      && c.outcome == Replied(n.result.value)
      && (n.task.deadlineMs > 0 ==> c.ms <= n.task.deadlineMs)
  }

  /**
   * The note of a task that has no result yet is that of its last attempt: a timeout if the agent took longer than the
   * deadline, whatever it answered then, and otherwise what became of the call. Without an attempt there was no agent.
   */
  ghost predicate NotesLastCall(env: Env, list: seq<Name>, up: map<Id, Reply>, n: Node, note: Note) {
    if n.attempts == 0 then note == NoAgent
    else
      && n.agent.Some? && n.agent.value in list
      && var agent, c := n.agent.value, env.call(n.agent.value, n.task, up, n.attempts);
      if 0 < n.task.deadlineMs < c.ms then note == AgentTimeout(agent)
      else match c.outcome
        case Replied(_) => false
        case TimedOut => note == AgentTimeout(agent)
        case Unavailable => note == AgentUnavailable(agent)
        case Raised => note == AgentError(agent)
  }

  lemma ReplyWasInTime(env: Env, list: seq<Name>, up: map<Id, Reply>, n: Node, agent: Name, reply: Reply)
    requires n.agent == Some(agent) && agent in list && n.attempts >= 1
    requires Invoke(env, agent, n.task, up, n.attempts).outcome == Replied(reply)
    ensures AnsweredInTime(env, list, up, Answered(n, reply))
  {
  }

  lemma FailureIsNoted(env: Env, list: seq<Name>, up: map<Id, Reply>, n: Node, agent: Name)
    requires n.agent == Some(agent) && agent in list && n.attempts >= 1
    requires !Invoke(env, agent, n.task, up, n.attempts).outcome.Replied?
    ensures NotesLastCall(env, list, up, n, NoteFor(Invoke(env, agent, n.task, up, n.attempts).outcome, agent))
  {
  }

  lemma NobodyUnavailable(env: Env, agents: seq<Name>, task: Task, up: map<Id, Reply>, attempts: nat, agent: Name,
                          k: nat)
    requires agents != [] && agent in agents && !SomeUnavailable(env, agents, task, up, attempts)
    ensures 1 <= k <= attempts ==> !Invoke(env, agent, task, up, k).outcome.Unavailable?
    ensures !SomeUnavailable(env, agents[1..], task, up, attempts)
  {
    assert 1 <= k <= attempts ==> !UnavailableAt(env, agent, task, up, k);
    hide UnavailableAt;
    assert forall a :: a in agents[1..] ==> a in agents;
  }

  /** A task that fails with all its agents available at its attempts has made every try it had. */
  lemma {:induction false} DriveExhausts(env: Env, up: map<Id, Reply>, agents: seq<Name>, attempt: nat, last: Note,
                                         node: Node)
    requires attempt <= Rounds(node.task) && (agents == [] ==> attempt == 0)
    requires node.result.None? && Drive(env, up, agents, attempt, last, node).node.result.None?
    requires !SomeUnavailable(env, agents, node.task, up, Drive(env, up, agents, attempt, last, node).node.attempts)
    ensures Drive(env, up, agents, attempt, last, node).node.attempts
            == node.attempts + TriesLeft(|agents|, Rounds(node.task), attempt)
    decreases |agents|, Rounds(node.task) - attempt
  {
    var made := Drive(env, up, agents, attempt, last, node).node.attempts;
    if agents == [] {
    } else if attempt > node.task.maxRetries {
      Product(|agents|, Rounds(node.task));
      NobodyUnavailable(env, agents, node.task, up, made, agents[0], made);
      hide SomeUnavailable;
      DriveExhausts(env, up, agents[1..], 0, last, node);
    } else {
      var n := Attempted(node, agents[0]);
      var c := Invoke(env, agents[0], node.task, up, n.attempts);
      AttemptsRise(env, up, agents, attempt, last, node);
      NobodyUnavailable(env, agents, node.task, up, made, agents[0], n.attempts);
      hide SomeUnavailable, Invoke;
      DriveExhausts(env, up, agents, attempt + 1, NoteFor(c.outcome, agents[0]), n);
    }
  }

  /** The time of the tries left is bounded by their deadlines and the pauses between them. */
  lemma {:induction false} DriveTime(env: Env, up: map<Id, Reply>, agents: seq<Name>, attempt: nat, last: Note,
                                     node: Node)
    requires attempt <= Rounds(node.task) && (agents == [] ==> attempt == 0)
    requires node.task.deadlineMs > 0 && node.task.maxRetries >= 0
    ensures
      Drive(env, up, agents, attempt, last, node).ms
      <= TriesLeft(|agents|, Rounds(node.task), attempt) * node.task.deadlineMs
         + PausesLeft(|agents|, node.task.maxRetries, if attempt > node.task.maxRetries then node.task.maxRetries
                      else attempt) * env.backoffMs
    decreases |agents|, Rounds(node.task) - attempt
  {
    var c, r, d, b := |agents|, node.task.maxRetries, node.task.deadlineMs, env.backoffMs;
    if agents == [] {
    } else if attempt > r {
      DriveTime(env, up, agents[1..], 0, last, node);
      Product(c, r + 1);
      Product(c, r);
    } else {
      var n := Attempted(node, agents[0]);
      var call := Invoke(env, agents[0], node.task, up, n.attempts);
      InvokeInTime(env, agents[0], node.task, up, n.attempts);
      if call.outcome.Unavailable? {
        DriveTime(env, up, agents[1..], 0, NoteFor(call.outcome, agents[0]), n);
        TimeOfSkip(c, r, attempt, d, b);
      } else if call.outcome.Replied? {
        TimeOfSkip(c, r, attempt, d, b);
        Nonnegative(c - 1, r + 1); Nonnegative(c - 1, r);
        Nonnegative(TriesLeft(c - 1, r + 1, 0), d); Nonnegative(PausesLeft(c - 1, r, 0), b);
      } else {
        DriveTime(env, up, agents, attempt + 1, NoteFor(call.outcome, agents[0]), n);
        TimeOfTry(c, r, attempt, d, b);
      }
    }
  }

  /** Giving up an agent after one more try uses no more than the tries and pauses it had. */
  lemma TimeOfSkip(c: nat, r: nat, attempt: nat, d: nat, b: nat)
    requires c > 0 && attempt <= r
    ensures d + TriesLeft(c - 1, r + 1, 0) * d + PausesLeft(c - 1, r, 0) * b
            <= TriesLeft(c, r + 1, attempt) * d + PausesLeft(c, r, attempt) * b
  {
    Product(c, r + 1);
    Product(c, r);
    var x, y := TriesLeft(c - 1, r + 1, 0), PausesLeft(c - 1, r, 0);
    assert TriesLeft(c, r + 1, attempt) == x + 1 + (r - attempt);
    assert PausesLeft(c, r, attempt) == y + (r - attempt);
    assert (x + 1 + (r - attempt)) * d == x * d + d + (r - attempt) * d;
    assert (y + (r - attempt)) * b == y * b + (r - attempt) * b;
    Nonnegative(r - attempt, d); Nonnegative(r - attempt, b);
  }

  /** One more try of the same agent, with a pause unless it was the last. */
  lemma TimeOfTry(c: nat, r: nat, attempt: nat, d: nat, b: nat)
    requires c > 0 && attempt <= r
    ensures
      var after := if attempt + 1 > r then r else attempt + 1;
      TriesLeft(c, r + 1, attempt + 1) * d + d == TriesLeft(c, r + 1, attempt) * d
      && PausesLeft(c, r, after) * b + (if attempt + 1 <= r then b else 0) == PausesLeft(c, r, attempt) * b
  {
    var x, y := TriesLeft(c, r + 1, attempt + 1), PausesLeft(c, r, attempt + 1);
    assert (x + 1) * d == x * d + d;
    assert (y + 1) * b == y * b + b;
  }

  /**
   * Retries and fallbacks are bounded: with C candidates and R retries a task makes at most C(R+1) tries, exactly
   * that many when it fails with none of them unavailable at its attempts, and under a deadline D with backoff B it
   * takes at
   * most C((R+1)D + RB).
   */
  lemma RetryBound(env: Env, up: map<Id, Reply>, agents: seq<Name>, task: Task)
    ensures
      var e := TryAll(env, up, agents, FreshNode(task).(status := Running));
      && e.node.attempts <= |agents| * Rounds(task)
      && (e.node.result.None? && !SomeUnavailable(env, agents, task, up, e.node.attempts) ==>
            e.node.attempts == |agents| * Rounds(task))
      && (task.deadlineMs > 0 && task.maxRetries >= 0 ==>
            e.ms <= |agents| * ((task.maxRetries + 1) * task.deadlineMs + task.maxRetries * env.backoffMs))
  {
    var n := FreshNode(task).(status := Running);
    DriveAttempts(env, up, agents, 0, NoAgent, n);
    var e := TryAll(env, up, agents, n);
    if e.node.result.None? && !SomeUnavailable(env, agents, task, up, e.node.attempts) {
      DriveExhausts(env, up, agents, 0, NoAgent, n);
    }
    if task.deadlineMs > 0 && task.maxRetries >= 0 {
      DriveTime(env, up, agents, 0, NoAgent, n);
      Distribute(|agents|, task.maxRetries, task.deadlineMs, env.backoffMs);
    }
  }

  /** The time that the tries left will take, if nobody cancels. */
  function TimeLeft(env: Env, up: map<Id, Reply>, agents: seq<Name>, attempt: nat, last: Note, node: Node): nat {
    Drive(env, up, agents, attempt, last, node).ms
  }

  /** One try takes its call's time, then the pause if the same agent is tried again, then the rest. */
  lemma TryTime(env: Env, up: map<Id, Reply>, agents: seq<Name>, attempt: nat, last: Note, node: Node)
    requires agents != [] && attempt <= node.task.maxRetries
    ensures
      var n := Attempted(node, agents[0]);
      var c := Invoke(env, agents[0], node.task, up, n.attempts);
      TimeLeft(env, up, agents, attempt, last, node) == c.ms +
        match c.outcome
        case Replied(_) => 0
        case Unavailable => TimeLeft(env, up, agents[1..], 0, NoteFor(c.outcome, agents[0]), n)
        case _ => (if attempt + 1 <= node.task.maxRetries then env.backoffMs else 0)
                  + TimeLeft(env, up, agents, attempt + 1, NoteFor(c.outcome, agents[0]), n)
  {
  }

  lemma SkipTime(env: Env, up: map<Id, Reply>, agents: seq<Name>, attempt: nat, last: Note, node: Node)
    requires agents != [] && attempt > node.task.maxRetries
    ensures TimeLeft(env, up, agents, attempt, last, node) == TimeLeft(env, up, agents[1..], 0, last, node)
  {
  }

  lemma NoTimeLeft(env: Env, up: map<Id, Reply>, last: Note, node: Node)
    ensures TimeLeft(env, up, [], 0, last, node) == 0
  {
  }

  /** The time of all tries, under a deadline. */
  lemma TimeBound(env: Env, up: map<Id, Reply>, agents: seq<Name>, last: Note, node: Node)
    requires node.task.deadlineMs > 0 && node.task.maxRetries >= 0
    ensures TimeLeft(env, up, agents, 0, last, node) <= TaskTime(env, |agents|, node.task)
  {
    DriveTime(env, up, agents, 0, last, node);
    Distribute(|agents|, node.task.maxRetries, node.task.deadlineMs, env.backoffMs);
  }

  /** C((R + 1)D + RB). */
  function TaskTime(env: Env, candidates: nat, task: Task): int {
    candidates * ((task.maxRetries + 1) * task.deadlineMs + task.maxRetries * env.backoffMs)
  }

  lemma Distribute(c: nat, r: nat, d: nat, b: nat)
    ensures TriesLeft(c, r + 1, 0) * d + PausesLeft(c, r, 0) * b == c * ((r + 1) * d + r * b)
  {
    assert c * ((r + 1) * d + r * b) == c * ((r + 1) * d) + c * (r * b);
    assert c * ((r + 1) * d) == (c * (r + 1)) * d;
    assert c * (r * b) == (c * r) * b;
  }
}
