/**
 * The tasks a run adds, told from the records the agents sent: every new task is what some reply's record asked for,
 * and everything asked for is there once the task that got the reply has returned.
 */
module Followups {
  import opened Options
  import opened Tasks
  import opened Attempts
  import opened Protocol
  import opened Safety
  import opened Counting
  import opened Lists

  // ----- one record -----

  /** The id the record asks for, or the parent's id and attempt number where it asks for none. */
  predicate AsksFor(parent: Node, f: Followup, id: Id) {
    id == if f.id != "" then f.id else parent.task.id + "-f" + Digits(parent.attempts)
  }

  /** The task is the record's, and the mission's where the record says nothing. */
  predicate AsRecorded(env: Env, parent: Node, f: Followup, task: Task) {
    && AsksFor(parent, f, task.id)
    && task.capability == f.capability && task.preferred == f.agent
    && task.payload == f.payload && task.dependsOn == f.dependsOn
    && (match f.kind case Some(kind) => task.kind == kind case None => task.kind == "followup")
    && (match f.deadlineMs case Some(ms) => task.deadlineMs == ms case None => task.deadlineMs == env.taskTimeoutMs)
    && (match f.priority case Some(p) => task.priority == p case None => task.priority == 5)
    && (match f.maxRetries case Some(r) => task.maxRetries == r case None => task.maxRetries == env.maxRetries)
  }

  lemma TaskIsRecorded(env: Env, parent: Node, f: Followup)
    ensures AsRecorded(env, parent, f, FollowupTask(env, parent, f))
    ensures AsksFor(parent, f, FollowupId(parent, f))
  {
  }

  /** Record `j` is the first of these that asks for `id`, and the task is what it asks for. */
  ghost predicate FirstToAsk(env: Env, parent: Node, records: seq<Followup>, j: nat, id: Id, task: Task) {
    && j < |records| && task.id == id && AsRecorded(env, parent, records[j], task)
    && forall i :: 0 <= i < j ==> !AsksFor(parent, records[i], id)
  }

  /** A node as it enters the graph. */
  predicate Untouched(n: Node) {
    n.status.Pending? && n.attempts == 0 && n.agent.None? && n.result.None? && n.error.None?
  }

  // ----- numerals -----

  /** The number that decimal digits write, the last of them the units. */
  function Value(s: string): int {
    if s == "" then 0 else 10 * Value(s[..|s| - 1]) + (s[|s| - 1] as int - '0' as int)
  }

  /** Attempt numbers are written as decimals without leading zeros. */
  lemma {:induction false} DigitsMean(n: nat)
    ensures Digits(n) != "" && (forall i :: 0 <= i < |Digits(n)| ==> '0' <= Digits(n)[i] <= '9')
    ensures Value(Digits(n)) == n && (n > 0 ==> Digits(n)[0] != '0')
  {
    if n >= 10 {
      DigitsMean(n / 10);
      assert Digits(n)[..|Digits(n)| - 1] == Digits(n / 10);
    }
  }

  // ----- one step -----

  /**
   * One record is taken: the task it asks for is new to the graph and enters it untouched, or its id is taken and
   * nothing happens. Nothing else changes.
   */
  lemma RecordTaken(env: Env, s: Sys, id: Id)
    requires Active(s, id) && s.phase.workers[id].Spawning? && s.phase.workers[id].rest != []
    ensures
      var w, t, parent := s.phase.workers[id], Next(env, s, Move(id)), s.graph.nodes[id];
      && t.phase == InWave(s.phase.workers[id := Spawning(w.reply, w.rest[1..])])
      && t == s.(graph := t.graph, phase := t.phase)
      && (exists asked ::
            (AsksFor(parent, w.rest[0], asked) && asked in t.graph.nodes
             && if asked in s.graph.nodes then t.graph == s.graph
                else t.graph == Graph(s.graph.nodes[asked := t.graph.nodes[asked]], s.graph.order + [asked])
                     && Untouched(t.graph.nodes[asked])
                     && AsRecorded(env, parent, w.rest[0], t.graph.nodes[asked].task)))
  {
    var f := s.phase.workers[id].rest[0];
    TaskIsRecorded(env, s.graph.nodes[id], f);
    assert MoveTask(env, s, id) == Spawn(env, s, id);
    var asked := FollowupId(s.graph.nodes[id], f);
    assert FollowupTask(env, s.graph.nodes[id], f).id == asked;
    hide FollowupTask, AsksFor, AsRecorded, FollowupId;
  }

  // ----- all records of a reply -----

  /**
   * What taking these records makes of a graph: its tasks stay as they are, everything asked for is there, and what
   * is new is untouched and asked for, by the first record to name its id.
   */
  ghost predicate RecordsTaken(env: Env, g: Graph, h: Graph, parent: Node, records: seq<Followup>) {
    && (forall id :: id in g.nodes ==> id in h.nodes && h.nodes[id] == g.nodes[id])
    && (forall j, asked :: 0 <= j < |records| && AsksFor(parent, records[j], asked) ==> asked in h.nodes)
    && (forall id :: id in h.nodes && id !in g.nodes ==>
          Untouched(h.nodes[id]) && exists j :: FirstToAsk(env, parent, records, j, id, h.nodes[id].task))
  }

  lemma NoneTaken(env: Env, g: Graph, parent: Node)
    ensures RecordsTaken(env, g, g, parent, [])
  {
  }

  lemma OneMoreTaken(env: Env, g: Graph, h: Graph, parent: Node, records: seq<Followup>, k: nat)
    requires k < |records| && RecordsTaken(env, g, h, parent, records[..k])
    ensures RecordsTaken(env, g, AddTask(h, FollowupTask(env, parent, records[k])), parent, records[..k + 1])
  {
    var task, some, more := FollowupTask(env, parent, records[k]), records[..k], records[..k + 1];
    var h' := AddTask(h, task);
    TaskIsRecorded(env, parent, records[k]);
    assert task.id in h'.nodes && forall asked :: AsksFor(parent, records[k], asked) ==> asked == task.id;
    assert more == some + [records[k]];
    hide FollowupTask, AsRecorded, AsksFor;
    forall j, asked | 0 <= j < |more| && AsksFor(parent, more[j], asked) ensures asked in h'.nodes {
      if j < k { assert AsksFor(parent, some[j], asked); }
    }
    assert task.id !in h.nodes ==> Untouched(h'.nodes[task.id]);
    hide Untouched;
    forall id | id in h'.nodes && id !in g.nodes
      ensures Untouched(h'.nodes[id]) && exists j :: FirstToAsk(env, parent, more, j, id, h'.nodes[id].task)
    {
      if id in h.nodes {
        var j: nat :| FirstToAsk(env, parent, some, j, id, h.nodes[id].task);
        hide RecordsTaken;
        StillFirst(env, parent, records, k, j, id, h.nodes[id].task);
      } else {
        assert forall i :: 0 <= i < k ==> !AsksFor(parent, some[i], id);
        hide RecordsTaken;
        NewFirst(env, parent, records, k, id, task);
      }
    }
  }

  lemma NewFirst(env: Env, parent: Node, records: seq<Followup>, k: nat, id: Id, task: Task)
    requires k < |records| && task.id == id && AsRecorded(env, parent, records[k], task)
    requires forall i :: 0 <= i < k ==> !AsksFor(parent, records[..k][i], id)
    ensures FirstToAsk(env, parent, records[..k + 1], k, id, task)
  {
    hide AsRecorded, AsksFor;
    var some, more := records[..k], records[..k + 1];
    assert forall i :: 0 <= i < k ==> more[i] == some[i];
  }

  lemma StillFirst(env: Env, parent: Node, records: seq<Followup>, k: nat, j: nat, id: Id, task: Task)
    requires k < |records| && FirstToAsk(env, parent, records[..k], j, id, task)
    ensures FirstToAsk(env, parent, records[..k + 1], j, id, task)
  {
    hide AsRecorded, AsksFor;
    var some, more := records[..k], records[..k + 1];
    assert forall i :: 0 <= i < k ==> more[i] == some[i];
  }

  // ----- the invariant -----

  /** How many of a reply's records are still to be taken. */
  function Waiting(s: Sys, p: Id): nat {
    if Active(s, p) && s.phase.workers[p].Spawning? then |s.phase.workers[p].rest| else 0
  }

  /** Every record taken so far has its task in the graph; those waiting are the last ones. */
  ghost predicate TakenAt(s: Sys, p: Id)
    requires p in s.graph.nodes
  {
    var n := s.graph.nodes[p];
    n.result.Some? ==>
      var records := FollowupsOf(n.result.value);
      && Waiting(s, p) <= |records|
      && (Waiting(s, p) > 0 ==> s.phase.workers[p].rest == records[|records| - Waiting(s, p)..])
      && forall j, asked :: 0 <= j < |records| - Waiting(s, p) && AsksFor(n, records[j], asked)
           ==> asked in s.graph.nodes
  }

  /** Some task's reply asked for this one, in a record that was the first of the reply to ask for its id. */
  ghost predicate AskedBy(env: Env, g: Graph, p: Id, j: nat, id: Id)
    requires id in g.nodes
  {
    && p in g.nodes && g.nodes[p].result.Some?
    && FirstToAsk(env, g.nodes[p], FollowupsOf(g.nodes[p].result.value), j, id, g.nodes[id].task)
  }

  ghost predicate Asked(env: Env, g: Graph, id: Id)
    requires id in g.nodes
  {
    exists p, j :: AskedBy(env, g, p, j, id)
  }

  ghost predicate AllAsked(env: Env, planned: set<Id>, s: Sys) {
    && (forall p :: p in s.graph.nodes ==> TakenAt(s, p))
    && (forall id :: id in s.graph.nodes && id !in planned ==> Asked(env, s.graph, id))
  }

  /** A node with a result does not change any more. */
  lemma ResultIsSettled(s: Sys, p: Id)
    requires Inv(s) && p in s.graph.nodes && s.graph.nodes[p].result.Some?
    ensures Settled(s.graph.nodes[p])
  {
    hide GraphOk, DepsDone, Upstream;
    assert NodeOk(s, p);
  }

  lemma AskedStays(env: Env, s: Sys, h: Graph, id: Id)
    requires Inv(s) && Grows(s.graph, h) && id in s.graph.nodes && Asked(env, s.graph, id)
    ensures id in h.nodes && Asked(env, h, id)
  {
    var p, j :| AskedBy(env, s.graph, p, j, id);
    ResultIsSettled(s, p);
    hide FirstToAsk, Inv;
    assert AskedBy(env, h, p, j, id);
  }

  /** Where nothing is taken, what was there stays there. */
  lemma TakenStays(s: Sys, t: Sys, p: Id)
    requires Inv(s) && Grows(s.graph, t.graph) && p in s.graph.nodes && TakenAt(s, p)
    requires t.graph.nodes[p].result == s.graph.nodes[p].result && Waiting(t, p) == Waiting(s, p)
    requires Waiting(s, p) > 0 ==> t.phase.workers[p] == s.phase.workers[p]
    ensures TakenAt(t, p)
  {
    if s.graph.nodes[p].result.Some? {
      ResultIsSettled(s, p);
      hide Inv, AsksFor;
    }
  }

  /** The task's own record is taken. */
  lemma OwnTaken(env: Env, s: Sys, p: Id)
    requires Contract(env) && Inv(s) && Active(s, p) && s.phase.workers[p].Spawning? && TakenAt(s, p)
    ensures p in Next(env, s, Move(p)).graph.nodes && TakenAt(Next(env, s, Move(p)), p)
  {
    var t, w, n := Next(env, s, Move(p)), s.phase.workers[p], s.graph.nodes[p];
    SpawningHasResult(s, p);
    NextKeeps(env, s, Move(p));
    hide Next, Inv, Contract;
    if w.rest == [] {
      NothingTaken(env, s, p);
      TakenStays(s, t, p);
    } else {
      RecordTaken(env, s, p);
      hide AsRecorded, FollowupsOf, Untouched, TakenAt, Settled, AsksFor;
      OneTaken(s, t, p);
    }
  }

  lemma OneTaken(s: Sys, t: Sys, p: Id)
    requires Active(s, p) && s.phase.workers[p].Spawning? && s.phase.workers[p].rest != [] && TakenAt(s, p)
    requires s.graph.nodes[p].result.Some? && Grows(s.graph, t.graph) && Settled(s.graph.nodes[p])
    requires
      var w := s.phase.workers[p];
      && t.phase == InWave(s.phase.workers[p := Spawning(w.reply, w.rest[1..])])
      && exists asked :: AsksFor(s.graph.nodes[p], w.rest[0], asked) && asked in t.graph.nodes
    ensures p in t.graph.nodes && TakenAt(t, p)
  {
    var w, n := s.phase.workers[p], s.graph.nodes[p];
    var records := FollowupsOf(n.result.value);
    var k := |records| - |w.rest|;
    assert records[k] == w.rest[0] && records[k + 1..] == w.rest[1..];
    assert t.graph.nodes[p] == n;
    hide FollowupsOf, Settled;
    forall j, asked | 0 <= j < k + 1 && AsksFor(n, records[j], asked) ensures asked in t.graph.nodes {
      if j == k { assert AsksFor(n, w.rest[0], asked); }
    }
  }

  lemma SpawningHasResult(s: Sys, p: Id)
    requires Inv(s) && Active(s, p) && s.phase.workers[p].Spawning?
    ensures s.graph.nodes[p].result == Some(s.phase.workers[p].reply) && Settled(s.graph.nodes[p])
  {
    hide GraphOk, DepsDone, Upstream;
    assert NodeOk(s, p);
  }

  lemma NothingTaken(env: Env, s: Sys, p: Id)
    requires Active(s, p) && s.phase.workers[p].Spawning? && s.phase.workers[p].rest == []
    ensures Next(env, s, Move(p)).graph == s.graph && Waiting(Next(env, s, Move(p)), p) == 0
  {
    hide Begin, LoopHead, Answer;
  }

  /** A move that takes no record adds no task; and a task that has just been answered has all its records waiting. */
  lemma OtherMove(env: Env, s: Sys, p: Id)
    requires Contract(env) && Inv(s) && Active(s, p) && !s.phase.workers[p].Spawning? && TakenAt(s, p)
    ensures
      var t := Next(env, s, Move(p));
      t.graph.nodes.Keys == s.graph.nodes.Keys && p in t.graph.nodes && TakenAt(t, p)
  {
    hide GraphOk, DepsDone, Upstream, CandidatesAt, Invoke, AsksFor, FollowupsOf, FollowupTask;
    assert NodeOk(s, p);
  }

  /** The new task is the first record's to ask for its id. */
  lemma NewIsAsked(env: Env, s: Sys, p: Id, id: Id)
    requires Contract(env) && Inv(s) && Active(s, p) && TakenAt(s, p)
    requires id in Next(env, s, Move(p)).graph.nodes && id !in s.graph.nodes
    ensures Asked(env, Next(env, s, Move(p)).graph, id)
  {
    var t := Next(env, s, Move(p));
    if !s.phase.workers[p].Spawning? {
      OtherMove(env, s, p);
      assert false;
    } else if s.phase.workers[p].rest == [] {
      NothingTaken(env, s, p);
      assert false;
    } else {
      var w, n := s.phase.workers[p], s.graph.nodes[p];
      SpawningHasResult(s, p);
      RecordTaken(env, s, p);
      NextKeeps(env, s, Move(p));
      var records := FollowupsOf(n.result.value);
      var k: nat := |records| - |w.rest|;
      hide Next, Contract, FollowupsOf;
      assert records[k] == w.rest[0];
      assert t.graph.nodes[p] == n;
      NewHasItsId(t, id);
      hide Inv;
      assert FirstToAsk(env, n, records, k, id, t.graph.nodes[id].task);
      assert AskedBy(env, t.graph, p, k, id);
    }
  }

  lemma NewHasItsId(s: Sys, id: Id)
    requires Inv(s) && id in s.graph.nodes
    ensures s.graph.nodes[id].task.id == id
  {
    hide NodeOk;
  }

  lemma MoveAsked(env: Env, planned: set<Id>, s: Sys, mover: Id)
    requires Contract(env) && Inv(s) && AllAsked(env, planned, s)
    ensures AllAsked(env, planned, Next(env, s, Move(mover)))
  {
    var t := Next(env, s, Move(mover));
    NextKeeps(env, s, Move(mover));
    if Active(s, mover) {
      forall p | p in t.graph.nodes ensures TakenAt(t, p) {
        MoverTaken(env, planned, s, mover, p);
      }
      hide Inv, Contract, Next, TakenAt;
      forall id | id in t.graph.nodes && id !in planned ensures Asked(env, t.graph, id) {
        if id in s.graph.nodes { AskedStays(env, s, t.graph, id); } else { NewIsAsked(env, s, mover, id); }
      }
    } else {
      assert t == s;
    }
  }

  lemma MoverTaken(env: Env, planned: set<Id>, s: Sys, mover: Id, p: Id)
    requires Contract(env) && Inv(s) && AllAsked(env, planned, s) && Active(s, mover)
    requires p in Next(env, s, Move(mover)).graph.nodes
    ensures TakenAt(Next(env, s, Move(mover)), p)
  {
    var t := Next(env, s, Move(mover));
    NextKeeps(env, s, Move(mover));
    if p == mover {
      hide Asked;
      if s.phase.workers[p].Spawning? { OwnTaken(env, s, p); } else { OtherMove(env, s, p); }
    } else if p in s.graph.nodes {
      hide Asked, Inv, Contract;
      MoveIsLocal(env, s, mover, p);
      hide MoveTask;
      TakenStays(s, t, p);
    } else {
      NewIsUntouched(env, s, mover, p);
      hide *;
      TakenIfUntouched(t, p);
    }
  }

  lemma TakenIfUntouched(s: Sys, p: Id)
    requires p in s.graph.nodes && Untouched(s.graph.nodes[p])
    ensures TakenAt(s, p)
  {
  }

  lemma NewIsUntouched(env: Env, s: Sys, mover: Id, p: Id)
    requires Active(s, mover) && p in Next(env, s, Move(mover)).graph.nodes && p !in s.graph.nodes
    ensures Untouched(Next(env, s, Move(mover)).graph.nodes[p])
  {
    hide Upstream, CandidatesAt, Invoke, FollowupsOf, FollowupTask;
  }

  /** The main thread takes no record, and leaves a wave only when none is waiting. */
  lemma MainAsked(env: Env, planned: set<Id>, s: Sys)
    requires Contract(env) && Inv(s) && AllAsked(env, planned, s)
    ensures AllAsked(env, planned, Next(env, s, Advance))
  {
    var t := Next(env, s, Advance);
    NextKeeps(env, s, Advance);
    hide Contract;
    forall p | p in t.graph.nodes ensures p in s.graph.nodes && TakenAt(t, p) {
      MainTaken(env, s, p);
      hide Next, Inv, Asked;
      TakenStays(s, t, p);
    }
    hide Next, Inv, TakenAt;
    forall id | id in t.graph.nodes && id !in planned ensures Asked(env, t.graph, id) {
      AskedStays(env, s, t.graph, id);
    }
  }

  lemma MainTaken(env: Env, s: Sys, p: Id)
    requires Inv(s) && p in Next(env, s, Advance).graph.nodes
    ensures
      var t := Next(env, s, Advance);
      && p in s.graph.nodes && t.graph.nodes[p].result == s.graph.nodes[p].result
      && Waiting(t, p) == Waiting(s, p) && (Waiting(s, p) > 0 ==> t.phase == s.phase)
  {
    hide GraphOk, DepsDone, Upstream, GraphDone, NodeOk;
  }

  lemma OutsideAsked(env: Env, planned: set<Id>, s: Sys, e: Event)
    requires Inv(s) && AllAsked(env, planned, s) && (e.Cancel? || e.Tick?)
    ensures AllAsked(env, planned, Next(env, s, e))
  {
    hide Asked, Inv, FollowupsOf, AsksFor;
  }

  lemma {:induction false} RunAsked(env: Env, planned: set<Id>, s: Sys, events: seq<Event>)
    requires Contract(env) && Inv(s) && AllAsked(env, planned, s)
    ensures AllAsked(env, planned, Run(env, s, events)) && Inv(Run(env, s, events))
    decreases |events|
  {
    hide Inv, AllAsked, Next, Contract;
    if events != [] {
      var t := Next(env, s, events[0]);
      match events[0] {
        case Advance => MainAsked(env, planned, s);
        case Move(id) => MoveAsked(env, planned, s, id);
        case Cancel => OutsideAsked(env, planned, s, events[0]);
        case Tick(_) => OutsideAsked(env, planned, s, events[0]);
      }
      NextKeeps(env, s, events[0]);
      RunAsked(env, planned, t, events[1..]);
    }
  }

  // ----- every run -----

  /**
   * The graph grows by what the agents ask for and by nothing else, in every run. A task that was not planned is
   * recorded in the reply some task got, under its own id or one made from its parent's, and is what the first record
   * of that reply that names the id says. And a task that has a reply and has returned has every record's task in the
   * graph.
   */
  lemma RunAddsWhatIsAsked(env: Env, s: Sys, events: seq<Event>)
    requires Contract(env) && Planned(s.graph) && s.phase.Looping?
    ensures
      var t := Run(env, s, events);
      && (forall id :: id in t.graph.nodes && id !in s.graph.nodes ==> Asked(env, t.graph, id))
      && (forall p, j, asked ::
            (p in t.graph.nodes && t.graph.nodes[p].result.Some? && Waiting(t, p) == 0
             && 0 <= j < |FollowupsOf(t.graph.nodes[p].result.value)|
             && AsksFor(t.graph.nodes[p], FollowupsOf(t.graph.nodes[p].result.value)[j], asked))
            ==> asked in t.graph.nodes)
  {
    PlannedAsked(env, s);
    hide Planned, Inv;
    RunAsked(env, s.graph.nodes.Keys, s, events);
    hide Run, Asked, AsksFor, FollowupsOf, Waiting;
  }

  lemma PlannedAsked(env: Env, s: Sys)
    requires Planned(s.graph) && s.phase.Looping?
    ensures Inv(s) && AllAsked(env, s.graph.nodes.Keys, s)
  {
    hide GraphOk, DepsDone, Upstream;
  }
}
