/** The candidate lists a run draws: one for each task that begins, with the counters and loads of that moment. */
module Lists {
  import opened Tasks
  import opened Registry
  import opened Attempts
  import opened Protocol
  import opened Safety
  import opened Counting

  /** The list a task drew; empty if it drew none. */
  function ListOf(lists: map<Id, seq<Name>>, id: Id): seq<Name> {
    if id in lists then lists[id] else []
  }

  /** The event takes a task of the wave from its submission into its loop. */
  predicate Begins(s: Sys, e: Event) {
    e.Move? && Active(s, e.id) && s.phase.workers[e.id].Submitted?
  }

  function DrawnBy(env: Env, s: Sys, id: Id): seq<Name>
    requires Active(s, id)
  {
    CandidatesAt(env, s.rr, s.counters.scheduled, s.graph.nodes[id].task).0
  }

  /** If the event begins a task, then with the list that `lists` has for it. */
  predicate Draws(env: Env, lists: map<Id, seq<Name>>, s: Sys, e: Event) {
    Begins(s, e) ==> e.id in lists && lists[e.id] == DrawnBy(env, s, e.id)
  }

  /** Every task that begins in the run draws its list of `lists`. */
  predicate AsDrawn(env: Env, lists: map<Id, seq<Name>>, s: Sys, events: seq<Event>)
    decreases |events|
  {
    events == [] || (Draws(env, lists, s, events[0]) && AsDrawn(env, lists, Next(env, s, events[0]), events[1..]))
  }

  /** The lists a run draws. */
  function Drawn(env: Env, s: Sys, events: seq<Event>): map<Id, seq<Name>>
    decreases |events|
  {
    if events == [] then map[]
    else
      var later := Drawn(env, Next(env, s, events[0]), events[1..]);
      if Begins(s, events[0]) then later[events[0].id := DrawnBy(env, s, events[0].id)] else later
  }

  // ----- a task begins once -----

  lemma MoverBegun(env: Env, s: Sys, mover: Id)
    requires Contract(env) && Inv(s) && Active(s, mover)
    ensures mover in MoveTask(env, s, mover).graph.nodes && HasBegun(MoveTask(env, s, mover), mover)
  {
    hide Upstream, DepsDone, CandidatesAt, Invoke, FollowupsOf, FollowupTask, GraphOk;
    assert NodeOk(s, mover);
  }

  /** Whatever has begun stays so, in and after its wave. */
  lemma BegunStays(env: Env, s: Sys, e: Event, id: Id)
    requires Contract(env) && Inv(s) && id in s.graph.nodes && HasBegun(s, id)
    ensures id in Next(env, s, e).graph.nodes && HasBegun(Next(env, s, e), id)
  {
    hide Upstream, DepsDone, GraphOk, CandidatesAt, GraphDone;
    assert NodeOk(s, id);
    match e
    case Move(mover) =>
      if !Active(s, mover) {
      } else if mover == id {
        MoverBegun(env, s, id);
      } else {
        MoveIsLocal(env, s, mover, id);
        hide MoveTask;
      }
    case Advance =>
      NextKeeps(env, s, e);
    case Cancel =>
    case Tick(_) =>
  }

  /** A task's move leaves every other node and every other task's place alone. */
  lemma MoveIsLocal(env: Env, s: Sys, mover: Id, id: Id)
    requires id != mover && id in s.graph.nodes
    ensures
      var t := MoveTask(env, s, mover);
      && id in t.graph.nodes && t.graph.nodes[id] == s.graph.nodes[id]
      && (s.phase.InWave? ==> t.phase.InWave? && (id in s.phase.workers <==> id in t.phase.workers))
      && (!s.phase.InWave? ==> !t.phase.InWave?)
      && (s.phase.InWave? && id in s.phase.workers ==> t.phase.workers[id] == s.phase.workers[id])
  {
    hide Upstream, CandidatesAt, Invoke, FollowupsOf, FollowupTask;
    if Active(s, mover) {
      match s.phase.workers[mover]
      case Submitted => hide LoopHead, Answer, Spawn;
      case AtLoop(_, _, _, _) => hide Begin, Answer, Spawn;
      case Checked(_, _, _, _) => hide Begin, LoopHead, Answer, Spawn;
      case Calling(_, _, _, _) => hide Begin, LoopHead, Spawn;
      case Spawning(_, _) => hide Begin, LoopHead, Answer;
      case Returned =>
    }
  }

  /** So a list for a task that has begun does not matter any more. */
  lemma {:induction false} ListDoesNotMatter(env: Env, lists: map<Id, seq<Name>>, s: Sys, events: seq<Event>, id: Id,
                                             list: seq<Name>)
    requires Contract(env) && Inv(s) && id in s.graph.nodes && HasBegun(s, id) && AsDrawn(env, lists, s, events)
    ensures AsDrawn(env, lists[id := list], s, events)
    decreases |events|
  {
    if events != [] {
      hide Next, Contract, DrawnBy;
      NotSubmitted(s, id);
      BegunStays(env, s, events[0], id);
      NextKeeps(env, s, events[0]);
      hide Inv, HasBegun;
      ListDoesNotMatter(env, lists, Next(env, s, events[0]), events[1..], id, list);
    }
  }

  lemma NotSubmitted(s: Sys, id: Id)
    requires Inv(s) && id in s.graph.nodes && HasBegun(s, id)
    ensures Active(s, id) ==> !s.phase.workers[id].Submitted?
  {
    hide GraphOk, DepsDone, Upstream;
    assert NodeOk(s, id);
  }

  /** The lists a run draws are those its tasks begin with. */
  lemma {:induction false} DrawnAsDrawn(env: Env, s: Sys, events: seq<Event>)
    requires Contract(env) && Inv(s)
    ensures AsDrawn(env, Drawn(env, s, events), s, events)
    decreases |events|
  {
    if events != [] {
      var e, t := events[0], Next(env, s, events[0]);
      NextKeeps(env, s, e);
      if Begins(s, e) { MoverBegun(env, s, e.id); }
      assert Begins(s, e) ==> t == MoveTask(env, s, e.id);
      hide Inv, Next, MoveTask, HasBegun, DrawnBy;
      DrawnAsDrawn(env, t, events[1..]);
      if Begins(s, e) {
        ListDoesNotMatter(env, Drawn(env, t, events[1..]), t, events[1..], e.id, DrawnBy(env, s, e.id));
      }
    }
  }

  /** A list that some counters and loads give the task. */
  ghost predicate Drawable(env: Env, task: Task, list: seq<Name>) {
    exists rr, k :: list == CandidatesAt(env, rr, k, task).0
  }

  lemma {:induction false} RunBegun(env: Env, s: Sys, events: seq<Event>, id: Id)
    requires Contract(env) && Inv(s) && id in s.graph.nodes && HasBegun(s, id)
    ensures id in Run(env, s, events).graph.nodes && HasBegun(Run(env, s, events), id)
    decreases |events|
  {
    if events != [] {
      BegunStays(env, s, events[0], id);
      NextKeeps(env, s, events[0]);
      hide Inv, Next, HasBegun, Contract;
      RunBegun(env, Next(env, s, events[0]), events[1..], id);
    }
  }

  /** Each list was drawn by a task of the graph that has begun, and is what the selection then said. */
  lemma {:induction false} DrawnAreDrawable(env: Env, s: Sys, events: seq<Event>, id: Id)
    requires Contract(env) && Inv(s) && id in Drawn(env, s, events)
    ensures
      var t, lists := Run(env, s, events), Drawn(env, s, events);
      id in t.graph.nodes && HasBegun(t, id) && Drawable(env, t.graph.nodes[id].task, lists[id])
    decreases |events|
  {
    var e, t := events[0], Next(env, s, events[0]);
    NextKeeps(env, s, e);
    RunKeeps(env, t, events[1..]);
    if Begins(s, e) && e.id == id {
      MoverBegun(env, s, id);
      hide Inv, Next, CandidatesAt, HasBegun;
      RunBegun(env, t, events[1..], id);
      assert Drawable(env, s.graph.nodes[id].task, DrawnBy(env, s, id));
    } else {
      hide Inv, Next, CandidatesAt, HasBegun;
      DrawnAreDrawable(env, t, events[1..], id);
    }
  }

  // ----- lists known beforehand -----

  /** These tasks draw the same lists whatever the counters and loads. */
  ghost predicate Fixed(env: Env, lists: map<Id, seq<Name>>, g: Graph, ids: set<Id>) {
    forall id :: id in ids ==> id in g.nodes && id in lists && AlwaysDraws(env, g.nodes[id].task, lists[id])
  }

  ghost predicate AlwaysDraws(env: Env, task: Task, list: seq<Name>) {
    forall rr, k :: CandidatesAt(env, rr, k, task).0 == list
  }

  lemma FixedDraws(env: Env, lists: map<Id, seq<Name>>, g: Graph, ids: set<Id>, s: Sys, id: Id)
    requires Grows(g, s.graph) && Active(s, id) && Fixed(env, lists, g, ids) && id in ids
    ensures id in lists && lists[id] == DrawnBy(env, s, id)
  {
    hide CandidatesAt;
    assert s.graph.nodes[id].task == g.nodes[id].task;
  }

  /** A task that names its agent draws the same list under every policy. */
  lemma PreferredIsFixed(env: Env, task: Task)
    requires task.preferred != ""
    ensures AlwaysDraws(env, task, CandidatesAt(env, map[], 0, task).0)
  {
  }

  /** So does a task whose capability one agent offers. */
  lemma SoleAgentIsFixed(env: Env, task: Task)
    requires |ForCapability(env.manifests, task.capability)| <= 1
    ensures AlwaysDraws(env, task, CandidatesAt(env, map[], 0, task).0)
  {
    forall rr, k ensures CandidatesAt(env, rr, k, task).0 == CandidatesAt(env, map[], 0, task).0 {
      var cs := ForCapability(env.manifests, task.capability);
      hide ForCapability;
      if cs != [] && env.policy.RoundRobin? {
        OnlyPlace(Count(rr, task.capability));
        OnlyPlace(Count(map[], task.capability));
      }
    }
  }

  lemma OnlyPlace(c: nat)
    ensures c % 1 == 0
  {
  }

  /** So does every task, under a policy that reads neither counters nor loads. */
  lemma StaticPolicyIsFixed(env: Env, task: Task)
    requires env.policy.LatencyOptimized? || env.policy.HighestPriority? || env.policy.UnknownPolicy?
    ensures AlwaysDraws(env, task, CandidatesAt(env, map[], 0, task).0)
  {
  }
}
