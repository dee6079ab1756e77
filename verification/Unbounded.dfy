/** A mission that never ends: its agent answers every task with one more follow-up, and the clock stands still. */
module Unbounded {
  import opened Options
  import opened Tasks
  import opened Registry
  import opened Attempts
  import opened Protocol
  import opened Safety
  import opened Lists
  import opened Counting
  import opened Outcomes
  import opened Prediction
  import opened Progress
  import opened Confluence
  import opened Interleavings
  import opened Termination
  import opened Missions

  /** A follow-up without a name of its own. */
  function OneMore(): Followup { Followup("", None, "", None, None, "", "scout", [], None) }

  function Onwards(): Reply { Reply(Completed, "", [OneMore()], []) }

  /** One agent, which keeps the reply contract. */
  function Scout(): Env {
    Env((agent: Name, task: Task, up: map<Id, Reply>, k: nat) => Call(0, Replied(Onwards())),
        [], (k: nat, name: Name) => 0, RoundRobin, 0, 15000, 1)
  }

  /** A task for the scout. */
  predicate ForScout(task: Task) {
    task.preferred == "scout" && task.capability == "" && task.dependsOn == [] && task.maxRetries == 1
      && task.deadlineMs == 15000
  }

  /** At a loop head, one task is fresh, and has the longest id of all; the others are settled. */
  ghost predicate Frontier(s: Sys, x: Id) {
    && Inv(s) && s.phase.Looping? && !s.cancelled && s.clock <= s.deadline && x in s.graph.nodes
    && Fresh(s.graph.nodes[x]) && ForScout(s.graph.nodes[x].task)
    && forall id :: id in s.graph.nodes && id != x ==> Settled(s.graph.nodes[id]) && |id| < |x|
  }

  lemma ScoutAlone(task: Task)
    requires ForScout(task)
    ensures AlwaysDraws(Scout(), task, ["scout"])
  {
    ScoutOnly();
    hide Distinct, Select;
    forall rr, k ensures CandidatesAt(Scout(), rr, k, task).0 == ["scout"] {
      assert ["scout"] + FallbacksOf([], "scout") == ["scout"];
    }
  }

  lemma ScoutOnly()
    ensures FallbacksOf([], "scout") == [] && Distinct(["scout"]) == ["scout"]
  {
    assert Distinct(["scout"][..0]) == [];
  }

  lemma OnlyReady(s: Sys, x: Id)
    requires Frontier(s, x)
    ensures ReadyIds(s.graph) == {x} && StartsWave(s) && s.graph.nodes[x].task.id == x
  {
    assert s.graph.nodes[x].status.Pending?;
  }

  /** The frontier's task, tried and answered. */
  function Scouted(task: Task): Node {
    Answered(Attempted(FreshNode(task).(status := Running), "scout"), Onwards())
  }

  lemma ScoutedAt(s: Sys, x: Id, lists: map<Id, seq<Name>>)
    requires Frontier(s, x) && lists == map[x := ["scout"]]
    ensures Active(StartWave(s), x) && PredictedAt(Scout(), lists, StartWave(s), x) == Scouted(s.graph.nodes[x].task)
  {
    var task := s.graph.nodes[x].task;
    OnlyReady(s, x);
    hide Inv, IsReady, Upstream;
    PredictedAtStart(Scout(), lists, s, x);
    var up := Upstream(s.graph, task);
    assert Invoke(Scout(), "scout", task, up, 1) == Call(0, Replied(Onwards()));
  }

  function Child(x: Id): Id { x + "-f" + Digits(1) }

  lemma ChildNamed(task: Task, id: Id)
    ensures Emits(Scouted(task)) == [OneMore()]
    ensures Named(Scout(), Scouted(task), [OneMore()], id)
            == if id == Child(task.id) then Some(FollowupTask(Scout(), Scouted(task), OneMore())) else None
    ensures ForScout(FollowupTask(Scout(), Scouted(task), OneMore()))
  {
    assert FollowupId(Scouted(task), OneMore()) == Child(task.id);
  }

  /** The wave is the frontier's task alone. */
  lemma FrontierWave(s: Sys, x: Id)
    requires Frontier(s, x)
    ensures
      var s0 := StartWave(s);
      && Active(s0, x) && s0.graph.nodes.Keys == s.graph.nodes.Keys && (forall w :: Active(s0, w) ==> w == x)
      && forall id :: id in s.graph.nodes && id != x ==> s0.graph.nodes[id] == s.graph.nodes[id]
  {
    OnlyReady(s, x);
    hide Inv, IsReady, StartsWave;
  }

  /** When it is over, the task is answered, and has added its follow-up. */
  lemma ScoutEnds(s: Sys, x: Id, t: Sys, lists: map<Id, seq<Name>>)
    requires Frontier(s, x) && lists == map[x := ["scout"]]
    requires WaveInv(Scout(), lists, StartWave(s), t) && AllReturned(t.phase.workers)
    ensures Active(StartWave(s), x) && Active(t, x) && t.graph.nodes[x] == Scouted(s.graph.nodes[x].task)
    ensures forall id :: AddedAt(Scout(), t, x, id) <==> id == Child(x)
  {
    var env, s0, task := Scout(), StartWave(s), s.graph.nodes[x].task;
    OnlyReady(s, x);
    ScoutedAt(s, x, lists);
    AllAreReturned(env, lists, s0, t, x);
    ReturnedEnd(env, lists, s0, t, x);
    hide *;
    forall id ensures AddedAt(env, t, x, id) <==> id == Child(x) { ChildNamed(task, id); }
  }

  /** What the wave adds is that follow-up. */
  lemma OnlyChild(s: Sys, x: Id, t: Sys, lists: map<Id, seq<Name>>, id: Id)
    requires Frontier(s, x) && lists == map[x := ["scout"]]
    requires WaveInv(Scout(), lists, StartWave(s), t) && AllReturned(t.phase.workers) && id in t.graph.nodes
    ensures id in s.graph.nodes || id == Child(x)
  {
    var env, s0 := Scout(), StartWave(s);
    FrontierWave(s, x);
    ScoutEnds(s, x, t, lists);
    hide Inv, AddedAt, StartWave, Child, OnTrack, OldNodesKept, Scouted, Frontier, AllReturned, Fresh;
    if id !in s0.graph.nodes {
      var w :| Active(s0, w) && Active(t, w) && AddedAt(env, t, w, id);
      assert AddedAt(env, t, x, id);
    }
  }

  lemma FrontierNodes(s: Sys, x: Id, t: Sys, lists: map<Id, seq<Name>>)
    requires Frontier(s, x) && lists == map[x := ["scout"]]
    requires WaveInv(Scout(), lists, StartWave(s), t) && AllReturned(t.phase.workers)
    ensures Child(x) in t.graph.nodes && Fresh(t.graph.nodes[Child(x)]) && ForScout(t.graph.nodes[Child(x)].task)
  {
    var env, task := Scout(), s.graph.nodes[x].task;
    OnlyReady(s, x);
    FrontierWave(s, x);
    ScoutEnds(s, x, t, lists);
    ChildNamed(task, Child(x));
    NewId(s, x);
    hide Inv, StartWave, Named, Emits, Frontier, AddedAt, Child, Fresh, ForScout, Scouted, OnTrack, OldNodesKept,
      AllReturned;
    assert AddedAt(env, t, x, Child(x));
  }

  lemma NewId(s: Sys, x: Id)
    requires Frontier(s, x)
    ensures Child(x) !in s.graph.nodes && |x| < |Child(x)|
  {
    hide Inv;
  }

  lemma FrontierOthers(s: Sys, x: Id, t: Sys, lists: map<Id, seq<Name>>, id: Id)
    requires Frontier(s, x) && lists == map[x := ["scout"]]
    requires WaveInv(Scout(), lists, StartWave(s), t) && AllReturned(t.phase.workers) && id in s.graph.nodes
    ensures id in t.graph.nodes && Settled(t.graph.nodes[id]) && |id| < |Child(x)|
  {
    FrontierWave(s, x);
    NewId(s, x);
    if id == x {
      ScoutEnds(s, x, t, lists);
      ScoutedSettled(s.graph.nodes[x].task);
      hide *;
    } else {
      hide Inv, StartWave, Child, NewNodesFrom, OnTrack, AllReturned, Settled, Fresh, ForScout;
    }
  }

  lemma ScoutedSettled(task: Task)
    ensures Settled(Scouted(task))
  {
  }

  /** After the wave the frontier's follow-up is the frontier. */
  lemma NewFrontier(s: Sys, x: Id, t: Sys, lists: map<Id, seq<Name>>)
    requires Frontier(s, x) && lists == map[x := ["scout"]]
    requires WaveInv(Scout(), lists, StartWave(s), t) && Inv(t) && AllReturned(t.phase.workers)
    requires !t.cancelled && t.clock == s.clock && t.deadline == s.deadline
    ensures Frontier(t.(phase := Looping), Child(x))
  {
    var u := t.(phase := Looping);
    LeavesWave(s, x, t, lists, u);
    hide *;
    forall id | id in u.graph.nodes && id != Child(x) ensures Settled(u.graph.nodes[id]) && |id| < |Child(x)| {
      OnlyChild(s, x, t, lists, id);
      FrontierOthers(s, x, t, lists, id);
    }
    FrontierNodes(s, x, t, lists);
    AtFrontier(u, Child(x));
  }

  lemma LeavesWave(s: Sys, x: Id, t: Sys, lists: map<Id, seq<Name>>, u: Sys)
    requires Frontier(s, x) && WaveInv(Scout(), lists, StartWave(s), t) && Inv(t) && AllReturned(t.phase.workers)
    requires t.clock == s.clock && t.deadline == s.deadline && u == t.(phase := Looping)
    ensures Inv(u) && u.clock <= u.deadline
  {
    assert t.phase.InWave?;
    hide Inv, StartWave, OldNodesKept, NewNodesFrom, AllReturned, Settled, Fresh, ForScout, Scout;
    PhaseKeeps(t, u);
  }

  lemma AtFrontier(u: Sys, y: Id)
    requires Inv(u) && u.phase.Looping? && !u.cancelled && u.clock <= u.deadline && y in u.graph.nodes
    requires Fresh(u.graph.nodes[y]) && ForScout(u.graph.nodes[y].task)
    requires forall id :: id in u.graph.nodes && id != y ==> Settled(u.graph.nodes[id]) && |id| < |y|
    ensures Frontier(u, y)
  {
    hide Inv;
  }

  lemma {:induction false} MovesKeepTime(env: Env, s: Sys, events: seq<Event>)
    requires OnlyMoves(events)
    ensures
      var t := Run(env, s, events);
      t.clock == s.clock && t.deadline == s.deadline && t.waves == s.waves && t.cancelled == s.cancelled
    decreases |events|
  {
    if events != [] {
      assert events[0].Move?;
      OneMoveKeepsTime(env, s, events[0].id);
      hide MoveTask;
      MovesKeepTime(env, Next(env, s, events[0]), events[1..]);
    }
  }

  lemma OneMoveKeepsTime(env: Env, s: Sys, id: Id)
    ensures
      var t := MoveTask(env, s, id);
      t.clock == s.clock && t.deadline == s.deadline && t.waves == s.waves && t.cancelled == s.cancelled
  {
    hide CandidatesAt, Upstream, Invoke, FollowupTask, FollowupsOf;
  }

  /** One wave on, the clock where it was. */
  lemma OneWaveOn(s: Sys, x: Id) returns (events: seq<Event>)
    requires Frontier(s, x)
    ensures
      var t := Run(Scout(), s, events);
      Frontier(t, Child(x)) && t.waves == s.waves + 1 && t.clock == s.clock
  {
    var env, s0, lists := Scout(), StartWave(s), map[x := ["scout"]];
    FrontierStarts(s, x);
    ScoutKeepsContract();
    hide *;
    var moves := WaveCanEnd(env, s0);
    var t := Run(env, s0, moves);
    MovesKeepTime(env, s0, moves);
    FixedAllDraw(env, lists, s);
    DrawsInWave(env, lists, s0, moves);
    UnnamedAgree(env, lists, s);
    WaveEndsOnTrack(env, lists, s, moves);
    NewFrontier(s, x, t, lists);
    events := WaveEventsOf(s, moves);
  }

  lemma FrontierStarts(s: Sys, x: Id)
    requires Frontier(s, x)
    ensures Inv(s) && s.phase.Looping? && !s.cancelled && MainStep(s) == StartWave(s) && Inv(StartWave(s))
    ensures Fixed(Scout(), map[x := ["scout"]], s.graph, ReadyIds(s.graph))
    ensures
      var s0 := StartWave(s);
      s0.phase.InWave? && !s0.cancelled && s0.clock == s.clock && s0.deadline == s.deadline && s0.waves == s.waves + 1
  {
    OnlyReady(s, x);
    FrontierForScout(s, x);
    hide Scout, Settled, Fresh, ForScout, IsReady, GraphDone, Grows, Boundary, ReadyIds, MarkRunning;
    Between(s);
    StartKeeps(s);
    hide Inv;
  }

  lemma FrontierForScout(s: Sys, x: Id)
    requires Frontier(s, x)
    ensures Fixed(Scout(), map[x := ["scout"]], s.graph, ReadyIds(s.graph))
  {
    OnlyReady(s, x);
    ScoutAlone(s.graph.nodes[x].task);
    hide AlwaysDraws, Inv, IsReady;
  }

  lemma DrawsInWave(env: Env, lists: map<Id, seq<Name>>, s0: Sys, moves: seq<Event>)
    requires OnlyMoves(moves) && AllDraw(env, lists, s0)
    ensures WaveEvents(moves) && AsDrawn(env, lists, s0, moves)
  {
    hide AsDrawn;
    assert WaveEvents(moves);
  }

  lemma ScoutKeepsContract()
    ensures Contract(Scout()) && NeverNames(Scout())
  {
  }

  lemma WaveEventsOf(s: Sys, moves: seq<Event>) returns (events: seq<Event>)
    requires MainStep(s) == StartWave(s) && WaveOver(Run(Scout(), StartWave(s), moves))
    ensures Run(Scout(), s, events) == Run(Scout(), StartWave(s), moves).(phase := Looping)
  {
    var env, t := Scout(), Run(Scout(), StartWave(s), moves);
    events := [Advance] + (moves + [Advance]);
    assert events[1..] == moves + [Advance];
    RunAppend(env, StartWave(s), moves, [Advance]);
    assert Run(env, t, [Advance]) == Run(env, Next(env, t, Advance), []) == Next(env, t, Advance);
  }

  function Survey(): Task { Task("survey", "survey", "", 15000, 5, "", "scout", [], 1) }

  /** A mission of one task for the scout. */
  function Before(timeoutMs: nat): Sys {
    Start(Graph(map["survey" := FreshNode(Survey())], ["survey"]), Counters(0, 0, 0), map[], false, 0, timeoutMs)
  }

  lemma {:induction false} WavesOn(timeoutMs: nat, n: nat) returns (events: seq<Event>, x: Id)
    ensures
      var t := Run(Scout(), Before(timeoutMs), events);
      Frontier(t, x) && t.waves == n && t.clock == 0
  {
    if n == 0 {
      events, x := [], "survey";
      BeforeIsFrontier(timeoutMs);
    } else {
      hide Run, Before, Scout, Frontier, Child;
      var first, y := WavesOn(timeoutMs, n - 1);
      var rest := OneWaveOn(Run(Scout(), Before(timeoutMs), first), y);
      events, x := first + rest, Child(y);
      RunAppend(Scout(), Before(timeoutMs), first, rest);
    }
  }

  lemma BeforeIsFrontier(timeoutMs: nat)
    ensures Planned(Before(timeoutMs).graph) && Frontier(Before(timeoutMs), "survey") && Before(timeoutMs).waves == 0
            && Before(timeoutMs).clock == 0
  {
    PlannedIsStartable(Before(timeoutMs));
    BoundaryStart(Before(timeoutMs));
  }

  /**
   * Neither the reply contract nor any timeout bounds the waves, if the clock stands: for every n there is a run of n
   * waves of a mission of one task.
   */
  lemma FollowupsNeverEnd(timeoutMs: nat, n: nat)
    ensures Contract(Scout()) && Planned(Before(timeoutMs).graph) && Before(timeoutMs).phase.Looping?
    ensures exists events ::
            Run(Scout(), Before(timeoutMs), events).waves == n && Run(Scout(), Before(timeoutMs), events).clock == 0
  {
    ScoutKeepsContract();
    BeforeIsFrontier(timeoutMs);
    hide Run, Before, Scout, Contract, Planned, Frontier;
    var events, x := WavesOn(timeoutMs, n);
    assert Run(Scout(), Before(timeoutMs), events).waves == n && Run(Scout(), Before(timeoutMs), events).clock == 0;
  }

  // ----- one follow-up only -----

  function OnceAnswers(agent: Name, task: Task): Outcome {
    if agent != "scout" then Unavailable
    else if task == Survey() then Replied(Onwards())
    else Replied(Reply(Completed, "", [], []))
  }

  /** The same agent, asking for a follow-up of the mission's task only; no other name is registered. */
  function OnceOnly(): Env {
    Env((agent: Name, task: Task, up: map<Id, Reply>, k: nat) => Call(0, OnceAnswers(agent, task)),
        [], (k: nat, name: Name) => 0, RoundRobin, 0, 15000, 1)
  }

  /** The survey after so many attempts. */
  function Surveyed(k: nat): Node { FreshNode(Survey()).(attempts := k) }

  function Follower(k: nat): Task { FollowupTask(OnceOnly(), Surveyed(k), OneMore()) }

  /** The survey, and what either of its two attempts may ask for. */
  function Surveys(): Family {
    Family(iset{Survey(), Follower(1), Follower(2)}, {"survey", Follower(1).id, Follower(2).id})
  }

  lemma OnlyScout(list: seq<Name>)
    requires Drawable(OnceOnly(), Survey(), list)
    ensures list == ["scout"]
  {
    var env := OnceOnly();
    ScoutOnly();
    hide Distinct, Select;
    forall rr, k ensures CandidatesAt(env, rr, k, Survey()).0 == ["scout"] {
      assert ["scout"] + FallbacksOf([], "scout") == ["scout"];
    }
  }

  lemma TwoTries(agent: Name, k: nat)
    requires CanTry(OnceOnly(), Survey(), agent, k)
    ensures k == 1 || k == 2
  {
    var list :| Drawable(OnceOnly(), Survey(), list) && agent in list && 1 <= k <= |list| * Rounds(Survey());
    OnlyScout(list);
  }

  lemma OnceClosed()
    ensures Closed(OnceOnly(), Surveys()) && Finite(Surveys())
  {
    var env, u := OnceOnly(), Surveys();
    forall n: Node, agent, up, f | n.task in u.tasks && CanTry(env, n.task, agent, n.attempts)
                                   && AsksFor(env, agent, n.task, up, n.attempts, f)
      ensures FollowupTask(env, n, f) in u.tasks
    {
      OnlySurveyAsks(n.task, agent, up, n.attempts, f);
      TwoTries(agent, n.attempts);
      assert FollowupTask(env, n, f) == Follower(n.attempts);
    }
  }

  lemma OnlySurveyAsks(task: Task, agent: Name, up: map<Id, Reply>, k: nat, f: Followup)
    requires AsksFor(OnceOnly(), agent, task, up, k, f)
    ensures task == Survey() && f == OneMore()
  {
  }

  /**
   * The executor's own naming is no obstacle: the agent leaves naming to it, and every run makes at most three waves.
   */
  lemma OneFollowupEnds(timeoutMs: nat, events: seq<Event>)
    ensures Contract(OnceOnly()) && NeverNames(OnceOnly()) && Planned(Before(timeoutMs).graph)
    ensures Closed(OnceOnly(), Surveys()) && Finite(Surveys()) && TasksIn(Surveys(), Before(timeoutMs).graph)
    ensures Run(OnceOnly(), Before(timeoutMs), events).waves <= 3
  {
    OnceClosed();
    OnceKeepsContract();
    BeforeStarts(timeoutMs);
    ThreeNames();
    hide *;
    FinitelyManyWaves(OnceOnly(), Surveys(), Before(timeoutMs), events);
  }

  lemma OnceKeepsContract()
    ensures Contract(OnceOnly()) && NeverNames(OnceOnly())
  {
    assert forall agent, task, up, k :: OnceOnly().call(agent, task, up, k).outcome == OnceAnswers(agent, task);
  }

  lemma BeforeStarts(timeoutMs: nat)
    ensures Planned(Before(timeoutMs).graph) && Boundary(Before(timeoutMs).graph) && Before(timeoutMs).phase.Looping?
    ensures TasksIn(Surveys(), Before(timeoutMs).graph)
    ensures Before(timeoutMs).waves == 0 && |Used(Before(timeoutMs).graph)| >= 0
  {
    BeforeIsFrontier(timeoutMs);
    PlannedIsStartable(Before(timeoutMs));
    hide Frontier;
  }

  lemma ThreeNames()
    ensures |Surveys().names| <= 3
  {
    AtMostThree("survey", Follower(1).id, Follower(2).id);
  }

  lemma AtMostThree(a: Id, b: Id, c: Id)
    ensures |{a, b, c}| <= 3
  {
    assert {a, b, c} == {a} + {b} + {c};
    assert |{a} + {b} + {c}| <= |{a} + {b}| + |{c}| <= |{a}| + |{b}| + |{c}|;
  }
}
