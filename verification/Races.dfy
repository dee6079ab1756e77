/** Two missions of two tasks whose outcome depends on which task comes first. */
module Races {
  import opened Options
  import opened Tasks
  import opened Registry
  import opened Attempts
  import opened Protocol
  import opened Safety
  import opened Lists
  import opened Counting
  import opened Outcomes
  import opened Prediction
  import opened Confluence
  import opened Interleavings
  import opened Rotation
  import opened TurnFates

  function Errand(id: Id, capability: string, preferred: Name): Task {
    Task(id, id, "", 15000, 5, capability, preferred, [], 0)
  }

  /** A mission of two tasks that depend on nothing. */
  function Mission(one: Task, two: Task): Sys {
    Start(Graph(map[one.id := FreshNode(one), two.id := FreshNode(two)], [one.id, two.id]), Counters(0, 0, 0), map[],
          false, 0, 120000)
  }

  lemma MissionStarts(one: Task, two: Task)
    requires one.id != two.id && one.dependsOn == [] && two.dependsOn == []
    ensures Planned(Mission(one, two).graph) && Inv(Mission(one, two))
            && ReadyIds(Mission(one, two).graph) == {one.id, two.id}
  {
    var s := Mission(one, two);
    assert ReadyIds(s.graph) == {one.id, two.id};
    PlannedIsStartable(s);
    BoundaryStart(s);
  }

  // ----- one id for two follow-ups -----

  /** The follow-up that a task gets: always under the same id, and of the task's own kind. */
  function Next(task: Task): Followup {
    Followup("next", Some(task.id), "", None, None, "", "clerk", [], None)
  }

  function Answer(task: Task): Reply { Reply(Completed, "", [Next(task)], []) }

  /** One agent, which answers every task with a follow-up. */
  function Clerk(): Env {
    Env((agent: Name, task: Task, up: map<Id, Reply>, k: nat) => Call(0, Replied(Answer(task))),
        [], (k: nat, name: Name) => 0, RoundRobin, 0, 15000, 1)
  }

  function Letters(): Sys { Mission(Errand("a", "", "clerk"), Errand("b", "", "clerk")) }

  const TO_CLERK: map<Id, seq<Name>> := map["a" := ["clerk"], "b" := ["clerk"]]

  lemma ClerkAlone(id: Id)
    ensures AlwaysDraws(Clerk(), Errand(id, "", "clerk"), ["clerk"])
  {
    assert FallbacksOf([], "clerk") == [];
    assert Distinct(["clerk"][..0]) == [];
    assert Distinct(["clerk"]) == ["clerk"];
  }

  lemma ClerkNames(id: Id)
    requires id == "a" || id == "b"
    ensures Active(StartWave(Letters()), id)
    ensures
      var n := NamedAt(Clerk(), TO_CLERK, StartWave(Letters()), id, "next");
      n.Some? && n.value.kind == id
  {
    var s := Letters();
    MissionStarts(Errand("a", "", "clerk"), Errand("b", "", "clerk"));
    var task := Errand(id, "", "clerk");
    var n := Answered(Attempted(FreshNode(task).(status := Running), "clerk"), Answer(task));
    hide IsReady, Inv, Planned, Upstream;
    assert StartWave(s).graph.nodes[id] == FreshNode(task).(status := Running);
    assert PredictedAt(Clerk(), TO_CLERK, StartWave(s), id) == n;
    assert Emits(n) == [Next(task)];
  }

  lemma ClerkKeepsContract()
    ensures Contract(Clerk()) && "next" !in StartWave(Letters()).graph.nodes
    ensures Letters().graph.nodes.Keys == {"a", "b"}
    ensures Letters().graph.nodes["a"].task == Errand("a", "", "clerk")
    ensures Letters().graph.nodes["b"].task == Errand("b", "", "clerk")
    ensures Letters().phase.Looping? && !Letters().cancelled
  {
    hide IsReady;
  }

  lemma LettersFixed()
    ensures Inv(Letters()) && Planned(Letters().graph)
    ensures Fixed(Clerk(), TO_CLERK, Letters().graph, ReadyIds(Letters().graph))
  {
    MissionStarts(Errand("a", "", "clerk"), Errand("b", "", "clerk"));
    ClerkAlone("a");
    ClerkAlone("b");
    ClerkKeepsContract();
    hide AlwaysDraws, IsReady, Clerk, Inv, Planned;
  }

  /** Two tasks that ask for different follow-ups under one id: the first to come decides which there is. */
  lemma SharedIdDiverges()
    ensures Contract(Clerk()) && Planned(Letters().graph) && Letters().phase.Looping? && !Letters().cancelled
    ensures AllDraw(Clerk(), TO_CLERK, StartWave(Letters()))
    ensures !SameEnds(Clerk(), StartWave(Letters()))
  {
    LettersFixed();
    ClerkNames("a");
    ClerkNames("b");
    ClerkKeepsContract();
    hide Contract, Inv, Planned, StartWave, ReadyIds, NamedAt, SameEnds, AllDraw, Clerk, Letters, Fixed;
    FixedAllDraw(Clerk(), TO_CLERK, Letters());
    assert !SameTask(Clerk(), TO_CLERK, StartWave(Letters()), "a", "b", "next");
    WaveConfluenceExactly(Clerk(), TO_CLERK, Letters());
  }

  // ----- one capability for two tasks -----

  function Reader(name: Name): Manifest { Manifest(name, ["read"], 5, 100, [], true) }

  /** Nobody else is registered. */
  function Read(agent: Name): Outcome {
    if agent == "ada" || agent == "ben" then Replied(Reply(Completed, "", [], [])) else Unavailable
  }

  /** Two agents with one capability, picked in turn. */
  function Readers(): Env {
    Env((agent: Name, task: Task, up: map<Id, Reply>, k: nat) => Call(0, Read(agent)),
        [Reader("ada"), Reader("ben")], (k: nat, name: Name) => 0, RoundRobin, 0, 15000, 1)
  }

  function Books(): Sys { Mission(Errand("a", "read", ""), Errand("b", "read", "")) }

  lemma TwoReaders()
    ensures |ForCapability(Readers().manifests, "read")| == 2
  {
    var ms := Readers().manifests;
    assert ms[1..] == [Reader("ben")] && ms[1..][1..] == [];
    assert "read" in Reader("ada").capabilities && "read" in Reader("ben").capabilities;
    assert ForCapability(ms[1..][1..], "read") == [];
    assert ForCapability(ms[1..], "read") == [Reader("ben")];
  }

  lemma ReadersAnswer()
    ensures Contract(Readers()) && Directory(Readers().manifests) && AnsweredFirst(Readers(), Books().graph, "b")
  {
    var env := Readers();
    assert forall agent, task, up, k :: env.call(agent, task, up, k).outcome == Read(agent);
    assert forall m :: m in env.manifests ==> m.name == "ada" || m.name == "ben";
    hide Upstream;
  }

  /** Two tasks that name one capability: the first to begin gets the agent whose turn it is. */
  lemma SharedTurnExample()
    ensures Contract(Readers()) && Planned(Books().graph) && Books().phase.Looping? && !Books().cancelled
    ensures Directory(Readers().manifests) && !SameEnds(Readers(), StartWave(Books()))
  {
    var env, s := Readers(), Books();
    MissionStarts(Errand("a", "read", ""), Errand("b", "read", ""));
    TwoReaders();
    ReadersAnswer();
    assert s.graph.nodes["a"].task == Errand("a", "read", "") && s.graph.nodes["b"].task == Errand("b", "read", "");
    assert ShareTurn(env, s.graph, "a", "b");
    hide Contract, AnsweredFirst, Inv, Planned, StartWave, ReadyIds, SameEnds, ShareTurn;
    SharedTurnDiverges(env, s, "a", "b");
  }
}
