/** Missions of one task whose agent gives one answer to everything: what its status makes of the mission. */
module OneTask {
  import opened Tasks
  import opened Registry
  import opened Attempts
  import opened Protocol
  import opened Safety
  import opened Counting
  import opened Meaning

  /** One agent, which answers everything with this status at once. */
  function Answering(status: Status): Env {
    Env((agent: Name, task: Task, up: map<Id, Reply>, k: nat) => Call(0, Replied(Reply(status, "", [], []))),
        [], (k: nat, name: Name) => 0, RoundRobin, 0, 15000, 1)
  }

  /** The task may be retried once. */
  function Survey(): Task { Task("survey", "survey", "", 15000, 5, "", "dawdler", [], 1) }

  function With(n: Node, c: Counters, phase: Phase, waves: nat): Sys {
    Sys(Graph(map["survey" := n], ["survey"]), c, map[], false, 0, 120000, phase, waves)
  }

  function At(n: Node, c: Counters, w: Worker, waves: nat): Sys {
    With(n, c, InWave(map["survey" := w]), waves)
  }

  function Before(): Sys { With(FreshNode(Survey()), Counters(0, 0, 0), Looping, 0) }

  /** The node after one more try, answered. */
  function After(n: Node, status: Status): Node {
    Answered(Attempted(n.(status := Running), "dawdler"), Reply(status, "", [], []))
  }

  lemma Overwritten<V>(v: V, w: V)
    ensures map["survey" := v]["survey" := w] == map["survey" := w]
  {
  }

  lemma WaveStarts(n: Node, c: Counters, waves: nat)
    requires n.task == Survey() && n.status.Pending?
    ensures MainStep(With(n, c, Looping, waves)) == At(n.(status := Running), c, Submitted, waves + 1)
  {
    var s := With(n, c, Looping, waves);
    assert s.graph.nodes["survey"] == n;
    assert ReadyIds(s.graph) == {"survey"};
    assert MarkRunning(s.graph, {"survey"}).nodes == map["survey" := n.(status := Running)];
    assert (map id | id in ReadyIds(s.graph) :: Submitted) == map["survey" := Submitted];
    assert !GraphDone(s.graph);
  }

  lemma TaskBegins(env: Env, n: Node, c: Counters, waves: nat)
    requires env.manifests == [] && n.task == Survey()
    ensures MoveTask(env, At(n, c, Submitted, waves), "survey")
            == At(n, c.(scheduled := c.scheduled + 1), AtLoop(map[], ["dawdler"], 0, NoAgent), waves)
  {
    var s := At(n, c, Submitted, waves);
    assert FallbacksOf([], "dawdler") == [];
    assert Distinct(["dawdler"][..0]) == [];
    assert Distinct(["dawdler"]) == ["dawdler"];
    assert CandidatesAt(env, map[], c.scheduled, Survey()) == (["dawdler"], map[]);
    assert Upstream(s.graph, Survey()) == map[];
    Overwritten(Submitted, AtLoop(map[], ["dawdler"], 0, NoAgent));
  }

  lemma TaskIsCalled(env: Env, n: Node, c: Counters, waves: nat)
    requires n.task == Survey()
    ensures MoveTask(env, At(n, c, AtLoop(map[], ["dawdler"], 0, NoAgent), waves), "survey")
            == At(n, c, Checked(map[], ["dawdler"], 0, NoAgent), waves)
    ensures MoveTask(env, At(n, c, Checked(map[], ["dawdler"], 0, NoAgent), waves), "survey")
            == At(Attempted(n, "dawdler"), c, Calling(map[], ["dawdler"], 0, NoAgent), waves)
  {
    Overwritten(AtLoop(map[], ["dawdler"], 0, NoAgent), Checked(map[], ["dawdler"], 0, NoAgent));
    Overwritten(Checked(map[], ["dawdler"], 0, NoAgent), Calling(map[], ["dawdler"], 0, NoAgent));
    Overwritten(n, Attempted(n, "dawdler"));
  }

  lemma TaskIsAnswered(status: Status, n: Node, c: Counters, waves: nat)
    requires n.task == Survey()
    ensures
      var reply := Reply(status, "", [], []);
      && MoveTask(Answering(status), At(n, c, Calling(map[], ["dawdler"], 0, NoAgent), waves), "survey")
         == At(Answered(n, reply), c.(completed := c.completed + 1), Spawning(reply, []), waves)
      && MoveTask(Answering(status), At(n, c, Spawning(reply, []), waves), "survey") == At(n, c, Returned, waves)
  {
    var reply := Reply(status, "", [], []);
    assert Invoke(Answering(status), "dawdler", Survey(), map[], n.attempts) == Call(0, Replied(reply));
    assert FollowupsOf(reply) == [];
    Overwritten(Calling(map[], ["dawdler"], 0, NoAgent), Spawning(reply, []));
    Overwritten(n, Answered(n, reply));
    Overwritten(Spawning(reply, []), Returned);
  }

  /** One wave: the task is tried once more and answered. */
  lemma OneWave(status: Status, s: Sys, n: Node, c: Counters, waves: nat)
    requires n.task == Survey() && n.status.Pending? && Reaches(Answering(status), s, With(n, c, Looping, waves))
    ensures Reaches(Answering(status), s,
                    With(After(n, status), Counters(c.scheduled + 1, c.completed + 1, c.failures), Looping, waves + 1))
  {
    var env, m, reply := Answering(status), Move("survey"), Reply(status, "", [], []);
    var k, run := waves + 1, n.(status := Running);
    var d, e := c.(scheduled := c.scheduled + 1), Counters(c.scheduled + 1, c.completed + 1, c.failures);
    WaveStarts(n, c, waves);
    TaskBegins(env, run, c, k);
    TaskIsCalled(env, run, d, k);
    TaskIsAnswered(status, Attempted(run, "dawdler"), d, k);
    TaskIsAnswered(status, After(n, status), e, k);
    assert MainStep(At(After(n, status), e, Returned, k)) == With(After(n, status), e, Looping, k);
    hide MainStep, MoveTask, With, At, Answering, After, Reaches;
    ReachesStep(env, s, With(n, c, Looping, waves), Advance);
    ReachesStep(env, s, At(run, c, Submitted, k), m);
    ReachesStep(env, s, At(run, d, AtLoop(map[], ["dawdler"], 0, NoAgent), k), m);
    ReachesStep(env, s, At(run, d, Checked(map[], ["dawdler"], 0, NoAgent), k), m);
    ReachesStep(env, s, At(Attempted(run, "dawdler"), d, Calling(map[], ["dawdler"], 0, NoAgent), k), m);
    ReachesStep(env, s, At(Answered(Attempted(run, "dawdler"), reply), e, Spawning(reply, []), k), m);
    ReachesStep(env, s, At(After(n, status), e, Returned, k), Advance);
  }

  /** How such a mission ends. */
  function Verdict(status: Status): MissionStatus { if status.Failed? then MissionFailed else MissionCompleted }

  lemma Ends(status: Status, n: Node, c: Counters)
    requires InTaskStatuses(status) && n.status == status
    ensures MainStep(With(n, c, Looping, 1)) == With(n, c, Leaving, 1)
    ensures MainStep(With(n, c, Leaving, 1)) == With(n, c, Ended(Verdict(status)), 1)
  {
    var s := With(n, c, Looping, 1);
    assert s.graph.nodes["survey"] == n;
    assert ReadyIds(s.graph) == {} && Remaining(s.graph) == {};
    assert FailRemaining(s.graph, BlockedNote).nodes == s.graph.nodes;
    assert HasFailures(s.graph) <==> status.Failed?;
    assert !(status.Failed? && HasSuccess(s.graph));
  }

  lemma WellBehaved(status: Status)
    ensures InTaskStatuses(status) ==> Contract(Answering(status))
    ensures NoFollowups(Answering(status)) && Planned(Before().graph) && Before().phase.Looping?
  {
  }

  /**
   * With an answer that the contract allows, the task is tried once, whatever retries it has, and counts as completed.
   */
  lemma OneAnswer(status: Status)
    requires InTaskStatuses(status)
    ensures Reaches(Answering(status), Before(),
                    With(After(FreshNode(Survey()), status), Counters(1, 1, 0), Ended(Verdict(status)), 1))
  {
    var env, n := Answering(status), FreshNode(Survey());
    ReachesSelf(env, Before());
    OneWave(status, Before(), n, Counters(0, 0, 0), 0);
    Ends(status, After(n, status), Counters(1, 1, 0));
    hide MainStep, With, Answering, After, Before, Reaches;
    ReachesStep(env, Before(), With(After(n, status), Counters(1, 1, 0), Looping, 1), Advance);
    ReachesStep(env, Before(), With(After(n, status), Counters(1, 1, 0), Leaving, 1), Advance);
  }

  /** The agent keeps the reply contract, the mission is planned, and its run ends completed without a success. */
  lemma CompletedWithoutSuccess()
    ensures Contract(Answering(InProgress)) && NoFollowups(Answering(InProgress))
    ensures Planned(Before().graph) && Before().phase.Looping?
    ensures exists events :: Misreported(Run(Answering(InProgress), Before(), events))
  {
    var env, t := Answering(InProgress),
      With(After(FreshNode(Survey()), InProgress), Counters(1, 1, 0), Ended(MissionCompleted), 1);
    WellBehaved(InProgress);
    OneAnswer(InProgress);
    assert t.graph.nodes["survey"].status.InProgress?;
    hide With, Answering, After, Before, Run, Contract, NoFollowups, Planned;
    var events :| Run(env, Before(), events) == t;
    assert Misreported(Run(env, Before(), events));
  }

  /** The mission has ended failed, its task tried once with a retry left, counted as completed and not as a failure. */
  ghost predicate FailedAsAnswered(t: Sys) {
    && t.phase == Ended(MissionFailed) && t.counters == Counters(1, 1, 0)
    && "survey" in t.graph.nodes && t.graph.nodes["survey"].status.Failed? && t.graph.nodes["survey"].attempts == 1
    && Rounds(t.graph.nodes["survey"].task) == 2
  }

  /** An agent that answers `failed` is not asked again, although its task may be retried. */
  lemma FailedAnswerIsFinal()
    ensures Contract(Answering(Failed)) && NoFollowups(Answering(Failed)) && Planned(Before().graph)
            && Before().phase.Looping?
    ensures exists events :: FailedAsAnswered(Run(Answering(Failed), Before(), events))
  {
    var env, t := Answering(Failed),
      With(After(FreshNode(Survey()), Failed), Counters(1, 1, 0), Ended(MissionFailed), 1);
    WellBehaved(Failed);
    OneAnswer(Failed);
    assert FailedAsAnswered(t);
    hide With, Answering, After, Before, Run, Contract, NoFollowups, Planned, FailedAsAnswered;
    var events :| Run(env, Before(), events) == t;
    assert FailedAsAnswered(Run(env, Before(), events));
  }

  // ----- an answer that the contract does not allow -----

  /** The node after so many answers of `pending`. */
  function Again(k: nat): Node {
    if k == 0 then FreshNode(Survey()) else After(Again(k - 1), Pending)
  }

  lemma {:induction false} StillPending(k: nat)
    ensures Again(k).task == Survey() && Again(k).status.Pending?
    ensures Reaches(Answering(Pending), Before(), With(Again(k), Counters(k, k, 0), Looping, k))
  {
    if k == 0 {
      ReachesSelf(Answering(Pending), Before());
    } else {
      hide With, Answering, Before, Reaches;
      StillPending(k - 1);
      OneWave(Pending, Before(), Again(k - 1), Counters(k - 1, k - 1, 0), k - 1);
    }
  }

  /**
   * The executor does not check replies: an answer of `pending` sends the task into wave after wave, on a standing
   * clock.
   */
  lemma PendingAnswersNeverEnd(n: nat)
    ensures NoFollowups(Answering(Pending)) && Planned(Before().graph) && Before().phase.Looping?
    ensures exists events :: Run(Answering(Pending), Before(), events).waves == n
  {
    StillPending(n);
    WellBehaved(Pending);
    var t := With(Again(n), Counters(n, n, 0), Looping, n);
    hide Answering, Again, Before, Run, NoFollowups, Planned;
    var events :| Run(Answering(Pending), Before(), events) == t;
    assert Run(Answering(Pending), Before(), events).waves == n;
  }
}
