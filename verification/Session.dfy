/** Mission sessions: created, run, commanded. */
module Session {
  import opened Options
  import opened Tasks
  import opened Registry
  import opened Attempts
  import opened Protocol
  import opened Safety
  import opened Counting
  import opened Outcomes
  import opened Termination
  import opened Templates
  import opened Planner
  import opened Execution

  datatype SessionStatus = Created | SessionRunning | Finished(status: MissionStatus)

  datatype Command = Pause | Resume | CancelMission | Escalate | Unknown(text: string)

  datatype Answer = UnknownCommand | NotFound | Accepted(status: SessionStatus)

  class MissionSession {
    const graph: TaskGraph
    const cancel: CancelFlag
    var status: SessionStatus
    var results: map<Id, Reply>
    var commands: seq<Command>

    constructor (graph: TaskGraph, cancel: CancelFlag)
      ensures this.graph == graph && this.cancel == cancel && status == Created && commands == [] && results == map[]
    {
      this.graph, this.cancel := graph, cancel;
      status, commands, results := Created, [], map[];
    }
  }

  class SessionManager {
    var sessions: map<Id, MissionSession>
    const metrics: Metrics
    const registry: AgentRegistry
    const clock: Clock

    constructor (metrics: Metrics, registry: AgentRegistry, clock: Clock)
      ensures sessions == map[] && this.metrics == metrics && this.registry == registry && this.clock == clock
    {
      this.metrics, this.registry, this.clock := metrics, registry, clock;
      sessions := map[];
    }

    /** Plans a mission and keeps it under its id; a template that does not plan leaves nothing behind. */
    method CreateMission(id: Id, t: Template) returns (error: Option<PlanError>, ghost rank: map<Id, nat>)
      modifies this`sessions
      ensures error.None? <==> Plannable(t)
      ensures error.None? <==> Acceptable(t)
      ensures error.Some? ==> sessions == old(sessions) && RefusedFor(t, error.value)
      ensures error.None? ==>
        && id in sessions && sessions == old(sessions)[id := sessions[id]]
        && fresh(sessions[id]) && sessions[id].status == Created && !sessions[id].cancel.isSet
        && sessions[id].graph.Valid() && ListedGraph(sessions[id].graph.View(), t, t.tasks)
        && AsListed(sessions[id].graph.View(), t, |t.tasks|)
        && Dag.Ranked(sessions[id].graph.View(), rank) && Planned(sessions[id].graph.View())
        && fresh(sessions[id].graph) && fresh(sessions[id].graph.nodes.Values) && fresh(sessions[id].cancel)
        && forall u: Family :: EntriesIn(u, t) ==> Runnable(sessions[id], u)
    {
      hide *;
      var graph;
      error, graph, rank := PlanMission(t);
      if error.None? {
        ListedIsPlanned(graph.View(), t);
        PlannedCanRun(graph.View());
        graph.ViewKeys();
        var flag := new CancelFlag();
        var session := new MissionSession(graph, flag);
        sessions := sessions[id := session];
        forall u: Family | EntriesIn(u, t) ensures Runnable(session, u) {
          ListedIn(u, graph.View(), t);
          RunnableIs(session, u);
        }
      }
    }

    /** Creates a mission and runs it at once, as a request to create one does unless told otherwise. */
    method StartMission(id: Id, t: Template, env: Env, timeoutMs: int, ghost u: Family)
      returns (error: Option<PlanError>, ghost start: Sys, ghost s: Sys)
      requires registry.manifests == env.manifests && Contract(env) && Closed(env, u) && Finite(u)
      requires EntriesIn(u, t)
      modifies this`sessions, metrics, registry`rr, clock
      ensures error.None? <==> Plannable(t)
      ensures error.Some? ==> sessions == old(sessions)
      ensures error.None? ==>
        && id in sessions && sessions == old(sessions)[id := sessions[id]] && fresh(sessions[id])
        && ListedGraph(start.graph, t, t.tasks) && Planned(start.graph) && start.phase.Looping? && !start.cancelled
        && Reaches(env, start, s) && s.phase.Ended? && sessions[id].status == Finished(s.phase.status)
        && TellsResults(sessions[id].results, s.graph)
        && s.graph == sessions[id].graph.View() && Reported(start, s) && Runnable(sessions[id], u)
    {
      hide *;
      ghost var rank;
      error, rank := CreateMission(id, t);
      if error.None? {
        start, s := RunSession(sessions[id], env, timeoutMs, u);
      } else {
        start := Start(Graph(map[], []), Counters(0, 0, 0), map[], false, 0, 0);
        s := start;
      }
    }

    /**
     * Records a command. Cancelling raises the flag for good, and shows at once on a mission that has not
     * finished; the other commands are recorded and change nothing else.
     */
    method SendCommand(id: Id, command: Command) returns (answer: Answer)
      modifies if id in sessions then {sessions[id], sessions[id].cancel} else {}
      ensures answer == UnknownCommand <==> command.Unknown?
      ensures answer == NotFound <==> !command.Unknown? && id !in sessions
      ensures answer.Accepted? ==>
        var m := sessions[id];
        && m.commands == old(m.commands) + [command] && m.results == old(m.results)
        && answer.status == m.status
        && m.cancel.isSet == (old(m.cancel.isSet) || command.CancelMission?)
        && m.status == if command.CancelMission? && !old(m.status).Finished? then Finished(MissionCancelled)
           else old(m.status)
      ensures !answer.Accepted? && id in sessions ==> unchanged(sessions[id]) && unchanged(sessions[id].cancel)
    {
      if command.Unknown? {
        return UnknownCommand;
      }
      if id !in sessions {
        return NotFound;
      }
      var m := sessions[id];
      m.commands := m.commands + [command];
      if command.CancelMission? {
        m.cancel.isSet := true;
        if m.status.Created? || m.status.SessionRunning? {
          m.status := Finished(MissionCancelled);
        }
      }
      answer := Accepted(m.status);
    }

    /**
     * Runs a mission. The session reports what the protocol run ended with; under a raised flag no agent
     * is called and the report is `cancelled`; a mission whose tasks are all settled is left as it is.
     */
    method RunSession(m: MissionSession, env: Env, timeoutMs: int, ghost u: Family)
      returns (ghost start: Sys, ghost s: Sys)
      requires registry.manifests == env.manifests && Contract(env) && Closed(env, u) && Finite(u)
      requires Runnable(m, u)
      modifies m, m.graph, m.graph.nodes.Values, m.cancel, metrics, registry`rr, clock
      ensures start.phase.Looping? && start.graph == old(m.graph.View()) && start.cancelled == old(m.cancel.isSet)
      ensures Reaches(env, start, s) && s.phase.Ended? && m.status == Finished(s.phase.status)
              && m.commands == old(m.commands)
      ensures Reported(start, s) && s.graph == m.graph.View() && s.cancelled == m.cancel.isSet
      ensures TellsResults(m.results, s.graph)
      ensures Runnable(m, u)
    {
      hide *;
      RunnableIs(m, u);
      CanRunBoundary(m.graph.View(), m.cancel.isSet);
      m.graph.ViewKeys();
      m.status := SessionRunning;
      var executor := new Executor(env, metrics, registry, m.cancel, clock);
      var status, results;
      ghost var g, flag, c, rr := m.graph.View(), m.cancel.isSet, metrics.Read(), registry.rr;
      status, results, start, s := executor.RunMission(m.graph, timeoutMs, u);
      StartFields(start, g, c, rr, flag, start.clock, timeoutMs);
      executor.EndGraph(m.graph, s);
      executor.EndFlag(m.graph, s);
      ReportHolds(env, start, s);
      EndCanRun(env, u, start, s);
      m.graph.ViewKeys();
      m.results := results;
      m.status := Finished(status);
      RunnableIs(m, u);
    }

    /** Runs the mission kept under an id. */
    method RunMission(id: Id, env: Env, timeoutMs: int, ghost u: Family)
      returns (found: bool, ghost start: Sys, ghost s: Sys)
      requires registry.manifests == env.manifests && Contract(env) && Closed(env, u) && Finite(u)
      requires id in sessions ==> Runnable(sessions[id], u)
      modifies if id in sessions
               then {sessions[id], sessions[id].graph, sessions[id].cancel} + sessions[id].graph.nodes.Values else {}
      modifies metrics, registry`rr, clock
      ensures found <==> id in sessions
      ensures found ==>
        && start.phase.Looping? && start.graph == old(sessions[id].graph.View())
           && start.cancelled == old(sessions[id].cancel.isSet)
        && Reaches(env, start, s) && s.phase.Ended? && sessions[id].status == Finished(s.phase.status)
        && TellsResults(sessions[id].results, s.graph)
        && Reported(start, s) && s.graph == sessions[id].graph.View() && s.cancelled == sessions[id].cancel.isSet
        && Runnable(sessions[id], u)
    {
      hide *;
      found := id in sessions;
      if found {
        start, s := RunSession(sessions[id], env, timeoutMs, u);
      } else {
        start := Start(Graph(map[], []), Counters(0, 0, 0), map[], false, 0, 0);
        s := start;
      }
    }
  }

  /** A planned mission, or one that was run before: tasks are marked cancelled only under the flag. */
  ghost predicate CanRun(g: Graph, flag: bool) {
    Boundary(g) && (!flag ==> CancelledIds(g) == {})
  }

  /** The template's tasks are of the family. */
  ghost predicate EntriesIn(u: Family, t: Template) {
    forall spec :: spec in t.tasks ==> TaskFor(t, spec) in u.tasks
  }

  lemma ListedIn(u: Family, g: Graph, t: Template)
    requires EntriesIn(u, t) && ListedGraph(g, t, t.tasks)
    ensures TasksIn(u, g)
  {
    hide ListedGraph;
    ListedIsPlanned(g, t);
  }

  /** The session's mission can be run, for the first time or again, its tasks of the family. */
  ghost predicate Runnable(m: MissionSession, u: Family)
    reads m, m.graph, m.graph.nodes.Values, m.cancel
  {
    m.graph.Valid() && TasksIn(u, m.graph.View()) && CanRun(m.graph.View(), m.cancel.isSet)
  }

  lemma RunnableIs(m: MissionSession, u: Family)
    ensures Runnable(m, u) <==> m.graph.Valid() && TasksIn(u, m.graph.View()) && CanRun(m.graph.View(), m.cancel.isSet)
  {
  }

  /** A planned mission can be run. */
  lemma PlannedCanRun(g: Graph)
    requires Planned(g)
    ensures CanRun(g, false)
  {
    hide GraphOk;
  }

  /** So can one that was run before, whatever came of it. */
  lemma EndCanRun(env: Env, u: Family, start: Sys, s: Sys)
    requires Contract(env) && Startable(start) && Reaches(env, start, s) && s.phase.Ended?
    ensures CanRun(s.graph, s.cancelled)
    ensures Closed(env, u) && TasksIn(u, start.graph) ==> TasksIn(u, s.graph)
  {
    var events :| Run(env, start, events) == s;
    BoundaryStart(start);
    EndsTruthfully(env, start, events);
    RunKeeps(env, start, events);
    if Closed(env, u) && TasksIn(u, start.graph) {
      assert Within(env, u, start);
      hide Run, Within, Inv;
      ReachesKeeps(env, u, start, s);
      EndWithin(env, u, s);
    }
    hide Run;
    Between(s);
  }

  lemma EndWithin(env: Env, u: Family, s: Sys)
    requires Within(env, u, s)
    ensures TasksIn(u, s.graph)
  {
    hide PlaceWithin, TasksIn;
  }

  lemma CanRunBoundary(g: Graph, flag: bool)
    requires CanRun(g, flag)
    ensures Boundary(g)
  {
  }

  lemma StartFields(start: Sys, g: Graph, c: Counters, rr: map<string, nat>, flag: bool, now: int, timeoutMs: int)
    requires start == Start(g, c, rr, flag, now, timeoutMs) && CanRun(g, flag)
    ensures start.graph == g && start.cancelled == flag && start.phase.Looping? && Startable(start)
  {
  }

  /** What the end of a run says about its start. */
  ghost predicate Reported(start: Sys, s: Sys) {
    && s.phase.Ended?
    && (start.cancelled ==> s.graph == start.graph && s.phase.status == MissionCancelled)
    && (AllSettled(start.graph) ==> s.graph == start.graph)
    && (!s.cancelled ==> s.phase.status == StatusOf(s.graph, false))
  }

  ghost predicate AllSettled(g: Graph) {
    forall id :: id in g.nodes ==> Settled(g.nodes[id])
  }

  /** What a finished run says, from its start. */
  lemma ReportHolds(env: Env, start: Sys, s: Sys)
    requires Contract(env) && Startable(start) && Reaches(env, start, s) && s.phase.Ended?
    ensures Reported(start, s)
  {
    var events :| Run(env, start, events) == s;
    EndsTruthfully(env, start, events);
    hide Run;
    if start.cancelled || AllSettled(start.graph) { IdleRun(env, start, events); }
    if start.cancelled { EndsCancelled(env, start, events); }
  }
}
