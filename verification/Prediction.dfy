/** Where a task of a wave will end, read off the middle of any interleaving. */
module Prediction {
  import opened Tasks
  import opened Attempts
  import opened Protocol
  import opened Safety
  import opened Lists

  /** What follows once the agent has been called. */
  function Resume(env: Env, up: map<Id, Reply>, agents: seq<Name>, attempt: nat, n: Node): Node
    requires agents != []
  {
    var c := Invoke(env, agents[0], n.task, up, n.attempts);
    match c.outcome
    case Replied(reply) => Answered(n, reply)
    case Unavailable => Drive(env, up, agents[1..], 0, NoteFor(c.outcome, agents[0]), n).node
    case _ => Drive(env, up, agents, attempt + 1, NoteFor(c.outcome, agents[0]), n).node
  }

  /** The node a task of the wave ends with, if nobody cancels and it draws `list` when it begins. */
  function Predicted(env: Env, list: seq<Name>, g: Graph, n: Node, w: Worker): Node {
    match w
    case Submitted => TryAll(env, Upstream(g, n.task), list, n).node
    case AtLoop(up, agents, attempt, last) => Drive(env, up, agents, attempt, last, n).node
    case Checked(up, agents, attempt, last) => Drive(env, up, agents, attempt, last, n).node
    case Calling(up, agents, attempt, last) => if agents == [] then n else Resume(env, up, agents, attempt, n)
    case Spawning(_, _) => n
    case Returned => n
  }

  function PredictedAt(env: Env, lists: map<Id, seq<Name>>, s: Sys, id: Id): Node
    requires Active(s, id)
  {
    Predicted(env, ListOf(lists, id), s.graph, s.graph.nodes[id], s.phase.workers[id])
  }

  lemma BeginPredicted(env: Env, lists: map<Id, seq<Name>>, s: Sys, id: Id)
    requires Draws(env, lists, s, Move(id)) && Inv(s) && Active(s, id) && s.phase.workers[id].Submitted?
    ensures PredictedAt(env, lists, Begin(env, s, id), id) == PredictedAt(env, lists, s, id)
  {
    hide Upstream, CandidatesAt, Drive, GraphOk, NodeOk;
  }

  lemma LoopHeadPredicted(env: Env, lists: map<Id, seq<Name>>, s: Sys, id: Id)
    requires Inv(s) && Active(s, id) && s.phase.workers[id].AtLoop? && !s.cancelled
    ensures PredictedAt(env, lists, LoopHead(env, s, id), id) == PredictedAt(env, lists, s, id)
  {
    hide Upstream, CandidatesAt, GraphOk, NodeOk, Invoke;
  }

  lemma TryPredicted(env: Env, lists: map<Id, seq<Name>>, s: Sys, id: Id)
    requires Inv(s) && Active(s, id) && s.phase.workers[id].Checked?
    ensures Active(MoveTask(env, s, id), id)
    ensures PredictedAt(env, lists, MoveTask(env, s, id), id) == PredictedAt(env, lists, s, id)
  {
    hide Upstream, DepsDone, CandidatesAt, GraphOk, Invoke, Begin, LoopHead, Answer, Spawn;
    assert NodeOk(s, id);
  }

  lemma AnswerPredicted(env: Env, lists: map<Id, seq<Name>>, s: Sys, id: Id)
    requires Inv(s) && Active(s, id) && s.phase.workers[id].Calling? && s.phase.workers[id].agents != []
    ensures PredictedAt(env, lists, Answer(env, s, id), id) == PredictedAt(env, lists, s, id)
  {
    hide Upstream, CandidatesAt, GraphOk, NodeOk, Invoke, Drive, FollowupsOf;
  }

  lemma SpawnPredicted(env: Env, lists: map<Id, seq<Name>>, s: Sys, id: Id)
    requires Inv(s) && Active(s, id) && s.phase.workers[id].Spawning?
    ensures PredictedAt(env, lists, Spawn(env, s, id), id) == PredictedAt(env, lists, s, id)
  {
    hide Upstream, GraphOk, NodeOk, FollowupTask, Drive, TryAll, Resume;
  }

  /** A task's own moves keep its predicted end. */
  lemma OwnPredicted(env: Env, lists: map<Id, seq<Name>>, s: Sys, id: Id)
    requires Draws(env, lists, s, Move(id)) && Inv(s) && !s.cancelled && Active(s, id)
    ensures Active(MoveTask(env, s, id), id)
    ensures PredictedAt(env, lists, MoveTask(env, s, id), id) == PredictedAt(env, lists, s, id)
  {
    hide Inv, Draws, PredictedAt;
    match s.phase.workers[id]
    case Submitted => BeginPredicted(env, lists, s, id);
    case AtLoop(_, _, _, _) => LoopHeadPredicted(env, lists, s, id);
    case Checked(_, _, _, _) => TryPredicted(env, lists, s, id);
    case Calling(_, agents, _, _) => if agents != [] { AnswerPredicted(env, lists, s, id); }
    case Spawning(_, _) => SpawnPredicted(env, lists, s, id);
    case Returned =>
  }

  /** A successful dependency is settled. */
  lemma DoneIsOver(s: Sys, dep: Id)
    requires Inv(s) && Done(s.graph, dep)
    ensures Settled(s.graph.nodes[dep])
  {
    hide GraphOk, Upstream, DepsDone;
    assert NodeOk(s, dep);
  }

  /** Dependencies that have succeeded, and their results, stay as the graph grows. */
  lemma DepsStay(s: Sys, h: Graph, task: Task)
    requires Inv(s) && Grows(s.graph, h) && DepsDone(s.graph, task)
    ensures DepsDone(h, task) && Upstream(h, task) == Upstream(s.graph, task)
  {
    hide Inv, Settled;
    forall dep | dep in task.dependsOn ensures dep in h.nodes && h.nodes[dep] == s.graph.nodes[dep] {
      DoneIsOver(s, dep);
    }
    hide Grows;
    DepsUntouched(s.graph, h, task);
  }

  lemma ActiveDepsDone(s: Sys, id: Id)
    requires Inv(s) && Active(s, id)
    ensures DepsDone(s.graph, s.graph.nodes[id].task)
  {
    hide GraphOk, Upstream, DepsDone;
    assert NodeOk(s, id);
  }

  /** Another task's move keeps the results this task reads. */
  lemma OthersKeepUpstream(env: Env, s: Sys, mover: Id, id: Id)
    requires Contract(env) && Inv(s) && Active(s, id)
    ensures Upstream(MoveTask(env, s, mover).graph, s.graph.nodes[id].task) == Upstream(s.graph, s.graph.nodes[id].task)
  {
    var task := s.graph.nodes[id].task;
    hide *;
    MoveKeeps(env, s, mover);
    ActiveDepsDone(s, id);
    DepsStay(s, MoveTask(env, s, mover).graph, task);
  }

  /** No move of anybody changes where any task of the wave will end. */
  lemma MovePredicted(env: Env, lists: map<Id, seq<Name>>, s: Sys, mover: Id, id: Id)
    requires Contract(env) && Draws(env, lists, s, Move(mover)) && Inv(s) && !s.cancelled && Active(s, id)
    ensures Active(MoveTask(env, s, mover), id)
    ensures PredictedAt(env, lists, MoveTask(env, s, mover), id) == PredictedAt(env, lists, s, id)
  {
    hide Inv, Draws, Contract, MoveTask, Upstream, Drive, TryAll, Resume;
    if mover == id {
      OwnPredicted(env, lists, s, id);
    } else {
      MoveIsLocal(env, s, mover, id);
      OthersKeepUpstream(env, s, mover, id);
    }
  }
}
