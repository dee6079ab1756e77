/** The values a mission is made of: tasks, agent replies, task nodes and the task graph. */
module Tasks {
  import opened Options

  type Id = string
  type Name = string

  /** An empty `capability` or `preferred` is a missing one, as in the source's truth tests. */
  datatype Task = Task(id: Id, kind: string, payload: string, deadlineMs: int, priority: int,
                       capability: string, preferred: Name, dependsOn: seq<Id>, maxRetries: int)

  predicate NoDup(s: seq<string>) {
    forall i, j :: 0 <= i < j < |s| ==> s[i] != s[j]
  }

  /** A node's status. The last four, and any other label, can come from an agent's reply. */
  datatype Status = Pending | Ready | Running | Completed | Failed | Delegated | InProgress | Other(text: string)

  /** The reply statuses the agent contract allows. */
  predicate InTaskStatuses(s: Status) {
    s.Completed? || s.Failed? || s.InProgress? || s.Delegated?
  }

  predicate Success(s: Status) {
    s.Completed? || s.Delegated?
  }

  /** A follow-up an agent asks for; an empty `id` asks for a generated one. */
  datatype Followup = Followup(id: string, kind: Option<string>, payload: string, deadlineMs: Option<int>,
                               priority: Option<int>, capability: string, agent: Name,
                               dependsOn: seq<Id>, maxRetries: Option<int>)

  /** `nested` are the follow-ups under the reply's result, `outer` those beside it. */
  datatype Reply = Reply(status: Status, body: string, nested: seq<Followup>, outer: seq<Followup>)

  /** How one attempt ends. */
  datatype Outcome = Replied(reply: Reply) | TimedOut | Unavailable | Raised

  /** What the agent itself would do, and how long it would take. */
  datatype Call = Call(ms: nat, outcome: Outcome)

  /** A failed node's error. */
  datatype Note = NoAgent | AgentTimeout(agent: Name) | AgentUnavailable(agent: Name) | AgentError(agent: Name)
                | CancelledNote | MissionTimeout | BlockedNote

  datatype Node = Node(task: Task, status: Status, attempts: nat, agent: Option<Name>,
                       result: Option<Reply>, error: Option<Note>)

  /** `order` is the dictionary's insertion order. */
  datatype Graph = Graph(nodes: map<Id, Node>, order: seq<Id>)

  datatype MissionStatus = MissionCompleted | MissionPartial | MissionFailed | MissionCancelled

  function FreshNode(task: Task): Node {
    Node(task, Pending, 0, None, None, None)
  }

  ghost predicate GraphOk(g: Graph) {
    && (forall i, j :: 0 <= i < j < |g.order| ==> g.order[i] != g.order[j])
    && (forall id :: id in g.order <==> id in g.nodes)
    && (forall id :: id in g.nodes ==> g.nodes[id].task.id == id)
  }

  /** Adding a task; an id already present leaves the graph as it is (the source raises). */
  function AddTask(g: Graph, task: Task): Graph {
    if task.id in g.nodes then g
    else Graph(g.nodes[task.id := FreshNode(task)], g.order + [task.id])
  }

  predicate Done(g: Graph, id: Id) {
    id in g.nodes && Success(g.nodes[id].status)
  }

  predicate DepsDone(g: Graph, task: Task) {
    forall dep :: dep in task.dependsOn ==> Done(g, dep)
  }

  predicate IsReady(g: Graph, id: Id) {
    && id in g.nodes
    && (g.nodes[id].status.Pending? || g.nodes[id].status.Ready?)
    && DepsDone(g, g.nodes[id].task)
  }

  function ReadyIds(g: Graph): set<Id> {
    set id | id in g.nodes && IsReady(g, id)
  }

  predicate Over(s: Status) {
    s.Completed? || s.Failed? || s.Delegated?
  }

  predicate GraphDone(g: Graph) {
    forall id :: id in g.nodes ==> Over(g.nodes[id].status)
  }

  predicate HasFailures(g: Graph) {
    exists id :: id in g.nodes && g.nodes[id].status.Failed?
  }

  predicate HasSuccess(g: Graph) {
    exists id :: id in g.nodes && Success(g.nodes[id].status)
  }

  /** The results of the dependencies that have one. */
  function Upstream(g: Graph, task: Task): map<Id, Reply> {
    map dep | dep in task.dependsOn && dep in g.nodes && g.nodes[dep].result.Some? :: g.nodes[dep].result.value
  }

  function MarkRunning(g: Graph, wave: set<Id>): Graph {
    Graph(map id | id in g.nodes :: if id in wave then g.nodes[id].(status := Running) else g.nodes[id], g.order)
  }

  predicate Unfinished(s: Status) {
    s.Pending? || s.Ready? || s.Running?
  }

  function FailedFor(n: Node, note: Note): Node {
    n.(status := Failed, error := Some(note))
  }

  function FailRemaining(g: Graph, note: Note): Graph {
    Graph(map id | id in g.nodes :: if Unfinished(g.nodes[id].status) then FailedFor(g.nodes[id], note)
                                    else g.nodes[id], g.order)
  }

  function Remaining(g: Graph): set<Id> {
    set id | id in g.nodes && Unfinished(g.nodes[id].status)
  }

  function StatusOf(g: Graph, cancelled: bool): MissionStatus {
    if cancelled then MissionCancelled
    else if HasFailures(g) then if HasSuccess(g) then MissionPartial else MissionFailed
    else MissionCompleted
  }
}
