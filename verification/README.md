# DVSA control plane and detection kits: a verified model

This project models the parts of the repository whose correctness is not visible from any one
function, and proves what they promise.

**The multi-agent control plane** (`dvsa_api/mcp`). A mission is a graph of tasks. The planner
accepts or refuses it, the executor runs it in waves of concurrent tasks with retries, fallback
agents, dynamic follow-ups, a timeout and cooperative cancellation, and the session manager keeps
the outcome. `Protocol` states the executor as a step machine: the main thread advances the wave
loop, the tasks of a wave move one statement group at a time in any order, the flag may be raised
and the clock may tick at any point. A run is any sequence of such events, and the theorems are
about all of them. Which agents a task tries may depend on counters and loads, and so on the
interleaving; a run's own candidate lists are what `Lists` reads off it, and the meaning of a mission
is stated over them, for every selection policy. The classes in `Planner`, `Execution`, `Registry` and
`Session` have the fields and loops of the source; each executor method is proved to take the protocol
from its state before to its state after, so what holds of every run holds of the executor. Agents are
a reply function of agent, task, upstream results and attempt number, the clock is an object that only
moves forward, and the cancellation flag may be raised whenever it is polled. When all interleavings of
a wave end the same is stated exactly, and so is when whole missions do. What the agents, the template's
entries and the follow-up records themselves say is carried through to the end: results, errors, tasks
and lists are told from them and not from the model's own intermediate values.

**Partition, execute, merge, review** (`agent_kits`). A run over a video is cut into overlapping
time windows and tiles, each piece is processed by a child, and the children's detections are merged
by greedy de-duplication on box overlap. The main result is that the cut run reports exactly what the
uncut run reports, with the exact condition under which it does: in terms of what the runs report, in
terms of the frames and the split alone, and, for tiles, in terms of the grid's numbers. Rounding is
Python's, half to even.

**Tiling and suppression in the detector** (`custom_model`), in whole pixels, and the **sliding-window
rate limiter** in front of the control plane's endpoints.

| files | what they hold |
|---|---|
| `Options`, `Text`, `Sets`, `Division`, `Sorting`, `Filters`, `Greedy`, `Rounding` | missing values and errors, string order, sizes of sets, remainders, stable sorting, comprehensions, the greedy pass and its kernel, `round` |
| `Tasks`, `Registry`, `Attempts`, `Protocol`, `Templates` | missions as values, agent selection, the tries of one task, the step machine, what the entries of a template list |
| `Safety`, `Counting`, `Outcomes` | the invariant of every run, conservation of the counters, what every run promises |
| `Lists`, `Prediction`, `Confluence`, `Meaning` | the candidate lists a run draws, one task's fate, the interleavings of a wave, the recursive meaning of a graph |
| `Progress`, `Interleavings`, `Rotation`, `TurnFates`, `Races`, `Missions` | the steps a task has left, when interleavings agree, the turns of round-robin and when they matter, two missions whose tasks race, all runs of a mission |
| `Ledger`, `Followups`, `OneTask` | the tries of every task at every moment of every run and what came of them; the tasks a run adds, told from the agents' records; what one answer makes of a mission of one task |
| `Dag`, `Termination`, `Deadline`, `Unbounded` | cycles, topological peeling, progress; the bounds on waves, and a mission without any |
| `Planner`, `Execution`, `Session` | the objects that are updated in place |
| `Detections`, `Dedupe`, `Partition`, `Orchestrator`, `PartitionedRun`, `Matching`, `Critic` | the detection kits |
| `Tiling`, `Nms`, `RateLimiter` | the detector's tiler and suppression; the limiter |

`dafny verify dfyconfig.toml` checks everything.

## Where the code and its documentation differ

The model follows the code.

- `docs/mcp_integration.md:77` says that a lower manifest priority is more urgent and used by the
  `priority` policy; `dvsa_api/mcp/registry.py:294-295` picks the highest.
- The executor is documented to retry failed tasks (`dvsa_api/mcp/executor.py:8`); an agent's reply of
  `failed` is taken as its answer, is not retried, and counts as a completed task
  (`OneTask.FailedAnswerIsFinal`; `Ledger.FailedWithTriesLeft` says when a failed task has tries left).
- `validate` says it checks for cycles; a dependency listed twice is also refused, as a cycle
  (`Dag.RepeatIsNoCycle`; the exact condition is in `Planner.TaskGraph.Validate`).
- A mission's `completed` only says that no task failed: a reply of `in_progress` leaves its task
  unfinished (`OneTask.CompletedWithoutSuccess` is such a run, `Meaning.CompletedTellsTheTruthExactly`
  the exact condition).
- `_generate_tiles` says the tiles cover the frame; without overlap the last row or column can be
  missed (`Tiling.PixelCoverage` says when).
- `partition_time_windows` documents `overlap` as 0 to 0.9; everything below 1 is accepted.
  `partition_tiles` accepts any overlap, and without one neighbouring tiles can be up to 1e-4 apart
  (`PartitionedRun.SeamLosesDetection`).
- Splitting a run into windows discards the time window the request asked for, and into tiles its tile
  (`PartitionedRun.RequestedWindowLost`; `PartitionedRun.RequestHonouredExactly` and
  `PartitionedRun.SafeByFrames` say when it shows).
- The greedy review may miss agreements (`Critic.GreedyIsNotOptimal`; `Critic.GreedyIsLargestExactly` and
  `Critic.UnambiguousIsLargest` say when it does not).
- Merging is not associative (`Dedupe.MergeIsNotAssociative`; `Dedupe.MergeInStagesExactly` says when
  merging a part first is harmless), so children must be merged all at once, as the orchestrator does.
- With ties in score the detector's suppression depends on the order in which tiles report
  (`Nms.TiesDependOnOrder`, `Nms.OrderMattersExactly`).

## Model

| member | source | states |
|---|---|---|
| Planner.TaskGraph.Add | dvsa_api/mcp/planner.py:58-64 | a new task enters the graph fresh and last in order; a known id is refused and nothing changes |
| Planner.TaskGraph.DependenciesKnown | dvsa_api/mcp/planner.py:68-72 | true exactly when every dependency of every task is in the graph |
| Planner.TaskGraph.AssertAcyclic | dvsa_api/mcp/planner.py:75-92 | the in-degree queue accepts exactly the graphs in which no task lists a dependency twice and there is no cycle, and then yields a topological rank; each task is queued at most once, so it ends |
| Planner.TaskGraph.Validate | dvsa_api/mcp/planner.py:66-73 | accepts iff dependencies are known, unrepeated and acyclic; tells which of the two errors it is |
| Dag.RankedHasNoCycle | dvsa_api/mcp/planner.py:75-92 | soundness: a graph with a topological rank has no cycle |
| Dag.TrappedHasCycle | dvsa_api/mcp/planner.py:91-92 | completeness: tasks none of which can be peeled off contain a cycle |
| Dag.PeelEnds | dvsa_api/mcp/planner.py:83-92 | when the queue is empty, all tasks were seen iff nothing is repeated and nothing is cyclic |
| Dag.RepeatIsNoCycle | dvsa_api/mcp/planner.py:77-91 | an acyclic graph with known dependencies that validation refuses: a dependency listed twice |
| Dag.Progress | dvsa_api/mcp/planner.py:95-110 | in a DAG whose tasks are pending or succeeded, some pending task is ready |
| Planner.TaskGraph.IsDone | dvsa_api/mcp/planner.py:112-116 | whether every task is completed, failed or delegated |
| Planner.TaskGraph.ReadyTasks | dvsa_api/mcp/planner.py:95-106 | the wave is exactly the pending or ready tasks whose dependencies have each completed or been delegated, the lower priority number first and among equals the task added first; these are marked ready and nothing else changes |
| Planner.PlanMission | dvsa_api/mcp/planner.py:151-200 | plans exactly the acceptable templates, told from their entries: ids all there and different, each naming an agent or a capability, every dependency some entry's id, none listed twice, and no sequence of entries each listing the next and the last the first; the graph then has one untouched node for each entry, in order, with the entry's own dependencies, capability, agent and payload and its kind, deadline, priority and retries, or the defaults spelled out; a refusal reports the first thing wrong with the entries |
| Templates.ListedIsPlanned | dvsa_api/mcp/planner.py:170-200 | what a template lists is a graph as the theorems about runs require: every task fresh, under its own id, listed once, and no other |
| Templates.ByEntries | dvsa_api/mcp/planner.py:66-92 | in a graph that has an entry's dependencies under every entry's id, dependencies are known, unrepeated and acyclic iff the entries say so |
| Templates.ListedTellsEntries | dvsa_api/mcp/planner.py:170-187 | the graph the planner builds has each entry's task under its id, field by field, and a template plans iff its entries are acceptable |
| Templates.RefusalTellsEntries | dvsa_api/mcp/planner.py:159-187 | the error reported is the first thing wrong, told from the entries |
| Registry.ForCapabilityMembers | dvsa_api/mcp/registry.py:273-275 | the candidates are the allowed agents that advertise the capability |
| Registry.SelectPicksACandidate | dvsa_api/mcp/registry.py:278-309 | an agent is chosen iff the policy is known and somebody offers the capability; it is an allowed candidate, best by the policy's measure; other capabilities' counters stay |
| Registry.TiesGoToTheFirst | dvsa_api/mcp/registry.py:292-299 | under the keyed policies, of several best candidates the one registered first is chosen |
| Registry.RoundRobinIsFair | dvsa_api/mcp/registry.py:300-305 | over any k selections in a row each of n candidates is chosen floor(k/n) or ceil(k/n) times |
| Registry.RoundRobinTurn | dvsa_api/mcp/registry.py:300-305 | the turn is that of the agent at the counter's place, from 0 on, among the allowed agents with the capability in the code-point order of their names; the counter moves on by one |
| Registry.AgentRegistry.SelectAgent | dvsa_api/mcp/registry.py:278-309 | the method's choice and its counter are those of the selection function |
| Registry.CandidateList | dvsa_api/mcp/executor.py:190-214 | nobody twice, the preferred or selected agent first, then its declared fallbacks in their order, and in all exactly these and every agent advertising the capability |
| Registry.CandidatesInOrder | dvsa_api/mcp/executor.py:190-214 | the list from the registered manifests alone: the preferred agent or else the selected one, the fallbacks its own manifest declares, in their order, and then every other allowed agent that advertises the capability, in the order of registration; nobody twice and nobody else |
| Attempts.DriveExhausts | dvsa_api/mcp/executor.py:126-162 | a task that fails, with no agent of its list unavailable at any attempt it made, has used every try of every candidate |
| Attempts.DriveTime | dvsa_api/mcp/executor.py:126-156 | from any try on, the time the remaining tries take is within the deadline for each and the backoff for each pause |
| Attempts.RetryBound | dvsa_api/mcp/executor.py:126-162 | of the meaning of the two loops: C candidates and R retries make at most C(R+1) tries, exactly so many on failure with none of them unavailable at these attempts, and take at most C((R+1)D + RB) milliseconds |
| Attempts.TimeBound | dvsa_api/mcp/executor.py:126-156 | the waiting time ahead of a task that is about to start is within C((R+1)D + RB) |
| Ledger.RunRetryBound | dvsa_api/mcp/executor.py:117-162 | in every run, under any policy, cancelled or not, with follow-ups, at every moment: a task has made at most C(R+1) attempts, C the length of the candidate list the run drew for it, and exactly so many if it failed and no agent of that list is unavailable to it at an attempt it made |
| Ledger.RunAnswersInTime | dvsa_api/mcp/executor.py:126-187 | in every run, at every moment: a task's result is what an agent of the list it drew replied to the last attempt made, asked with the results it depends on, and within its deadline if it has one; and a task whose tries failed carries the error of its last call, a timeout if that call overran the deadline, whatever the agent answered then |
| Ledger.CallEnds | dvsa_api/mcp/executor.py:136-178 | one call in any run, told from what the agent did: one that overran the deadline leaves no result, is noted as a timeout, and the same agent's tries go on; otherwise a reply is taken with its follow-ups, the nested ones first, an unavailable agent is left for the next, and any other failure is noted as what it was |
| Safety.RunKeeps | dvsa_api/mcp/executor.py:68-162 | every run keeps the protocol's invariant, removes no task and changes no settled one, never lowers the flag and never turns back the clock |
| Followups.RunAddsWhatIsAsked | dvsa_api/mcp/executor.py:216-239 | in every run: each task that was not planned is recorded in the reply some task got, under the id asked for or the parent's with its attempt number, with the record's capability, agent, payload and dependencies and its kind, deadline, priority and retries or the defaults spelled out, as the first record of that reply that names the id says; and a task that was answered and has returned has every record's task in the graph |
| Followups.RecordTaken | dvsa_api/mcp/executor.py:222-239 | taking one record adds its task last and untouched if its id is new, and otherwise changes nothing |
| Followups.DigitsMean | dvsa_api/mcp/executor.py:223 | attempt numbers in generated ids are decimals without leading zeros |
| Outcomes.DependencySafety | dvsa_api/mcp/executor.py:119-137 | whenever an agent is about to be called, in any interleaving, all dependencies are present and succeeded, the upstream context is exactly their results, and they never change afterwards |
| Outcomes.FinishedStay | dvsa_api/mcp/executor.py:97-108 | at wave boundaries no task disappears and finished ones never change |
| Outcomes.EntersOneWave | dvsa_api/mcp/executor.py:76-81 | a task enters at most one wave |
| Outcomes.WaveBound | dvsa_api/mcp/executor.py:68-81 | a run never makes more waves than the tasks it has in the end, initial ones and accepted follow-ups together |
| Termination.FinitelyManyWaves | dvsa_api/mcp/executor.py:216-239 | if agents, called as a task can call them (on a list it may draw, at an attempt the list allows), only ask for tasks of a family with finitely many names, every run, however long, makes finitely many waves |
| Termination.WaveUsesNames | dvsa_api/mcp/executor.py:68-81 | each wave strictly uses up names: the measure the mission loop ends by |
| Progress.WaveEndsExactly | dvsa_api/mcp/executor.py:97-162 | every interleaving ends its wave: under the lists it draws each task returns after a number of moves of its own that is known when the wave starts, cancelled or not, and uncancelled not before |
| Progress.WaveCanEnd | dvsa_api/mcp/executor.py:97-108 | from any state inside a wave all its tasks can be brought to return |
| Deadline.NoWavePastDeadline | dvsa_api/mcp/executor.py:68-75 | whatever the agents answer, once the deadline has passed no wave starts |
| Deadline.DeadlineBoundsWaves | dvsa_api/mcp/executor.py:58-75 | whatever the agents answer, if each wave finds the clock a gap later than the one before, the waves times the gap fit before the deadline |
| Deadline.TimeoutBoundsWaves | dvsa_api/mcp/executor.py:58-75 | so a mission makes at most timeout / gap + 1 waves, and none with a negative timeout |
| Unbounded.FollowupsNeverEnd | dvsa_api/mcp/executor.py:216-239 | on a standing clock nothing else bounds them: with an agent that keeps the reply contract and always asks for one more follow-up, a mission of one task has a run of n waves for every n and every timeout |
| Unbounded.OneFollowupEnds | dvsa_api/mcp/executor.py:216-239 | an agent that asks for one follow-up whatever the attempt, and leaves naming to the executor, does have such a family: every run makes at most three waves |
| OneTask.PendingAnswersNeverEnd | dvsa_api/mcp/executor.py:138-139 | nor does the finite set of names without the reply contract: an agent that answers pending sends its task into wave after wave |
| Outcomes.FinalStatus | dvsa_api/mcp/executor.py:248-255 | for agents that decide: completed iff every task succeeded, failed iff there are tasks and none did, partial iff some did and some did not |
| Outcomes.CompletedMeansNoneFailed | dvsa_api/mcp/executor.py:248-255 | for all agents: an uncancelled run is reported completed iff every task succeeded or stayed in progress |
| Meaning.CompletedTellsTheTruthExactly | dvsa_api/mcp/executor.py:248-255 | a run is reported completed without every task succeeding iff no task's meaning is failed and some task's meaning is in progress |
| Meaning.FixedCompletedTellsTheTruth | dvsa_api/mcp/executor.py:248-255 | the same in terms of the mission and the agents alone, where candidate lists are known beforehand |
| OneTask.CompletedWithoutSuccess | dvsa_api/mcp/executor.py:136-147 | a mission of one task whose agent replies in_progress, and a run of it that ends completed |
| OneTask.FailedAnswerIsFinal | dvsa_api/mcp/executor.py:136-145 | a mission of one task whose agent replies failed, and a run of it that ends failed after one attempt of two, the task counted as completed and not as a failure |
| Ledger.FailedWithTriesLeft | dvsa_api/mcp/executor.py:126-162 | in every run a failed task with tries left was answered failed, was cancelled or given up by the mission, or some agent of the list it drew is unavailable to it at one of the attempts it made |
| Outcomes.EveryTaskCountedOnce | dvsa_api/mcp/executor.py:140-162 | an uncancelled run's completions and failures add up to the number of tasks, follow-ups included |
| Counting.Conservation | dvsa_api/mcp/executor.py:110-162 | outside waves, also under cancellation, a scheduled task is counted completed, counted failed, or marked cancelled, never twice; the other failures are the tasks given up on |
| Outcomes.CancelStops | dvsa_api/mcp/executor.py:129-132 | once the flag is up a task makes at most one more attempt, a later follow-up none, and the run can only end cancelled |
| Outcomes.IdleRun | dvsa_api/mcp/executor.py:68-75 | a mission cancelled before its start, or settled, invokes nothing and changes nothing |
| Outcomes.RerunIsIdle | dvsa_api/mcp/session_manager.py:114-126 | running a finished, uncancelled mission again invokes nothing and returns the same tasks and, unless cancelled meanwhile, the same status |
| Confluence.WaveConfluence | dvsa_api/mcp/executor.py:97-162 | all interleavings of a wave in which the tasks draw the same candidate lists, and ask for the same task where they ask for the same new id, end with the same nodes and counters, each task as its own tries say |
| Confluence.FixedWaveConfluence | dvsa_api/mcp/executor.py:97-162 | so do all interleavings whatever, if the lists of the wave's own tasks read no counters or loads |
| Interleavings.ConfluentExactly | dvsa_api/mcp/executor.py:97-162 | under every policy and for all agents that keep the reply contract: all interleavings that end a wave end with the same nodes iff no task's end depends on which list it draws, and any two tasks that ask for the same new id ask for the same task |
| Interleavings.FatedConfluenceExactly | dvsa_api/mcp/executor.py:97-162 | where no task's end depends on its list, iff the second |
| Interleavings.WaveConfluenceExactly | dvsa_api/mcp/executor.py:97-162 | so also where every interleaving draws the same lists |
| Races.SharedIdDiverges | dvsa_api/mcp/executor.py:216-239 | two tasks that ask for different follow-ups under one id, whose interleavings end differently |
| Rotation.RoundRobinDrawsExactly | dvsa_api/mcp/registry.py:300-305 | under round-robin there are lists that every interleaving of a wave draws iff no two of its tasks without a preferred agent share a capability that several agents offer; they are those of the counters at the wave's start |
| TurnFates.RoundRobinConfluenceExactly | dvsa_api/mcp/executor.py:97-162 | under round-robin, for all agents that keep the reply contract: iff no task's end depends on how many of those it takes turns with come before it, and same new ids mean same tasks; both can be told before the wave |
| TurnFates.SharedTurnDiverges | dvsa_api/mcp/registry.py:300-305 | if two tasks take turns at one capability, and the agents that offer it answer the first call of one of them, the interleavings end differently |
| TurnFates.AnsweredConfluenceExactly | dvsa_api/mcp/executor.py:97-162 | where the agents that offer a ready task's shared capability answer its first call: iff no turn is shared and same new ids mean same tasks |
| Races.SharedTurnExample | dvsa_api/mcp/registry.py:300-305 | a mission of two tasks that share a capability of two agents, nobody else being registered, whose interleavings end differently |
| Missions.MissionConfluence | dvsa_api/mcp/executor.py:68-94 | under any policy, follow-ups included: if in every wave of one run all interleavings end the same, all runs that end uncancelled and in time end with the same nodes, counters and status |
| Missions.UnnamedAgree | dvsa_api/mcp/executor.py:222-223 | ids generated for follow-ups never clash, so agents that leave naming to the executor always mean the same task by the same new id |
| Missions.StaticMissionConfluence | dvsa_api/mcp/executor.py:68-94 | with such agents and a policy that reads neither counters nor loads every mission has one outcome |
| Missions.RotatingMissionConfluence | dvsa_api/mcp/executor.py:68-94 | and so has, with such agents, every mission under round-robin of which no two tasks take turns at one capability, if follow-ups, where there are any, take no turns |
| Meaning.RunMeansDag | dvsa_api/mcp/executor.py:68-81 | under any policy, without follow-ups, cancellation or timeout, a run leaves every task exactly as the recursive meaning of the graph says under the candidate lists it drew, each of which some counters and loads give |
| Meaning.FixedRunMeansDag | dvsa_api/mcp/executor.py:68-81 | where the lists read no counters or loads, every run ends in the one meaning of the graph |
| Meaning.RunsIffDependenciesSucceed | dvsa_api/mcp/executor.py:76-81 | under any policy, with follow-ups: a task ends blocked iff some transitive dependency did not succeed or is missing; it was then never tried nor scheduled; every other task was scheduled, and tried if its list and its retries allow |
| Lists.DrawnAreDrawable | dvsa_api/mcp/executor.py:190-214 | a list a run draws is one that the selection gives that very task under some counters and loads |
| Lists.StaticPolicyIsFixed | dvsa_api/mcp/registry.py:292-295 | policies that read neither counters nor loads give lists that depend on the task alone |
| Lists.PreferredIsFixed | dvsa_api/mcp/executor.py:193-214 | so does a preferred agent, under every policy |
| Lists.SoleAgentIsFixed | dvsa_api/mcp/registry.py:287-308 | so does a capability that at most one agent offers, under every policy |
| Execution.Executor.AgentCandidates | dvsa_api/mcp/executor.py:190-214 | the list grown by the loops is the candidate list of the specification |
| Execution.Executor.TryOnce | dvsa_api/mcp/executor.py:129-178 | one try is three steps of the protocol; told from the agent's own call on the upstream results and the attempt's number: if it takes longer than the deadline the outcome is a timeout, the wait is the deadline and the node keeps no result; otherwise the outcome and the wait are the call's, and a reply is the node's result and status |
| Execution.Executor.TryAgent | dvsa_api/mcp/executor.py:126-156 | one agent's retry loop is a run of the protocol from that agent's first try to the task's return or the next agent; the time it waits is what the remaining tries are due to take, less what they still are; if the task returns, with the reply or the error of its last call |
| Execution.Executor.SpawnFollowups | dvsa_api/mcp/executor.py:216-239 | afterwards everything asked for is in the graph, nothing that was there has changed, and each new node is untouched and as the first record to name its id says, field by field; the steps are the protocol's |
| Execution.Executor.RunTask | dvsa_api/mcp/executor.py:110-162 | a task's whole life is a run of the protocol from submission to return; it waits for calls and pauses as long as its tries take, no longer if cancelled, and within C((R+1)D + RB); its result was replied within the deadline by an agent of the list it drew, and its error is that of its last call |
| Execution.Executor.RunWave | dvsa_api/mcp/executor.py:97-108 | the wave is a run of the protocol from one loop head to the next |
| Execution.Executor.FailRest | dvsa_api/mcp/executor.py:241-246 | exactly the pending, ready and running tasks fail with the reason, each counted once |
| Execution.Executor.StatusNow | dvsa_api/mcp/executor.py:248-255 | cancelled under the flag; otherwise completed if no task failed, partial if some did and some completed or were delegated, failed if none was; as the protocol ends |
| Execution.Executor.RunMission | dvsa_api/mcp/executor.py:50-94 | the mission loop ends, and is a run of the protocol from start to end that returns its status and the replies of exactly the tasks that have one, each under its id |
| Session.SessionManager.CreateMission | dvsa_api/mcp/session_manager.py:92-112 | a template whose entries are acceptable is kept under its id, with their tasks, untouched, and can be run; one that is not leaves nothing behind and says what is wrong |
| Session.SessionManager.StartMission | dvsa_api/mcp/session_manager.py:92-112 | planned and run at once: the session ends with the status and the graph of a protocol run of the listed tasks, and can be run again |
| Session.EndCanRun | dvsa_api/mcp/session_manager.py:114-126 | the end of any run is a state from which the mission can be run again |
| Session.SessionManager.SendCommand | dvsa_api/mcp/session_manager.py:142-165 | cancel raises the flag for good and shows on an unfinished mission; other commands are only recorded; unknown ones and unknown missions change nothing |
| Session.SessionManager.RunSession | dvsa_api/mcp/session_manager.py:114-126 | the session ends with the status of a protocol run and keeps the replies of exactly the tasks that have one; under a raised flag nothing is invoked and the report is cancelled; a settled mission stays as it is |
| Session.SessionManager.RunMission | dvsa_api/mcp/session_manager.py:114-133 | the same by mission id, with the missing mission reported |
| Session.ReportHolds | dvsa_api/mcp/executor.py:83-94 | what any finished run says about its start: cancelled, settled, or truthful |
| Detections.TimelineIsTotalOrder | agent_kits/common/utils.py:37-42 | the timeline key orders detections totally |
| Detections.TimelineMeans | agent_kits/common/utils.py:37-42 | in fields: the earlier timestamp first, then the class name by code points, told by the first character that differs or a proper prefix, then the higher confidence, then x, y, w and h |
| Text.StringLeMeans | agent_kits/common/utils.py:37-42 | strings are ordered by the code point where they first differ, a prefix first |
| Detections.RankIsTotalOrder | agent_kits/common/utils.py:72-74 | the two stable sorts together amount to a total order, by confidence first |
| Detections.RankMeans | agent_kits/common/utils.py:72-74 | in fields: the higher confidence first, then the timeline |
| Detections.IouSymmetric | agent_kits/common/utils.py:45-57 | the overlap of two boxes does not depend on their order |
| Detections.IouPositive | agent_kits/common/utils.py:45-57 | it is a number from 0 to 1, positive exactly when the boxes share an interior point |
| Detections.IouFull | agent_kits/common/utils.py:45-57 | it is 1 exactly for a box with an area and itself |
| Detections.IouMeans | agent_kits/common/utils.py:45-57 | the overlap times the area the boxes enclose together is their common area, from the larger near edges to the smaller far ones; 0 without one |
| Dedupe.DedupeDetections | agent_kits/common/utils.py:60-86 | the nested loops keep what the specification keeps |
| Dedupe.KeptIsKernel | agent_kits/common/utils.py:60-86 | a detection is kept iff no better-ranked kept one conflicts with it; the result is in timeline order |
| Dedupe.KeptInOrder | agent_kits/common/utils.py:60-86 | the same on the fields: later ones in the result never have an earlier timestamp, at one timestamp never a smaller class name, within a class never a higher confidence, and so on; and a detection is kept iff no kept one that ranks before it has its class, its time within 1e-9 and an overlap of the threshold or more |
| Dedupe.KernelIsKept | agent_kits/common/utils.py:60-86 | the kernel is unique: any set with that property is the set kept |
| Dedupe.DroppedIsCovered | agent_kits/common/utils.py:66-71 | everything dropped is a duplicate of something kept that is at least as confident |
| Dedupe.KeptConflictFree | agent_kits/common/utils.py:66-71 | no two kept detections are duplicates |
| Dedupe.OrderDoesNotMatter | agent_kits/common/utils.py:69-71 | the result is the same for every permutation of the input |
| Dedupe.DedupeIsIdempotent | agent_kits/common/utils.py:60-86 | de-duplicating twice changes nothing |
| Dedupe.KeptTimes | agent_kits/common/utils.py:73-85 | a kept detection is listed once, or as often as in the input if it is no duplicate of itself |
| Dedupe.SelfConflictMeans | agent_kits/common/utils.py:76-83 | a detection is a duplicate of its copies iff the threshold is at most 0, or at most 1 and the box has an area |
| Dedupe.CopiesCollapseExactly | agent_kits/common/utils.py:60-86 | the result depends only on which detections there are iff every kept one is a duplicate of itself |
| Dedupe.MergeDetectionSets | agent_kits/common/utils.py:89-98 | the merge keeps what de-duplicating the concatenation keeps |
| Dedupe.MergeOfCover | agent_kits/orchestration/merge_outputs.py:41-43 | lists that together cover a list, with any overlap, order and copies, merge into exactly its de-duplication |
| Dedupe.MergeExactly | agent_kits/orchestration/merge_outputs.py:41-43 | lists drawn from a list merge into its de-duplication iff they miss nothing it keeps |
| Dedupe.SameKeptExactly | agent_kits/common/utils.py:60-86 | two lists de-duplicate to the same iff each has what is kept of the other |
| Dedupe.MergeIsNotAssociative | agent_kits/common/utils.py:89-98 | merging part of a conflict chain first loses a detection |
| Dedupe.MergeInStagesExactly | agent_kits/common/utils.py:89-98 | merging a part first gives the merge of all iff everything kept of all is kept of the part or comes from the other lists |
| Rounding.RoundMonotone | agent_kits/orchestration/parent_orchestrator.py:51-52 | rounding to decimals keeps the order of numbers |
| Rounding.RoundFixes | agent_kits/orchestration/parent_orchestrator.py:51-52 | exactly the numbers on the decimal grid stay |
| Rounding.RoundIntReflects | agent_kits/orchestration/parent_orchestrator.py:71-72 | rounding half to even commutes with reflection in an even number |
| Rounding.RoundIntExactly | agent_kits/orchestration/parent_orchestrator.py:51-52 | the nearest whole number, and of two equally near the even one |
| Rounding.RoundToExactly | agent_kits/orchestration/parent_orchestrator.py:51-52 | the nearest multiple of the unit, and of two equally near the even one |
| Partition.PartitionTimeWindows | agent_kits/orchestration/parent_orchestrator.py:33-53 | refuses exactly a count below 1 or an overlap outside [0, 1); otherwise returns that many windows, each the rounded one |
| Partition.WindowInNumbers | agent_kits/orchestration/parent_orchestrator.py:44-52 | a window reaches from the overlap's part of an equal share before its share to as much behind it, cut off at the ends of the span, each end rounded to six decimals |
| Partition.WindowsCover | agent_kits/orchestration/parent_orchestrator.py:48-52 | the windows together are exactly the interval between the rounded ends |
| Partition.SpanCovered | agent_kits/orchestration/parent_orchestrator.py:36-52 | all of [start, end] is covered iff rounding moves neither end inwards |
| Partition.PartitionTiles | agent_kits/orchestration/parent_orchestrator.py:56-74 | refuses exactly a grid without columns or rows; otherwise returns the grid row by row |
| Partition.TileGridMeans | agent_kits/orchestration/parent_orchestrator.py:65-73 | the grid holds exactly the tile of every column and row |
| Partition.TileInNumbers | agent_kits/orchestration/parent_orchestrator.py:62-73 | a tile reaches from the overlap's part of an equal share of columns and rows before its share to as much behind it, cut off at the frame; its start and its size are rounded to four decimals |
| Partition.TileEnds | agent_kits/orchestration/parent_orchestrator.py:67-72 | for any overlap, negative ones included, a tile stays in the frame in spite of two roundings; if the overlap is not negative, the first starts at 0 and the last ends exactly at the edge |
| Partition.SeamWidth | agent_kits/orchestration/parent_orchestrator.py:67-72 | for any overlap, the distance between neighbouring tiles is that of the unrounded pieces within 1.5e-4 |
| Partition.SeamIsNarrow | agent_kits/orchestration/parent_orchestrator.py:67-72 | neighbours are at most 1e-4 apart, and meet if tiles are whole pixels or the pad exceeds a quarter of 1e-4 |
| Partition.TilesCover | agent_kits/orchestration/parent_orchestrator.py:63-73 | a coordinate of the frame is on a tile, strictly inside a seam, or, only with a negative overlap, before the first tile or beyond the last; with an overlap of at least 0 the tiles of a seamless grid are exactly the frame |
| Partition.TilesCoverExactly | agent_kits/orchestration/parent_orchestrator.py:63-73 | for any overlap the tiles cover the frame iff the first starts at 0, each other starts there too or no later than some earlier one or the frame ends, and some tile reaches the end |
| Partition.GaplessWithOverlap | agent_kits/orchestration/parent_orchestrator.py:63-73 | for an overlap of at least 0: iff each but the first starts no later than some earlier one ends |
| Partition.SeamlessIsGapless | agent_kits/orchestration/parent_orchestrator.py:67-72 | which they do if tiles are whole pixels or the pad exceeds a quarter of 1e-4 |
| Partition.OpenSeam | agent_kits/orchestration/parent_orchestrator.py:67-72 | a grid without overlap and a coordinate that no tile has |
| Orchestrator.RunInference | agent_kits/common/adapters.py:198-211 | one detection for each object of each frame, in order |
| Orchestrator.FramesInOrder | agent_kits/common/adapters.py:143-154 | the frames of a window are those of the video within it, by time and at one time by index |
| Orchestrator.ProcessPartition | agent_kits/orchestration/child_worker_template.py:35-65 | the child's output is the sorted, filtered list, and its counts say so |
| Orchestrator.ChildReports | agent_kits/orchestration/child_worker_template.py:27-49 | a child reports exactly the detections inside its window with their centre on its tile |
| Orchestrator.ReportInOrder | agent_kits/orchestration/child_worker_template.py:35-49 | the same on the fields: a child reports, forwards in time as the timeline orders fields, exactly what the video shows within both bounds of its window and with its centre within all four edges of its tile |
| Orchestrator.BuildPartitions | agent_kits/orchestration/parent_orchestrator.py:97-125 | fails exactly for unsound splits; otherwise every window with every tile, in order |
| Orchestrator.PartitionsInNumbers | agent_kits/orchestration/parent_orchestrator.py:102-125 | the partitions are every window with every tile, those of the cut where there is one and the request's own where there is none |
| Orchestrator.VideoInNumbers | agent_kits/orchestration/parent_orchestrator.py:85-95 | the span is that of the frames' times and the frame size the largest of any frame, or 1 |
| Orchestrator.MergeRunOutputs | agent_kits/orchestration/merge_outputs.py:31-74 | refuses exactly the empty list; the merged detections and the summary's counts |
| Orchestrator.FramesAddUp | agent_kits/orchestration/merge_outputs.py:45-46 | the frames processed are the sum of the parts' |
| Orchestrator.SomePartition | agent_kits/orchestration/parent_orchestrator.py:133-138 | a run always has a partition, so it never meets the merge's error |
| Orchestrator.Run | agent_kits/orchestration/parent_orchestrator.py:127-141 | the chain of loops returns what the specification of the run says, never more detections than the children had |
| PartitionedRun.ChildrenReport | agent_kits/orchestration/parent_orchestrator.py:110-137 | the children together report exactly the detections in some window and on some tile |
| PartitionedRun.PartitionedEqualsWhole | agent_kits/orchestration/parent_orchestrator.py:127-141 | a run cut into windows and tiles reports exactly what the uncut run reports |
| PartitionedRun.PartitioningLosesNothingExactly | agent_kits/orchestration/parent_orchestrator.py:97-141 | for every request, with its own window and tile or without: it does so iff each detection the uncut run reports is in some window and on some tile of the cut, and each the cut run reports is in the window and on the tile requested |
| PartitionedRun.SplitIsSafeExactly | agent_kits/orchestration/parent_orchestrator.py:97-141 | before any model has run: the cut run equals the uncut one for all boxes that the frames can hold iff at every frame's time and every point of it the cut sees exactly what was requested |
| PartitionedRun.SafeByFrames | agent_kits/orchestration/parent_orchestrator.py:97-125 | which comes down to the frames' times and the grid's numbers: requested frames are reached and covered by the grid, and no other frame is reached unless the grid's tiles are all empty |
| PartitionedRun.PlainSplitIsSafeExactly | agent_kits/orchestration/parent_orchestrator.py:97-141 | for requests without window or tile: iff rounding moves neither end of the video inwards and the grid has no gap |
| PartitionedRun.SeamLosesDetection | agent_kits/orchestration/parent_orchestrator.py:67-72 | without tile overlap a detection can be lost between two tiles |
| PartitionedRun.RequestHonouredExactly | agent_kits/orchestration/parent_orchestrator.py:103-114 | for a request with a window, a tile or both, cut by a split that alone loses nothing: the cut run answers it like the uncut run iff everything the run reports without what the split replaces was requested |
| PartitionedRun.RequestedWindowLost | agent_kits/orchestration/parent_orchestrator.py:103-104 | a request for later seconds that is answered with an earlier car |
| Critic.FindMatch | agent_kits/orchestration/critic_review.py:96-108 | the scan returns the first free candidate of the class, within 1e-9 of the time, with an overlap of the threshold or more, or none if there is none |
| Critic.MatchTells | agent_kits/orchestration/critic_review.py:70-81 | each primary detection in turn gets the first such candidate that none before it got, and goes without only where there is none |
| Critic.SecondaryModelValidation | agent_kits/orchestration/critic_review.py:70-93 | the report is that of the greedy matching: its size, the ratio, and the unmatched of both lists in order |
| Critic.RatioTells | agent_kits/orchestration/critic_review.py:90 | the ratio is the share of the primary detections that were matched, to four decimals, and 0 without any |
| Critic.OthersPlace | agent_kits/orchestration/critic_review.py:80-81 | the unmatched keep the order of their list |
| Critic.MatchIsMaximal | agent_kits/orchestration/critic_review.py:70-81 | the matching is one-to-one, pairs only compatible detections, and leaves no compatible pair unmatched |
| Critic.AtLeastHalf | agent_kits/orchestration/critic_review.py:70-81 | no valid matching is more than twice as large |
| Critic.GreedyIsNotOptimal | agent_kits/orchestration/critic_review.py:70-81 | and one can be twice as large |
| Critic.GreedyIsLargestExactly | agent_kits/orchestration/critic_review.py:70-81 | the greedy matching is the largest iff no path of compatible pairs, alternately taken and free, augments it |
| Critic.UnambiguousIsLargest | agent_kits/orchestration/critic_review.py:70-81 | which none does if no secondary detection is compatible with two primary ones, or no primary one with two secondary ones |
| Matching.LargestExactly | agent_kits/orchestration/critic_review.py:70-81 | Berge's theorem for two sides: a matching is the largest iff no alternating path augments it |
| Critic.CountsAddUp | agent_kits/orchestration/critic_review.py:83-93 | agreed plus primary-only is the primary count, agreed plus secondary-only the secondary count |
| Critic.FullAgreement | agent_kits/orchestration/critic_review.py:70-93 | primary detections without duplicates that all occur in the secondary list are all agreed on, whatever else it holds |
| Critic.SameModelAgrees | agent_kits/orchestration/critic_review.py:51-93 | reviewing a run, cut or not, with a model that sees the same reports full agreement, if nothing it reports lies outside the window requested |
| Tiling.Step | custom_model/onnx_inference.py:193-194 | the step is at least 1, at most the tile, and the tile itself exactly without overlap |
| Tiling.GenerateTiles | custom_model/onnx_inference.py:187-205 | the loops yield the tiles of the specification, row by row, empty regions left out |
| Tiling.TilesInNumbers | custom_model/onnx_inference.py:191-205 | the tiles are exactly those that start, along each axis, at the multiples in front of the last pixel of one spacing, the largest whole number that is at most tile * (1 - overlap), or 1 where that is 0, cut off at the edge and not empty |
| Tiling.TilesInOrder | custom_model/onnx_inference.py:196-205 | they are listed row by row and from left to right, none twice |
| Tiling.NeighboursShare | custom_model/onnx_inference.py:193-194 | where the spacing is not forced to 1, full neighbouring tiles share at least overlap * tile pixels and less than one more |
| Tiling.TilesInside | custom_model/onnx_inference.py:200-205 | every tile is non-empty, inside the frame and no larger than asked for |
| Tiling.PixelCoverage | custom_model/onnx_inference.py:193-205 | a pixel is in some tile unless, without overlap, it is in a last row or column whose index is a positive multiple of the step |
| Tiling.AxisHoldsExactly | custom_model/onnx_inference.py:193-201 | along an axis of any length, with overlap, every stretch of a length fits in a tile iff it is at most tile - step + 1 or the axis is no longer than a tile |
| Tiling.SmallObjectsSeenWhole | custom_model/onnx_inference.py:187-205 | an object no larger than that is wholly inside some tile |
| Nms.NonMaximumSuppression | custom_model/onnx_inference.py:441-451 | the loop keeps what the specification keeps |
| Nms.SuppressionMeans | custom_model/onnx_inference.py:441-451 | the scores do not rise, no two kept ones of one label overlap by the threshold or more, and each one left out does so with a kept one of its label and no lower score |
| Nms.SuppressionIsIdempotent | custom_model/onnx_inference.py:441-451 | suppressing twice changes nothing |
| Nms.OrderMattersExactly | custom_model/onnx_inference.py:388-393 | every order in which tiles report gives the same result iff no two different detections of one score are both left unsuppressed by what is kept of higher scores |
| Nms.OrderOfTilesDoesNotMatter | custom_model/onnx_inference.py:388-393 | in particular without ties in score |
| Nms.TiesDependOnOrder | custom_model/onnx_inference.py:445-450 | with ties it does |
| Nms.PixelIouAgrees | custom_model/onnx_inference.py:425-438 | the detector's overlap is that of the kits on all integer boxes, degenerate ones included |
| Greedy.MarksSolve | agent_kits/common/utils.py:73-85 | the greedy pass keeps an element iff no earlier kept one conflicts |
| Greedy.SolutionUnique | agent_kits/common/utils.py:73-85 | no other choice of elements has that property |
| RateLimiter.Limiter.RateLimited | dvsa_api/api/mcp_router.py:42-51 | the deque always holds the accepted requests of the window that ends now; refuses exactly when they are at the limit; other keys stay |
| RateLimiter.NeverMoreThanMax | dvsa_api/api/mcp_router.py:36-51 | no interval of 60 seconds, ends included, ever holds more than 120 accepted requests |
| RateLimiter.RefusedExactly | dvsa_api/api/mcp_router.py:46-50 | a request is refused iff exactly 120 accepted ones lie in the 60 seconds that end with it |

## Left out

- Execution.Executor.RunMission: requires replies whose status is one the adapters declare, and a family of tasks with finitely many names that agents, called as its tasks can call them, do not ask beyond (`Termination.Closed`); the executor checks neither. Without either, waves end only by the deadline, and on a standing clock not at all (`Deadline.DeadlineBoundsWaves`, `Unbounded.FollowupsNeverEnd`, `OneTask.PendingAnswersNeverEnd`).
- Execution.Executor.RunWave: takes the tasks of a wave one after the other, which is one of the interleavings; what all interleavings share is proved on `Protocol`. Adding a task to the graph is one step there; the source tests for the id and inserts in two operations that nothing joins (`dvsa_api/mcp/planner.py:60-63`), so that two tasks do not race for one id is assumed.
- Confluence.WaveConfluence: compares interleavings that draw the same candidate lists; `Interleavings.ConfluentExactly` has no such condition.
- Interleavings.WaveConfluenceExactly: is about all interleavings, those of a pool with a thread for each task of the wave. A smaller pool (`max_concurrency`, `dvsa_api/mcp/executor.py:103`) has fewer: what holds of all holds of them, but they may agree where not all do. The same goes for the other statements that interleavings differ.
- Missions.MissionConfluence: the condition on waves is sufficient, and in each wave exact. Its runs share one load function of the number of tasks scheduled; under load_aware the source reads latencies observed so far, which also depend on which calls have finished, so that two interleavings may see different loads.
- Execution.Executor.SpawnFollowups: follow-ups are well-formed records; one without the operations of a mapping would raise where its id is read (`dvsa_api/mcp/executor.py:223`), outside the inner handler, and send the finished task back into its retry loop. Numbers that cannot be converted are ignored by the source and are not modelled.
- Execution.Executor.RunTask: bounds the time spent in calls and pauses; the time between them is the clock's drift, which has no bound.
- Meaning.RunMeansDag: is about missions without follow-ups, cancellation or timeout, where the graph and the lists drawn have a meaning; `RunsIffDependenciesSucceed` and `Ledger.RunRetryBound` need no such condition on follow-ups, nor the second on cancellation.
- PartitionedRun.PartitionedEqualsWhole: the conditions are sufficient; the exact ones are in `PartitioningLosesNothingExactly` and `SplitIsSafeExactly`. All three are for boxes with an area and a threshold of at most 1, or any boxes and a threshold of at most 0.
- PartitionedRun.SafeByFrames: is for requests without a tile of their own and frames of at least one pixel; `SplitIsSafeExactly` has no such condition.
- RateLimiter.Limiter.RateLimited: assumes that requests come one at a time with times that do not go back; the source reads the clock before it takes the lock (`dvsa_api/api/mcp_router.py:43-44`), so that its times are in the order of the calls is assumed, not provided.
- Partition.SeamIsNarrow: is for overlaps of at least 0, and so is SeamlessIsGapless; with negative ones, which only `partition_tiles` accepts, tiles are as far apart as `SeamWidth` says.
- Critic.SameModelAgrees: the condition is sufficient; a detection outside the window can still agree with one at most 1e-9 seconds away inside it.
- Planner.PlanMission: models templates as parsed records; the mission's own fields are parameters of a run, and a template that is not an object, and values that cannot be converted to numbers, are not modelled.
- Session.SessionManager.CreateMission: the id, which the source generates where the template has none, is a parameter.
- Threads that outlive their deadline: a timed-out call has no later effect in the model.
- Loading agents, allow-lists and health: an agent's loading error is part of its reply, the allow-list a field of its manifest; the message bus, metrics other than the three counters, and persistence hooks are not modelled.
- Payloads, result bodies and contexts are opaque text; `type` of a task is text.
- `pause`, `resume` and `escalate` are recorded only, as in the source.
- Floating-point error and NaN: times, boxes, confidences and overlaps are real numbers; a rounded time printed and read back is the same number.
- Provenance, model versions, run ids, trace ids and wall-clock stamps of outputs; by-class counts and time spans of summaries.
- Video decoding and inference: a video is its frames and the objects the model sees on each; resizing, thresholds and box scaling inside the detector are not modelled.
- Human-review sampling, which is Python's seeded random choice.
- Web views, storage, Azure and MLflow code, JSON-RPC, aggregation and batching, which would only add easy members.
