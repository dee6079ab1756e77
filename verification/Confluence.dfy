/** A wave's outcome does not depend on how its tasks interleave, follow-ups included. */
module Confluence {
  import opened Options
  import opened Tasks
  import opened Attempts
  import opened Protocol
  import opened Safety
  import opened Lists
  import opened Counting
  import opened Outcomes
  import opened Prediction
  import opened Progress

  /** The follow-ups a finished task asks for. */
  function Emits(n: Node): seq<Followup> {
    if n.result.Some? then FollowupsOf(n.result.value) else []
  }

  /** The task that the first of `fs` with this id asks for. */
  function Named(env: Env, parent: Node, fs: seq<Followup>, id: Id): Option<Task> {
    if fs == [] then None
    else if FollowupId(parent, fs[0]) == id then Some(FollowupTask(env, parent, fs[0]))
    else Named(env, parent, fs[1..], id)
  }

  lemma {:induction false} NamedAppend(env: Env, parent: Node, fs: seq<Followup>, f: Followup, id: Id)
    ensures Named(env, parent, fs + [f], id) ==
      if Named(env, parent, fs, id).Some? then Named(env, parent, fs, id)
      else if FollowupId(parent, f) == id then Some(FollowupTask(env, parent, f)) else None
  {
    hide FollowupTask, FollowupId;
    if fs == [] {
    } else {
      assert (fs + [f])[1..] == fs[1..] + [f];
      NamedAppend(env, parent, fs[1..], f, id);
    }
  }

  lemma {:induction false} NamedPrefix(env: Env, parent: Node, fs: seq<Followup>, k: nat, id: Id)
    requires k <= |fs| && Named(env, parent, fs[..k], id).Some?
    ensures Named(env, parent, fs, id) == Named(env, parent, fs[..k], id)
  {
    hide FollowupTask, FollowupId;
    if FollowupId(parent, fs[0]) != id {
      assert fs[..k][1..] == fs[1..][..k - 1];
      NamedPrefix(env, parent, fs[1..], k - 1, id);
    }
  }

  /** How many of its follow-ups a task has added. */
  function Added(n: Node, w: Worker): int {
    match w
    case Spawning(reply, rest) => |FollowupsOf(reply)| - |rest|
    case Returned => |Emits(n)|
    case _ => 0
  }

  predicate PlaceOk(n: Node, w: Worker) {
    w.Spawning? ==>
      |w.rest| <= |FollowupsOf(w.reply)| && w.rest == FollowupsOf(w.reply)[|FollowupsOf(w.reply)| - |w.rest|..]
  }

  /** The task of the wave has added (or found already there) a follow-up with this id. */
  predicate HasAdded(env: Env, n: Node, w: Worker, id: Id) {
    0 <= Added(n, w) <= |Emits(n)| && Named(env, n, Emits(n)[..Added(n, w)], id).Some?
  }

  predicate AddedAt(env: Env, s: Sys, w: Id, id: Id)
    requires Active(s, w)
  {
    HasAdded(env, s.graph.nodes[w], s.phase.workers[w], id)
  }

  /** The task that a task of the wave will ask for under this id, when it ends. */
  function NamedAt(env: Env, lists: map<Id, seq<Name>>, s0: Sys, w: Id, id: Id): Option<Task>
    requires Active(s0, w)
  {
    var n := PredictedAt(env, lists, s0, w);
    Named(env, n, Emits(n), id)
  }

  /** Tasks of the wave that ask for the same new id ask for the same task. */
  ghost predicate Agreeing(env: Env, lists: map<Id, seq<Name>>, s0: Sys) {
    forall w, v, id :: Active(s0, w) && Active(s0, v) && id !in s0.graph.nodes ==> SameTask(env, lists, s0, w, v, id)
  }

  predicate SameTask(env: Env, lists: map<Id, seq<Name>>, s0: Sys, w: Id, v: Id, id: Id)
    requires Active(s0, w) && Active(s0, v)
  {
    NamedAt(env, lists, s0, w, id).Some? && NamedAt(env, lists, s0, v, id).Some?
    ==> NamedAt(env, lists, s0, w, id) == NamedAt(env, lists, s0, v, id)
  }

  /** What the task asks for is what those who came before it under the same new ids asked for. */
  ghost predicate AgreesSoFar(env: Env, lists: map<Id, seq<Name>>, s0: Sys, s: Sys, mover: Id) {
    forall v, id :: Active(s0, mover) && Active(s0, v) && Active(s, v) && id !in s0.graph.nodes ==>
                      AddedAt(env, s, v, id) ==> SameTask(env, lists, s0, v, mover, id)
  }

  lemma AgreeingSoFar(env: Env, lists: map<Id, seq<Name>>, s0: Sys, s: Sys, mover: Id)
    requires Agreeing(env, lists, s0)
    ensures AgreesSoFar(env, lists, s0, s, mover)
  {
    hide SameTask, AddedAt;
  }

  /** The wave goes on, every task towards its predicted end. */
  ghost predicate OnTrack(env: Env, lists: map<Id, seq<Name>>, s0: Sys, s: Sys) {
    && s0.phase.InWave? && s.phase.InWave? && s.phase.workers.Keys == s0.phase.workers.Keys <= s0.graph.nodes.Keys
    && forall w :: Active(s0, w) ==>
         && Active(s, w) && PredictedAt(env, lists, s, w) == PredictedAt(env, lists, s0, w)
         && PlaceOk(s.graph.nodes[w], s.phase.workers[w])
  }

  /** The rest of the graph is the old one plus the follow-ups added so far. */
  ghost predicate OldNodesKept(s0: Sys, s: Sys) {
    forall id :: id in s0.graph.nodes ==>
                   id in s.graph.nodes && (!Active(s0, id) ==> s.graph.nodes[id] == s0.graph.nodes[id])
  }

  ghost predicate NewNodesFrom(env: Env, s0: Sys, s: Sys) {
    && (forall id :: id in s.graph.nodes && id !in s0.graph.nodes ==>
                       exists w :: Active(s0, w) && Active(s, w) && AddedAt(env, s, w, id))
    && (forall w, id :: Active(s0, w) && Active(s, w) && AddedAt(env, s, w, id) ==>
          && id in s.graph.nodes
          && (id !in s0.graph.nodes ==>
                Some(s.graph.nodes[id].task) == Named(env, s.graph.nodes[w], Emits(s.graph.nodes[w]), id)
                                        && Fresh(s.graph.nodes[id])))
  }

  ghost predicate WaveInv(env: Env, lists: map<Id, seq<Name>>, s0: Sys, s: Sys) {
    OnTrack(env, lists, s0, s) && OldNodesKept(s0, s) && NewNodesFrom(env, s0, s)
  }

  // ----- moves that add nothing -----

  /** The next move of this task adds a follow-up. */
  predicate AboutToAdd(s: Sys, id: Id) {
    Active(s, id) && s.phase.workers[id].Spawning? && s.phase.workers[id].rest != []
  }

  lemma QuietMove(env: Env, s: Sys, mover: Id)
    requires Contract(env) && Inv(s) && Active(s, mover) && !AboutToAdd(s, mover)
    requires PlaceOk(s.graph.nodes[mover], s.phase.workers[mover])
    ensures
      var t := MoveTask(env, s, mover);
      && Active(t, mover) && t.graph.nodes.Keys == s.graph.nodes.Keys
      && PlaceOk(t.graph.nodes[mover], t.phase.workers[mover])
      && (t.graph.nodes[mover] == s.graph.nodes[mover] || Added(s.graph.nodes[mover], s.phase.workers[mover]) == 0)
      && Added(t.graph.nodes[mover], t.phase.workers[mover]) == Added(s.graph.nodes[mover], s.phase.workers[mover])
  {
    hide Upstream, DepsDone, CandidatesAt, Invoke, FollowupsOf, FollowupTask, GraphOk;
    assert NodeOk(s, mover);
  }

  /** Such a move leaves everybody's added follow-ups as they were. */
  lemma QuietAdds(env: Env, s: Sys, mover: Id, w: Id, id: Id)
    requires Contract(env) && Inv(s) && Active(s, mover) && !AboutToAdd(s, mover)
    requires PlaceOk(s.graph.nodes[mover], s.phase.workers[mover]) && Active(s, w)
    ensures Active(MoveTask(env, s, mover), w)
    ensures AddedAt(env, MoveTask(env, s, mover), w, id) <==> AddedAt(env, s, w, id)
    ensures AddedAt(env, s, w, id) ==> MoveTask(env, s, mover).graph.nodes[w] == s.graph.nodes[w]
  {
    hide Inv, MoveTask, Named, FollowupTask;
    QuietMove(env, s, mover);
    if w != mover {
      MoveIsLocal(env, s, mover, w);
    } else {
      var n, m := s.graph.nodes[w], MoveTask(env, s, mover).graph.nodes[w];
      if m != n {
        assert Emits(n)[..0] == [] && Emits(m)[..0] == [];
        NamedNone(env, n, id);
        NamedNone(env, m, id);
      }
    }
  }

  lemma NamedNone(env: Env, n: Node, id: Id)
    ensures Named(env, n, [], id) == None
  {
  }

  lemma TrackMove(env: Env, lists: map<Id, seq<Name>>, s0: Sys, s: Sys, mover: Id)
    requires Contract(env) && Draws(env, lists, s, Move(mover)) && Inv(s) && !s.cancelled
    requires OnTrack(env, lists, s0, s) && Active(s, mover) && Active(s0, mover)
    ensures OnTrack(env, lists, s0, MoveTask(env, s, mover))
  {
    hide Inv, Draws, Contract, MoveTask, PredictedAt;
    var t := MoveTask(env, s, mover);
    MovedKeys(env, s, mover);
    forall w | Active(s0, w)
      ensures Active(t, w) && PredictedAt(env, lists, t, w) == PredictedAt(env, lists, s0, w)
      ensures PlaceOk(t.graph.nodes[w], t.phase.workers[w])
    {
      MovePredicted(env, lists, s, mover, w);
      if w == mover { PlaceMove(env, s, mover); } else { MoveIsLocal(env, s, mover, w); }
    }
  }

  lemma PlaceMove(env: Env, s: Sys, mover: Id)
    requires Active(s, mover) && PlaceOk(s.graph.nodes[mover], s.phase.workers[mover])
    ensures Active(MoveTask(env, s, mover), mover)
    ensures PlaceOk(MoveTask(env, s, mover).graph.nodes[mover], MoveTask(env, s, mover).phase.workers[mover])
  {
    hide Upstream, CandidatesAt, FollowupTask, Invoke, FollowupsOf;
    if s.phase.workers[mover].Spawning? {
      SpawnPlace(env, s, mover);
    } else {
      hide Spawn;
    }
  }

  lemma SpawnPlace(env: Env, s: Sys, mover: Id)
    requires Active(s, mover) && s.phase.workers[mover].Spawning?
    requires PlaceOk(s.graph.nodes[mover], s.phase.workers[mover])
    ensures Active(Spawn(env, s, mover), mover)
    ensures PlaceOk(Spawn(env, s, mover).graph.nodes[mover], Spawn(env, s, mover).phase.workers[mover])
  {
    hide FollowupTask, FollowupsOf;
    var w := s.phase.workers[mover];
    if w.rest != [] {
      var all := FollowupsOf(w.reply);
      assert w.rest[1..] == all[|all| - |w.rest[1..]|..];
    }
  }

  lemma OldMove(env: Env, s0: Sys, s: Sys, mover: Id)
    requires Contract(env) && Inv(s) && OldNodesKept(s0, s) && Active(s0, mover)
    ensures OldNodesKept(s0, MoveTask(env, s, mover))
  {
    hide Inv, MoveTask;
    MoveKeeps(env, s, mover);
    forall id | id in s0.graph.nodes && id != mover { MoveIsLocal(env, s, mover, id); }
  }

  lemma QuietNew(env: Env, lists: map<Id, seq<Name>>, s0: Sys, s: Sys, mover: Id)
    requires Contract(env) && Inv(s) && OnTrack(env, lists, s0, s) && NewNodesFrom(env, s0, s)
    requires Active(s0, mover) && Active(s, mover) && !AboutToAdd(s, mover)
    ensures NewNodesFrom(env, s0, MoveTask(env, s, mover))
  {
    hide Inv, MoveTask, Contract, AddedAt, PredictedAt, Fresh, Named, Emits;
    var t := MoveTask(env, s, mover);
    QuietMove(env, s, mover);
    forall id | id in t.graph.nodes && id !in s0.graph.nodes
      ensures exists w :: Active(s0, w) && Active(t, w) && AddedAt(env, t, w, id)
    {
      var w :| Active(s0, w) && Active(s, w) && AddedAt(env, s, w, id);
      QuietAdds(env, s, mover, w, id);
      assert Active(s0, w) && Active(t, w) && AddedAt(env, t, w, id);
    }
    forall w, id | Active(s0, w) && Active(t, w) && AddedAt(env, t, w, id)
      ensures id in t.graph.nodes
      ensures id !in s0.graph.nodes ==>
        Some(t.graph.nodes[id].task) == Named(env, t.graph.nodes[w], Emits(t.graph.nodes[w]), id)
          && Fresh(t.graph.nodes[id])
    {
      QuietAdds(env, s, mover, w, id);
      if id !in s0.graph.nodes { MoveIsLocal(env, s, mover, id); }
    }
  }

  // ----- the move that adds a follow-up -----

  /** A task that has added something is at its predicted end, and would name that id there too. */
  lemma AddedIsPredicted(env: Env, lists: map<Id, seq<Name>>, s: Sys, w: Id, id: Id)
    requires Active(s, w) && AddedAt(env, s, w, id)
    ensures
      var n := s.graph.nodes[w];
      && PredictedAt(env, lists, s, w) == n
      && Named(env, n, Emits(n), id) == Named(env, n, Emits(n)[..Added(n, s.phase.workers[w])], id)
      && Named(env, n, Emits(n), id).Some?
  {
    var n := s.graph.nodes[w];
    NamedPrefix(env, n, Emits(n), Added(n, s.phase.workers[w]), id);
  }

  /** What adding a follow-up does: one more of the task's follow-ups counts as added, and its node is there. */
  lemma SpawnAdds(env: Env, s: Sys, mover: Id, id: Id)
    requires Inv(s) && AboutToAdd(s, mover) && PlaceOk(s.graph.nodes[mover], s.phase.workers[mover])
    ensures
      var n, f := s.graph.nodes[mover], s.phase.workers[mover].rest[0];
      var t := Spawn(env, s, mover);
      && Active(t, mover) && t.graph.nodes[mover] == n
      && (AddedAt(env, t, mover, id) <==> AddedAt(env, s, mover, id) || id == FollowupId(n, f))
      && (AddedAt(env, t, mover, id) && !AddedAt(env, s, mover, id) ==>
            Named(env, n, Emits(n), id) == Some(FollowupTask(env, n, f)))
  {
    hide GraphOk, Upstream, DepsDone, FollowupTask, FollowupId;
    assert NodeOk(s, mover);
    var n, w := s.graph.nodes[mover], s.phase.workers[mover];
    var t := Spawn(env, s, mover);
    var all, k := Emits(n), Added(n, w);
    assert w.rest[0] == all[k];
    assert all[..k + 1] == all[..k] + [all[k]];
    NamedAppend(env, n, all[..k], all[k], id);
    assert Added(n, t.phase.workers[mover]) == k + 1;
    if Named(env, n, all[..k + 1], id).Some? { NamedPrefix(env, n, all, k + 1, id); }
  }

  lemma SpawnNodeAdded(env: Env, s: Sys, mover: Id, id: Id)
    requires Inv(s) && AboutToAdd(s, mover)
    ensures
      var n, f := s.graph.nodes[mover], s.phase.workers[mover].rest[0];
      var t := Spawn(env, s, mover);
      && (id in t.graph.nodes <==> id in s.graph.nodes || id == FollowupId(n, f))
      && (id in s.graph.nodes ==> t.graph.nodes[id] == s.graph.nodes[id])
      && (id in t.graph.nodes && id !in s.graph.nodes ==> t.graph.nodes[id] == FreshNode(FollowupTask(env, n, f)))
      && (forall w :: w != mover && Active(s, w) ==> Active(t, w) && t.phase.workers[w] == s.phase.workers[w])
  {
    hide GraphOk, NodeOk;
  }

  /** A task that adds a new id that another has added asks for the task that is there. */
  lemma OneTask(env: Env, lists: map<Id, seq<Name>>, s0: Sys, s: Sys, v: Id, w: Id, id: Id)
    requires AgreesSoFar(env, lists, s0, s, w) && OnTrack(env, lists, s0, s)
    requires Active(s0, v) && Active(s0, w) && Active(s, v) && Active(s, w) && id !in s0.graph.nodes
    requires AddedAt(env, s, v, id)
    requires s.phase.workers[w].Spawning? && Named(env, s.graph.nodes[w], Emits(s.graph.nodes[w]), id).Some?
    ensures Named(env, s.graph.nodes[v], Emits(s.graph.nodes[v]), id)
            == Named(env, s.graph.nodes[w], Emits(s.graph.nodes[w]), id)
  {
    hide Named, AddedAt, Emits;
    AddedIsPredicted(env, lists, s, v, id);
    assert PredictedAt(env, lists, s, w) == s.graph.nodes[w];
    hide PredictedAt;
    assert SameTask(env, lists, s0, v, w, id);
  }

  lemma SpawnNew(env: Env, lists: map<Id, seq<Name>>, s0: Sys, s: Sys, mover: Id)
    requires Inv(s) && OnTrack(env, lists, s0, s) && NewNodesFrom(env, s0, s) && AgreesSoFar(env, lists, s0, s, mover)
    requires Active(s0, mover) && AboutToAdd(s, mover)
    ensures NewNodesFrom(env, s0, Spawn(env, s, mover))
  {
    hide Inv, Spawn, AddedAt, PredictedAt, Named, Emits, AgreesSoFar, FollowupTask, FollowupId;
    var t := Spawn(env, s, mover);
    SpawnNodeAdded(env, s, mover, mover);
    forall id | id in t.graph.nodes && id !in s0.graph.nodes
      ensures exists w :: Active(s0, w) && Active(t, w) && AddedAt(env, t, w, id)
    {
      SpawnNodeAdded(env, s, mover, id);
      SpawnAdds(env, s, mover, id);
      if id in s.graph.nodes {
        var w :| Active(s0, w) && Active(s, w) && AddedAt(env, s, w, id);
        SpawnOthers(env, s, mover, w, id);
        assert Active(s0, w) && Active(t, w) && AddedAt(env, t, w, id);
      } else {
        assert Active(s0, mover) && Active(t, mover) && AddedAt(env, t, mover, id);
      }
    }
    forall w, id | Active(s0, w) && Active(t, w) && AddedAt(env, t, w, id)
      ensures id in t.graph.nodes
      ensures id !in s0.graph.nodes ==>
        Some(t.graph.nodes[id].task) == Named(env, t.graph.nodes[w], Emits(t.graph.nodes[w]), id)
          && Fresh(t.graph.nodes[id])
    {
      SpawnOwned(env, lists, s0, s, mover, w, id);
    }
  }

  /** Nobody loses an added follow-up. */
  lemma SpawnOthers(env: Env, s: Sys, mover: Id, w: Id, id: Id)
    requires Inv(s) && AboutToAdd(s, mover) && Active(s, w) && PlaceOk(s.graph.nodes[mover], s.phase.workers[mover])
    ensures Active(Spawn(env, s, mover), w) && Spawn(env, s, mover).graph.nodes[w] == s.graph.nodes[w]
    ensures AddedAt(env, s, w, id) ==> AddedAt(env, Spawn(env, s, mover), w, id)
    ensures w != mover ==> (AddedAt(env, s, w, id) <==> AddedAt(env, Spawn(env, s, mover), w, id))
  {
    hide Inv, Spawn, Named, Emits, FollowupTask, FollowupId;
    SpawnNodeAdded(env, s, mover, w);
    SpawnAdds(env, s, mover, id);
  }

  lemma SpawnOwned(env: Env, lists: map<Id, seq<Name>>, s0: Sys, s: Sys, mover: Id, w: Id, id: Id)
    requires Inv(s) && OnTrack(env, lists, s0, s) && NewNodesFrom(env, s0, s) && AgreesSoFar(env, lists, s0, s, mover)
    requires Active(s0, mover) && AboutToAdd(s, mover) && Active(s0, w)
    requires Active(Spawn(env, s, mover), w) && AddedAt(env, Spawn(env, s, mover), w, id)
    ensures
      var t := Spawn(env, s, mover);
      && id in t.graph.nodes
      && (id !in s0.graph.nodes ==>
            Some(t.graph.nodes[id].task) == Named(env, t.graph.nodes[w], Emits(t.graph.nodes[w]), id)
              && Fresh(t.graph.nodes[id]))
  {
    hide Inv, Spawn, AddedAt, PredictedAt, Named, Emits, AgreesSoFar, FollowupTask, FollowupId;
    SpawnOthers(env, s, mover, w, id);
    SpawnNodeAdded(env, s, mover, id);
    if !AddedAt(env, s, w, id) {
      SpawnAdds(env, s, mover, id);
      if id in s.graph.nodes && id !in s0.graph.nodes {
        var v :| Active(s0, v) && Active(s, v) && AddedAt(env, s, v, id);
        OneTask(env, lists, s0, s, v, mover, id);
      }
    }
  }

  // ----- whole waves -----

  lemma MoveWaveInv(env: Env, lists: map<Id, seq<Name>>, s0: Sys, s: Sys, mover: Id)
    requires Contract(env) && Draws(env, lists, s, Move(mover)) && AgreesSoFar(env, lists, s0, s, mover)
    requires Inv(s) && !s.cancelled && WaveInv(env, lists, s0, s)
    ensures WaveInv(env, lists, s0, MoveTask(env, s, mover))
  {
    hide Inv, OldNodesKept, NewNodesFrom, Draws, Contract, PredictedAt, AgreesSoFar, MoveTask;
    if Active(s, mover) && Active(s0, mover) {
      TrackMove(env, lists, s0, s, mover);
      OldMove(env, s0, s, mover);
      if AboutToAdd(s, mover) {
        SpawnNew(env, lists, s0, s, mover);
        MoveSpawns(env, s, mover);
      } else {
        QuietNew(env, lists, s0, s, mover);
      }
    } else {
      NoMove(env, lists, s0, s, mover);
    }
  }

  lemma MoveSpawns(env: Env, s: Sys, mover: Id)
    requires AboutToAdd(s, mover)
    ensures MoveTask(env, s, mover) == Spawn(env, s, mover)
  {
  }

  /** A follow-up of this wave is not part of it. */
  lemma NoMove(env: Env, lists: map<Id, seq<Name>>, s0: Sys, s: Sys, mover: Id)
    requires Inv(s) && OnTrack(env, lists, s0, s) && !(Active(s, mover) && Active(s0, mover))
    ensures MoveTask(env, s, mover) == s
  {
    hide NodeOk, GraphOk, PredictedAt;
  }

  /** Events inside a wave: tasks move, time passes. */
  predicate WaveEvents(events: seq<Event>) {
    forall e :: e in events ==> e.Move? || e.Tick?
  }

  lemma TickWaveInv(env: Env, lists: map<Id, seq<Name>>, s0: Sys, s: Sys, ms: nat)
    requires WaveInv(env, lists, s0, s)
    ensures WaveInv(env, lists, s0, Next(env, s, Tick(ms)))
  {
    hide Predicted, HasAdded, Named, Emits;
    var t := Next(env, s, Tick(ms));
    assert forall w :: Active(s, w) <==> Active(t, w);
    assert forall w, id :: Active(s, w) ==> AddedAt(env, t, w, id) == AddedAt(env, s, w, id);
    forall id | id in t.graph.nodes && id !in s0.graph.nodes
      ensures exists w :: Active(s0, w) && Active(t, w) && AddedAt(env, t, w, id)
    {
      var w :| Active(s0, w) && Active(s, w) && AddedAt(env, s, w, id);
      assert Active(s0, w) && Active(t, w) && AddedAt(env, t, w, id);
    }
  }

  lemma {:induction false} RunWaveInv(env: Env, lists: map<Id, seq<Name>>, s0: Sys, s: Sys, events: seq<Event>)
    requires Contract(env) && AsDrawn(env, lists, s, events) && Agreeing(env, lists, s0)
    requires Inv(s) && !s.cancelled && WaveInv(env, lists, s0, s) && WaveEvents(events)
    ensures WaveInv(env, lists, s0, Run(env, s, events))
    decreases |events|
  {
    hide Inv, WaveInv, Draws, Contract, Agreeing, AgreesSoFar, MoveTask;
    if events != [] {
      var e := events[0];
      if e.Move? {
        AgreeingSoFar(env, lists, s0, s, e.id);
        MoveWaveInv(env, lists, s0, s, e.id);
        MoveInWaveOnly(env, s, e.id);
      } else {
        TickWaveInv(env, lists, s0, s, e.ms);
      }
      NextKeeps(env, s, e);
      RunWaveInv(env, lists, s0, Next(env, s, e), events[1..]);
    }
  }

  lemma StartsOnTrack(env: Env, lists: map<Id, seq<Name>>, s: Sys)
    requires Inv(s) && s.phase.Looping?
    ensures WaveInv(env, lists, StartWave(s), StartWave(s))
  {
    hide GraphOk, PredictedAt, IsReady;
    var s0 := StartWave(s);
    forall w, id | Active(s0, w) ensures !AddedAt(env, s0, w, id) {
      NamedNone(env, s0.graph.nodes[w], id);
      assert Emits(s0.graph.nodes[w])[..0] == [];
    }
  }

  /** A task of the wave that has returned is at its predicted end, all its follow-ups added. */
  lemma ReturnedEnd(env: Env, lists: map<Id, seq<Name>>, s0: Sys, t: Sys, w: Id)
    requires WaveInv(env, lists, s0, t) && Active(s0, w) && t.phase.workers[w].Returned?
    ensures Active(t, w) && t.graph.nodes[w] == PredictedAt(env, lists, s0, w)
    ensures forall id :: AddedAt(env, t, w, id) <==> Named(env, t.graph.nodes[w], Emits(t.graph.nodes[w]), id).Some?
  {
    hide OldNodesKept, NewNodesFrom, Named, Drive, TryAll, Upstream;
    var n := t.graph.nodes[w];
    assert Emits(n)[..|Emits(n)|] == Emits(n);
  }

  /** A node at the end of a wave is at the end of any other interleaving of it, the same. */
  lemma SameEnd(env: Env, lists: map<Id, seq<Name>>, s0: Sys, t: Sys, u: Sys, id: Id)
    requires WaveInv(env, lists, s0, t) && AllReturned(t.phase.workers) && Inv(t)
    requires WaveInv(env, lists, s0, u) && AllReturned(u.phase.workers) && Inv(u)
    requires id in t.graph.nodes
    ensures id in u.graph.nodes && u.graph.nodes[id] == t.graph.nodes[id]
  {
    hide Named, PredictedAt, AddedAt, Emits, NodeOk;
    if Active(s0, id) {
      ReturnedEnd(env, lists, s0, t, id);
      ReturnedEnd(env, lists, s0, u, id);
    } else if id !in s0.graph.nodes {
      var w :| Active(s0, w) && Active(t, w) && AddedAt(env, t, w, id);
      ReturnedEnd(env, lists, s0, t, w);
      ReturnedEnd(env, lists, s0, u, w);
    }
  }

  /** Each task of the wave has ended as its own uncancelled tries say. */
  ghost predicate EndedAsTried(env: Env, lists: map<Id, seq<Name>>, s: Sys, t: Sys) {
    forall id :: id in ReadyIds(s.graph) ==>
      && id in t.graph.nodes
      && t.graph.nodes[id] == TryAll(env, Upstream(s.graph, s.graph.nodes[id].task), ListOf(lists, id),
                                     s.graph.nodes[id].(status := Running)).node
  }

  lemma AllAreReturned(env: Env, lists: map<Id, seq<Name>>, s0: Sys, t: Sys, w: Id)
    requires WaveInv(env, lists, s0, t) && AllReturned(t.phase.workers) && Active(s0, w)
    ensures w in t.phase.workers && t.phase.workers[w].Returned?
  {
  }

  lemma WaveEndsAsTried(env: Env, lists: map<Id, seq<Name>>, s: Sys, t: Sys)
    requires Inv(s) && s.phase.Looping? && WaveInv(env, lists, StartWave(s), t) && AllReturned(t.phase.workers)
    ensures EndedAsTried(env, lists, s, t)
  {
    hide Inv, WaveInv, TryAll, Upstream, PredictedAt, AllReturned, IsReady;
    forall id | id in ReadyIds(s.graph)
      ensures
        && id in t.graph.nodes
        && t.graph.nodes[id] == TryAll(env, Upstream(s.graph, s.graph.nodes[id].task), ListOf(lists, id),
                                       s.graph.nodes[id].(status := Running)).node
    {
      PredictedAtStart(env, lists, s, id);
      AllAreReturned(env, lists, StartWave(s), t, id);
      ReturnedEnd(env, lists, StartWave(s), t, id);
    }
  }

  /** All tasks of the wave have returned, and the wave has not been left yet. */
  predicate WaveOver(t: Sys) {
    t.phase.InWave? && AllReturned(t.phase.workers)
  }

  /**
   * Confluence: any two interleavings of a wave that let every task return, and in which each task draws the
   * same candidates, end with the same nodes, follow-ups included, and the same counters; and each task of the
   * wave ends as its own uncancelled tries say.
   */
  lemma WaveConfluence(base: Counters, env: Env, lists: map<Id, seq<Name>>, s: Sys, a: seq<Event>, b: seq<Event>)
    requires Contract(env) && Agreeing(env, lists, StartWave(s))
    requires Inv(s) && s.phase.Looping? && !s.cancelled && Counted(base, s) && WaveEvents(a) && WaveEvents(b)
    requires AsDrawn(env, lists, StartWave(s), a) && AsDrawn(env, lists, StartWave(s), b)
    requires WaveOver(Run(env, StartWave(s), a)) && WaveOver(Run(env, StartWave(s), b))
    ensures
      var t, u := Run(env, StartWave(s), a), Run(env, StartWave(s), b);
      && t.graph.nodes == u.graph.nodes
      && t.counters == u.counters
      && EndedAsTried(env, lists, s, t)
  {
    var t, u := Run(env, StartWave(s), a), Run(env, StartWave(s), b);
    WaveEndsOnTrack(env, lists, s, a);
    WaveEndsOnTrack(env, lists, s, b);
    WaveEndsCounted(base, env, s, a);
    WaveEndsCounted(base, env, s, b);
    hide Run, Inv, WaveInv, Counted, AsDrawn, Contract, Agreeing, EndedAsTried, AllReturned, StartWave;
    SameNodes(env, lists, StartWave(s), t, u);
    SameCounters(base, t, u);
    WaveEndsAsTried(env, lists, s, t);
  }

  lemma SameNodes(env: Env, lists: map<Id, seq<Name>>, s0: Sys, t: Sys, u: Sys)
    requires WaveInv(env, lists, s0, t) && AllReturned(t.phase.workers) && Inv(t)
    requires WaveInv(env, lists, s0, u) && AllReturned(u.phase.workers) && Inv(u)
    ensures t.graph.nodes == u.graph.nodes
  {
    hide Inv, AllReturned, OnTrack, OldNodesKept, NewNodesFrom;
    forall id | id in t.graph.nodes ensures id in u.graph.nodes && u.graph.nodes[id] == t.graph.nodes[id] {
      SameEnd(env, lists, s0, t, u, id);
    }
    forall id | id in u.graph.nodes ensures id in t.graph.nodes {
      SameEnd(env, lists, s0, u, t, id);
    }
  }

  lemma WaveEndsOnTrack(env: Env, lists: map<Id, seq<Name>>, s: Sys, events: seq<Event>)
    requires Contract(env) && AsDrawn(env, lists, StartWave(s), events) && Agreeing(env, lists, StartWave(s))
    requires Inv(s) && s.phase.Looping? && !s.cancelled && WaveEvents(events)
    ensures
      var t := Run(env, StartWave(s), events);
      WaveInv(env, lists, StartWave(s), t) && Inv(t)
  {
    hide Run, WaveInv, AsDrawn, Contract, Agreeing;
    Between(s);
    StartKeeps(s);
    StartsOnTrack(env, lists, s);
    RunWaveInv(env, lists, StartWave(s), StartWave(s), events);
    RunKeeps(env, StartWave(s), events);
  }

  lemma WaveEndsCounted(base: Counters, env: Env, s: Sys, events: seq<Event>)
    requires Contract(env) && Inv(s) && s.phase.Looping? && Counted(base, s)
    ensures Counted(base, Run(env, StartWave(s), events))
  {
    hide Run, Contract, Counted;
    Between(s);
    StartKeeps(s);
    StartCounts(base, s);
    RunCounts(base, env, StartWave(s), events);
  }

  lemma SameCounters(base: Counters, t: Sys, u: Sys)
    requires Counted(base, t) && Counted(base, u) && t.graph.nodes == u.graph.nodes && Inv(t) && Inv(u)
    requires t.phase.InWave? && AllReturned(t.phase.workers) && u.phase.InWave? && AllReturned(u.phase.workers)
    ensures t.counters == u.counters
  {
    hide GraphOk, WorkerOk;
    assert WithReply(t.graph) == WithReply(u.graph) && Wronged(t.graph) == Wronged(u.graph);
    forall id | id in t.graph.nodes ensures HasBegun(t, id) == HasBegun(u, id) {
      assert NodeOk(t, id) && NodeOk(u, id);
      ReturnedBegan(t, id);
      ReturnedBegan(u, id);
    }
    assert Begun(t) == Begun(u);
  }

  lemma ReturnedBegan(t: Sys, id: Id)
    requires id in t.graph.nodes && NodeOk(t, id) && t.phase.InWave? && AllReturned(t.phase.workers)
    ensures HasBegun(t, id) <==>
            t.graph.nodes[id].result.Some? || (t.graph.nodes[id].error.Some? && FromRun(t.graph.nodes[id].error.value))
  {
  }

  lemma PredictedAtStart(env: Env, lists: map<Id, seq<Name>>, s: Sys, id: Id)
    requires Inv(s) && s.phase.Looping? && id in ReadyIds(s.graph)
    ensures
      var s0 := StartWave(s);
      && Active(s0, id)
      && PredictedAt(env, lists, s0, id) ==
           TryAll(env, Upstream(s.graph, s.graph.nodes[id].task), ListOf(lists, id),
                  s.graph.nodes[id].(status := Running)).node
  {
    hide GraphOk, TryAll;
    Between(s);
    DepsUntouched(s.graph, StartWave(s).graph, s.graph.nodes[id].task);
  }

  // ----- waves whose candidates are fixed -----

  lemma {:induction false} FixedAsDrawn(env: Env, lists: map<Id, seq<Name>>, g: Graph, s: Sys, events: seq<Event>)
    requires Contract(env) && Inv(s) && Grows(g, s.graph) && s.phase.InWave?
    requires Fixed(env, lists, g, s.phase.workers.Keys) && WaveEvents(events)
    ensures AsDrawn(env, lists, s, events)
    decreases |events|
  {
    hide Inv, Contract, MoveTask, AlwaysDraws, Grows;
    if events != [] {
      var e := events[0];
      var t := Next(env, s, e);
      if Begins(s, e) { FixedDraws(env, lists, g, s.phase.workers.Keys, s, e.id); }
      if e.Move? && Active(s, e.id) { MovedKeys(env, s, e.id); }
      assert t.phase.InWave? && t.phase.workers.Keys == s.phase.workers.Keys by {
        if e.Move? && !Active(s, e.id) { StaysPut(env, s, e.id); }
      }
      NextKeeps(env, s, e);
      GrowsTrans(g, s.graph, t.graph);
      FixedAsDrawn(env, lists, g, t, events[1..]);
    }
  }

  /** A wave whose own tasks have fixed candidates ends the same in all its interleavings. */
  lemma FixedWaveConfluence(base: Counters, env: Env, lists: map<Id, seq<Name>>, s: Sys, a: seq<Event>, b: seq<Event>)
    requires Contract(env) && Fixed(env, lists, s.graph, ReadyIds(s.graph)) && Agreeing(env, lists, StartWave(s))
    requires Inv(s) && s.phase.Looping? && !s.cancelled && Counted(base, s) && WaveEvents(a) && WaveEvents(b)
    requires WaveOver(Run(env, StartWave(s), a)) && WaveOver(Run(env, StartWave(s), b))
    ensures
      var t, u := Run(env, StartWave(s), a), Run(env, StartWave(s), b);
      && t.graph.nodes == u.graph.nodes
      && t.counters == u.counters
      && EndedAsTried(env, lists, s, t)
  {
    Between(s);
    StartKeeps(s);
    assert StartWave(s).phase.workers.Keys == ReadyIds(s.graph);
    hide *;
    FixedAsDrawn(env, lists, s.graph, StartWave(s), a);
    FixedAsDrawn(env, lists, s.graph, StartWave(s), b);
    WaveConfluence(base, env, lists, s, a, b);
  }
}
