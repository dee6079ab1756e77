/** Exactly when all interleavings of a wave end the same. */
module Interleavings {
  import opened Options
  import opened Tasks
  import opened Attempts
  import opened Protocol
  import opened Safety
  import opened Lists
  import opened Outcomes
  import opened Prediction
  import opened Progress
  import opened Confluence

  /** Every interleaving of the wave draws these lists. */
  ghost predicate AllDraw(env: Env, lists: map<Id, seq<Name>>, s0: Sys) {
    forall events :: WaveEvents(events) ==> AsDrawn(env, lists, s0, events)
  }

  /** Any two interleavings that let every task of the wave return end with the same nodes. */
  ghost predicate SameEnds(env: Env, s0: Sys) {
    forall a, b :: (WaveEvents(a) && WaveEvents(b) && WaveOver(Run(env, s0, a)) && WaveOver(Run(env, s0, b))
                    ==> Run(env, s0, a).graph.nodes == Run(env, s0, b).graph.nodes)
  }

  // ----- one task first -----

  ghost predicate OthersSubmitted(s0: Sys, s: Sys, w: Id) {
    forall v :: Active(s0, v) && v != w ==> Active(s, v) && s.phase.workers[v].Submitted?
  }

  /** As long as only one task has moved, nobody else has added anything. */
  lemma SoloSoFar(env: Env, lists: map<Id, seq<Name>>, s0: Sys, s: Sys, w: Id)
    requires OthersSubmitted(s0, s, w)
    ensures AgreesSoFar(env, lists, s0, s, w)
  {
    hide PredictedAt;
    forall v, id | Active(s0, w) && Active(s0, v) && Active(s, v) && AddedAt(env, s, v, id) && id !in s0.graph.nodes
      ensures SameTask(env, lists, s0, v, w, id)
    {
      if v != w { NothingAdded(env, s, v, id); }
    }
  }

  lemma NothingAdded(env: Env, s: Sys, v: Id, id: Id)
    requires Active(s, v) && s.phase.workers[v].Submitted?
    ensures !AddedAt(env, s, v, id)
  {
    NamedNone(env, s.graph.nodes[v], id);
    assert Emits(s.graph.nodes[v])[..0] == [];
  }

  lemma {:induction false} SoloWaveInv(env: Env, lists: map<Id, seq<Name>>, s0: Sys, s: Sys, w: Id, events: seq<Event>)
    requires Contract(env) && AsDrawn(env, lists, s, events) && Alone(events, w)
    requires Inv(s) && !s.cancelled && WaveInv(env, lists, s0, s) && OthersSubmitted(s0, s, w)
    ensures WaveInv(env, lists, s0, Run(env, s, events))
    decreases |events|
  {
    if events != [] {
      AloneRest(events, w);
      var t := MoveTask(env, s, w);
      SoloSoFar(env, lists, s0, s, w);
      hide WaveInv, Draws, Contract, AgreesSoFar, MoveTask, Inv, Alone;
      MoveWaveInv(env, lists, s0, s, w);
      MoveInWaveOnly(env, s, w);
      MoveKeeps(env, s, w);
      forall v | Active(s0, v) && v != w
        ensures Active(t, v) && t.phase.workers[v].Submitted?
      {
        MoveIsLocal(env, s, w, v);
      }
      SoloWaveInv(env, lists, s0, t, w, events[1..]);
    }
  }

  /** The wave can be run so that this task's follow-ups are the ones that are added. */
  lemma FirstAsks(env: Env, lists: map<Id, seq<Name>>, s: Sys, w: Id, id: Id) returns (events: seq<Event>)
    requires Contract(env) && Inv(s) && s.phase.Looping? && !s.cancelled && AllFated(env, lists, StartWave(s))
    requires Active(StartWave(s), w) && id !in s.graph.nodes && NamedAt(env, lists, StartWave(s), w, id).Some?
    ensures WaveEvents(events) && WaveOver(Run(env, StartWave(s), events))
    ensures
      var t := Run(env, StartWave(s), events);
      id in t.graph.nodes && Some(t.graph.nodes[id].task) == NamedAt(env, lists, StartWave(s), w, id)
  {
    var s0 := StartWave(s);
    Between(s);
    StartKeeps(s);
    assert OthersSubmitted(s0, s0, w) && !s0.cancelled && id !in s0.graph.nodes;
    hide Inv, Contract, StartWave, WaveInv, OthersSubmitted, AllReturned, PredictedAt, Run, AllFated, SameFate;
    var first, drawn := SoloRun(env, lists, s, w);
    var t := Run(env, s0, first);
    SameFateNamed(env, lists, drawn, s0, w, id);
    Asked(env, drawn, s0, t, w, id);
    var rest := WaveCanEnd(env, t);
    events := first + rest;
    RunAppend(env, s0, first, rest);
    hide Run, Grows, NamedAt;
  }

  lemma SoloRun(env: Env, lists: map<Id, seq<Name>>, s: Sys, w: Id)
    returns (events: seq<Event>, drawn: map<Id, seq<Name>>)
    requires Contract(env) && Inv(s) && s.phase.Looping? && !s.cancelled && AllFated(env, lists, StartWave(s))
    requires Active(StartWave(s), w) && OthersSubmitted(StartWave(s), StartWave(s), w)
    ensures WaveEvents(events) && SameFate(env, lists, drawn, StartWave(s))
    ensures
      var t := Run(env, StartWave(s), events);
      Inv(t) && WaveInv(env, drawn, StartWave(s), t) && Active(t, w) && t.phase.workers[w].Returned?
  {
    var s0 := StartWave(s);
    Between(s);
    StartKeeps(s);
    assert !s0.cancelled;
    hide Inv, Contract, WaveInv, OthersSubmitted, AsDrawn, Run, Grows, OthersWait, StartWave, AllFated, SameFate;
    events := TaskCanEnd(env, map[w := DrawnBy(env, s0, w)], s0, w);
    assert WaveEvents(events);
    drawn := lists + Drawn(env, s0, events);
    DrawnFated(env, lists, s0, events);
    StartsOnTrack(env, drawn, s);
    SoloWaveInv(env, drawn, s0, s0, w, events);
  }

  lemma Asked(env: Env, lists: map<Id, seq<Name>>, s0: Sys, t: Sys, w: Id, id: Id)
    requires WaveInv(env, lists, s0, t) && Active(s0, w) && Active(t, w) && t.phase.workers[w].Returned?
    requires id !in s0.graph.nodes && NamedAt(env, lists, s0, w, id).Some?
    ensures id in t.graph.nodes && Some(t.graph.nodes[id].task) == NamedAt(env, lists, s0, w, id)
  {
    hide Named, AddedAt, Emits, PredictedAt;
    ReturnedEnd(env, lists, s0, t, w);
    assert AddedAt(env, t, w, id);
  }

  // ----- tasks whose end does not depend on the list they draw -----

  /** The tasks of the wave are headed for the same ends under both. */
  ghost predicate SameFate(env: Env, lists: map<Id, seq<Name>>, drawn: map<Id, seq<Name>>, s0: Sys) {
    forall w :: Active(s0, w) ==> PredictedAt(env, drawn, s0, w) == PredictedAt(env, lists, s0, w)
  }

  /** Whatever list a task draws in whatever interleaving, it is headed for the end it has under these. */
  ghost predicate AllFated(env: Env, lists: map<Id, seq<Name>>, s0: Sys) {
    forall events :: WaveEvents(events) ==> SameFate(env, lists, lists + Drawn(env, s0, events), s0)
  }

  lemma {:induction false} AsDrawnMore(env: Env, lists: map<Id, seq<Name>>, drawn: map<Id, seq<Name>>, s: Sys,
                                       events: seq<Event>)
    requires AsDrawn(env, drawn, s, events)
    ensures AsDrawn(env, lists + drawn, s, events)
    decreases |events|
  {
    if events != [] {
      hide Next, DrawnBy;
      AsDrawnMore(env, lists, drawn, Next(env, s, events[0]), events[1..]);
    }
  }

  /** An interleaving draws its own lists, and under them all are headed for the same ends. */
  lemma DrawnFated(env: Env, lists: map<Id, seq<Name>>, s0: Sys, events: seq<Event>)
    requires Contract(env) && Inv(s0) && WaveEvents(events) && AllFated(env, lists, s0)
    ensures
      var drawn := lists + Drawn(env, s0, events);
      AsDrawn(env, drawn, s0, events) && SameFate(env, lists, drawn, s0)
  {
    hide Inv, Contract, AsDrawn, Drawn, SameFate;
    DrawnAsDrawn(env, s0, events);
    AsDrawnMore(env, lists, Drawn(env, s0, events), s0, events);
  }

  lemma SameFateNamed(env: Env, lists: map<Id, seq<Name>>, drawn: map<Id, seq<Name>>, s0: Sys, w: Id, id: Id)
    requires SameFate(env, lists, drawn, s0) && Active(s0, w)
    ensures NamedAt(env, drawn, s0, w, id) == NamedAt(env, lists, s0, w, id)
  {
    hide PredictedAt, Named, Emits;
  }

  lemma SameFateAgree(env: Env, lists: map<Id, seq<Name>>, drawn: map<Id, seq<Name>>, s0: Sys)
    requires SameFate(env, lists, drawn, s0) && Agreeing(env, lists, s0)
    ensures Agreeing(env, drawn, s0)
  {
    hide SameFate, NamedAt;
    forall w, v, id | Active(s0, w) && Active(s0, v) && id !in s0.graph.nodes
      ensures SameTask(env, drawn, s0, w, v, id)
    {
      assert SameTask(env, lists, s0, w, v, id);
      SameFateNamed(env, lists, drawn, s0, w, id);
      SameFateNamed(env, lists, drawn, s0, v, id);
    }
  }

  /** When all have returned, it does not matter under which lists they were headed there. */
  lemma SameFateInv(env: Env, lists: map<Id, seq<Name>>, drawn: map<Id, seq<Name>>, s0: Sys, t: Sys)
    requires SameFate(env, lists, drawn, s0) && WaveInv(env, drawn, s0, t) && AllReturned(t.phase.workers)
    ensures WaveInv(env, lists, s0, t)
  {
    hide OldNodesKept, NewNodesFrom;
    forall w | Active(s0, w) ensures PredictedAt(env, lists, t, w) == PredictedAt(env, lists, s0, w) {
      ReturnedThere(env, lists, drawn, t, w);
    }
    hide PredictedAt, PlaceOk;
  }

  lemma ReturnedThere(env: Env, lists: map<Id, seq<Name>>, drawn: map<Id, seq<Name>>, t: Sys, w: Id)
    requires Active(t, w) && t.phase.workers[w].Returned?
    ensures PredictedAt(env, lists, t, w) == PredictedAt(env, drawn, t, w)
  {
  }

  // ----- the exact condition -----

  /**
   * Where no task's end depends on the list it draws: all interleavings of a wave end with the same nodes exactly if
   * tasks of the wave that ask for the same new id ask for the same task.
   */
  lemma FatedConfluenceExactly(env: Env, lists: map<Id, seq<Name>>, s: Sys)
    requires Contract(env) && Inv(s) && s.phase.Looping? && !s.cancelled && AllFated(env, lists, StartWave(s))
    ensures SameEnds(env, StartWave(s)) <==> Agreeing(env, lists, StartWave(s))
  {
    var s0 := StartWave(s);
    if Agreeing(env, lists, s0) {
      AgreeingSuffices(env, lists, s);
    } else {
      var w, v, id :| Active(s0, w) && Active(s0, v) && id !in s0.graph.nodes && !SameTask(env, lists, s0, w, v, id);
      assert id !in s.graph.nodes;
      hide Inv, Contract, StartWave, AllFated, NamedAt, Run;
      var a := FirstAsks(env, lists, s, w, id);
      var b := FirstAsks(env, lists, s, v, id);
      assert Run(env, s0, a).graph.nodes != Run(env, s0, b).graph.nodes;
    }
  }

  lemma AgreeingSuffices(env: Env, lists: map<Id, seq<Name>>, s: Sys)
    requires Contract(env) && Inv(s) && s.phase.Looping? && !s.cancelled && AllFated(env, lists, StartWave(s))
    requires Agreeing(env, lists, StartWave(s))
    ensures SameEnds(env, StartWave(s))
  {
    var s0 := StartWave(s);
    hide Inv, Contract, StartWave, Agreeing, Run, WaveInv, AllReturned, AllFated, WaveEvents;
    forall a, b | WaveEvents(a) && WaveEvents(b) && WaveOver(Run(env, s0, a)) && WaveOver(Run(env, s0, b))
      ensures Run(env, s0, a).graph.nodes == Run(env, s0, b).graph.nodes
    {
      EndsFated(env, lists, s, a);
      EndsFated(env, lists, s, b);
      SameNodes(env, lists, s0, Run(env, s0, a), Run(env, s0, b));
    }
  }

  lemma EndsFated(env: Env, lists: map<Id, seq<Name>>, s: Sys, events: seq<Event>)
    requires Contract(env) && Inv(s) && s.phase.Looping? && !s.cancelled && AllFated(env, lists, StartWave(s))
    requires Agreeing(env, lists, StartWave(s)) && WaveEvents(events) && WaveOver(Run(env, StartWave(s), events))
    ensures WaveInv(env, lists, StartWave(s), Run(env, StartWave(s), events)) && Inv(Run(env, StartWave(s), events))
  {
    var s0 := StartWave(s);
    var drawn := lists + Drawn(env, s0, events);
    Between(s);
    StartKeeps(s);
    hide *;
    DrawnFated(env, lists, s0, events);
    SameFateAgree(env, lists, drawn, s0);
    WaveEndsOnTrack(env, drawn, s, events);
    IsOver(Run(env, s0, events));
    SameFateInv(env, lists, drawn, s0, Run(env, s0, events));
  }

  lemma IsOver(t: Sys)
    requires WaveOver(t)
    ensures t.phase.InWave? && AllReturned(t.phase.workers)
  {
  }

  /** In particular where every interleaving draws the same lists. */
  lemma WaveConfluenceExactly(env: Env, lists: map<Id, seq<Name>>, s: Sys)
    requires Contract(env) && Inv(s) && s.phase.Looping? && !s.cancelled && AllDraw(env, lists, StartWave(s))
    ensures SameEnds(env, StartWave(s)) <==> Agreeing(env, lists, StartWave(s))
  {
    var s0 := StartWave(s);
    hide Inv, Contract, StartWave, SameEnds, Agreeing, AsDrawn, Drawn, SameFate, WaveEvents;
    forall events | WaveEvents(events) ensures SameFate(env, lists, lists + Drawn(env, s0, events), s0) {
      DrawnAreLists(env, lists, s0, events);
      SameLists(lists, Drawn(env, s0, events));
      SelfFate(env, lists, s0);
    }
    FatedConfluenceExactly(env, lists, s);
  }

  lemma SelfFate(env: Env, lists: map<Id, seq<Name>>, s0: Sys)
    ensures SameFate(env, lists, lists, s0)
  {
  }

  lemma SameLists(lists: map<Id, seq<Name>>, drawn: map<Id, seq<Name>>)
    requires forall w :: w in drawn ==> w in lists && lists[w] == drawn[w]
    ensures lists + drawn == lists
  {
  }

  lemma {:induction false} DrawnAreLists(env: Env, lists: map<Id, seq<Name>>, s: Sys, events: seq<Event>)
    requires AsDrawn(env, lists, s, events)
    ensures forall w :: w in Drawn(env, s, events) ==> w in lists && lists[w] == Drawn(env, s, events)[w]
    decreases |events|
  {
    if events != [] {
      hide Next, DrawnBy;
      DrawnAreLists(env, lists, Next(env, s, events[0]), events[1..]);
    }
  }

  // ----- and conversely -----

  /** What an interleaving has drawn it has drawn, however it goes on. */
  lemma {:induction false} DrawnStays(env: Env, s: Sys, a: seq<Event>, b: seq<Event>, w: Id)
    requires w in Drawn(env, s, a)
    ensures w in Drawn(env, s, a + b) && Drawn(env, s, a + b)[w] == Drawn(env, s, a)[w]
    decreases |a|
  {
    if a != [] {
      assert (a + b)[0] == a[0] && (a + b)[1..] == a[1..] + b;
      hide Next, DrawnBy, Begins;
      if w in Drawn(env, Next(env, s, a[0]), a[1..]) { DrawnStays(env, Next(env, s, a[0]), a[1..], b, w); }
    }
  }

  /** At the end of a wave a task is where it was headed under the list it drew. */
  lemma EndsAsDrawn(env: Env, s0: Sys, events: seq<Event>, w: Id)
    requires Contract(env) && Inv(s0) && !s0.cancelled && Active(s0, w) && WaveEvents(events)
    requires WaveOver(Run(env, s0, events))
    ensures w in Run(env, s0, events).graph.nodes
    ensures Run(env, s0, events).graph.nodes[w] == PredictedAt(env, Drawn(env, s0, events), s0, w)
  {
    hide Inv, Contract, Run, Drawn, PredictedAt, AsDrawn;
    DrawnAsDrawn(env, s0, events);
    NeverCancelled(env, s0, events);
    RunPredicted(env, Drawn(env, s0, events), s0, events, w);
  }

  lemma {:induction false} NeverCancelled(env: Env, s: Sys, events: seq<Event>)
    requires WaveEvents(events) && !s.cancelled
    ensures !Run(env, s, events).cancelled
    decreases |events|
  {
    if events != [] {
      var e := events[0];
      if e.Move? { MoveInWaveOnly(env, s, e.id); }
      hide MoveTask;
      NeverCancelled(env, Next(env, s, e), events[1..]);
    }
  }

  /** If all interleavings end the same, no task's end depends on the list it draws. */
  lemma SameEndsFated(env: Env, s0: Sys, e: seq<Event>)
    requires Contract(env) && Inv(s0) && s0.phase.InWave? && !s0.cancelled && SameEnds(env, s0)
    requires WaveEvents(e) && WaveOver(Run(env, s0, e))
    ensures AllFated(env, Drawn(env, s0, e), s0)
  {
    var lists := Drawn(env, s0, e);
    hide Inv, Contract, Run, Drawn, PredictedAt, AllReturned, Grows;
    forall events, w | WaveEvents(events) && Active(s0, w)
      ensures PredictedAt(env, lists + Drawn(env, s0, events), s0, w) == PredictedAt(env, lists, s0, w)
    {
      if w in Drawn(env, s0, events) {
        OneEnd(env, s0, e, events, w);
        ByList(env, lists + Drawn(env, s0, events), Drawn(env, s0, events), s0, w);
      } else {
        ByList(env, lists + Drawn(env, s0, events), lists, s0, w);
      }
    }
    assert AllFated(env, lists, s0);
  }

  lemma ByList(env: Env, lists: map<Id, seq<Name>>, drawn: map<Id, seq<Name>>, s0: Sys, w: Id)
    requires Active(s0, w) && ListOf(lists, w) == ListOf(drawn, w)
    ensures PredictedAt(env, lists, s0, w) == PredictedAt(env, drawn, s0, w)
  {
    hide Predicted;
  }

  lemma OneEnd(env: Env, s0: Sys, e: seq<Event>, events: seq<Event>, w: Id)
    requires Contract(env) && Inv(s0) && s0.phase.InWave? && !s0.cancelled && SameEnds(env, s0)
    requires WaveEvents(e) && WaveOver(Run(env, s0, e)) && WaveEvents(events) && Active(s0, w)
    requires w in Drawn(env, s0, events)
    ensures PredictedAt(env, Drawn(env, s0, events), s0, w) == PredictedAt(env, Drawn(env, s0, e), s0, w)
  {
    var t := Run(env, s0, events);
    hide Inv, Contract, Run, Drawn, PredictedAt, AllReturned, Grows;
    RunKeeps(env, s0, events);
    assert NoAdvance(events);
    WaveStays(env, s0, events);
    var rest := WaveCanEnd(env, t);
    var all := events + rest;
    RunAppend(env, s0, events, rest);
    assert WaveEvents(all);
    DrawnStays(env, s0, events, rest, w);
    ByList(env, Drawn(env, s0, all), Drawn(env, s0, events), s0, w);
    EndsAsDrawn(env, s0, all, w);
    EndsAsDrawn(env, s0, e, w);
  }

  /**
   * Under every policy, and whatever the agents do: all interleavings of a wave end with the same nodes exactly if no
   * task's end depends on which list it draws, and tasks that ask for the same new id ask for the same task.
   */
  lemma ConfluentExactly(env: Env, s: Sys)
    requires Contract(env) && Inv(s) && s.phase.Looping? && !s.cancelled
    ensures SameEnds(env, StartWave(s)) <==>
            exists lists :: AllFated(env, lists, StartWave(s)) && Agreeing(env, lists, StartWave(s))
  {
    var s0 := StartWave(s);
    Between(s);
    StartKeeps(s);
    assert s0.phase.InWave? && !s0.cancelled;
    hide Inv, Contract, StartWave, SameEnds, Agreeing, AllFated, AllReturned, Run, Drawn, Grows;
    if SameEnds(env, s0) {
      var e := WaveCanEnd(env, s0);
      assert WaveEvents(e);
      SameEndsFated(env, s0, e);
      FatedConfluenceExactly(env, Drawn(env, s0, e), s);
    }
    if lists :| AllFated(env, lists, s0) && Agreeing(env, lists, s0) { FatedConfluenceExactly(env, lists, s); }
  }

  /** Lists that depend on the tasks alone are drawn by every interleaving. */
  lemma FixedAllDraw(env: Env, lists: map<Id, seq<Name>>, s: Sys)
    requires Contract(env) && Inv(s) && s.phase.Looping? && Fixed(env, lists, s.graph, ReadyIds(s.graph))
    ensures AllDraw(env, lists, StartWave(s))
  {
    Between(s);
    StartKeeps(s);
    assert StartWave(s).phase.workers.Keys == ReadyIds(s.graph);
    hide Inv, Contract, StartWave, AsDrawn, Fixed, WaveEvents, Grows;
    forall events | WaveEvents(events) ensures AsDrawn(env, lists, StartWave(s), events) {
      FixedAsDrawn(env, lists, s.graph, StartWave(s), events);
    }
  }
}
