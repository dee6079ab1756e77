/** What the mission's deadline does: it is looked at before every wave, whatever the agents answer. */
module Deadline {
  import opened Tasks
  import opened Attempts
  import opened Protocol

  lemma NoWave(env: Env, s: Sys, e: Event)
    requires !(e.Advance? && StartsWave(s))
    ensures Next(env, s, e).waves == s.waves
  {
  }

  lemma TimeGoesOn(env: Env, s: Sys, e: Event)
    ensures s.clock <= Next(env, s, e).clock && Next(env, s, e).deadline == s.deadline
  {
  }

  /** Once the deadline has passed no wave starts any more. */
  lemma {:induction false} NoWavePastDeadline(env: Env, s: Sys, events: seq<Event>)
    requires s.clock > s.deadline
    ensures Run(env, s, events).waves == s.waves
    decreases |events|
  {
    if events != [] {
      NoWave(env, s, events[0]);
      TimeGoesOn(env, s, events[0]);
      hide Next;
      NoWavePastDeadline(env, Next(env, s, events[0]), events[1..]);
    }
  }

  /** Every wave finds the clock at least `gap` past `last`, and then past the wave before. */
  predicate Spaced(env: Env, s: Sys, events: seq<Event>, last: int, gap: nat)
    decreases |events|
  {
    events == [] ||
    var starts := events[0].Advance? && StartsWave(s);
    (starts ==> s.clock >= last + gap)
      && Spaced(env, Next(env, s, events[0]), events[1..], if starts then s.clock else last, gap)
  }

  /** A wave's worth of time fits between `last` and the deadline for each wave made. */
  lemma {:induction false} DeadlineBoundsWaves(env: Env, s: Sys, events: seq<Event>, last: int, gap: nat)
    requires Spaced(env, s, events, last, gap) && last <= s.deadline
    ensures (Run(env, s, events).waves - s.waves) * gap <= s.deadline - last
    decreases |events|
  {
    if events != [] {
      var e, t := events[0], Next(env, s, events[0]);
      TimeGoesOn(env, s, e);
      if e.Advance? && StartsWave(s) {
        OneWave(s);
        hide Next, StartsWave;
        DeadlineBoundsWaves(env, t, events[1..], s.clock, gap);
        var left := Run(env, t, events[1..]).waves - t.waves;
        assert (left + 1) * gap == left * gap + gap;
      } else {
        NoWave(env, s, e);
        hide Next, StartsWave;
        DeadlineBoundsWaves(env, t, events[1..], last, gap);
      }
    }
  }

  lemma OneWave(s: Sys)
    requires StartsWave(s)
    ensures MainStep(s).waves == s.waves + 1 && s.clock <= s.deadline
  {
    hide GraphDone, ReadyIds;
  }

  /**
   * For all agents: if each wave takes at least `gap`, a mission started with a timeout makes at most
   * timeout / gap + 1 waves.
   */
  lemma TimeoutBoundsWaves(env: Env, g: Graph, c: Counters, rr: map<string, nat>, now: int, timeoutMs: int,
                           events: seq<Event>, gap: nat)
    requires Spaced(env, Start(g, c, rr, false, now, timeoutMs), events, now - gap, gap)
    ensures
      var t := Run(env, Start(g, c, rr, false, now, timeoutMs), events);
      if timeoutMs < 0 then t.waves == 0 else t.waves * gap <= timeoutMs + gap
  {
    var s := Start(g, c, rr, false, now, timeoutMs);
    if timeoutMs < 0 {
      NoWavePastDeadline(env, s, events);
    } else {
      DeadlineBoundsWaves(env, s, events, now - gap, gap);
    }
  }
}
