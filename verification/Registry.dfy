/** Capability-based agent selection. */
module Registry {
  import opened Division
  import opened Sorting
  import opened Options
  import opened Tasks
  import opened Text

  /** `allowed` is the allow-list's answer for this agent. */
  datatype Manifest = Manifest(name: Name, capabilities: seq<string>, priority: int, latencyHintMs: int,
                               fallbackAgents: seq<Name>, allowed: bool)

  datatype Policy = RoundRobin | LoadAware | LatencyOptimized | HighestPriority | UnknownPolicy

  /** The manifest dictionary in insertion order: names are its keys. */
  ghost predicate Directory(ms: seq<Manifest>) {
    forall i, j :: 0 <= i < j < |ms| ==> ms[i].name != ms[j].name
  }

  function ForCapability(ms: seq<Manifest>, cap: string): seq<Manifest> {
    if ms == [] then []
    else if ms[0].allowed && cap in ms[0].capabilities then [ms[0]] + ForCapability(ms[1..], cap)
    else ForCapability(ms[1..], cap)
  }

  function Names(ms: seq<Manifest>): (r: seq<Name>)
    ensures |r| == |ms|
    ensures forall i :: 0 <= i < |ms| ==> r[i] == ms[i].name
  {
    seq(|ms|, i requires 0 <= i < |ms| => ms[i].name)
  }

  /** Python's `min`: the first of the elements with the least key. */
  function FirstLeast(ms: seq<Manifest>, better: (Manifest, Manifest) -> bool): Manifest
    requires ms != []
  {
    if |ms| == 1 then ms[0]
    else
      var rest := FirstLeast(ms[1..], better);
      if better(rest, ms[0]) then rest else ms[0]
  }

  function FallbacksOf(ms: seq<Manifest>, name: Name): seq<Name> {
    if ms == [] then [] else if ms[0].name == name then ms[0].fallbackAgents else FallbacksOf(ms[1..], name)
  }

  function Count(rr: map<string, nat>, cap: string): nat {
    if cap in rr then rr[cap] else 0
  }

  /** The agent chosen, if any, and the round-robin counters afterwards. `load` is the observed average latency. */
  function Select(ms: seq<Manifest>, rr: map<string, nat>, load: Name -> int, policy: Policy, cap: string)
    : (r: (Option<Name>, map<string, nat>))
  {
    var cs := ForCapability(ms, cap);
    if cs == [] then (None, rr)
    else match policy
      case LatencyOptimized =>
        (Some(FirstLeast(cs, (a: Manifest, b: Manifest) => a.latencyHintMs < b.latencyHintMs).name), rr)
      case HighestPriority => (Some(FirstLeast(cs, (a: Manifest, b: Manifest) =>
          a.priority > b.priority || (a.priority == b.priority && a.latencyHintMs < b.latencyHintMs)).name), rr)
      case LoadAware => (Some(FirstLeast(cs, (a: Manifest, b: Manifest) => load(a.name) < load(b.name)).name), rr)
      case RoundRobin =>
        var names := StableSort(Names(cs), StringLe);
        (Some(names[Count(rr, cap) % |names|]), rr[cap := Count(rr, cap) + 1])
      case UnknownPolicy => (None, rr)
  }

  function AppendNew(names: seq<Name>, ms: seq<Manifest>): seq<Name>
    decreases |ms|
  {
    if ms == [] then names
    else AppendNew(if ms[0].name in names then names else names + [ms[0].name], ms[1..])
  }

  /** Drop later copies, keep order. */
  function Distinct(names: seq<Name>): seq<Name> {
    if names == [] then []
    else
      var front := Distinct(names[..|names| - 1]);
      var last := names[|names| - 1];
      if last in front then front else front + [last]
  }

  /** The preferred agent, or else the one selected for the capability. */
  function FirstChoice(ms: seq<Manifest>, rr: map<string, nat>, load: Name -> int, policy: Policy, task: Task)
    : (Option<Name>, map<string, nat>)
  {
    if task.preferred != "" then (Some(task.preferred), rr)
    else if task.capability != "" then Select(ms, rr, load, policy, task.capability)
    else (None, rr)
  }

  /** The agents to try, in order: first choice, its manifest's fallbacks, everyone with the capability. */
  function Candidates(ms: seq<Manifest>, rr: map<string, nat>, load: Name -> int, policy: Policy, task: Task)
    : (seq<Name>, map<string, nat>)
  {
    var (first, rr') := FirstChoice(ms, rr, load, policy, task);
    var base := if first.Some? then [first.value] + FallbacksOf(ms, first.value) else [];
    (Distinct(if task.capability != "" then AppendNew(base, ForCapability(ms, task.capability)) else base), rr')
  }

  // ----- what is selected -----

  lemma {:induction false} ForCapabilityMembers(ms: seq<Manifest>, cap: string, m: Manifest)
    ensures m in ForCapability(ms, cap) <==> m in ms && m.allowed && cap in m.capabilities
  {
    if ms != [] {
      ForCapabilityMembers(ms[1..], cap, m);
      assert ms == [ms[0]] + ms[1..];
    }
  }

  /** A strict comparison by some key. */
  ghost predicate StrictWeak(better: (Manifest, Manifest) -> bool) {
    && (forall a, b :: better(a, b) ==> !better(b, a))
    && (forall a, b, c :: better(a, b) ==> better(a, c) || better(c, b))
  }

  lemma {:induction false} FirstLeastIsBest(ms: seq<Manifest>, better: (Manifest, Manifest) -> bool)
    requires ms != [] && StrictWeak(better)
    ensures FirstLeast(ms, better) in ms
    ensures forall m :: m in ms ==> !better(m, FirstLeast(ms, better))
  {
    if |ms| > 1 {
      FirstLeastIsBest(ms[1..], better);
      assert ms == [ms[0]] + ms[1..];
      assert ms[1..] != [];
    }
  }

  /** `m` beats every element in front of it. */
  ghost predicate AheadOfRest(ms: seq<Manifest>, better: (Manifest, Manifest) -> bool, m: Manifest) {
    exists i :: 0 <= i < |ms| && ms[i] == m && forall k :: 0 <= k < i ==> better(m, ms[k])
  }

  /** Among equals the one registered first wins. */
  lemma {:induction false} FirstLeastIsFirst(ms: seq<Manifest>, better: (Manifest, Manifest) -> bool)
    requires ms != []
    ensures AheadOfRest(ms, better, FirstLeast(ms, better))
  {
    var best := FirstLeast(ms, better);
    if |ms| > 1 && better(FirstLeast(ms[1..], better), ms[0]) {
      FirstLeastIsFirst(ms[1..], better);
      var i :| 0 <= i < |ms[1..]| && ms[1..][i] == best && forall k :: 0 <= k < i ==> better(best, ms[1..][k]);
      forall k | 0 <= k < i + 1 ensures better(best, ms[k]) {
        if k > 0 { assert ms[k] == ms[1..][k - 1]; }
      }
      assert ms[i + 1] == best;
    } else {
      assert ms[0] == best;
    }
  }

  /** The agent a keyed policy selects comes, among the best of the candidates, first in registration order. */
  lemma TiesGoToTheFirst(ms: seq<Manifest>, rr: map<string, nat>, load: Name -> int, policy: Policy, cap: string)
    requires ForCapability(ms, cap) != [] && !policy.UnknownPolicy? && !policy.RoundRobin?
    ensures exists m :: AheadOfRest(ForCapability(ms, cap), Beats(load, policy), m)
                        && Select(ms, rr, load, policy, cap).0 == Some(m.name)
  {
    var cs := ForCapability(ms, cap);
    var key := match policy
      case LatencyOptimized => ((a: Manifest, b: Manifest) => a.latencyHintMs < b.latencyHintMs)
      case HighestPriority => ((a: Manifest, b: Manifest) =>
          a.priority > b.priority || (a.priority == b.priority && a.latencyHintMs < b.latencyHintMs))
      case _ => ((a: Manifest, b: Manifest) => load(a.name) < load(b.name));
    FirstLeastIsFirst(cs, key);
    var m := FirstLeast(cs, key);
    var i :| 0 <= i < |cs| && cs[i] == m && forall k :: 0 <= k < i ==> key(m, cs[k]);
    forall k | 0 <= k < i ensures Beats(load, policy)(m, cs[k]) { assert key(m, cs[k]); }
    assert AheadOfRest(cs, Beats(load, policy), m);
  }

  /** The strict comparison behind a keyed policy. */
  function Beats(load: Name -> int, policy: Policy): (Manifest, Manifest) -> bool {
    (a: Manifest, b: Manifest) => match policy
      case LatencyOptimized => a.latencyHintMs < b.latencyHintMs
      case HighestPriority => a.priority > b.priority || (a.priority == b.priority && a.latencyHintMs < b.latencyHintMs)
      case LoadAware => load(a.name) < load(b.name)
      case _ => false
  }

  /** Whatever the policy, an agent is selected exactly when the policy is known and somebody offers the capability. */
  lemma SelectPicksACandidate(ms: seq<Manifest>, rr: map<string, nat>, load: Name -> int, policy: Policy, cap: string)
    ensures
      var (name, rr') := Select(ms, rr, load, policy, cap);
      && (name.Some? <==> !policy.UnknownPolicy? && exists m :: m in ms && m.allowed && cap in m.capabilities)
      && (name.Some? ==>
            exists m :: m in ms && m.allowed && cap in m.capabilities && m.name == name.value
                        && Best(ms, load, policy, cap, m))
      && (forall other :: other != cap ==> Count(rr', other) == Count(rr, other))
  {
    var cs := ForCapability(ms, cap);
    forall m ensures m in cs <==> m in ms && m.allowed && cap in m.capabilities { ForCapabilityMembers(ms, cap, m); }
    if cs == [] {
      return;
    }
    assert cs[0] in cs;
    match policy
    case LatencyOptimized =>
      FirstLeastIsBest(cs, (a: Manifest, b: Manifest) => a.latencyHintMs < b.latencyHintMs);
    case HighestPriority =>
      FirstLeastIsBest(cs, (a: Manifest, b: Manifest) =>
        a.priority > b.priority || (a.priority == b.priority && a.latencyHintMs < b.latencyHintMs));
    case LoadAware =>
      FirstLeastIsBest(cs, (a: Manifest, b: Manifest) => load(a.name) < load(b.name));
    case RoundRobin =>
      var names := StableSort(Names(cs), StringLe);
      var name := names[Count(rr, cap) % |names|];
      SortMembers(Names(cs), StringLe, name);
      var i :| 0 <= i < |cs| && Names(cs)[i] == name;
      assert cs[i] in cs;
    case UnknownPolicy =>
  }

  /** No candidate is better by the policy's own measure; round-robin has none. */
  ghost predicate Best(ms: seq<Manifest>, load: Name -> int, policy: Policy, cap: string, m: Manifest) {
    forall other :: other in ForCapability(ms, cap) ==>
      match policy
      case LatencyOptimized => m.latencyHintMs <= other.latencyHintMs
      case HighestPriority => other.priority < m.priority
        || (other.priority == m.priority && m.latencyHintMs <= other.latencyHintMs)
      case LoadAware => load(m.name) <= load(other.name)
      case _ => true
  }

  // ----- candidate lists -----

  lemma {:induction false} DistinctIs(names: seq<Name>)
    ensures NoDup(Distinct(names))
    ensures forall x :: x in Distinct(names) <==> x in names
    ensures names != [] ==> Distinct(names) != [] && Distinct(names)[0] == names[0]
  {
    if names != [] {
      var front, last := names[..|names| - 1], names[|names| - 1];
      DistinctIs(front);
      assert names == front + [last];
    }
  }

  lemma {:induction false} DistinctPrefix(front: seq<Name>, names: seq<Name>)
    requires front <= names
    ensures Distinct(front) <= Distinct(names)
    decreases |names|
  {
    if |front| < |names| {
      DistinctPrefix(front, names[..|names| - 1]);
    } else {
      assert front == names;
    }
  }

  lemma {:induction false} AppendNewIs(names: seq<Name>, ms: seq<Manifest>)
    ensures names <= AppendNew(names, ms)
    ensures forall x :: x in AppendNew(names, ms) <==> x in names || exists m :: m in ms && m.name == x
    decreases |ms|
  {
    if ms != [] {
      var next := if ms[0].name in names then names else names + [ms[0].name];
      AppendNewIs(next, ms[1..]);
      assert ms == [ms[0]] + ms[1..];
      forall x ensures x in AppendNew(names, ms) <==> x in names || exists m :: m in ms && m.name == x {
        if m :| m in ms && m.name == x {
          if m == ms[0] { assert x in next; } else { assert m in ms[1..]; }
        }
        if x in AppendNew(next, ms[1..]) && x !in next {
          var m :| m in ms[1..] && m.name == x;
          assert m in ms;
        }
        if x in next && x !in names { assert ms[0] in ms && ms[0].name == x; }
      }
    }
  }

  /**
   * The candidate list: nobody twice; the first choice first, then its declared fallbacks in their order;
   * in all exactly these and every allowed agent that advertises the capability.
   */
  lemma CandidateList(ms: seq<Manifest>, rr: map<string, nat>, load: Name -> int, policy: Policy, task: Task)
    ensures
      var (first, _) := FirstChoice(ms, rr, load, policy, task);
      var (list, _) := Candidates(ms, rr, load, policy, task);
      && NoDup(list)
      && (first.Some? ==> list != [] && list[0] == first.value)
      && (first.Some? ==> Distinct([first.value] + FallbacksOf(ms, first.value)) <= list)
      && (forall x :: x in list <==>
            || (first.Some? && (x == first.value || x in FallbacksOf(ms, first.value)))
            || (task.capability != "" && exists m ::
                  m in ms && m.allowed && task.capability in m.capabilities && m.name == x))
  {
    var (first, _) := FirstChoice(ms, rr, load, policy, task);
    var base := if first.Some? then [first.value] + FallbacksOf(ms, first.value) else [];
    var cs := ForCapability(ms, task.capability);
    var full := if task.capability != "" then AppendNew(base, cs) else base;
    AppendNewIs(base, cs);
    DistinctIs(full);
    forall m
      ensures m in cs <==> m in ms && m.allowed && task.capability in m.capabilities
    {
      ForCapabilityMembers(ms, task.capability, m);
    }
    if base != [] { assert full[0] == base[0]; }
    DistinctPrefix(base, full);
    forall x ensures x in full <==>
      || (first.Some? && (x == first.value || x in FallbacksOf(ms, first.value)))
      || (task.capability != "" && exists m :: m in ms && m.allowed && task.capability in m.capabilities && m.name == x)
    {
      assert x in base <==> first.Some? && (x == first.value || x in FallbacksOf(ms, first.value));
    }
  }

  /** Place `i` is the first where `x` stands. */
  predicate FirstAt(s: seq<Name>, x: Name, i: int) {
    0 <= i < |s| && s[i] == x && forall k :: 0 <= k < i ==> s[k] != x
  }

  /** In `s` the first `x` stands in front of the first `y`. */
  ghost predicate Precedes(s: seq<Name>, x: Name, y: Name) {
    exists a, b :: a < b && FirstAt(s, x, a) && FirstAt(s, y, b)
  }

  /** `x` was registered before `y`. */
  ghost predicate RegisteredBefore(ms: seq<Manifest>, x: Name, y: Name) {
    exists a, b :: 0 <= a < b < |ms| && ms[a].name == x && ms[b].name == y
  }

  /** The first choice and what its manifest, if there is one under its name, declares as its fallbacks. */
  ghost predicate Declares(ms: seq<Manifest>, first: Option<Name>, declared: seq<Name>) {
    match first
    case None => declared == []
    case Some(name) =>
      || (exists m :: m in ms && m.name == name && declared == [name] + m.fallbackAgents)
      || ((forall m :: m in ms ==> m.name != name) && declared == [name])
  }

  /** Those declared come first, in the order declared; then the others, in the order of their registration. */
  ghost predicate TriedInOrder(ms: seq<Manifest>, declared: seq<Name>, list: seq<Name>) {
    forall i, j :: 0 <= i < j < |list| ==>
      if list[j] in declared then Precedes(declared, list[i], list[j])
      else list[i] in declared || RegisteredBefore(ms, list[i], list[j])
  }

  /** A name's manifest is unique, so its fallbacks are. */
  lemma {:induction false} FallbacksMean(ms: seq<Manifest>, name: Name)
    requires Directory(ms)
    ensures forall m :: m in ms && m.name == name ==> FallbacksOf(ms, name) == m.fallbackAgents
    ensures (forall m :: m in ms ==> m.name != name) ==> FallbacksOf(ms, name) == []
  {
    if ms != [] {
      FallbacksMean(ms[1..], name);
      assert ms == [ms[0]] + ms[1..];
      assert ms[0] in ms;
      forall m | m in ms[1..] ensures m.name != ms[0].name {
        var i :| 0 <= i < |ms[1..]| && ms[1..][i] == m;
        assert ms[i + 1] == m;
      }
    }
  }

  lemma {:induction false} DistinctInOrder(names: seq<Name>, i: nat, j: nat)
    requires i < j < |Distinct(names)|
    ensures Precedes(names, Distinct(names)[i], Distinct(names)[j])
  {
    var front, last := names[..|names| - 1], names[|names| - 1];
    var d := Distinct(front);
    DistinctIs(front);
    var x := d[i];
    assert x in front;
    if j < |d| {
      DistinctInOrder(front, i, j);
      var a, b :| a < b && FirstAt(front, x, a) && FirstAt(front, d[j], b);
      assert FirstAt(names, x, a) && FirstAt(names, d[j], b);
    } else {
      var a := FirstPlace(front, x);
      assert FirstAt(names, x, a) && FirstAt(names, last, |names| - 1);
    }
  }

  lemma {:induction false} FirstPlace(s: seq<Name>, x: Name) returns (i: nat)
    requires x in s
    ensures FirstAt(s, x, i)
  {
    if s[0] == x {
      i := 0;
    } else {
      assert s == [s[0]] + s[1..];
      i := FirstPlace(s[1..], x);
      forall k | 0 <= k < i + 1 ensures s[k] != x { if k > 0 { assert s[k] == s[1..][k - 1]; } }
      i := i + 1;
    }
  }

  /** What is appended comes in the order of the manifests. */
  lemma {:induction false} AppendedInOrder(names: seq<Name>, ms: seq<Manifest>, a: nat, b: nat)
    requires |names| <= a && a < b < |AppendNew(names, ms)|
    ensures RegisteredBefore(ms, AppendNew(names, ms)[a], AppendNew(names, ms)[b])
    decreases |ms|
  {
    var next, r := if ms[0].name in names then names else names + [ms[0].name], AppendNew(names, ms);
    AppendNewIs(next, ms[1..]);
    if a < |next| {
      assert r[a] == ms[0].name;
      var q := AppendedFrom(next, ms[1..], b);
      assert ms[q + 1].name == r[b];
    } else {
      AppendedInOrder(next, ms[1..], a, b);
      var p, q :| 0 <= p < q < |ms[1..]| && ms[1..][p].name == r[a] && ms[1..][q].name == r[b];
      assert ms[p + 1].name == r[a] && ms[q + 1].name == r[b];
    }
  }

  lemma {:induction false} AppendedFrom(names: seq<Name>, ms: seq<Manifest>, a: nat) returns (q: nat)
    requires |names| <= a < |AppendNew(names, ms)|
    ensures q < |ms| && ms[q].name == AppendNew(names, ms)[a]
    decreases |ms|
  {
    var next := if ms[0].name in names then names else names + [ms[0].name];
    AppendNewIs(next, ms[1..]);
    assert AppendNew(names, ms) == AppendNew(next, ms[1..]);
    if a < |next| {
      q := 0;
    } else {
      q := AppendedFrom(next, ms[1..], a);
      assert ms[q + 1] == ms[1..][q];
      q := q + 1;
    }
  }

  /** The capable agents are in the order of their registration. */
  lemma {:induction false} CapableInOrder(ms: seq<Manifest>, cap: string, x: Name, y: Name)
    requires RegisteredBefore(ForCapability(ms, cap), x, y)
    ensures RegisteredBefore(ms, x, y)
  {
    var cs, rest := ForCapability(ms, cap), ForCapability(ms[1..], cap);
    var a, b :| 0 <= a < b < |cs| && cs[a].name == x && cs[b].name == y;
    if cs == rest {
      assert RegisteredBefore(rest, x, y);
    } else if a > 0 {
      assert rest[a - 1].name == x && rest[b - 1].name == y;
      assert RegisteredBefore(rest, x, y);
    }
    if RegisteredBefore(rest, x, y) {
      CapableInOrder(ms[1..], cap, x, y);
      var p, q :| 0 <= p < q < |ms[1..]| && ms[1..][p].name == x && ms[1..][q].name == y;
      assert ms[p + 1].name == x && ms[q + 1].name == y;
    } else {
      assert rest[b - 1] in rest;
      ForCapabilityMembers(ms[1..], cap, rest[b - 1]);
      var q :| 0 <= q < |ms[1..]| && ms[1..][q] == rest[b - 1];
      assert ms[0].name == x && ms[q + 1].name == y;
    }
  }

  /**
   * The candidate list in full, from the registered manifests: the preferred agent, or else the one selected, with
   * its manifest's own fallbacks, in their order; then every other allowed agent that advertises the capability, in
   * the order of registration; each once.
   */
  lemma CandidatesInOrder(ms: seq<Manifest>, rr: map<string, nat>, load: Name -> int, policy: Policy, task: Task,
                          declared: seq<Name>)
    requires Directory(ms)
    requires
      var first :=
        if task.preferred != "" then Some(task.preferred)
        else if task.capability != "" then Select(ms, rr, load, policy, task.capability).0
        else None;
      Declares(ms, first, declared)
    ensures
      var (list, _) := Candidates(ms, rr, load, policy, task);
      && NoDup(list) && TriedInOrder(ms, declared, list)
      && (forall x :: x in list <==>
            || x in declared
            || (task.capability != "" && exists m ::
                  m in ms && m.allowed && task.capability in m.capabilities && m.name == x))
  {
    var (first, _) := FirstChoice(ms, rr, load, policy, task);
    var base := if first.Some? then [first.value] + FallbacksOf(ms, first.value) else [];
    assert base == declared by { if first.Some? { FallbacksMean(ms, first.value); } }
    CandidateList(ms, rr, load, policy, task);
    var cs := ForCapability(ms, task.capability);
    var full := if task.capability != "" then AppendNew(base, cs) else base;
    var (list, _) := Candidates(ms, rr, load, policy, task);
    assert list == Distinct(full);
    hide Candidates, FirstChoice, Select, FallbacksOf, Declares, Directory;
    AppendNewIs(base, cs);
    hide Distinct;
    forall i, j | 0 <= i < j < |list|
      ensures if list[j] in declared then Precedes(declared, list[i], list[j])
              else list[i] in declared || RegisteredBefore(ms, list[i], list[j])
    {
      DistinctInOrder(full, i, j);
      OneBeforeOther(ms, task.capability, base, full, list[i], list[j]);
    }
  }

  lemma OneBeforeOther(ms: seq<Manifest>, cap: string, base: seq<Name>, full: seq<Name>, x: Name, y: Name)
    requires base <= full && (full == base || full == AppendNew(base, ForCapability(ms, cap))) && Precedes(full, x, y)
    ensures if y in base then Precedes(base, x, y) else x in base || RegisteredBefore(ms, x, y)
  {
    hide AppendNew, ForCapability;
    var a, b :| a < b && FirstAt(full, x, a) && FirstAt(full, y, b);
    assert forall k :: 0 <= k < |base| ==> base[k] == full[k] && full[k] in base;
    if y in base {
      var k := FirstPlace(base, y);
      assert full[k] == y && b <= k;
      assert FirstAt(base, x, a) && FirstAt(base, y, b);
    } else if x !in base {
      AppendedInOrder(base, ForCapability(ms, cap), a, b);
      CapableInOrder(ms, cap, x, y);
    }
  }

  // ----- round-robin fairness -----

  /** The choices of `k` round-robin selections in a row for one capability. */
  function Turns(ms: seq<Manifest>, rr: map<string, nat>, load: Name -> int, cap: string, k: nat): seq<Option<Name>>
    decreases k
  {
    if k == 0 then []
    else
      var (name, rr') := Select(ms, rr, load, RoundRobin, cap);
      [name] + Turns(ms, rr', load, cap, k - 1)
  }

  /** The place after `p` on a wheel of `n`. */
  function After(n: nat, p: nat): (r: nat)
    requires p < n
    ensures r < n
  {
    if p == n - 1 then 0 else p + 1
  }

  /** How often place `i` comes up in `k` turns from place `p`. */
  function Hits(n: nat, p: nat, k: nat, i: nat): nat
    requires p < n
    decreases k
  {
    if k == 0 then 0 else (if p == i then 1 else 0) + Hits(n, After(n, p), k - 1, i)
  }

  /** Distance from place `p` to place `i`, going round. */
  function Distance(n: nat, p: nat, i: nat): nat
    requires p < n && i < n
  {
    if i >= p then i - p else i + n - p
  }

  /** In q rounds and r turns more, a place comes up q times, and once more if it is among the next r. */
  lemma {:induction false} HitsAre(n: nat, p: nat, k: nat, i: nat, q: nat, r: nat)
    requires p < n && i < n && r < n && k == q * n + r
    ensures Hits(n, p, k, i) == q + if Distance(n, p, i) < r then 1 else 0
    decreases k
  {
    if r > 0 {
      HitsAre(n, After(n, p), k - 1, i, q, r - 1);
    } else if q > 0 {
      assert (q - 1) * n == q * n - n;
      HitsAre(n, After(n, p), k - 1, i, q - 1, n - 1);
    }
  }

  /** So over `k` turns the number of times is `k / n` rounded down or up. */
  lemma HitsAreFair(n: nat, p: nat, k: nat, i: nat)
    requires p < n && i < n
    ensures var hits := Hits(n, p, k, i); hits == k / n || (hits == k / n + 1 && k % n > 0)
  {
    DivMod(k, n);
    var q, r := k / n, k % n;
    HitsAre(n, p, k, i, q, r);
  }

  /** The counter's place moves on by one. */
  lemma NextPlace(n: nat, c: nat)
    requires n > 0
    ensures (c + 1) % n == After(n, c % n)
  {
    var q, r := c / n, c % n;
    assert c == q * n + r;
    if r == n - 1 {
      assert c + 1 == (q + 1) * n;
      Remainder(q + 1, n, 0);
    } else {
      assert c + 1 == q * n + (r + 1);
      Remainder(q, n, r + 1);
    }
  }

  function Times(s: seq<Option<Name>>, x: Name): nat {
    if s == [] then 0 else (if s[0] == Some(x) then 1 else 0) + Times(s[1..], x)
  }

  /** One round-robin selection: the agent at the counter's place, and the counter moves on. */
  lemma OneSelection(ms: seq<Manifest>, rr: map<string, nat>, load: Name -> int, cap: string)
    requires ForCapability(ms, cap) != []
    ensures
      var names := StableSort(Names(ForCapability(ms, cap)), StringLe);
      var (name, rr') := Select(ms, rr, load, RoundRobin, cap);
      && names != [] && name == Some(names[Count(rr, cap) % |names|])
      && Count(rr', cap) % |names| == After(|names|, Count(rr, cap) % |names|)
  {
    var names := StableSort(Names(ForCapability(ms, cap)), StringLe);
    NextPlace(|names|, Count(rr, cap));
  }

  lemma {:induction false} TurnsAreHits(ms: seq<Manifest>, rr: map<string, nat>, load: Name -> int, cap: string,
                                        k: nat, i: nat)
    requires
      var names := StableSort(Names(ForCapability(ms, cap)), StringLe);
      NoDup(names) && i < |names|
    ensures
      var names := StableSort(Names(ForCapability(ms, cap)), StringLe);
      |Turns(ms, rr, load, cap, k)| == k
        && Times(Turns(ms, rr, load, cap, k), names[i]) == Hits(|names|, Count(rr, cap) % |names|, k, i)
    decreases k
  {
    if k > 0 {
      var names := StableSort(Names(ForCapability(ms, cap)), StringLe);
      var (name, rr') := Select(ms, rr, load, RoundRobin, cap);
      OneSelection(ms, rr, load, cap);
      hide Select, StableSort, ForCapability, After;
      TurnsAreHits(ms, rr', load, cap, k - 1, i);
      assert Turns(ms, rr, load, cap, k)[1..] == Turns(ms, rr', load, cap, k - 1);
    }
  }

  lemma {:induction false} ForCapabilityDistinct(ms: seq<Manifest>, cap: string)
    requires Directory(ms)
    ensures Directory(ForCapability(ms, cap))
  {
    if ms != [] {
      ForCapabilityDistinct(ms[1..], cap);
      var rest := ForCapability(ms[1..], cap);
      forall m | m in rest ensures m.name != ms[0].name {
        ForCapabilityMembers(ms[1..], cap, m);
        var i :| 0 <= i < |ms[1..]| && ms[1..][i] == m;
        assert ms[i + 1] == m;
      }
    }
  }

  lemma CopiesByMultiset(a: seq<Name>, b: seq<Name>)
    requires multiset(a) == multiset(b) && NoDup(a)
    ensures NoDup(b)
  {
    forall i, j | 0 <= i < j < |b| ensures b[i] != b[j] {
      OneCopy(a, b[i]);
      TwoCopies(b, i, j);
    }
  }

  lemma TwoCopies(b: seq<Name>, i: nat, j: nat)
    requires i < j < |b|
    ensures b[i] == b[j] ==> multiset(b)[b[i]] >= 2
  {
    assert b == b[..i] + [b[i]] + b[i + 1..j] + [b[j]] + b[j + 1..];
  }

  lemma {:induction false} SameNames(a: seq<Name>, b: seq<Name>)
    requires NoDup(a) && NoDup(b) && forall x :: x in a <==> x in b
    ensures multiset(a) == multiset(b)
  {
    forall x ensures multiset(a)[x] == multiset(b)[x] {
      OneCopy(a, x);
      OneCopy(b, x);
      assert x in multiset(a) <==> x in a;
      assert x in multiset(b) <==> x in b;
    }
  }

  /**
   * A round-robin turn: of the allowed agents that advertise the capability, in the order of their names, the one at
   * the place the capability's counter has come to, from 0 on.
   */
  lemma RoundRobinTurn(ms: seq<Manifest>, rr: map<string, nat>, load: Name -> int, cap: string, names: seq<Name>)
    requires Directory(ms) && names != []
    requires forall i, j :: 0 <= i < j < |names| ==> names[i] != names[j] && CodePointLe(names[i], names[j])
    requires forall x :: x in names <==> exists m :: m in ms && m.allowed && cap in m.capabilities && m.name == x
    ensures
      var turn := if cap in rr then rr[cap] else 0;
      Select(ms, rr, load, RoundRobin, cap) == (Some(names[turn % |names|]), rr[cap := turn + 1])
  {
    var cs := ForCapability(ms, cap);
    ForCapabilityDistinct(ms, cap);
    forall m ensures m in cs <==> m in ms && m.allowed && cap in m.capabilities { ForCapabilityMembers(ms, cap, m); }
    assert NoDup(Names(cs));
    CapableNames(cs, ms, cap);
    assert cs != [] by { assert names[0] in names; }
    hide *;
    NamesInOrder(Names(cs), names);
    TurnOf(ms, rr, load, cap, names);
  }

  lemma TurnOf(ms: seq<Manifest>, rr: map<string, nat>, load: Name -> int, cap: string, names: seq<Name>)
    requires ForCapability(ms, cap) != [] && names == StableSort(Names(ForCapability(ms, cap)), StringLe)
    ensures
      var turn := if cap in rr then rr[cap] else 0;
      names != [] && Select(ms, rr, load, RoundRobin, cap) == (Some(names[turn % |names|]), rr[cap := turn + 1])
  {
    hide StableSort, ForCapability, StringLe;
  }

  /** Names in the order of their code points are sorted. */
  lemma NamesInOrder(some: seq<Name>, names: seq<Name>)
    requires NoDup(some) && forall x :: x in names <==> x in some
    requires forall i, j :: 0 <= i < j < |names| ==> names[i] != names[j] && CodePointLe(names[i], names[j])
    ensures names == StableSort(some, StringLe)
  {
    SameNames(some, names);
    forall i, j | 0 <= i < j < |names| ensures StringLe(names[i], names[j]) { StringLeMeans(names[i], names[j]); }
    hide StringLe, CodePointLe, StableSort;
    StringLeIsTotalOrder();
    SortSorts(some, StringLe);
    SortKeeps(some, StringLe);
    SortedUnique(StableSort(some, StringLe), names, StringLe);
  }

  lemma CapableNames(cs: seq<Manifest>, ms: seq<Manifest>, cap: string)
    requires forall m :: m in cs <==> m in ms && m.allowed && cap in m.capabilities
    ensures forall x :: x in Names(cs) <==> exists m :: m in ms && m.allowed && cap in m.capabilities && m.name == x
  {
    forall m | m in cs ensures m.name in Names(cs) {
      var i :| 0 <= i < |cs| && cs[i] == m;
      assert Names(cs)[i] == m.name;
    }
    forall x | x in Names(cs) ensures exists m :: m in ms && m.allowed && cap in m.capabilities && m.name == x {
      var i :| 0 <= i < |cs| && Names(cs)[i] == x;
      assert cs[i] in cs;
    }
  }

  lemma {:induction false} OneCopy(a: seq<Name>, x: Name)
    requires NoDup(a)
    ensures multiset(a)[x] <= 1
  {
    if a != [] {
      assert a == [a[0]] + a[1..];
      OneCopy(a[1..], x);
      if a[0] == x {
        assert x !in a[1..];
        assert multiset(a[1..])[x] == 0;
      }
    }
  }

  /**
   * Fairness: over any k round-robin selections in a row, with a fixed non-empty set of n candidates, each
   * candidate is chosen floor(k/n) or ceil(k/n) times.
   */
  lemma RoundRobinIsFair(ms: seq<Manifest>, rr: map<string, nat>, load: Name -> int, cap: string, k: nat, m: Manifest)
    requires Directory(ms) && m in ms && m.allowed && cap in m.capabilities
    ensures
      var n := |ForCapability(ms, cap)|;
      var times := Times(Turns(ms, rr, load, cap, k), m.name);
      && n > 0 && |Turns(ms, rr, load, cap, k)| == k
      && (times == k / n || (times == k / n + 1 && k % n > 0))
  {
    var cs := ForCapability(ms, cap);
    var names := StableSort(Names(cs), StringLe);
    ForCapabilityMembers(ms, cap, m);
    ForCapabilityDistinct(ms, cap);
    assert NoDup(Names(cs));
    SortKeeps(Names(cs), StringLe);
    CopiesByMultiset(Names(cs), names);
    var j :| 0 <= j < |cs| && cs[j] == m;
    assert Names(cs)[j] == m.name;
    SortMembers(Names(cs), StringLe, m.name);
    var i :| 0 <= i < |names| && names[i] == m.name;
    TurnsAreHits(ms, rr, load, cap, k, i);
    hide Turns, Hits, StableSort, ForCapability;
    HitsAreFair(|names|, Count(rr, cap) % |names|, k, i);
  }

  // ----- the registry object -----

  class AgentRegistry {
    var manifests: seq<Manifest>
    var rr: map<string, nat>

    constructor (ms: seq<Manifest>)
      ensures manifests == ms && rr == map[]
    {
      manifests := ms;
      rr := map[];
    }

    /** Selection under a policy; only the round-robin counter of the capability moves. */
    method SelectAgent(cap: string, policy: Policy, load: Name -> int) returns (name: Option<Name>)
      modifies this`rr
      ensures (name, rr) == Select(manifests, old(rr), load, policy, cap)
    {
      var cs := ForCapability(manifests, cap);
      if cs == [] {
        return None;
      }
      match policy
      case LatencyOptimized =>
        name := Some(FirstLeast(cs, (a: Manifest, b: Manifest) => a.latencyHintMs < b.latencyHintMs).name);
      case HighestPriority =>
        name := Some(FirstLeast(cs, (a: Manifest, b: Manifest) =>
          a.priority > b.priority || (a.priority == b.priority && a.latencyHintMs < b.latencyHintMs)).name);
      case LoadAware =>
        name := Some(FirstLeast(cs, (a: Manifest, b: Manifest) => load(a.name) < load(b.name)).name);
      case RoundRobin =>
        var names := StableSort(Names(cs), StringLe);
        var idx := Count(rr, cap);
        rr := rr[cap := idx + 1];
        name := Some(names[idx % |names|]);
      case UnknownPolicy =>
        name := None;
    }
  }
}
