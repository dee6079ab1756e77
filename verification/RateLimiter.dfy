/** The sliding-window limiter in front of the control plane's endpoints. */
module RateLimiter {
  import opened Filters
  import opened Sorting

  const RATE_MAX: nat := 120
  const RATE_WINDOW_S: real := 60.0

  predicate Earlier(a: real, b: real) { a <= b }

  /** The times not yet out of the window that ends at `now`. */
  function Recent(times: seq<real>, now: real): seq<real> {
    Filter(times, (t: real) => !(now - t > RATE_WINDOW_S))
  }

  /** The times in the closed interval. */
  function Between(times: seq<real>, low: real, high: real): seq<real> {
    Filter(times, (t: real) => low <= t <= high)
  }

  // ---------------------------------------------------------------------------------------------
  // The policy over the whole history of one key's requests.
  // ---------------------------------------------------------------------------------------------

  /** Is a request at `now` refused, given the times of the accepted ones before? */
  predicate Refused(accepted: seq<real>, now: real) {
    |Recent(accepted, now)| >= RATE_MAX
  }

  /** The times of the requests that are accepted. */
  function Accepted(requests: seq<real>): seq<real> {
    if requests == [] then []
    else
      var before, now := Accepted(requests[..|requests| - 1]), requests[|requests| - 1];
      if Refused(before, now) then before else before + [now]
  }

  lemma {:induction false} AcceptedAreRequests(requests: seq<real>, t: real)
    requires t in Accepted(requests)
    ensures t in requests
  {
    var n := |requests| - 1;
    if t in Accepted(requests[..n]) { AcceptedAreRequests(requests[..n], t); }
  }

  lemma {:induction false} AcceptedInOrder(requests: seq<real>)
    requires Sorted(requests, Earlier)
    ensures Sorted(Accepted(requests), Earlier)
  {
    if requests != [] {
      var n := |requests| - 1;
      AcceptedInOrder(requests[..n]);
      var before := Accepted(requests[..n]);
      forall i | 0 <= i < |before| ensures Earlier(before[i], requests[n]) {
        AcceptedAreRequests(requests[..n], before[i]);
        var j :| 0 <= j < n && requests[..n][j] == before[i];
        assert Earlier(requests[j], requests[n]);
      }
    }
  }

  /** No interval of a minute, its ends included, ever holds more than 120 accepted requests. */
  lemma {:induction false} NeverMoreThanMax(requests: seq<real>, low: real)
    requires Sorted(requests, Earlier)
    ensures |Between(Accepted(requests), low, low + 60.0)| <= 120
  {
    if requests != [] {
      var n := |requests| - 1;
      var before, now := Accepted(requests[..n]), requests[n];
      NeverMoreThanMax(requests[..n], low);
      if !Refused(before, now) {
        var inside := (t: real) => low <= t <= low + RATE_WINDOW_S;
        assert (before + [now])[..|before|] == before;
        if inside(now) { FilterShrinks(before, (t: real) => !(now - t > RATE_WINDOW_S), inside); }
      }
    }
  }

  /** A request is refused exactly when the minute that ends with it holds 120 accepted ones. */
  lemma RefusedExactly(requests: seq<real>, now: real)
    requires Sorted(requests + [now], Earlier)
    ensures Accepted(requests + [now]) == Accepted(requests)
            <==> |Between(Accepted(requests), now - 60.0, now)| == 120
  {
    var accepted := Accepted(requests);
    assert (requests + [now])[..|requests|] == requests;
    NothingLater(requests, now);
    FilterSame(accepted, (t: real) => !(now - t > RATE_WINDOW_S), (t: real) => now - RATE_WINDOW_S <= t <= now);
    NeverMoreThanMax(requests, now - RATE_WINDOW_S);
  }

  lemma NothingLater(requests: seq<real>, now: real)
    requires Sorted(requests + [now], Earlier)
    ensures Sorted(requests, Earlier)
    ensures forall t :: t in Accepted(requests) ==> t <= now
  {
    hide Accepted;
    var all := requests + [now];
    assert forall i :: 0 <= i < |requests| ==> requests[i] == all[i];
    forall t | t in Accepted(requests) ensures t <= now {
      AcceptedAreRequests(requests, t);
      var i :| 0 <= i < |requests| && requests[i] == t;
      assert Earlier(all[i], all[|requests|]);
    }
  }

  // ---------------------------------------------------------------------------------------------
  // The limiter itself: one deque a key.
  // ---------------------------------------------------------------------------------------------

  function Of(m: map<string, seq<real>>, key: string): seq<real> { if key in m then m[key] else [] }

  /** One key's state: its deque `q` holds the accepted of its `requests` in the window that ends at its `last` one. */
  ghost predicate KeyOk(q: seq<real>, requests: seq<real>, last: real, clock: real) {
    && Sorted(requests, Earlier)
    && (forall t :: t in requests ==> t <= last) && last <= clock
    && q == Recent(Accepted(requests), last)
  }

  ghost predicate StateOk(hits: map<string, seq<real>>, requests: map<string, seq<real>>, last: map<string, real>,
                          clock: real) {
    && (forall key :: key in hits <==> key in requests)
    && (forall key :: key in requests ==> key in last && KeyOk(hits[key], requests[key], last[key], clock))
  }

  /** A request of one key leaves the others' state good, now that it is later. */
  lemma StateMoves(hits: map<string, seq<real>>, requests: map<string, seq<real>>, last: map<string, real>, clock: real,
                   key: string, now: real, q: seq<real>, mine: seq<real>)
    requires StateOk(hits, requests, last, clock) && (requests == map[] || clock <= now) && KeyOk(q, mine, now, now)
    ensures StateOk(hits[key := q], requests[key := mine], last[key := now], now)
  {
    forall other | other in requests ensures KeyOk(hits[other], requests[other], last[other], now) {
      ClockMoves(hits[other], requests[other], last[other], clock, now);
    }
    hide KeyOk;
  }

  /** The clean-up loop: drops what has left the window from the front of a queue. */
  method Expire(queue: seq<real>, now: real) returns (q: seq<real>)
    requires Sorted(queue, Earlier)
    ensures q == Recent(queue, now)
  {
    q := queue;
    while q != [] && now - q[0] > RATE_WINDOW_S
      invariant Recent(q, now) == Recent(queue, now) && Sorted(q, Earlier)
      decreases |q|
    {
      RecentDropsHead(q, now);
      q := q[1..];
    }
    RecentIsAll(q, now);
  }

  class Limiter {
    var hits: map<string, seq<real>>

    /** All requests there have been, by key; the time of each key's last; and the time of the last of all. */
    ghost var requests: map<string, seq<real>>
    ghost var last: map<string, real>
    ghost var clock: real

    ghost predicate Valid()
      reads this
    {
      StateOk(hits, requests, last, clock)
    }

    lemma ValidMeans()
      ensures Valid() <==> StateOk(hits, requests, last, clock)
    {
    }

    constructor ()
      ensures Valid() && hits == map[] && requests == map[]
    {
      hits, requests, last, clock := map[], map[], map[], 0.0;
    }

    /** One request, on a clock that does not go back. */
    method RateLimited(key: string, now: real) returns (limited: bool)
      requires Valid() && (requests == map[] || clock <= now)
      modifies this
      ensures Valid() && clock == now
      ensures key in requests && requests == old(requests)[key := requests[key]]
      ensures requests[key] == (if key in old(requests) then old(requests)[key] else []) + [now]
      ensures limited <==> Accepted(requests[key]) == Accepted(requests[key][..|requests[key]| - 1])
      ensures limited <==> Refused(Accepted(Of(old(requests), key)), now)
      ensures hits == old(hits)[key := Recent(Accepted(requests[key]), now)]
    {
      var q := Of(hits, key);
      ghost var before := Of(requests, key);
      ValidMeans();
      QueueOf(hits, requests, last, clock, key, now);
      hide *;
      q := Expire(q, now);
      RefusedMeans(before, now);
      OfMeans(requests, key);
      ExtendRequests(before, now);
      if |q| >= RATE_MAX {
        limited := true;
      } else {
        q := q + [now];
        limited := false;
      }
      KeyOkMeans(q, before + [now], now, now);
      StateMoves(hits, requests, last, clock, key, now, q, before + [now]);
      hits := hits[key := q];
      requests, last, clock := requests[key := before + [now]], last[key := now], now;
      ValidMeans();
    }
  }

  lemma OfMeans(m: map<string, seq<real>>, key: string)
    ensures Of(m, key) == if key in m then m[key] else []
  {
  }

  lemma QueueOf(hits: map<string, seq<real>>, requests: map<string, seq<real>>, last: map<string, real>, clock: real,
                key: string, now: real)
    requires StateOk(hits, requests, last, clock) && (requests == map[] || clock <= now)
    ensures var q, before := Of(hits, key), Of(requests, key);
            && Recent(q, now) == Recent(Accepted(before), now) && Sorted(q, Earlier)
            && Sorted(before, Earlier) && forall t :: t in before ==> t <= now
  {
    if key in requests { QueueAt(hits[key], requests[key], last[key], clock, now); }
  }

  lemma RefusedMeans(requests: seq<real>, now: real)
    ensures Refused(Accepted(requests), now) <==> |Recent(Accepted(requests), now)| >= RATE_MAX
    ensures Refused(Accepted(requests), now) <==> Accepted(requests + [now]) == Accepted(requests)
  {
    assert (requests + [now])[..|requests|] == requests;
    hide Refused;
  }

  lemma KeyOkMeans(q: seq<real>, requests: seq<real>, last: real, clock: real)
    requires KeyOk(q, requests, last, clock)
    ensures q == Recent(Accepted(requests), last)
  {
  }

  lemma ClockMoves(q: seq<real>, requests: seq<real>, last: real, clock: real, now: real)
    requires KeyOk(q, requests, last, clock) && clock <= now
    ensures KeyOk(q, requests, last, now)
  {
  }

  lemma RecentDropsHead(q: seq<real>, now: real)
    requires q != [] && now - q[0] > RATE_WINDOW_S
    ensures Recent(q[1..], now) == Recent(q, now)
  {
    FilterDropsHead(q, (t: real) => !(now - t > RATE_WINDOW_S));
  }

  /** Nothing that has left a key's deque could still count later. */
  lemma QueueAt(q: seq<real>, requests: seq<real>, last: real, clock: real, now: real)
    requires KeyOk(q, requests, last, clock) && clock <= now
    ensures Recent(q, now) == Recent(Accepted(requests), now) && Sorted(q, Earlier)
    ensures forall t :: t in requests ==> t <= now
  {
    var accepted := Accepted(requests);
    FilterTwice(accepted, (t: real) => !(last - t > RATE_WINDOW_S), (t: real) => !(now - t > RATE_WINDOW_S));
    AcceptedInOrder(requests);
    FilterSorted(accepted, (t: real) => !(last - t > RATE_WINDOW_S), Earlier);
  }

  /** Once the head of the queue is recent, all of it is. */
  lemma RecentIsAll(q: seq<real>, now: real)
    requires Sorted(q, Earlier) && (q == [] || now - q[0] <= RATE_WINDOW_S)
    ensures Recent(q, now) == q
  {
    forall t | t in q ensures !(now - t > RATE_WINDOW_S) {
      var i :| 0 <= i < |q| && q[i] == t;
      if i > 0 { assert Earlier(q[0], q[i]); }
    }
    FilterAll(q, (t: real) => !(now - t > RATE_WINDOW_S));
  }

  lemma ExtendRequests(before: seq<real>, now: real)
    requires Sorted(before, Earlier) && forall t :: t in before ==> t <= now
    ensures Sorted(before + [now], Earlier)
    ensures var recent := Recent(Accepted(before), now);
            KeyOk(if |recent| >= RATE_MAX then recent else recent + [now], before + [now], now, now)
  {
    forall i | 0 <= i < |before| ensures before[i] <= now { assert before[i] in before; }
    assert Sorted(before + [now], Earlier);
    hide Sorted;
    var accepted := Accepted(before);
    assert (before + [now])[..|before|] == before;
    assert (accepted + [now])[..|accepted|] == accepted;
  }
}
