/**
 * The in-memory sliding-window rate limiter of the service (main.py, class RateLimiter).
 *
 * Each client id maps to the list of the times of its admitted requests. A call at time
 * `now` first drops every time at or before `now - windowSeconds`, then refuses the request
 * when `maxRequests` times remain, and otherwise records `now`. The clock is a parameter.
 */
module RateLimit {

  /** The map that `self.requests` holds: client id to request times. */
  type Requests = map<string, seq<real>>

  /** `self.requests[clientId]`: a `defaultdict(list)` reads an absent client as no requests. */
  function History(requests: Requests, clientId: string): seq<real>
  {
    if clientId in requests then requests[clientId] else []
  }

  /** The times of `ts` strictly after `cutoff`, in their original order (the list comprehension). */
  function Pruned(ts: seq<real>, cutoff: real): (kept: seq<real>)
    ensures |kept| <= |ts|
    ensures forall x :: x in kept <==> x in ts && x > cutoff
  {
    if ts == [] then []
    else
      var init, last := ts[..|ts| - 1], ts[|ts| - 1];
      assert ts == init + [last];
      var keptInit := Pruned(init, cutoff);
      if last > cutoff then keptInit + [last] else keptInit
  }

  /** Reference count: how many times in `ts` lie strictly after `cutoff`. */
  function CountAfter(ts: seq<real>, cutoff: real): nat
  {
    if ts == [] then 0
    else (if ts[0] > cutoff then 1 else 0) + CountAfter(ts[1..], cutoff)
  }

  /** `now - self.window_seconds`: a time at or before it has left the window. */
  function Cutoff(windowSeconds: int, now: real): real
  {
    now - windowSeconds as real
  }

  /** The answer of `is_allowed(clientId)` at time `now`. */
  function Allowed(requests: Requests, maxRequests: int, windowSeconds: int, clientId: string, now: real): bool
  {
    |Pruned(History(requests, clientId), Cutoff(windowSeconds, now))| < maxRequests
  }

  /** The map `self.requests` after `is_allowed(clientId)` at time `now`. */
  function Updated(requests: Requests, maxRequests: int, windowSeconds: int, clientId: string, now: real): Requests
  {
    var kept := Pruned(History(requests, clientId), Cutoff(windowSeconds, now));
    requests[clientId := if |kept| < maxRequests then kept + [now] else kept]
  }

  /** Ascending order of request times (equal times allowed). */
  predicate Sorted(ts: seq<real>)
  {
    forall i, j :: 0 <= i < j < |ts| ==> ts[i] <= ts[j]
  }

  /** Every client holds at most `maxRequests` times. */
  predicate Bounded(requests: Requests, maxRequests: int)
  {
    forall c :: c in requests ==> |requests[c]| <= maxRequests
  }

  /** Every client's times are ascending and none lies after `t`. */
  predicate SortedUpTo(requests: Requests, t: real)
  {
    forall c :: c in requests ==> Sorted(requests[c]) && forall i :: 0 <= i < |requests[c]| ==> requests[c][i] <= t
  }

  lemma {:induction false} CountAfterAppend(ts: seq<real>, x: real, cutoff: real)
    ensures CountAfter(ts + [x], cutoff) == CountAfter(ts, cutoff) + (if x > cutoff then 1 else 0)
  {
    if ts != [] {
      assert (ts + [x])[1..] == ts[1..] + [x];
      CountAfterAppend(ts[1..], x, cutoff);
    }
  }

  /** The pruned list holds exactly the times that are strictly after the cutoff. */
  lemma {:induction false} PrunedLength(ts: seq<real>, cutoff: real)
    ensures |Pruned(ts, cutoff)| == CountAfter(ts, cutoff)
  {
    if ts != [] {
      var init, last := ts[..|ts| - 1], ts[|ts| - 1];
      assert ts == init + [last];
      PrunedLength(init, cutoff);
      CountAfterAppend(init, last, cutoff);
    }
  }

  /** Pruning keeps the order of what it keeps. */
  lemma {:induction false} PrunedSorted(ts: seq<real>, cutoff: real)
    requires Sorted(ts)
    ensures Sorted(Pruned(ts, cutoff))
  {
    if ts != [] {
      var init, last := ts[..|ts| - 1], ts[|ts| - 1];
      assert Sorted(init);
      PrunedSorted(init, cutoff);
      var keptInit := Pruned(init, cutoff);
      if last > cutoff {
        forall i | 0 <= i < |keptInit|
          ensures keptInit[i] <= last
        {
          assert keptInit[i] in init;
        }
      }
    }
  }

  /** `is_allowed` refuses exactly when `maxRequests` or more stored times are strictly newer than the cutoff. */
  lemma RefusedIffWindowFull(requests: Requests, maxRequests: int, windowSeconds: int, clientId: string, now: real)
    ensures !Allowed(requests, maxRequests, windowSeconds, clientId, now)
        <==> CountAfter(History(requests, clientId), now - windowSeconds as real) >= maxRequests
  {
    PrunedLength(History(requests, clientId), now - windowSeconds as real);
  }

  /**
   * After a call the client holds the pruned list, with `now` at its end exactly when the call
   * was admitted; a time exactly `windowSeconds` old is gone.
   */
  lemma UpdatedHistory(requests: Requests, maxRequests: int, windowSeconds: int, clientId: string, now: real)
    ensures var after := Updated(requests, maxRequests, windowSeconds, clientId, now);
            var kept := Pruned(History(requests, clientId), now - windowSeconds as real);
            && clientId in after
            && (Allowed(requests, maxRequests, windowSeconds, clientId, now) ==> after[clientId] == kept + [now])
            && (!Allowed(requests, maxRequests, windowSeconds, clientId, now) ==> after[clientId] == kept)
            && (windowSeconds > 0 ==> now - windowSeconds as real !in after[clientId])
  {
  }

  /** Only the calling client's entry changes; every other client keeps its list (or its absence). */
  lemma OtherClientsUnchanged(requests: Requests, maxRequests: int, windowSeconds: int, clientId: string, now: real, other: string)
    requires other != clientId
    ensures var after := Updated(requests, maxRequests, windowSeconds, clientId, now);
            && (other in after <==> other in requests)
            && (other in requests ==> after[other] == requests[other])
            && after.Keys == requests.Keys + {clientId}
  {
  }

  /** A call never takes a client above `maxRequests` stored times. */
  lemma BoundedPreserved(requests: Requests, maxRequests: int, windowSeconds: int, clientId: string, now: real)
    requires maxRequests >= 0 && Bounded(requests, maxRequests)
    ensures Bounded(Updated(requests, maxRequests, windowSeconds, clientId, now), maxRequests)
  {
  }

  /** A call at a time no earlier than every stored time keeps every list ascending. */
  lemma {:induction false} SortedPreserved(requests: Requests, maxRequests: int, windowSeconds: int, clientId: string, now: real)
    requires SortedUpTo(requests, now)
    ensures SortedUpTo(Updated(requests, maxRequests, windowSeconds, clientId, now), now)
  {
    var ts := History(requests, clientId);
    var kept := Pruned(ts, Cutoff(windowSeconds, now));
    PrunedSorted(ts, Cutoff(windowSeconds, now));
    forall i | 0 <= i < |kept|
      ensures kept[i] <= now
    {
      assert kept[i] in ts;
    }
  }

  /** One call to `is_allowed`: the client and the clock reading. */
  datatype Call = Call(clientId: string, now: real)

  /** The map after a series of calls, oldest first. */
  function Replay(requests: Requests, maxRequests: int, windowSeconds: int, calls: seq<Call>): Requests
    decreases |calls|
  {
    if calls == [] then requests
    else Replay(Updated(requests, maxRequests, windowSeconds, calls[0].clientId, calls[0].now), maxRequests, windowSeconds, calls[1..])
  }

  predicate NonDecreasing(calls: seq<Call>)
  {
    forall i, j :: 0 <= i < j < |calls| ==> calls[i].now <= calls[j].now
  }

  /** With a clock that never goes back, every client's list stays ascending over any series of calls. */
  lemma {:induction false} ReplayKeepsSorted(requests: Requests, maxRequests: int, windowSeconds: int, calls: seq<Call>, start: real)
    requires SortedUpTo(requests, start)
    requires NonDecreasing(calls)
    requires forall i :: 0 <= i < |calls| ==> start <= calls[i].now
    ensures forall c :: c in Replay(requests, maxRequests, windowSeconds, calls) ==> Sorted(Replay(requests, maxRequests, windowSeconds, calls)[c])
    decreases |calls|
  {
    if calls != [] {
      var t := calls[0].now;
      assert SortedUpTo(requests, t);
      SortedPreserved(requests, maxRequests, windowSeconds, calls[0].clientId, t);
      ReplayKeepsSorted(Updated(requests, maxRequests, windowSeconds, calls[0].clientId, t), maxRequests, windowSeconds, calls[1..], t);
    }
  }

  /** Over any series of calls every client keeps at most `maxRequests` stored times. */
  lemma {:induction false} ReplayKeepsBounded(requests: Requests, maxRequests: int, windowSeconds: int, calls: seq<Call>)
    requires maxRequests >= 0 && Bounded(requests, maxRequests)
    ensures Bounded(Replay(requests, maxRequests, windowSeconds, calls), maxRequests)
    decreases |calls|
  {
    if calls != [] {
      BoundedPreserved(requests, maxRequests, windowSeconds, calls[0].clientId, calls[0].now);
      ReplayKeepsBounded(Updated(requests, maxRequests, windowSeconds, calls[0].clientId, calls[0].now), maxRequests, windowSeconds, calls[1..]);
    }
  }

  /** The list comprehension of `is_allowed`: keeps the times strictly after `cutoff`. */
  method Prune(ts: seq<real>, cutoff: real) returns (kept: seq<real>)
    ensures kept == Pruned(ts, cutoff)
  {
    kept := [];
    for i := 0 to |ts|
      invariant kept == Pruned(ts[..i], cutoff)
    {
      assert ts[..i + 1][..i] == ts[..i];
      if ts[i] > cutoff {
        kept := kept + [ts[i]];
      }
    }
    assert ts[..|ts|] == ts;
  }

  class RateLimiter {
    const maxRequests: int
    const windowSeconds: int
    var requests: Requests

    constructor (maxRequests: int, windowSeconds: int)
      ensures this.maxRequests == maxRequests && this.windowSeconds == windowSeconds
      ensures requests == map[]
    {
      this.maxRequests := maxRequests;
      this.windowSeconds := windowSeconds;
      requests := map[];
    }

    /** `is_allowed(clientId)` with the clock reading `now`. */
    method IsAllowed(clientId: string, now: real) returns (allowed: bool)
      modifies this
      ensures allowed == Allowed(old(requests), maxRequests, windowSeconds, clientId, now)
      ensures requests == Updated(old(requests), maxRequests, windowSeconds, clientId, now)
      ensures maxRequests >= 0 && Bounded(old(requests), maxRequests) ==> Bounded(requests, maxRequests)
      ensures SortedUpTo(old(requests), now) ==> SortedUpTo(requests, now)
    {
      ghost var before := requests;
      var cutoff := now - windowSeconds as real;
      var history := if clientId in requests then requests[clientId] else [];
      var kept := Prune(history, cutoff);
      requests := requests[clientId := kept];
      if |requests[clientId]| >= maxRequests {
        allowed := false;
      } else {
        requests := requests[clientId := requests[clientId] + [now]];
        allowed := true;
      }
      assert requests == Updated(before, maxRequests, windowSeconds, clientId, now);
      if maxRequests >= 0 && Bounded(before, maxRequests) {
        BoundedPreserved(before, maxRequests, windowSeconds, clientId, now);
      }
      if SortedUpTo(before, now) {
        SortedPreserved(before, maxRequests, windowSeconds, clientId, now);
      }
    }
  }
}
