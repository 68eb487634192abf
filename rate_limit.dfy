/**
 * The sliding-window rate limiter (`check_rate_limit`, `reset_rate_limits`): per
 * client key, the list of admission times inside the trailing window.
 *
 * Times are real numbers of seconds; the clock reading `time.time()` is the
 * parameter `now`. The lock around the state is not modelled: the limiter is an
 * object with a single owner.
 */
module RateLimit {

  /** `[t for t in hits if t >= cutoff]` */
  function Pruned(hits: seq<real>, cutoff: real): (r: seq<real>)
    ensures |r| <= |hits|
    ensures forall i :: 0 <= i < |r| ==> r[i] >= cutoff
    ensures forall t :: t in r <==> t in hits && t >= cutoff
  {
    if hits == [] then []
    else (if hits[0] >= cutoff then [hits[0]] else []) + Pruned(hits[1..], cutoff)
  }

  /** Pruning keeps the surviving times in their order: it distributes over concatenation. */
  lemma {:induction false} PrunedAppend(a: seq<real>, b: seq<real>, cutoff: real)
    ensures Pruned(a + b, cutoff) == Pruned(a, cutoff) + Pruned(b, cutoff)
    decreases |a|
  {
    if a == [] {
      assert a + b == b;
    } else {
      assert (a + b)[1..] == a[1..] + b;
      PrunedAppend(a[1..], b, cutoff);
    }
  }

  /** A list whose times all survive the cutoff is kept as it is. */
  lemma {:induction false} PrunedKeepsAll(hits: seq<real>, cutoff: real)
    requires forall i :: 0 <= i < |hits| ==> hits[i] >= cutoff
    ensures Pruned(hits, cutoff) == hits
    decreases |hits|
  {
    if hits != [] {
      PrunedKeepsAll(hits[1..], cutoff);
    }
  }

  /** A list whose times all fall before the cutoff is emptied. */
  lemma {:induction false} PrunedDropsAll(hits: seq<real>, cutoff: real)
    requires forall i :: 0 <= i < |hits| ==> hits[i] < cutoff
    ensures Pruned(hits, cutoff) == []
    decreases |hits|
  {
    if hits != [] {
      PrunedDropsAll(hits[1..], cutoff);
    }
  }

  /** `_HITS.get(key, [])` */
  function Hits(state: map<string, seq<real>>, key: string): seq<real> {
    if key in state then state[key] else []
  }

  /** The answer of one check: `(allowed, retry_after_seconds)`. */
  datatype Decision = Decision(allowed: bool, retryAfter: real)

  function Max(a: real, b: real): real {
    if a >= b then a else b
  }

  /** One call of `check_rate_limit`: the new state and the answer. */
  function Step(state: map<string, seq<real>>, key: string, maxRequests: int, windowSec: int, now: real)
    : (map<string, seq<real>>, Decision)
  {
    if maxRequests <= 0 || windowSec <= 0 then (state, Decision(true, 0.0))
    else
      var hits := Pruned(Hits(state, key), now - windowSec as real);
      if |hits| >= maxRequests then
        (state[key := hits], Decision(false, Max(0.0, windowSec as real - (now - hits[0]))))
      else
        (state[key := hits + [now]], Decision(true, 0.0))
  }

  /** The state `_HITS` and the two operations on it. */
  class RateLimiter {
    var hits: map<string, seq<real>>

    /** The module starts with no recorded requests. */
    constructor ()
      ensures hits == map[]
    {
      hits := map[];
    }

    /** `check_rate_limit(key, max_requests=maxRequests, window_sec=windowSec)` at time `now`. */
    method Check(key: string, maxRequests: int, windowSec: int, now: real) returns (allowed: bool, retryAfter: real)
      modifies this
      ensures (hits, Decision(allowed, retryAfter)) == Step(old(hits), key, maxRequests, windowSec, now)
    {
      if maxRequests <= 0 || windowSec <= 0 {
        return true, 0.0;
      }
      var kept := Hits(hits, key);
      var cutoff := now - windowSec as real;
      kept := Pruned(kept, cutoff);
      if |kept| >= maxRequests {
        retryAfter := windowSec as real - (now - kept[0]);
        hits := hits[key := kept];
        return false, Max(0.0, retryAfter);
      }
      kept := kept + [now];
      hits := hits[key := kept];
      return true, 0.0;
    }

    /** `reset_rate_limits`: every key forgotten. */
    method Reset()
      modifies this
      ensures hits == map[]
    {
      hits := map[];
    }
  }

  /** A degenerate configuration always admits and leaves the state as it was. */
  lemma DegenerateConfigAdmits(state: map<string, seq<real>>, key: string, maxRequests: int, windowSec: int, now: real)
    requires maxRequests <= 0 || windowSec <= 0
    ensures Step(state, key, maxRequests, windowSec, now) == (state, Decision(true, 0.0))
  {
  }

  /**
   * With a proper configuration the check denies exactly when the times inside the
   * window (from `now - windowSec` on, inclusive) already number `maxRequests`; a
   * denial stores the pruned list, an admission stores it with `now` appended, and
   * no other key's entry is written.
   */
  lemma StepEffect(state: map<string, seq<real>>, key: string, maxRequests: int, windowSec: int, now: real)
    requires maxRequests > 0 && windowSec > 0
    ensures var (state', d) := Step(state, key, maxRequests, windowSec, now);
      var kept := Pruned(Hits(state, key), now - windowSec as real);
      && (d.allowed <==> |kept| < maxRequests)
      && key in state'
      && state'[key] == (if d.allowed then kept + [now] else kept)
      && (d.allowed ==> d.retryAfter == 0.0)
      && state'.Keys == state.Keys + {key}
      && (forall k :: k in state && k != key ==> state'[k] == state[k])
  {
  }

  /**
   * A denial's retry time is the time until the oldest surviving entry leaves the
   * window; it is never negative (so the clamp at zero never acts) and is at most
   * the window when that entry is not in the future.
   */
  lemma RetryAfterBounds(state: map<string, seq<real>>, key: string, maxRequests: int, windowSec: int, now: real)
    requires maxRequests > 0 && windowSec > 0
    requires !Step(state, key, maxRequests, windowSec, now).1.allowed
    ensures var kept := Pruned(Hits(state, key), now - windowSec as real);
      var d := Step(state, key, maxRequests, windowSec, now).1;
      && |kept| > 0
      && d.retryAfter == windowSec as real - (now - kept[0])
      && 0.0 <= d.retryAfter
      && (kept[0] <= now ==> d.retryAfter <= windowSec as real)
  {
    var kept := Pruned(Hits(state, key), now - windowSec as real);
    assert kept[0] >= now - windowSec as real;
  }

  /** Every stored list holds at most `maxRequests` times. */
  ghost predicate Bounded(state: map<string, seq<real>>, maxRequests: int) {
    forall k :: k in state ==> |state[k]| <= maxRequests
  }

  /** With a fixed configuration, no key's list grows beyond `maxRequests`. */
  lemma StepKeepsBounded(state: map<string, seq<real>>, key: string, maxRequests: int, windowSec: int, now: real)
    requires Bounded(state, maxRequests)
    ensures Bounded(Step(state, key, maxRequests, windowSec, now).0, maxRequests)
  {
  }

  /** After the window has passed every recorded time of a key, the next check is admitted and starts a new list. */
  lemma WindowExpiry(state: map<string, seq<real>>, key: string, maxRequests: int, windowSec: int, now: real)
    requires maxRequests > 0 && windowSec > 0
    requires forall i :: 0 <= i < |Hits(state, key)| ==> Hits(state, key)[i] < now - windowSec as real
    ensures Step(state, key, maxRequests, windowSec, now) == (state[key := [now]], Decision(true, 0.0))
  {
    PrunedDropsAll(Hits(state, key), now - windowSec as real);
    assert [] + [now] == [now];
  }

  /**
   * A denied key is admitted again once its retry time has passed: the oldest kept
   * time has then left the window, so fewer than `maxRequests` remain (the key never
   * held more than `maxRequests` times, as `StepKeepsBounded` keeps).
   */
  lemma ReadmittedAfterRetry(state: map<string, seq<real>>, key: string, maxRequests: int, windowSec: int,
                             now: real, later: real)
    requires maxRequests > 0 && windowSec > 0
    requires |Hits(state, key)| <= maxRequests
    requires !Step(state, key, maxRequests, windowSec, now).1.allowed
    requires later > now + Step(state, key, maxRequests, windowSec, now).1.retryAfter
    ensures Step(Step(state, key, maxRequests, windowSec, now).0, key, maxRequests, windowSec, later).1 == Decision(true, 0.0)
  {
    RetryAfterBounds(state, key, maxRequests, windowSec, now);
    var kept := Pruned(Hits(state, key), now - windowSec as real);
    var s' := Step(state, key, maxRequests, windowSec, now).0;
    assert Hits(s', key) == kept;
    var cutoff := later - windowSec as real;
    assert kept[0] < cutoff;
    assert Pruned(kept, cutoff) == Pruned(kept[1..], cutoff);
  }

  /** The state and the answers after successive checks of one key at the given times. */
  function Replay(state: map<string, seq<real>>, key: string, maxRequests: int, windowSec: int, times: seq<real>)
    : (map<string, seq<real>>, seq<Decision>)
    decreases |times|
  {
    if times == [] then (state, [])
    else
      var (s, ds) := Replay(state, key, maxRequests, windowSec, times[..|times| - 1]);
      var (s', d) := Step(s, key, maxRequests, windowSec, times[|times| - 1]);
      (s', ds + [d])
  }

  predicate Ascending(times: seq<real>) {
    forall i, j :: 0 <= i <= j < |times| ==> times[i] <= times[j]
  }

  /** One check of a key whose recorded times all lie inside the window and number fewer than the maximum: admitted and recorded. */
  lemma AdmitInsideWindow(state: map<string, seq<real>>, key: string, maxRequests: int, windowSec: int, now: real)
    requires maxRequests > 0 && windowSec > 0
    requires |Hits(state, key)| < maxRequests
    requires forall i :: 0 <= i < |Hits(state, key)| ==> Hits(state, key)[i] >= now - windowSec as real
    ensures var (state', d) := Step(state, key, maxRequests, windowSec, now);
      Hits(state', key) == Hits(state, key) + [now] && d == Decision(true, 0.0)
  {
    PrunedKeepsAll(Hits(state, key), now - windowSec as real);
  }

  /** The first `count` checks inside one window, starting from no history, are all admitted and recorded in order. */
  lemma {:induction false} BurstPrefix(state: map<string, seq<real>>, key: string, maxRequests: int, windowSec: int,
                                       times: seq<real>, count: nat)
    requires maxRequests > 0 && windowSec > 0
    requires Hits(state, key) == []
    requires Ascending(times) && |times| > 0
    requires times[|times| - 1] - times[0] <= windowSec as real
    requires count <= maxRequests && count <= |times|
    ensures var r := Replay(state, key, maxRequests, windowSec, times[..count]);
      && Hits(r.0, key) == times[..count]
      && |r.1| == count
      && forall i :: 0 <= i < count ==> r.1[i] == Decision(true, 0.0)
    decreases count
  {
    if count > 0 {
      var prev := times[..count - 1];
      var now := times[count - 1];
      assert times[..count] == prev + [now];
      BurstPrefix(state, key, maxRequests, windowSec, times, count - 1);
      WithinBurst(times, prev, now, windowSec);
      var r := Replay(state, key, maxRequests, windowSec, prev);
      BurstStep(r.0, r.1, key, maxRequests, windowSec, prev, now);
      ReplaySnoc(state, key, maxRequests, windowSec, prev, now);
    }
  }

  /** One more admitted check inside the window of the earlier ones: recorded, and admitted like them. */
  lemma BurstStep(state: map<string, seq<real>>, ds: seq<Decision>, key: string, maxRequests: int, windowSec: int,
                  prev: seq<real>, now: real)
    requires maxRequests > 0 && windowSec > 0
    requires Hits(state, key) == prev && |prev| < maxRequests
    requires forall i :: 0 <= i < |prev| ==> prev[i] >= now - windowSec as real
    requires forall i :: 0 <= i < |ds| ==> ds[i] == Decision(true, 0.0)
    ensures var (s', d) := Step(state, key, maxRequests, windowSec, now);
      && Hits(s', key) == prev + [now]
      && forall i :: 0 <= i < |ds| + 1 ==> (ds + [d])[i] == Decision(true, 0.0)
  {
    AdmitInsideWindow(state, key, maxRequests, windowSec, now);
  }

  /** Replaying one more check is one more step after the replay. */
  lemma ReplaySnoc(state: map<string, seq<real>>, key: string, maxRequests: int, windowSec: int,
                   prev: seq<real>, now: real)
    ensures var r := Replay(state, key, maxRequests, windowSec, prev);
      var (s', d) := Step(r.0, key, maxRequests, windowSec, now);
      Replay(state, key, maxRequests, windowSec, prev + [now]) == (s', r.1 + [d])
  {
    assert (prev + [now])[..|prev|] == prev;
  }

  /** In an ascending burst no longer than the window, every time before a check lies inside that check's window. */
  lemma WithinBurst(times: seq<real>, prev: seq<real>, now: real, windowSec: int)
    requires Ascending(times) && |prev| < |times|
    requires prev == times[..|prev|] && now == times[|prev|]
    requires times[|times| - 1] - times[0] <= windowSec as real
    ensures forall i :: 0 <= i < |prev| ==> prev[i] >= now - windowSec as real
  {
    assert now <= times[|times| - 1];
    forall i | 0 <= i < |prev| ensures prev[i] >= now - windowSec as real {
      assert prev[i] == times[i];
      assert times[0] <= times[i];
    }
  }

  /**
   * `maxRequests` checks of one fresh key inside one window are admitted and the
   * next one inside that window is denied, with a retry time that runs to the
   * moment the first admitted time leaves the window (positive when the burst
   * is strictly shorter than the window).
   */
  lemma {:induction false} BurstThenDeny(state: map<string, seq<real>>, key: string, maxRequests: int, windowSec: int,
                                         times: seq<real>)
    requires maxRequests > 0 && windowSec > 0
    requires Hits(state, key) == []
    requires |times| == maxRequests + 1 && Ascending(times)
    requires times[maxRequests] - times[0] <= windowSec as real
    ensures var ds := Replay(state, key, maxRequests, windowSec, times).1;
      && |ds| == maxRequests + 1
      && (forall i :: 0 <= i < maxRequests ==> ds[i] == Decision(true, 0.0))
      && ds[maxRequests] == Decision(false, windowSec as real - (times[maxRequests] - times[0]))
      && (times[maxRequests] - times[0] < windowSec as real ==> ds[maxRequests].retryAfter > 0.0)
  {
    var prev := times[..maxRequests];
    var now := times[maxRequests];
    BurstPrefix(state, key, maxRequests, windowSec, times, maxRequests);
    assert times == prev + [now];
    WithinBurst(times, prev, now, windowSec);
    var r := Replay(state, key, maxRequests, windowSec, prev);
    DenyStep(r.0, key, maxRequests, windowSec, prev, now);
    ReplaySnoc(state, key, maxRequests, windowSec, prev, now);
    assert prev[0] == times[0];
    var d := Step(r.0, key, maxRequests, windowSec, now).1;
    assert forall i :: 0 <= i < maxRequests ==> (r.1 + [d])[i] == r.1[i];
  }

  /** A check of a key holding the maximum number of times, all inside the window, is denied until the oldest leaves it. */
  lemma DenyStep(state: map<string, seq<real>>, key: string, maxRequests: int, windowSec: int, prev: seq<real>, now: real)
    requires maxRequests > 0 && windowSec > 0
    requires Hits(state, key) == prev && |prev| == maxRequests
    requires forall i :: 0 <= i < |prev| ==> prev[i] >= now - windowSec as real
    ensures Step(state, key, maxRequests, windowSec, now).1 == Decision(false, windowSec as real - (now - prev[0]))
  {
    PrunedKeepsAll(prev, now - windowSec as real);
  }
}
