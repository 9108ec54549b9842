/** The per-key sliding-window rate limiter of the API layer. Time stamps
    are whole seconds handed in by the caller. */
module RateLimit {

  /** The queue after dropping, from the front, every entry older than
      the window: an entry exactly `window` seconds old stays. */
  function Evict(q: seq<int>, now: int, window: int): (r: seq<int>)
    ensures |r| <= |q|
    ensures r == [] || now - r[0] <= window
  {
    if q != [] && now - q[0] > window then Evict(q[1..], now, window) else q
  }

  /** Eviction keeps a suffix of the queue and drops only stale entries. */
  lemma {:induction false} EvictSuffix(q: seq<int>, now: int, window: int)
    ensures Evict(q, now, window) == q[|q| - |Evict(q, now, window)|..]
    ensures forall i :: 0 <= i < |q| - |Evict(q, now, window)| ==> now - q[i] > window
  {
    if q != [] && now - q[0] > window {
      EvictSuffix(q[1..], now, window);
    }
  }

  predicate Sorted(q: seq<int>) {
    forall i, j :: 0 <= i < j < |q| ==> q[i] <= q[j]
  }

  /** Entries not later than `now`. */
  predicate NotAfter(q: seq<int>, now: int) {
    forall i :: 0 <= i < |q| ==> q[i] <= now
  }

  /** On a sorted queue, eviction leaves a sorted queue holding only
      entries inside the window. */
  lemma EvictSorted(q: seq<int>, now: int, window: int)
    requires Sorted(q)
    ensures Sorted(Evict(q, now, window))
    ensures forall i :: 0 <= i < |Evict(q, now, window)| ==> now - Evict(q, now, window)[i] <= window
  {
    var r := Evict(q, now, window);
    EvictSuffix(q, now, window);
    SuffixOrdered(q, |q| - |r|, now);
    assert forall i :: 0 <= i < |r| ==> r[0] <= r[i];
  }

  /** A suffix of a sorted queue is sorted. */
  lemma SuffixOrdered(q: seq<int>, d: nat, now: int)
    requires d <= |q|
    ensures Sorted(q) ==> Sorted(q[d..])
    ensures NotAfter(q, now) ==> NotAfter(q[d..], now)
  {
  }

  /** Appending a time stamp not earlier than any entry keeps a queue sorted. */
  lemma AppendSorted(q: seq<int>, now: int)
    requires Sorted(q) && NotAfter(q, now)
    ensures Sorted(q + [now]) && NotAfter(q + [now], now)
  {
  }

  /** Eviction keeps a sorted queue of past entries sorted and in the past. */
  lemma EvictOrdered(q: seq<int>, now: int, window: int)
    requires Sorted(q) && NotAfter(q, now)
    ensures Sorted(Evict(q, now, window)) && NotAfter(Evict(q, now, window), now)
  {
    var r := Evict(q, now, window);
    EvictSorted(q, now, window);
    EvictSuffix(q, now, window);
    SuffixOrdered(q, |q| - |r|, now);
  }

  /** The queue stored for `key`; a key never seen has an empty one. */
  function Queue(hits: map<string, seq<int>>, key: string): seq<int> {
    if key in hits then hits[key] else []
  }

  /** The most entries a queue can hold under `maxRequests`. */
  function Capacity(maxRequests: int): nat {
    if maxRequests < 0 then 0 else maxRequests
  }

  /** No queue holds more than `cap` entries. */
  predicate Bounded(hits: map<string, seq<int>>, cap: nat) {
    forall key :: key in hits ==> |hits[key]| <= cap
  }

  /** Every queue is sorted and holds no entry later than `now`. */
  predicate AllOrdered(hits: map<string, seq<int>>, now: int) {
    forall key :: key in hits ==> Sorted(hits[key]) && NotAfter(hits[key], now)
  }

  /** Storing a sorted queue of past entries keeps every queue so. */
  lemma StoreOrdered(hits: map<string, seq<int>>, key: string, q: seq<int>, now: int)
    requires AllOrdered(hits, now) && Sorted(q) && NotAfter(q, now)
    ensures AllOrdered(hits[key := q], now)
  {
  }

  /** Later calls see the queues as ordered too. */
  lemma OrderedLater(hits: map<string, seq<int>>, now: int, later: int)
    requires AllOrdered(hits, now) && now <= later
    ensures AllOrdered(hits, later)
  {
  }

  class RateLimiter {
    const maxRequests: int
    const windowSeconds: int
    var hits: map<string, seq<int>>

    /** No queue holds more entries than allowed. */
    predicate Valid()
      reads this
    {
      Bounded(hits, Capacity(maxRequests))
    }

    constructor(maxRequests: int := 10, windowSeconds: int := 60)
      ensures this.maxRequests == maxRequests && this.windowSeconds == windowSeconds
      ensures hits == map[] && Valid()
    {
      this.maxRequests := maxRequests;
      this.windowSeconds := windowSeconds;
      hits := map[];
    }

    /** `allow`: evict the stale front entries of the key's queue, refuse
        when the queue is full, otherwise record `now`. The evicted queue
        is stored back even when the call is refused. */
    method Allow(key: string, now: int) returns (allowed: bool)
      requires Valid()
      modifies this
      ensures Valid()
      ensures var q := Evict(Queue(old(hits), key), now, windowSeconds);
              && allowed == (|q| < maxRequests)
              && hits == old(hits)[key := if allowed then q + [now] else q]
      ensures AllOrdered(old(hits), now) ==> AllOrdered(hits, now)
      ensures maxRequests <= 0 ==> !allowed
    {
      var q := Queue(hits, key);
      ghost var q0 := q;
      while q != [] && now - q[0] > windowSeconds
        invariant Evict(q, now, windowSeconds) == Evict(q0, now, windowSeconds)
        decreases |q|
      {
        q := q[1..];
      }
      assert Evict(q, now, windowSeconds) == q;
      ghost var ordered := AllOrdered(hits, now);
      if ordered {
        EvictOrdered(q0, now, windowSeconds);
      }
      if |q| >= maxRequests {
        if ordered {
          StoreOrdered(hits, key, q, now);
        }
        hits := hits[key := q];
        return false;
      }
      if ordered {
        AppendSorted(q, now);
        StoreOrdered(hits, key, q + [now], now);
      }
      hits := hits[key := q + [now]];
      return true;
    }
  }
}
