/** The per-peer and per-(peer, skill) limiters: lazy dropping and sweeping of sliding windows. */
module SlidingWindow {
  import opened RateHistory

  datatype Bucket = Bucket(timestamps: seq<int>, lastTouch: int)

  class RateLimiter {
    const windowMs: int
    const maxCalls: int
    var buckets: map<string, Bucket>
    var lastSweep: int

    // Every allowed call since construction, and the latest time seen.
    ghost var history: seq<Call>
    ghost var clock: int

    ghost predicate Valid()
      reads this
    {
      && Ordered(history)
      && Admitted(history, windowMs, maxCalls)
      && (forall i :: 0 <= i < |history| ==> history[i].at <= clock)
      && Stored(history, buckets, clock - windowMs, clock)
    }

    constructor (windowMs: int, maxCalls: int, start: int)
      ensures Valid() && history == [] && clock == start
      ensures this.windowMs == windowMs && this.maxCalls == maxCalls
    {
      this.windowMs, this.maxCalls := windowMs, maxCalls;
      buckets, lastSweep, history, clock := map[], 0, [], start;
    }

    // `reset`
    method Reset()
      requires Valid()
      modifies this
      ensures Valid() && history == [] && clock == old(clock) && buckets == map[]
    {
      buckets, history := map[], [];
    }

    // `maybeSweep`: only buckets that hold nothing of the window are removed.
    method MaybeSweep(now: int)
      requires Valid() && now >= clock
      modifies `buckets, `lastSweep, `clock
      ensures Valid() && clock == now
    {
      hide Stored, Ordered, Admitted;
      StoredLater(history, buckets, clock - windowMs, clock, now - windowMs, now);
      clock := now;
      if now - lastSweep < windowMs {
        return;
      }
      lastSweep := now;
      buckets := Sweep(history, buckets, now - windowMs, now);
    }

    // `allow`: the verdict is that of the full history.
    method Allow(key: string, now: int) returns (ok: bool)
      requires Valid() && now >= clock
      modifies this
      ensures Valid() && clock == now
      ensures ok <==> Count(old(history), key, now - windowMs) < maxCalls
      ensures history == if ok then old(history) + [Call(key, now)] else old(history)
    {
      hide Stored, Ordered, Admitted, Kept, Count;
      MaybeSweep(now);
      var cutoff := now - windowMs;
      var timestamps := if key in buckets then buckets[key].timestamps else [];
      BucketKept(history, buckets, cutoff, now, key);
      timestamps := DropOld(timestamps, cutoff, history, key);
      ok := |timestamps| < maxCalls;
      if !ok {
        StoredTouch(history, buckets, cutoff, now, key, timestamps);
        buckets := buckets[key := Bucket(timestamps, now)];
        return;
      }
      AdmittedGrows(history, windowMs, maxCalls, Call(key, now));
      StoredCall(history, buckets, cutoff, now, key, timestamps);
      history := history + [Call(key, now)];
      buckets := buckets[key := Bucket(timestamps + [now], now)];
    }
  }

  // Every bucket keeps its key's calls of the window, and only silent keys have no bucket.
  ghost predicate Stored(history: seq<Call>, buckets: map<string, Bucket>, cutoff: int, clock: int) {
    && (forall k :: k in buckets ==>
          && Kept(history, k, buckets[k].timestamps, cutoff)
          && Touched(history, k, buckets[k].lastTouch)
          && buckets[k].lastTouch <= clock)
    && (forall k :: k !in buckets ==> Kept(history, k, [], cutoff))
  }

  // Drops what has left the window, and counts what is left.
  method DropOld(timestamps: seq<int>, cutoff: int, ghost history: seq<Call>, ghost key: string) returns (kept: seq<int>)
    requires Ordered(history) && Kept(history, key, timestamps, cutoff)
    ensures Kept(history, key, kept, cutoff)
    ensures |kept| == Count(history, key, cutoff)
  {
    hide Kept, Ordered;
    var drop := 0;
    while drop < |timestamps| && timestamps[drop] <= cutoff
      invariant 0 <= drop <= |timestamps|
      invariant forall i :: 0 <= i < drop ==> timestamps[i] <= cutoff
    {
      drop := drop + 1;
    }
    RecentCount(history, key, timestamps, drop, cutoff);
    kept := timestamps[drop..];
  }

  // The loop over the buckets.
  method Sweep(ghost history: seq<Call>, buckets: map<string, Bucket>, cutoff: int, ghost clock: int)
    returns (left: map<string, Bucket>)
    requires Stored(history, buckets, cutoff, clock)
    ensures Stored(history, left, cutoff, clock)
    ensures left == map k | k in buckets && buckets[k].lastTouch >= cutoff :: buckets[k]
  {
    hide Stored;
    left := buckets;
    var keys := buckets.Keys;
    while keys != {}
      invariant Stored(history, left, cutoff, clock) && keys <= left.Keys <= buckets.Keys
      invariant forall k :: k in left ==> left[k] == buckets[k] && (k in keys || buckets[k].lastTouch >= cutoff)
      invariant forall k :: k in buckets && k !in left ==> buckets[k].lastTouch < cutoff
      decreases |keys|
    {
      var k :| k in keys;
      keys := keys - {k};
      if left[k].lastTouch < cutoff {
        SweptKey(history, left, cutoff, clock, k);
        left := left - {k};
      }
    }
  }

  lemma StoredLater(history: seq<Call>, buckets: map<string, Bucket>, cutoff: int, clock: int, later: int, now: int)
    requires Stored(history, buckets, cutoff, clock) && cutoff <= later && clock <= now
    ensures Stored(history, buckets, later, now)
  {
    hide Times, Touched;
  }

  lemma BucketKept(history: seq<Call>, buckets: map<string, Bucket>, cutoff: int, clock: int, key: string)
    requires Stored(history, buckets, cutoff, clock)
    ensures Kept(history, key, if key in buckets then buckets[key].timestamps else [], cutoff)
  {
  }

  lemma SweptKey(history: seq<Call>, buckets: map<string, Bucket>, cutoff: int, clock: int, key: string)
    requires Stored(history, buckets, cutoff, clock) && key in buckets && buckets[key].lastTouch < cutoff
    ensures Stored(history, buckets - {key}, cutoff, clock)
  {
    NothingRecent(history, key, buckets[key].lastTouch, cutoff);
    hide Kept, Touched;
  }

  lemma TimesUntil(history: seq<Call>, key: string, now: int)
    requires Ordered(history) && forall i :: 0 <= i < |history| ==> history[i].at <= now
    ensures Touched(history, key, now)
  {
    TimesSorted(history, key);
  }

  lemma StoredTouch(history: seq<Call>, buckets: map<string, Bucket>, cutoff: int, now: int, key: string, kept: seq<int>)
    requires Stored(history, buckets, cutoff, now) && Kept(history, key, kept, cutoff)
    requires Ordered(history) && forall i :: 0 <= i < |history| ==> history[i].at <= now
    ensures Stored(history, buckets[key := Bucket(kept, now)], cutoff, now)
  {
    TimesUntil(history, key, now);
    hide Kept, Touched;
  }

  lemma StoredCall(history: seq<Call>, buckets: map<string, Bucket>, cutoff: int, now: int, key: string, kept: seq<int>)
    requires Stored(history, buckets, cutoff, now) && Kept(history, key, kept, cutoff)
    requires Ordered(history) && forall i :: 0 <= i < |history| ==> history[i].at <= now
    ensures Stored(history + [Call(key, now)], buckets[key := Bucket(kept + [now], now)], cutoff, now)
    ensures Ordered(history + [Call(key, now)])
  {
    CallAppended(history, key, now, kept, cutoff);
    CallOrdered(history, Call(key, now));
    hide Ordered, Kept, Touched;
    forall k: string, timestamps: seq<int>, lastTouch: int | k != key
      ensures Kept(history + [Call(key, now)], k, timestamps, cutoff) <==> Kept(history, k, timestamps, cutoff)
      ensures Touched(history + [Call(key, now)], k, lastTouch) <==> Touched(history, k, lastTouch)
    {
      OthersStay(history, Call(key, now), k, timestamps, cutoff, lastTouch);
    }
  }

  lemma OthersStay(history: seq<Call>, call: Call, k: string, timestamps: seq<int>, cutoff: int, lastTouch: int)
    requires k != call.key
    ensures Kept(history + [call], k, timestamps, cutoff) <==> Kept(history, k, timestamps, cutoff)
    ensures Touched(history + [call], k, lastTouch) <==> Touched(history, k, lastTouch)
  {
    TimesSnoc(history, call, k);
    hide Times;
    assert Times(history, k) + [] == Times(history, k);
  }

  // `timestamps` are the key's times but for some that are no later than `cutoff`.
  ghost predicate Kept(history: seq<Call>, key: string, timestamps: seq<int>, cutoff: int) {
    var times := Times(history, key);
    && |timestamps| <= |times|
    && timestamps == times[|times| - |timestamps|..]
    && forall i :: 0 <= i < |times| - |timestamps| ==> times[i] <= cutoff
  }

  ghost predicate Touched(history: seq<Call>, key: string, lastTouch: int) {
    var times := Times(history, key);
    forall i :: 0 <= i < |times| ==> times[i] <= lastTouch
  }

  lemma NothingRecent(history: seq<Call>, key: string, lastTouch: int, cutoff: int)
    requires Touched(history, key, lastTouch) && lastTouch < cutoff
    ensures Kept(history, key, [], cutoff)
  {
    hide Times;
  }

  // Dropping the old times leaves what the full history counts.
  lemma RecentCount(history: seq<Call>, key: string, timestamps: seq<int>, drop: nat, cutoff: int)
    requires Ordered(history) && Kept(history, key, timestamps, cutoff) && drop <= |timestamps|
    requires forall i :: 0 <= i < drop ==> timestamps[i] <= cutoff
    requires drop < |timestamps| ==> timestamps[drop] > cutoff
    ensures |timestamps| - drop == Count(history, key, cutoff)
    ensures Kept(history, key, timestamps[drop..], cutoff)
  {
    TimesSorted(history, key);
    hide Times, Ordered;
    RecentTimes(Times(history, key), timestamps, drop, cutoff);
  }

  lemma RecentTimes(times: seq<int>, timestamps: seq<int>, drop: nat, cutoff: int)
    requires IsSorted(times) && drop <= |timestamps| <= |times|
    requires timestamps == times[|times| - |timestamps|..]
    requires forall i :: 0 <= i < |times| - |timestamps| ==> times[i] <= cutoff
    requires forall i :: 0 <= i < drop ==> timestamps[i] <= cutoff
    requires drop < |timestamps| ==> timestamps[drop] > cutoff
    ensures |timestamps| - drop == CountAfter(times, cutoff)
    ensures timestamps[drop..] == times[|times| - (|timestamps| - drop)..]
    ensures forall i :: 0 <= i < |times| - (|timestamps| - drop) ==> times[i] <= cutoff
  {
    var d := |times| - |timestamps|;
    assert forall i :: d <= i < |times| ==> times[i] == timestamps[i - d];
    assert times[d + drop..] == timestamps[drop..];
    DroppedCount(times, d + drop, cutoff);
  }

  lemma CallOrdered(history: seq<Call>, call: Call)
    requires Ordered(history) && forall i :: 0 <= i < |history| ==> history[i].at <= call.at
    ensures Ordered(history + [call])
  {
  }

  lemma CallAppended(history: seq<Call>, key: string, now: int, kept: seq<int>, cutoff: int)
    requires Ordered(history) && forall i :: 0 <= i < |history| ==> history[i].at <= now
    requires Kept(history, key, kept, cutoff)
    ensures Kept(history + [Call(key, now)], key, kept + [now], cutoff)
    ensures Touched(history + [Call(key, now)], key, now)
  {
    TimesUntil(history, key, now);
    TimesSnoc(history, Call(key, now), key);
    hide Times, Ordered;
    var times := Times(history, key);
    var d := |times| - |kept|;
    assert (times + [now])[d..] == times[d..] + [now];
  }
}
