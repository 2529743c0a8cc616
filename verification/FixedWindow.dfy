/** The single-key limiter of the desktop server, compacting its array in place. */
module FixedWindow {
  import opened RateHistory

  // The calls that have not slid out of the window.
  function Current(times: seq<int>, windowStart: int): seq<int> {
    if times == [] then []
    else
      Current(times[..|times| - 1], windowStart) +
      if times[|times| - 1] >= windowStart then [times[|times| - 1]] else []
  }

  lemma CurrentSnoc(times: seq<int>, t: int, windowStart: int)
    ensures Current(times + [t], windowStart) == Current(times, windowStart) + if t >= windowStart then [t] else []
  {
    assert (times + [t])[..|times|] == times;
  }

  lemma {:induction false} CurrentSize(times: seq<int>, windowStart: int)
    ensures |Current(times, windowStart)| == CountAfter(times, windowStart - 1)
  {
    if times != [] {
      CurrentSize(times[..|times| - 1], windowStart);
    }
  }

  // Compacting twice is compacting once at the later time.
  lemma {:induction false} CurrentLater(times: seq<int>, earlier: int, later: int)
    requires earlier <= later
    ensures Current(Current(times, earlier), later) == Current(times, later)
  {
    if times != [] {
      CurrentLater(times[..|times| - 1], earlier, later);
      if times[|times| - 1] >= earlier {
        CurrentSnoc(Current(times[..|times| - 1], earlier), times[|times| - 1], later);
      } else {
        assert Current(times[..|times| - 1], earlier) + [] == Current(times[..|times| - 1], earlier);
      }
    }
  }

  class FixedWindowLimiter {
    const limit: nat
    const windowMs: int
    const timestamps: array<int>
    var length: nat

    // Every allowed call since construction; all calls are of one key here.
    ghost var history: seq<Call>
    ghost var clock: int

    ghost predicate Valid()
      reads this, timestamps
    {
      && windowMs >= 0
      && timestamps.Length == limit && length <= limit
      && Ordered(history)
      && (forall i :: 0 <= i < |history| ==> history[i].at <= clock && history[i].key == "")
      && Admitted(history, windowMs + 1, limit)
      && exists start :: start <= clock - windowMs && timestamps[..length] == Current(Times(history, ""), start)
    }

    constructor (limit: nat, windowMs: int, start: int)
      requires windowMs >= 0
      ensures Valid() && fresh(timestamps) && history == [] && clock == start
      ensures this.limit == limit && this.windowMs == windowMs
    {
      this.limit, this.windowMs := limit, windowMs;
      timestamps := new int[limit];
      length, history, clock := 0, [], start;
      new;
      assert timestamps[..0] == Current(Times(history, ""), start - windowMs);
    }

    // The compaction loop: `write` never overtakes `read`.
    method Compact(windowStart: int)
      requires length <= timestamps.Length
      modifies `length, timestamps
      ensures length <= old(length)
      ensures timestamps[..length] == Current(old(timestamps[..length]), windowStart)
    {
      hide Current;
      NothingCurrent(windowStart);
      var write := 0;
      ghost var was := timestamps[..length];
      for read := 0 to length
        invariant 0 <= write <= read && length == |was|
        invariant timestamps[..write] == Current(was[..read], windowStart)
        invariant timestamps[read..length] == was[read..]
      {
        var t := timestamps[read];
        assert t == timestamps[read..length][0] && timestamps[read..length][0] == was[read..][0];
        assert was[read..][0] == was[read];
        CurrentSnoc(was[..read], t, windowStart);
        assert was[..read + 1] == was[..read] + [t];
        if t >= windowStart {
          timestamps[write] := t;
          write := write + 1;
        }
        assert timestamps[read + 1..length] == timestamps[read..length][1..] by {
          assert forall k :: read < k < length ==> timestamps[k] == was[k];
        }
        assert was[read..][1..] == was[read + 1..];
      }
      assert was[..length] == was;
      length := write;
    }

    // `allow`: the verdict of the full history; a call exactly one window old still counts.
    method Allow(now: int) returns (ok: bool)
      requires Valid() && now >= clock
      modifies this, timestamps
      ensures Valid() && clock == now
      ensures ok <==> Count(old(history), "", now - windowMs - 1) < limit
      ensures history == if ok then old(history) + [Call("", now)] else old(history)
    {
      hide Ordered, Admitted, Current, Times;
      ghost var start :| start <= clock - windowMs && timestamps[..length] == Current(Times(history, ""), start);
      var windowStart := now - windowMs;
      Compact(windowStart);
      CurrentLater(Times(history, ""), start, windowStart);
      CurrentSize(Times(history, ""), windowStart);
      clock := now;
      ok := length < limit;
      if ok {
        ghost var call := Call("", now);
        AdmittedGrows(history, windowMs + 1, limit, call);
        TimesSnoc(history, call, "");
        CurrentSnoc(Times(history, ""), now, windowStart);
        OrderedSnoc(history, call);
        timestamps[length] := now;
        length := length + 1;
        history := history + [call];
        assert timestamps[..length] == timestamps[..length - 1] + [now];
      }
    }

    // `count` and `wouldAllow`: the verdict `allow` would give, without recording anything.
    method WouldAllow(now: int) returns (ok: bool)
      requires Valid() && now >= clock
      ensures ok <==> Count(history, "", now - windowMs - 1) < limit
    {
      hide Ordered, Admitted, Current, Times;
      ghost var start :| start <= clock - windowMs && timestamps[..length] == Current(Times(history, ""), start);
      var cutoff := now - windowMs;
      var active := 0;
      ghost var stored := timestamps[..length];
      NothingCurrent(cutoff);
      for i := 0 to length
        invariant active == |Current(stored[..i], cutoff)|
      {
        assert stored[..i + 1] == stored[..i] + [timestamps[i]];
        CurrentSnoc(stored[..i], timestamps[i], cutoff);
        if timestamps[i] >= cutoff {
          active := active + 1;
        }
      }
      assert stored[..length] == stored;
      CurrentLater(Times(history, ""), start, cutoff);
      CurrentSize(Times(history, ""), cutoff);
      ok := active < limit;
    }
  }

  lemma NothingCurrent(windowStart: int)
    ensures Current([], windowStart) == []
  {
  }

  lemma OrderedSnoc(history: seq<Call>, call: Call)
    requires Ordered(history) && forall i :: 0 <= i < |history| ==> history[i].at <= call.at
    ensures Ordered(history + [call])
  {
  }
}
