/** One channel's bucket of the streaming gate, and the run of checks it belongs to. */
module TelemetryBucket {
  import opened Text
  import opened StreamHistory

  datatype StreamRateConfig = StreamRateConfig(windowMs: int, maxMessagesPerSecond: int, maxBytesPerSecond: int) {
    // What `validateConfig` lets through.
    predicate Valid() { windowMs > 0 && maxMessagesPerSecond > 0 && maxBytesPerSecond > 0 }
  }

  datatype StreamBucket = StreamBucket(
    config: StreamRateConfig, entries: seq<Entry>, denials: nat, pinchedUntil: int, lastTouch: int)

  // `Violation` is the raised error; `Pinched` is a drop with reason "stream-violation".
  datatype Verdict = Allowed | MessageCap | ByteCap | Violation | Pinched

  // A checked frame and its verdict.
  datatype Attempt = Attempt(frame: Frame, verdict: Verdict)

  // ----- The run so far -----

  function AllowedOf(log: seq<Attempt>): seq<Frame> {
    if log == [] then []
    else
      AllowedOf(log[..|log| - 1]) + if log[|log| - 1].verdict.Allowed? then [log[|log| - 1].frame] else []
  }

  // Cap denials of a channel since its last allowed frame or violation.
  function Streak(log: seq<Attempt>, key: string): nat {
    if log == [] then 0
    else
      var before, last := Streak(log[..|log| - 1], key), log[|log| - 1];
      if last.frame.key != key then before
      else
        match last.verdict
        case Allowed => 0
        case Violation => 0
        case Pinched => before
        case _ => before + 1
  }

  // When the channel was last checked.
  function LastAt(log: seq<Attempt>, key: string): Option<int> {
    if log == [] then None
    else if log[|log| - 1].frame.key == key then Some(log[|log| - 1].frame.entry.at)
    else LastAt(log[..|log| - 1], key)
  }

  // When the channel last raised the error.
  function LastViolation(log: seq<Attempt>, key: string): Option<int> {
    if log == [] then None
    else
      var last := log[|log| - 1];
      if last.frame.key == key && last.verdict.Violation? then Some(last.frame.entry.at)
      else LastViolation(log[..|log| - 1], key)
  }

  lemma AllowedSnoc(log: seq<Attempt>, a: Attempt)
    ensures AllowedOf(log + [a]) == AllowedOf(log) + if a.verdict.Allowed? then [a.frame] else []
  {
    assert (log + [a])[..|log|] == log;
  }

  lemma StreakSnoc(log: seq<Attempt>, a: Attempt, key: string)
    ensures Streak(log + [a], key) ==
            if a.frame.key != key || a.verdict.Pinched? then Streak(log, key)
            else if a.verdict.Allowed? || a.verdict.Violation? then 0
            else Streak(log, key) + 1
  {
    assert (log + [a])[..|log|] == log;
  }

  lemma LastSnoc(log: seq<Attempt>, a: Attempt, key: string)
    ensures LastAt(log + [a], key) == if a.frame.key == key then Some(a.frame.entry.at) else LastAt(log, key)
    ensures LastViolation(log + [a], key) ==
            if a.frame.key == key && a.verdict.Violation? then Some(a.frame.entry.at) else LastViolation(log, key)
  {
    assert (log + [a])[..|log|] == log;
  }

  // ----- Budgets -----

  // The frame fits into the budget of the window that ends now.
  predicate Fits(config: StreamRateConfig, entries: seq<Entry>, frame: Entry) {
    && Total(entries, frame.at - config.windowMs, Frames) < config.maxMessagesPerSecond
    && Total(entries, frame.at - config.windowMs, Bytes) + frame.bytes <= config.maxBytesPerSecond
  }

  // The verdict on a frame, given the frames let through so far, whether the channel is pinched,
  // and its denials in a row.
  function VerdictFor(config: StreamRateConfig, pinched: bool, denials: nat, entries: seq<Entry>, frame: Entry): Verdict {
    if pinched then Pinched
    else if Fits(config, entries, frame) then Allowed
    else if denials + 1 > config.maxMessagesPerSecond * 2 then Violation
    else if frame.bytes <= config.maxBytesPerSecond &&
            Total(entries, frame.at - config.windowMs, Frames) >= config.maxMessagesPerSecond then MessageCap
    else ByteCap
  }

  // The verdict of a gate that keeps the whole run: a channel is pinched for two windows after
  // an error, and the denials are those since the last allowed frame or error.
  function HistoryVerdict(config: StreamRateConfig, log: seq<Attempt>, key: string, frame: Entry): Verdict {
    var violation := LastViolation(log, key);
    VerdictFor(config, violation.Some? && frame.at < violation.value + config.windowMs * 2,
               Streak(log, key), Entries(AllowedOf(log), key), frame)
  }

  function SumBytes(entries: seq<Entry>): nat {
    if entries == [] then 0 else SumBytes(entries[..|entries| - 1]) + entries[|entries| - 1].bytes
  }

  lemma {:induction false} AllRecent(entries: seq<Entry>, cutoff: int)
    requires forall i :: 0 <= i < |entries| ==> entries[i].at > cutoff
    ensures Total(entries, cutoff, Frames) == |entries|
    ensures Total(entries, cutoff, Bytes) == SumBytes(entries)
  {
    if entries != [] {
      AllRecent(entries[..|entries| - 1], cutoff);
    }
  }

  ghost predicate InOrder(entries: seq<Entry>) {
    forall i, j :: 0 <= i <= j < |entries| ==> entries[i].at <= entries[j].at
  }

  // ----- Checking a frame -----

  // How many entries have left the window.
  function Stale(entries: seq<Entry>, cutoff: int): (n: nat)
    ensures n <= |entries|
    ensures forall i :: 0 <= i < n ==> entries[i].at <= cutoff
    ensures n < |entries| ==> entries[n].at > cutoff
  {
    if entries == [] || entries[0].at > cutoff then 0 else 1 + Stale(entries[1..], cutoff)
  }

  // The bucket after the cooldown check of `consume`.
  function Reopened(bucket: StreamBucket, now: int): StreamBucket {
    if bucket.pinchedUntil != 0 && bucket.pinchedUntil <= now
    then bucket.(pinchedUntil := 0, denials := 0)
    else bucket
  }

  // `deny`
  function Denied(bucket: StreamBucket, now: int, reason: Verdict): (StreamBucket, Verdict) {
    var next := bucket.(denials := bucket.denials + 1);
    if next.denials > bucket.config.maxMessagesPerSecond * 2
    then (next.(pinchedUntil := now + bucket.config.windowMs * 2), Violation)
    else (next, reason)
  }

  // `consume`
  function ConsumeOf(bucket: StreamBucket, now: int, byteSize: nat): (StreamBucket, Verdict) {
    if bucket.pinchedUntil > now then (bucket.(lastTouch := now), Pinched)
    else
      var r, config := Reopened(bucket, now), bucket.config;
      var b := r.(entries := r.entries[Stale(r.entries, now - config.windowMs)..], lastTouch := now);
      if byteSize > config.maxBytesPerSecond then Denied(b, now, ByteCap)
      else if |b.entries| >= config.maxMessagesPerSecond then Denied(b, now, MessageCap)
      else if SumBytes(b.entries) + byteSize > config.maxBytesPerSecond then Denied(b, now, ByteCap)
      else (b.(denials := 0, entries := b.entries + [Entry(now, byteSize)]), Allowed)
  }

  // What checking a frame leaves: nothing of the window is lost.
  ghost predicate Changed(bucket: StreamBucket, now: int, frame: Entry, next: StreamBucket, verdict: Verdict) {
    var window, open := bucket.config.windowMs, Reopened(bucket, now);
    && next.config == bucket.config && next.lastTouch == now
    && (verdict.Pinched? ==> next == bucket.(lastTouch := now))
    && (!verdict.Pinched? ==>
          && next.pinchedUntil == (if verdict.Violation? then now + window * 2 else open.pinchedUntil)
          && next.denials == (if verdict.Allowed? then 0 else open.denials + 1)
          && var live := bucket.entries[Stale(bucket.entries, now - window)..];
             next.entries == if verdict.Allowed? then live + [frame] else live)
  }

  // What checking a frame means: the verdict is that of the bucket's budget.
  ghost predicate Consumed(bucket: StreamBucket, now: int, byteSize: nat, next: StreamBucket, verdict: Verdict) {
    var frame := Entry(now, byteSize);
    && verdict == VerdictFor(bucket.config, bucket.pinchedUntil > now, Reopened(bucket, now).denials, bucket.entries, frame)
    && Changed(bucket, now, frame, next, verdict)
  }

  lemma {:induction false} StaleRest(entries: seq<Entry>, cutoff: int, i: nat)
    requires InOrder(entries) && Stale(entries, cutoff) <= i < |entries|
    ensures entries[i].at > cutoff
  {
  }

  // The entries left are those that count.
  lemma WindowOf(entries: seq<Entry>, cutoff: int)
    requires InOrder(entries)
    ensures var live := entries[Stale(entries, cutoff)..];
            Total(entries, cutoff, Frames) == |live| && Total(entries, cutoff, Bytes) == SumBytes(live)
  {
    hide Total, SumBytes, InOrder;
    var drop := Stale(entries, cutoff);
    TotalSuffix(entries, drop, cutoff, Frames);
    TotalSuffix(entries, drop, cutoff, Bytes);
    var live := entries[drop..];
    forall i | 0 <= i < |live|
      ensures live[i].at > cutoff
    {
      StaleRest(entries, cutoff, drop + i);
    }
    AllRecent(live, cutoff);
  }

  lemma ConsumeVerdict(bucket: StreamBucket, now: int, byteSize: nat)
    requires InOrder(bucket.entries)
    ensures ConsumeOf(bucket, now, byteSize).1 ==
            VerdictFor(bucket.config, bucket.pinchedUntil > now, Reopened(bucket, now).denials, bucket.entries, Entry(now, byteSize))
  {
    hide Total, SumBytes, InOrder, Stale, Fits, Reopened;
    if bucket.pinchedUntil <= now {
      var cutoff := now - bucket.config.windowMs;
      WindowOf(bucket.entries, cutoff);
      hide VerdictFor;
      var open := Reopened(bucket, now);
      ReopenedKeeps(bucket, now);
      OpenVerdict(bucket.config, bucket.entries[Stale(bucket.entries, cutoff)..], bucket.entries, Entry(now, byteSize), open.denials);
    }
  }

  lemma ReopenedKeeps(bucket: StreamBucket, now: int)
    ensures Reopened(bucket, now).entries == bucket.entries && Reopened(bucket, now).config == bucket.config
  {
  }

  // The checks of `consume`, in their order, against the budget.
  lemma OpenVerdict(config: StreamRateConfig, live: seq<Entry>, entries: seq<Entry>, frame: Entry, denials: nat)
    requires Total(entries, frame.at - config.windowMs, Frames) == |live|
    requires Total(entries, frame.at - config.windowMs, Bytes) == SumBytes(live)
    ensures VerdictFor(config, false, denials, entries, frame) ==
            var reason :=
              if frame.bytes > config.maxBytesPerSecond then Some(ByteCap)
              else if |live| >= config.maxMessagesPerSecond then Some(MessageCap)
              else if SumBytes(live) + frame.bytes > config.maxBytesPerSecond then Some(ByteCap)
              else None;
            if reason.None? then Allowed
            else if denials + 1 > config.maxMessagesPerSecond * 2 then Violation else reason.value
  {
    hide Total, SumBytes;
  }

  lemma ConsumeBucket(bucket: StreamBucket, now: int, byteSize: nat)
    ensures var r := ConsumeOf(bucket, now, byteSize); Changed(bucket, now, Entry(now, byteSize), r.0, r.1)
  {
    hide SumBytes, Stale;
  }

  lemma ConsumeMeans(bucket: StreamBucket, now: int, byteSize: nat)
    requires InOrder(bucket.entries)
    ensures var r := ConsumeOf(bucket, now, byteSize); Consumed(bucket, now, byteSize, r.0, r.1)
  {
    ConsumeVerdict(bucket, now, byteSize);
    ConsumeBucket(bucket, now, byteSize);
    hide ConsumeOf, VerdictFor, Stale, Reopened, InOrder, Changed;
  }

  // Drops the entries that have left the window.
  method DropOld(entries: seq<Entry>, cutoff: int) returns (drop: nat)
    ensures drop == Stale(entries, cutoff)
  {
    drop := 0;
    assert entries[0..] == entries;
    while drop < |entries| && entries[drop].at <= cutoff
      invariant drop <= |entries|
      invariant drop + Stale(entries[drop..], cutoff) == Stale(entries, cutoff)
    {
      assert entries[drop..][1..] == entries[drop + 1..];
      drop := drop + 1;
    }
  }

  // `reduce` over the entries.
  method WindowBytes(entries: seq<Entry>) returns (sum: nat)
    ensures sum == SumBytes(entries)
  {
    sum := 0;
    for i := 0 to |entries|
      invariant sum == SumBytes(entries[..i])
    {
      assert entries[..i + 1][..i] == entries[..i];
      sum := sum + entries[i].bytes;
    }
    assert entries[..|entries|] == entries;
  }

  method Deny(bucket: StreamBucket, now: int, reason: Verdict) returns (next: StreamBucket, verdict: Verdict)
    ensures (next, verdict) == Denied(bucket, now, reason)
  {
    next := bucket.(denials := bucket.denials + 1);
    if next.denials > bucket.config.maxMessagesPerSecond * 2 {
      next := next.(pinchedUntil := now + bucket.config.windowMs * 2);
      return next, Violation;
    }
    return next, reason;
  }

  method Consume(bucket: StreamBucket, now: int, byteSize: nat) returns (next: StreamBucket, verdict: Verdict)
    requires InOrder(bucket.entries)
    ensures (next, verdict) == ConsumeOf(bucket, now, byteSize)
    ensures Consumed(bucket, now, byteSize, next, verdict)
  {
    ConsumeMeans(bucket, now, byteSize);
    hide Total, SumBytes, InOrder, Stale, Consumed;
    if bucket.pinchedUntil > now {
      return bucket.(lastTouch := now), Pinched;
    }
    var b := bucket;
    if b.pinchedUntil != 0 && b.pinchedUntil <= now {
      b := b.(pinchedUntil := 0, denials := 0);
    }
    var drop := DropOld(b.entries, now - b.config.windowMs);
    b := b.(entries := b.entries[drop..], lastTouch := now);
    if byteSize > b.config.maxBytesPerSecond {
      next, verdict := Deny(b, now, ByteCap);
      return;
    }
    var windowBytes := WindowBytes(b.entries);
    if |b.entries| >= b.config.maxMessagesPerSecond {
      next, verdict := Deny(b, now, MessageCap);
      return;
    }
    if windowBytes + byteSize > b.config.maxBytesPerSecond {
      next, verdict := Deny(b, now, ByteCap);
      return;
    }
    next := b.(denials := 0, entries := b.entries + [Entry(now, byteSize)]);
    verdict := Allowed;
  }
}
