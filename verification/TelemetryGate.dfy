/** The streaming gate: per-channel message and byte budgets, and pinching of abusive channels. */
module TelemetryGate {
  import opened Text
  import opened CompoundKeys
  import opened StreamHistory
  import opened TelemetryBucket
  import opened TelemetryTrace

  // ----- Buckets and the run -----

  // What a bucket of the default budget knows about its channel's run.
  ghost predicate BucketOk(config: StreamRateConfig, log: seq<Attempt>, key: string, b: StreamBucket, clock: int) {
    && b.config == config
    && Kept(AllowedOf(log), key, b.entries, clock - config.windowMs)
    && InOrder(Entries(AllowedOf(log), key))
    && (forall i :: 0 <= i < |Entries(AllowedOf(log), key)| ==> Entries(AllowedOf(log), key)[i].at <= b.lastTouch)
    && b.lastTouch <= clock
    && (b.pinchedUntil == 0 ==> b.denials <= Streak(log, key))
    && (b.pinchedUntil != 0 ==> LastViolation(log, key) == Some(b.pinchedUntil - config.windowMs * 2))
  }

  ghost predicate NothingKept(config: StreamRateConfig, log: seq<Attempt>, key: string, clock: int) {
    && Kept(AllowedOf(log), key, [], clock - config.windowMs)
    && InOrder(Entries(AllowedOf(log), key))
    && (forall i :: 0 <= i < |Entries(AllowedOf(log), key)| ==> Entries(AllowedOf(log), key)[i].at <= clock)
  }

  // The channel has stayed within both budgets so far.
  ghost predicate WithinBudget(config: StreamRateConfig, log: seq<Attempt>, key: string)
    requires config.Valid()
  {
    && Fitted(AllowedOf(log), key, config.windowMs, Frames, config.maxMessagesPerSecond)
    && Fitted(AllowedOf(log), key, config.windowMs, Bytes, config.maxBytesPerSecond)
  }

  lemma BucketLater(config: StreamRateConfig, log: seq<Attempt>, key: string, b: StreamBucket, clock: int, now: int)
    requires BucketOk(config, log, key, b, clock) && clock <= now
    ensures BucketOk(config, log, key, b, now)
  {
    hide AllowedOf, Entries, Streak, LastViolation, InOrder;
  }

  lemma NothingLater(config: StreamRateConfig, log: seq<Attempt>, key: string, clock: int, now: int)
    requires NothingKept(config, log, key, clock) && clock <= now
    ensures NothingKept(config, log, key, now)
  {
    hide AllowedOf, Entries, InOrder;
  }

  // A swept bucket takes nothing of the window with it.
  lemma SweptBucket(config: StreamRateConfig, log: seq<Attempt>, key: string, b: StreamBucket, clock: int)
    requires BucketOk(config, log, key, b, clock) && b.lastTouch < clock - config.windowMs
    ensures NothingKept(config, log, key, clock)
  {
    hide AllowedOf, Entries, Streak, LastViolation, InOrder;
  }

  // The bucket a channel without one gets.
  lemma NewBucket(config: StreamRateConfig, log: seq<Attempt>, key: string, now: int)
    requires NothingKept(config, log, key, now)
    ensures BucketOk(config, log, key, StreamBucket(config, [], 0, 0, now), now)
  {
    hide AllowedOf, Entries, LastViolation, InOrder;
  }

  // Another channel's attempt changes nothing for this one.
  lemma OtherEntries(log: seq<Attempt>, a: Attempt, key: string)
    requires a.frame.key != key || !a.verdict.Allowed?
    ensures Entries(AllowedOf(log + [a]), key) == Entries(AllowedOf(log), key)
  {
    hide AllowedOf;
    AllowedSnoc(log, a);
    if a.verdict.Allowed? {
      EntriesSnoc(AllowedOf(log), a.frame, key);
      assert Entries(AllowedOf(log), key) + [] == Entries(AllowedOf(log), key);
    } else {
      assert AllowedOf(log) + [] == AllowedOf(log);
    }
  }

  lemma OtherChannel(config: StreamRateConfig, log: seq<Attempt>, key: string, b: StreamBucket, now: int, a: Attempt)
    requires BucketOk(config, log, key, b, now) && a.frame.key != key
    ensures BucketOk(config, log + [a], key, b, now)
  {
    OtherEntries(log, a, key);
    StreakSnoc(log, a, key);
    LastSnoc(log, a, key);
    hide AllowedOf, Entries, Streak, LastViolation, InOrder;
  }

  lemma OtherNothing(config: StreamRateConfig, log: seq<Attempt>, key: string, now: int, a: Attempt)
    requires NothingKept(config, log, key, now) && a.frame.key != key
    ensures NothingKept(config, log + [a], key, now)
  {
    OtherEntries(log, a, key);
    hide AllowedOf, Entries, InOrder;
  }

  lemma BudgetKept(config: StreamRateConfig, log: seq<Attempt>, key: string, a: Attempt)
    requires config.Valid() && WithinBudget(config, log, key)
    requires a.frame.key == key && a.verdict.Allowed? ==> Fits(config, Entries(AllowedOf(log), key), a.frame.entry)
    ensures WithinBudget(config, log + [a], key)
  {
    hide AllowedOf, Entries, Fitted, Total;
    AllowedSnoc(log, a);
    if a.verdict.Allowed? {
      FittedGrows(AllowedOf(log), key, config.windowMs, Frames, config.maxMessagesPerSecond, a.frame);
      FittedGrows(AllowedOf(log), key, config.windowMs, Bytes, config.maxBytesPerSecond, a.frame);
    } else {
      assert AllowedOf(log) + [] == AllowedOf(log);
    }
  }

  // The verdict on a bucket is the verdict on the full history.
  lemma FitsIsOfHistory(config: StreamRateConfig, log: seq<Attempt>, key: string, b: StreamBucket, frame: Entry)
    requires BucketOk(config, log, key, b, frame.at)
    ensures Total(b.entries, frame.at - config.windowMs, Frames) == Total(Entries(AllowedOf(log), key), frame.at - config.windowMs, Frames)
    ensures Total(b.entries, frame.at - config.windowMs, Bytes) == Total(Entries(AllowedOf(log), key), frame.at - config.windowMs, Bytes)
    ensures Fits(config, b.entries, frame) <==> Fits(config, Entries(AllowedOf(log), key), frame)
    ensures InOrder(b.entries)
  {
    hide AllowedOf, Entries, Total;
    var cutoff := frame.at - config.windowMs;
    KeptTotal(AllowedOf(log), key, b.entries, cutoff, Frames);
    KeptTotal(AllowedOf(log), key, b.entries, cutoff, Bytes);
  }

  lemma HistoryGrows(log: seq<Attempt>, a: Attempt)
    ensures var key, all := a.frame.key, Entries(AllowedOf(log), a.frame.key);
            Entries(AllowedOf(log + [a]), key) == if a.verdict.Allowed? then all + [a.frame.entry] else all
  {
    hide AllowedOf, Entries;
    if a.verdict.Allowed? {
      AllowedSnoc(log, a);
      EntriesSnoc(AllowedOf(log), a.frame, a.frame.key);
    } else {
      OtherEntries(log, a, a.frame.key);
    }
  }

  lemma DroppedIsKept(log: seq<Attempt>, a: Attempt, entries: seq<Entry>, drop: nat, cutoff: int)
    requires Kept(AllowedOf(log), a.frame.key, entries, cutoff) && drop <= |entries|
    requires forall i :: 0 <= i < drop ==> entries[i].at <= cutoff
    ensures Kept(AllowedOf(log + [a]), a.frame.key, entries[drop..] + (if a.verdict.Allowed? then [a.frame.entry] else []), cutoff)
  {
    hide AllowedOf, Kept;
    KeptDrops(AllowedOf(log), a.frame.key, entries, drop, cutoff);
    AllowedSnoc(log, a);
    if a.verdict.Allowed? {
      KeptGrows(AllowedOf(log), a.frame.key, entries[drop..], cutoff, a.frame);
    } else {
      assert AllowedOf(log) + [] == AllowedOf(log) && entries[drop..] + [] == entries[drop..];
    }
  }

  lemma OwnEntries(config: StreamRateConfig, log: seq<Attempt>, a: Attempt, b: StreamBucket, next: StreamBucket)
    requires Kept(AllowedOf(log), a.frame.key, b.entries, a.frame.entry.at - config.windowMs)
    requires Consumed(b, a.frame.entry.at, a.frame.entry.bytes, next, a.verdict) && b.config == config
    ensures Kept(AllowedOf(log + [a]), a.frame.key, next.entries, a.frame.entry.at - config.windowMs)
  {
    hide AllowedOf, Fits, Total, Kept, Reopened, VerdictFor, Stale;
    var drop := if a.verdict.Pinched? then 0 else Stale(b.entries, a.frame.entry.at - config.windowMs);
    assert b.entries[drop..] + [] == b.entries[drop..];
    DroppedIsKept(log, a, b.entries, drop, a.frame.entry.at - config.windowMs);
  }

  lemma OwnHistory(log: seq<Attempt>, a: Attempt)
    requires var all := Entries(AllowedOf(log), a.frame.key);
             InOrder(all) && forall i :: 0 <= i < |all| ==> all[i].at <= a.frame.entry.at
    ensures var all := Entries(AllowedOf(log + [a]), a.frame.key);
            InOrder(all) && forall i :: 0 <= i < |all| ==> all[i].at <= a.frame.entry.at
  {
    HistoryGrows(log, a);
    hide AllowedOf, Entries;
  }

  // What the pinch and the denials of the next bucket say about the run.
  lemma OwnPinch(config: StreamRateConfig, log: seq<Attempt>, a: Attempt, b: StreamBucket, next: StreamBucket)
    requires config.Valid() && a.frame.entry.at >= 0 && b.config == config
    requires b.pinchedUntil == 0 ==> b.denials <= Streak(log, a.frame.key)
    requires b.pinchedUntil != 0 ==> LastViolation(log, a.frame.key) == Some(b.pinchedUntil - config.windowMs * 2)
    requires Consumed(b, a.frame.entry.at, a.frame.entry.bytes, next, a.verdict)
    ensures next.pinchedUntil == 0 ==> next.denials <= Streak(log + [a], a.frame.key)
    ensures next.pinchedUntil != 0 ==> LastViolation(log + [a], a.frame.key) == Some(next.pinchedUntil - config.windowMs * 2)
  {
    StreakSnoc(log, a, a.frame.key);
    LastSnoc(log, a, a.frame.key);
    hide Streak, LastViolation, Fits, Total, Stale;
  }

  lemma OwnChannel(config: StreamRateConfig, log: seq<Attempt>, a: Attempt, b: StreamBucket, next: StreamBucket)
    requires config.Valid() && a.frame.entry.at >= 0
    requires BucketOk(config, log, a.frame.key, b, a.frame.entry.at)
    requires Consumed(b, a.frame.entry.at, a.frame.entry.bytes, next, a.verdict)
    ensures BucketOk(config, log + [a], a.frame.key, next, a.frame.entry.at)
  {
    hide AllowedOf, Entries, Streak, LastViolation, InOrder, Kept, VerdictFor, Reopened, Stale;
    OwnEntries(config, log, a, b, next);
    OwnHistory(log, a);
    OwnPinch(config, log, a, b, next);
  }

  // ----- The gate -----

  // The verdict on a frame of a channel that was never registered or closed: that of the whole
  // run, but for denials, or a pinch, that a silence has made the gate forget.
  ghost predicate Verdicts(config: StreamRateConfig, log: seq<Attempt>, key: string, frame: Entry, verdict: Verdict) {
    var violation := LastViolation(log, key);
    && (verdict.Pinched? ==> violation.Some? && frame.at < violation.value + config.windowMs * 2)
    && exists denials: nat :: denials <= Streak(log, key) &&
         verdict == VerdictFor(config, verdict.Pinched?, denials, Entries(AllowedOf(log), key), frame)
  }

  // The buckets, and when idle ones were last removed.
  datatype Gate = Gate(buckets: map<string, StreamBucket>, lastSweep: int)

  // `maybeSweep`
  function SweptGate(config: StreamRateConfig, g: Gate, now: int): Gate {
    if now - g.lastSweep < config.windowMs then g
    else Gate(map k | k in g.buckets && g.buckets[k].lastTouch >= now - config.windowMs :: g.buckets[k], now)
  }

  function BucketFor(config: StreamRateConfig, g: Gate, key: string, now: int): StreamBucket {
    if key in g.buckets then g.buckets[key] else StreamBucket(config, [], 0, 0, now)
  }

  // `checkAndConsume` of a frame with a valid size
  function CheckOf(config: StreamRateConfig, g: Gate, key: string, byteSize: nat, now: int): (Gate, Verdict) {
    var swept := SweptGate(config, g, now);
    var r := ConsumeOf(BucketFor(config, swept, key, now), now, byteSize);
    (Gate(swept.buckets[key := r.0], swept.lastSweep), r.1)
  }

  class TelemetryGate {
    const defaultConfig: StreamRateConfig
    var buckets: map<string, StreamBucket>
    var lastSweep: int

    // All checked frames, the latest time, and the channels that were registered or closed.
    ghost var log: seq<Attempt>
    ghost var clock: int
    ghost var managed: set<string>

    function State(): Gate
      reads this
    {
      Gate(buckets, lastSweep)
    }

    ghost predicate Valid()
      reads this
    {
      && defaultConfig.Valid() && clock >= 0
      && Ready(defaultConfig, log, buckets, managed, clock)
    }

    constructor (config: StreamRateConfig, start: nat)
      requires config.Valid()
      ensures Valid() && log == [] && clock == start && managed == {} && defaultConfig == config
      ensures State() == Gate(map[], 0)
    {
      defaultConfig := config;
      buckets, lastSweep, log, clock, managed := map[], 0, [], start, {};
    }

    // `registerStream`: the channel's window starts over, under its own budget.
    method RegisterStream(peerId: string, channelId: string, config: StreamRateConfig, now: int) returns (ok: bool)
      requires Valid() && now >= clock
      modifies this
      ensures Valid() && log == old(log) && clock == now
      ensures ok <==> config.windowMs > 0 && config.maxMessagesPerSecond > 0 && config.maxBytesPerSecond > 0
      ensures var key := KeyFor(peerId, channelId);
              && managed == old(managed) + (if ok then {key} else {})
              && State() == if ok then Gate(old(buckets)[key := StreamBucket(config, [], 0, 0, now)], old(lastSweep))
                            else old(State())
    {
      hide ReadyKey;
      ReadyLater(defaultConfig, log, buckets, managed, clock, now);
      clock := now;
      if !config.Valid() {
        return false;
      }
      var key := KeyFor(peerId, channelId);
      managed := managed + {key};
      buckets := buckets[key := StreamBucket(config, [], 0, 0, now)];
      return true;
    }

    // `closeStream`
    method CloseStream(peerId: string, channelId: string)
      requires Valid()
      modifies `buckets, `managed
      ensures var key := KeyFor(peerId, channelId);
              Valid() && managed == old(managed) + {key} && buckets == old(buckets) - {key}
    {
      hide ReadyKey;
      var key := KeyFor(peerId, channelId);
      managed := managed + {key};
      buckets := buckets - {key};
    }

    // `maybeSweep`
    method MaybeSweep(now: int)
      requires Valid() && now >= clock
      modifies `buckets, `lastSweep, `clock
      ensures Valid() && clock == now && State() == SweptGate(defaultConfig, old(State()), now)
      ensures if now - old(lastSweep) < defaultConfig.windowMs then buckets == old(buckets) && lastSweep == old(lastSweep)
              else && lastSweep == now
                   && buckets == map k | k in old(buckets) && old(buckets)[k].lastTouch >= now - defaultConfig.windowMs :: old(buckets)[k]
    {
      ReadyLater(defaultConfig, log, buckets, managed, clock, now);
      ReadySwept(defaultConfig, log, buckets, managed, now);
      hide Ready;
      clock := now;
      if now - lastSweep < defaultConfig.windowMs {
        return;
      }
      lastSweep := now;
      buckets := SweepLoop(buckets, now - defaultConfig.windowMs);
    }

    static method SweepLoop(buckets: map<string, StreamBucket>, cutoff: int) returns (left: map<string, StreamBucket>)
      ensures left == map k | k in buckets && buckets[k].lastTouch >= cutoff :: buckets[k]
    {
      left := buckets;
      var keys := buckets.Keys;
      while keys != {}
        invariant keys <= left.Keys <= buckets.Keys
        invariant forall k :: k in left ==> left[k] == buckets[k] && (k in keys || left[k].lastTouch >= cutoff)
        invariant forall k :: k in buckets && k !in left ==> buckets[k].lastTouch < cutoff
        decreases |keys|
      {
        var k :| k in keys;
        keys := keys - {k};
        if left[k].lastTouch < cutoff {
          left := left - {k};
        }
      }
    }

    // `checkAndConsume`: what it does to the buckets, and, for a channel never registered or
    // closed, that the verdict is the one of the whole run as long as no two checks of the
    // channel were further apart than a window.
    method CheckAndConsume(peerId: string, channelId: string, byteSize: int, now: int) returns (valid: bool, verdict: Verdict)
      requires Valid() && now >= clock
      modifies this
      ensures Valid() && managed == old(managed)
      ensures valid <==> byteSize >= 0
      ensures !valid ==> unchanged(this)
      ensures valid ==> clock == now
      ensures valid ==> (State(), verdict) == CheckOf(defaultConfig, old(State()), KeyFor(peerId, channelId), byteSize, now)
      ensures valid ==> log == old(log) + [Attempt(Frame(KeyFor(peerId, channelId), Entry(now, byteSize)), verdict)]
      ensures var key := KeyFor(peerId, channelId);
              && (valid && key !in managed ==> Verdicts(defaultConfig, old(log), key, Entry(now, byteSize), verdict))
              && (valid && key !in managed && Steady(log, key, defaultConfig.windowMs) ==>
                    verdict == HistoryVerdict(defaultConfig, old(log), key, Entry(now, byteSize)))
    {
      hide Ready, Verdicts, ConsumeOf, HistoryVerdict, Steady, BucketFor, SweptGate, CheckOf, KeyFor;
      if byteSize < 0 {
        return false, ByteCap;
      }
      MaybeSweep(now);
      verdict := Check(KeyFor(peerId, channelId), byteSize, now);
      CheckIs(defaultConfig, old(State()), KeyFor(peerId, channelId), byteSize, now);
      return true, verdict;
    }

    method Check(key: string, byteSize: nat, now: int) returns (verdict: Verdict)
      requires Valid() && clock == now
      modifies `buckets, `log
      ensures Valid()
      ensures var r := ConsumeOf(BucketFor(defaultConfig, old(State()), key, now), now, byteSize);
              verdict == r.1 && buckets == old(buckets)[key := r.0]
      ensures log == old(log) + [Attempt(Frame(key, Entry(now, byteSize)), verdict)]
      ensures key !in managed ==> Verdicts(defaultConfig, old(log), key, Entry(now, byteSize), verdict)
      ensures key !in managed && Steady(log, key, defaultConfig.windowMs) ==>
                verdict == HistoryVerdict(defaultConfig, old(log), key, Entry(now, byteSize))
    {
      var bucket := if key in buckets then buckets[key] else StreamBucket(defaultConfig, [], 0, 0, now);
      ReadyBucket(defaultConfig, log, buckets, managed, now, key);
      assert bucket == BucketFor(defaultConfig, State(), key, now);
      hide Ready, Verdicts, Consumed, BucketOk, ConsumeOf, HistoryVerdict, Steady, BucketFor;
      var next;
      next, verdict := Consume(bucket, now, byteSize);
      ghost var a := Attempt(Frame(key, Entry(now, byteSize)), verdict);
      VerdictsHold(defaultConfig, log, buckets, managed, bucket, a, next);
      ReadyAttempt(defaultConfig, log, buckets, managed, now, bucket, a, next);
      log := log + [a];
      buckets := buckets[key := next];
    }
  }

  lemma CheckIs(config: StreamRateConfig, g: Gate, key: string, byteSize: nat, now: int)
    ensures var swept := SweptGate(config, g, now);
            var r := ConsumeOf(BucketFor(config, swept, key, now), now, byteSize);
            CheckOf(config, g, key, byteSize, now) == (Gate(swept.buckets[key := r.0], swept.lastSweep), r.1)
  {
    hide SweptGate, BucketFor, ConsumeOf;
  }

  lemma VerdictIsOfHistory(config: StreamRateConfig, log: seq<Attempt>, key: string, b: StreamBucket, frame: Entry,
                           next: StreamBucket, verdict: Verdict)
    requires BucketOk(config, log, key, b, frame.at) && config.Valid() && frame.at >= 0
    requires Consumed(b, frame.at, frame.bytes, next, verdict)
    ensures Verdicts(config, log, key, frame, verdict)
  {
    FitsIsOfHistory(config, log, key, b, frame);
    SameTotals(config, verdict.Pinched?, Reopened(b, frame.at).denials, b.entries, Entries(AllowedOf(log), key), frame);
    hide AllowedOf, Entries, Total, Streak, LastViolation, Fits, InOrder, Kept, Stale, Changed;
    if b.pinchedUntil > frame.at {
      assert verdict == VerdictFor(config, true, 0, Entries(AllowedOf(log), key), frame);
    } else {
      assert Reopened(b, frame.at).denials <= Streak(log, key);
    }
  }

  lemma SameTotals(config: StreamRateConfig, pinched: bool, denials: nat, a: seq<Entry>, b: seq<Entry>, frame: Entry)
    requires Total(a, frame.at - config.windowMs, Frames) == Total(b, frame.at - config.windowMs, Frames)
    requires Total(a, frame.at - config.windowMs, Bytes) == Total(b, frame.at - config.windowMs, Bytes)
    ensures VerdictFor(config, pinched, denials, a, frame) == VerdictFor(config, pinched, denials, b, frame)
  {
    hide Total;
  }

  // ----- What every run keeps -----

  function Slot(buckets: map<string, StreamBucket>, key: string): Option<StreamBucket> {
    if key in buckets then Some(buckets[key]) else None
  }

  // A channel that was never registered or closed has a faithful bucket, or nothing in its
  // window, has stayed within its budgets, and is remembered as long as it is not silent.
  ghost predicate ReadyKey(config: StreamRateConfig, log: seq<Attempt>, key: string, slot: Option<StreamBucket>, clock: int)
    requires config.Valid()
  {
    && (slot.Some? ==> BucketOk(config, log, key, slot.value, clock))
    && (slot.None? ==> NothingKept(config, log, key, clock))
    && WithinBudget(config, log, key)
    && Traced(config, log, key, slot, clock)
  }

  ghost predicate BucketsOk(buckets: map<string, StreamBucket>) {
    forall k :: k in buckets ==> buckets[k].config.Valid() && InOrder(buckets[k].entries)
  }

  ghost predicate NotAfter(entries: seq<Entry>, clock: int) {
    forall i :: 0 <= i < |entries| ==> entries[i].at <= clock
  }

  ghost predicate HistoryOk(log: seq<Attempt>, clock: int) {
    Ordered(AllowedOf(log)) && forall i :: 0 <= i < |AllowedOf(log)| ==> AllowedOf(log)[i].entry.at <= clock
  }

  ghost predicate Ready(config: StreamRateConfig, log: seq<Attempt>, buckets: map<string, StreamBucket>,
                        managed: set<string>, clock: int)
    requires config.Valid()
  {
    && (forall k: string :: k !in managed ==> ReadyKey(config, log, k, Slot(buckets, k), clock))
    && BucketsOk(buckets)
    && (forall k :: k in buckets ==> NotAfter(buckets[k].entries, clock))
    && HistoryOk(log, clock)
  }

  lemma KeyLater(config: StreamRateConfig, log: seq<Attempt>, key: string, slot: Option<StreamBucket>, clock: int, now: int)
    requires config.Valid() && ReadyKey(config, log, key, slot, clock) && clock <= now
    ensures ReadyKey(config, log, key, slot, now)
  {
    hide BucketOk, NothingKept, WithinBudget, Traced;
    TraceLater(config, log, key, slot, clock, now);
    if slot.Some? {
      BucketLater(config, log, key, slot.value, clock, now);
    } else {
      NothingLater(config, log, key, clock, now);
    }
  }

  lemma ReadyLater(config: StreamRateConfig, log: seq<Attempt>, buckets: map<string, StreamBucket>,
                   managed: set<string>, clock: int, now: int)
    requires config.Valid() && Ready(config, log, buckets, managed, clock) && clock <= now
    ensures Ready(config, log, buckets, managed, now)
  {
    hide ReadyKey, Ordered, InOrder, AllowedOf, Slot;
    forall k: string | k !in managed
      ensures ReadyKey(config, log, k, Slot(buckets, k), now)
    {
      KeyLater(config, log, k, Slot(buckets, k), clock, now);
    }
  }

  lemma KeySwept(config: StreamRateConfig, log: seq<Attempt>, key: string, b: StreamBucket, clock: int)
    requires config.Valid() && ReadyKey(config, log, key, Some(b), clock) && b.lastTouch < clock - config.windowMs
    ensures ReadyKey(config, log, key, None, clock)
  {
    hide BucketOk, NothingKept, WithinBudget, Traced;
    TraceSwept(config, log, key, b, clock);
    SweptBucket(config, log, key, b, clock);
  }

  // Sweeping takes away only what no channel needs.
  lemma ReadySwept(config: StreamRateConfig, log: seq<Attempt>, buckets: map<string, StreamBucket>,
                   managed: set<string>, clock: int)
    requires config.Valid() && Ready(config, log, buckets, managed, clock)
    ensures Ready(config, log, map k | k in buckets && buckets[k].lastTouch >= clock - config.windowMs :: buckets[k], managed, clock)
  {
    hide ReadyKey, HistoryOk, InOrder;
    var left := map k | k in buckets && buckets[k].lastTouch >= clock - config.windowMs :: buckets[k];
    forall k: string | k !in managed
      ensures ReadyKey(config, log, k, Slot(left, k), clock)
    {
      if k in buckets && k !in left {
        KeySwept(config, log, k, buckets[k], clock);
      }
    }
  }

  // The bucket a check works on.
  lemma ReadyBucket(config: StreamRateConfig, log: seq<Attempt>, buckets: map<string, StreamBucket>,
                    managed: set<string>, now: int, key: string)
    requires config.Valid() && Ready(config, log, buckets, managed, now)
    ensures var b := if key in buckets then buckets[key] else StreamBucket(config, [], 0, 0, now);
            && b.config.Valid() && InOrder(b.entries) && NotAfter(b.entries, now)
            && (key !in managed ==> BucketOk(config, log, key, b, now) && Traced(config, log, key, Slot(buckets, key), now))
  {
    hide BucketOk, NothingKept, WithinBudget, HistoryOk, Traced;
    if key !in buckets && key !in managed {
      assert ReadyKey(config, log, key, Slot(buckets, key), now);
      NewBucket(config, log, key, now);
    }
  }

  lemma ExactVerdict(config: StreamRateConfig, log: seq<Attempt>, b: StreamBucket, a: Attempt, next: StreamBucket)
    requires config.Valid() && a.frame.entry.at >= 0 && b.lastTouch <= a.frame.entry.at && b.config == config
    requires BucketOk(config, log, a.frame.key, b, a.frame.entry.at) && Exact(config, log, a.frame.key, b)
    requires Consumed(b, a.frame.entry.at, a.frame.entry.bytes, next, a.verdict)
    ensures a.verdict == HistoryVerdict(config, log, a.frame.key, a.frame.entry)
  {
    hide *;
    var sent, open, now := Entries(AllowedOf(log), a.frame.key), Reopened(b, a.frame.entry.at), a.frame.entry.at;
    VerdictOfBucket(b, a, next);
    FitsIsOfHistory(config, log, a.frame.key, b, a.frame.entry);
    SameTotals(config, b.pinchedUntil > now, open.denials, b.entries, sent, a.frame.entry);
    ExactPinch(config, log, a.frame.key, b, now);
    VerdictOfRun(config, log, a.frame.key, a.frame.entry, b.pinchedUntil > now, open.denials);
  }

  lemma VerdictOfBucket(b: StreamBucket, a: Attempt, next: StreamBucket)
    requires Consumed(b, a.frame.entry.at, a.frame.entry.bytes, next, a.verdict)
    ensures a.verdict == VerdictFor(b.config, b.pinchedUntil > a.frame.entry.at, Reopened(b, a.frame.entry.at).denials, b.entries, a.frame.entry)
  {
    hide VerdictFor, Reopened, Changed;
  }

  lemma VerdictOfRun(config: StreamRateConfig, log: seq<Attempt>, key: string, frame: Entry, pinched: bool, denials: nat)
    requires var violation := LastViolation(log, key);
             pinched <==> violation.Some? && frame.at < violation.value + config.windowMs * 2
    requires !pinched ==> denials == Streak(log, key)
    ensures VerdictFor(config, pinched, denials, Entries(AllowedOf(log), key), frame) == HistoryVerdict(config, log, key, frame)
  {
    hide LastViolation, Streak, Entries, AllowedOf, Fits, Total;
  }

  // The verdict on a frame, as far as the run tells.
  lemma VerdictsHold(config: StreamRateConfig, log: seq<Attempt>, buckets: map<string, StreamBucket>, managed: set<string>,
                     b: StreamBucket, a: Attempt, next: StreamBucket)
    requires config.Valid() && Ready(config, log, buckets, managed, a.frame.entry.at) && a.frame.entry.at >= 0
    requires b == if a.frame.key in buckets then buckets[a.frame.key] else StreamBucket(config, [], 0, 0, a.frame.entry.at)
    requires Consumed(b, a.frame.entry.at, a.frame.entry.bytes, next, a.verdict)
    ensures a.frame.key !in managed ==> Verdicts(config, log, a.frame.key, a.frame.entry, a.verdict)
    ensures a.frame.key !in managed && Steady(log + [a], a.frame.key, config.windowMs) ==>
              a.verdict == HistoryVerdict(config, log, a.frame.key, a.frame.entry)
  {
    var key, now := a.frame.key, a.frame.entry.at;
    hide Ready, Verdicts, Consumed, BucketOk, Traced, Exact, HistoryVerdict, Steady, Silent, Ordered;
    if key !in managed {
      ReadyBucket(config, log, buckets, managed, now, key);
      VerdictIsOfHistory(config, log, key, b, a.frame.entry, next, a.verdict);
      TraceSnoc(log, a, key, config.windowMs);
      if Steady(log + [a], key, config.windowMs) {
        ExactBefore(config, log, key, Slot(buckets, key), now, b);
        LastTouched(config, log, key, b, now);
        ExactVerdict(config, log, b, a, next);
      }
    }
  }

  lemma LastTouched(config: StreamRateConfig, log: seq<Attempt>, key: string, b: StreamBucket, clock: int)
    requires BucketOk(config, log, key, b, clock)
    ensures b.lastTouch <= clock && b.config == config
  {
    hide AllowedOf, Entries, Streak, LastViolation, InOrder, Kept;
  }

  lemma EntriesStayOrdered(b: StreamBucket, now: int, byteSize: nat, next: StreamBucket, verdict: Verdict)
    requires InOrder(b.entries) && NotAfter(b.entries, now)
    requires Consumed(b, now, byteSize, next, verdict)
    ensures InOrder(next.entries) && NotAfter(next.entries, now) && next.config == b.config
  {
    hide Fits, Total, VerdictFor, Reopened;
  }

  lemma HistoryStaysOrdered(log: seq<Attempt>, a: Attempt)
    requires HistoryOk(log, a.frame.entry.at)
    ensures HistoryOk(log + [a], a.frame.entry.at)
  {
    hide AllowedOf;
    AllowedSnoc(log, a);
    OrderedGrows(AllowedOf(log), a.frame);
    assert AllowedOf(log) + [] == AllowedOf(log);
  }

  lemma KeyOther(config: StreamRateConfig, log: seq<Attempt>, key: string, slot: Option<StreamBucket>, now: int, a: Attempt)
    requires config.Valid() && ReadyKey(config, log, key, slot, now) && a.frame.key != key
    ensures ReadyKey(config, log + [a], key, slot, now)
  {
    hide BucketOk, NothingKept, WithinBudget, Traced, Fits;
    TraceOther(config, log, key, slot, now, a);
    BudgetKept(config, log, key, a);
    if slot.Some? {
      OtherChannel(config, log, key, slot.value, now, a);
    } else {
      OtherNothing(config, log, key, now, a);
    }
  }

  lemma KeyOwn(config: StreamRateConfig, log: seq<Attempt>, slot: Option<StreamBucket>, b: StreamBucket, a: Attempt, next: StreamBucket)
    requires config.Valid() && a.frame.entry.at >= 0 && ReadyKey(config, log, a.frame.key, slot, a.frame.entry.at)
    requires b == if slot.Some? then slot.value else StreamBucket(config, [], 0, 0, a.frame.entry.at)
    requires BucketOk(config, log, a.frame.key, b, a.frame.entry.at)
    requires Consumed(b, a.frame.entry.at, a.frame.entry.bytes, next, a.verdict)
    ensures ReadyKey(config, log + [a], a.frame.key, Some(next), a.frame.entry.at)
  {
    hide BucketOk, NothingKept, WithinBudget, Traced, Fits, Consumed, AllowedOf, Entries;
    LastTouched(config, log, a.frame.key, b, a.frame.entry.at);
    TraceOwn(config, log, a, slot, b, next);
    AllowedFits(config, log, a, b, next);
    BudgetKept(config, log, a.frame.key, a);
    OwnChannel(config, log, a, b, next);
  }

  lemma AllowedFits(config: StreamRateConfig, log: seq<Attempt>, a: Attempt, b: StreamBucket, next: StreamBucket)
    requires BucketOk(config, log, a.frame.key, b, a.frame.entry.at)
    requires Consumed(b, a.frame.entry.at, a.frame.entry.bytes, next, a.verdict)
    ensures a.verdict.Allowed? ==> Fits(config, Entries(AllowedOf(log), a.frame.key), a.frame.entry)
  {
    hide AllowedOf, Entries, Total, Kept, Streak, LastViolation, InOrder, Reopened, Stale, Changed;
    FitsIsOfHistory(config, log, a.frame.key, b, a.frame.entry);
    hide Fits;
  }

  lemma ReadyAttempt(config: StreamRateConfig, log: seq<Attempt>, buckets: map<string, StreamBucket>,
                     managed: set<string>, now: int, b: StreamBucket, a: Attempt, next: StreamBucket)
    requires config.Valid() && Ready(config, log, buckets, managed, now) && now >= 0 && a.frame.entry.at == now
    requires b == if a.frame.key in buckets then buckets[a.frame.key] else StreamBucket(config, [], 0, 0, now)
    requires Consumed(b, now, a.frame.entry.bytes, next, a.verdict)
    ensures Ready(config, log + [a], buckets[a.frame.key := next], managed, now)
  {
    var key, after := a.frame.key, buckets[a.frame.key := next];
    ReadyBucket(config, log, buckets, managed, now, key);
    hide ReadyKey, HistoryOk, InOrder, BucketOk, Traced, Consumed, NotAfter;
    EntriesStayOrdered(b, now, a.frame.entry.bytes, next, a.verdict);
    HistoryStaysOrdered(log, a);
    forall k: string | k !in managed
      ensures ReadyKey(config, log + [a], k, Slot(after, k), now)
    {
      AnyKey(config, log, k, buckets, now, b, a, next);
    }
  }

  lemma AnyKey(config: StreamRateConfig, log: seq<Attempt>, k: string, buckets: map<string, StreamBucket>, now: int,
               b: StreamBucket, a: Attempt, next: StreamBucket)
    requires config.Valid() && now >= 0 && a.frame.entry.at == now && ReadyKey(config, log, k, Slot(buckets, k), now)
    requires b == if a.frame.key in buckets then buckets[a.frame.key] else StreamBucket(config, [], 0, 0, now)
    requires k == a.frame.key ==> BucketOk(config, log, k, b, now)
    requires Consumed(b, now, a.frame.entry.bytes, next, a.verdict)
    ensures ReadyKey(config, log + [a], k, Slot(buckets[a.frame.key := next], k), now)
  {
    hide ReadyKey, BucketOk, Consumed;
    if k == a.frame.key {
      KeyOwn(config, log, Slot(buckets, k), b, a, next);
    } else {
      KeyOther(config, log, k, Slot(buckets, k), now, a);
    }
  }

  // Any window of a run lets through at most the message cap in frames and at most the byte cap
  // in bytes, on every channel that was never registered or closed.
  lemma WindowsAreCapped(config: StreamRateConfig, log: seq<Attempt>, buckets: map<string, StreamBucket>,
                         managed: set<string>, clock: int, key: string, until: int)
    requires config.Valid() && Ready(config, log, buckets, managed, clock) && key !in managed
    ensures Within(AllowedOf(log), key, until - config.windowMs, until, Frames) <= config.maxMessagesPerSecond
    ensures Within(AllowedOf(log), key, until - config.windowMs, until, Bytes) <= config.maxBytesPerSecond
  {
    hide BucketOk, NothingKept, AllowedOf, Within, Fitted, Ordered, Traced, BucketsOk;
    assert ReadyKey(config, log, key, Slot(buckets, key), clock);
    WindowWithinCap(AllowedOf(log), key, config.windowMs, Frames, config.maxMessagesPerSecond, until);
    WindowWithinCap(AllowedOf(log), key, config.windowMs, Bytes, config.maxBytesPerSecond, until);
  }

  // Two errors on a channel that was never registered or closed are at least two windows apart,
  // unless it was silent for longer than a window in between.
  lemma OneErrorPerPinch(config: StreamRateConfig, log: seq<Attempt>, buckets: map<string, StreamBucket>,
                         managed: set<string>, clock: int, key: string, i: nat, j: nat)
    requires config.Valid() && Ready(config, log, buckets, managed, clock) && key !in managed
    requires i < j && IsViolation(log, key, i) && IsViolation(log, key, j)
    ensures || log[j].frame.entry.at >= log[i].frame.entry.at + config.windowMs * 2
            || SilenceBetween(log, key, config.windowMs, i, j)
  {
    hide BucketOk, NothingKept, WithinBudget, BucketsOk, HistoryOk, ErrorsApart, Silent, Exact, Steady, PinchEnd, LastAt;
    assert ReadyKey(config, log, key, Slot(buckets, key), clock);
    ErrorsAreRare(log, key, config.windowMs, i, j);
  }

  // ----- A pinch that is forgotten -----

  const TIGHT := StreamRateConfig(10, 1, 100)

  // A one-byte frame at each of these times.
  function RunOf(config: StreamRateConfig, g: Gate, key: string, times: seq<int>): (Gate, seq<Verdict>) {
    if times == [] then (g, [])
    else
      var before := RunOf(config, g, key, times[..|times| - 1]);
      var r := CheckOf(config, before.0, key, 1, times[|times| - 1]);
      (r.0, before.1 + [r.1])
  }

  lemma RunSnoc(config: StreamRateConfig, g: Gate, key: string, times: seq<int>, t: int)
    ensures var before := RunOf(config, g, key, times);
            var r := CheckOf(config, before.0, key, 1, t);
            RunOf(config, g, key, times + [t]) == (r.0, before.1 + [r.1])
  {
    hide CheckOf;
    assert (times + [t])[..|times|] == times;
  }

  // The channel's bucket after a frame at time `t` and so many denials.
  function Full(t: int, denials: nat): StreamBucket { StreamBucket(TIGHT, [Entry(t, 1)], denials, 0, t) }

  function PinchedBucket(t: int): StreamBucket { StreamBucket(TIGHT, [Entry(t, 1)], 3, t + 20, t) }

  function One(b: StreamBucket, lastSweep: int): Gate { Gate(map["k" := b], lastSweep) }

  lemma ConsumeFirst(t: int)
    requires t > 0
    ensures ConsumeOf(StreamBucket(TIGHT, [], 0, 0, t), t, 1) == (Full(t, 0), Allowed)
  {
    var none: seq<Entry> := [];
    assert none[0..] == none && none + [Entry(t, 1)] == [Entry(t, 1)];
  }

  lemma ConsumeNext(t: int, denials: nat)
    requires t > 0 && denials <= 2
    ensures ConsumeOf(Full(t, denials), t, 1) ==
            if denials < 2 then (Full(t, denials + 1), MessageCap) else (PinchedBucket(t), Violation)
  {
    var entries := [Entry(t, 1)];
    assert Stale(entries, t - 10) == 0 && entries[0..] == entries;
    hide SumBytes, Stale;
  }

  lemma CheckFirst(g: Gate, t: int)
    requires t > 0 && SweptGate(TIGHT, g, t) == Gate(map[], t)
    ensures CheckOf(TIGHT, g, "k", 1, t) == (One(Full(t, 0), t), Allowed)
  {
    ConsumeFirst(t);
    hide ConsumeOf, SweptGate, Full;
    CheckIs(TIGHT, g, "k", 1, t);
    assert map[]["k" := Full(t, 0)] == map["k" := Full(t, 0)];
  }

  lemma CheckNext(t: int, denials: nat)
    requires t > 0 && denials <= 2
    ensures CheckOf(TIGHT, One(Full(t, denials), t), "k", 1, t) ==
            if denials < 2 then (One(Full(t, denials + 1), t), MessageCap) else (One(PinchedBucket(t), t), Violation)
  {
    ConsumeNext(t, denials);
    var g := One(Full(t, denials), t);
    assert SweptGate(TIGHT, g, t) == g;
    hide ConsumeOf, SweptGate, Full, PinchedBucket;
    CheckIs(TIGHT, g, "k", 1, t);
    forall b: StreamBucket
      ensures g.buckets["k" := b] == map["k" := b]
    {
    }
  }

  // A frame and three more at one time, on a gate that the first check sweeps empty.
  lemma FourChecks(g: Gate, times: seq<int>, t: int)
    requires t > 0 && SweptGate(TIGHT, RunOf(TIGHT, g, "k", times).0, t) == Gate(map[], t)
    ensures RunOf(TIGHT, g, "k", times + [t] + [t] + [t] + [t]) ==
            (One(PinchedBucket(t), t), RunOf(TIGHT, g, "k", times).1 + [Allowed] + [MessageCap] + [MessageCap] + [Violation])
  {
    hide *;
    CheckFirst(RunOf(TIGHT, g, "k", times).0, t);
    RunSnoc(TIGHT, g, "k", times, t);
    CheckNext(t, 0);
    RunSnoc(TIGHT, g, "k", times + [t], t);
    CheckNext(t, 1);
    RunSnoc(TIGHT, g, "k", times + [t] + [t], t);
    CheckNext(t, 2);
    RunSnoc(TIGHT, g, "k", times + [t] + [t] + [t], t);
  }

  // A silence of a little more than a window: the sweep removes the pinched bucket, and the
  // second error comes well within two windows of the first.
  lemma SweptPinchIsForgotten()
    ensures var s, t := 100, 111;
            && RunOf(TIGHT, Gate(map[], 0), "k", [s, s, s, s, t, t, t, t]).1 ==
               [Allowed, MessageCap, MessageCap, Violation, Allowed, MessageCap, MessageCap, Violation]
            && t < s + TIGHT.windowMs * 2
  {
    var g := Gate(map[], 0);
    assert SweptGate(TIGHT, g, 100) == Gate(map[], 100);
    var none: seq<int> := [];
    assert RunOf(TIGHT, g, "k", none) == (g, []);
    assert SweptGate(TIGHT, One(PinchedBucket(100), 100), 111) == Gate(map[], 111);
    hide RunOf, SweptGate;
    FourChecks(g, none, 100);
    var four := none + [100] + [100] + [100] + [100];
    FourChecks(g, four, 111);
    assert four + [111] + [111] + [111] + [111] == [100, 100, 100, 100, 111, 111, 111, 111];
  }
}
