/**
  What the streaming gate remembers of a channel that is never silent for longer than a window:
  its denials in a row and its pinch are exactly those of the whole run.
 */
module TelemetryTrace {
  import opened Text
  import opened StreamHistory
  import opened TelemetryBucket

  // ----- Silences and errors of a run -----

  // More than a window has passed since the channel's last check.
  ghost predicate Silent(log: seq<Attempt>, key: string, now: int, window: int) {
    LastAt(log, key).Some? && now > LastAt(log, key).value + window
  }

  // No check of the channel came after such a silence.
  ghost predicate Steady(log: seq<Attempt>, key: string, window: int) {
    log != [] ==>
      var init, last := log[..|log| - 1], log[|log| - 1];
      && Steady(init, key, window)
      && (last.frame.key == key ==> !Silent(init, key, last.frame.entry.at, window))
  }

  // When the pinch of the last error ends, unless the channel was silent since.
  ghost function PinchEnd(log: seq<Attempt>, key: string, window: int): Option<int> {
    if log == [] then None
    else
      var init, last := log[..|log| - 1], log[|log| - 1];
      if last.frame.key != key then PinchEnd(init, key, window)
      else if last.verdict.Violation? then Some(last.frame.entry.at + window * 2)
      else if Silent(init, key, last.frame.entry.at, window) then None
      else PinchEnd(init, key, window)
  }

  // No error came while the pinch of an earlier one lasted.
  ghost predicate ErrorsApart(log: seq<Attempt>, key: string, window: int) {
    log != [] ==>
      var init, last := log[..|log| - 1], log[|log| - 1];
      && ErrorsApart(init, key, window)
      && (last.frame.key == key && last.verdict.Violation? && !Silent(init, key, last.frame.entry.at, window) ==>
            PinchEnd(init, key, window).None? || PinchEnd(init, key, window).value <= last.frame.entry.at)
  }

  lemma TraceSnoc(log: seq<Attempt>, a: Attempt, key: string, window: int)
    ensures Steady(log + [a], key, window) <==>
            Steady(log, key, window) && (a.frame.key == key ==> !Silent(log, key, a.frame.entry.at, window))
    ensures PinchEnd(log + [a], key, window) ==
            if a.frame.key != key then PinchEnd(log, key, window)
            else if a.verdict.Violation? then Some(a.frame.entry.at + window * 2)
            else if Silent(log, key, a.frame.entry.at, window) then None
            else PinchEnd(log, key, window)
    ensures ErrorsApart(log + [a], key, window) <==>
            && ErrorsApart(log, key, window)
            && (a.frame.key == key && a.verdict.Violation? && !Silent(log, key, a.frame.entry.at, window) ==>
                  PinchEnd(log, key, window).None? || PinchEnd(log, key, window).value <= a.frame.entry.at)
  {
    hide LastAt, LastViolation, Streak;
    assert (log + [a])[..|log|] == log;
  }

  lemma {:induction false} NeverChecked(log: seq<Attempt>, key: string, window: int)
    requires LastAt(log, key).None?
    ensures Streak(log, key) == 0 && LastViolation(log, key).None? && PinchEnd(log, key, window).None?
  {
    if log != [] {
      NeverChecked(log[..|log| - 1], key, window);
    }
  }

  // ----- What a bucket remembers -----

  ghost predicate Exact(config: StreamRateConfig, log: seq<Attempt>, key: string, b: StreamBucket) {
    var violation := LastViolation(log, key);
    if b.pinchedUntil == 0 then
      && b.denials == Streak(log, key)
      && (violation.Some? ==> violation.value + config.windowMs * 2 <= b.lastTouch)
    else violation == Some(b.pinchedUntil - config.windowMs * 2) && Streak(log, key) == 0
  }

  // The bucket of a channel, if it has one, at this time.
  ghost predicate Traced(config: StreamRateConfig, log: seq<Attempt>, key: string, slot: Option<StreamBucket>, clock: int) {
    var last, pinch := LastAt(log, key), PinchEnd(log, key, config.windowMs);
    && ErrorsApart(log, key, config.windowMs)
    && (last.None? ==> slot.None?)
    && (last.Some? && clock <= last.value + config.windowMs ==> slot.Some?)
    && (last.Some? ==> last.value <= clock)
    && (slot.Some? ==>
          var b := slot.value;
          && last == Some(b.lastTouch)
          && (Steady(log, key, config.windowMs) ==> Exact(config, log, key, b))
          && (pinch.Some? ==> pinch.value <= b.pinchedUntil || pinch.value <= b.lastTouch))
  }

  lemma TraceLater(config: StreamRateConfig, log: seq<Attempt>, key: string, slot: Option<StreamBucket>, clock: int, now: int)
    requires Traced(config, log, key, slot, clock) && clock <= now
    ensures Traced(config, log, key, slot, now)
  {
    hide LastAt, PinchEnd, Steady, ErrorsApart, Exact;
  }

  lemma TraceSwept(config: StreamRateConfig, log: seq<Attempt>, key: string, b: StreamBucket, clock: int)
    requires Traced(config, log, key, Some(b), clock) && b.lastTouch < clock - config.windowMs
    ensures Traced(config, log, key, None, clock)
  {
    hide LastAt, PinchEnd, Steady, ErrorsApart, Exact;
  }

  lemma TraceOther(config: StreamRateConfig, log: seq<Attempt>, key: string, slot: Option<StreamBucket>, clock: int, a: Attempt)
    requires Traced(config, log, key, slot, clock) && a.frame.key != key
    ensures Traced(config, log + [a], key, slot, clock)
  {
    LastSnoc(log, a, key);
    StreakSnoc(log, a, key);
    TraceSnoc(log, a, key, config.windowMs);
    hide LastAt, LastViolation, Streak, PinchEnd, Steady, ErrorsApart;
  }

  // The bucket that a check works on is as exact as the run is steady.
  lemma ExactBefore(config: StreamRateConfig, log: seq<Attempt>, key: string, slot: Option<StreamBucket>, now: int, b: StreamBucket)
    requires Traced(config, log, key, slot, now) && !Silent(log, key, now, config.windowMs)
    requires b == if slot.Some? then slot.value else StreamBucket(config, [], 0, 0, now)
    ensures Steady(log, key, config.windowMs) ==> Exact(config, log, key, b)
    ensures var pinch := PinchEnd(log, key, config.windowMs);
            pinch.Some? ==> pinch.value <= b.pinchedUntil || pinch.value <= b.lastTouch
  {
    if LastAt(log, key).None? {
      NeverChecked(log, key, config.windowMs);
    }
    hide LastAt, LastViolation, Streak, PinchEnd, Steady, ErrorsApart;
  }

  lemma ExactAfter(config: StreamRateConfig, log: seq<Attempt>, a: Attempt, b: StreamBucket, next: StreamBucket)
    requires Exact(config, log, a.frame.key, b) && b.config == config && config.Valid()
    requires b.lastTouch <= a.frame.entry.at && a.frame.entry.at >= 0
    requires Consumed(b, a.frame.entry.at, a.frame.entry.bytes, next, a.verdict)
    ensures Exact(config, log + [a], a.frame.key, next)
  {
    LastSnoc(log, a, a.frame.key);
    StreakSnoc(log, a, a.frame.key);
    hide LastViolation, Streak, Fits, Total, Stale;
  }

  // The pinch that an exact bucket knows, and the denials if there is none.
  lemma ExactPinch(config: StreamRateConfig, log: seq<Attempt>, key: string, b: StreamBucket, now: int)
    requires Exact(config, log, key, b) && b.lastTouch <= now && now >= 0
    ensures var violation := LastViolation(log, key);
            b.pinchedUntil > now <==> violation.Some? && now < violation.value + config.windowMs * 2
    ensures b.pinchedUntil <= now ==> Reopened(b, now).denials == Streak(log, key)
  {
    hide LastViolation, Streak;
  }

  lemma PinchAfter(config: StreamRateConfig, log: seq<Attempt>, a: Attempt, b: StreamBucket, next: StreamBucket)
    requires b.config == config && b.lastTouch <= a.frame.entry.at
    requires var pinch := PinchEnd(log, a.frame.key, config.windowMs);
             pinch.Some? && !Silent(log, a.frame.key, a.frame.entry.at, config.windowMs) ==>
               pinch.value <= b.pinchedUntil || pinch.value <= b.lastTouch
    requires Consumed(b, a.frame.entry.at, a.frame.entry.bytes, next, a.verdict)
    requires ErrorsApart(log, a.frame.key, config.windowMs)
    ensures ErrorsApart(log + [a], a.frame.key, config.windowMs)
    ensures var pinch := PinchEnd(log + [a], a.frame.key, config.windowMs);
            pinch.Some? ==> pinch.value <= next.pinchedUntil || pinch.value <= next.lastTouch
  {
    TraceSnoc(log, a, a.frame.key, config.windowMs);
    hide Silent, PinchEnd, ErrorsApart, Steady, Fits, Total, Stale;
  }

  lemma TraceOwn(config: StreamRateConfig, log: seq<Attempt>, a: Attempt, slot: Option<StreamBucket>, b: StreamBucket, next: StreamBucket)
    requires config.Valid() && a.frame.entry.at >= 0 && b.config == config
    requires Traced(config, log, a.frame.key, slot, a.frame.entry.at)
    requires b == if slot.Some? then slot.value else StreamBucket(config, [], 0, 0, a.frame.entry.at)
    requires Consumed(b, a.frame.entry.at, a.frame.entry.bytes, next, a.verdict)
    ensures Traced(config, log + [a], a.frame.key, Some(next), a.frame.entry.at)
  {
    var key, now := a.frame.key, a.frame.entry.at;
    assert b.lastTouch <= now && ErrorsApart(log, key, config.windowMs) && next.lastTouch == now by {
      hide LastAt, PinchEnd, Steady, ErrorsApart, Exact, VerdictFor, Reopened, Stale;
    }
    LastSnoc(log, a, key);
    TraceSnoc(log, a, key, config.windowMs);
    hide LastAt, LastViolation, Streak, PinchEnd, Steady, ErrorsApart, Exact, Consumed, Silent;
    if !Silent(log, key, now, config.windowMs) {
      ExactBefore(config, log, key, slot, now, b);
      if Steady(log, key, config.windowMs) {
        ExactAfter(config, log, a, b, next);
      }
    }
    PinchAfter(config, log, a, b, next);
  }

  // ----- Errors of a run -----

  ghost predicate IsViolation(log: seq<Attempt>, key: string, i: nat) {
    i < |log| && log[i].frame.key == key && log[i].verdict.Violation?
  }

  // A check after index `i` and up to `j` came after a silence.
  ghost predicate SilenceBetween(log: seq<Attempt>, key: string, window: int, i: nat, j: int) {
    exists m :: i < m <= j && m < |log| && log[m].frame.key == key && Silent(log[..m], key, log[m].frame.entry.at, window)
  }

  lemma SilenceExtends(log: seq<Attempt>, key: string, window: int, i: nat, n: nat, j: nat)
    requires n <= |log| && n <= j + 1
    ensures SilenceBetween(log[..n], key, window, i, n - 1) ==> SilenceBetween(log, key, window, i, j)
  {
    hide Silent;
    var before := log[..n];
    forall m | i < m < n && before[m].frame.key == key && Silent(before[..m], key, before[m].frame.entry.at, window)
      ensures SilenceBetween(log, key, window, i, j)
    {
      assert before[..m] == log[..m] && log[m] == before[m];
    }
  }

  lemma {:induction false} PinchLasts(log: seq<Attempt>, key: string, window: int, i: nat)
    requires window > 0 && IsViolation(log, key, i) && ErrorsApart(log, key, window)
    requires !SilenceBetween(log, key, window, i, |log| - 1)
    ensures PinchEnd(log, key, window).Some?
    ensures PinchEnd(log, key, window).value >= log[i].frame.entry.at + window * 2
  {
    var init, last := log[..|log| - 1], log[|log| - 1];
    hide Silent;
    if i < |log| - 1 {
      assert init[i] == log[i];
      SilenceExtends(log, key, window, i, |log| - 1, |log| - 1);
      PinchLasts(init, key, window, i);
      assert last.frame.key == key ==> !Silent(log[..|log| - 1], key, last.frame.entry.at, window);
    }
  }

  lemma {:induction false} ErrorsApartPrefix(log: seq<Attempt>, key: string, window: int, n: nat)
    requires ErrorsApart(log, key, window) && n <= |log|
    ensures ErrorsApart(log[..n], key, window)
    decreases |log| - n
  {
    if n < |log| {
      ErrorsApartPrefix(log, key, window, n + 1);
      assert log[..n + 1][..n] == log[..n];
    } else {
      assert log[..n] == log;
    }
  }

  // Two errors of a channel are at least two windows apart, unless it was silent for longer than
  // a window in between.
  lemma ErrorsAreRare(log: seq<Attempt>, key: string, window: int, i: nat, j: nat)
    requires window > 0 && ErrorsApart(log, key, window)
    requires i < j && IsViolation(log, key, i) && IsViolation(log, key, j)
    ensures log[j].frame.entry.at >= log[i].frame.entry.at + window * 2 || SilenceBetween(log, key, window, i, j)
  {
    hide Silent;
    if !SilenceBetween(log, key, window, i, j) {
      var upTo, before := log[..j + 1], log[..j];
      ErrorsApartPrefix(log, key, window, j + 1);
      ErrorsApartPrefix(log, key, window, j);
      assert upTo[..j] == before && upTo[j] == log[j] && before[i] == log[i];
      assert !Silent(before, key, log[j].frame.entry.at, window);
      SilenceExtends(log, key, window, i, j, j);
      PinchLasts(before, key, window, i);
    }
  }
}
