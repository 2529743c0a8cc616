/** Rate limits over the full history of allowed calls: the reference the limiters are held to. */
module RateHistory {

  // An allowed call.
  datatype Call = Call(key: string, at: int)

  // The times of one key's calls, in order.
  function Times(history: seq<Call>, key: string): seq<int> {
    if history == [] then []
    else
      Times(history[..|history| - 1], key) +
      if history[|history| - 1].key == key then [history[|history| - 1].at] else []
  }

  // How many calls of the key came after this time.
  function Count(history: seq<Call>, key: string, after: int): nat {
    CountAfter(Times(history, key), after)
  }

  function CountAfter(times: seq<int>, after: int): nat {
    if times == [] then 0
    else CountAfter(times[..|times| - 1], after) + if times[|times| - 1] > after then 1 else 0
  }

  // How many calls of the key came in (after, until].
  function CountWithin(history: seq<Call>, key: string, after: int, until: int): nat {
    if history == [] then 0
    else
      var last := history[|history| - 1];
      CountWithin(history[..|history| - 1], key, after, until) +
      if last.key == key && after < last.at <= until then 1 else 0
  }

  lemma TimesSnoc(history: seq<Call>, call: Call, key: string)
    ensures Times(history + [call], key) == Times(history, key) + if call.key == key then [call.at] else []
  {
    assert (history + [call])[..|history|] == history;
  }

  lemma CountSnoc(times: seq<int>, t: int, after: int)
    ensures CountAfter(times + [t], after) == CountAfter(times, after) + if t > after then 1 else 0
  {
    assert (times + [t])[..|times|] == times;
  }

  ghost predicate Ordered(history: seq<Call>) {
    forall i, j :: 0 <= i <= j < |history| ==> history[i].at <= history[j].at
  }

  // Every call found fewer than the maximum in the window that ends at it.
  ghost predicate Admitted(history: seq<Call>, window: int, maximum: int) {
    forall i :: 0 <= i < |history| ==> Count(history[..i], history[i].key, history[i].at - window) < maximum
  }

  ghost predicate IsSorted(times: seq<int>) {
    forall i, j :: 0 <= i <= j < |times| ==> times[i] <= times[j]
  }

  lemma {:induction false} TimesSorted(history: seq<Call>, key: string)
    requires Ordered(history)
    ensures IsSorted(Times(history, key))
    ensures history != [] ==> forall i :: 0 <= i < |Times(history, key)| ==> Times(history, key)[i] <= history[|history| - 1].at
  {
    if history != [] {
      TimesSorted(history[..|history| - 1], key);
    }
  }

  lemma {:induction false} CountSuffix(times: seq<int>, d: nat, after: int)
    requires d <= |times| && forall i :: 0 <= i < d ==> times[i] <= after
    ensures CountAfter(times[d..], after) == CountAfter(times, after)
    decreases |times|
  {
    if d < |times| {
      assert times[d..][..|times| - d - 1] == times[..|times| - 1][d..];
      CountSuffix(times[..|times| - 1], d, after);
    } else {
      assert times[d..] == [];
      CountNone(times, after);
    }
  }

  lemma {:induction false} CountNone(times: seq<int>, after: int)
    requires forall i :: 0 <= i < |times| ==> times[i] <= after
    ensures CountAfter(times, after) == 0
  {
    if times != [] {
      CountNone(times[..|times| - 1], after);
    }
  }

  lemma {:induction false} CountAll(times: seq<int>, after: int)
    requires forall i :: 0 <= i < |times| ==> times[i] > after
    ensures CountAfter(times, after) == |times|
  {
    if times != [] {
      CountAll(times[..|times| - 1], after);
    }
  }

  // Dropping what has left the window leaves as many as the full history counts.
  lemma DroppedCount(times: seq<int>, d: nat, after: int)
    requires d <= |times| && (forall i :: 0 <= i < d ==> times[i] <= after)
    requires forall i :: d <= i < |times| ==> times[i] > after
    ensures |times| - d == CountAfter(times, after)
  {
    CountSuffix(times, d, after);
    CountAll(times[d..], after);
  }

  // ----- Any window -----

  lemma {:induction false} WithinIsFewer(history: seq<Call>, key: string, after: int, until: int, from: int)
    requires from <= after
    ensures CountWithin(history, key, after, until) <= Count(history, key, from)
  {
    if history != [] {
      var init, last := history[..|history| - 1], history[|history| - 1];
      WithinIsFewer(init, key, after, until, from);
      if last.key == key {
        CountSnoc(Times(init, key), last.at, from);
      } else {
        assert Times(init, key) + [] == Times(init, key);
      }
    }
  }

  lemma AdmittedInit(history: seq<Call>, window: int, maximum: int)
    requires Ordered(history) && Admitted(history, window, maximum) && history != []
    ensures var init, last := history[..|history| - 1], history[|history| - 1];
            && Ordered(init) && Admitted(init, window, maximum)
            && Count(init, last.key, last.at - window) < maximum
  {
    hide Count;
    var init := history[..|history| - 1];
    forall i | 0 <= i < |init|
      ensures Count(init[..i], init[i].key, init[i].at - window) < maximum
    {
      assert init[..i] == history[..i];
    }
  }

  // At any time, wherever the window lies, it holds at most the maximum.
  lemma {:induction false} WindowBound(history: seq<Call>, window: int, maximum: int, key: string, until: int)
    requires Ordered(history) && Admitted(history, window, maximum) && maximum >= 0
    ensures CountWithin(history, key, until - window, until) <= maximum
  {
    hide Ordered, Admitted, Count;
    if history != [] {
      AdmittedInit(history, window, maximum);
      var init, last := history[..|history| - 1], history[|history| - 1];
      if last.key == key && until - window < last.at <= until {
        WithinIsFewer(init, key, until - window, until, last.at - window);
      } else {
        WindowBound(init, window, maximum, key, until);
      }
    }
  }

  lemma AdmittedGrows(history: seq<Call>, window: int, maximum: int, call: Call)
    requires Admitted(history, window, maximum) && Count(history, call.key, call.at - window) < maximum
    ensures Admitted(history + [call], window, maximum)
  {
    hide Count;
    var longer := history + [call];
    forall i | 0 <= i < |longer|
      ensures Count(longer[..i], longer[i].key, longer[i].at - window) < maximum
    {
      assert longer[..i] == if i < |history| then history[..i] else history;
    }
  }

  // ----- Runs of the reference limiter -----

  // The allowed calls of a run of requests.
  function Allowed(requests: seq<Call>, window: int, maximum: int): seq<Call> {
    if requests == [] then []
    else
      var before, last := Allowed(requests[..|requests| - 1], window, maximum), requests[|requests| - 1];
      if Count(before, last.key, last.at - window) < maximum then before + [last] else before
  }

  function OfKey(calls: seq<Call>, key: string): seq<Call> {
    if calls == [] then []
    else
      OfKey(calls[..|calls| - 1], key) +
      if calls[|calls| - 1].key == key then [calls[|calls| - 1]] else []
  }

  lemma OfKeySnoc(calls: seq<Call>, call: Call, key: string)
    ensures OfKey(calls + [call], key) == OfKey(calls, key) + if call.key == key then [call] else []
  {
    assert (calls + [call])[..|calls|] == calls;
  }

  lemma AllowedSnoc(requests: seq<Call>, call: Call, window: int, maximum: int)
    ensures var before := Allowed(requests, window, maximum);
            Allowed(requests + [call], window, maximum) ==
            if Count(before, call.key, call.at - window) < maximum then before + [call] else before
  {
    assert (requests + [call])[..|requests|] == requests;
  }

  lemma {:induction false} TimesOfKey(calls: seq<Call>, key: string)
    ensures Times(OfKey(calls, key), key) == Times(calls, key)
  {
    if calls != [] {
      var init, last := calls[..|calls| - 1], calls[|calls| - 1];
      TimesOfKey(init, key);
      OfKeySnoc(init, last, key);
      TimesSnoc(init, last, key);
      assert init + [last] == calls;
      if last.key == key {
        TimesSnoc(OfKey(init, key), last, key);
      } else {
        assert OfKey(init, key) + [] == OfKey(init, key) && Times(init, key) + [] == Times(init, key);
      }
    }
  }

  // What is allowed to a key depends on its own requests only.
  lemma {:induction false} KeysAreIndependent(requests: seq<Call>, window: int, maximum: int, key: string)
    ensures OfKey(Allowed(requests, window, maximum), key) == Allowed(OfKey(requests, key), window, maximum)
  {
    if requests != [] {
      var init, last := requests[..|requests| - 1], requests[|requests| - 1];
      KeysAreIndependent(init, window, maximum, key);
      assert init + [last] == requests;
      OneMoreRequest(init, last, window, maximum, key);
    }
  }

  lemma OneMoreRequest(init: seq<Call>, last: Call, window: int, maximum: int, key: string)
    requires OfKey(Allowed(init, window, maximum), key) == Allowed(OfKey(init, key), window, maximum)
    ensures OfKey(Allowed(init + [last], window, maximum), key) == Allowed(OfKey(init + [last], key), window, maximum)
  {
    var before, own := Allowed(init, window, maximum), OfKey(init, key);
    TimesOfKey(before, key);
    assert Count(OfKey(before, key), key, last.at - window) == Count(before, key, last.at - window);
    hide *;
    AllowedSnoc(init, last, window, maximum);
    OfKeySnoc(init, last, key);
    OfKeySnoc(before, last, key);
    if last.key == key {
      AllowedSnoc(own, last, window, maximum);
    } else {
      assert own + [] == own && OfKey(before, key) + [] == OfKey(before, key);
    }
  }
}
