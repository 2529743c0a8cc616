/** Budgets over the full history of allowed stream frames, in frames and in bytes. */
module StreamHistory {

  datatype Entry = Entry(at: int, bytes: nat)

  // A frame that was let through.
  datatype Frame = Frame(key: string, entry: Entry)

  datatype Measure = Frames | Bytes

  function Weight(m: Measure, e: Entry): nat {
    match m
    case Frames => 1
    case Bytes => e.bytes
  }

  // One channel's frames, in order.
  function Entries(history: seq<Frame>, key: string): seq<Entry> {
    if history == [] then []
    else
      Entries(history[..|history| - 1], key) +
      if history[|history| - 1].key == key then [history[|history| - 1].entry] else []
  }

  // The weight of the frames after this time.
  function Total(entries: seq<Entry>, after: int, m: Measure): nat {
    if entries == [] then 0
    else
      var last := entries[|entries| - 1];
      Total(entries[..|entries| - 1], after, m) + if last.at > after then Weight(m, last) else 0
  }

  // The weight of one channel's frames in (after, until].
  function Within(history: seq<Frame>, key: string, after: int, until: int, m: Measure): nat {
    if history == [] then 0
    else
      var last := history[|history| - 1];
      Within(history[..|history| - 1], key, after, until, m) +
      if last.key == key && after < last.entry.at <= until then Weight(m, last.entry) else 0
  }

  ghost predicate Ordered(history: seq<Frame>) {
    forall i, j :: 0 <= i <= j < |history| ==> history[i].entry.at <= history[j].entry.at
  }

  // Every frame of the channel fitted into the window that ends at it.
  ghost predicate Fitted(history: seq<Frame>, key: string, window: int, m: Measure, cap: nat) {
    forall i :: 0 <= i < |history| && history[i].key == key ==>
      Total(Entries(history[..i], key), history[i].entry.at - window, m) + Weight(m, history[i].entry) <= cap
  }

  lemma EntriesSnoc(history: seq<Frame>, frame: Frame, key: string)
    ensures Entries(history + [frame], key) == Entries(history, key) + if frame.key == key then [frame.entry] else []
  {
    assert (history + [frame])[..|history|] == history;
  }

  lemma TotalSnoc(entries: seq<Entry>, e: Entry, after: int, m: Measure)
    ensures Total(entries + [e], after, m) == Total(entries, after, m) + if e.at > after then Weight(m, e) else 0
  {
    assert (entries + [e])[..|entries|] == entries;
  }

  lemma {:induction false} TotalSuffix(entries: seq<Entry>, d: nat, after: int, m: Measure)
    requires d <= |entries| && forall i :: 0 <= i < d ==> entries[i].at <= after
    ensures Total(entries[d..], after, m) == Total(entries, after, m)
    decreases |entries|
  {
    if entries != [] {
      var init, last := entries[..|entries| - 1], entries[|entries| - 1];
      if d < |entries| {
        TotalSuffix(init, d, after, m);
        assert entries[d..] == init[d..] + [last];
        TotalSnoc(init[d..], last, after, m);
      } else {
        TotalSuffix(init, d - 1, after, m);
        assert entries[d..] == [] && init[d - 1..] == [];
      }
    }
  }

  lemma {:induction false} WithinIsLess(history: seq<Frame>, key: string, after: int, until: int, from: int, m: Measure)
    requires from <= after
    ensures Within(history, key, after, until, m) <= Total(Entries(history, key), from, m)
  {
    hide Weight;
    if history != [] {
      var init, last := history[..|history| - 1], history[|history| - 1];
      WithinIsLess(init, key, after, until, from, m);
      if last.key == key {
        TotalSnoc(Entries(init, key), last.entry, from, m);
      } else {
        assert Entries(init, key) + [] == Entries(init, key);
      }
    }
  }

  lemma FittedInit(history: seq<Frame>, key: string, window: int, m: Measure, cap: nat)
    requires Ordered(history) && Fitted(history, key, window, m, cap) && history != []
    ensures var init, last := history[..|history| - 1], history[|history| - 1];
            && Ordered(init) && Fitted(init, key, window, m, cap)
            && (last.key == key ==> Total(Entries(init, key), last.entry.at - window, m) + Weight(m, last.entry) <= cap)
  {
    hide Total, Entries, Weight;
    var init := history[..|history| - 1];
    forall i | 0 <= i < |init| && init[i].key == key
      ensures Total(Entries(init[..i], key), init[i].entry.at - window, m) + Weight(m, init[i].entry) <= cap
    {
      assert init[..i] == history[..i];
    }
  }

  // Wherever the window lies, the frames let through in it are within the cap.
  lemma {:induction false} WindowWithinCap(history: seq<Frame>, key: string, window: int, m: Measure, cap: nat, until: int)
    requires Ordered(history) && Fitted(history, key, window, m, cap)
    ensures Within(history, key, until - window, until, m) <= cap
  {
    hide Ordered, Fitted, Total, Entries, Weight;
    if history != [] {
      FittedInit(history, key, window, m, cap);
      var init, last := history[..|history| - 1], history[|history| - 1];
      if last.key == key && until - window < last.entry.at <= until {
        WithinIsLess(init, key, until - window, until, last.entry.at - window, m);
      } else {
        WindowWithinCap(init, key, window, m, cap, until);
      }
    }
  }

  lemma FittedGrows(history: seq<Frame>, key: string, window: int, m: Measure, cap: nat, frame: Frame)
    requires Fitted(history, key, window, m, cap)
    requires frame.key == key ==> Total(Entries(history, key), frame.entry.at - window, m) + Weight(m, frame.entry) <= cap
    ensures Fitted(history + [frame], key, window, m, cap)
  {
    hide Total, Entries, Weight;
    var longer := history + [frame];
    forall i | 0 <= i < |longer| && longer[i].key == key
      ensures Total(Entries(longer[..i], key), longer[i].entry.at - window, m) + Weight(m, longer[i].entry) <= cap
    {
      assert longer[..i] == if i < |history| then history[..i] else history;
    }
  }

  lemma OrderedGrows(history: seq<Frame>, frame: Frame)
    requires Ordered(history) && forall i :: 0 <= i < |history| ==> history[i].entry.at <= frame.entry.at
    ensures Ordered(history + [frame])
  {
  }

  lemma {:induction false} EntriesUntil(history: seq<Frame>, key: string, now: int)
    requires forall i :: 0 <= i < |history| ==> history[i].entry.at <= now
    ensures forall i :: 0 <= i < |Entries(history, key)| ==> Entries(history, key)[i].at <= now
  {
    if history != [] {
      EntriesUntil(history[..|history| - 1], key, now);
    }
  }

  // ----- What a bucket keeps -----

  // `entries` are the channel's frames but for some that are no later than `cutoff`.
  ghost predicate Kept(history: seq<Frame>, key: string, entries: seq<Entry>, cutoff: int) {
    var all := Entries(history, key);
    && |entries| <= |all|
    && entries == all[|all| - |entries|..]
    && forall i :: 0 <= i < |all| - |entries| ==> all[i].at <= cutoff
  }

  lemma KeptTotal(history: seq<Frame>, key: string, entries: seq<Entry>, cutoff: int, m: Measure)
    requires Kept(history, key, entries, cutoff)
    ensures Total(entries, cutoff, m) == Total(Entries(history, key), cutoff, m)
  {
    hide Entries, Weight;
    var all := Entries(history, key);
    TotalSuffix(all, |all| - |entries|, cutoff, m);
  }

  lemma KeptDrops(history: seq<Frame>, key: string, entries: seq<Entry>, drop: nat, cutoff: int)
    requires Kept(history, key, entries, cutoff) && drop <= |entries|
    requires forall i :: 0 <= i < drop ==> entries[i].at <= cutoff
    ensures Kept(history, key, entries[drop..], cutoff)
  {
    hide Entries;
    var all := Entries(history, key);
    var d := |all| - |entries|;
    assert forall i :: d <= i < |all| ==> all[i] == entries[i - d];
    assert all[d + drop..] == entries[drop..];
  }

  lemma KeptGrows(history: seq<Frame>, key: string, entries: seq<Entry>, cutoff: int, frame: Frame)
    requires Kept(history, key, entries, cutoff)
    ensures Kept(history + [frame], key, if frame.key == key then entries + [frame.entry] else entries, cutoff)
  {
    EntriesSnoc(history, frame, key);
    hide Entries;
    var all := Entries(history, key);
    if frame.key == key {
      assert (all + [frame.entry])[|all| - |entries|..] == all[|all| - |entries|..] + [frame.entry];
    } else {
      assert all + [] == all;
    }
  }
}
