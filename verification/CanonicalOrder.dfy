/** Sorting members: the same value, and one order for it. */
module CanonicalOrder {
  import opened Canonical

  lemma {:induction false} PrecedesTotal(a: string, b: string)
    ensures Precedes(a, b) || a == b || Precedes(b, a)
  {
    if a != "" && b != "" && a[0] == b[0] {
      PrecedesTotal(a[1..], b[1..]);
      if a[1..] == b[1..] {
        assert a == [a[0]] + a[1..] && b == [b[0]] + b[1..];
      }
    }
  }

  lemma {:induction false} PrecedesStrict(a: string, b: string)
    requires Precedes(a, b)
    ensures a != b && !Precedes(b, a)
  {
    if a != "" && a[0] == b[0] {
      PrecedesStrict(a[1..], b[1..]);
    }
  }

  lemma {:induction false} PrecedesTransitive(a: string, b: string, c: string)
    requires Precedes(a, b) && Precedes(b, c)
    ensures Precedes(a, c)
  {
    if a != "" && a[0] == b[0] && b[0] == c[0] {
      PrecedesTransitive(a[1..], b[1..], c[1..]);
    }
  }

  // ----- Sorting -----

  lemma {:induction false} InsertSorted(m: Member, ms: seq<Member>)
    requires Sorted(ms) && forall i :: 0 <= i < |ms| ==> ms[i].key != m.key
    ensures Sorted(Insert(m, ms))
    ensures forall x :: x in Insert(m, ms) <==> x == m || x in ms
  {
    hide Precedes;
    if ms != [] {
      PrecedesTotal(m.key, ms[0].key);
      if Precedes(m.key, ms[0].key) {
        forall i | 1 <= i < |ms|
          ensures Precedes(m.key, ms[i].key)
        {
          PrecedesTransitive(m.key, ms[0].key, ms[i].key);
        }
      } else {
        InsertSorted(m, ms[1..]);
        assert ms == [ms[0]] + ms[1..];
        var rest := Insert(m, ms[1..]);
        forall i | 0 <= i < |rest|
          ensures Precedes(ms[0].key, rest[i].key)
        {
          assert rest[i] in rest;
        }
      }
    }
  }

  lemma {:induction false} SortSorts(ms: seq<Member>)
    requires DistinctKeys(ms)
    ensures Sorted(SortMembers(ms))
    ensures forall x :: x in SortMembers(ms) <==> x in ms
  {
    hide Insert;
    if ms != [] {
      SortSorts(ms[1..]);
      forall i | 0 <= i < |SortMembers(ms[1..])|
        ensures SortMembers(ms[1..])[i].key != ms[0].key
      {
        assert SortMembers(ms[1..])[i] in ms[1..];
      }
      InsertSorted(ms[0], SortMembers(ms[1..]));
      assert ms == [ms[0]] + ms[1..];
    }
  }

  lemma SortedIsDistinct(ms: seq<Member>)
    requires Sorted(ms)
    ensures DistinctKeys(ms)
  {
    hide Precedes;
    forall i, j | 0 <= i < j < |ms|
      ensures ms[i].key != ms[j].key
    {
      PrecedesStrict(ms[i].key, ms[j].key);
    }
  }

  lemma SortProper(num: Numerals, ms: seq<Member>)
    requires ProperMembers(num, ms)
    ensures ProperMembers(num, SortMembers(ms)) && Sorted(SortMembers(ms))
  {
    hide Proper;
    SortSorts(ms);
    SortedIsDistinct(SortMembers(ms));
    forall i | 0 <= i < |SortMembers(ms)|
      ensures Proper(num, SortMembers(ms)[i].value)
    {
      assert SortMembers(ms)[i] in ms;
    }
  }

  lemma {:induction false} MemberDenoted(ms: seq<Member>, i: nat)
    requires DistinctKeys(ms) && i < |ms|
    ensures ms[i].key in DenoteMembers(ms) && DenoteMembers(ms)[ms[i].key] == Denote(ms[i].value)
  {
    hide Denote;
    if i > 0 {
      MemberDenoted(ms[1..], i - 1);
    }
  }

  lemma {:induction false} KeyDenoted(ms: seq<Member>, key: string) returns (i: nat)
    requires key in DenoteMembers(ms)
    ensures i < |ms| && ms[i].key == key
  {
    hide Denote;
    if ms[0].key == key {
      i := 0;
    } else {
      i := KeyDenoted(ms[1..], key);
      i := i + 1;
    }
  }

  // Sequences of the same members mean the same.
  lemma SameMembers(a: seq<Member>, b: seq<Member>)
    requires DistinctKeys(a) && DistinctKeys(b) && forall x :: x in a <==> x in b
    ensures DenoteMembers(a) == DenoteMembers(b)
  {
    hide Denote, DenoteMembers;
    var m, n := DenoteMembers(a), DenoteMembers(b);
    forall key | key in m
      ensures key in n && n[key] == m[key]
    {
      var i := KeyDenoted(a, key);
      MemberDenoted(a, i);
      assert a[i] in b;
      var j :| 0 <= j < |b| && b[j] == a[i];
      MemberDenoted(b, j);
    }
    forall key | key in n
      ensures key in m
    {
      var j := KeyDenoted(b, key);
      assert b[j] in a;
      var i :| 0 <= i < |a| && a[i] == b[j];
      MemberDenoted(a, i);
    }
  }

  lemma SortMeansTheSame(ms: seq<Member>)
    requires DistinctKeys(ms)
    ensures DenoteMembers(SortMembers(ms)) == DenoteMembers(ms)
  {
    SortSorts(ms);
    SortedIsDistinct(SortMembers(ms));
    SameMembers(SortMembers(ms), ms);
  }

  // ----- One order for one value -----

  lemma {:induction false} HeadIsLeast(ms: seq<Member>, key: string)
    requires Sorted(ms) && ms != [] && key in DenoteMembers(ms)
    ensures key == ms[0].key || Precedes(ms[0].key, key)
  {
    hide Precedes, DenoteMembers;
    var i := KeyDenoted(ms, key);
  }

  lemma HeadIsNoTail(ms: seq<Member>)
    requires Sorted(ms) && ms != []
    ensures ms[0].key !in DenoteMembers(ms[1..])
  {
    hide Precedes, DenoteMembers;
    if ms[0].key in DenoteMembers(ms[1..]) {
      var i := KeyDenoted(ms[1..], ms[0].key);
      PrecedesStrict(ms[0].key, ms[i + 1].key);
    }
  }

  lemma TailDenoted(ms: seq<Member>)
    requires Sorted(ms) && ms != []
    ensures DenoteMembers(ms[1..]) == DenoteMembers(ms) - {ms[0].key}
    ensures ms[0].key in DenoteMembers(ms) && DenoteMembers(ms)[ms[0].key] == Denote(ms[0].value)
  {
    HeadIsNoTail(ms);
    assert DenoteMembers(ms) == DenoteMembers(ms[1..])[ms[0].key := Denote(ms[0].value)];
    hide *;
    PutAndRemove(DenoteMembers(ms[1..]), ms[0].key, Denote(ms[0].value));
  }

  lemma PutAndRemove<K, V>(m: map<K, V>, k: K, v: V)
    requires k !in m
    ensures m[k := v] - {k} == m
  {
  }

  // Sorted members that mean the same are the same keys, in the same order, with values that
  // mean the same.
  lemma {:induction false} SortedUnique(a: seq<Member>, b: seq<Member>)
    requires Sorted(a) && Sorted(b) && DenoteMembers(a) == DenoteMembers(b)
    ensures |a| == |b|
    ensures forall i :: 0 <= i < |a| ==> a[i].key == b[i].key && Denote(a[i].value) == Denote(b[i].value)
  {
    hide Precedes, Denote;
    if a == [] || b == [] {
      hide Sorted;
      NoMembers(a);
      NoMembers(b);
    } else {
      TailDenoted(a);
      TailDenoted(b);
      HeadIsLeast(a, b[0].key);
      HeadIsLeast(b, a[0].key);
      if a[0].key != b[0].key {
        PrecedesStrict(a[0].key, b[0].key);
      }
      hide DenoteMembers;
      SortedUnique(a[1..], b[1..]);
      assert a == [a[0]] + a[1..] && b == [b[0]] + b[1..];
    }
  }

  lemma NoMembers(ms: seq<Member>)
    ensures DenoteMembers(ms) == map[] <==> ms == []
  {
    hide Denote;
    if ms != [] {
      assert ms[0].key in DenoteMembers(ms);
    }
  }
}
