/** Keys made of a peer id and a skill or channel, under which limiters keep their budgets. */
module CompoundKeys {

  function KeyFor(peerId: string, skill: string): string { peerId + "\0" + skill }

  // Two peers can share a budget exactly when the id of one is that of the other, a NUL, and more.
  lemma PeersShareBudgetIff(p: string, q: string)
    requires p != q
    ensures (exists s, t :: KeyFor(p, s) == KeyFor(q, t)) <==> p + "\0" <= q || q + "\0" <= p
  {
    if s, t :| KeyFor(p, s) == KeyFor(q, t) {
      if |p| <= |q| {
        KeyStartsWith(p, s, q, t);
      } else {
        KeyStartsWith(q, t, p, s);
      }
    }
    if p + "\0" <= q {
      LongerPeer(p, q);
    }
    if q + "\0" <= p {
      LongerPeer(q, p);
    }
  }

  lemma KeyStartsWith(p: string, s: string, q: string, t: string)
    requires KeyFor(p, s) == KeyFor(q, t) && p != q && |p| <= |q|
    ensures p + "\0" <= q
  {
    var k := KeyFor(p, s);
    assert k[..|p|] == p && k[|p|] == '\0';
    assert k[..|q|] == q;
    assert |p| < |q|;
    assert q[..|p| + 1] == k[..|p| + 1] == p + "\0";
  }

  lemma LongerPeer(p: string, q: string)
    requires p + "\0" <= q
    ensures exists s, t :: KeyFor(p, s) == KeyFor(q, t)
  {
    assert KeyFor(p, q[|p| + 1..] + "\0") == KeyFor(q, "");
  }

  lemma HasNul(p: string, q: string)
    requires p + "\0" <= q
    ensures '\0' in q
  {
    assert q[|p|] == '\0';
  }

  // Peer ids without NUL characters keep the keys of different pairs apart.
  lemma KeyForInjective(p: string, s: string, q: string, t: string)
    requires '\0' !in p && '\0' !in q
    ensures KeyFor(p, s) == KeyFor(q, t) <==> p == q && s == t
  {
    if p == q {
      assert KeyFor(p, s)[|p| + 1..] == s && KeyFor(q, t)[|q| + 1..] == t;
    } else if KeyFor(p, s) == KeyFor(q, t) {
      PeersShareBudgetIff(p, q);
      if p + "\0" <= q {
        HasNul(p, q);
      } else {
        HasNul(q, p);
      }
    }
  }

  // A NUL inside a peer id makes two pairs share one budget.
  lemma NulSharesBudget()
    ensures KeyFor("a\0b", "c") == KeyFor("a", "b\0c")
  {
    assert KeyFor("a\0b", "c") == "a\0b\0c";
  }
}
