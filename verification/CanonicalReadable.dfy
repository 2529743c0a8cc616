/**
  Canonical text is uniquely readable: it determines the value up to the order of members, and
  the value determines the text.
 */
module CanonicalReadable {
  import opened Text
  import opened Canonical
  import opened CanonicalOrder

  // What can follow a value inside canonical text.
  predicate Delimited(rest: string) {
    rest == "" || rest[0] == ',' || rest[0] == ']' || rest[0] == '}'
  }

  // ----- Strings -----

  lemma OneEscape(c: char, d: char, x: string, y: string)
    requires EscapeChar(c) + x == EscapeChar(d) + y
    ensures c == d && x == y
  {
    var u, v := EscapeChar(c), EscapeChar(d);
    assert u[0] == (u + x)[0] && v[0] == (v + y)[0];
    if |u| > 1 && |v| > 1 {
      assert u[1] == (u + x)[1] && v[1] == (v + y)[1];
      if |u| > 2 && |v| > 2 {
        assert u[4] == (u + x)[4] && v[4] == (v + y)[4];
        assert u[5] == (u + x)[5] && v[5] == (v + y)[5];
      }
    }
    assert u == v;
    assert x == (u + x)[|u|..] && y == (v + y)[|v|..];
  }

  lemma {:induction false} QuotedReadable(a: string, b: string, x: string, y: string)
    requires EscapeAll(a) + "\"" + x == EscapeAll(b) + "\"" + y
    ensures a == b && x == y
  {
    hide EscapeChar;
    QuoteOpens(a, x);
    QuoteOpens(b, y);
    if a == "" {
      assert x == (EscapeAll(a) + "\"" + x)[1..] && y == (EscapeAll(b) + "\"" + y)[1..];
    } else {
      var s, t := EscapeAll(a[1..]) + "\"" + x, EscapeAll(b[1..]) + "\"" + y;
      assert EscapeAll(a) + "\"" + x == EscapeChar(a[0]) + s;
      assert EscapeAll(b) + "\"" + y == EscapeChar(b[0]) + t;
      OneEscape(a[0], b[0], s, t);
      QuotedReadable(a[1..], b[1..], x, y);
      assert a == [a[0]] + a[1..] && b == [b[0]] + b[1..];
    }
  }

  // A closing quote comes first exactly when nothing is quoted.
  lemma QuoteOpens(a: string, x: string)
    ensures var t := EscapeAll(a) + "\"" + x;
            t != "" && (a == "" <==> t[0] == '"')
  {
    if a != "" {
      var u := EscapeChar(a[0]);
      assert (EscapeAll(a) + "\"" + x)[0] == u[0];
    }
  }

  lemma StringReadable(a: string, b: string, x: string, y: string)
    requires Quote(a) + x == Quote(b) + y
    ensures a == b && x == y
  {
    hide EscapeAll;
    assert (Quote(a) + x)[1..] == EscapeAll(a) + "\"" + x;
    assert (Quote(b) + y)[1..] == EscapeAll(b) + "\"" + y;
    QuotedReadable(a, b, x, y);
  }

  // ----- Numbers -----

  lemma NumberEnds(s: string, t: string, x: string, y: string)
    requires s + x == t + y && Delimited(x) && forall i :: 0 <= i < |t| ==> NumberChar(t[i])
    ensures |t| <= |s|
  {
    var u := s + x;
    assert x != "" ==> u[|s|] == x[0];
    assert forall i :: 0 <= i < |t| ==> u[i] == t[i];
  }

  lemma NumberReadable(num: Numerals, m: real, n: real, x: string, y: string)
    requires NumeralLaw(num) && num.finite(m) && num.finite(n) && Delimited(x) && Delimited(y)
    requires num.show(m) + x == num.show(n) + y
    ensures m == n && x == y
  {
    var s, t := num.show(m), num.show(n);
    NumberEnds(s, t, x, y);
    NumberEnds(t, s, y, x);
    assert s == (s + x)[..|s|] && t == (t + y)[..|t|];
    assert x == (s + x)[|s|..] && y == (t + y)[|t|..];
  }

  // ----- Kinds -----

  // The character a kind of value starts with; numbers share one.
  function Opening(v: Json): char {
    match v
    case JNull => 'n'
    case JBool(b) => if b then 't' else 'f'
    case JNum(_) => '0'
    case JStr(_) => '"'
    case JArr(_) => '['
    case JObj(_) => '{'
  }

  function Class(c: char): char { if IsDigit(c) || c == '-' then '0' else c }

  lemma OpensWith(num: Numerals, v: Json, rest: string)
    requires NumeralLaw(num) && Proper(num, v)
    ensures Canon(num, v) != "" && Class((Canon(num, v) + rest)[0]) == Opening(v)
  {
    hide CanonItems, CanonMembers, EscapeAll;
    var t := Canon(num, v);
    assert t != "" && (t + rest)[0] == t[0];
  }

  // ----- The text determines the value -----

  lemma {:induction false} Readable(num: Numerals, v: Json, w: Json, x: string, y: string)
    requires NumeralLaw(num) && Proper(num, v) && Proper(num, w) && Delimited(x) && Delimited(y)
    requires Canon(num, v) + x == Canon(num, w) + y
    ensures Denote(v) == Denote(w) && x == y
    decreases Size(v), 1
  {
    OpensWith(num, v, x);
    OpensWith(num, w, y);
    assert Opening(v) == Opening(w);
    hide NumeralLaw, Proper, Delimited, Quote, Class;
    match v
    case JNum(n) =>
      hide Canon;
      LeafText(num, v);
      LeafText(num, w);
      NumberCase(num, v, w, x, y);
    case JStr(s) =>
      hide Canon;
      LeafText(num, v);
      LeafText(num, w);
      StringReadable(s, w.s, x, y);
    case JArr(items) => ArrayReadable(num, v, w, x, y);
    case JObj(ms) => ObjectReadable(num, v, w, x, y);
    case JNull => assert x == ("null" + x)[4..] && y == ("null" + y)[4..];
    case JBool(b) =>
      var t := Canon(num, v);
      assert x == (t + x)[|t|..] && y == (t + y)[|t|..];
  }

  lemma LeafText(num: Numerals, v: Json)
    ensures v.JNum? ==> Canon(num, v) == num.show(v.n)
    ensures v.JStr? ==> Canon(num, v) == Quote(v.s)
    ensures v.JArr? ==> Canon(num, v) == "[" + CanonItems(num, v.items) + "]"
    ensures v.JObj? ==> Canon(num, v) == "{" + CanonMembers(num, SortMembers(v.members)) + "}"
  {
    hide CanonItems, CanonMembers, Quote;
  }

  lemma NumberCase(num: Numerals, v: Json, w: Json, x: string, y: string)
    requires NumeralLaw(num) && Proper(num, v) && Proper(num, w) && Delimited(x) && Delimited(y)
    requires v.JNum? && w.JNum? && num.show(v.n) + x == num.show(w.n) + y
    ensures Denote(v) == Denote(w) && x == y
  {
    hide NumeralLaw, Delimited;
    NumberReadable(num, v.n, w.n, x, y);
  }

  lemma {:induction false} ArrayReadable(num: Numerals, v: Json, w: Json, x: string, y: string)
    requires NumeralLaw(num) && Proper(num, v) && Proper(num, w)
    requires v.JArr? && w.JArr? && Canon(num, v) + x == Canon(num, w) + y
    ensures Denote(v) == Denote(w) && x == y
    decreases Size(v), 0
  {
    hide NumeralLaw, Canon, CanonItems;
    LeafText(num, v);
    LeafText(num, w);
    assert (Canon(num, v) + x)[1..] == CanonItems(num, v.items) + ("]" + x);
    assert (Canon(num, w) + y)[1..] == CanonItems(num, w.items) + ("]" + y);
    ItemsReadable(num, v.items, w.items, x, y);
  }

  lemma {:induction false} ObjectReadable(num: Numerals, v: Json, w: Json, x: string, y: string)
    requires NumeralLaw(num) && Proper(num, v) && Proper(num, w)
    requires v.JObj? && w.JObj? && Canon(num, v) + x == Canon(num, w) + y
    ensures Denote(v) == Denote(w) && x == y
    decreases Size(v), 0
  {
    ObjectText(num, v, x);
    ObjectText(num, w, y);
    hide *;
    MembersReadable(num, SortMembers(v.members), SortMembers(w.members), x, y);
    MembersMean(num, v, w);
  }

  // The text of an object behind its opening brace, and what is known of its sorted members.
  lemma ObjectText(num: Numerals, v: Json, x: string)
    requires Proper(num, v) && v.JObj?
    ensures var ms := SortMembers(v.members);
            && (Canon(num, v) + x)[1..] == CanonMembers(num, ms) + ("}" + x)
            && MembersSize(ms) < Size(v)
            && forall i :: 0 <= i < |ms| ==> Proper(num, ms[i].value)
  {
    assert ProperMembers(num, v.members);
    SortProper(num, v.members);
    hide Canon, CanonMembers, Proper, SortMembers;
    LeafText(num, v);
  }

  lemma MembersMean(num: Numerals, v: Json, w: Json)
    requires Proper(num, v) && Proper(num, w) && v.JObj? && w.JObj?
    requires DenoteMembers(SortMembers(v.members)) == DenoteMembers(SortMembers(w.members))
    ensures Denote(v) == Denote(w)
  {
    hide DenoteMembers, SortMembers;
    SortMeansTheSame(v.members);
    SortMeansTheSame(w.members);
  }

  // What follows the first item.
  function AfterItem(num: Numerals, items: seq<Json>, x: string): string
    requires items != []
  {
    if |items| == 1 then "]" + x else "," + (CanonItems(num, items[1..]) + ("]" + x))
  }

  lemma ItemsSplit(num: Numerals, items: seq<Json>, x: string)
    requires items != []
    ensures CanonItems(num, items) + ("]" + x) == Canon(num, items[0]) + AfterItem(num, items, x)
    ensures Delimited(AfterItem(num, items, x))
    ensures AfterItem(num, items, x)[0] == if |items| == 1 then ']' else ','
    ensures AfterItem(num, items, x)[1..] == if |items| == 1 then x else CanonItems(num, items[1..]) + ("]" + x)
  {
    hide Canon;
    var rest := CanonItems(num, items[1..]);
    assert Canon(num, items[0]) + "," + rest + ("]" + x) == Canon(num, items[0]) + ("," + (rest + ("]" + x)));
  }

  lemma {:induction false} ItemsReadable(num: Numerals, a: seq<Json>, b: seq<Json>, x: string, y: string)
    requires NumeralLaw(num)
    requires forall i :: 0 <= i < |a| ==> Proper(num, a[i])
    requires forall i :: 0 <= i < |b| ==> Proper(num, b[i])
    requires CanonItems(num, a) + ("]" + x) == CanonItems(num, b) + ("]" + y)
    ensures DenoteItems(a) == DenoteItems(b) && x == y
    decreases ItemsSize(a), 2
  {
    hide NumeralLaw, Proper, Canon, Denote;
    if a == [] || b == [] {
      ItemsOpen(num, a, x);
      ItemsOpen(num, b, y);
      assert x == (CanonItems(num, []) + ("]" + x))[1..] && y == (CanonItems(num, []) + ("]" + y))[1..];
    } else {
      ItemsSplit(num, a, x);
      ItemsSplit(num, b, y);
      hide AfterItem, CanonItems, Delimited;
      Readable(num, a[0], b[0], AfterItem(num, a, x), AfterItem(num, b, y));
      if |a| > 1 {
        ItemsReadable(num, a[1..], b[1..], x, y);
      }
    }
  }

  lemma ItemsOpen(num: Numerals, items: seq<Json>, x: string)
    requires NumeralLaw(num) && forall i :: 0 <= i < |items| ==> Proper(num, items[i])
    ensures var t := CanonItems(num, items) + ("]" + x);
            t != "" && (items == [] <==> t[0] == ']')
  {
    hide NumeralLaw, Proper;
    if items != [] {
      ItemsSplit(num, items, x);
      OpensWith(num, items[0], AfterItem(num, items, x));
    }
  }

  // What follows the first member.
  function AfterMember(num: Numerals, ms: seq<Member>, x: string): string
    requires ms != []
  {
    if |ms| == 1 then "}" + x else "," + (CanonMembers(num, ms[1..]) + ("}" + x))
  }

  lemma MembersSplit(num: Numerals, ms: seq<Member>, x: string)
    requires ms != []
    ensures CanonMembers(num, ms) + ("}" + x) ==
            Quote(ms[0].key) + (":" + (Canon(num, ms[0].value) + AfterMember(num, ms, x)))
    ensures Delimited(AfterMember(num, ms, x))
    ensures AfterMember(num, ms, x)[0] == if |ms| == 1 then '}' else ','
    ensures AfterMember(num, ms, x)[1..] == if |ms| == 1 then x else CanonMembers(num, ms[1..]) + ("}" + x)
  {
    hide Canon, Quote;
    assert CanonMember(num, ms[0]) == Quote(ms[0].key) + ":" + Canon(num, ms[0].value);
  }

  lemma MembersOpen(num: Numerals, ms: seq<Member>, x: string)
    ensures var t := CanonMembers(num, ms) + ("}" + x);
            t != "" && (ms == [] <==> t[0] == '}')
  {
    hide Canon, AfterMember;
    if ms != [] {
      MembersSplit(num, ms, x);
    }
  }

  lemma {:induction false} MembersReadable(num: Numerals, a: seq<Member>, b: seq<Member>, x: string, y: string)
    requires NumeralLaw(num)
    requires forall i :: 0 <= i < |a| ==> Proper(num, a[i].value)
    requires forall i :: 0 <= i < |b| ==> Proper(num, b[i].value)
    requires CanonMembers(num, a) + ("}" + x) == CanonMembers(num, b) + ("}" + y)
    ensures DenoteMembers(a) == DenoteMembers(b) && x == y
    decreases MembersSize(a), 2
  {
    hide NumeralLaw, Proper, Canon, Denote, Quote, Delimited;
    if a == [] || b == [] {
      MembersOpen(num, a, x);
      MembersOpen(num, b, y);
      assert x == (CanonMembers(num, []) + ("}" + x))[1..] && y == (CanonMembers(num, []) + ("}" + y))[1..];
    } else {
      MembersSplit(num, a, x);
      MembersSplit(num, b, y);
      hide AfterMember, CanonMembers;
      var s, t := Canon(num, a[0].value) + AfterMember(num, a, x), Canon(num, b[0].value) + AfterMember(num, b, y);
      StringReadable(a[0].key, b[0].key, ":" + s, ":" + t);
      assert (":" + s)[1..] == s && (":" + t)[1..] == t;
      Readable(num, a[0].value, b[0].value, AfterMember(num, a, x), AfterMember(num, b, y));
      if |a| > 1 {
        MembersReadable(num, a[1..], b[1..], x, y);
      }
    }
  }

  // ----- The value determines the text -----

  lemma {:induction false} Determined(num: Numerals, v: Json, w: Json)
    requires Proper(num, v) && Proper(num, w) && Denote(v) == Denote(w)
    ensures Canon(num, v) == Canon(num, w)
    decreases Size(v), 0
  {
    hide CanonItems, CanonMembers, Quote;
    match v
    case JArr(items) => ItemsDetermined(num, items, w.items);
    case JObj(ms) => ObjectDetermined(num, v, w);
    case _ =>
  }

  lemma {:induction false} ItemsDetermined(num: Numerals, a: seq<Json>, b: seq<Json>)
    requires forall i :: 0 <= i < |a| ==> Proper(num, a[i])
    requires forall i :: 0 <= i < |b| ==> Proper(num, b[i])
    requires DenoteItems(a) == DenoteItems(b)
    ensures CanonItems(num, a) == CanonItems(num, b)
    decreases ItemsSize(a), 1
  {
    hide Proper, Canon, Denote;
    if a != [] {
      assert DenoteItems(a)[0] == Denote(a[0]) && DenoteItems(a)[1..] == DenoteItems(a[1..]);
      assert DenoteItems(b)[0] == Denote(b[0]) && DenoteItems(b)[1..] == DenoteItems(b[1..]);
      Determined(num, a[0], b[0]);
      ItemsDetermined(num, a[1..], b[1..]);
      assert |a| == 1 <==> |b| == 1 by {
        assert |a| > 1 <==> DenoteItems(a[1..]) != [];
        assert |b| > 1 <==> DenoteItems(b[1..]) != [];
      }
    }
  }

  lemma {:induction false} ObjectDetermined(num: Numerals, v: Json, w: Json)
    requires Proper(num, v) && Proper(num, w) && v.JObj? && w.JObj? && Denote(v) == Denote(w)
    ensures CanonMembers(num, SortMembers(v.members)) == CanonMembers(num, SortMembers(w.members))
    decreases MembersSize(v.members), 3
  {
    assert ProperMembers(num, v.members) && ProperMembers(num, w.members);
    assert DenoteMembers(v.members) == DenoteMembers(w.members);
    SortProper(num, v.members);
    SortProper(num, w.members);
    hide Proper, CanonMembers, SortMembers, DenoteMembers, Denote;
    SortMeansTheSame(v.members);
    SortMeansTheSame(w.members);
    var a, b := SortMembers(v.members), SortMembers(w.members);
    SortedUnique(a, b);
    MembersDetermined(num, a, b);
  }

  lemma {:induction false} MembersDetermined(num: Numerals, a: seq<Member>, b: seq<Member>)
    requires forall i :: 0 <= i < |a| ==> Proper(num, a[i].value)
    requires forall i :: 0 <= i < |b| ==> Proper(num, b[i].value)
    requires |a| == |b|
    requires forall i :: 0 <= i < |a| ==> a[i].key == b[i].key && Denote(a[i].value) == Denote(b[i].value)
    ensures CanonMembers(num, a) == CanonMembers(num, b)
    decreases MembersSize(a), 2
  {
    hide Proper, Canon, Denote, Quote;
    if a != [] {
      Determined(num, a[0].value, b[0].value);
      MembersDetermined(num, a[1..], b[1..]);
    }
  }

  // Two values have the same canonical text exactly when they are the same JSON value, the
  // order of members aside.
  lemma CanonIff(num: Numerals, v: Json, w: Json)
    requires NumeralLaw(num) && Proper(num, v) && Proper(num, w)
    ensures Canon(num, v) == Canon(num, w) <==> Denote(v) == Denote(w)
  {
    hide NumeralLaw, Proper, Canon, Denote;
    if Canon(num, v) == Canon(num, w) {
      assert Canon(num, v) + "" == Canon(num, w) + "";
      Readable(num, v, w, "", "");
    } else if Denote(v) == Denote(w) {
      Determined(num, v, w);
    }
  }
}
