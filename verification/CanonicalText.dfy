/**
  The canonical text as a JSON document: how values are spelled, and that members ascend by the
  UTF-16 code units of their keys.
 */
module CanonicalText {
  import opened Text
  import opened Canonical
  import opened CanonicalOrder
  import opened JsonText

  // ----- UTF-16 -----

  // The code units of a string: one below U+10000, a surrogate pair from there on (section 2 of
  // RFC 2781).
  function CodeUnits(s: string): seq<int> {
    if s == "" then []
    else
      var k := s[0] as int;
      (if k < 0x10000 then [k] else [0xD800 + (k - 0x10000) / 0x400, 0xDC00 + (k - 0x10000) % 0x400]) + CodeUnits(s[1..])
  }

  // The lexicographic order: a proper prefix, or smaller at the first place that differs.
  ghost predicate UnitsBefore(x: seq<int>, y: seq<int>) {
    || x < y
    || exists i :: 0 <= i < |x| && i < |y| && x[..i] == y[..i] && x[i] < y[i]
  }

  lemma CodeUnitsCons(c: char, s: string)
    ensures CodeUnits([c] + s) == CodeUnits([c]) + CodeUnits(s)
    ensures |CodeUnits([c])| == if c as int < 0x10000 then 1 else 2
  {
    assert ([c] + s)[1..] == s && [c][1..] == "";
    assert CodeUnits("") == [];
  }

  lemma BeforeAppend(p: seq<int>, x: seq<int>, y: seq<int>)
    ensures UnitsBefore(p + x, p + y) <==> UnitsBefore(x, y)
  {
    if UnitsBefore(x, y) {
      if i :| 0 <= i < |x| && i < |y| && x[..i] == y[..i] && x[i] < y[i] {
        var j := |p| + i;
        assert (p + x)[..j] == p + x[..i] && (p + y)[..j] == p + y[..i];
        assert (p + x)[j] < (p + y)[j];
      } else {
        assert p + y == (p + x) + y[|x|..];
      }
    }
    if UnitsBefore(p + x, p + y) {
      assert x == (p + x)[|p|..] && y == (p + y)[|p|..];
      if i :| 0 <= i < |p + x| && i < |p + y| && (p + x)[..i] == (p + y)[..i] && (p + x)[i] < (p + y)[i] {
        var j := i - |p|;
        assert x[..j] == (p + x)[..i][|p|..] && y[..j] == (p + y)[..i][|p|..];
        assert x[j] < y[j];
      }
    }
  }

  lemma PrefixAgrees(x: seq<int>, y: seq<int>, i: nat)
    requires i <= |x| && i <= |y| && x[..i] == y[..i]
    ensures forall k :: 0 <= k < i ==> x[k] == y[k]
  {
    assert forall k :: 0 <= k < i ==> x[k] == x[..i][k] && y[k] == y[..i][k];
  }

  // Where the first difference is decides.
  lemma BeforeHere(x: seq<int>, y: seq<int>, i: nat)
    requires i < |x| && i < |y| && x[..i] == y[..i] && x[i] != y[i]
    ensures UnitsBefore(x, y) <==> x[i] < y[i]
  {
    if j :| 0 <= j < |x| && j < |y| && x[..j] == y[..j] && x[j] < y[j] {
      PrefixAgrees(x, y, i);
      PrefixAgrees(x, y, j);
    }
  }

  // Two different characters: the first place where their units differ.
  lemma CharsDiffer(c: char, d: char) returns (i: nat)
    requires c != d
    ensures var x, y := CodeUnits([c]), CodeUnits([d]);
            && i < |x| && i < |y| && x[..i] == y[..i] && x[i] != y[i]
            && (x[i] < y[i] <==> Rank(c) < Rank(d))
  {
    var x, y := CodeUnits([c]), CodeUnits([d]);
    CodeUnitsCons(c, "");
    CodeUnitsCons(d, "");
    i := if x[0] == y[0] then 1 else 0;
    assert [c][1..] == "" && [d][1..] == "";
  }

  // The order of keys is the lexicographic order of their UTF-16 code units.
  lemma {:induction false} PrecedesIff(a: string, b: string)
    ensures Precedes(a, b) <==> UnitsBefore(CodeUnits(a), CodeUnits(b))
  {
    if a == "" || b == "" {
      OneIsEmpty(a, b);
    } else {
      assert a == [a[0]] + a[1..] && b == [b[0]] + b[1..];
      CodeUnitsCons(a[0], a[1..]);
      CodeUnitsCons(b[0], b[1..]);
      if a[0] == b[0] {
        PrecedesIff(a[1..], b[1..]);
        BeforeAppend(CodeUnits([a[0]]), CodeUnits(a[1..]), CodeUnits(b[1..]));
      } else {
        var i := CharsDiffer(a[0], b[0]);
        hide CodeUnits, Rank;
        var x, y := CodeUnits(a), CodeUnits(b);
        assert x[..i] == CodeUnits([a[0]])[..i] && y[..i] == CodeUnits([b[0]])[..i];
        BeforeHere(x, y, i);
      }
    }
  }

  lemma OneIsEmpty(a: string, b: string)
    requires a == "" || b == ""
    ensures Precedes(a, b) <==> UnitsBefore(CodeUnits(a), CodeUnits(b))
  {
    assert a != "" ==> CodeUnits(a) != [];
    assert b != "" ==> CodeUnits(b) != [];
  }

  // ----- Spelling -----

  // A character is written as itself if it may be, by a two-character escape if it has one, and by four
  // lower-case digits otherwise; a slash is written as itself.
  predicate Shortest(p: Piece) {
    match p
    case Plain(_) => true
    case Short(c) => c != '/'
    case Hex(ds) =>
      && |ds| == 4 && ds[..2] == "00" && (forall i :: 0 <= i < 4 ==> IsDigit(ds[i]) || 'a' <= ds[i] <= 'f')
      && PieceOk(p) && Units(p)[0] < 32 && Units(p)[0] !in {8, 9, 10, 12, 13}
  }

  // These pieces spell the string.
  predicate Spells(s: string, ps: seq<Piece>) {
    PiecesOk(ps) && Key(ps) == CodeUnits(s) && forall i :: 0 <= i < |ps| ==> Shortest(ps[i])
  }

  function Spelling(c: char): Piece {
    var k := c as int;
    if c == '"' || c == '\\' then Short(c)
    else if k == 8 then Short('b')
    else if k == 9 then Short('t')
    else if k == 10 then Short('n')
    else if k == 12 then Short('f')
    else if k == 13 then Short('r')
    else if k < 32 then Hex("00" + [HexDigit(k / 16), HexDigit(k % 16)])
    else Plain(c)
  }

  function SpellingAll(s: string): seq<Piece> {
    if s == "" then [] else [Spelling(s[0])] + SpellingAll(s[1..])
  }

  lemma HexSpelling(k: nat)
    requires k < 32
    ensures HexChar(HexDigit(k / 16)) && HexChar(HexDigit(k % 16))
    ensures HexValue(HexDigit(k / 16)) * 16 + HexValue(HexDigit(k % 16)) == k
    ensures forall d :: d in [HexDigit(k / 16), HexDigit(k % 16)] ==> IsDigit(d) || 'a' <= d <= 'f'
  {
  }

  lemma OneUnit(c: char)
    requires c as int < 0x10000
    ensures CodeUnits([c]) == [c as int]
  {
    assert [c][1..] == "" && CodeUnits("") == [];
  }

  lemma HexIs(c: char)
    requires c as int < 32
    ensures var p := Hex("00" + [HexDigit(c as int / 16), HexDigit(c as int % 16)]);
            && PieceOk(p) && Units(p) == CodeUnits([c])
            && (c as int !in {8, 9, 10, 12, 13} ==> Shortest(p) && WritePiece(p) == EscapeChar(c))
  {
    var k := c as int;
    HexSpelling(k);
    OneUnit(c);
    assert HexValue('0') == 0;
    assert "\\u" + ("00" + [HexDigit(k / 16), HexDigit(k % 16)]) == "\\u00" + [HexDigit(k / 16), HexDigit(k % 16)];
  }

  lemma SpellingIs(c: char)
    ensures var p := Spelling(c);
            PieceOk(p) && Shortest(p) && Units(p) == CodeUnits([c]) && WritePiece(p) == EscapeChar(c)
  {
    if c as int < 32 {
      HexIs(c);
      OneUnit(c);
    } else {
      assert [c][1..] == "" && CodeUnits("") == [];
    }
  }

  lemma {:induction false} SpellingSpells(s: string)
    ensures Spells(s, SpellingAll(s))
  {
    if s != "" {
      SpellingIs(s[0]);
      SpellingSpells(s[1..]);
      assert s == [s[0]] + s[1..];
      CodeUnitsCons(s[0], s[1..]);
      hide Spelling, Shortest, PieceOk, Units, WritePiece, EscapeChar, CodeUnits;
      var rest := SpellingAll(s[1..]);
      assert SpellingAll(s) == [Spelling(s[0])] + rest && SpellingAll(s)[1..] == rest;
    }
  }

  lemma {:induction false} SpellingIsEscaped(s: string)
    ensures WritePieces(SpellingAll(s)) == EscapeAll(s)
  {
    if s != "" {
      SpellingIs(s[0]);
      SpellingIsEscaped(s[1..]);
      hide Spelling, Shortest, PieceOk, Units, WritePiece, EscapeChar, CodeUnits;
      var rest := SpellingAll(s[1..]);
      assert SpellingAll(s) == [Spelling(s[0])] + rest && SpellingAll(s)[1..] == rest;
    }
  }

  lemma SpellingAllIs(s: string)
    ensures Spells(s, SpellingAll(s)) && WriteString(SpellingAll(s)) == Quote(s)
  {
    hide Spells, SpellingAll, WritePieces, EscapeAll;
    SpellingSpells(s);
    SpellingIsEscaped(s);
  }

  // ----- The document -----

  // The document writes the value without spacing: strings as above, numbers as the host prints them,
  // items in their order, and the members in ascending order of their keys' code units.
  ghost predicate Writes(num: Numerals, v: Json, d: Doc)
    decreases v
  {
    match v
    case JNull => d == Atom("null")
    case JBool(b) => d == Atom(if b then "true" else "false")
    case JNum(n) => d == Atom(num.show(n))
    case JStr(s) => d.Quoted? && Spells(s, d.pieces)
    case JArr(items) =>
      d.List? && d.gap == "" && |d.items| == |items| && forall i :: 0 <= i < |items| ==> Writes(num, items[i], d.items[i])
    case JObj(ms) =>
      && d.Record? && d.gap == "" && |d.fields| == |ms|
      && (forall i :: 0 <= i < |d.fields| ==> d.fields[i].before == "" && d.fields[i].after == "" && PiecesOk(d.fields[i].key))
      && (forall i, j :: 0 <= i < j < |d.fields| ==> UnitsBefore(Key(d.fields[i].key), Key(d.fields[j].key)))
      && (forall m :: 0 <= m < |ms| ==>
            exists i :: 0 <= i < |d.fields| && Spells(ms[m].key, d.fields[i].key) && Writes(num, ms[m].value, d.fields[i].value))
  }

  // The canonical text of a value is the text of such a document.
  lemma {:induction false} CanonIsDocument(num: Numerals, v: Json) returns (d: Doc)
    requires NumeralLaw(num) && Proper(num, v)
    ensures DocOk(d) && Write(d) == Canon(num, v) && Writes(num, v, d)
    decreases Size(v), 0
  {
    match v
    case JNull => d := Atom("null");
    case JBool(b) => d := Atom(if b then "true" else "false");
    case JNum(n) => d := Atom(num.show(n));
    case JStr(t) =>
      SpellingAllIs(t);
      d := Quoted(SpellingAll(t));
    case JArr(items) =>
      var ds := ItemsAre(num, items);
      d := List("", ds);
    case JObj(ms) =>
      SortProper(num, ms);
      var fs := FieldsAre(num, SortMembers(ms));
      d := Record("", fs);
      ObjectWritten(num, ms, fs);
  }

  lemma {:induction false} ItemsAre(num: Numerals, items: seq<Json>) returns (ds: seq<Doc>)
    requires NumeralLaw(num) && forall i :: 0 <= i < |items| ==> Proper(num, items[i])
    ensures |ds| == |items| && WriteItems(ds) == CanonItems(num, items)
    ensures forall i :: 0 <= i < |ds| ==> DocOk(ds[i]) && Writes(num, items[i], ds[i])
    decreases ItemsSize(items), 1
  {
    hide NumeralLaw, Proper, DocOk, Writes, Write, Canon;
    if items == [] {
      ds := [];
    } else {
      var d := CanonIsDocument(num, items[0]);
      var rest := ItemsAre(num, items[1..]);
      ds := [d] + rest;
      assert ds[1..] == rest;
    }
  }

  // This field writes this member.
  ghost predicate WritesField(num: Numerals, m: Member, f: Field) {
    FieldOk(f) && f.before == "" && f.after == "" && Spells(m.key, f.key) && Writes(num, m.value, f.value)
  }

  lemma {:induction false} FieldsAre(num: Numerals, ms: seq<Member>) returns (fs: seq<Field>)
    requires NumeralLaw(num) && forall i :: 0 <= i < |ms| ==> Proper(num, ms[i].value)
    ensures |fs| == |ms| && WriteFields(fs) == CanonMembers(num, ms)
    ensures forall i :: 0 <= i < |fs| ==> WritesField(num, ms[i], fs[i])
    decreases MembersSize(ms), 2
  {
    hide NumeralLaw, Proper, WritesField, WriteField, CanonMember;
    if ms == [] {
      fs := [];
    } else {
      var f := FieldIs(num, ms[0]);
      var rest := FieldsAre(num, ms[1..]);
      fs := [f] + rest;
      assert fs[1..] == rest;
    }
  }

  lemma {:induction false} FieldIs(num: Numerals, m: Member) returns (f: Field)
    requires NumeralLaw(num) && Proper(num, m.value)
    ensures WritesField(num, m, f) && WriteField(f) == CanonMember(num, m)
    decreases Size(m.value), 1
  {
    hide NumeralLaw, Proper, DocOk, Writes, Write, Canon, Quote, WriteString;
    var d := CanonIsDocument(num, m.value);
    SpellingAllIs(m.key);
    f := Field("", SpellingAll(m.key), "", d);
  }

  lemma ObjectWritten(num: Numerals, ms: seq<Member>, fs: seq<Field>)
    requires DistinctKeys(ms) && |fs| == |SortMembers(ms)|
    requires forall i :: 0 <= i < |fs| ==> WritesField(num, SortMembers(ms)[i], fs[i])
    ensures Writes(num, JObj(ms), Record("", fs))
  {
    hide Proper, DocOk, Key, CodeUnits, UnitsBefore, Precedes, SortMembers;
    SortSorts(ms);
    var sorted := SortMembers(ms);
    SortLength(ms);
    forall i, j | 0 <= i < j < |fs|
      ensures UnitsBefore(Key(fs[i].key), Key(fs[j].key))
    {
      assert Precedes(sorted[i].key, sorted[j].key);
      PrecedesIff(sorted[i].key, sorted[j].key);
    }
    forall m | 0 <= m < |ms|
      ensures exists i :: 0 <= i < |fs| && Spells(ms[m].key, fs[i].key) && Writes(num, ms[m].value, fs[i].value)
    {
      assert ms[m] in sorted;
      var i :| 0 <= i < |sorted| && sorted[i] == ms[m];
      assert WritesField(num, sorted[i], fs[i]);
    }
  }

  lemma {:induction false} SortLength(ms: seq<Member>)
    ensures |SortMembers(ms)| == |ms|
  {
    if ms != [] {
      SortLength(ms[1..]);
      InsertLength(ms[0], SortMembers(ms[1..]));
    }
  }

  lemma {:induction false} InsertLength(m: Member, ms: seq<Member>)
    ensures |Insert(m, ms)| == |ms| + 1
  {
    if ms != [] {
      InsertLength(m, ms[1..]);
    }
  }
}
