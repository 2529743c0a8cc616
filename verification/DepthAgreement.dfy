/** When the scan of a text and the walk of its value give the same verdict. */
module DepthAgreement {
  import opened Text
  import opened JsonText
  import opened DepthScanner

  // ----- The walk measures the value -----

  function NodeHeight(node: Node): nat {
    match node
    case Leaf => 0
    case Array(items) => 1 + NodesHeight(items)
    case Object(entries) => 1 + EntriesHeight(entries)
  }

  function NodesHeight(items: seq<Node>): nat {
    if items == [] then 0 else Larger(NodeHeight(items[0]), NodesHeight(items[1..]))
  }

  function EntriesHeight(entries: seq<Entry>): nat {
    if entries == [] then 0 else Larger(NodeHeight(entries[0].value), EntriesHeight(entries[1..]))
  }

  predicate Exceeds(h: nat, depth: int, maxDepth: int) { h > 0 && depth - 1 + h > maxDepth }

  lemma {:induction false} WalkMeasures(node: Node, depth: int, maxDepth: int)
    ensures WalkRejects(node, depth, maxDepth) <==> Exceeds(NodeHeight(node), depth, maxDepth)
  {
    match node
    case Leaf =>
    case Array(items) => WalkItems(items, depth + 1, maxDepth);
    case Object(entries) => WalkEntries(entries, depth + 1, maxDepth);
  }

  lemma {:induction false} WalkItems(items: seq<Node>, depth: int, maxDepth: int)
    ensures (exists i :: 0 <= i < |items| && WalkRejects(items[i], depth, maxDepth)) <==>
            Exceeds(NodesHeight(items), depth, maxDepth)
  {
    hide WalkRejects, NodeHeight;
    if items != [] {
      WalkMeasures(items[0], depth, maxDepth);
      WalkItems(items[1..], depth, maxDepth);
      var rest := items[1..];
      assert forall i :: 0 <= i < |rest| ==> rest[i] == items[i + 1];
      assert forall i :: 1 <= i < |items| ==> items[i] == rest[i - 1];
    }
  }

  lemma {:induction false} WalkEntries(entries: seq<Entry>, depth: int, maxDepth: int)
    ensures (exists i :: 0 <= i < |entries| && WalkRejects(entries[i].value, depth, maxDepth)) <==>
            Exceeds(EntriesHeight(entries), depth, maxDepth)
  {
    hide WalkRejects, NodeHeight;
    if entries != [] {
      WalkMeasures(entries[0].value, depth, maxDepth);
      WalkEntries(entries[1..], depth, maxDepth);
      var rest := entries[1..];
      assert forall i :: 0 <= i < |rest| ==> rest[i] == entries[i + 1];
      assert forall i :: 1 <= i < |entries| ==> entries[i] == rest[i - 1];
    }
  }

  // ----- Which fields a parsed object keeps -----

  ghost predicate FieldsOk(fields: seq<Field>) {
    forall i :: 0 <= i < |fields| ==> FieldOk(fields[i]) && PiecesOk(fields[i].key) && DocOk(fields[i].value)
  }

  ghost function EntryOf(f: Field): Entry
    requires PiecesOk(f.key) && DocOk(f.value)
  {
    Entry(Key(f.key), Parse(f.value))
  }

  // The field is not replaced by a later one.
  ghost predicate Stays(fields: seq<Field>, i: nat)
    requires FieldsOk(fields) && i < |fields|
  {
    forall j :: i < j < |fields| ==> Key(fields[j].key) != Key(fields[i].key)
  }

  ghost predicate DistinctEntries(es: seq<Entry>) {
    forall i, j :: 0 <= i < j < |es| ==> es[i].key != es[j].key
  }

  lemma {:induction false} PutIs(es: seq<Entry>, key: seq<int>, value: Node)
    requires DistinctEntries(es)
    ensures forall x :: x in Put(es, key, value) <==> x == Entry(key, value) || (x in es && x.key != key)
    ensures DistinctEntries(Put(es, key, value))
  {
    if es != [] {
      assert es == [es[0]] + es[1..];
      if es[0].key != key {
        PutIs(es[1..], key, value);
        var rest := Put(es[1..], key, value);
        forall i | 0 <= i < |rest|
          ensures rest[i].key != es[0].key
        {
          assert rest[i] in rest;
        }
      }
    }
  }

  // The parsed object holds exactly the fields that stay.
  lemma {:induction false} ParsedFields(fields: seq<Field>)
    requires FieldsOk(fields)
    ensures DistinctEntries(ParseFields(fields))
    ensures forall x :: x in ParseFields(fields) <==> exists i :: 0 <= i < |fields| && Stays(fields, i) && x == EntryOf(fields[i])
  {
    hide Key, Parse, FieldOk, DocOk, PiecesOk, Put;
    if fields != [] {
      var init, last := fields[..|fields| - 1], fields[|fields| - 1];
      ParsedFields(init);
      PutIs(ParseFields(init), Key(last.key), Parse(last.value));
      StaysBefore(fields);
      hide DistinctEntries, Stays, FieldsOk, EntryOf;
      forall x
        ensures x in ParseFields(fields) <==> exists i :: 0 <= i < |fields| && Stays(fields, i) && x == EntryOf(fields[i])
      {
        EntryIsPut(fields, x);
        OneMore(fields, x);
      }
    }
  }

  lemma EntryIsPut(fields: seq<Field>, x: Entry)
    requires FieldsOk(fields) && fields != []
    ensures FieldsOk(fields[..|fields| - 1])
    ensures var last := fields[|fields| - 1];
            ParseFields(fields) == Put(ParseFields(fields[..|fields| - 1]), Key(last.key), Parse(last.value)) &&
            EntryOf(last) == Entry(Key(last.key), Parse(last.value))
  {
    hide Key, Parse, FieldOk, DocOk, PiecesOk, Put;
  }

  // The last field stays, and an earlier one stays unless the last one has its key.
  lemma StaysBefore(fields: seq<Field>)
    requires FieldsOk(fields) && fields != []
    ensures var init, last := fields[..|fields| - 1], fields[|fields| - 1];
            && FieldsOk(init)
            && Stays(fields, |fields| - 1)
            && (forall i :: 0 <= i < |init| ==> (Stays(fields, i) <==> Stays(init, i) && Key(init[i].key) != Key(last.key)))
  {
    hide Key, FieldOk, DocOk, PiecesOk;
    var init := fields[..|fields| - 1];
    assert forall i :: 0 <= i < |init| ==> init[i] == fields[i];
  }

  lemma OneMore(fields: seq<Field>, x: Entry)
    requires FieldsOk(fields) && fields != []
    requires var init, last := fields[..|fields| - 1], fields[|fields| - 1];
             && FieldsOk(init)
             && Stays(fields, |fields| - 1)
             && (forall i :: 0 <= i < |init| ==> (Stays(fields, i) <==> Stays(init, i) && Key(init[i].key) != Key(last.key)))
             && (x in ParseFields(init) <==> exists i :: 0 <= i < |init| && Stays(init, i) && x == EntryOf(init[i]))
             && (x in ParseFields(fields) <==> x == EntryOf(last) || (x in ParseFields(init) && x.key != Key(last.key)))
    ensures x in ParseFields(fields) <==> exists i :: 0 <= i < |fields| && Stays(fields, i) && x == EntryOf(fields[i])
  {
    hide Key, Parse, FieldOk, DocOk, PiecesOk, ParseFields, Stays;
    var init, last := fields[..|fields| - 1], fields[|fields| - 1];
    if x in ParseFields(fields) && x != EntryOf(last) {
      var i :| 0 <= i < |init| && Stays(init, i) && x == EntryOf(init[i]);
      assert Stays(fields, i) && x == EntryOf(fields[i]);
    }
    if i :| 0 <= i < |fields| && Stays(fields, i) && x == EntryOf(fields[i]) {
      if i < |init| {
        assert Stays(init, i) && x == EntryOf(init[i]);
      }
    }
  }

  // ----- Heights of what stays -----

  lemma {:induction false} EntriesHeightIs(es: seq<Entry>)
    ensures forall i :: 0 <= i < |es| ==> NodeHeight(es[i].value) <= EntriesHeight(es)
    ensures EntriesHeight(es) == 0 || exists i :: 0 <= i < |es| && NodeHeight(es[i].value) == EntriesHeight(es)
  {
    hide NodeHeight;
    if es != [] {
      EntriesHeightIs(es[1..]);
      var rest := es[1..];
      assert forall i :: 0 <= i < |rest| ==> rest[i] == es[i + 1];
      assert forall i :: 1 <= i < |es| ==> es[i] == rest[i - 1];
    }
  }

  lemma {:induction false} VisibleFieldsIs(fields: seq<Field>)
    requires FieldsOk(fields)
    ensures forall i :: 0 <= i < |fields| && Stays(fields, i) ==> VisibleHeight(fields[i].value) <= VisibleFields(fields)
    ensures VisibleFields(fields) == 0 ||
            exists i :: 0 <= i < |fields| && Stays(fields, i) && VisibleHeight(fields[i].value) == VisibleFields(fields)
  {
    hide Key, DocOk, PiecesOk, FieldOk, VisibleHeight;
    if fields != [] {
      var rest := fields[1..];
      VisibleFieldsIs(rest);
      FirstStays(fields);
      if VisibleFields(fields) != 0 && VisibleFields(fields) == VisibleFields(rest) {
        var i :| 0 <= i < |rest| && Stays(rest, i) && VisibleHeight(rest[i].value) == VisibleFields(rest);
        assert Stays(fields, i + 1) && fields[i + 1] == rest[i];
      }
      forall i | 0 <= i < |fields| && Stays(fields, i)
        ensures VisibleHeight(fields[i].value) <= VisibleFields(fields)
      {
        if i > 0 {
          assert Stays(rest, i - 1) && rest[i - 1] == fields[i];
        }
      }
    }
  }

  lemma FirstStays(fields: seq<Field>)
    requires FieldsOk(fields) && fields != []
    ensures FieldsOk(fields[1..])
    ensures Stays(fields, 0) <==> !Repeated(fields[1..], Key(fields[0].key))
    ensures forall i :: 0 <= i < |fields| - 1 ==> (Stays(fields, i + 1) <==> Stays(fields[1..], i))
  {
    hide Key, DocOk, PiecesOk, FieldOk;
    var rest := fields[1..];
    assert forall i :: 0 <= i < |rest| ==> rest[i] == fields[i + 1];
    assert forall i :: 1 <= i < |fields| ==> fields[i] == rest[i - 1];
  }

  // The value nests as deep as the part of the text that is not replaced.
  lemma {:induction false} ValueHeight(d: Doc)
    requires DocOk(d)
    ensures NodeHeight(Parse(d)) == VisibleHeight(d)
  {
    hide AtomOk, PiecesOk, IsBlank;
    match d
    case Padded(_, inner, _) => ValueHeight(inner);
    case List(_, items) => ItemsValueHeight(items);
    case Record(_, fields) => FieldsValueHeight(fields);
    case _ =>
  }

  lemma {:induction false} ItemsValueHeight(items: seq<Doc>)
    requires forall i :: 0 <= i < |items| ==> DocOk(items[i])
    ensures NodesHeight(ParseItems(items)) == VisibleItems(items)
  {
    hide DocOk, Parse, NodeHeight, VisibleHeight;
    if items != [] {
      ValueHeight(items[0]);
      ItemsValueHeight(items[1..]);
      assert ParseItems(items)[1..] == ParseItems(items[1..]);
    }
  }

  lemma {:induction false} FieldsValueHeight(fields: seq<Field>)
    requires forall i :: 0 <= i < |fields| ==> FieldOk(fields[i])
    ensures EntriesHeight(ParseFields(fields)) == VisibleFields(fields)
  {
    forall i | 0 <= i < |fields|
      ensures PiecesOk(fields[i].key) && DocOk(fields[i].value)
      ensures NodeHeight(Parse(fields[i].value)) == VisibleHeight(fields[i].value)
    {
      assert FieldOk(fields[i]);
      ValueHeight(fields[i].value);
    }
    hide FieldOk, DocOk, PiecesOk, Key, Parse, NodeHeight, VisibleHeight;
    assert FieldsOk(fields);
    ParsedFields(fields);
    var es := ParseFields(fields);
    EntriesHeightIs(es);
    VisibleFieldsIs(fields);
    HeightsAgree(fields, es);
  }

  lemma HeightsAgree(fields: seq<Field>, es: seq<Entry>)
    requires FieldsOk(fields)
    requires forall i :: 0 <= i < |fields| ==> NodeHeight(Parse(fields[i].value)) == VisibleHeight(fields[i].value)
    requires forall x :: x in es <==> exists i :: 0 <= i < |fields| && Stays(fields, i) && x == EntryOf(fields[i])
    requires forall i :: 0 <= i < |es| ==> NodeHeight(es[i].value) <= EntriesHeight(es)
    requires EntriesHeight(es) == 0 || exists i :: 0 <= i < |es| && NodeHeight(es[i].value) == EntriesHeight(es)
    requires forall i :: 0 <= i < |fields| && Stays(fields, i) ==> VisibleHeight(fields[i].value) <= VisibleFields(fields)
    requires VisibleFields(fields) == 0 ||
             exists i :: 0 <= i < |fields| && Stays(fields, i) && VisibleHeight(fields[i].value) == VisibleFields(fields)
    ensures EntriesHeight(es) == VisibleFields(fields)
  {
    hide FieldOk, DocOk, PiecesOk, Key, Parse, NodeHeight, VisibleHeight, Stays, EntriesHeight, VisibleFields;
    if EntriesHeight(es) != 0 {
      var i :| 0 <= i < |es| && NodeHeight(es[i].value) == EntriesHeight(es);
      assert es[i] in es;
      var j :| 0 <= j < |fields| && Stays(fields, j) && es[i] == EntryOf(fields[j]);
      assert EntriesHeight(es) <= VisibleFields(fields);
    }
    if VisibleFields(fields) != 0 {
      var i :| 0 <= i < |fields| && Stays(fields, i) && VisibleHeight(fields[i].value) == VisibleFields(fields);
      var x := EntryOf(fields[i]);
      assert x in es;
      var j :| 0 <= j < |es| && es[j] == x;
      assert VisibleFields(fields) <= EntriesHeight(es);
    }
  }

  lemma {:induction false} VisibleWithin(d: Doc)
    requires DocOk(d)
    ensures VisibleHeight(d) <= Height(d)
    ensures VisibleHeight(d) == 0 <==> Height(d) == 0
  {
    match d
    case Padded(_, inner, _) => VisibleWithin(inner);
    case List(_, items) => VisibleItemsWithin(items);
    case Record(_, fields) => VisibleFieldsWithin(fields);
    case _ =>
  }

  lemma {:induction false} VisibleItemsWithin(items: seq<Doc>)
    requires forall i :: 0 <= i < |items| ==> DocOk(items[i])
    ensures VisibleItems(items) <= ItemsHeight(items)
  {
    if items != [] {
      VisibleWithin(items[0]);
      VisibleItemsWithin(items[1..]);
    }
  }

  lemma {:induction false} VisibleFieldsWithin(fields: seq<Field>)
    requires forall i :: 0 <= i < |fields| ==> FieldOk(fields[i])
    ensures VisibleFields(fields) <= FieldsHeight(fields)
  {
    hide Key, Repeated;
    if fields != [] {
      assert FieldOk(fields[0]);
      VisibleWithin(fields[0].value);
      VisibleFieldsWithin(fields[1..]);
    }
  }

  // ----- The verdicts -----

  // No object of the text writes one key twice, however it is spelled.
  ghost predicate NoRepeats(d: Doc)
    requires DocOk(d)
  {
    match d
    case Padded(_, inner, _) => NoRepeats(inner)
    case List(_, items) => forall i :: 0 <= i < |items| ==> NoRepeats(items[i])
    case Record(_, fields) =>
      FieldsOk(fields) && forall i :: 0 <= i < |fields| ==> Stays(fields, i) && NoRepeats(fields[i].value)
    case _ => true
  }

  lemma {:induction false} NothingHidden(d: Doc)
    requires DocOk(d) && NoRepeats(d)
    ensures VisibleHeight(d) == Height(d)
  {
    match d
    case Padded(_, inner, _) => NothingHidden(inner);
    case List(_, items) =>
      forall i | 0 <= i < |items|
        ensures VisibleHeight(items[i]) == Height(items[i])
      {
        NothingHidden(items[i]);
      }
      SameItems(items);
    case Record(_, fields) =>
      forall i | 0 <= i < |fields|
        ensures VisibleHeight(fields[i].value) == Height(fields[i].value)
      {
        NothingHidden(fields[i].value);
      }
      SameFields(fields);
    case _ =>
  }

  lemma {:induction false} SameItems(items: seq<Doc>)
    requires forall i :: 0 <= i < |items| ==> DocOk(items[i]) && VisibleHeight(items[i]) == Height(items[i])
    ensures VisibleItems(items) == ItemsHeight(items)
  {
    hide DocOk, VisibleHeight, Height;
    if items != [] {
      SameItems(items[1..]);
    }
  }

  lemma {:induction false} SameFields(fields: seq<Field>)
    requires FieldsOk(fields)
    requires forall i :: 0 <= i < |fields| ==> Stays(fields, i) && VisibleHeight(fields[i].value) == Height(fields[i].value)
    ensures VisibleFields(fields) == FieldsHeight(fields)
  {
    hide DocOk, FieldOk, PiecesOk, Key, VisibleHeight, Height, Stays, Repeated;
    if fields != [] {
      FirstStays(fields);
      SameFields(fields[1..]);
    }
  }

  // The scan of a text rejects exactly what the walk of its value rejects, except when only
  // replaced fields nest too deep.
  lemma GuardsAgree(d: Doc, maxDepth: int)
    requires DocOk(d)
    ensures (ScannerRejects(Write(d), maxDepth) <==> WalkRejects(Parse(d), 1, maxDepth)) <==>
            !(VisibleHeight(d) <= maxDepth < Height(d))
    ensures WalkRejects(Parse(d), 1, maxDepth) ==> ScannerRejects(Write(d), maxDepth)
  {
    hide DocOk, Write, Parse, Height, VisibleHeight, NodeHeight, WalkRejects, ScanText;
    ScanDoc(d, 0, maxDepth);
    WalkMeasures(Parse(d), 1, maxDepth);
    ValueHeight(d);
    VisibleWithin(d);
  }

  // Without repeated keys the two guards agree at every limit.
  lemma GuardsAgreeWithoutRepeats(d: Doc, maxDepth: int)
    requires DocOk(d) && NoRepeats(d)
    ensures ScannerRejects(Write(d), maxDepth) <==> WalkRejects(Parse(d), 1, maxDepth)
  {
    GuardsAgree(d, maxDepth);
    NothingHidden(d);
  }

  // {"a":[],"a":1} is rejected before parsing at limit 1, and its value is accepted.
  lemma RepeatedKeyDisagrees()
    ensures var d := Record("", [Field("", [Plain('a')], "", List("", [])), Field("", [Plain('a')], "", Atom("1"))]);
            DocOk(d) && ScannerRejects(Write(d), 1) && !WalkRejects(Parse(d), 1, 1)
  {
    var first, second := Field("", [Plain('a')], "", List("", [])), Field("", [Plain('a')], "", Atom("1"));
    var fields := [first, second];
    var d := Record("", fields);
    assert DocOk(first.value) && DocOk(second.value) && FieldOk(first) && FieldOk(second);
    assert FieldsHeight(fields) == 1 by {
      assert fields[1..] == [second];
      assert FieldsHeight([second]) == 0;
      assert Height(first.value) == 1;
    }
    assert Height(d) == 2;
    assert fields[1..] == [second] && Repeated([second], Key(first.key)) by {
      assert [second][0] == second;
    }
    assert VisibleFields([second]) == 0;
    assert VisibleHeight(d) == 1;
    hide *;
    GuardsAgree(d, 1);
    ScanDoc(d, 0, 1);
    WalkMeasures(Parse(d), 1, 1);
    ValueHeight(d);
  }
}
