/**
  The nesting guards: a linear scan of the text before parsing, and a recursive walk of the value
  after it.
 */
module DepthScanner {
  import opened Text
  import opened JsonText

  // ----- The scan -----

  // `None` once the scan has raised its error.
  datatype Scan = Scan(depth: int, inString: bool, escaped: bool)

  function Next(s: Scan, ch: char, maxDepth: int): Option<Scan> {
    if s.inString then
      if s.escaped then Some(s.(escaped := false))
      else if ch == '\\' then Some(s.(escaped := true))
      else if ch == '"' then Some(s.(inString := false))
      else Some(s)
    else if ch == '"' then Some(s.(inString := true))
    else if ch == '[' || ch == '{' then
      if s.depth + 1 > maxDepth then None else Some(s.(depth := s.depth + 1))
    else if ch == ']' || ch == '}' then Some(s.(depth := s.depth - 1))
    else Some(s)
  }

  function ScanFrom(raw: string, i: nat, s: Option<Scan>, maxDepth: int): Option<Scan>
    requires i <= |raw|
    decreases |raw| - i
  {
    if s.None? || i == |raw| then s else ScanFrom(raw, i + 1, Next(s.value, raw[i], maxDepth), maxDepth)
  }

  function ScanText(raw: string, s: Option<Scan>, maxDepth: int): Option<Scan> {
    ScanFrom(raw, 0, s, maxDepth)
  }

  const START := Scan(0, false, false)

  predicate ScannerRejects(raw: string, maxDepth: int) {
    ScanText(raw, Some(START), maxDepth).None?
  }

  // `validateJsonNestingDepth`; `ok` is false when the error is raised.
  method ValidateJsonNestingDepth(raw: string, maxDepth: int) returns (ok: bool)
    ensures ok <==> !ScannerRejects(raw, maxDepth)
  {
    var depth, inString, escaped := 0, false, false;
    for i := 0 to |raw|
      invariant ScanText(raw, Some(START), maxDepth) ==
                ScanFrom(raw, i, Some(Scan(depth, inString, escaped)), maxDepth)
    {
      var ch := raw[i];
      if inString {
        if escaped {
          escaped := false;
        } else if ch == '\\' {
          escaped := true;
        } else if ch == '"' {
          inString := false;
        }
        continue;
      }
      if ch == '"' {
        inString := true;
      } else if ch == '[' || ch == '{' {
        depth := depth + 1;
        if depth > maxDepth {
          return false;
        }
      } else if ch == ']' || ch == '}' {
        depth := depth - 1;
      }
    }
    return true;
  }

  // ----- The walk -----

  // `walkDepth` raises its error.
  predicate WalkRejects(node: Node, depth: int, maxDepth: int) {
    match node
    case Leaf => false
    case Array(items) => depth > maxDepth || exists i :: 0 <= i < |items| && WalkRejects(items[i], depth + 1, maxDepth)
    case Object(entries) =>
      depth > maxDepth || exists i :: 0 <= i < |entries| && WalkRejects(entries[i].value, depth + 1, maxDepth)
  }

  // ----- Heights -----

  // Levels of containers as written.
  function Height(d: Doc): nat {
    match d
    case Atom(_) => 0
    case Quoted(_) => 0
    case Padded(_, doc, _) => Height(doc)
    case List(_, items) => 1 + ItemsHeight(items)
    case Record(_, fields) => 1 + FieldsHeight(fields)
  }

  function ItemsHeight(items: seq<Doc>): nat {
    if items == [] then 0 else Larger(Height(items[0]), ItemsHeight(items[1..]))
  }

  function FieldsHeight(fields: seq<Field>): nat {
    if fields == [] then 0 else Larger(Height(fields[0].value), FieldsHeight(fields[1..]))
  }

  // Some field from index `i` on has this key.
  predicate Repeated(fields: seq<Field>, key: seq<int>)
    requires forall i :: 0 <= i < |fields| ==> FieldOk(fields[i])
  {
    assert forall i :: 0 <= i < |fields| ==> FieldOk(fields[i]) && PiecesOk(fields[i].key);
    exists i :: 0 <= i < |fields| && Key(fields[i].key) == key
  }

  // Levels of containers that no later field of the same key replaces.
  function VisibleHeight(d: Doc): nat
    requires DocOk(d)
  {
    match d
    case Atom(_) => 0
    case Quoted(_) => 0
    case Padded(_, doc, _) => VisibleHeight(doc)
    case List(_, items) => 1 + VisibleItems(items)
    case Record(_, fields) => 1 + VisibleFields(fields)
  }

  function VisibleItems(items: seq<Doc>): nat
    requires forall i :: 0 <= i < |items| ==> DocOk(items[i])
  {
    if items == [] then 0 else Larger(VisibleHeight(items[0]), VisibleItems(items[1..]))
  }

  function VisibleFields(fields: seq<Field>): nat
    requires forall i :: 0 <= i < |fields| ==> FieldOk(fields[i])
  {
    assert forall i :: 0 <= i < |fields| ==> FieldOk(fields[i]) && PiecesOk(fields[i].key);
    if fields == [] then 0
    else if Repeated(fields[1..], Key(fields[0].key)) then VisibleFields(fields[1..])
    else Larger(VisibleHeight(fields[0].value), VisibleFields(fields[1..]))
  }

  // ----- The scanner measures the text -----

  lemma {:induction false} ScanFromSuffix(a: string, b: string, i: nat, s: Option<Scan>, maxDepth: int)
    requires i <= |b|
    ensures ScanFrom(a + b, |a| + i, s, maxDepth) == ScanFrom(b, i, s, maxDepth)
    decreases |b| - i
  {
    if s.Some? && i < |b| {
      assert (a + b)[|a| + i] == b[i];
      ScanFromSuffix(a, b, i + 1, Next(s.value, b[i], maxDepth), maxDepth);
    }
  }

  lemma {:induction false} ScanFromPrefix(a: string, b: string, i: nat, s: Option<Scan>, maxDepth: int)
    requires i <= |a|
    ensures ScanFrom(a + b, i, s, maxDepth) == ScanText(b, ScanFrom(a, i, s, maxDepth), maxDepth)
    decreases |a| - i
  {
    if s.Some? {
      if i < |a| {
        assert (a + b)[i] == a[i];
        ScanFromPrefix(a, b, i + 1, Next(s.value, a[i], maxDepth), maxDepth);
      } else {
        ScanFromSuffix(a, b, 0, s, maxDepth);
      }
    }
  }

  // Scanning text piece by piece.
  lemma ScanAppend(a: string, b: string, s: Option<Scan>, maxDepth: int)
    ensures ScanText(a + b, s, maxDepth) == ScanText(b, ScanText(a, s, maxDepth), maxDepth)
  {
    ScanFromPrefix(a, b, 0, s, maxDepth);
  }

  lemma ScanOne(c: char, s: Scan, maxDepth: int)
    ensures ScanText([c], Some(s), maxDepth) == Next(s, c, maxDepth)
  {
    assert ScanFrom([c], 1, Next(s, c, maxDepth), maxDepth) == Next(s, c, maxDepth);
  }

  predicate Quiet(c: char) { c !in {'"', '[', ']', '{', '}'} }

  lemma {:induction false} ScanQuiet(raw: string, i: nat, d: int, maxDepth: int)
    requires i <= |raw| && forall j :: 0 <= j < |raw| ==> Quiet(raw[j])
    ensures ScanFrom(raw, i, Some(Scan(d, false, false)), maxDepth) == Some(Scan(d, false, false))
    decreases |raw| - i
  {
    if i < |raw| {
      ScanQuiet(raw, i + 1, d, maxDepth);
    }
  }

  lemma ScanPiece(p: Piece, d: int, maxDepth: int)
    requires PieceOk(p)
    ensures ScanText(WritePiece(p), Some(Scan(d, true, false)), maxDepth) == Some(Scan(d, true, false))
  {
    var s := Scan(d, true, false);
    match p
    case Plain(c) => ScanOne(c, s, maxDepth);
    case Short(c) => ScanEscape(c, "", d, maxDepth);
    case Hex(digits) =>
      assert "\\u" + digits == ['\\', 'u'] + digits;
      ScanEscape('u', digits, d, maxDepth);
  }

  lemma ScanEscape(c: char, more: string, d: int, maxDepth: int)
    requires forall i :: 0 <= i < |more| ==> HexChar(more[i])
    ensures ScanText(['\\', c] + more, Some(Scan(d, true, false)), maxDepth) == Some(Scan(d, true, false))
  {
    var s := Scan(d, true, false);
    assert ['\\', c] + more == "\\" + ([c] + more);
    ScanAppend("\\", [c] + more, Some(s), maxDepth);
    ScanOne('\\', s, maxDepth);
    ScanAppend([c], more, Some(Scan(d, true, true)), maxDepth);
    ScanOne(c, Scan(d, true, true), maxDepth);
    ScanInside(more, 0, d, maxDepth);
  }

  lemma {:induction false} ScanInside(raw: string, i: nat, d: int, maxDepth: int)
    requires i <= |raw| && forall j :: 0 <= j < |raw| ==> HexChar(raw[j])
    ensures ScanFrom(raw, i, Some(Scan(d, true, false)), maxDepth) == Some(Scan(d, true, false))
    decreases |raw| - i
  {
    if i < |raw| {
      ScanInside(raw, i + 1, d, maxDepth);
    }
  }

  lemma {:induction false} ScanPieces(ps: seq<Piece>, d: int, maxDepth: int)
    requires PiecesOk(ps)
    ensures ScanText(WritePieces(ps), Some(Scan(d, true, false)), maxDepth) == Some(Scan(d, true, false))
  {
    hide PieceOk, WritePiece;
    if ps != [] {
      ScanPiece(ps[0], d, maxDepth);
      ScanPieces(ps[1..], d, maxDepth);
      hide ScanText;
      ScanAppend(WritePiece(ps[0]), WritePieces(ps[1..]), Some(Scan(d, true, false)), maxDepth);
    }
  }

  // A string, whatever it holds, leaves the scan where it was.
  lemma ScanString(ps: seq<Piece>, d: int, maxDepth: int)
    requires PiecesOk(ps)
    ensures ScanText(WriteString(ps), Some(Scan(d, false, false)), maxDepth) == Some(Scan(d, false, false))
  {
    var s := Some(Scan(d, false, false));
    ScanOne('"', Scan(d, false, false), maxDepth);
    ScanPieces(ps, d, maxDepth);
    ScanOne('"', Scan(d, true, false), maxDepth);
    hide ScanText, PiecesOk, WritePieces;
    ScanAppend("\"", WritePieces(ps), s, maxDepth);
    ScanAppend("\"" + WritePieces(ps), "\"", s, maxDepth);
  }

  lemma ScanBlank(s: string, d: int, maxDepth: int)
    requires IsBlank(s)
    ensures ScanText(s, Some(Scan(d, false, false)), maxDepth) == Some(Scan(d, false, false))
  {
    ScanQuiet(s, 0, d, maxDepth);
  }

  lemma ScanAtom(s: string, d: int, maxDepth: int)
    requires AtomOk(s)
    ensures ScanText(s, Some(Scan(d, false, false)), maxDepth) == Some(Scan(d, false, false))
  {
    ScanQuiet(s, 0, d, maxDepth);
  }

  // Where a scan that starts at depth `d` ends after text with `h` levels of containers.
  function After(d: int, h: nat, maxDepth: int): Option<Scan> {
    if h > 0 && d + h > maxDepth then None else Some(Scan(d, false, false))
  }

  lemma {:induction false} ScanDoc(doc: Doc, d: int, maxDepth: int)
    requires DocOk(doc)
    ensures ScanText(Write(doc), Some(Scan(d, false, false)), maxDepth) == After(d, Height(doc), maxDepth)
  {
    hide ScanText, AtomOk, PiecesOk, WriteString, IsBlank;
    var s := Some(Scan(d, false, false));
    match doc
    case Atom(text) => ScanAtom(text, d, maxDepth);
    case Quoted(ps) => ScanString(ps, d, maxDepth);
    case Padded(before, inner, after) =>
      ScanBlank(before, d, maxDepth);
      ScanDoc(inner, d, maxDepth);
      ScanBlank(after, d, maxDepth);
      ScanAppend(before, Write(inner), s, maxDepth);
      ScanAppend(before + Write(inner), after, s, maxDepth);
      ScanNothing(after, maxDepth);
    case List(gap, items) =>
      var body := if items == [] then gap else WriteItems(items);
      if items == [] {
        ScanBlank(gap, d + 1, maxDepth);
      } else {
        ScanItems(items, d + 1, maxDepth);
      }
      hide Write, WriteItems;
      ScanContainer('[', body, ']', ItemsHeight(items), d, maxDepth);
    case Record(gap, fields) =>
      var body := if fields == [] then gap else WriteFields(fields);
      if fields == [] {
        ScanBlank(gap, d + 1, maxDepth);
      } else {
        ScanFields(fields, d + 1, maxDepth);
      }
      hide Write, WriteFields;
      ScanContainer('{', body, '}', FieldsHeight(fields), d, maxDepth);
  }

  lemma ScanNothing(raw: string, maxDepth: int)
    ensures ScanText(raw, None, maxDepth) == None
  {
  }

  lemma ScanContainer(open: char, body: string, close: char, h: nat, d: int, maxDepth: int)
    requires (open == '[' && close == ']') || (open == '{' && close == '}')
    requires ScanText(body, Some(Scan(d + 1, false, false)), maxDepth) == After(d + 1, h, maxDepth)
    ensures ScanText([open] + body + [close], Some(Scan(d, false, false)), maxDepth) == After(d, 1 + h, maxDepth)
  {
    hide ScanText;
    var s := Scan(d, false, false);
    ScanOne(open, s, maxDepth);
    ScanOne(close, Scan(d + 1, false, false), maxDepth);
    ScanNothing(body, maxDepth);
    ScanNothing([close], maxDepth);
    ScanAppend([open], body, Some(s), maxDepth);
    ScanAppend([open] + body, [close], Some(s), maxDepth);
  }

  // Two texts in a row, the second possibly after a separator.
  lemma ScanRow(first: string, h: nat, rest: string, g: nat, d: int, maxDepth: int)
    requires ScanText(first, Some(Scan(d, false, false)), maxDepth) == After(d, h, maxDepth)
    requires ScanText(rest, Some(Scan(d, false, false)), maxDepth) == After(d, g, maxDepth)
    ensures ScanText(first + rest, Some(Scan(d, false, false)), maxDepth) == After(d, Larger(h, g), maxDepth)
  {
    hide ScanText;
    ScanAppend(first, rest, Some(Scan(d, false, false)), maxDepth);
    ScanNothing(rest, maxDepth);
  }

  lemma ScanComma(rest: string, g: nat, d: int, maxDepth: int)
    requires ScanText(rest, Some(Scan(d, false, false)), maxDepth) == After(d, g, maxDepth)
    ensures ScanText("," + rest, Some(Scan(d, false, false)), maxDepth) == After(d, g, maxDepth)
  {
    ScanOne(',', Scan(d, false, false), maxDepth);
    hide ScanText;
    ScanAppend(",", rest, Some(Scan(d, false, false)), maxDepth);
  }

  lemma ScanEmpty(d: int, maxDepth: int)
    ensures ScanText("", Some(Scan(d, false, false)), maxDepth) == After(d, 0, maxDepth)
  {
  }

  lemma {:induction false} ScanItems(items: seq<Doc>, d: int, maxDepth: int)
    requires items != [] && forall i :: 0 <= i < |items| ==> DocOk(items[i])
    ensures ScanText(WriteItems(items), Some(Scan(d, false, false)), maxDepth) == After(d, ItemsHeight(items), maxDepth)
  {
    hide ScanText, DocOk, Write, Height, After;
    ScanDoc(items[0], d, maxDepth);
    var rest := if |items| == 1 then "" else "," + WriteItems(items[1..]);
    if |items| == 1 {
      ScanEmpty(d, maxDepth);
      assert items[1..] == [];
    } else {
      ScanItems(items[1..], d, maxDepth);
      ScanComma(WriteItems(items[1..]), ItemsHeight(items[1..]), d, maxDepth);
    }
    ScanRow(Write(items[0]), Height(items[0]), rest, ItemsHeight(items[1..]), d, maxDepth);
  }

  lemma {:induction false} ScanField(f: Field, d: int, maxDepth: int)
    requires FieldOk(f)
    ensures ScanText(WriteField(f), Some(Scan(d, false, false)), maxDepth) == After(d, Height(f.value), maxDepth)
  {
    ScanBlank(f.before, d, maxDepth);
    ScanString(f.key, d, maxDepth);
    ScanBlank(f.after, d, maxDepth);
    ScanOne(':', Scan(d, false, false), maxDepth);
    ScanDoc(f.value, d, maxDepth);
    hide ScanText, IsBlank, PiecesOk, DocOk, Write, WriteString, Height;
    var s := Some(Scan(d, false, false));
    ScanAppend(f.before, WriteString(f.key), s, maxDepth);
    ScanAppend(f.before + WriteString(f.key), f.after, s, maxDepth);
    ScanAppend(f.before + WriteString(f.key) + f.after, ":", s, maxDepth);
    ScanAppend(f.before + WriteString(f.key) + f.after + ":", Write(f.value), s, maxDepth);
  }

  lemma {:induction false} ScanFields(fields: seq<Field>, d: int, maxDepth: int)
    requires fields != [] && forall i :: 0 <= i < |fields| ==> FieldOk(fields[i])
    ensures ScanText(WriteFields(fields), Some(Scan(d, false, false)), maxDepth) == After(d, FieldsHeight(fields), maxDepth)
  {
    hide ScanText, FieldOk, WriteField, Height, After;
    ScanField(fields[0], d, maxDepth);
    var rest := if |fields| == 1 then "" else "," + WriteFields(fields[1..]);
    if |fields| == 1 {
      ScanEmpty(d, maxDepth);
      assert fields[1..] == [];
    } else {
      ScanFields(fields[1..], d, maxDepth);
      ScanComma(WriteFields(fields[1..]), FieldsHeight(fields[1..]), d, maxDepth);
    }
    ScanRow(WriteField(fields[0]), Height(fields[0].value), rest, FieldsHeight(fields[1..]), d, maxDepth);
  }
}
