/** JSON texts as concrete syntax, and the values `JSON.parse` gives them. */
module JsonText {
  import opened Text

  // One character of a string as it is written (section 7 of RFC 8259).
  datatype Piece = Plain(c: char) | Short(c: char) | Hex(digits: string)

  // A text: spacing and spelling included.
  datatype Doc =
    | Atom(text: string)
    | Quoted(pieces: seq<Piece>)
    | Padded(before: string, doc: Doc, after: string)
    | List(gap: string, items: seq<Doc>)
    | Record(gap: string, fields: seq<Field>)

  datatype Field = Field(before: string, key: seq<Piece>, after: string, value: Doc)

  predicate IsBlank(s: string) {
    forall i :: 0 <= i < |s| ==> s[i] in {' ', '\t', '\n', '\r'}
  }

  predicate HexChar(c: char) { IsDigit(c) || 'a' <= c <= 'f' || 'A' <= c <= 'F' }

  predicate PieceOk(p: Piece) {
    match p
    case Plain(c) => c >= ' ' && c != '"' && c != '\\'
    case Short(c) => c in {'"', '\\', '/', 'b', 'f', 'n', 'r', 't'}
    case Hex(digits) => |digits| == 4 && forall i :: 0 <= i < 4 ==> HexChar(digits[i])
  }

  predicate PiecesOk(ps: seq<Piece>) {
    forall i :: 0 <= i < |ps| ==> PieceOk(ps[i])
  }

  // The words and numbers; every JSON number is made of these characters.
  predicate AtomOk(s: string) {
    || s in {"true", "false", "null"}
    || (s != "" && forall i :: 0 <= i < |s| ==> IsDigit(s[i]) || s[i] in {'-', '+', '.', 'e', 'E'})
  }

  predicate DocOk(d: Doc) {
    match d
    case Atom(s) => AtomOk(s)
    case Quoted(ps) => PiecesOk(ps)
    case Padded(before, doc, after) => IsBlank(before) && DocOk(doc) && IsBlank(after)
    case List(gap, items) => IsBlank(gap) && forall i :: 0 <= i < |items| ==> DocOk(items[i])
    case Record(gap, fields) => IsBlank(gap) && forall i :: 0 <= i < |fields| ==> FieldOk(fields[i])
  }

  predicate FieldOk(f: Field) {
    IsBlank(f.before) && PiecesOk(f.key) && IsBlank(f.after) && DocOk(f.value)
  }

  // ----- Writing -----

  function WritePiece(p: Piece): string {
    match p
    case Plain(c) => [c]
    case Short(c) => ['\\', c]
    case Hex(digits) => "\\u" + digits
  }

  function WritePieces(ps: seq<Piece>): string {
    if ps == [] then "" else WritePiece(ps[0]) + WritePieces(ps[1..])
  }

  function WriteString(ps: seq<Piece>): string { "\"" + WritePieces(ps) + "\"" }

  function Write(d: Doc): string {
    match d
    case Atom(s) => s
    case Quoted(ps) => WriteString(ps)
    case Padded(before, doc, after) => before + Write(doc) + after
    case List(gap, items) => "[" + (if items == [] then gap else WriteItems(items)) + "]"
    case Record(gap, fields) => "{" + (if fields == [] then gap else WriteFields(fields)) + "}"
  }

  function WriteItems(items: seq<Doc>): string {
    if items == [] then ""
    else Write(items[0]) + (if |items| == 1 then "" else "," + WriteItems(items[1..]))
  }

  function WriteField(f: Field): string {
    f.before + WriteString(f.key) + f.after + ":" + Write(f.value)
  }

  function WriteFields(fields: seq<Field>): string {
    if fields == [] then ""
    else WriteField(fields[0]) + (if |fields| == 1 then "" else "," + WriteFields(fields[1..]))
  }

  // ----- Reading -----

  // A parsed value; strings, numbers and words are leaves here.
  datatype Node = Leaf | Array(items: seq<Node>) | Object(entries: seq<Entry>)

  datatype Entry = Entry(key: seq<int>, value: Node)

  function HexValue(c: char): nat
    requires HexChar(c)
  {
    if IsDigit(c) then c as int - 48 else if c >= 'a' then c as int - 87 else c as int - 55
  }

  // The UTF-16 code units a piece stands for.
  function Units(p: Piece): seq<int>
    requires PieceOk(p)
  {
    match p
    case Plain(c) =>
      var k := c as int;
      if k < 0x10000 then [k] else [0xD800 + (k - 0x10000) / 0x400, 0xDC00 + (k - 0x10000) % 0x400]
    case Short(c) =>
      [if c == 'b' then 8 else if c == 'f' then 12 else if c == 'n' then 10
       else if c == 'r' then 13 else if c == 't' then 9 else c as int]
    case Hex(ds) => [HexValue(ds[0]) * 4096 + HexValue(ds[1]) * 256 + HexValue(ds[2]) * 16 + HexValue(ds[3])]
  }

  function Key(ps: seq<Piece>): seq<int>
    requires PiecesOk(ps)
  {
    if ps == [] then [] else Units(ps[0]) + Key(ps[1..])
  }

  // Assigning a property: a repeated key replaces the earlier value.
  function Put(entries: seq<Entry>, key: seq<int>, value: Node): seq<Entry> {
    if entries == [] then [Entry(key, value)]
    else if entries[0].key == key then [Entry(key, value)] + entries[1..]
    else [entries[0]] + Put(entries[1..], key, value)
  }

  // `JSON.parse`
  function Parse(d: Doc): Node
    requires DocOk(d)
  {
    match d
    case Atom(_) => Leaf
    case Quoted(_) => Leaf
    case Padded(_, doc, _) => Parse(doc)
    case List(_, items) => Array(ParseItems(items))
    case Record(_, fields) => Object(ParseFields(fields))
  }

  function ParseItems(items: seq<Doc>): (nodes: seq<Node>)
    requires forall i :: 0 <= i < |items| ==> DocOk(items[i])
    ensures |nodes| == |items|
    ensures forall i :: 0 <= i < |items| ==> nodes[i] == Parse(items[i])
  {
    if items == [] then [] else [Parse(items[0])] + ParseItems(items[1..])
  }

  // Fields are assigned from the first to the last.
  function ParseFields(fields: seq<Field>): seq<Entry>
    requires forall i :: 0 <= i < |fields| ==> FieldOk(fields[i])
  {
    if fields == [] then []
    else
      var last := fields[|fields| - 1];
      assert FieldOk(last);
      Put(ParseFields(fields[..|fields| - 1]), Key(last.key), Parse(last.value))
  }

  // ----- Escapes -----

  // The character is this digit of base sixteen, in either case.
  predicate IsHexDigit(c: char, k: nat) {
    k < 16 && (c == "0123456789abcdef"[k] || c == "0123456789ABCDEF"[k])
  }

  lemma HexTable(c: char)
    ensures HexChar(c) <==> exists k: nat :: IsHexDigit(c, k)
    ensures forall k: nat :: IsHexDigit(c, k) ==> HexChar(c) && HexValue(c) == k
  {
    var k := c as int;
    if HexChar(c) {
      assert IsHexDigit(c, HexValue(c));
    }
  }

  // What the escapes stand for: four digits for their number, a letter for its control character, and
  // the other characters for themselves.
  lemma EscapesMean(a: char, b: char, c: char, d: char, i: nat, j: nat, k: nat, l: nat)
    ensures IsHexDigit(a, i) && IsHexDigit(b, j) && IsHexDigit(c, k) && IsHexDigit(d, l) ==>
              PieceOk(Hex([a, b, c, d])) && Units(Hex([a, b, c, d])) == [((i * 16 + j) * 16 + k) * 16 + l]
    ensures forall n :: 0 <= n < 8 ==>
              PieceOk(Short("\"\\/bfnrt"[n])) && Units(Short("\"\\/bfnrt"[n])) == [[34, 92, 47, 8, 12, 10, 13, 9][n]]
    ensures forall e :: PieceOk(Short(e)) ==> e in "\"\\/bfnrt"
  {
    HexTable(a);
    HexTable(b);
    HexTable(c);
    HexTable(d);
    hide IsHexDigit, HexChar, HexValue;
    var ds := [a, b, c, d];
    assert ds[0] == a && ds[1] == b && ds[2] == c && ds[3] == d;
  }

  // A character stands for itself unless it is a control character, a quote or a backslash: as one unit
  // below U+10000, as a surrogate pair from there on.
  lemma PlainMeans(c: char)
    ensures PieceOk(Plain(c)) <==> c as int >= 0x20 && c != '\"' && c != '\\'
    ensures PieceOk(Plain(c)) ==>
              if c as int < 0x10000 then Units(Plain(c)) == [c as int]
              else exists h, l :: Units(Plain(c)) == [h, l] && IsPair(c, h, l)
  {
    if c as int >= 0x10000 {
      assert IsPair(c, Units(Plain(c))[0], Units(Plain(c))[1]);
      assert Units(Plain(c)) == [Units(Plain(c))[0], Units(Plain(c))[1]];
    }
  }

  // A high and a low surrogate that stand for the character.
  predicate IsPair(c: char, h: int, l: int) {
    0xD800 <= h < 0xDC00 <= l < 0xE000 && c as int == 0x10000 + (h - 0xD800) * 0x400 + (l - 0xDC00)
  }
}
