/** A1-style coordinates: bijective base-26 columns, decimal rows, and range expansion. */
module Coords {
  import opened Text

  const MAX_RANGE_CELLS := 1_000_000

  // Zero-based indices; `A0` parses to row -1.
  datatype CellCoord = CellCoord(col: int, row: int)

  // ----- Columns -----

  function LetterValue(c: char): (v: nat)
    requires IsLetter(c)
    ensures 1 <= v <= 26
  {
    UpperChar(c) as int - 64
  }

  function LetterOf(v: nat): (c: char)
    requires 1 <= v <= 26
    ensures IsUpper(c) && LetterValue(c) == v
  {
    (64 + v) as char
  }

  // The number a run of letters stands for, `A` being 1.
  function ColNumber(letters: string): (n: nat)
    requires All(Letter, letters)
    ensures letters != "" ==> n > 0
  {
    if letters == "" then 0
    else ColNumber(letters[..|letters| - 1]) * 26 + LetterValue(letters[|letters| - 1])
  }

  // The letters of the one-based column `c`; empty for 0.
  function ColLetters(c: nat): (letters: string)
    ensures All(Letter, letters)
    ensures forall i :: 0 <= i < |letters| ==> IsUpper(letters[i])
    ensures c > 0 ==> letters != ""
  {
    if c == 0 then "" else ColLetters((c - 1) / 26) + [LetterOf((c - 1) % 26 + 1)]
  }

  lemma {:induction false} ColNumberOfLetters(c: nat)
    ensures ColNumber(ColLetters(c)) == c
  {
    if c > 0 {
      ColNumberOfLetters((c - 1) / 26);
      var s := ColLetters(c);
      assert s[..|s| - 1] == ColLetters((c - 1) / 26);
    }
  }

  lemma {:induction false} ColLettersOfNumber(s: string)
    requires All(Letter, s) && forall i :: 0 <= i < |s| ==> IsUpper(s[i])
    ensures ColLetters(ColNumber(s)) == s
  {
    if s != "" {
      var init := s[..|s| - 1];
      ColLettersOfNumber(init);
      assert s == init + [s[|s| - 1]];
      assert (ColNumber(s) - 1) / 26 == ColNumber(init);
    }
  }

  // ----- Labels -----

  // `parseCoord`: letters then digits, nothing else.
  function ParseCoord(coord: string): Option<CellCoord> {
    var s := Trim(coord);
    var n := Run(Letter, s);
    if n == 0 || n == |s| || Run(Digit, s[n..]) != |s| - n then None
    else
      RunStops(Letter, s);
      RunStops(Digit, s[n..]);
      assert s[n..][..|s| - n] == s[n..];
      Some(CellCoord(ColNumber(s[..n]) - 1, DigitsValue(s[n..]) - 1))
  }

  function CoordToLabel(col: int, row: int): string {
    (if col < 0 then "" else ColLetters(col + 1)) + IntText(row + 1)
  }

  function Label(c: CellCoord): string { CoordToLabel(c.col, c.row) }

  predicate InBounds(c: CellCoord) { c.col >= 0 && c.row >= 0 }

  // Letters in upper case, then a row number with no leading zero.
  predicate CanonicalLabel(s: string) {
    var n := Run(Letter, s);
    && 0 < n < |s|
    && (forall i :: 0 <= i < n ==> IsUpper(s[i]))
    && s[n] != '0'
    && Run(Digit, s[n..]) == |s| - n
  }

  lemma ParseParts(letters: string, digits: string)
    requires letters != "" && digits != "" && All(Letter, letters) && All(Digit, digits)
    ensures Run(Letter, letters + digits) == |letters|
    ensures ParseCoord(letters + digits) ==
            Some(CellCoord(ColNumber(letters) - 1, DigitsValue(digits) - 1))
  {
    var s := letters + digits;
    assert In(Letter, letters[0]) && In(Digit, digits[0]) && In(Digit, digits[|digits| - 1]);
    assert s[0] == letters[0] && s[|s| - 1] == digits[|digits| - 1];
    TrimTight(s);
    RunAppend(Letter, letters, digits);
    assert s[|letters|..] == digits && s[..|letters|] == letters;
    assert digits[..|digits|] == digits;
    RunIs(Digit, digits, |digits|);
    SplitParses(s, |letters|);
  }

  lemma SplitParses(s: string, n: nat)
    requires Trim(s) == s && Run(Letter, s) == n && 0 < n < |s| && Run(Digit, s[n..]) == |s| - n
    ensures All(Letter, s[..n]) && All(Digit, s[n..])
    ensures ParseCoord(s) == Some(CellCoord(ColNumber(s[..n]) - 1, DigitsValue(s[n..]) - 1))
  {
    RunStops(Letter, s);
    RunStops(Digit, s[n..]);
    assert s[n..][..|s| - n] == s[n..];
  }

  // Every in-bounds coordinate has a canonical label that parses back to it.
  lemma LabelParses(c: CellCoord)
    requires InBounds(c)
    ensures ParseCoord(Label(c)) == Some(c)
    ensures CanonicalLabel(Label(c))
  {
    hide ParseCoord, CanonicalLabel, ColNumber, DigitsValue, ColLetters, Decimal, Label, Run;
    ColNumberOfLetters(c.col + 1);
    DecimalValue(c.row + 1);
    LabelIs(c);
    ParseParts(ColLetters(c.col + 1), Decimal(c.row + 1));
    PartsAreCanonical(ColLetters(c.col + 1), Decimal(c.row + 1));
  }

  lemma LabelIs(c: CellCoord)
    requires InBounds(c)
    ensures Label(c) == ColLetters(c.col + 1) + Decimal(c.row + 1)
  {
    hide ColLetters, Decimal;
  }

  lemma PartsAreCanonical(letters: string, digits: string)
    requires letters != "" && digits != "" && digits[0] != '0'
    requires (forall i :: 0 <= i < |letters| ==> IsUpper(letters[i])) && All(Digit, digits)
    requires Run(Letter, letters + digits) == |letters|
    ensures CanonicalLabel(letters + digits)
  {
    var s := letters + digits;
    assert s[|letters|..] == digits && digits[..|digits|] == digits;
    RunIs(Digit, digits, |digits|);
    assert forall i :: 0 <= i < |letters| ==> s[i] == letters[i];
  }

  // Every canonical label is the label of the in-bounds coordinate it parses to.
  lemma CanonicalLabelParses(s: string)
    requires CanonicalLabel(s)
    ensures ParseCoord(s).Some? && InBounds(ParseCoord(s).value)
    ensures Label(ParseCoord(s).value) == s
  {
    var n := Run(Letter, s);
    var letters, digits := s[..n], s[n..];
    RunStops(Letter, s);
    RunStops(Digit, digits);
    assert s == letters + digits;
    assert digits[..|digits|] == digits && All(Digit, digits);
    ParseParts(letters, digits);
    ColLettersOfNumber(letters);
    ValueDecimal(digits);
    var c := ParseCoord(s).value;
    assert c.col + 1 == ColNumber(letters) && c.row + 1 == DigitsValue(digits);
    assert CoordToLabel(c.col, c.row) == ColLetters(c.col + 1) + Decimal(c.row + 1);
  }

  // A label is reproduced by parse-then-print exactly when it is canonical.
  lemma LabelFixpoint(s: string)
    requires ParseCoord(s).Some? && InBounds(ParseCoord(s).value)
    ensures Label(ParseCoord(s).value) == s <==> CanonicalLabel(s)
  {
    if CanonicalLabel(s) {
      CanonicalLabelParses(s);
    } else {
      LabelParses(ParseCoord(s).value);
    }
  }

  lemma LabelInjective(a: CellCoord, b: CellCoord)
    requires InBounds(a) && InBounds(b) && Label(a) == Label(b)
    ensures a == b
  {
    LabelParses(a);
    LabelParses(b);
  }

  // ----- The two base-26 loops -----

  method ColumnLetters(col: int, row: int) returns (text: string)
    ensures text == CoordToLabel(col, row)
  {
    var c := col + 1;
    var letters := "";
    while c > 0
      invariant c <= 0 ==> letters == (if col < 0 then "" else ColLetters(col + 1))
      invariant c > 0 ==> col >= 0 && ColLetters(c) + letters == ColLetters(col + 1)
    {
      var rem := (c - 1) % 26;
      assert ColLetters(c) == ColLetters((c - 1) / 26) + [LetterOf(rem + 1)];
      letters := [LetterOf(rem + 1)] + letters;
      c := (c - 1) / 26;
    }
    text := letters + IntText(row + 1);
  }

  method ParseLabel(coord: string) returns (r: Option<CellCoord>)
    ensures r == ParseCoord(coord)
  {
    var s := Trim(coord);
    var n := Run(Letter, s);
    if n == 0 || n == |s| || Run(Digit, s[n..]) != |s| - n {
      return None;
    }
    RunStops(Letter, s);
    RunStops(Digit, s[n..]);
    assert s[n..][..|s| - n] == s[n..];
    var letters := s[..n];
    var col, i := 0, 0;
    while i < n
      invariant 0 <= i <= n
      invariant All(Letter, letters[..i])
      invariant col == ColNumber(letters[..i])
    {
      assert letters[..i + 1][..i] == letters[..i];
      assert letters[..i + 1][i] == letters[i] && In(Letter, letters[i]);
      col := col * 26 + LetterValue(letters[i]);
      i := i + 1;
    }
    assert letters[..n] == letters;
    r := Some(CellCoord(col - 1, DigitsValue(s[n..]) - 1));
  }

  // ----- Ranges -----

  function RowCells(row: int, lo: int, hi: int): (cells: seq<CellCoord>)
    ensures |cells| == if lo <= hi then hi - lo + 1 else 0
    ensures forall i :: 0 <= i < |cells| ==> cells[i] == CellCoord(lo + i, row)
    decreases hi - lo
  {
    if lo > hi then [] else [CellCoord(lo, row)] + RowCells(row, lo + 1, hi)
  }

  // Row-major cells of the rectangle of columns c0..c1 and rows r0..r1.
  function Grid(r0: int, r1: int, c0: int, c1: int): seq<CellCoord>
    decreases r1 - r0
  {
    if r0 > r1 then [] else RowCells(r0, c0, c1) + Grid(r0 + 1, r1, c0, c1)
  }

  function Labels(cells: seq<CellCoord>): (labels: seq<string>)
    ensures |labels| == |cells|
    ensures forall i :: 0 <= i < |cells| ==> labels[i] == Label(cells[i])
  {
    seq(|cells|, i requires 0 <= i < |cells| => Label(cells[i]))
  }

  lemma LabelsAppend(a: seq<CellCoord>, b: seq<CellCoord>)
    ensures Labels(a + b) == Labels(a) + Labels(b)
  {
    assert |Labels(a + b)| == |Labels(a) + Labels(b)|;
    assert forall i :: 0 <= i < |a + b| ==> Labels(a + b)[i] == (Labels(a) + Labels(b))[i];
  }

  function Min(a: int, b: int): int { if a < b then a else b }

  function Max(a: int, b: int): int { if a < b then b else a }

  datatype Rect = Rect(minCol: int, maxCol: int, minRow: int, maxRow: int) {
    function Area(): int { (maxCol - minCol + 1) * (maxRow - minRow + 1) }

    function Cells(): seq<CellCoord> { Grid(minRow, maxRow, minCol, maxCol) }
  }

  function Corners(a: CellCoord, b: CellCoord): (r: Rect)
    ensures r.minCol <= r.maxCol && r.minRow <= r.maxRow
  {
    Rect(Min(a.col, b.col), Max(a.col, b.col), Min(a.row, b.row), Max(a.row, b.row))
  }

  // `rangeCells`: empty for malformed corners and for rectangles over the limit.
  function RangeCells(start: string, end: string): seq<string> {
    var a, b := ParseCoord(start), ParseCoord(end);
    if a.None? || b.None? then []
    else
      var r := Corners(a.value, b.value);
      if r.Area() > MAX_RANGE_CELLS then [] else Labels(r.Cells())
  }

  lemma {:induction false} GridSize(r0: int, r1: int, c0: int, c1: int)
    requires c0 <= c1 && r0 <= r1 + 1
    ensures |Grid(r0, r1, c0, c1)| == (r1 - r0 + 1) * (c1 - c0 + 1)
    decreases r1 - r0
  {
    if r0 <= r1 {
      GridSize(r0 + 1, r1, c0, c1);
      assert (r1 - r0 + 1) * (c1 - c0 + 1) == (r1 - r0) * (c1 - c0 + 1) + (c1 - c0 + 1);
    }
  }

  // Row-major order: cell (c, r) is at index (r - r0) * width + (c - c0).
  lemma {:induction false} GridAt(r0: int, r1: int, c0: int, c1: int, r: int, c: int, k: int)
    requires r0 <= r <= r1 && c0 <= c <= c1
    requires k == (r - r0) * (c1 - c0 + 1) + (c - c0)
    ensures 0 <= k < |Grid(r0, r1, c0, c1)| && Grid(r0, r1, c0, c1)[k] == CellCoord(c, r)
    decreases r1 - r0
  {
    if r > r0 {
      var w := c1 - c0 + 1;
      assert (r - r0) * w == (r - (r0 + 1)) * w + w;
      GridAt(r0 + 1, r1, c0, c1, r, c, k - w);
    }
  }

  // Whether a rectangle is the one between two corners, however they are given.
  predicate Spans(rect: Rect, a: CellCoord, b: CellCoord) {
    && rect.minCol == (if a.col < b.col then a.col else b.col) && rect.maxCol == (if a.col < b.col then b.col else a.col)
    && rect.minRow == (if a.row < b.row then a.row else b.row) && rect.maxRow == (if a.row < b.row then b.row else a.row)
  }

  lemma CornersSpan(rect: Rect, a: CellCoord, b: CellCoord)
    requires Spans(rect, a, b)
    ensures Corners(a, b) == rect && rect.minCol <= rect.maxCol && rect.minRow <= rect.maxRow
  {
  }

  // An expanded range is the rectangle between its corners, or nothing if that has over a million cells.
  lemma RangeMeans(start: string, end: string, a: CellCoord, b: CellCoord, rect: Rect, area: int)
    requires ParseCoord(start) == Some(a) && ParseCoord(end) == Some(b) && Spans(rect, a, b)
    requires area == (rect.maxRow - rect.minRow + 1) * (rect.maxCol - rect.minCol + 1)
    ensures |RangeCells(start, end)| == if area <= 1_000_000 then area else 0
    ensures area <= 1_000_000 ==> RangeCells(start, end) == Labels(Grid(rect.minRow, rect.maxRow, rect.minCol, rect.maxCol))
  {
    hide ParseCoord, Grid, Labels, Spans, Corners, Rect.Area, Rect.Cells;
    CornersSpan(rect, a, b);
    RectMeans(rect, area);
  }

  lemma RectMeans(rect: Rect, area: int)
    requires rect.minCol <= rect.maxCol && rect.minRow <= rect.maxRow
    requires area == (rect.maxRow - rect.minRow + 1) * (rect.maxCol - rect.minCol + 1)
    ensures rect.Area() == area == |rect.Cells()|
    ensures rect.Cells() == Grid(rect.minRow, rect.maxRow, rect.minCol, rect.maxCol)
  {
    hide Grid;
    GridSize(rect.minRow, rect.maxRow, rect.minCol, rect.maxCol);
    assert rect.Area() == area;
  }

  // Its cells come row by row from the top left.
  lemma RangeAt(start: string, end: string, a: CellCoord, b: CellCoord, rect: Rect, area: int, c: int, r: int, k: int)
    requires ParseCoord(start) == Some(a) && ParseCoord(end) == Some(b) && Spans(rect, a, b)
    requires area == (rect.maxRow - rect.minRow + 1) * (rect.maxCol - rect.minCol + 1) && area <= 1_000_000
    requires rect.minCol <= c <= rect.maxCol && rect.minRow <= r <= rect.maxRow
    requires k == (r - rect.minRow) * (rect.maxCol - rect.minCol + 1) + (c - rect.minCol)
    ensures 0 <= k < |RangeCells(start, end)| && RangeCells(start, end)[k] == CoordToLabel(c, r)
  {
    hide ParseCoord, Grid, CoordToLabel, RangeCells, Spans;
    RangeMeans(start, end, a, b, rect, area);
    GridAt(rect.minRow, rect.maxRow, rect.minCol, rect.maxCol, r, c, k);
  }

  // Moves the head of `rest` to the end of `done`.
  lemma Advance<T>(done: seq<T>, x: T, rest: seq<T>, later: seq<T>)
    ensures done + ([x] + rest) + later == (done + [x]) + rest + later
  {
  }

  // The nested loops of `rangeCells`.
  method ListCells(r: Rect) returns (cells: seq<string>)
    ensures cells == Labels(r.Cells())
  {
    cells := [];
    ghost var done: seq<CellCoord> := [];
    for row := r.minRow to Max(r.minRow, r.maxRow + 1)
      invariant cells == Labels(done)
      invariant done + Grid(row, r.maxRow, r.minCol, r.maxCol) == r.Cells()
    {
      ghost var later := Grid(row + 1, r.maxRow, r.minCol, r.maxCol);
      assert done + RowCells(row, r.minCol, r.maxCol) + later == r.Cells();
      for col := r.minCol to Max(r.minCol, r.maxCol + 1)
        invariant cells == Labels(done)
        invariant done + RowCells(row, col, r.maxCol) + later == r.Cells()
      {
        ghost var c := CellCoord(col, row);
        Advance(done, c, RowCells(row, col + 1, r.maxCol), later);
        LabelsAppend(done, [c]);
        var text := ColumnLetters(col, row);
        assert Labels([c]) == [text];
        cells := cells + [text];
        done := done + [c];
      }
      assert done + [] == done;
    }
    assert done + [] == done;
  }

  method ExpandRange(start: string, end: string) returns (cells: seq<string>)
    ensures cells == RangeCells(start, end)
  {
    var a := ParseLabel(start);
    var b := ParseLabel(end);
    if a.None? || b.None? {
      return [];
    }
    var r := Corners(a.value, b.value);
    if r.Area() > MAX_RANGE_CELLS {
      return [];
    }
    cells := ListCells(r);
  }
}
