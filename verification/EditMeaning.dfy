/**
  Inserting rows or columns preserves meaning: a rewritten formula evaluated against the shifted
  sheet has the value the original formula had.
 */
module EditMeaning {
  import opened Text
  import opened FormulaSyntax
  import opened FormulaEval
  import opened Coords
  import opened StructuralEdit

  // ----- Resolvers before and after -----

  predicate Insertion(edit: Edit) { edit.Inserts() && edit.count >= 0 }

  ghost predicate Nowhere(r: Resolver) { forall coord: string :: r(coord).None? }

  // Cells took their values along, and the inserted cells are blank.
  ghost predicate Carries(edit: Edit, r: Resolver, s: Resolver) {
    && (forall c: CellCoord :: InBounds(c) ==> s(Label(Shift(edit, c))) == r(Label(c)))
    && (|| (Nowhere(r) && Nowhere(s))
        || (forall d: CellCoord :: InBounds(d) && InBand(edit, d) ==> s(Label(d)) == Some(Null)))
  }

  // ----- The references an insertion can follow -----

  // In bounds, and not pinned on the shifted axis at or behind the insertion.
  predicate PointFollows(edit: Edit, ref: RefNode) {
    match ParseCoord(ref.coord)
    case None => false
    case Some(c) =>
      && InBounds(c)
      && ((if edit.OnRows() then ref.rowAbs else ref.colAbs) ==> AxisIndex(edit, c) < edit.at || edit.count == 0)
  }

  // A range that is expanded must still be expanded when it has grown.
  predicate RangeFollows(edit: Edit, start: RefNode, end: RefNode) {
    && PointFollows(edit, start)
    && PointFollows(edit, end)
    && var a, b := ParseCoord(start.coord).value, ParseCoord(end.coord).value;
       (Corners(a, b).Area() <= MAX_RANGE_CELLS ==>
          Corners(Shift(edit, a), Shift(edit, b)).Area() <= MAX_RANGE_CELLS)
  }

  predicate Follows(edit: Edit, e: Expr) {
    match e
    case Cell(ref) => PointFollows(edit, ref) && CanonicalLabel(ref.coord)
    case Range(start, end) => RangeFollows(edit, start, end)
    case Func(_, args) => forall i :: 0 <= i < |args| ==> Follows(edit, args[i])
    case Binary(_, left, right) => Follows(edit, left) && Follows(edit, right)
    case Unary(_, x) => Follows(edit, x)
    case Percent(x) => Follows(edit, x)
    case _ => true
  }

  lemma PointMoves(edit: Edit, ref: RefNode)
    requires Insertion(edit) && PointFollows(edit, ref)
    ensures var c, moved := ParseCoord(ref.coord).value, MutateRef(edit, ref);
            && moved.coord == Label(Shift(edit, c)) && moved.coord != REF_ERROR
            && ParseCoord(moved.coord) == Some(Shift(edit, c)) && InBounds(Shift(edit, c))
  {
    hide ParseCoord, Label, CanonicalLabel;
    assert Target(edit, ref, ParseCoord(ref.coord).value) == Shift(edit, ParseCoord(ref.coord).value);
    MutateKeeps(edit, ref);
  }

  // ----- Cells of a grown rectangle -----

  // The cells outside the band.
  function Kept(edit: Edit, cells: seq<CellCoord>): seq<CellCoord> {
    if cells == [] then []
    else (if InBand(edit, cells[0]) then [] else [cells[0]]) + Kept(edit, cells[1..])
  }

  function Shifted(edit: Edit, cells: seq<CellCoord>): seq<CellCoord> {
    if cells == [] then [] else [Shift(edit, cells[0])] + Shifted(edit, cells[1..])
  }

  lemma {:induction false} KeptAppend(edit: Edit, a: seq<CellCoord>, b: seq<CellCoord>)
    ensures Kept(edit, a + b) == Kept(edit, a) + Kept(edit, b)
  {
    if a == [] {
      assert a + b == b;
    } else {
      assert (a + b)[1..] == a[1..] + b;
      KeptAppend(edit, a[1..], b);
    }
  }

  lemma {:induction false} ShiftedAppend(edit: Edit, a: seq<CellCoord>, b: seq<CellCoord>)
    ensures Shifted(edit, a + b) == Shifted(edit, a) + Shifted(edit, b)
  {
    if a == [] {
      assert a + b == b;
    } else {
      assert (a + b)[1..] == a[1..] + b;
      ShiftedAppend(edit, a[1..], b);
    }
  }

  // Where the image of `i` and the band in front of it start.
  predicate Opens(edit: Edit, i: int, x: int) {
    || x == ShiftIndex(edit, i)
    || (i == BandStart(edit) && i <= x <= ShiftIndex(edit, i))
  }

  lemma {:induction false} RowShifts(edit: Edit, row: int, lo: int, hi: int, x: int)
    requires Insertion(edit) && !edit.OnRows() && 0 <= lo && Opens(edit, lo, x)
    ensures Kept(edit, RowCells(row, x, ShiftIndex(edit, hi))) == Shifted(edit, RowCells(row, lo, hi))
    decreases ShiftIndex(edit, hi) - x
  {
    if x <= ShiftIndex(edit, hi) {
      assert RowCells(row, x, ShiftIndex(edit, hi))[1..] == RowCells(row, x + 1, ShiftIndex(edit, hi));
      if x < ShiftIndex(edit, lo) {
        RowShifts(edit, row, lo, hi, x + 1);
      } else {
        assert RowCells(row, lo, hi)[1..] == RowCells(row, lo + 1, hi);
        RowShifts(edit, row, lo + 1, hi, x + 1);
      }
    }
  }

  // A row that is not in the band keeps all its cells.
  lemma {:induction false} RowMoves(edit: Edit, row: int, lo: int, hi: int)
    requires Insertion(edit) && edit.OnRows() && 0 <= row
    ensures Kept(edit, RowCells(ShiftIndex(edit, row), lo, hi)) == Shifted(edit, RowCells(row, lo, hi))
    decreases hi - lo
  {
    if lo <= hi {
      RowMoves(edit, row, lo + 1, hi);
      assert RowCells(row, lo, hi)[1..] == RowCells(row, lo + 1, hi);
      assert RowCells(ShiftIndex(edit, row), lo, hi)[1..] == RowCells(ShiftIndex(edit, row), lo + 1, hi);
    }
  }

  lemma {:induction false} BandRowVanishes(edit: Edit, row: int, lo: int, hi: int)
    requires edit.OnRows() && InBand(edit, CellCoord(0, row))
    ensures Kept(edit, RowCells(row, lo, hi)) == []
    decreases hi - lo
  {
    if lo <= hi {
      BandRowVanishes(edit, row, lo + 1, hi);
      assert RowCells(row, lo, hi)[1..] == RowCells(row, lo + 1, hi);
    }
  }

  lemma {:induction false} GridGrowsRows(edit: Edit, r0: int, r1: int, c0: int, c1: int, y: int)
    requires Insertion(edit) && edit.OnRows() && 0 <= r0 && Opens(edit, r0, y)
    ensures Kept(edit, Grid(y, ShiftIndex(edit, r1), c0, c1)) == Shifted(edit, Grid(r0, r1, c0, c1))
    decreases ShiftIndex(edit, r1) - y
  {
    hide Kept, Shifted, RowCells;
    if y <= ShiftIndex(edit, r1) {
      KeptAppend(edit, RowCells(y, c0, c1), Grid(y + 1, ShiftIndex(edit, r1), c0, c1));
      if y < ShiftIndex(edit, r0) {
        BandRowVanishes(edit, y, c0, c1);
        GridGrowsRows(edit, r0, r1, c0, c1, y + 1);
      } else {
        RowMoves(edit, r0, c0, c1);
        ShiftedAppend(edit, RowCells(r0, c0, c1), Grid(r0 + 1, r1, c0, c1));
        GridGrowsRows(edit, r0 + 1, r1, c0, c1, y + 1);
      }
    } else {
      NothingLeft(edit);
    }
  }

  lemma NothingLeft(edit: Edit)
    ensures Kept(edit, []) == [] == Shifted(edit, [])
  {
  }

  lemma {:induction false} GridGrowsCols(edit: Edit, r0: int, r1: int, c0: int, c1: int)
    requires Insertion(edit) && !edit.OnRows() && 0 <= c0
    ensures Kept(edit, Grid(r0, r1, ShiftIndex(edit, c0), ShiftIndex(edit, c1))) ==
            Shifted(edit, Grid(r0, r1, c0, c1))
    decreases r1 - r0
  {
    hide Kept, Shifted, RowCells;
    if r0 <= r1 {
      var x0, x1 := ShiftIndex(edit, c0), ShiftIndex(edit, c1);
      RowShifts(edit, r0, c0, c1, x0);
      KeptAppend(edit, RowCells(r0, x0, x1), Grid(r0 + 1, r1, x0, x1));
      ShiftedAppend(edit, RowCells(r0, c0, c1), Grid(r0 + 1, r1, c0, c1));
      GridGrowsCols(edit, r0 + 1, r1, c0, c1);
    } else {
      NothingLeft(edit);
    }
  }

  // The rectangle between two shifted corners is the shifted rectangle plus cells of the band.
  lemma RectGrows(edit: Edit, a: CellCoord, b: CellCoord)
    requires Insertion(edit) && InBounds(a) && InBounds(b)
    ensures Kept(edit, Corners(Shift(edit, a), Shift(edit, b)).Cells()) == Shifted(edit, Corners(a, b).Cells())
  {
    hide Kept, Shifted, Grid;
    var r := Corners(a, b);
    var s := Corners(Shift(edit, a), Shift(edit, b));
    if edit.OnRows() {
      assert s == Rect(r.minCol, r.maxCol, ShiftIndex(edit, r.minRow), ShiftIndex(edit, r.maxRow));
      GridGrowsRows(edit, r.minRow, r.maxRow, r.minCol, r.maxCol, s.minRow);
    } else {
      assert s == Rect(ShiftIndex(edit, r.minCol), ShiftIndex(edit, r.maxCol), r.minRow, r.maxRow);
      GridGrowsCols(edit, r.minRow, r.maxRow, r.minCol, r.maxCol);
    }
  }

  lemma {:induction false} GridInBounds(r0: int, r1: int, c0: int, c1: int)
    requires 0 <= r0 && 0 <= c0
    ensures forall c :: c in Grid(r0, r1, c0, c1) ==> InBounds(c)
    decreases r1 - r0
  {
    if r0 <= r1 {
      GridInBounds(r0 + 1, r1, c0, c1);
    }
  }

  // ----- Values -----

  // The values that are not blank.
  function Compact(values: seq<CellValue>): seq<CellValue> {
    if values == [] then []
    else (if values[0] == Null then [] else [values[0]]) + Compact(values[1..])
  }

  lemma {:induction false} CompactAppend(a: seq<CellValue>, b: seq<CellValue>)
    ensures Compact(a + b) == Compact(a) + Compact(b)
  {
    if a == [] {
      assert a + b == b;
    } else {
      assert (a + b)[1..] == a[1..] + b;
      CompactAppend(a[1..], b);
    }
  }

  lemma {:induction false} BlanksCountForNothing(h: Host, values: seq<CellValue>)
    ensures Numbers(Compact(values)) == Numbers(values)
    ensures CountFilled(Compact(values)) == CountFilled(values)
    ensures FirstError(Compact(values)) == FirstError(values)
    ensures JoinText(h, Compact(values)) == JoinText(h, values)
  {
    if values != [] {
      BlanksCountForNothing(h, values[1..]);
      var rest := Compact(values[1..]);
      assert ([values[0]] + rest)[1..] == rest;
      assert [] + rest == rest;
    }
  }

  // Every aggregate ignores blank values.
  lemma ListCallIgnoresBlanks(h: Host, name: string, values: seq<CellValue>)
    ensures ListCall(h, name, Compact(values)) == ListCall(h, name, values)
  {
    BlanksCountForNothing(h, values);
  }

  ghost predicate SameValues(a: Option<seq<CellValue>>, b: Option<seq<CellValue>>) {
    && (a.Some? <==> b.Some?)
    && (a.Some? ==> Compact(a.value) == Compact(b.value))
  }

  lemma {:induction false} GrownValues(edit: Edit, r: Resolver, s: Resolver, grown: seq<CellCoord>, cells: seq<CellCoord>)
    requires Carries(edit, r, s) && !(Nowhere(r) && Nowhere(s))
    requires Kept(edit, grown) == Shifted(edit, cells)
    requires (forall c :: c in cells ==> InBounds(c)) && (forall c :: c in grown ==> InBounds(c))
    ensures SameValues(ResolveAll(r, Labels(cells)), ResolveAll(s, Labels(grown)))
    decreases |grown|
  {
    hide Label, Nowhere;
    if grown != [] {
      assert Labels(grown)[1..] == Labels(grown[1..]);
      if InBand(edit, grown[0]) {
        assert Kept(edit, grown) == Kept(edit, grown[1..]);
        GrownValues(edit, r, s, grown[1..], cells);
      } else {
        assert Kept(edit, grown)[1..] == Kept(edit, grown[1..]);
        assert cells != [] && Shifted(edit, cells)[1..] == Shifted(edit, cells[1..]);
        assert Labels(cells)[1..] == Labels(cells[1..]);
        assert Kept(edit, grown)[0] == Shifted(edit, cells)[0];
        GrownValues(edit, r, s, grown[1..], cells[1..]);
      }
    }
  }

  lemma FirstCell(r: Rect)
    requires r.minCol <= r.maxCol && r.minRow <= r.maxRow
    ensures r.Cells() != [] && r.Cells()[0] == CellCoord(r.minCol, r.minRow)
  {
  }

  lemma FirstValue(r: Resolver, labels: seq<string>)
    requires labels != []
    ensures r(labels[0]).None? ==> ResolveAll(r, labels).None?
    ensures var all := ResolveAll(r, labels);
            all.Some? ==> all.value != [] && Some(all.value[0]) == r(labels[0])
  {
  }

  // A shifted range: the same values up to blanks, and the same first value.
  ghost predicate SameRange(a: Option<seq<CellValue>>, b: Option<seq<CellValue>>) {
    && SameValues(a, b)
    && (a.Some? ==> (a.value == [] <==> b.value == []) && (a.value != [] ==> a.value[0] == b.value[0]))
  }

  lemma GridMoves(edit: Edit, r: Resolver, s: Resolver, a: CellCoord, b: CellCoord)
    requires Insertion(edit) && InBounds(a) && InBounds(b) && Carries(edit, r, s)
    ensures SameRange(ResolveAll(r, Labels(Corners(a, b).Cells())),
                      ResolveAll(s, Labels(Corners(Shift(edit, a), Shift(edit, b)).Cells())))
  {
    hide ResolveAll, Label, Compact;
    var area, moved := Corners(a, b), Corners(Shift(edit, a), Shift(edit, b));
    var cells, grown := area.Cells(), moved.Cells();
    FirstCell(area);
    FirstCell(moved);
    var first := CellCoord(area.minCol, area.minRow);
    assert grown[0] == Shift(edit, first);
    assert s(Label(Shift(edit, first))) == r(Label(first));
    FirstValue(r, Labels(cells));
    FirstValue(s, Labels(grown));
    if !(Nowhere(r) && Nowhere(s)) {
      RectGrows(edit, a, b);
      GridInBounds(area.minRow, area.maxRow, area.minCol, area.maxCol);
      GridInBounds(moved.minRow, moved.maxRow, moved.minCol, moved.maxCol);
      GrownValues(edit, r, s, grown, cells);
    }
  }

  lemma AreaGrows(edit: Edit, a: CellCoord, b: CellCoord)
    requires Insertion(edit)
    ensures Corners(a, b).Area() <= Corners(Shift(edit, a), Shift(edit, b)).Area()
  {
    var r, s := Corners(a, b), Corners(Shift(edit, a), Shift(edit, b));
    var w, v := r.maxCol - r.minCol + 1, s.maxCol - s.minCol + 1;
    var h, g := r.maxRow - r.minRow + 1, s.maxRow - s.minRow + 1;
    assert 1 <= w <= v && 1 <= h <= g;
    assert w * h <= v * h <= v * g;
  }

  lemma RangeValues(r: Resolver, start: RefNode, end: RefNode, a: CellCoord, b: CellCoord)
    requires ParseCoord(start.coord) == Some(a) && ParseCoord(end.coord) == Some(b)
    ensures EvalRange(r, start, end) ==
            if Corners(a, b).Area() > MAX_RANGE_CELLS then Some([])
            else ResolveAll(r, Labels(Corners(a, b).Cells()))
  {
    hide ParseCoord, Labels;
  }

  lemma RangeMoves(edit: Edit, r: Resolver, s: Resolver, start: RefNode, end: RefNode)
    requires Insertion(edit) && Carries(edit, r, s) && RangeFollows(edit, start, end)
    ensures SameRange(EvalRange(r, start, end), EvalRange(s, MutateRef(edit, start), MutateRef(edit, end)))
  {
    var a, b := ParseCoord(start.coord).value, ParseCoord(end.coord).value;
    assert Corners(a, b).Area() <= MAX_RANGE_CELLS ==>
        Corners(Shift(edit, a), Shift(edit, b)).Area() <= MAX_RANGE_CELLS by {
      hide ParseCoord;
    }
    RangePoints(edit, start, end);
    hide *;
    PointMoves(edit, start);
    PointMoves(edit, end);
    AreaGrows(edit, a, b);
    GridMoves(edit, r, s, a, b);
    RangeValues(r, start, end, a, b);
    RangeValues(s, MutateRef(edit, start), MutateRef(edit, end), Shift(edit, a), Shift(edit, b));
    NoValues();
  }

  lemma NoValues()
    ensures SameRange(Some([]), Some([]))
  {
  }

  lemma RangePoints(edit: Edit, start: RefNode, end: RefNode)
    requires RangeFollows(edit, start, end)
    ensures PointFollows(edit, start) && PointFollows(edit, end)
    ensures ParseCoord(start.coord).Some? && ParseCoord(end.coord).Some?
    ensures InBounds(ParseCoord(start.coord).value) && InBounds(ParseCoord(end.coord).value)
  {
    hide ParseCoord;
  }

  // ----- Expressions -----

  // A rewritten formula has, in the shifted sheet, the value the formula had.
  lemma {:induction false} RewriteKeepsMeaning(h: Host, edit: Edit, e: Expr, r: Resolver, s: Resolver)
    requires Insertion(edit) && Carries(edit, r, s) && Follows(edit, e)
    ensures Eval(h, Rewrite(edit, e), s) == Eval(h, e, r)
    decreases e, 1
  {
    hide Carries, EvalRange, EvalCall;
    match e
    case Cell(ref) => CellMoves(h, edit, e, r, s);
    case Range(start, end) =>
      RangeRewritten(edit, e);
      RangeMoves(edit, r, s, start, end);
    case Unary(_, x) => RewriteKeepsMeaning(h, edit, x, r, s);
    case Percent(x) => RewriteKeepsMeaning(h, edit, x, r, s);
    case Binary(_, left, right) =>
      RewriteKeepsMeaning(h, edit, left, r, s);
      RewriteKeepsMeaning(h, edit, right, r, s);
    case Func(name, args) => CallKeepsMeaning(h, edit, name, args, r, s);
    case Num(_) =>
    case Str(_) =>
    case Bool(_) =>
  }

  lemma CellMoves(h: Host, edit: Edit, e: Expr, r: Resolver, s: Resolver)
    requires Insertion(edit) && Carries(edit, r, s) && e.Cell? && Follows(edit, e)
    ensures Eval(h, Rewrite(edit, e), s) == Eval(h, e, r)
  {
    hide ParseCoord, Label, CanonicalLabel;
    CanonicalLabelParses(e.ref.coord);
    PointMoves(edit, e.ref);
  }

  lemma RangeRewritten(edit: Edit, e: Expr)
    requires Insertion(edit) && e.Range? && Follows(edit, e)
    ensures Rewrite(edit, e) == Range(MutateRef(edit, e.start), MutateRef(edit, e.end))
  {
    hide ParseCoord;
    PointMoves(edit, e.start);
    PointMoves(edit, e.end);
  }

  lemma {:induction false} CallKeepsMeaning(h: Host, edit: Edit, name: string, args: seq<Expr>, r: Resolver, s: Resolver)
    requires Insertion(edit) && Carries(edit, r, s)
    requires forall i :: 0 <= i < |args| ==> Follows(edit, args[i])
    ensures EvalCall(h, name, RewriteArgs(edit, args), s) == EvalCall(h, name, args, r)
    decreases args, 2
  {
    hide Carries, Eval, Rewrite, Follows, ListCall, EvalArgs;
    if name in LIST_FUNCTIONS {
      ArgsKeepMeaning(h, edit, args, r, s);
      var a, b := EvalArgs(h, args, r), EvalArgs(h, RewriteArgs(edit, args), s);
      if a.Some? {
        ListCallIgnoresBlanks(h, name, a.value);
        ListCallIgnoresBlanks(h, name, b.value);
      }
    } else {
      forall i | 0 <= i < |args|
        ensures Eval(h, Rewrite(edit, args[i]), s) == Eval(h, args[i], r)
      {
        RewriteKeepsMeaning(h, edit, args[i], r, s);
      }
    }
  }

  lemma {:induction false} ArgsKeepMeaning(h: Host, edit: Edit, args: seq<Expr>, r: Resolver, s: Resolver)
    requires Insertion(edit) && Carries(edit, r, s)
    requires forall i :: 0 <= i < |args| ==> Follows(edit, args[i])
    ensures SameValues(EvalArgs(h, args, r), EvalArgs(h, RewriteArgs(edit, args), s))
    decreases args, 1
  {
    hide Carries, Eval, Rewrite, Follows, EvalRange;
    if args != [] {
      var arg := args[0];
      var rest := EvalArgs(h, args[1..], r);
      ArgsKeepMeaning(h, edit, args[1..], r, s);
      assert RewriteArgs(edit, args)[1..] == RewriteArgs(edit, args[1..]);
      RewriteKeepsShape(edit, arg);
      if arg.Range? {
        RangeRewritten(edit, arg);
        RangeFollowing(edit, arg);
        RangeMoves(edit, r, s, arg.start, arg.end);
      } else {
        RewriteKeepsMeaning(h, edit, arg, r, s);
      }
      forall a: seq<CellValue>, b: seq<CellValue>
        ensures Compact(a + b) == Compact(a) + Compact(b)
      {
        CompactAppend(a, b);
      }
    }
  }

  lemma RangeFollowing(edit: Edit, e: Expr)
    requires e.Range? && Follows(edit, e)
    ensures RangeFollows(edit, e.start, e.end)
  {
  }

  lemma RewriteKeepsShape(edit: Edit, e: Expr)
    requires Insertion(edit) && Follows(edit, e)
    ensures Rewrite(edit, e).Range? <==> e.Range?
  {
    if e.Range? {
      RangeRewritten(edit, e);
    }
  }

  // ----- What an insertion cannot follow -----

  // The rewritten expression has the value of the original one, whatever the cells hold.
  ghost predicate Preserved(h: Host, edit: Edit, e: Expr) {
    forall r: Resolver, s: Resolver :: Carries(edit, r, s) ==> Eval(h, Rewrite(edit, e), s) == Eval(h, e, r)
  }

  // A sheet with a number in one cell.
  function OneCell(c: CellCoord): Resolver {
    (coord: string) => Some(if coord == Label(c) then Number(1.0) else Null)
  }

  lemma LabelEqualIff(a: CellCoord, b: CellCoord)
    requires InBounds(a) && InBounds(b)
    ensures Label(a) == Label(b) <==> a == b
  {
    hide Label;
    if Label(a) == Label(b) {
      LabelInjective(a, b);
    }
  }

  lemma OneCellCarries(edit: Edit, c: CellCoord)
    requires Insertion(edit) && InBounds(c)
    ensures Carries(edit, OneCell(c), OneCell(Shift(edit, c)))
  {
    hide Label;
    var r, s := OneCell(c), OneCell(Shift(edit, c));
    forall d: CellCoord | InBounds(d)
      ensures s(Label(Shift(edit, d))) == r(Label(d))
    {
      LabelEqualIff(d, c);
      LabelEqualIff(Shift(edit, d), Shift(edit, c));
      ShiftInjective(edit, c, d);
    }
    forall d: CellCoord | InBounds(d) && InBand(edit, d)
      ensures s(Label(d)) == Some(Null)
    {
      LabelEqualIff(d, Shift(edit, c));
    }
  }

  lemma PinnedStays(edit: Edit, ref: RefNode, c: CellCoord)
    requires Insertion(edit) && ParseCoord(ref.coord) == Some(c) && InBounds(c) && !PointFollows(edit, ref)
    ensures Target(edit, ref, c) == c != Shift(edit, c)
  {
    hide ParseCoord;
  }

  lemma PinnedMisses(h: Host, edit: Edit, ref: RefNode)
    requires Insertion(edit) && CanonicalLabel(ref.coord) && !PointFollows(edit, ref)
    ensures !Preserved(h, edit, Cell(ref))
  {
    hide ParseCoord, Label, CanonicalLabel, Carries, PointFollows;
    CanonicalLabelParses(ref.coord);
    var c := ParseCoord(ref.coord).value;
    PinnedStays(edit, ref, c);
    MutateKeeps(edit, ref);
    OneCellCarries(edit, c);
    var r, s := OneCell(c), OneCell(Shift(edit, c));
    LabelEqualIff(c, Shift(edit, c));
    assert Eval(h, Rewrite(edit, Cell(ref)), s) == s(Label(c)) == Some(Null);
    assert Eval(h, Cell(ref), r) == r(Label(c)) == Some(Number(1.0));
  }

  // A reference keeps its meaning exactly when it is not pinned at or behind the insertion.
  lemma ReferencePreservedIff(h: Host, edit: Edit, ref: RefNode)
    requires Insertion(edit) && CanonicalLabel(ref.coord)
    ensures Preserved(h, edit, Cell(ref)) <==> PointFollows(edit, ref)
  {
    if PointFollows(edit, ref) {
      hide ParseCoord, Label, CanonicalLabel, Carries, PointFollows, Eval, Rewrite;
      forall r: Resolver, s: Resolver | Carries(edit, r, s)
        ensures Eval(h, Rewrite(edit, Cell(ref)), s) == Eval(h, Cell(ref), r)
      {
        CellMoves(h, edit, Cell(ref), r, s);
      }
    } else {
      PinnedMisses(h, edit, ref);
    }
  }

  lemma {:induction false} AllResolve(r: Resolver, labels: seq<string>)
    requires forall coord: string :: r(coord).Some?
    ensures ResolveAll(r, labels).Some?
  {
    if labels != [] {
      AllResolve(r, labels[1..]);
    }
  }

  lemma OutgrownIsLost(h: Host, edit: Edit, start: RefNode, end: RefNode, a: CellCoord, b: CellCoord)
    requires Insertion(edit) && PointFollows(edit, start) && PointFollows(edit, end)
    requires ParseCoord(start.coord) == Some(a) && ParseCoord(end.coord) == Some(b) && InBounds(a) && InBounds(b)
    requires Corners(a, b).Area() <= MAX_RANGE_CELLS < Corners(Shift(edit, a), Shift(edit, b)).Area()
    ensures !Preserved(h, edit, Range(start, end))
  {
    hide ParseCoord, Label, CanonicalLabel, Carries, PointFollows, ResolveAll, EvalRange, MutateRef;
    PointMoves(edit, start);
    PointMoves(edit, end);
    var area := Corners(a, b);
    var first := CellCoord(area.minCol, area.minRow);
    OneCellCarries(edit, first);
    var r, s := OneCell(first), OneCell(Shift(edit, first));
    RangeValues(r, start, end, a, b);
    RangeValues(s, MutateRef(edit, start), MutateRef(edit, end), Shift(edit, a), Shift(edit, b));
    FirstCell(area);
    FirstValue(r, Labels(area.Cells()));
    AllResolve(r, Labels(area.Cells()));
    assert Eval(h, Range(start, end), r) == Some(Number(1.0));
    assert Eval(h, Rewrite(edit, Range(start, end)), s) == Some(Null);
  }

  // A range whose corners are followed keeps its meaning exactly when it does not outgrow the
  // limit up to which ranges are expanded.
  lemma RangePreservedIff(h: Host, edit: Edit, start: RefNode, end: RefNode)
    requires Insertion(edit) && PointFollows(edit, start) && PointFollows(edit, end)
    ensures Preserved(h, edit, Range(start, end)) <==> RangeFollows(edit, start, end)
  {
    if RangeFollows(edit, start, end) {
      hide ParseCoord, Carries, PointFollows, RangeFollows, Eval, Rewrite;
      forall r: Resolver, s: Resolver | Carries(edit, r, s)
        ensures Eval(h, Rewrite(edit, Range(start, end)), s) == Eval(h, Range(start, end), r)
      {
        RangeKept(h, edit, start, end, r, s);
      }
    } else {
      hide ParseCoord, Preserved;
      OutgrownIsLost(h, edit, start, end, ParseCoord(start.coord).value, ParseCoord(end.coord).value);
    }
  }

  lemma RangeKept(h: Host, edit: Edit, start: RefNode, end: RefNode, r: Resolver, s: Resolver)
    requires Insertion(edit) && Carries(edit, r, s) && RangeFollows(edit, start, end)
    ensures Eval(h, Rewrite(edit, Range(start, end)), s) == Eval(h, Range(start, end), r)
  {
    hide RangeFollows, Carries, Eval, Rewrite;
    assert Follows(edit, Range(start, end));
    RewriteKeepsMeaning(h, edit, Range(start, end), r, s);
  }

  lemma A5()
    ensures ParseCoord("A5") == Some(CellCoord(0, 4)) && CanonicalLabel("A5")
  {
    assert Label(CellCoord(0, 4)) == "A5" by {
      assert ColLetters(1) == "A" && Decimal(5) == "5";
      assert "A" + "5" == "A5";
    }
    hide Label, ParseCoord, CanonicalLabel;
    LabelParses(CellCoord(0, 4));
  }

  // `$A$5` does not follow its cell when a row is inserted above.
  lemma PinnedReferenceChanges(h: Host)
    ensures !Preserved(h, Edit(InsertRows, 2, 1), Cell(RefNode("A5", true, true)))
  {
    A5();
    hide ParseCoord, CanonicalLabel, Preserved;
    ReferencePreservedIff(h, Edit(InsertRows, 2, 1), RefNode("A5", true, true));
  }
}
