/**
  Deleting rows or columns preserves the meaning of the formulas it does not touch: a deletion,
  read backwards, is the insertion of the deleted band.
 */
module DeleteMeaning {
  import opened Text
  import opened FormulaSyntax
  import opened FormulaEval
  import opened Coords
  import opened StructuralEdit
  import opened EditMeaning

  predicate Deletion(edit: Edit) { !edit.Inserts() && edit.count >= 0 }

  // The insertion that a deletion takes back.
  function Redo(edit: Edit): Edit
    requires Deletion(edit)
  {
    Edit(if edit.OnRows() then InsertRows else InsertCols, edit.at, edit.count)
  }

  lemma DeletionIsUndo(edit: Edit, c: CellCoord, d: CellCoord)
    requires Deletion(edit)
    ensures Redo(edit).Undo() == edit && Insertion(Redo(edit))
    ensures InBand(Redo(edit), c) <==> InBand(edit, c)
    ensures InBounds(c) ==> InBounds(Shift(Redo(edit), c)) && !InBand(edit, Shift(Redo(edit), c)) &&
                            Shift(edit, Shift(Redo(edit), c)) == c
    ensures InBounds(d) && !InBand(edit, d) ==> InBounds(Shift(edit, d)) && Shift(Redo(edit), Shift(edit, d)) == d
  {
  }

  // ----- What a deletion leaves alone -----

  // In bounds, outside the deleted band, and not pinned behind it.
  predicate PointStays(edit: Edit, ref: RefNode) {
    match ParseCoord(ref.coord)
    case None => false
    case Some(c) =>
      && InBounds(c) && !InBand(edit, c)
      && ((if edit.OnRows() then ref.rowAbs else ref.colAbs) ==> AxisIndex(edit, c) < edit.at || edit.count == 0)
  }

  // Both corners stay, and a range that was too large to be expanded still is.
  predicate RangeStays(edit: Edit, start: RefNode, end: RefNode) {
    && PointStays(edit, start)
    && PointStays(edit, end)
    && var a, b := ParseCoord(start.coord).value, ParseCoord(end.coord).value;
       (Corners(Shift(edit, a), Shift(edit, b)).Area() <= MAX_RANGE_CELLS ==> Corners(a, b).Area() <= MAX_RANGE_CELLS)
  }

  predicate Untouched(edit: Edit, e: Expr) {
    match e
    case Cell(ref) => PointStays(edit, ref) && CanonicalLabel(ref.coord)
    case Range(start, end) => RangeStays(edit, start, end)
    case Func(_, args) => forall i :: 0 <= i < |args| ==> Untouched(edit, args[i])
    case Binary(_, left, right) => Untouched(edit, left) && Untouched(edit, right)
    case Unary(_, x) => Untouched(edit, x)
    case Percent(x) => Untouched(edit, x)
    case _ => true
  }

  ghost predicate RangeBlank(edit: Edit, start: RefNode, end: RefNode, s: Resolver) {
    var a, b := ParseCoord(start.coord), ParseCoord(end.coord);
    a.Some? && b.Some? ==>
      forall d :: d in Corners(a.value, b.value).Cells() && InBounds(d) && InBand(edit, d) ==> s(Label(d)) == Some(Null)
  }

  // The deleted cells inside the ranges of the expression are blank.
  ghost predicate BlankInside(edit: Edit, e: Expr, s: Resolver) {
    match e
    case Range(start, end) => RangeBlank(edit, start, end, s)
    case Func(_, args) => forall i :: 0 <= i < |args| ==> BlankInside(edit, args[i], s)
    case Binary(_, left, right) => BlankInside(edit, left, s) && BlankInside(edit, right, s)
    case Unary(_, x) => BlankInside(edit, x, s)
    case Percent(x) => BlankInside(edit, x, s)
    case _ => true
  }

  // The cells outside the deleted band took their values along.
  ghost predicate Closes(edit: Edit, s: Resolver, r: Resolver) {
    forall d: CellCoord :: InBounds(d) && !InBand(edit, d) ==> r(Label(Shift(edit, d))) == s(Label(d))
  }

  // The sheet with the band emptied.
  function Blanked(edit: Edit, s: Resolver): Resolver {
    (coord: string) =>
      if CanonicalLabel(coord) && ParseCoord(coord).Some? && InBand(edit, ParseCoord(coord).value) then Some(Null)
      else s(coord)
  }

  lemma BlankedIs(edit: Edit, s: Resolver, d: CellCoord)
    requires InBounds(d)
    ensures Blanked(edit, s)(Label(d)) == if InBand(edit, d) then Some(Null) else s(Label(d))
  {
    hide ParseCoord, Label, CanonicalLabel, InBand;
    LabelParses(d);
  }

  lemma BlankedCarries(edit: Edit, s: Resolver, r: Resolver)
    requires Deletion(edit) && Closes(edit, s, r)
    ensures Carries(Redo(edit), r, Blanked(edit, s))
  {
    hide Label, Blanked, Shift, InBand, Redo, Nowhere;
    forall c: CellCoord | InBounds(c)
      ensures Blanked(edit, s)(Label(Shift(Redo(edit), c))) == r(Label(c))
    {
      DeletionIsUndo(edit, c, c);
      BlankedIs(edit, s, Shift(Redo(edit), c));
    }
    forall d: CellCoord | InBounds(d) && InBand(Redo(edit), d)
      ensures Blanked(edit, s)(Label(d)) == Some(Null)
    {
      DeletionIsUndo(edit, d, d);
      BlankedIs(edit, s, d);
    }
  }

  // ----- There and back -----

  function Round(edit: Edit, e: Expr): Expr
    requires Deletion(edit)
  {
    Rewrite(Redo(edit), Rewrite(edit, e))
  }

  lemma PointLeaves(edit: Edit, ref: RefNode, c: CellCoord)
    requires Deletion(edit) && PointStays(edit, ref) && ParseCoord(ref.coord) == Some(c)
    ensures var d, moved := Shift(edit, c), MutateRef(edit, ref);
            && moved.coord != REF_ERROR && ParseCoord(moved.coord) == Some(d) && InBounds(d)
            && CanonicalLabel(moved.coord) && PointFollows(Redo(edit), moved) && Shift(Redo(edit), d) == c
  {
    hide ParseCoord, Label, CanonicalLabel;
    assert Target(edit, ref, c) == Shift(edit, c) && InBounds(Shift(edit, c));
    MutateKeeps(edit, ref);
  }

  lemma PointReturns(edit: Edit, ref: RefNode, c: CellCoord)
    requires Deletion(edit) && PointStays(edit, ref) && ParseCoord(ref.coord) == Some(c)
    ensures var back := MutateRef(Redo(edit), MutateRef(edit, ref));
            && MutateRef(edit, ref).coord != REF_ERROR && back.coord != REF_ERROR
            && back.coord == Label(c) && ParseCoord(back.coord) == Some(c) && InBounds(c) && !InBand(edit, c)
  {
    PointLeaves(edit, ref, c);
    hide ParseCoord, Label, CanonicalLabel, MutateRef, PointFollows;
    PointMoves(Redo(edit), MutateRef(edit, ref));
  }

  lemma RangeLeaves(edit: Edit, start: RefNode, end: RefNode)
    requires Deletion(edit) && RangeStays(edit, start, end)
    ensures var a, b := MutateRef(edit, start), MutateRef(edit, end);
            a.coord != REF_ERROR && b.coord != REF_ERROR && RangeFollows(Redo(edit), a, b)
  {
    hide ParseCoord, CanonicalLabel, MutateRef, PointFollows, PointStays;
    assert PointStays(edit, start) && PointStays(edit, end);
    RangeCorners(edit, start, end);
    PointLeaves(edit, start, ParseCoord(start.coord).value);
    PointLeaves(edit, end, ParseCoord(end.coord).value);
  }

  lemma RangeCorners(edit: Edit, start: RefNode, end: RefNode)
    requires RangeStays(edit, start, end)
    ensures ParseCoord(start.coord).Some? && ParseCoord(end.coord).Some?
    ensures InBounds(ParseCoord(start.coord).value) && InBounds(ParseCoord(end.coord).value)
  {
    hide ParseCoord;
  }

  // The rewritten expression is one that the insertion can follow back.
  lemma {:induction false} RewrittenFollows(edit: Edit, e: Expr)
    requires Deletion(edit) && Untouched(edit, e)
    ensures Follows(Redo(edit), Rewrite(edit, e))
  {
    hide ParseCoord, PointStays, PointFollows, RangeStays, RangeFollows, MutateRef, CanonicalLabel;
    match e
    case Cell(ref) => CellLeaves(edit, ref);
    case Range(start, end) => RangeLeaves(edit, start, end);
    case Func(_, args) =>
      forall i | 0 <= i < |args|
        ensures Follows(Redo(edit), Rewrite(edit, args[i]))
      {
        RewrittenFollows(edit, args[i]);
      }
    case Binary(_, left, right) =>
      RewrittenFollows(edit, left);
      RewrittenFollows(edit, right);
    case Unary(_, x) => RewrittenFollows(edit, x);
    case Percent(x) => RewrittenFollows(edit, x);
    case _ =>
  }

  lemma CellLeaves(edit: Edit, ref: RefNode)
    requires Deletion(edit) && PointStays(edit, ref)
    ensures var moved := MutateRef(edit, ref);
            moved.coord != REF_ERROR && CanonicalLabel(moved.coord) && PointFollows(Redo(edit), moved)
  {
    hide ParseCoord, MutateRef, PointFollows, CanonicalLabel;
    PointLeaves(edit, ref, ParseCoord(ref.coord).value);
  }

  lemma {:induction false} SameAnswers(r: Resolver, s: Resolver, labels: seq<string>)
    requires forall k :: k in labels ==> r(k) == s(k)
    ensures ResolveAll(r, labels) == ResolveAll(s, labels)
  {
    if labels != [] {
      SameAnswers(r, s, labels[1..]);
    }
  }

  // A range that went there and back has its old values, in the emptied sheet.
  lemma RangeReturns(edit: Edit, start: RefNode, end: RefNode, s: Resolver)
    requires Deletion(edit) && RangeStays(edit, start, end) && RangeBlank(edit, start, end, s)
    ensures var a, b := MutateRef(edit, start), MutateRef(edit, end);
            var c, d := MutateRef(Redo(edit), a), MutateRef(Redo(edit), b);
            && a.coord != REF_ERROR && b.coord != REF_ERROR && c.coord != REF_ERROR && d.coord != REF_ERROR
            && EvalRange(Blanked(edit, s), c, d) == EvalRange(s, start, end)
  {
    hide ParseCoord, MutateRef, PointStays, EvalRange, Blanked, Label, InBand;
    RangeCorners(edit, start, end);
    var a, b := ParseCoord(start.coord).value, ParseCoord(end.coord).value;
    var c, d := MutateRef(Redo(edit), MutateRef(edit, start)), MutateRef(Redo(edit), MutateRef(edit, end));
    PointReturns(edit, start, a);
    PointReturns(edit, end, b);
    RangeValues(s, start, end, a, b);
    RangeValues(Blanked(edit, s), c, d, a, b);
    var area := Corners(a, b);
    GridInBounds(area.minRow, area.maxRow, area.minCol, area.maxCol);
    forall k | k in Labels(area.Cells())
      ensures Blanked(edit, s)(k) == s(k)
    {
      var i :| 0 <= i < |area.Cells()| && Labels(area.Cells())[i] == k;
      BlankedIs(edit, s, area.Cells()[i]);
    }
    SameAnswers(Blanked(edit, s), s, Labels(area.Cells()));
  }

  lemma CellReturns(h: Host, edit: Edit, ref: RefNode, s: Resolver)
    requires Deletion(edit) && PointStays(edit, ref) && CanonicalLabel(ref.coord)
    ensures Eval(h, Round(edit, Cell(ref)), Blanked(edit, s)) == Eval(h, Cell(ref), s)
  {
    hide ParseCoord, MutateRef, PointStays, Blanked, Label, InBand, CanonicalLabel;
    CanonicalLabelParses(ref.coord);
    var c := ParseCoord(ref.coord).value;
    PointReturns(edit, ref, c);
    BlankedIs(edit, s, c);
  }

  // Going there and back keeps the meaning, with the deleted band emptied.
  lemma {:induction false} RoundMeans(h: Host, edit: Edit, e: Expr, s: Resolver)
    requires Deletion(edit) && Untouched(edit, e) && BlankInside(edit, e, s)
    ensures Eval(h, Round(edit, e), Blanked(edit, s)) == Eval(h, e, s)
    decreases e, 1
  {
    hide ParseCoord, PointStays, RangeStays, RangeBlank, MutateRef, CanonicalLabel, Blanked, EvalRange, EvalCall;
    match e
    case Cell(ref) => CellReturns(h, edit, ref, s);
    case Range(start, end) => RangeReturns(edit, start, end, s);
    case Func(name, args) => CallReturns(h, edit, name, args, s);
    case Binary(_, left, right) =>
      RoundMeans(h, edit, left, s);
      RoundMeans(h, edit, right, s);
    case Unary(_, x) => RoundMeans(h, edit, x, s);
    case Percent(x) => RoundMeans(h, edit, x, s);
    case Num(_) =>
    case Str(_) =>
    case Bool(_) =>
  }

  lemma {:induction false} CallReturns(h: Host, edit: Edit, name: string, args: seq<Expr>, s: Resolver)
    requires Deletion(edit)
    requires forall i :: 0 <= i < |args| ==> Untouched(edit, args[i]) && BlankInside(edit, args[i], s)
    ensures EvalCall(h, name, RewriteArgs(Redo(edit), RewriteArgs(edit, args)), Blanked(edit, s)) == EvalCall(h, name, args, s)
    decreases args, 2
  {
    hide Untouched, BlankInside, Eval, Rewrite, ListCall, EvalArgs, Blanked;
    if name in LIST_FUNCTIONS {
      ArgsReturn(h, edit, args, s);
    } else {
      forall i | 0 <= i < |args|
        ensures Eval(h, Round(edit, args[i]), Blanked(edit, s)) == Eval(h, args[i], s)
      {
        RoundMeans(h, edit, args[i], s);
      }
    }
  }

  lemma {:induction false} ArgsReturn(h: Host, edit: Edit, args: seq<Expr>, s: Resolver)
    requires Deletion(edit)
    requires forall i :: 0 <= i < |args| ==> Untouched(edit, args[i]) && BlankInside(edit, args[i], s)
    ensures EvalArgs(h, RewriteArgs(Redo(edit), RewriteArgs(edit, args)), Blanked(edit, s)) == EvalArgs(h, args, s)
    decreases args, 1
  {
    hide Untouched, BlankInside, Eval, Rewrite, Blanked, EvalRange;
    if args != [] {
      var there := RewriteArgs(edit, args);
      assert there[1..] == RewriteArgs(edit, args[1..]);
      assert RewriteArgs(Redo(edit), there)[1..] == RewriteArgs(Redo(edit), there[1..]);
      ArgsReturn(h, edit, args[1..], s);
      ArgReturns(h, edit, args[0], s);
    }
  }

  lemma {:induction false} ArgReturns(h: Host, edit: Edit, arg: Expr, s: Resolver)
    requires Deletion(edit) && Untouched(edit, arg) && BlankInside(edit, arg, s)
    ensures Round(edit, arg).Range? <==> arg.Range?
    ensures Eval(h, Round(edit, arg), Blanked(edit, s)) == Eval(h, arg, s)
    ensures arg.Range? ==>
              EvalRange(Blanked(edit, s), Round(edit, arg).start, Round(edit, arg).end) == EvalRange(s, arg.start, arg.end)
    decreases arg, 2
  {
    hide ParseCoord, RangeStays, RangeBlank, MutateRef, CanonicalLabel, Blanked, EvalRange, Eval;
    RoundMeans(h, edit, arg, s);
    if arg.Range? {
      RangeReturns(edit, arg.start, arg.end, s);
    }
  }

  // A formula whose references and range corners a deletion leaves alone, and whose ranges lose
  // blank cells only, has its value when rewritten.
  lemma DeletionKeepsMeaning(h: Host, edit: Edit, e: Expr, s: Resolver, r: Resolver)
    requires Deletion(edit) && Closes(edit, s, r) && Untouched(edit, e) && BlankInside(edit, e, s)
    ensures Eval(h, Rewrite(edit, e), r) == Eval(h, e, s)
  {
    hide Eval, Rewrite, Blanked, Closes, Carries, Untouched, BlankInside, Follows;
    DeletionIsUndo(edit, CellCoord(0, 0), CellCoord(0, 0));
    BlankedCarries(edit, s, r);
    RewrittenFollows(edit, e);
    RewriteKeepsMeaning(h, Redo(edit), Rewrite(edit, e), r, Blanked(edit, s));
    RoundMeans(h, edit, e, s);
  }

  // ----- What a deletion does not leave alone -----

  // The rewritten expression has the value of the original one, on every sheet whose deleted cells in
  // its ranges are blank.
  ghost predicate Survives(h: Host, edit: Edit, e: Expr) {
    forall s: Resolver, r: Resolver :: Closes(edit, s, r) && BlankInside(edit, e, s) ==>
      Eval(h, Rewrite(edit, e), r) == Eval(h, e, s)
  }

  function Empty(): Resolver { (coord: string) => Some(Null) }

  lemma OneCellCloses(edit: Edit, c: CellCoord)
    requires Deletion(edit) && InBounds(c)
    ensures Closes(edit, OneCell(c), if InBand(edit, c) then Empty() else OneCell(Shift(edit, c)))
  {
    hide Label;
    forall d: CellCoord | InBounds(d) && !InBand(edit, d)
      ensures (if InBand(edit, c) then Empty() else OneCell(Shift(edit, c)))(Label(Shift(edit, d))) == OneCell(c)(Label(d))
    {
      LabelEqualIff(d, c);
      if !InBand(edit, c) {
        LabelEqualIff(Shift(edit, d), Shift(edit, c));
        ShiftInjective(edit, c, d);
      }
    }
  }

  lemma PinnedOrGone(edit: Edit, ref: RefNode, c: CellCoord)
    requires Deletion(edit) && ParseCoord(ref.coord) == Some(c) && InBounds(c) && !PointStays(edit, ref)
    ensures InBounds(Target(edit, ref, c)) ==> Target(edit, ref, c) == c
    ensures !InBand(edit, c) ==> InBounds(Shift(edit, c)) && Shift(edit, c) != c
  {
    hide ParseCoord;
  }

  lemma ReferenceLost(h: Host, edit: Edit, ref: RefNode)
    requires Deletion(edit) && CanonicalLabel(ref.coord) && !PointStays(edit, ref)
    ensures !Survives(h, edit, Cell(ref))
  {
    hide ParseCoord, Label, CanonicalLabel, Closes, PointStays;
    CanonicalLabelParses(ref.coord);
    var c := ParseCoord(ref.coord).value;
    PinnedOrGone(edit, ref, c);
    MutateKeeps(edit, ref);
    OneCellCloses(edit, c);
    if !InBand(edit, c) {
      LabelEqualIff(c, Shift(edit, c));
    }
    var s, r := OneCell(c), if InBand(edit, c) then Empty() else OneCell(Shift(edit, c));
    assert r(Label(c)) == Some(Null);
    assert Eval(h, Cell(ref), s) == s(Label(c)) == Some(Number(1.0));
    assert Eval(h, Rewrite(edit, Cell(ref)), r) != Some(Number(1.0));
  }

  lemma UntouchedSurvives(h: Host, edit: Edit, e: Expr)
    requires Deletion(edit) && Untouched(edit, e)
    ensures Survives(h, edit, e)
  {
    hide Untouched, Closes, BlankInside, Eval, Rewrite;
    forall s: Resolver, r: Resolver | Closes(edit, s, r) && BlankInside(edit, e, s)
      ensures Eval(h, Rewrite(edit, e), r) == Eval(h, e, s)
    {
      DeletionKeepsMeaning(h, edit, e, s, r);
    }
  }

  // A reference keeps its meaning exactly when its cell is not deleted and it is not pinned behind
  // the deleted band.
  lemma ReferenceSurvivesIff(h: Host, edit: Edit, ref: RefNode)
    requires Deletion(edit) && CanonicalLabel(ref.coord)
    ensures Survives(h, edit, Cell(ref)) <==> PointStays(edit, ref)
  {
    hide CanonicalLabel, PointStays, Survives;
    if PointStays(edit, ref) {
      UntouchedSurvives(h, edit, Cell(ref));
    } else {
      ReferenceLost(h, edit, ref);
    }
  }

  lemma FirstStays(edit: Edit, a: CellCoord, b: CellCoord)
    requires Deletion(edit) && InBounds(a) && InBounds(b) && !InBand(edit, a) && !InBand(edit, b)
    ensures var first, small := CellCoord(Corners(a, b).minCol, Corners(a, b).minRow), Corners(Shift(edit, a), Shift(edit, b));
            && InBounds(first) && !InBand(edit, first) && Shift(edit, first) == CellCoord(small.minCol, small.minRow)
            && small.minCol <= small.maxCol && small.minRow <= small.maxRow
  {
  }

  lemma OutsideIsBlank(edit: Edit, first: CellCoord)
    requires InBounds(first) && !InBand(edit, first)
    ensures forall d: CellCoord :: InBounds(d) && InBand(edit, d) ==> OneCell(first)(Label(d)) == Some(Null)
  {
    hide Label;
    forall d: CellCoord | InBounds(d) && InBand(edit, d)
      ensures OneCell(first)(Label(d)) == Some(Null)
    {
      LabelEqualIff(d, first);
    }
  }

  lemma ExpandedIsGained(h: Host, edit: Edit, start: RefNode, end: RefNode, a: CellCoord, b: CellCoord)
    requires Deletion(edit) && PointStays(edit, start) && PointStays(edit, end)
    requires ParseCoord(start.coord) == Some(a) && ParseCoord(end.coord) == Some(b)
    requires InBounds(a) && InBounds(b) && !InBand(edit, a) && !InBand(edit, b)
    requires Corners(Shift(edit, a), Shift(edit, b)).Area() <= MAX_RANGE_CELLS < Corners(a, b).Area()
    ensures !Survives(h, edit, Range(start, end))
  {
    hide ParseCoord, Label, CanonicalLabel, Closes, PointStays, PointFollows, ResolveAll, EvalRange, MutateRef, InBand;
    PointLeaves(edit, start, a);
    PointLeaves(edit, end, b);
    var area, small := Corners(a, b), Corners(Shift(edit, a), Shift(edit, b));
    var first := CellCoord(area.minCol, area.minRow);
    FirstStays(edit, a, b);
    OneCellCloses(edit, first);
    OutsideIsBlank(edit, first);
    var s, r := OneCell(first), OneCell(Shift(edit, first));
    assert BlankInside(edit, Range(start, end), s);
    RangeValues(s, start, end, a, b);
    RangeValues(r, MutateRef(edit, start), MutateRef(edit, end), Shift(edit, a), Shift(edit, b));
    FirstCell(small);
    FirstValue(r, Labels(small.Cells()));
    AllResolve(r, Labels(small.Cells()));
    assert Eval(h, Range(start, end), s) == Some(Null);
    assert Eval(h, Rewrite(edit, Range(start, end)), r) == Some(Number(1.0));
  }

  // A range whose corners stay keeps its meaning exactly when it does not shrink to one that is
  // expanded from one that was too large.
  lemma RangeSurvivesIff(h: Host, edit: Edit, start: RefNode, end: RefNode)
    requires Deletion(edit) && PointStays(edit, start) && PointStays(edit, end)
    ensures Survives(h, edit, Range(start, end)) <==> RangeStays(edit, start, end)
  {
    hide ParseCoord, Survives;
    if RangeStays(edit, start, end) {
      assert Untouched(edit, Range(start, end));
      hide RangeStays, PointStays, Untouched;
      UntouchedSurvives(h, edit, Range(start, end));
    } else {
      ExpandedIsGained(h, edit, start, end, ParseCoord(start.coord).value, ParseCoord(end.coord).value);
    }
  }

  // ----- The values of one range on one sheet -----

  ghost predicate AllBlank(edit: Edit, s: Resolver, cells: seq<CellCoord>) {
    forall d :: d in cells && InBand(edit, d) ==> s(Label(d)) == Some(Null)
  }

  lemma AllBlankSplits(edit: Edit, s: Resolver, cells: seq<CellCoord>)
    requires cells != []
    ensures AllBlank(edit, s, cells) <==>
            (InBand(edit, cells[0]) ==> s(Label(cells[0])) == Some(Null)) && AllBlank(edit, s, cells[1..])
  {
    hide Label, InBand;
    assert forall d :: d in cells <==> d == cells[0] || d in cells[1..];
  }

  // One more cell in front.
  lemma ValuesCons(s: Resolver, d: CellCoord, cells: seq<CellCoord>)
    ensures ResolveAll(s, Labels([d] + cells)).Some? <==> s(Label(d)).Some? && ResolveAll(s, Labels(cells)).Some?
    ensures ResolveAll(s, Labels([d] + cells)).Some? ==>
              Compact(ResolveAll(s, Labels([d] + cells)).value) ==
              (if s(Label(d)).value == Null then [] else [s(Label(d)).value]) + Compact(ResolveAll(s, Labels(cells)).value)
  {
    hide Label;
    assert Labels([d] + cells)[1..] == Labels(cells);
  }

  lemma KeptCons(edit: Edit, d: CellCoord, cells: seq<CellCoord>)
    ensures Kept(edit, [d] + cells) == if InBand(edit, d) then Kept(edit, cells) else [d] + Kept(edit, cells)
  {
    hide InBand;
    assert ([d] + cells)[1..] == cells;
  }

  // The cells of the band add nothing to the values exactly when they are blank.
  ghost predicate BandAdds(edit: Edit, s: Resolver, cells: seq<CellCoord>) {
    var all, some := ResolveAll(s, Labels(cells)), ResolveAll(s, Labels(Kept(edit, cells)));
    && all.Some? && some.Some? && |Compact(some.value)| <= |Compact(all.value)|
    && (Compact(all.value) == Compact(some.value) <==> AllBlank(edit, s, cells))
  }

  lemma NothingAdds(edit: Edit, s: Resolver)
    ensures BandAdds(edit, s, [])
  {
    assert Kept(edit, []) == [];
  }

  lemma BandStep(edit: Edit, s: Resolver, d: CellCoord, rest: seq<CellCoord>)
    requires BandAdds(edit, s, rest) && s(Label(d)).Some?
    ensures BandAdds(edit, s, [d] + rest)
  {
    hide Label, InBand, AllBlank, Compact, Kept, ResolveAll, Labels;
    AllBlankSplits(edit, s, [d] + rest);
    assert ([d] + rest)[1..] == rest;
    ValuesCons(s, d, rest);
    KeptCons(edit, d, rest);
    if !InBand(edit, d) {
      ValuesCons(s, d, Kept(edit, rest));
      SameTails(if s(Label(d)).value == Null then [] else [s(Label(d)).value],
                Compact(ResolveAll(s, Labels(rest)).value), Compact(ResolveAll(s, Labels(Kept(edit, rest))).value));
    }
  }

  lemma {:induction false} BandAddsValues(edit: Edit, s: Resolver, cells: seq<CellCoord>)
    requires ResolveAll(s, Labels(cells)).Some?
    ensures BandAdds(edit, s, cells)
  {
    hide Label, BandAdds, ResolveAll, Labels;
    if cells == [] {
      NothingAdds(edit, s);
    } else {
      assert cells == [cells[0]] + cells[1..];
      ValuesCons(s, cells[0], cells[1..]);
      BandAddsValues(edit, s, cells[1..]);
      BandStep(edit, s, cells[0], cells[1..]);
    }
  }

  lemma SameTails(a: seq<CellValue>, b: seq<CellValue>, c: seq<CellValue>)
    ensures a + b == a + c <==> b == c
  {
    assert (a + b)[|a|..] == b && (a + c)[|a|..] == c;
  }

  lemma {:induction false} ShiftedValues(edit: Edit, s: Resolver, r: Resolver, small: seq<CellCoord>)
    requires Deletion(edit) && Closes(edit, s, r)
    requires forall c :: c in small ==> InBounds(c)
    ensures ResolveAll(s, Labels(Shifted(Redo(edit), small))) == ResolveAll(r, Labels(small))
  {
    hide Label, InBand, Shift, Redo;
    if small != [] {
      var c := small[0];
      DeletionIsUndo(edit, c, c);
      ShiftedValues(edit, s, r, small[1..]);
      assert Labels(small)[1..] == Labels(small[1..]);
      assert Shifted(Redo(edit), small)[1..] == Shifted(Redo(edit), small[1..]);
      assert Labels(Shifted(Redo(edit), small))[1..] == Labels(Shifted(Redo(edit), small[1..]));
    }
  }

  // On one sheet, a range whose corners stay has the same values up to blanks exactly when the deleted
  // cells in it were blank.
  lemma RangeValuesIff(edit: Edit, s: Resolver, r: Resolver, start: RefNode, end: RefNode)
    requires Deletion(edit) && Closes(edit, s, r) && PointStays(edit, start) && PointStays(edit, end)
    requires Corners(ParseCoord(start.coord).value, ParseCoord(end.coord).value).Area() <= MAX_RANGE_CELLS
    requires EvalRange(s, start, end).Some?
    ensures SameValues(EvalRange(s, start, end), EvalRange(r, MutateRef(edit, start), MutateRef(edit, end)))
            <==> RangeBlank(edit, start, end, s)
  {
    hide PointFollows, ResolveAll, EvalRange, MutateRef, Label, Compact, Kept, Shifted, Closes, Shift, CanonicalLabel;
    var a, b := ParseCoord(start.coord).value, ParseCoord(end.coord).value;
    PointLeaves(edit, start, a);
    PointLeaves(edit, end, b);
    hide ParseCoord, PointStays;
    AreaGrows(Redo(edit), Shift(edit, a), Shift(edit, b));
    RangeValues(s, start, end, a, b);
    RangeValues(r, MutateRef(edit, start), MutateRef(edit, end), Shift(edit, a), Shift(edit, b));
    hide SameValues, RangeBlank, AllBlank, Redo;
    CellsValuesIff(edit, s, r, a, b);
    BlankCells(edit, start, end, s, a, b);
  }

  lemma BlankCells(edit: Edit, start: RefNode, end: RefNode, s: Resolver, a: CellCoord, b: CellCoord)
    requires ParseCoord(start.coord) == Some(a) && ParseCoord(end.coord) == Some(b) && InBounds(a) && InBounds(b)
    ensures RangeBlank(edit, start, end, s) <==> AllBlank(edit, s, Corners(a, b).Cells())
  {
    hide ParseCoord, Label, InBand;
    var area := Corners(a, b);
    GridInBounds(area.minRow, area.maxRow, area.minCol, area.maxCol);
  }

  lemma SameBand(edit: Edit)
    requires Deletion(edit)
    ensures Insertion(Redo(edit)) && forall d: CellCoord :: InBand(Redo(edit), d) <==> InBand(edit, d)
  {
  }

  lemma CellsValuesIff(edit: Edit, s: Resolver, r: Resolver, a: CellCoord, b: CellCoord)
    requires Deletion(edit) && Closes(edit, s, r)
    requires InBounds(a) && InBounds(b) && InBounds(Shift(edit, a)) && InBounds(Shift(edit, b))
    requires Shift(Redo(edit), Shift(edit, a)) == a && Shift(Redo(edit), Shift(edit, b)) == b
    requires ResolveAll(s, Labels(Corners(a, b).Cells())).Some?
    ensures SameValues(ResolveAll(s, Labels(Corners(a, b).Cells())), ResolveAll(r, Labels(Corners(Shift(edit, a), Shift(edit, b)).Cells())))
            <==> AllBlank(edit, s, Corners(a, b).Cells())
  {
    hide ResolveAll, Label, Compact, Kept, Shifted, Closes, Shift, InBand, Redo;
    SameBand(edit);
    var cells, small := Corners(a, b).Cells(), Corners(Shift(edit, a), Shift(edit, b));
    RectGrows(Redo(edit), Shift(edit, a), Shift(edit, b));
    GridInBounds(small.minRow, small.maxRow, small.minCol, small.maxCol);
    ShiftedValues(edit, s, r, small.Cells());
    BandAddsValues(Redo(edit), s, cells);
  }
}
