/** Inserting and deleting rows and columns: index shifts, reference rewriting, moved cells. */
module StructuralEdit {
  import opened Text
  import opened FormulaSyntax
  import opened FormulaEval
  import opened Coords

  datatype Kind = InsertRows | DeleteRows | InsertCols | DeleteCols

  datatype Edit = Edit(kind: Kind, at: int, count: int) {
    predicate Inserts() { kind.InsertRows? || kind.InsertCols? }

    predicate OnRows() { kind.InsertRows? || kind.DeleteRows? }

    // The deletion that takes back an insertion.
    function Undo(): Edit
      requires Inserts()
    {
      Edit(if OnRows() then DeleteRows else DeleteCols, at, count)
    }
  }

  // `makeShifts`: a negative result means that the index is removed.
  function ShiftIndex(edit: Edit, i: int): int {
    if edit.Inserts() then (if i >= edit.at then i + edit.count else i)
    else if i < edit.at then i
    else if i < edit.at + edit.count then -1
    else i - edit.count
  }

  function ShiftRow(edit: Edit, row: int): int { if edit.OnRows() then ShiftIndex(edit, row) else row }

  function ShiftCol(edit: Edit, col: int): int { if edit.OnRows() then col else ShiftIndex(edit, col) }

  function Shift(edit: Edit, c: CellCoord): CellCoord {
    CellCoord(ShiftCol(edit, c.col), ShiftRow(edit, c.row))
  }

  function AxisIndex(edit: Edit, c: CellCoord): int { if edit.OnRows() then c.row else c.col }

  function BandStart(edit: Edit): nat { if edit.at < 0 then 0 else edit.at }

  // The coordinates an insertion opens up, and a deletion removes.
  predicate InBand(edit: Edit, c: CellCoord) {
    BandStart(edit) <= AxisIndex(edit, c) < BandStart(edit) + edit.count
  }

  // `shiftCoord`: the new label, unless the cell is removed.
  function ShiftLabel(edit: Edit, coord: string): Option<string> {
    match ParseCoord(coord)
    case None => None
    case Some(c) => if InBounds(Shift(edit, c)) then Some(Label(Shift(edit, c))) else None
  }

  // Where a reference to `c` points afterwards; an absolute marker pins the index it precedes.
  function Target(edit: Edit, ref: RefNode, c: CellCoord): CellCoord {
    CellCoord(if ref.colAbs then c.col else ShiftCol(edit, c.col),
              if ref.rowAbs then c.row else ShiftRow(edit, c.row))
  }

  // `makeRefMutator`
  function MutateRef(edit: Edit, ref: RefNode): RefNode {
    match ParseCoord(ref.coord)
    case None => ref
    case Some(c) =>
      var d := Target(edit, ref, c);
      if InBounds(d) then RefNode(Label(d), ref.colAbs, ref.rowAbs)
      else RefNode(REF_ERROR, false, false)
  }

  // `rewriteRefs`
  function Rewrite(edit: Edit, e: Expr): Expr {
    match e
    case Cell(ref) =>
      var moved := MutateRef(edit, ref);
      if moved.coord == REF_ERROR then Str(REF_ERROR) else Cell(moved)
    case Range(start, end) =>
      var a, b := MutateRef(edit, start), MutateRef(edit, end);
      if a.coord == REF_ERROR || b.coord == REF_ERROR then Str(REF_ERROR) else Range(a, b)
    case Func(name, args) => Func(name, RewriteArgs(edit, args))
    case Binary(op, left, right) => Binary(op, Rewrite(edit, left), Rewrite(edit, right))
    case Unary(op, x) => Unary(op, Rewrite(edit, x))
    case Percent(x) => Percent(Rewrite(edit, x))
    case _ => e
  }

  function RewriteArgs(edit: Edit, args: seq<Expr>): (r: seq<Expr>)
    ensures |r| == |args|
    ensures forall i :: 0 <= i < |args| ==> r[i] == Rewrite(edit, args[i])
  {
    if args == [] then [] else [Rewrite(edit, args[0])] + RewriteArgs(edit, args[1..])
  }

  // ----- Positions -----

  // Two surviving cells end up at one coordinate only if they were at one coordinate.
  lemma ShiftInjective(edit: Edit, a: CellCoord, b: CellCoord)
    requires edit.count >= 0 && InBounds(Shift(edit, a)) && InBounds(Shift(edit, b))
    ensures Shift(edit, a) == Shift(edit, b) <==> a == b
  {
  }

  // Two keys collide after an edit exactly when they name the same coordinate.
  lemma SurvivorsCollide(edit: Edit, j: string, k: string)
    requires edit.count >= 0 && ShiftLabel(edit, j).Some? && ShiftLabel(edit, k).Some?
    ensures ShiftLabel(edit, j) == ShiftLabel(edit, k) <==> ParseCoord(j) == ParseCoord(k)
  {
    var a, b := ParseCoord(j).value, ParseCoord(k).value;
    ShiftInjective(edit, a, b);
    if Label(Shift(edit, a)) == Label(Shift(edit, b)) {
      LabelInjective(Shift(edit, a), Shift(edit, b));
    }
  }

  lemma PaddedRow()
    ensures ParseCoord("A1") == ParseCoord("A01") == Some(CellCoord(0, 0))
  {
    assert "A" + "1" == "A1" && "A" + "01" == "A01";
    assert ColNumber("A") == 1 by { assert "A"[..0] == ""; }
    assert DigitsValue("1") == 1 by { assert "1"[..0] == ""; }
    assert DigitsValue("01") == 1 by { assert "01"[..1] == "0" && "0"[..0] == ""; }
    hide ParseCoord, ColNumber, DigitsValue;
    ParseParts("A", "1");
    ParseParts("A", "01");
  }

  // Distinct keys can collide: a leading zero names the same row.
  lemma LeadingZerosCollide()
    ensures ShiftLabel(Edit(InsertRows, 0, 1), "A1") == ShiftLabel(Edit(InsertRows, 0, 1), "A01") == Some("A2")
  {
    PaddedRow();
    hide ParseCoord;
    assert ColLetters(1) == "A" && Decimal(2) == "2";
    assert Label(CellCoord(0, 1)) == "A" + "2" == "A2";
    assert Shift(Edit(InsertRows, 0, 1), CellCoord(0, 0)) == CellCoord(0, 1);
  }

  // A deletion removes exactly its band, and nothing if its count is negative. An insertion removes
  // nothing, unless its count is negative: then the cells at or behind it that would be in front of
  // the sheet. A key with row number zero, which is outside every sheet, can only be moved into it.
  lemma SurvivesIff(edit: Edit, key: string)
    ensures ShiftLabel(edit, key).Some? <==>
              var c := ParseCoord(key);
              c.Some? && if c.value.row < 0
                         then edit.OnRows() && edit.at <= c.value.row
                              && c.value.row + (if edit.Inserts() then edit.count else -edit.count) >= 0
                         else if edit.Inserts()
                         then AxisIndex(edit, c.value) < edit.at || AxisIndex(edit, c.value) + edit.count >= 0
                         else !InBand(edit, c.value)
  {
  }

  // Deleting the inserted band puts every cell back.
  lemma PositionRestored(edit: Edit, c: CellCoord)
    requires edit.Inserts() && edit.count >= 0
    ensures Shift(edit.Undo(), Shift(edit, c)) == c
  {
  }

  // ----- References -----

  // A reference that survives parse-then-print.
  predicate Restorable(ref: RefNode) {
    ref.coord != REF_ERROR && (ParseCoord(ref.coord).None? || CanonicalLabel(ref.coord))
  }

  predicate AllRestorable(e: Expr) {
    match e
    case Cell(ref) => Restorable(ref)
    case Range(start, end) => Restorable(start) && Restorable(end)
    case Func(_, args) => forall i :: 0 <= i < |args| ==> AllRestorable(args[i])
    case Binary(_, left, right) => AllRestorable(left) && AllRestorable(right)
    case Unary(_, x) => AllRestorable(x)
    case Percent(x) => AllRestorable(x)
    case _ => true
  }

  lemma ErrorIsNoLabel(c: CellCoord)
    requires InBounds(c)
    ensures Label(c) != REF_ERROR && ParseCoord(REF_ERROR).None?
  {
    var letters := ColLetters(c.col + 1);
    assert Label(c)[0] == letters[0] && IsUpper(letters[0]);
    TrimTight(REF_ERROR);
    RunIs(Letter, REF_ERROR, 0);
  }

  // A kept reference in full: its label, and where it points after the edit.
  lemma MutateKeeps(edit: Edit, ref: RefNode)
    requires ParseCoord(ref.coord).Some?
    ensures var d, moved := Target(edit, ref, ParseCoord(ref.coord).value), MutateRef(edit, ref);
            if InBounds(d) then
              && moved == RefNode(Label(d), ref.colAbs, ref.rowAbs)
              && ParseCoord(moved.coord) == Some(d) && CanonicalLabel(moved.coord) && moved.coord != REF_ERROR
            else moved.coord == "#REF!"
  {
    hide ParseCoord, Label, CanonicalLabel;
    var d := Target(edit, ref, ParseCoord(ref.coord).value);
    if InBounds(d) {
      LabelParses(d);
      ErrorIsNoLabel(d);
    }
  }

  lemma TargetRestored(edit: Edit, ref: RefNode, moved: RefNode, c: CellCoord)
    requires edit.Inserts() && edit.count >= 0
    ensures moved == RefNode(moved.coord, ref.colAbs, ref.rowAbs) ==>
              Target(edit.Undo(), moved, Target(edit, ref, c)) == c
    ensures InBounds(c) ==> InBounds(Target(edit, ref, c))
  {
  }

  lemma RestorableIs(ref: RefNode)
    requires ParseCoord(ref.coord).Some?
    ensures ref.coord != REF_ERROR
    ensures var c := ParseCoord(ref.coord).value;
            Restorable(ref) <==> InBounds(c) && Label(c) == ref.coord
  {
    hide ParseCoord, Label, CanonicalLabel;
    ErrorIsNoLabel(CellCoord(0, 0));
    if CanonicalLabel(ref.coord) {
      CanonicalLabelParses(ref.coord);
    } else if InBounds(ParseCoord(ref.coord).value) {
      LabelFixpoint(ref.coord);
    }
  }

  lemma RefRestored(edit: Edit, ref: RefNode)
    requires edit.Inserts() && edit.count >= 0
    ensures var moved := MutateRef(edit, ref);
            var back := MutateRef(edit.Undo(), moved);
            && ((moved.coord != REF_ERROR && back == ref) <==> Restorable(ref))
            && (moved.coord != REF_ERROR && back.coord == REF_ERROR ==> !Restorable(ref))
  {
    hide ParseCoord, Label, CanonicalLabel, Target;
    var p := ParseCoord(ref.coord);
    if p.Some? {
      var moved := MutateRef(edit, ref);
      MutateKeeps(edit, ref);
      RestorableIs(ref);
      TargetRestored(edit, ref, moved, p.value);
      if moved.coord != REF_ERROR {
        MutateKeeps(edit.Undo(), moved);
      }
    }
  }

  // Inserting and then deleting the same band restores an expression, absolute references
  // included, exactly when its references are canonical and in bounds.
  lemma {:induction false} ExpressionRestored(edit: Edit, e: Expr)
    requires edit.Inserts() && edit.count >= 0
    ensures Rewrite(edit.Undo(), Rewrite(edit, e)) == e <==> AllRestorable(e)
  {
    match e
    case Cell(ref) => RefRestored(edit, ref);
    case Range(start, end) =>
      RefRestored(edit, start);
      RefRestored(edit, end);
    case Func(name, args) =>
      var back := RewriteArgs(edit.Undo(), RewriteArgs(edit, args));
      forall i | 0 <= i < |args|
        ensures back[i] == args[i] <==> AllRestorable(args[i])
      {
        ExpressionRestored(edit, args[i]);
      }
      assert back == args <==> forall i :: 0 <= i < |args| ==> back[i] == args[i];
    case Binary(_, left, right) =>
      ExpressionRestored(edit, left);
      ExpressionRestored(edit, right);
    case Unary(_, x) => ExpressionRestored(edit, x);
    case Percent(x) => ExpressionRestored(edit, x);
    case _ =>
  }
}
