/**
  A structural edit of a whole sheet: which cells survive and where, that after an insertion every
  meaning has followed its cell, and that deleting the inserted band restores the sheet.
 */
module SheetEdit {
  import opened Text
  import opened FormulaSyntax
  import opened FormulaEval
  import opened FormulaPrinter
  import opened Coords
  import opened StructuralEdit
  import opened EditMeaning
  import opened Recalc
  import opened RecalcSound
  import FormulaParser
  import FormulaRoundTrip
  import FormulaSound

  type Cells = map<string, SheetCell>

  // ----- The edited cells -----

  // A cell with its formula rewritten, when the formula parses.
  function MovedCell(fmt: NumFormat, edit: Edit, cell: SheetCell): SheetCell {
    if cell.formula == "" then cell
    else
      match FormulaParser.ParseExpression(fmt, cell.formula)
      case Formula(e) => cell.(formula := "=" + Print(fmt, Rewrite(edit, e)))
      case _ => cell
  }

  predicate Survives(edit: Edit, cells: Cells, key: string) {
    key in cells && ShiftLabel(edit, key).Some?
  }

  // The cells after visiting these keys; of two cells moved to one label the later one stays.
  function MovedCells(fmt: NumFormat, edit: Edit, cells: Cells, keys: seq<string>): Cells {
    if keys == [] then map[]
    else
      var earlier, key := MovedCells(fmt, edit, cells, keys[..|keys| - 1]), keys[|keys| - 1];
      if Survives(edit, cells, key) then earlier[ShiftLabel(edit, key).value := MovedCell(fmt, edit, cells[key])]
      else earlier
  }

  // The labels in the order in which they are first assigned.
  function MovedKeys(edit: Edit, cells: Cells, keys: seq<string>): seq<string> {
    if keys == [] then []
    else
      var earlier, key := MovedKeys(edit, cells, keys[..|keys| - 1]), keys[|keys| - 1];
      if Survives(edit, cells, key) && ShiftLabel(edit, key).value !in earlier
      then earlier + [ShiftLabel(edit, key).value]
      else earlier
  }

  function Survivors(edit: Edit, cells: Cells, keys: seq<string>): seq<string> {
    if keys == [] then []
    else
      Survivors(edit, cells, keys[..|keys| - 1]) +
      (if Survives(edit, cells, keys[|keys| - 1]) then [keys[|keys| - 1]] else [])
  }

  // ----- Conservation -----

  ghost predicate DistinctCoords(keys: seq<string>) {
    forall i, j :: 0 <= i < j < |keys| && ParseCoord(keys[i]).Some? ==> ParseCoord(keys[i]) != ParseCoord(keys[j])
  }

  lemma {:induction false} SurvivorsAreKeys(edit: Edit, cells: Cells, keys: seq<string>)
    ensures forall k :: k in Survivors(edit, cells, keys) <==> k in keys && Survives(edit, cells, k)
  {
    hide ShiftLabel;
    if keys != [] {
      SurvivorsAreKeys(edit, cells, keys[..|keys| - 1]);
      assert keys == keys[..|keys| - 1] + [keys[|keys| - 1]];
    }
  }

  // The edited sheet is made of exactly the surviving cells, in their order, each at its own
  // shifted label and with its own rewritten formula.
  lemma {:induction false} CellsConserved(fmt: NumFormat, edit: Edit, cells: Cells, keys: seq<string>)
    requires edit.count >= 0 && DistinctCoords(keys)
    ensures var kept, moved := Survivors(edit, cells, keys), MovedKeys(edit, cells, keys);
            && |moved| == |kept|
            && MovedCells(fmt, edit, cells, keys).Keys == (set k | k in moved)
            && (forall i :: 0 <= i < |kept| ==>
                  && Survives(edit, cells, kept[i])
                  && moved[i] == ShiftLabel(edit, kept[i]).value
                  && moved[i] in MovedCells(fmt, edit, cells, keys)
                  && MovedCells(fmt, edit, cells, keys)[moved[i]] == MovedCell(fmt, edit, cells[kept[i]]))
  {
    hide ShiftLabel, MovedCell, ParseCoord;
    if keys != [] {
      var init, key := keys[..|keys| - 1], keys[|keys| - 1];
      CellsConserved(fmt, edit, cells, init);
      if Survives(edit, cells, key) {
        NewLabelIsFree(edit, cells, keys);
      }
    }
  }

  lemma NewLabelIsFree(edit: Edit, cells: Cells, keys: seq<string>)
    requires edit.count >= 0 && DistinctCoords(keys) && keys != []
    requires Survives(edit, cells, keys[|keys| - 1])
    ensures var kept := Survivors(edit, cells, keys[..|keys| - 1]);
            forall i :: 0 <= i < |kept| && Survives(edit, cells, kept[i]) ==>
              ShiftLabel(edit, kept[i]) != ShiftLabel(edit, keys[|keys| - 1])
  {
    hide ShiftLabel, ParseCoord;
    var init, key := keys[..|keys| - 1], keys[|keys| - 1];
    var kept := Survivors(edit, cells, init);
    SurvivorsAreKeys(edit, cells, init);
    forall i | 0 <= i < |kept| && Survives(edit, cells, kept[i])
      ensures ShiftLabel(edit, kept[i]) != ShiftLabel(edit, key)
    {
      SurvivorsCollide(edit, kept[i], key);
      LabelIsParsed(edit, kept[i]);
      var j :| 0 <= j < |init| && init[j] == kept[i];
      assert keys[j] == kept[i];
    }
  }

  lemma LabelIsParsed(edit: Edit, key: string)
    ensures ShiftLabel(edit, key).Some? ==> ParseCoord(key).Some?
  {
  }

  // An insertion keeps every cell whose coordinate is in bounds.
  lemma InsertKeepsAll(edit: Edit, cells: Cells, keys: seq<string>)
    requires Insertion(edit)
    requires forall k :: k in keys ==> k in cells && ParseCoord(k).Some? && InBounds(ParseCoord(k).value)
    ensures Survivors(edit, cells, keys) == keys
  {
    forall k | k in keys
      ensures Survives(edit, cells, k)
    {
      hide ParseCoord, Label;
    }
    AllSurvive(edit, cells, keys);
  }

  // ----- Meanings follow their cells -----

  // Upper-case letters and digits are what normalising makes of themselves.
  lemma NormalPieces(letters: string, digits: string)
    requires letters != "" && digits != "" && All(Digit, digits)
    requires forall i :: 0 <= i < |letters| ==> IsUpper(letters[i])
    ensures Normalize(letters + digits) == letters + digits
  {
    var s := letters + digits;
    assert In(Digit, digits[|digits| - 1]) && s[0] == letters[0] && s[|s| - 1] == digits[|digits| - 1];
    TrimTight(s);
    forall i | 0 <= i < |s|
      ensures UpperChar(s[i]) == s[i]
    {
      if i >= |letters| {
        assert s[i] == digits[i - |letters|] && In(Digit, s[i]);
      }
    }
    assert ToUpper(s) == s;
  }

  lemma LabelIsNormal(c: CellCoord)
    requires InBounds(c)
    ensures Normalize(Label(c)) == Label(c)
  {
    hide Normalize, ColLetters, Decimal;
    NormalPieces(ColLetters(c.col + 1), Decimal(c.row + 1));
  }

  function MovedDef(edit: Edit, d: CellDef): CellDef {
    if d.Computed? then Computed(Rewrite(edit, d.e)) else d
  }

  ghost predicate MovedProgram(edit: Edit, p: Program, q: Program) {
    && (forall c: CellCoord :: InBounds(c) ==>
          && (Label(c) in p <==> Label(Shift(edit, c)) in q)
          && (Label(c) in p ==> q[Label(Shift(edit, c))] == MovedDef(edit, p[Label(c)])))
    && (forall d: CellCoord :: InBounds(d) && InBand(edit, d) ==> Label(d) !in q)
  }

  ghost predicate AllFollow(edit: Edit, p: Program) {
    forall k :: k in p && p[k].Computed? ==> Follows(edit, p[k].e)
  }

  lemma {:induction false} MeaningFollows(h: Host, edit: Edit, p: Program, q: Program, c: CellCoord, n: nat)
    requires Insertion(edit) && MovedProgram(edit, p, q) && AllFollow(edit, p) && InBounds(c)
    ensures Meaning(h, q, Label(Shift(edit, c)), n) == Meaning(h, p, Label(c), n)
    decreases n, 0
  {
    hide Eval, At, Label, Rewrite, Follows, InBand;
    if n > 0 && Label(c) in p && p[Label(c)].Computed? {
      LevelFollows(h, edit, p, q, n - 1);
      hide MovedProgram, Carries;
      var e := p[Label(c)].e;
      RewriteKeepsMeaning(h, edit, e, At(h, p, n - 1), At(h, q, n - 1));
    }
  }

  lemma {:induction false} LevelFollows(h: Host, edit: Edit, p: Program, q: Program, n: nat)
    requires Insertion(edit) && MovedProgram(edit, p, q) && AllFollow(edit, p)
    ensures Carries(edit, At(h, p, n), At(h, q, n))
    decreases n, 1
  {
    hide Meaning, At, Label, Normalize, MovedProgram, AllFollow, Shift, InBand, Follows;
    forall c: CellCoord | InBounds(c)
      ensures At(h, q, n)(Label(Shift(edit, c))) == At(h, p, n)(Label(c))
    {
      ShiftInBounds(edit, c);
      MeaningFollows(h, edit, p, q, c, n);
      LabelIsNormal(c);
      LabelIsNormal(Shift(edit, c));
      AtIs(h, p, n, Label(c));
      AtIs(h, q, n, Label(Shift(edit, c)));
    }
    if n > 0 {
      forall d: CellCoord | InBounds(d) && InBand(edit, d)
        ensures At(h, q, n)(Label(d)) == Some(Null)
      {
        BandMeansNothing(h, edit, p, q, d, n);
      }
    } else {
      NowhereAtZero(h, p);
      NowhereAtZero(h, q);
    }
  }

  lemma ShiftInBounds(edit: Edit, c: CellCoord)
    requires Insertion(edit) && InBounds(c)
    ensures InBounds(Shift(edit, c))
  {
  }

  lemma BandMeansNothing(h: Host, edit: Edit, p: Program, q: Program, d: CellCoord, n: nat)
    requires MovedProgram(edit, p, q) && InBounds(d) && InBand(edit, d) && n > 0
    ensures At(h, q, n)(Label(d)) == Some(Null)
  {
    hide Eval, Label, Normalize, At, InBand;
    LabelIsNormal(d);
    AtIs(h, q, n, Label(d));
  }

  lemma NowhereAtZero(h: Host, p: Program)
    ensures Nowhere(At(h, p, 0))
  {
    hide Normalize;
  }

  // ----- The formulas of the edited sheet -----

  lemma CanonicalIsCoord(s: string)
    requires CanonicalLabel(s)
    ensures CoordText(s)
  {
    var n := Run(Letter, s);
    assert forall i :: 0 <= i < n ==> UpperChar(s[i]) == s[i];
    assert ToUpper(s[..n]) == s[..n];
  }

  lemma MovedRefIsCoord(edit: Edit, ref: RefNode)
    requires CoordText(ref.coord) && MutateRef(edit, ref).coord != REF_ERROR
    ensures CoordText(MutateRef(edit, ref).coord)
  {
    hide ParseCoord, CoordText, Label, CanonicalLabel;
    if ParseCoord(ref.coord).Some? {
      MutateKeeps(edit, ref);
      CanonicalIsCoord(MutateRef(edit, ref).coord);
    }
  }

  // Rewriting keeps an expression within what the parser can produce.
  lemma {:induction false} RewriteWellFormed(fmt: NumFormat, edit: Edit, e: Expr)
    requires WellFormed(fmt, e)
    ensures WellFormed(fmt, Rewrite(edit, e))
  {
    hide CoordText, MutateRef, IsFuncName, IsNumeral;
    match e
    case Cell(ref) =>
      if MutateRef(edit, ref).coord != REF_ERROR {
        MovedRefIsCoord(edit, ref);
      }
    case Range(start, end) =>
      if MutateRef(edit, start).coord != REF_ERROR && MutateRef(edit, end).coord != REF_ERROR {
        MovedRefIsCoord(edit, start);
        MovedRefIsCoord(edit, end);
      }
    case Func(_, args) =>
      forall i | 0 <= i < |args|
        ensures WellFormed(fmt, Rewrite(edit, args[i]))
      {
        RewriteWellFormed(fmt, edit, args[i]);
      }
    case Binary(_, left, right) =>
      RewriteWellFormed(fmt, edit, left);
      RewriteWellFormed(fmt, edit, right);
    case Unary(_, x) => RewriteWellFormed(fmt, edit, x);
    case Percent(x) => RewriteWellFormed(fmt, edit, x);
    case _ =>
  }

  // The formula text a structural edit stores denotes the rewritten expression exactly when the
  // rewritten expression reads back.
  lemma StoredFormula(fmt: NumFormat, edit: Edit, raw: string)
    requires FormulaParser.ParseExpression(fmt, raw).Formula?
    requires NumbersRead(fmt, FormulaParser.ParseExpression(fmt, raw).expr)
    ensures var e := Rewrite(edit, FormulaParser.ParseExpression(fmt, raw).expr);
            FormulaParser.ParseExpression(fmt, "=" + Print(fmt, e)) == FormulaParser.Formula(e) <==> Reparses(fmt, e)
  {
    hide Reparses, WellFormed, Shaped, NumbersRead, Print, Rewrite, FormulaParser.ParseExpression;
    var e := FormulaParser.ParseExpression(fmt, raw).expr;
    FormulaSound.ParsedIsShaped(fmt, raw);
    WellFormedIs(fmt, e);
    RewriteWellFormed(fmt, edit, e);
    FormulaRoundTrip.RoundTrip(fmt, Rewrite(edit, e));
  }

  // A formula that an insertion can follow and whose rewritten text reads back.
  predicate Portable(fmt: NumFormat, edit: Edit, cell: SheetCell) {
    cell.formula != "" ==>
      match FormulaParser.ParseExpression(fmt, cell.formula)
      case Formula(e) => NumbersRead(fmt, e) && Reparses(fmt, Rewrite(edit, e)) && (IsAIFormula(e) || Follows(edit, e))
      case _ => true
  }

  lemma CellDefMoves(fmt: NumFormat, edit: Edit, cell: SheetCell)
    requires Portable(fmt, edit, cell)
    ensures DefOf(fmt, MovedCell(fmt, edit, cell)) == MovedDef(edit, DefOf(fmt, cell))
    ensures DefOf(fmt, cell).Computed? ==> Follows(edit, DefOf(fmt, cell).e)
  {
    hide Reparses, NumbersRead, Follows, Print, FormulaParser.ParseExpression;
    if cell.formula != "" && FormulaParser.ParseExpression(fmt, cell.formula).Formula? {
      StoredFormula(fmt, edit, cell.formula);
      AIStaysAI(edit, FormulaParser.ParseExpression(fmt, cell.formula).expr);
      hide Rewrite, IsAIFormula;
    }
  }

  lemma AIStaysAI(edit: Edit, e: Expr)
    ensures IsAIFormula(Rewrite(edit, e)) <==> IsAIFormula(e)
  {
  }

  // ----- The whole sheet -----

  // Distinct canonical keys, all of them cells.
  ghost predicate Regular(cells: Cells, keys: seq<string>) {
    && (forall i, j :: 0 <= i < j < |keys| ==> keys[i] != keys[j])
    && (forall k :: k in keys <==> k in cells)
    && (forall k :: k in keys ==> CanonicalLabel(k))
  }

  // A regular sheet all of whose formulas are portable.
  ghost predicate Movable(fmt: NumFormat, edit: Edit, cells: Cells, keys: seq<string>) {
    Regular(cells, keys) && forall k :: k in cells ==> Portable(fmt, edit, cells[k])
  }

  lemma {:induction false} KeyMoves(fmt: NumFormat, edit: Edit, cells: Cells, keys: seq<string>, key: string)
    requires key in keys && Survives(edit, cells, key)
    requires forall k :: k in keys && Survives(edit, cells, k) && ShiftLabel(edit, k) == ShiftLabel(edit, key) ==> k == key
    ensures var target := ShiftLabel(edit, key).value;
            && target in MovedKeys(edit, cells, keys)
            && target in MovedCells(fmt, edit, cells, keys)
            && MovedCells(fmt, edit, cells, keys)[target] == MovedCell(fmt, edit, cells[key])
  {
    hide ShiftLabel, MovedCell;
    var init, last := keys[..|keys| - 1], keys[|keys| - 1];
    assert keys == init + [last];
    if last != key {
      KeyMoves(fmt, edit, cells, init, key);
    }
  }

  lemma {:induction false} OnlyKeysMove(fmt: NumFormat, edit: Edit, cells: Cells, keys: seq<string>, moved: string) returns (key: string)
    requires moved in MovedCells(fmt, edit, cells, keys)
    ensures key in keys && Survives(edit, cells, key) && ShiftLabel(edit, key) == Some(moved)
  {
    hide ShiftLabel, MovedCell;
    var init, last := keys[..|keys| - 1], keys[|keys| - 1];
    if Survives(edit, cells, last) && ShiftLabel(edit, last).value == moved {
      key := last;
    } else {
      key := OnlyKeysMove(fmt, edit, cells, init, moved);
    }
  }

  // A canonical key and its new label, as coordinates.
  lemma CanonicalShift(edit: Edit, key: string) returns (c: CellCoord)
    requires Insertion(edit) && CanonicalLabel(key)
    ensures InBounds(c) && InBounds(Shift(edit, c)) && ParseCoord(key) == Some(c) && key == Label(c)
    ensures ShiftLabel(edit, key) == Some(Label(Shift(edit, c)))
    ensures !InBand(edit, Shift(edit, c))
  {
    hide ParseCoord, Label, CanonicalLabel;
    CanonicalLabelParses(key);
    c := ParseCoord(key).value;
  }

  lemma CellProgramMoves(fmt: NumFormat, edit: Edit, cells: Cells, keys: seq<string>, c: CellCoord)
    requires Insertion(edit) && Movable(fmt, edit, cells, keys) && InBounds(c)
    ensures var p, q := ProgramOf(fmt, cells), ProgramOf(fmt, MovedCells(fmt, edit, cells, keys));
            && (Label(c) in p <==> Label(Shift(edit, c)) in q)
            && (Label(c) in p ==> q[Label(Shift(edit, c))] == MovedDef(edit, p[Label(c)]))
            && (Label(c) in keys ==> Label(Shift(edit, c)) in MovedKeys(edit, cells, keys))
  {
    hide Label, ShiftLabel, MovedCell, DefOf, Portable, CanonicalLabel, InBand, MovedDef, ParseCoord;
    var moved := MovedCells(fmt, edit, cells, keys);
    var target := Label(Shift(edit, c));
    if Label(c) in cells {
      LabelParses(c);
      var c0 := CanonicalShift(edit, Label(c));
      forall k | k in keys && Survives(edit, cells, k) && ShiftLabel(edit, k) == Some(target)
        ensures k == Label(c)
      {
        SameShift(edit, k, c);
      }
      KeyMoves(fmt, edit, cells, keys, Label(c));
      CellDefMoves(fmt, edit, cells[Label(c)]);
    }
    if target in moved {
      var k := OnlyKeysMove(fmt, edit, cells, keys, target);
      SameShift(edit, k, c);
    }
  }

  lemma SameShift(edit: Edit, key: string, c: CellCoord)
    requires Insertion(edit) && CanonicalLabel(key) && InBounds(c)
    requires ShiftLabel(edit, key) == Some(Label(Shift(edit, c)))
    ensures key == Label(c)
  {
    hide Label, ShiftLabel, CanonicalLabel, InBand, ParseCoord;
    var d := CanonicalShift(edit, key);
    LabelInjective(Shift(edit, d), Shift(edit, c));
    ShiftInjective(edit, c, d);
  }

  lemma BandIsBlank(fmt: NumFormat, edit: Edit, cells: Cells, keys: seq<string>, d: CellCoord)
    requires Insertion(edit) && Movable(fmt, edit, cells, keys) && InBounds(d) && InBand(edit, d)
    ensures Label(d) !in MovedCells(fmt, edit, cells, keys)
  {
    hide Label, ShiftLabel, MovedCell, Portable, CanonicalLabel, InBand, ParseCoord;
    if Label(d) in MovedCells(fmt, edit, cells, keys) {
      var k := OnlyKeysMove(fmt, edit, cells, keys, Label(d));
      var c := CanonicalShift(edit, k);
      LabelInjective(Shift(edit, c), d);
    }
  }

  lemma SheetProgramMoves(fmt: NumFormat, edit: Edit, cells: Cells, keys: seq<string>)
    requires Insertion(edit) && Movable(fmt, edit, cells, keys)
    ensures MovedProgram(edit, ProgramOf(fmt, cells), ProgramOf(fmt, MovedCells(fmt, edit, cells, keys)))
    ensures AllFollow(edit, ProgramOf(fmt, cells))
  {
    hide Label, MovedCells, DefOf, Portable, CanonicalLabel, InBand, MovedDef, MovedKeys, Follows;
    forall c: CellCoord | InBounds(c)
      ensures var p, q := ProgramOf(fmt, cells), ProgramOf(fmt, MovedCells(fmt, edit, cells, keys));
              && (Label(c) in p <==> Label(Shift(edit, c)) in q)
              && (Label(c) in p ==> q[Label(Shift(edit, c))] == MovedDef(edit, p[Label(c)]))
    {
      CellProgramMoves(fmt, edit, cells, keys, c);
    }
    forall d: CellCoord | InBounds(d) && InBand(edit, d)
      ensures Label(d) !in ProgramOf(fmt, MovedCells(fmt, edit, cells, keys))
    {
      BandIsBlank(fmt, edit, cells, keys, d);
    }
    forall k | k in cells && DefOf(fmt, cells[k]).Computed?
      ensures Follows(edit, DefOf(fmt, cells[k]).e)
    {
      CellDefMoves(fmt, edit, cells[k]);
    }
  }

  // ----- Inserting and deleting again -----

  // A cell whose formula is written the way the printer writes it.
  function Reprinted(fmt: NumFormat, cell: SheetCell): SheetCell {
    if cell.formula == "" then cell
    else
      match FormulaParser.ParseExpression(fmt, cell.formula)
      case Formula(e) => cell.(formula := "=" + Print(fmt, e))
      case _ => cell
  }

  predicate CellRestorable(fmt: NumFormat, edit: Edit, cell: SheetCell) {
    cell.formula != "" ==>
      match FormulaParser.ParseExpression(fmt, cell.formula)
      case Formula(e) => NumbersRead(fmt, e) && Reparses(fmt, Rewrite(edit, e)) && AllRestorable(e)
      case _ => true
  }

  lemma CellRestored(fmt: NumFormat, edit: Edit, cell: SheetCell)
    requires Insertion(edit) && CellRestorable(fmt, edit, cell)
    ensures MovedCell(fmt, edit.Undo(), MovedCell(fmt, edit, cell)) == Reprinted(fmt, cell)
  {
    hide Reparses, NumbersRead, AllRestorable, Print, Rewrite, FormulaParser.ParseExpression;
    if cell.formula != "" && FormulaParser.ParseExpression(fmt, cell.formula).Formula? {
      StoredFormula(fmt, edit, cell.formula);
      ExpressionRestored(edit, FormulaParser.ParseExpression(fmt, cell.formula).expr);
    }
  }

  lemma KeyRestored(edit: Edit, key: string)
    requires Insertion(edit) && CanonicalLabel(key)
    ensures ShiftLabel(edit, key).Some?
    ensures CanonicalLabel(ShiftLabel(edit, key).value)
    ensures ShiftLabel(edit.Undo(), ShiftLabel(edit, key).value) == Some(key)
  {
    hide ParseCoord, Label, CanonicalLabel, InBand;
    var c := CanonicalShift(edit, key);
    LabelParses(Shift(edit, c));
    PositionRestored(edit, c);
  }

  lemma RegularIsDistinct(cells: Cells, keys: seq<string>)
    requires Regular(cells, keys)
    ensures DistinctCoords(keys)
    ensures forall k :: k in keys ==> k in cells && ParseCoord(k).Some? && InBounds(ParseCoord(k).value)
  {
    hide ParseCoord, Label, CanonicalLabel;
    forall k | k in keys
      ensures ParseCoord(k).Some? && InBounds(ParseCoord(k).value) && Label(ParseCoord(k).value) == k
    {
      CanonicalLabelParses(k);
    }
    forall i, j | 0 <= i < j < |keys|
      ensures ParseCoord(keys[i]) != ParseCoord(keys[j])
    {
      assert keys[i] in keys && keys[j] in keys;
    }
  }

  // What an insertion does to a regular sheet.
  lemma RegularInserted(fmt: NumFormat, edit: Edit, cells: Cells, keys: seq<string>)
    requires Insertion(edit) && Regular(cells, keys)
    ensures var moved, labels := MovedCells(fmt, edit, cells, keys), MovedKeys(edit, cells, keys);
            && Regular(moved, labels) && |labels| == |keys|
            && (forall i :: 0 <= i < |keys| ==>
                  && keys[i] in cells && labels[i] in moved
                  && ShiftLabel(edit, keys[i]) == Some(labels[i])
                  && moved[labels[i]] == MovedCell(fmt, edit, cells[keys[i]])
                  && ShiftLabel(edit.Undo(), labels[i]) == Some(keys[i]))
  {
    hide ParseCoord, CanonicalLabel, ShiftLabel, MovedCell, MovedCells, MovedKeys, Survivors, InBounds;
    var labels := MovedKeys(edit, cells, keys);
    RegularIsDistinct(cells, keys);
    InsertKeepsAll(edit, cells, keys);
    CellsConserved(fmt, edit, cells, keys);
    hide DistinctCoords;
    forall i | 0 <= i < |keys|
      ensures ShiftLabel(edit, keys[i]) == Some(labels[i])
      ensures ShiftLabel(edit.Undo(), labels[i]) == Some(keys[i]) && CanonicalLabel(labels[i])
    {
      assert keys[i] in keys;
      KeyRestored(edit, keys[i]);
    }
  }

  lemma {:induction false} AllSurvive(edit: Edit, cells: Cells, keys: seq<string>)
    requires forall k :: k in keys ==> Survives(edit, cells, k)
    ensures Survivors(edit, cells, keys) == keys
  {
    hide Survives;
    if keys != [] {
      AllSurvive(edit, cells, keys[..|keys| - 1]);
    }
  }

  // What deleting the inserted band does to what the insertion left.
  lemma BandDeleted(fmt: NumFormat, edit: Edit, cells: Cells, keys: seq<string>)
    requires Insertion(edit) && Regular(cells, keys)
    ensures var moved, labels := MovedCells(fmt, edit, cells, keys), MovedKeys(edit, cells, keys);
            var back := MovedCells(fmt, edit.Undo(), moved, labels);
            && MovedKeys(edit.Undo(), moved, labels) == keys
            && back.Keys == (set k | k in keys)
            && (forall i :: 0 <= i < |keys| ==>
                  && keys[i] in cells && keys[i] in back
                  && back[keys[i]] == MovedCell(fmt, edit.Undo(), MovedCell(fmt, edit, cells[keys[i]])))
  {
    hide *;
    UndoCount(edit);
    var moved, labels := MovedCells(fmt, edit, cells, keys), MovedKeys(edit, cells, keys);
    RegularInserted(fmt, edit, cells, keys);
    RegularIsDistinct(moved, labels);
    LabelsSurvive(edit.Undo(), moved, labels, keys);
    CellsConserved(fmt, edit.Undo(), moved, labels);
    assert MovedKeys(edit.Undo(), moved, labels) == keys;
  }

  lemma UndoCount(edit: Edit)
    requires Insertion(edit)
    ensures edit.Inserts() && edit.Undo().count >= 0
  {
  }

  lemma LabelsSurvive(undo: Edit, moved: Cells, labels: seq<string>, keys: seq<string>)
    requires |labels| == |keys|
    requires forall i :: 0 <= i < |keys| ==> labels[i] in moved && ShiftLabel(undo, labels[i]) == Some(keys[i])
    ensures Survivors(undo, moved, labels) == labels
  {
    hide ShiftLabel, Survivors;
    AllSurvive(undo, moved, labels);
  }

  // Deleting the band that was inserted gives back every key, in order, with its own cell; the
  // formulas are the original ones as the printer writes them.
  lemma SheetRestored(fmt: NumFormat, edit: Edit, cells: Cells, keys: seq<string>)
    requires Insertion(edit) && Regular(cells, keys)
    requires forall k :: k in cells ==> CellRestorable(fmt, edit, cells[k])
    ensures var moved, labels := MovedCells(fmt, edit, cells, keys), MovedKeys(edit, cells, keys);
            && MovedKeys(edit.Undo(), moved, labels) == keys
            && MovedCells(fmt, edit.Undo(), moved, labels) == map k | k in cells :: Reprinted(fmt, cells[k])
  {
    hide CanonicalLabel, MovedCell, MovedCells, MovedKeys, CellRestorable, Reprinted;
    BandDeleted(fmt, edit, cells, keys);
    forall k | k in cells
      ensures MovedCell(fmt, edit.Undo(), MovedCell(fmt, edit, cells[k])) == Reprinted(fmt, cells[k])
    {
      CellRestored(fmt, edit, cells[k]);
    }
  }
}
