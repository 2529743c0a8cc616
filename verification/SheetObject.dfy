/** The sheet object: recalculation and structural edits, in place. */
module SheetObject {
  import opened Text
  import opened FormulaSyntax
  import opened FormulaEval
  import opened Recalc
  import opened RecalcSound
  import opened StructuralEdit
  import opened SheetEdit
  import FormulaParser

  const DEFAULT_ROWS := 1000
  const DEFAULT_COLS := 100

  class Sheet {
    // The keys in the order in which the object lists them.
    var keys: seq<string>
    var cells: Cells
    var rowCount: Option<int>
    var colCount: Option<int>

    // One pass of the loop body up to the assignment of the value.
    method EvaluateCell(h: Host, fmt: NumFormat, key: string, memo: Memo) returns (r: Result<Option<CellValue>>)
      ensures r == Outcome(h, ProgramOf(fmt, cells), key, memo)
    {
      hide Evaluate, FormulaParser.ParseExpression;
      if key !in cells || cells[key].formula == "" {
        return Result(None, memo);
      }
      match FormulaParser.ParseExpression(fmt, cells[key].formula) {
        case SyntaxError => r := Result(Some(SYNTAX_ERROR), memo);
        case NotAFormula => r := Result(None, memo);
        case Formula(e) =>
          if IsAIFormula(e) {
            return Result(None, memo);
          }
          var v := Evaluate(h, ProgramOf(fmt, cells), e, {}, memo);
          r := Result(Some(v.value), v.memo);
      }
    }

    // `fmt` and `h` are the host; the memo lives for one recalculation.
    method RecalcSheet(h: Host, fmt: NumFormat)
      modifies `cells
      ensures cells == Recalculated(h, fmt, old(cells), keys)
    {
      var memo: Memo := map[];
      ghost var p := ProgramOf(fmt, cells);
      ghost var written: map<string, CellValue> := map[];
      NothingWritten(h, p, cells, keys);
      assert Recalculated(h, fmt, cells, keys) == WithValues(cells, Outcomes(h, p, keys, map[]));
      hide *;
      for i := 0 to |keys|
        invariant cells == WithValues(old(cells), written)
        invariant ProgramOf(fmt, cells) == p
        invariant written + Outcomes(h, p, keys[i..], memo) == Outcomes(h, p, keys, map[])
      {
        var key := Normalize(keys[i]);
        ghost var before := memo;
        var r := EvaluateCell(h, fmt, key, memo);
        memo := r.memo;
        OutcomesStep(h, p, keys, i, before, written);
        if r.value.Some? {
          OutcomeIsFormula(h, fmt, cells, key, r);
          WriteOne(fmt, old(cells), cells, written, key, r.value.value);
          cells := cells[key := cells[key].(value := r.value.value)];
        }
        WrittenIs(written, key, r.value);
        written := written + Written(key, r.value);
      }
      NothingLeft(h, p, keys, memo, written);
    }

    // `structuralEdit` up to the storing of the document.
    method StructuralEdit(h: Host, fmt: NumFormat, edit: Edit)
      modifies this
      ensures keys == MovedKeys(edit, old(cells), old(keys))
      ensures cells == Recalculated(h, fmt, MovedCells(fmt, edit, old(cells), old(keys)), keys)
      ensures edit.kind == InsertRows ==> rowCount == Some((if old(rowCount).Some? then old(rowCount).value else 1000) + edit.count)
      ensures edit.kind == DeleteRows ==> rowCount == Some((if old(rowCount).Some? then old(rowCount).value else 1000) - edit.count)
      ensures edit.kind == InsertCols ==> colCount == Some((if old(colCount).Some? then old(colCount).value else 100) + edit.count)
      ensures edit.kind == DeleteCols ==> colCount == Some((if old(colCount).Some? then old(colCount).value else 100) - edit.count)
      ensures if edit.kind in {InsertRows, DeleteRows} then colCount == old(colCount) else rowCount == old(rowCount)
    {
      hide MovedCell, ShiftLabel, Recalculated;
      var nextKeys: seq<string>, nextCells: Cells := [], map[];
      for i := 0 to |keys|
        invariant unchanged(this)
        invariant nextKeys == MovedKeys(edit, cells, keys[..i])
        invariant nextCells == MovedCells(fmt, edit, cells, keys[..i])
      {
        assert keys[..i + 1][..i] == keys[..i];
        var coord := keys[i];
        if coord in cells {
          var newCoord := ShiftLabel(edit, coord);
          if newCoord.Some? {
            if newCoord.value !in nextKeys {
              nextKeys := nextKeys + [newCoord.value];
            }
            nextCells := nextCells[newCoord.value := MovedCell(fmt, edit, cells[coord])];
          }
        }
      }
      assert keys[..|keys|] == keys;
      keys, cells := nextKeys, nextCells;
      if edit.OnRows() {
        var current := if rowCount.Some? then rowCount.value else DEFAULT_ROWS;
        rowCount := Some(if edit.kind == InsertRows then current + edit.count else current - edit.count);
      } else {
        var current := if colCount.Some? then colCount.value else DEFAULT_COLS;
        colCount := Some(if edit.kind == InsertCols then current + edit.count else current - edit.count);
      }
      RecalcSheet(h, fmt);
    }
  }

  lemma NothingWritten(h: Host, p: Program, cells: Cells, keys: seq<string>)
    ensures WithValues(cells, map[]) == cells
    ensures map[] + Outcomes(h, p, keys[0..], map[]) == Outcomes(h, p, keys, map[])
  {
    hide Outcomes;
    assert keys[0..] == keys;
  }

  lemma NothingLeft(h: Host, p: Program, keys: seq<string>, memo: Memo, written: map<string, CellValue>)
    ensures written + Outcomes(h, p, keys[|keys|..], memo) == written
  {
    assert keys[|keys|..] == [];
    assert written + map[] == written;
  }

  lemma WrittenIs(written: map<string, CellValue>, key: string, v: Option<CellValue>)
    ensures written + Written(key, v) == if v.Some? then written[key := v.value] else written
  {
  }

  lemma OutcomesStep(h: Host, p: Program, keys: seq<string>, i: nat, memo: Memo, written: map<string, CellValue>)
    requires i < |keys|
    ensures var key := Normalize(keys[i]);
            var r := Outcome(h, p, key, memo);
            written + Outcomes(h, p, keys[i..], memo) ==
            (written + Written(key, r.value)) + Outcomes(h, p, keys[i + 1..], r.memo)
  {
    hide Outcome, Normalize, Written;
    assert keys[i..][1..] == keys[i + 1..];
  }

  lemma OutcomeIsFormula(h: Host, fmt: NumFormat, cells: map<string, SheetCell>, key: string, r: Result<Option<CellValue>>)
    requires exists memo :: r == Outcome(h, ProgramOf(fmt, cells), key, memo)
    requires r.value.Some?
    ensures key in cells && cells[key].formula != ""
  {
    hide Evaluate, FormulaParser.ParseExpression;
  }

  lemma WriteOne(fmt: NumFormat, start: map<string, SheetCell>, before: map<string, SheetCell>,
                 written: map<string, CellValue>, key: string, v: CellValue)
    requires before == WithValues(start, written) && key in before && before[key].formula != ""
    ensures before[key := before[key].(value := v)] == WithValues(start, written[key := v])
    ensures ProgramOf(fmt, before[key := before[key].(value := v)]) == ProgramOf(fmt, before)
  {
    hide FormulaParser.ParseExpression;
    assert before[key := before[key].(value := v)] == WithValues(before, map[key := v]);
    ProgramKept(fmt, before, map[key := v]);
  }
}
