/**
  The memoised evaluation gives every cell whose plain recursion ends exactly the value of that
  recursion, whatever was evaluated before it and whichever cells are being visited.
 */
module RecalcSound {
  import opened Text
  import opened FormulaSyntax
  import opened FormulaEval
  import opened Recalc
  import FormulaParser

  // ----- Invariants -----

  // A memo entry of a cell whose recursion ends is its meaning.
  ghost predicate MemoOk(h: Host, p: Program, memo: Memo) {
    forall k, n: nat :: k in memo && Meaning(h, p, k, n).Some? ==> Meaning(h, p, k, n).value == memo[k]
  }

  // Some cell being visited ends within depth m + 1, so what it consults must end within m.
  ghost predicate Demanded(h: Host, p: Program, visiting: set<string>, m: nat) {
    exists w :: w in visiting && Meaning(h, p, w, m + 1).Some?
  }

  ghost predicate NeedsKey(h: Host, p: Program, visiting: set<string>, key: string) {
    forall m: nat :: Demanded(h, p, visiting, m) ==> Meaning(h, p, key, m).Some?
  }

  ghost predicate NeedsExpr(h: Host, p: Program, visiting: set<string>, e: Expr) {
    forall m: nat :: Demanded(h, p, visiting, m) ==> Eval(h, e, At(h, p, m)).Some?
  }

  ghost predicate NeedsCall(h: Host, p: Program, visiting: set<string>, name: string, args: seq<Expr>) {
    forall m: nat :: Demanded(h, p, visiting, m) ==> EvalCall(h, name, args, At(h, p, m)).Some?
  }

  ghost predicate NeedsArgs(h: Host, p: Program, visiting: set<string>, args: seq<Expr>) {
    forall m: nat :: Demanded(h, p, visiting, m) ==> EvalArgs(h, args, At(h, p, m)).Some?
  }

  ghost predicate NeedsLabels(h: Host, p: Program, visiting: set<string>, labels: seq<string>) {
    forall m: nat :: Demanded(h, p, visiting, m) ==> ResolveAll(At(h, p, m), labels).Some?
  }

  // Whenever the plain recursion ends, this is its value.
  ghost predicate IsMeaning(h: Host, p: Program, key: string, v: CellValue) {
    forall m: nat :: Meaning(h, p, key, m).Some? ==> Meaning(h, p, key, m).value == v
  }

  ghost predicate IsValue(h: Host, p: Program, e: Expr, v: CellValue) {
    forall m: nat :: Eval(h, e, At(h, p, m)).Some? ==> Eval(h, e, At(h, p, m)).value == v
  }

  ghost predicate IsCall(h: Host, p: Program, name: string, args: seq<Expr>, v: CellValue) {
    forall m: nat :: EvalCall(h, name, args, At(h, p, m)).Some? ==> EvalCall(h, name, args, At(h, p, m)).value == v
  }

  ghost predicate AreValues(h: Host, p: Program, args: seq<Expr>, vs: seq<CellValue>) {
    forall m: nat :: EvalArgs(h, args, At(h, p, m)).Some? ==> EvalArgs(h, args, At(h, p, m)).value == vs
  }

  ghost predicate AreLabels(h: Host, p: Program, labels: seq<string>, vs: seq<CellValue>) {
    forall m: nat :: ResolveAll(At(h, p, m), labels).Some? ==> ResolveAll(At(h, p, m), labels).value == vs
  }

  lemma AtIs(h: Host, p: Program, m: nat, coord: string)
    ensures At(h, p, m)(coord) == Meaning(h, p, Normalize(coord), m)
  {
    hide Meaning;
  }

  // ----- One cell -----

  // A cell that is met again while it is being visited never comes to an end.
  lemma {:induction false} RevisitedNeverEnds(h: Host, p: Program, key: string, visiting: set<string>, n: nat)
    requires key in visiting && NeedsKey(h, p, visiting, key)
    ensures Meaning(h, p, key, n).None?
    decreases n
  {
    hide Eval, At;
    if n > 0 {
      RevisitedNeverEnds(h, p, key, visiting, n - 1);
      hide Meaning;
      assert Meaning(h, p, key, n).Some? ==> Demanded(h, p, visiting, n - 1);
    }
  }

  // What a visited cell's formula owes to the cells being visited, itself included.
  lemma FormulaNeeds(h: Host, p: Program, key: string, visiting: set<string>)
    requires key in p && p[key].Computed? && NeedsKey(h, p, visiting, key)
    ensures NeedsExpr(h, p, visiting + {key}, p[key].e)
  {
    hide Meaning, Demanded, At, Eval, NeedsKey;
    forall m: nat | Demanded(h, p, visiting + {key}, m)
      ensures Eval(h, p[key].e, At(h, p, m)).Some?
    {
      FormulaEnds(h, p, key, visiting, m);
      OneLevel(h, p, key, m);
    }
  }

  lemma FormulaEnds(h: Host, p: Program, key: string, visiting: set<string>, m: nat)
    requires Demanded(h, p, visiting + {key}, m) && NeedsKey(h, p, visiting, key)
    ensures Meaning(h, p, key, m + 1).Some?
  {
    if Meaning(h, p, key, m + 1).None? {
      VisitedElsewhere(h, p, key, visiting, m);
      MeaningStable(h, p, key, m, m + 1);
    }
  }

  lemma VisitedElsewhere(h: Host, p: Program, key: string, visiting: set<string>, m: nat)
    requires Demanded(h, p, visiting + {key}, m) && Meaning(h, p, key, m + 1).None?
    requires NeedsKey(h, p, visiting, key)
    ensures Meaning(h, p, key, m).Some?
  {
    hide Meaning;
    assert Demanded(h, p, visiting, m);
  }

  lemma OneLevel(h: Host, p: Program, key: string, m: nat)
    requires key in p && p[key].Computed?
    ensures Meaning(h, p, key, m + 1) == Eval(h, p[key].e, At(h, p, m))
  {
    hide Eval, At;
  }

  lemma FormulaMeans(h: Host, p: Program, key: string, v: CellValue)
    requires key in p && p[key].Computed? && IsValue(h, p, p[key].e, v)
    ensures IsMeaning(h, p, key, v)
  {
    hide Eval, At;
    forall m: nat | Meaning(h, p, key, m).Some?
      ensures Meaning(h, p, key, m).value == v
    {
      if m > 0 {
        OneLevel(h, p, key, m - 1);
      }
    }
  }

  lemma MemoGrows(h: Host, p: Program, memo: Memo, key: string, v: CellValue)
    requires MemoOk(h, p, memo) && IsMeaning(h, p, key, v)
    ensures MemoOk(h, p, memo[key := v])
  {
    hide Meaning;
  }

  lemma {:induction false} ResolveOk(h: Host, p: Program, coord: string, visiting: set<string>, memo: Memo)
    requires MemoOk(h, p, memo) && NeedsKey(h, p, visiting, Normalize(coord))
    ensures MemoOk(h, p, Resolve(h, p, coord, visiting, memo).memo)
    ensures IsMeaning(h, p, Normalize(coord), Resolve(h, p, coord, visiting, memo).value)
    decreases p.Keys - visiting, 0
  {
    var key := Normalize(coord);
    if key in memo {
      MemoHit(h, p, key, memo);
    } else if key in visiting {
      forall n: nat
        ensures Meaning(h, p, key, n).None?
      {
        RevisitedNeverEnds(h, p, key, visiting, n);
      }
      hide Meaning;
    } else if key in p && p[key].Computed? {
      assert key in p.Keys - visiting;
      FormulaNeeds(h, p, key, visiting);
      EvaluateOk(h, p, p[key].e, visiting + {key}, memo);
      hide Evaluate, Meaning;
      var r := Evaluate(h, p, p[key].e, visiting + {key}, memo);
      FormulaMeans(h, p, key, r.value);
      MemoGrows(h, p, r.memo, key, r.value);
    } else {
      PlainCell(h, p, key);
      MemoGrows(h, p, memo, key, PlainValue(p, key));
    }
  }

  lemma MemoHit(h: Host, p: Program, key: string, memo: Memo)
    requires MemoOk(h, p, memo) && key in memo
    ensures IsMeaning(h, p, key, memo[key])
  {
    hide Meaning;
  }

  function PlainValue(p: Program, key: string): CellValue {
    if key in p && p[key].Constant? then p[key].v else Null
  }

  lemma PlainCell(h: Host, p: Program, key: string)
    requires key !in p || !p[key].Computed?
    ensures IsMeaning(h, p, key, PlainValue(p, key))
  {
  }

  lemma {:induction false} LabelsOk(h: Host, p: Program, labels: seq<string>, visiting: set<string>, memo: Memo)
    requires MemoOk(h, p, memo) && NeedsLabels(h, p, visiting, labels)
    ensures MemoOk(h, p, ResolveLabels(h, p, labels, visiting, memo).memo)
    ensures AreLabels(h, p, labels, ResolveLabels(h, p, labels, visiting, memo).value)
    decreases p.Keys - visiting, 1, |labels|
  {
    if labels != [] {
      LabelsNeed(h, p, labels, visiting);
      ResolveOk(h, p, labels[0], visiting, memo);
      var first := Resolve(h, p, labels[0], visiting, memo);
      LabelsOk(h, p, labels[1..], visiting, first.memo);
      hide Resolve;
      var rest := ResolveLabels(h, p, labels[1..], visiting, first.memo);
      LabelsJoin(h, p, labels, first.value, rest.value);
    }
  }

  lemma LabelsNeed(h: Host, p: Program, labels: seq<string>, visiting: set<string>)
    requires labels != [] && NeedsLabels(h, p, visiting, labels)
    ensures NeedsKey(h, p, visiting, Normalize(labels[0]))
    ensures NeedsLabels(h, p, visiting, labels[1..])
  {
    hide Meaning, At, Demanded, Normalize;
    forall m: nat | Demanded(h, p, visiting, m)
      ensures Meaning(h, p, Normalize(labels[0]), m).Some? && ResolveAll(At(h, p, m), labels[1..]).Some?
    {
      AtIs(h, p, m, labels[0]);
      assert ResolveAll(At(h, p, m), labels).Some?;
    }
  }

  lemma LabelsJoin(h: Host, p: Program, labels: seq<string>, v: CellValue, vs: seq<CellValue>)
    requires labels != [] && IsMeaning(h, p, Normalize(labels[0]), v) && AreLabels(h, p, labels[1..], vs)
    ensures AreLabels(h, p, labels, [v] + vs)
  {
    hide Meaning, At, Normalize;
    forall m: nat | ResolveAll(At(h, p, m), labels).Some?
      ensures ResolveAll(At(h, p, m), labels).value == [v] + vs
    {
      AtIs(h, p, m, labels[0]);
    }
  }

  // ----- Expressions -----

  lemma {:induction false} EvaluateOk(h: Host, p: Program, e: Expr, visiting: set<string>, memo: Memo)
    requires MemoOk(h, p, memo) && NeedsExpr(h, p, visiting, e)
    ensures MemoOk(h, p, Evaluate(h, p, e, visiting, memo).memo)
    ensures IsValue(h, p, e, Evaluate(h, p, e, visiting, memo).value)
    decreases p.Keys - visiting, 2, e, 1
  {
    hide MemoOk, Demanded, Meaning, At, BinaryOp, UnaryOp, PercentOp, EvalRange, RangeLabels;
    match e
    case Cell(ref) =>
      CellNeeds(h, p, e, visiting);
      ResolveOk(h, p, ref.coord, visiting, memo);
      hide Resolve;
      CellValueIs(h, p, e, Resolve(h, p, ref.coord, visiting, memo).value);
    case Range(start, end) => RangeOk(h, p, e, visiting, memo);
    case Unary(_, x) => EvaluateOk(h, p, x, visiting, memo);
    case Percent(x) => EvaluateOk(h, p, x, visiting, memo);
    case Binary(_, left, right) => BinaryOk(h, p, e, visiting, memo);
    case Func(name, args) =>
      CallOk(h, p, name, args, visiting, memo);
      hide EvaluateCall, EvalCall;
    case Num(_) =>
    case Str(_) =>
    case Bool(_) =>
  }

  lemma RangeIs(e: Expr, r: Resolver)
    requires e.Range?
    ensures EvalRange(r, e.start, e.end) == ResolveAll(r, RangeLabels(e))
  {
  }

  lemma {:induction false} RangeOk(h: Host, p: Program, e: Expr, visiting: set<string>, memo: Memo)
    requires e.Range? && MemoOk(h, p, memo) && NeedsExpr(h, p, visiting, e)
    ensures MemoOk(h, p, Evaluate(h, p, e, visiting, memo).memo)
    ensures IsValue(h, p, e, Evaluate(h, p, e, visiting, memo).value)
    decreases p.Keys - visiting, 2, e, 0
  {
    hide MemoOk, Demanded, Meaning, At, ResolveAll, ResolveLabels, EvalRange, RangeLabels;
    forall r: Resolver
      ensures EvalRange(r, e.start, e.end) == ResolveAll(r, RangeLabels(e))
    {
      RangeIs(e, r);
    }
    LabelsOk(h, p, RangeLabels(e), visiting, memo);
  }

  lemma {:induction false} BinaryOk(h: Host, p: Program, e: Expr, visiting: set<string>, memo: Memo)
    requires e.Binary? && MemoOk(h, p, memo) && NeedsExpr(h, p, visiting, e)
    ensures MemoOk(h, p, Evaluate(h, p, e, visiting, memo).memo)
    ensures IsValue(h, p, e, Evaluate(h, p, e, visiting, memo).value)
    decreases p.Keys - visiting, 2, e, 0
  {
    hide MemoOk, Demanded, Meaning, At, BinaryOp, EvalRange, RangeLabels;
    EvaluateOk(h, p, e.left, visiting, memo);
    EvaluateOk(h, p, e.right, visiting, Evaluate(h, p, e.left, visiting, memo).memo);
  }

  lemma CellNeeds(h: Host, p: Program, e: Expr, visiting: set<string>)
    requires e.Cell? && NeedsExpr(h, p, visiting, e)
    ensures NeedsKey(h, p, visiting, Normalize(e.ref.coord))
  {
    hide Meaning, At, Demanded, Normalize;
    forall m: nat | Demanded(h, p, visiting, m)
      ensures Meaning(h, p, Normalize(e.ref.coord), m).Some?
    {
      AtIs(h, p, m, e.ref.coord);
      assert Eval(h, e, At(h, p, m)).Some?;
    }
  }

  lemma CellValueIs(h: Host, p: Program, e: Expr, v: CellValue)
    requires e.Cell? && IsMeaning(h, p, Normalize(e.ref.coord), v)
    ensures IsValue(h, p, e, v)
  {
    hide Meaning, At, Normalize;
    forall m: nat | Eval(h, e, At(h, p, m)).Some?
      ensures Eval(h, e, At(h, p, m)).value == v
    {
      AtIs(h, p, m, e.ref.coord);
    }
  }

  lemma {:induction false} CallOk(h: Host, p: Program, name: string, args: seq<Expr>, visiting: set<string>, memo: Memo)
    requires MemoOk(h, p, memo) && NeedsCall(h, p, visiting, name, args)
    ensures MemoOk(h, p, EvaluateCall(h, p, name, args, visiting, memo).memo)
    ensures IsCall(h, p, name, args, EvaluateCall(h, p, name, args, visiting, memo).value)
    decreases p.Keys - visiting, 2, args, 2
  {
    hide MemoOk, Demanded, Meaning, At, ListCall, UnaryCall, ModCall, RoundCall, ToBoolean, ToNumber, Eval, Evaluate;
    if name == "IF" {
      IfOk(h, p, args, visiting, memo);
    } else if name == "ROUND" {
      RoundOk(h, p, args, visiting, memo);
    } else if name == "MOD" {
      if |args| == 2 {
        EvaluateOk(h, p, args[0], visiting, memo);
        EvaluateOk(h, p, args[1], visiting, Evaluate(h, p, args[0], visiting, memo).memo);
      }
    } else if name in UNARY_FUNCTIONS && name != "AI" {
      if |args| == 1 {
        EvaluateOk(h, p, args[0], visiting, memo);
      }
    } else if name in LIST_FUNCTIONS && name != "AI" {
      ArgsOk(h, p, args, visiting, memo);
    }
  }

  lemma {:induction false} IfOk(h: Host, p: Program, args: seq<Expr>, visiting: set<string>, memo: Memo)
    requires MemoOk(h, p, memo) && NeedsCall(h, p, visiting, "IF", args)
    ensures MemoOk(h, p, EvaluateCall(h, p, "IF", args, visiting, memo).memo)
    ensures IsCall(h, p, "IF", args, EvaluateCall(h, p, "IF", args, visiting, memo).value)
    decreases p.Keys - visiting, 2, args, 1
  {
    hide MemoOk, Demanded, Meaning, At, ToBoolean, Eval, Evaluate;
    if 2 <= |args| <= 3 {
      assert NeedsExpr(h, p, visiting, args[0]);
      EvaluateOk(h, p, args[0], visiting, memo);
      var cond := Evaluate(h, p, args[0], visiting, memo);
      if ToBoolean(h, cond.value) {
        assert NeedsExpr(h, p, visiting, args[1]);
        EvaluateOk(h, p, args[1], visiting, cond.memo);
      } else if |args| == 3 {
        assert NeedsExpr(h, p, visiting, args[2]);
        EvaluateOk(h, p, args[2], visiting, cond.memo);
      }
    }
  }

  lemma {:induction false} RoundOk(h: Host, p: Program, args: seq<Expr>, visiting: set<string>, memo: Memo)
    requires MemoOk(h, p, memo) && NeedsCall(h, p, visiting, "ROUND", args)
    ensures MemoOk(h, p, EvaluateCall(h, p, "ROUND", args, visiting, memo).memo)
    ensures IsCall(h, p, "ROUND", args, EvaluateCall(h, p, "ROUND", args, visiting, memo).value)
    decreases p.Keys - visiting, 2, args, 1
  {
    hide MemoOk, Demanded, Meaning, At, ToNumber, RoundCall, Eval, Evaluate;
    if 1 <= |args| <= 2 {
      assert NeedsExpr(h, p, visiting, args[0]);
      EvaluateOk(h, p, args[0], visiting, memo);
      var v := Evaluate(h, p, args[0], visiting, memo);
      if ToNumber(h, v.value).Some? && |args| == 2 {
        assert NeedsExpr(h, p, visiting, args[1]);
        EvaluateOk(h, p, args[1], visiting, v.memo);
      }
    }
  }

  lemma {:induction false} ArgsOk(h: Host, p: Program, args: seq<Expr>, visiting: set<string>, memo: Memo)
    requires MemoOk(h, p, memo) && NeedsArgs(h, p, visiting, args)
    ensures MemoOk(h, p, EvaluateArgs(h, p, args, visiting, memo).memo)
    ensures AreValues(h, p, args, EvaluateArgs(h, p, args, visiting, memo).value)
    decreases p.Keys - visiting, 2, args, 1
  {
    hide MemoOk, Demanded, Meaning, At, EvalRange, RangeLabels, ResolveAll, ResolveLabels, Evaluate, Eval;
    if args != [] {
      var arg := args[0];
      if arg.Range? {
        forall r: Resolver
          ensures EvalRange(r, arg.start, arg.end) == ResolveAll(r, RangeLabels(arg))
        {
          RangeIs(arg, r);
        }
        LabelsOk(h, p, RangeLabels(arg), visiting, memo);
      } else {
        EvaluateOk(h, p, arg, visiting, memo);
      }
      ArgsOk(h, p, args[1..], visiting, EvaluateArg(h, p, arg, visiting, memo).memo);
    }
  }

  // ----- The whole sheet -----

  // What `recalcSheet` writes into one cell, if anything, and the memo it leaves.
  function Outcome(h: Host, p: Program, key: string, memo: Memo): Result<Option<CellValue>> {
    if key !in p then Result(None, memo)
    else
      match p[key]
      case Computed(e) =>
        var r := Evaluate(h, p, e, {}, memo);
        Result(Some(r.value), r.memo)
      case Broken => Result(Some(SYNTAX_ERROR), memo)
      case _ => Result(None, memo)
  }

  function Written(key: string, v: Option<CellValue>): map<string, CellValue> {
    if v.None? then map[] else map[key := v.value]
  }

  // The values written for the keys in the order they are visited.
  function Outcomes(h: Host, p: Program, keys: seq<string>, memo: Memo): map<string, CellValue> {
    if keys == [] then map[]
    else
      var key := Normalize(keys[0]);
      var r := Outcome(h, p, key, memo);
      Written(key, r.value) + Outcomes(h, p, keys[1..], r.memo)
  }

  function WithValues(cells: map<string, SheetCell>, values: map<string, CellValue>): map<string, SheetCell> {
    map k | k in cells :: if k in values then cells[k].(value := values[k]) else cells[k]
  }

  // The sheet after a recalculation that visits the keys in this order.
  function Recalculated(h: Host, fmt: NumFormat, cells: map<string, SheetCell>, keys: seq<string>): map<string, SheetCell> {
    WithValues(cells, Outcomes(h, ProgramOf(fmt, cells), keys, map[]))
  }

  lemma {:induction false} OutcomesWriteFormulas(h: Host, p: Program, keys: seq<string>, memo: Memo)
    ensures forall k :: k in Outcomes(h, p, keys, memo) ==> k in p && (p[k].Computed? || p[k].Broken?)
  {
    hide Evaluate, Normalize;
    if keys != [] {
      OutcomesWriteFormulas(h, p, keys[1..], Outcome(h, p, Normalize(keys[0]), memo).memo);
    }
  }

  // A recalculation does not change what the cells contribute.
  lemma ProgramKept(fmt: NumFormat, cells: map<string, SheetCell>, values: map<string, CellValue>)
    requires forall k :: k in values ==> k in cells && cells[k].formula != ""
    ensures ProgramOf(fmt, WithValues(cells, values)) == ProgramOf(fmt, cells)
  {
    hide FormulaParser.ParseExpression;
    var a, b := ProgramOf(fmt, WithValues(cells, values)), ProgramOf(fmt, cells);
    assert a.Keys == b.Keys;
    assert forall k :: k in b ==> a[k] == b[k];
  }

  // Recalculating twice in the same order changes nothing, cyclic cells included.
  lemma RecalculateTwice(h: Host, fmt: NumFormat, cells: map<string, SheetCell>, keys: seq<string>)
    ensures var once := Recalculated(h, fmt, cells, keys);
            Recalculated(h, fmt, once, keys) == once
  {
    var p := ProgramOf(fmt, cells);
    var values := Outcomes(h, p, keys, map[]);
    OutcomesWriteFormulas(h, p, keys, map[]);
    assert forall k :: k in values ==> k in cells && cells[k].formula != "" by {
      hide Outcomes, FormulaParser.ParseExpression;
    }
    ProgramKept(fmt, cells, values);
    WriteTwice(cells, values);
  }

  lemma WriteTwice(cells: map<string, SheetCell>, values: map<string, CellValue>)
    ensures WithValues(WithValues(cells, values), values) == WithValues(cells, values)
  {
  }

  lemma NothingNeeded(h: Host, p: Program, e: Expr)
    ensures NeedsExpr(h, p, {}, e)
  {
  }

  lemma {:induction false} OutcomesAreMeanings(h: Host, p: Program, keys: seq<string>, memo: Memo, key: string)
    requires MemoOk(h, p, memo) && key in Outcomes(h, p, keys, memo) && key in p && p[key].Computed?
    ensures IsMeaning(h, p, key, Outcomes(h, p, keys, memo)[key])
  {
    hide Evaluate, Normalize, MemoOk, IsMeaning;
    var first := Normalize(keys[0]);
    var r := Outcome(h, p, first, memo);
    OutcomeOk(h, p, first, memo);
    if key in Outcomes(h, p, keys[1..], r.memo) {
      OutcomesAreMeanings(h, p, keys[1..], r.memo, key);
    }
  }

  lemma OutcomeOk(h: Host, p: Program, key: string, memo: Memo)
    requires MemoOk(h, p, memo)
    ensures MemoOk(h, p, Outcome(h, p, key, memo).memo)
    ensures key in p && p[key].Computed? ==>
              Outcome(h, p, key, memo).value.Some? && IsMeaning(h, p, key, Outcome(h, p, key, memo).value.value)
  {
    hide Evaluate, MemoOk, IsMeaning, IsValue, NeedsExpr;
    if key in p && p[key].Computed? {
      NothingNeeded(h, p, p[key].e);
      EvaluateOk(h, p, p[key].e, {}, memo);
      FormulaMeans(h, p, key, Outcome(h, p, key, memo).value.value);
    }
  }

  lemma {:induction false} OutcomesCover(h: Host, p: Program, keys: seq<string>, memo: Memo, i: nat)
    requires i < |keys| && Normalize(keys[i]) in p
    requires p[Normalize(keys[i])].Computed? || p[Normalize(keys[i])].Broken?
    ensures Normalize(keys[i]) in Outcomes(h, p, keys, memo)
  {
    hide Evaluate, Normalize;
    if i > 0 {
      OutcomesCover(h, p, keys[1..], Outcome(h, p, Normalize(keys[0]), memo).memo, i - 1);
    }
  }

  // Whatever the order, every listed formula cell whose recursion ends at some depth gets
  // exactly the value of that recursion.
  lemma RecalculatedIsMeaning(h: Host, fmt: NumFormat, cells: map<string, SheetCell>, keys: seq<string>, i: nat, n: nat)
    requires i < |keys|
    requires var key, p := Normalize(keys[i]), ProgramOf(fmt, cells);
             key in p && p[key].Computed? && Meaning(h, p, key, n).Some?
    ensures var key := Normalize(keys[i]);
            Recalculated(h, fmt, cells, keys)[key] ==
            cells[key].(value := Meaning(h, ProgramOf(fmt, cells), key, n).value)
  {
    hide Evaluate, Normalize, Meaning, FormulaParser.ParseExpression;
    var key, p := Normalize(keys[i]), ProgramOf(fmt, cells);
    OutcomesCover(h, p, keys, map[], i);
    OutcomesAreMeanings(h, p, keys, map[], key);
  }

  lemma CellEvaluates(h: Host, p: Program, e: Expr, visiting: set<string>, memo: Memo)
    requires e.Cell?
    ensures Evaluate(h, p, e, visiting, memo) == Resolve(h, p, e.ref.coord, visiting, memo)
  {
    hide Resolve;
  }

  // ----- What a recalculation does to each kind of cell -----

  // No listed key leads to this cell.
  ghost predicate Unlisted(keys: seq<string>, key: string) {
    forall i :: 0 <= i < |keys| ==> Normalize(keys[i]) != key
  }

  lemma {:induction false} OutcomesAreListed(h: Host, p: Program, keys: seq<string>, memo: Memo, key: string)
    requires key in Outcomes(h, p, keys, memo)
    ensures !Unlisted(keys, key)
    ensures key in p && p[key].Broken? ==> Outcomes(h, p, keys, memo)[key] == Text("#SYNTAX!")
  {
    hide Evaluate, Normalize;
    var rest := Outcomes(h, p, keys[1..], Outcome(h, p, Normalize(keys[0]), memo).memo);
    if key in rest {
      OutcomesAreListed(h, p, keys[1..], Outcome(h, p, Normalize(keys[0]), memo).memo, key);
    }
  }

  // Formulas stay as they are. A cell without a formula, with a text that is no formula or with an
  // assistant call is left alone, and so is a cell that is not listed; a listed formula with a syntax
  // error is given the marker.
  lemma RecalculatedCells(h: Host, fmt: NumFormat, cells: map<string, SheetCell>, keys: seq<string>, key: string)
    requires key in cells
    ensures var cell, parsed := Recalculated(h, fmt, cells, keys)[key], FormulaParser.ParseExpression(fmt, cells[key].formula);
            && cell.formula == cells[key].formula
            && (cells[key].formula == "" || parsed.NotAFormula? || Unlisted(keys, key) ==> cell == cells[key])
            && (parsed.Formula? && parsed.expr.Func? && parsed.expr.name == "AI" ==> cell == cells[key])
            && (cells[key].formula != "" && parsed.SyntaxError? && !Unlisted(keys, key) ==> cell.value == Text("#SYNTAX!"))
  {
    hide Evaluate, Normalize, Unlisted, FormulaParser.ParseExpression;
    var p := ProgramOf(fmt, cells);
    var values := Outcomes(h, p, keys, map[]);
    OutcomesWriteFormulas(h, p, keys, map[]);
    if key in values {
      OutcomesAreListed(h, p, keys, map[], key);
    }
    if p[key].Broken? && !Unlisted(keys, key) {
      ListedIsCovered(h, p, keys, key);
    }
  }

  lemma ListedIsCovered(h: Host, p: Program, keys: seq<string>, key: string)
    requires !Unlisted(keys, key) && key in p && p[key].Broken?
    ensures key in Outcomes(h, p, keys, map[])
  {
    hide Normalize, Evaluate;
    var i :| 0 <= i < |keys| && Normalize(keys[i]) == key;
    OutcomesCover(h, p, keys, map[], i);
  }

  // What a reference stands for: nothing where there is no cell, the stored value where there is no
  // formula, the value of the formula where it can be evaluated, and nothing otherwise.
  lemma ReferenceMeans(h: Host, fmt: NumFormat, cells: map<string, SheetCell>, key: string, n: nat)
    requires n > 0
    ensures Meaning(h, ProgramOf(fmt, cells), key, n) ==
            if key !in cells then Some(Null)
            else if cells[key].formula == "" then Some(cells[key].value)
            else
              match FormulaParser.ParseExpression(fmt, cells[key].formula)
              case Formula(e) =>
                if e.Func? && e.name == "AI" then Some(Null) else Eval(h, e, At(h, ProgramOf(fmt, cells), n - 1))
              case _ => Some(Null)
  {
    hide Meaning, At, Eval, DefOf, FormulaParser.ParseExpression;
    MeaningStep(h, ProgramOf(fmt, cells), key, n);
    if key in cells {
      DefMeans(fmt, cells, key);
    }
  }

  lemma SpellingMeans(h: Host, p: Program, coord: string, n: nat)
    ensures At(h, p, n)(coord) == Meaning(h, p, ToUpper(Trim(coord)), n)
  {
    hide Meaning, ToUpper, Trim;
  }

  lemma DefMeans(fmt: NumFormat, cells: map<string, SheetCell>, key: string)
    requires key in cells
    ensures DefOf(fmt, cells[key]) ==
            if cells[key].formula == "" then Constant(cells[key].value)
            else
              match FormulaParser.ParseExpression(fmt, cells[key].formula)
              case Formula(e) => if e.Func? && e.name == "AI" then Pending else Computed(e)
              case SyntaxError => Broken
              case NotAFormula => Pending
  {
    hide FormulaParser.ParseExpression;
  }

  lemma MeaningStep(h: Host, p: Program, key: string, n: nat)
    requires n > 0
    ensures Meaning(h, p, key, n) ==
            if key !in p then Some(Null)
            else if p[key].Constant? then Some(p[key].v)
            else if p[key].Computed? then Eval(h, p[key].e, At(h, p, n - 1))
            else Some(Null)
  {
    hide Eval, At;
  }
}
