/**
  Recalculating a sheet: memoised depth-first evaluation with a cycle marker, against the plain
  recursive meaning of a cell.
 */
module Recalc {
  import opened Text
  import opened FormulaSyntax
  import opened FormulaEval
  import FormulaParser
  import Coords

  // A stored cell; the empty formula stands for no formula.
  datatype SheetCell = SheetCell(value: CellValue, formula: string)

  // What a cell contributes to the evaluation of others.
  datatype CellDef = Computed(e: Expr) | Broken | Pending | Constant(v: CellValue)

  type Program = map<string, CellDef>

  function DefOf(fmt: NumFormat, cell: SheetCell): CellDef {
    if cell.formula == "" then Constant(cell.value)
    else
      match FormulaParser.ParseExpression(fmt, cell.formula)
      case SyntaxError => Broken
      case NotAFormula => Pending
      case Formula(e) => if IsAIFormula(e) then Pending else Computed(e)
  }

  function ProgramOf(fmt: NumFormat, cells: map<string, SheetCell>): Program {
    map k | k in cells :: DefOf(fmt, cells[k])
  }

  function Normalize(coord: string): string { ToUpper(Trim(coord)) }

  // ----- The plain recursive meaning -----

  // The value of a cell by plain recursion of depth below `n`, without memo or cycle marker.
  // `None` at every depth means that the recursion does not come to an end.
  function Meaning(h: Host, p: Program, key: string, n: nat): Option<CellValue>
    decreases n, 0
  {
    if n == 0 then None
    else if key !in p then Some(Null)
    else
      match p[key]
      case Constant(v) => Some(v)
      case Computed(e) => Eval(h, e, At(h, p, n - 1))
      case _ => Some(Null)
  }

  function At(h: Host, p: Program, n: nat): Resolver
    decreases n, 1
  {
    (coord: string) => Meaning(h, p, Normalize(coord), n)
  }

  // ----- Evaluation with a memo and the cells being visited -----

  type Memo = map<string, CellValue>

  datatype Result<T> = Result(value: T, memo: Memo)

  // `resolve`
  function Resolve(h: Host, p: Program, coord: string, visiting: set<string>, memo: Memo): Result<CellValue>
    decreases p.Keys - visiting, 0
  {
    var key := Normalize(coord);
    if key in memo then Result(memo[key], memo)
    else if key in visiting then Result(CYCLE_ERROR, memo)
    else if key !in p then Result(Null, memo[key := Null])
    else
      match p[key]
      case Constant(v) => Result(v, memo[key := v])
      case Computed(e) =>
        assert key in p.Keys - visiting;
        var r := Evaluate(h, p, e, visiting + {key}, memo);
        Result(r.value, r.memo[key := r.value])
      case _ => Result(Null, memo[key := Null])
  }

  function ResolveLabels(h: Host, p: Program, labels: seq<string>, visiting: set<string>, memo: Memo): Result<seq<CellValue>>
    decreases p.Keys - visiting, 1, |labels|
  {
    if labels == [] then Result([], memo)
    else
      var first := Resolve(h, p, labels[0], visiting, memo);
      var rest := ResolveLabels(h, p, labels[1..], visiting, first.memo);
      Result([first.value] + rest.value, rest.memo)
  }

  function RangeLabels(e: Expr): seq<string>
    requires e.Range?
  {
    Coords.RangeCells(e.start.coord, e.end.coord)
  }

  // `evaluate` with the stateful resolver.
  function Evaluate(h: Host, p: Program, e: Expr, visiting: set<string>, memo: Memo): Result<CellValue>
    decreases p.Keys - visiting, 2, e, 1
  {
    match e
    case Num(v) => Result(Number(v), memo)
    case Str(s) => Result(Text(s), memo)
    case Bool(b) => Result(Truth(b), memo)
    case Cell(ref) => Resolve(h, p, ref.coord, visiting, memo)
    case Range(_, _) =>
      var r := ResolveLabels(h, p, RangeLabels(e), visiting, memo);
      Result(if r.value == [] then Null else r.value[0], r.memo)
    case Unary(op, x) =>
      var r := Evaluate(h, p, x, visiting, memo);
      Result(UnaryOp(h, op, r.value), r.memo)
    case Percent(x) =>
      var r := Evaluate(h, p, x, visiting, memo);
      Result(PercentOp(h, r.value), r.memo)
    case Binary(op, left, right) =>
      var a := Evaluate(h, p, left, visiting, memo);
      var b := Evaluate(h, p, right, visiting, a.memo);
      Result(BinaryOp(h, op, a.value, b.value), b.memo)
    case Func(name, args) => EvaluateCall(h, p, name, args, visiting, memo)
  }

  function EvaluateCall(h: Host, p: Program, name: string, args: seq<Expr>, visiting: set<string>, memo: Memo): Result<CellValue>
    decreases p.Keys - visiting, 2, args, 2
  {
    if name == "AI" then Result(Null, memo)
    else if name == "IF" then
      if |args| < 2 || |args| > 3 then Result(VALUE_ERROR, memo)
      else
        var cond := Evaluate(h, p, args[0], visiting, memo);
        if ToBoolean(h, cond.value) then Evaluate(h, p, args[1], visiting, cond.memo)
        else if |args| == 3 then Evaluate(h, p, args[2], visiting, cond.memo)
        else Result(Null, cond.memo)
    else if name == "ROUND" then
      if |args| < 1 || |args| > 2 then Result(VALUE_ERROR, memo)
      else
        var v := Evaluate(h, p, args[0], visiting, memo);
        if ToNumber(h, v.value).None? then Result(VALUE_ERROR, v.memo)
        else if |args| == 1 then Result(Number(h.round(ToNumber(h, v.value).value, Some(0.0))), v.memo)
        else
          var d := Evaluate(h, p, args[1], visiting, v.memo);
          Result(RoundCall(h, v.value, d.value), d.memo)
    else if name == "MOD" then
      if |args| != 2 then Result(VALUE_ERROR, memo)
      else
        var a := Evaluate(h, p, args[0], visiting, memo);
        var b := Evaluate(h, p, args[1], visiting, a.memo);
        Result(ModCall(h, a.value, b.value), b.memo)
    else if name in UNARY_FUNCTIONS then
      if |args| != 1 then Result(VALUE_ERROR, memo)
      else
        var v := Evaluate(h, p, args[0], visiting, memo);
        Result(UnaryCall(h, name, v.value), v.memo)
    else if name in LIST_FUNCTIONS then
      var values := EvaluateArgs(h, p, args, visiting, memo);
      Result(ListCall(h, name, values.value), values.memo)
    else Result(NAME_ERROR, memo)
  }

  function EvaluateArgs(h: Host, p: Program, args: seq<Expr>, visiting: set<string>, memo: Memo): Result<seq<CellValue>>
    decreases p.Keys - visiting, 2, args, 1
  {
    if args == [] then Result([], memo)
    else
      var first := EvaluateArg(h, p, args[0], visiting, memo);
      var rest := EvaluateArgs(h, p, args[1..], visiting, first.memo);
      Result(first.value + rest.value, rest.memo)
  }

  function EvaluateArg(h: Host, p: Program, arg: Expr, visiting: set<string>, memo: Memo): Result<seq<CellValue>>
    decreases p.Keys - visiting, 2, arg, 2
  {
    if arg.Range? then ResolveLabels(h, p, RangeLabels(arg), visiting, memo)
    else
      var v := Evaluate(h, p, arg, visiting, memo);
      Result([v.value], v.memo)
  }

  // ----- More depth changes nothing -----

  ghost predicate Extends(r: Resolver, s: Resolver) {
    forall c: string :: r(c).Some? ==> s(c) == r(c)
  }

  lemma {:induction false} ResolveAllExtends(r: Resolver, s: Resolver, labels: seq<string>)
    requires Extends(r, s) && ResolveAll(r, labels).Some?
    ensures ResolveAll(s, labels) == ResolveAll(r, labels)
  {
    if labels != [] {
      ResolveAllExtends(r, s, labels[1..]);
    }
  }

  lemma {:induction false} EvalExtends(h: Host, e: Expr, r: Resolver, s: Resolver)
    requires Extends(r, s) && Eval(h, e, r).Some?
    ensures Eval(h, e, s) == Eval(h, e, r)
    decreases e, 1
  {
    match e
    case Range(start, end) => ResolveAllExtends(r, s, RangeLabels(e));
    case Unary(_, x) => EvalExtends(h, x, r, s);
    case Percent(x) => EvalExtends(h, x, r, s);
    case Binary(_, left, right) =>
      EvalExtends(h, left, r, s);
      EvalExtends(h, right, r, s);
    case Func(name, args) => CallExtends(h, name, args, r, s);
    case Num(_) =>
    case Str(_) =>
    case Bool(_) =>
    case Cell(_) =>
  }

  lemma {:induction false} CallExtends(h: Host, name: string, args: seq<Expr>, r: Resolver, s: Resolver)
    requires Extends(r, s) && EvalCall(h, name, args, r).Some?
    ensures EvalCall(h, name, args, s) == EvalCall(h, name, args, r)
    decreases args, 2
  {
    hide Extends, Eval, EvalArgs, ListCall, UnaryCall, ModCall, RoundCall, ToBoolean, ToNumber;
    if name in LIST_FUNCTIONS {
      ArgsExtend(h, args, r, s);
    } else if name != "AI" && 1 <= |args| <= 3 {
      forall i | 0 <= i < |args| && Eval(h, args[i], r).Some?
        ensures Eval(h, args[i], s) == Eval(h, args[i], r)
      {
        EvalExtends(h, args[i], r, s);
      }
    }
  }

  lemma {:induction false} ArgsExtend(h: Host, args: seq<Expr>, r: Resolver, s: Resolver)
    requires Extends(r, s) && EvalArgs(h, args, r).Some?
    ensures EvalArgs(h, args, s) == EvalArgs(h, args, r)
    decreases args, 1
  {
    if args != [] {
      if args[0].Range? {
        ResolveAllExtends(r, s, RangeLabels(args[0]));
      } else {
        EvalExtends(h, args[0], r, s);
      }
      ArgsExtend(h, args[1..], r, s);
    }
  }

  lemma {:induction false} MeaningGrows(h: Host, p: Program, key: string, n: nat)
    requires Meaning(h, p, key, n).Some?
    ensures Meaning(h, p, key, n + 1) == Meaning(h, p, key, n)
    decreases n, 0
  {
    hide Eval, Extends, At;
    if key in p && p[key].Computed? {
      LevelsExtend(h, p, n - 1);
      EvalExtends(h, p[key].e, At(h, p, n - 1), At(h, p, n));
    }
  }

  lemma {:induction false} LevelsExtend(h: Host, p: Program, n: nat)
    ensures Extends(At(h, p, n), At(h, p, n + 1))
    decreases n, 1
  {
    hide Meaning, Normalize;
    forall c: string | At(h, p, n)(c).Some?
      ensures At(h, p, n + 1)(c) == At(h, p, n)(c)
    {
      MeaningGrows(h, p, Normalize(c), n);
    }
  }

  lemma {:induction false} MeaningStable(h: Host, p: Program, key: string, n: nat, m: nat)
    requires Meaning(h, p, key, n).Some? && n <= m
    ensures Meaning(h, p, key, m) == Meaning(h, p, key, n)
    decreases m - n
  {
    if n < m {
      MeaningGrows(h, p, key, n);
      MeaningStable(h, p, key, n + 1, m);
    }
  }
}
