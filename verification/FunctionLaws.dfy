/** What the functions of formulas compute: the conditional, the scalar functions and the aggregates. */
module FunctionLaws {
  import opened Text
  import opened FormulaSyntax
  import opened FormulaEval
  import opened FormulaLaws
  import Coords

  // ----- The conditional -----

  lemma Conditional(h: Host, r: Resolver, c: Expr, v: CellValue, x: Expr, y: Expr)
    requires Eval(h, c, r) == Some(v)
    ensures Eval(h, Func("IF", [c, x, y]), r) == if Holds(h, v) then Eval(h, x, r) else Eval(h, y, r)
    ensures Eval(h, Func("IF", [c, x]), r) == if Holds(h, v) then Eval(h, x, r) else Some(Null)
  {
  }

  // ----- Scalar functions -----

  lemma OneArgument(h: Host, r: Resolver, name: string, a: Expr, u: CellValue)
    requires Eval(h, a, r) == Some(u) && name in UNARY_FUNCTIONS
    ensures Eval(h, Func(name, [a]), r) == Some(UnaryCall(h, name, u))
  {
    hide UnaryCall;
  }

  lemma UnaryIs(h: Host, u: CellValue, x: real)
    requires ToNumber(h, u) == Some(x)
    ensures UnaryCall(h, "ABS", u) == Number(if x < 0.0 then -x else x)
    ensures UnaryCall(h, "INT", u) == Number(Truncate(x))
    ensures UnaryCall(h, "SQRT", u) == if x < 0.0 then Text("#NUM!") else Number(h.sqrt(x))
  {
    hide ToNumber, Truncate, ToText;
  }

  lemma Absolute(h: Host, r: Resolver, a: Expr, u: CellValue, x: real)
    requires Eval(h, a, r) == Some(u) && Counts(h, u, x)
    ensures exists y :: Eval(h, Func("ABS", [a]), r) == Some(Number(y)) && y >= 0.0 && (y == x || y == -x)
  {
    hide Eval, ToNumber, UnaryCall;
    OneArgument(h, r, "ABS", a, u);
    NumberIs(h, u, x);
    hide Counts;
    UnaryIs(h, u, x);
    var y := if x < 0.0 then -x else x;
    assert Eval(h, Func("ABS", [a]), r) == Some(Number(y));
  }

  // `INT` drops the fraction: the nearest integer on the side of zero.
  lemma Truncated(h: Host, r: Resolver, a: Expr, u: CellValue, x: real)
    requires Eval(h, a, r) == Some(u) && Counts(h, u, x)
    ensures exists k: int :: Truncates(x, k) && Eval(h, Func("INT", [a]), r) == Some(Number(k as real))
  {
    hide Eval, ToNumber, UnaryCall;
    OneArgument(h, r, "INT", a, u);
    NumberIs(h, u, x);
    hide Counts;
    UnaryIs(h, u, x);
    var k := if x >= 0.0 then x.Floor else -(-x).Floor;
    assert Truncates(x, k) && Eval(h, Func("INT", [a]), r) == Some(Number(k as real));
  }

  ghost predicate Truncates(x: real, k: int) {
    if x >= 0.0 then k as real <= x < k as real + 1.0 && k >= 0 else k as real - 1.0 < x <= k as real && k <= 0
  }

  lemma SquareRoot(h: Host, r: Resolver, a: Expr, u: CellValue, x: real)
    requires Eval(h, a, r) == Some(u) && Counts(h, u, x)
    ensures Eval(h, Func("SQRT", [a]), r) == Some(if x < 0.0 then Text("#NUM!") else Number(h.sqrt(x)))
  {
    hide Eval, ToNumber, UnaryCall;
    OneArgument(h, r, "SQRT", a, u);
    NumberIs(h, u, x);
    hide Counts;
    UnaryIs(h, u, x);
  }

  lemma NotNumeric(h: Host, r: Resolver, a: Expr, u: CellValue)
    requires Eval(h, a, r) == Some(u) && NoNumber(h, u)
    ensures forall name :: name in {"ABS", "SQRT", "INT"} ==> Eval(h, Func(name, [a]), r) == Some(Text("#VALUE!"))
  {
    NumberIs(h, u, 0.0);
    forall name | name in {"ABS", "SQRT", "INT"}
      ensures Eval(h, Func(name, [a]), r) == Some(Text("#VALUE!"))
    {
      OneArgument(h, r, name, a, u);
      hide Eval, ToNumber, NoNumber;
    }
  }

  lemma TextFunctions(h: Host, r: Resolver, a: Expr, u: CellValue, s: string)
    requires Eval(h, a, r) == Some(u) && FormulaLaws.Reads(h, u, s)
    ensures Eval(h, Func("LEN", [a]), r) == Some(Number(|s| as real))
    ensures Eval(h, Func("UPPER", [a]), r) == Some(Text(h.upper(s)))
    ensures Eval(h, Func("LOWER", [a]), r) == Some(Text(h.lower(s)))
    ensures Eval(h, Func("TRIM", [a]), r) == Some(Text(h.squeeze(s)))
  {
    OneArgument(h, r, "LEN", a, u);
    OneArgument(h, r, "UPPER", a, u);
    OneArgument(h, r, "LOWER", a, u);
    OneArgument(h, r, "TRIM", a, u);
    hide Eval;
  }

  // The remainder has the sign of the divisor and is smaller, and the rest is a multiple of the divisor.
  lemma Remainder(h: Host, r: Resolver, a: Expr, u: CellValue, x: real, b: Expr, w: CellValue, y: real)
    requires Eval(h, a, r) == Some(u) && Eval(h, b, r) == Some(w) && Counts(h, u, x) && Counts(h, w, y)
    ensures y == 0.0 ==> Eval(h, Func("MOD", [a, b]), r) == Some(Text("#DIV/0!"))
    ensures y != 0.0 ==>
              exists k: int, m: real :: Eval(h, Func("MOD", [a, b]), r) == Some(Number(m)) && IsMultiple(x, y, k, m)
  {
    assert Eval(h, Func("MOD", [a, b]), r) == Some(ModCall(h, u, w));
    NumberIs(h, u, x);
    NumberIs(h, w, y);
    hide Eval, ToNumber, Counts;
    if y != 0.0 {
      var k, m := RemainderIs(h, u, x, w, y);
      assert Eval(h, Func("MOD", [a, b]), r) == Some(Number(m)) && IsMultiple(x, y, k, m);
    }
  }

  ghost predicate IsMultiple(x: real, y: real, k: int, m: real) {
    x == y * (k as real) + m && if y > 0.0 then 0.0 <= m < y else y < m <= 0.0
  }

  lemma RemainderIs(h: Host, u: CellValue, x: real, w: CellValue, y: real) returns (k: int, m: real)
    requires ToNumber(h, u) == Some(x) && ToNumber(h, w) == Some(y) && y != 0.0
    ensures ModCall(h, u, w) == Number(m) && IsMultiple(x, y, k, m)
  {
    hide ToNumber, IsMultiple;
    k := (x / y).Floor;
    m := x - y * (k as real);
    FloorScales(x, y, k);
  }

  lemma FloorScales(x: real, y: real, k: int)
    requires y != 0.0 && k == (x / y).Floor
    ensures IsMultiple(x, y, k, x - y * (k as real))
  {
    var d := x / y - k as real;
    assert 0.0 <= d < 1.0;
    Quotient(x, y);
    Distributes(y, x / y, -(k as real));
    assert x - y * (k as real) == y * d;
    Fraction(y, d);
  }

  lemma Fraction(y: real, d: real)
    requires 0.0 <= d < 1.0
    ensures if y > 0.0 then 0.0 <= y * d < y else y * d <= 0.0 && (y < 0.0 ==> y < y * d)
  {
  }

  lemma Rounded(h: Host, r: Resolver, a: Expr, u: CellValue, x: real)
    requires Eval(h, a, r) == Some(u) && Counts(h, u, x)
    ensures Eval(h, Func("ROUND", [a]), r) == Some(Number(h.round(x, Some(0.0))))
  {
    NumberIs(h, u, x);
    hide ToNumber, Counts;
  }

  lemma RoundedTo(h: Host, r: Resolver, a: Expr, u: CellValue, x: real, b: Expr, k: int)
    requires Eval(h, a, r) == Some(u) && Counts(h, u, x) && Eval(h, b, r) == Some(Number(k as real))
    ensures Eval(h, Func("ROUND", [a, b]), r) == Some(Number(h.round(x, Some(k as real))))
  {
    NumberIs(h, u, x);
    WholeStays(k);
    assert RoundCall(h, u, Number(k as real)) == Number(h.round(x, Some(k as real)));
    hide Counts, ToNumber, Truncate, RoundCall;
  }

  lemma WholeStays(k: int)
    ensures Truncate(k as real) == k as real
  {
    var x := k as real;
    assert x.Floor == k;
    assert -x == (-k) as real;
    assert (-x).Floor == -k;
  }

  const FUNCTIONS := {
    "AI", "IF", "ROUND", "MOD", "ABS", "SQRT", "INT", "UPPER", "LOWER", "TRIM", "LEN", "CONCAT", "CONCATENATE", "SUM", "AVERAGE",
    "MIN", "MAX", "COUNT", "COUNTA"}

  lemma WrongArguments(h: Host, r: Resolver, name: string, args: seq<Expr>)
    ensures name == "AI" ==> Eval(h, Func(name, args), r) == Some(Null)
    ensures name in {"ABS", "SQRT", "INT", "UPPER", "LOWER", "TRIM", "LEN"} && |args| != 1 ==> Eval(h, Func(name, args), r) == Some(Text("#VALUE!"))
    ensures name == "MOD" && |args| != 2 ==> Eval(h, Func(name, args), r) == Some(Text("#VALUE!"))
    ensures name == "IF" && |args| !in {2, 3} ==> Eval(h, Func(name, args), r) == Some(Text("#VALUE!"))
    ensures name == "ROUND" && |args| !in {1, 2} ==> Eval(h, Func(name, args), r) == Some(Text("#VALUE!"))
    ensures name !in FUNCTIONS ==> Eval(h, Func(name, args), r) == Some(Text("#NAME?"))
  {
    hide ToNumber, ToBoolean, ListCall, UnaryCall, EvalArgs;
  }

  // ----- Argument lists -----

  // What arguments that are no ranges evaluate to.
  ghost predicate Yields(h: Host, r: Resolver, args: seq<Expr>, vals: seq<CellValue>) {
    |vals| == |args| && forall i :: 0 <= i < |args| ==> !args[i].Range? && Eval(h, args[i], r) == Some(vals[i])
  }

  lemma {:induction false} YieldsIs(h: Host, r: Resolver, args: seq<Expr>, vals: seq<CellValue>)
    requires Yields(h, r, args, vals)
    ensures EvalArgs(h, args, r) == Some(vals)
  {
    hide Eval;
    if args != [] {
      assert Yields(h, r, args[1..], vals[1..]);
      YieldsIs(h, r, args[1..], vals[1..]);
      assert vals == [vals[0]] + vals[1..];
    }
  }

  lemma ListIs(h: Host, r: Resolver, name: string, args: seq<Expr>, vals: seq<CellValue>)
    requires Yields(h, r, args, vals) && name in LIST_FUNCTIONS
    ensures Eval(h, Func(name, args), r) == Some(ListCall(h, name, vals))
  {
    YieldsIs(h, r, args, vals);
    hide Yields, EvalArgs, ListCall;
  }

  // The first argument, and what the others contribute.
  function FirstOf(h: Host, r: Resolver, arg: Expr): Option<seq<CellValue>> {
    if arg.Range? then EvalRange(r, arg.start, arg.end)
    else if Eval(h, arg, r).None? then None
    else Some([Eval(h, arg, r).value])
  }

  function Join<T>(a: Option<seq<T>>, b: Option<seq<T>>): Option<seq<T>> {
    if a.None? || b.None? then None else Some(a.value + b.value)
  }

  lemma JoinAssociates<T>(a: Option<seq<T>>, b: Option<seq<T>>, c: Option<seq<T>>)
    ensures Join(a, Join(b, c)) == Join(Join(a, b), c)
  {
    if a.Some? && b.Some? && c.Some? {
      assert a.value + (b.value + c.value) == a.value + b.value + c.value;
    }
  }

  lemma ArgsCons(h: Host, r: Resolver, args: seq<Expr>)
    requires args != []
    ensures EvalArgs(h, args, r) == Join(FirstOf(h, r, args[0]), EvalArgs(h, args[1..], r))
  {
    hide Eval, EvalRange;
  }

  lemma {:induction false} ArgsAppend(h: Host, r: Resolver, a: seq<Expr>, b: seq<Expr>)
    ensures EvalArgs(h, a + b, r) == Join(EvalArgs(h, a, r), EvalArgs(h, b, r))
  {
    if a == [] {
      assert a + b == b;
      if EvalArgs(h, b, r).Some? {
        assert [] + EvalArgs(h, b, r).value == EvalArgs(h, b, r).value;
      }
    } else {
      assert (a + b)[1..] == a[1..] + b;
      hide EvalArgs, FirstOf, Join;
      ArgsCons(h, r, a + b);
      ArgsCons(h, r, a);
      ArgsAppend(h, r, a[1..], b);
      JoinAssociates(FirstOf(h, r, a[0]), EvalArgs(h, a[1..], r), EvalArgs(h, b, r));
    }
  }

  lemma OneRange(h: Host, r: Resolver, start: RefNode, end: RefNode)
    ensures EvalArgs(h, [Range(start, end)], r) == EvalRange(r, start, end)
  {
    hide EvalRange;
    assert [Range(start, end)][1..] == [];
    if EvalRange(r, start, end).Some? {
      assert EvalRange(r, start, end).value + [] == EvalRange(r, start, end).value;
    }
  }

  // A range in an argument list stands for its cells, row by row.
  lemma RangeIsItsCells(h: Host, r: Resolver, name: string, before: seq<Expr>, start: RefNode, end: RefNode, cells: seq<Expr>, after: seq<Expr>)
    requires name in {"CONCAT", "CONCATENATE", "SUM", "AVERAGE", "MIN", "MAX", "COUNT", "COUNTA"}
    requires var labels := Coords.RangeCells(start.coord, end.coord);
             |cells| == |labels| && forall i :: 0 <= i < |cells| ==> cells[i].Cell? && cells[i].ref.coord == labels[i]
    ensures Eval(h, Func(name, before + [Range(start, end)] + after), r) == Eval(h, Func(name, before + cells + after), r)
  {
    var range := [Range(start, end)];
    CellsAre(h, r, Coords.RangeCells(start.coord, end.coord), cells);
    OneRange(h, r, start, end);
    hide Eval, EvalArgs, Coords.RangeCells, Join, ListCall;
    ArgsAppend(h, r, before, range);
    ArgsAppend(h, r, before, cells);
    ArgsAppend(h, r, before + range, after);
    ArgsAppend(h, r, before + cells, after);
    hide EvalRange;
    Listed(h, r, name, before + range + after);
    Listed(h, r, name, before + cells + after);
  }

  lemma Listed(h: Host, r: Resolver, name: string, args: seq<Expr>)
    requires name in LIST_FUNCTIONS
    ensures Eval(h, Func(name, args), r) ==
            if EvalArgs(h, args, r).None? then None else Some(ListCall(h, name, EvalArgs(h, args, r).value))
  {
    hide ListCall, EvalArgs;
  }

  lemma {:induction false} CellsAre(h: Host, r: Resolver, labels: seq<string>, cells: seq<Expr>)
    requires |cells| == |labels| && forall i :: 0 <= i < |cells| ==> cells[i].Cell? && cells[i].ref.coord == labels[i]
    ensures EvalArgs(h, cells, r) == ResolveAll(r, labels)
  {
    if cells != [] {
      CellsAre(h, r, labels[1..], cells[1..]);
    }
  }

  // Outside an argument list a range is its first cell.
  lemma RangeAlone(h: Host, r: Resolver, start: RefNode, end: RefNode)
    requires var labels := Coords.RangeCells(start.coord, end.coord);
             forall i :: 0 <= i < |labels| ==> r(labels[i]).Some?
    ensures var labels := Coords.RangeCells(start.coord, end.coord);
            Eval(h, Range(start, end), r) == if labels == [] then Some(Null) else r(labels[0])
  {
    hide EvalCall, UnaryOp, PercentOp, BinaryOp, Coords.RangeCells;
    AllResolved(r, Coords.RangeCells(start.coord, end.coord));
  }

  lemma {:induction false} AllResolved(r: Resolver, labels: seq<string>)
    requires forall i :: 0 <= i < |labels| ==> r(labels[i]).Some?
    ensures ResolveAll(r, labels).Some? && (labels != [] ==> ResolveAll(r, labels).value != [] && Some(ResolveAll(r, labels).value[0]) == r(labels[0]))
    ensures labels == [] ==> ResolveAll(r, labels).value == []
  {
    if labels != [] {
      AllResolved(r, labels[1..]);
    }
  }

  // ----- Aggregates -----

  ghost predicate NoErrors(vals: seq<CellValue>) { forall i :: 0 <= i < |vals| ==> !IsError(vals[i]) }

  lemma {:induction false} NoErrorsIs(vals: seq<CellValue>)
    requires NoErrors(vals)
    ensures FirstError(vals).None?
  {
    if vals != [] {
      NoErrorsIs(vals[1..]);
    }
  }

  // The first error among the arguments is the value; only counting and joining pass over errors.
  lemma FirstErrorWins(h: Host, r: Resolver, name: string, args: seq<Expr>, vals: seq<CellValue>, i: nat)
    requires Yields(h, r, args, vals) && name in {"SUM", "AVERAGE", "MIN", "MAX"}
    requires i < |vals| && IsError(vals[i]) && NoErrors(vals[..i])
    ensures Eval(h, Func(name, args), r) == Some(vals[i])
  {
    ListIs(h, r, name, args, vals);
    hide Eval, Yields;
    FirstErrorAt(vals, i);
  }

  lemma {:induction false} FirstErrorAt(vals: seq<CellValue>, i: nat)
    requires i < |vals| && IsError(vals[i]) && NoErrors(vals[..i])
    ensures FirstError(vals) == Some(vals[i])
  {
    if i > 0 {
      assert !IsError(vals[..i][0]);
      assert vals[1..][..i - 1] == vals[..i][1..];
      FirstErrorAt(vals[1..], i - 1);
    }
  }

  lemma {:induction false} NumbersAppend(a: seq<CellValue>, b: seq<CellValue>)
    ensures Numbers(a + b) == Numbers(a) + Numbers(b)
  {
    if a == [] {
      assert a + b == b;
    } else {
      assert (a + b)[1..] == a[1..] + b;
      NumbersAppend(a[1..], b);
    }
  }

  lemma {:induction false} SumAppend(a: seq<real>, b: seq<real>)
    ensures Sum(a + b) == Sum(a) + Sum(b)
  {
    if b == [] {
      assert a + b == a;
    } else {
      assert (a + b)[..|a + b| - 1] == a + b[..|b| - 1];
      SumAppend(a, b[..|b| - 1]);
    }
  }

  lemma SumIs(h: Host, r: Resolver, args: seq<Expr>, vals: seq<CellValue>)
    requires Yields(h, r, args, vals) && NoErrors(vals)
    ensures IsNumber(h, r, Func("SUM", args), Sum(Numbers(vals)))
  {
    ListIs(h, r, "SUM", args, vals);
    NoErrorsIs(vals);
    hide Eval, Yields;
  }

  lemma SumOfOne(v: CellValue)
    ensures Sum(Numbers([])) == 0.0 && Sum(Numbers([v])) == if v.Number? then v.n else 0.0
  {
    assert [v][1..] == [];
    if v.Number? {
      assert [v.n][..0] == [];
    }
  }

  lemma YieldsAppend(h: Host, r: Resolver, a: seq<Expr>, x: seq<CellValue>, b: seq<Expr>, y: seq<CellValue>)
    requires Yields(h, r, a, x) && Yields(h, r, b, y)
    ensures Yields(h, r, a + b, x + y) && (NoErrors(x) && NoErrors(y) ==> NoErrors(x + y))
  {
    hide Eval, IsError;
  }

  lemma YieldsOne(h: Host, r: Resolver, e: Expr, v: CellValue)
    requires !e.Range? && Eval(h, e, r) == Some(v)
    ensures Yields(h, r, [e], [v]) && Yields(h, r, [], []) && (!IsError(v) ==> NoErrors([v])) && NoErrors([])
  {
    hide Eval, IsError;
  }

  // The sum of nothing is zero, of one number that number, anything else counts for nothing,
  lemma SumSingle(h: Host, r: Resolver, e: Expr, v: CellValue)
    requires !e.Range? && Eval(h, e, r) == Some(v) && !IsError(v)
    ensures Eval(h, Func("SUM", []), r) == Some(Number(0.0))
    ensures Eval(h, Func("SUM", [e]), r) == Some(if v.Number? then v else Number(0.0))
  {
    hide Numbers, Sum, Yields, NoErrors;
    YieldsOne(h, r, e, v);
    hide Eval;
    SumIs(h, r, [], []);
    SumIs(h, r, [e], [v]);
    SumOfOne(v);
  }

  // and the sum of a list that is split is the sum of the parts.
  lemma SumSplit(h: Host, r: Resolver, a: seq<Expr>, x: seq<CellValue>, b: seq<Expr>, y: seq<CellValue>)
    requires Yields(h, r, a, x) && Yields(h, r, b, y) && NoErrors(x) && NoErrors(y)
    ensures Eval(h, Func("SUM", a + b), r) == Eval(h, Binary(Plus, Func("SUM", a), Func("SUM", b)), r)
  {
    hide Eval, Numbers, Sum, Yields, NoErrors;
    YieldsAppend(h, r, a, x, b, y);
    SumIs(h, r, a, x);
    SumIs(h, r, b, y);
    SumIs(h, r, a + b, x + y);
    NumbersAppend(x, y);
    SumAppend(Numbers(x), Numbers(y));
    FormulaLaws.SumIs(h, r, Func("SUM", a), Sum(Numbers(x)), Func("SUM", b), Sum(Numbers(y)));
  }

  // ----- Counting -----

  function NumberPlaces(vals: seq<CellValue>): set<nat> { set i: nat | i < |vals| && vals[i].Number? }

  function FilledPlaces(vals: seq<CellValue>): set<nat> { set i: nat | i < |vals| && vals[i] != Null && vals[i] != Text("") }

  lemma NumberPlacesSnoc(init: seq<CellValue>, last: CellValue)
    ensures NumberPlaces(init + [last]) == NumberPlaces(init) + if last.Number? then {|init|} else {}
  {
  }

  lemma FilledPlacesSnoc(init: seq<CellValue>, last: CellValue)
    ensures FilledPlaces(init + [last]) == FilledPlaces(init) + if last != Null && last != Text("") then {|init|} else {}
  {
  }

  lemma OneMore(s: set<nat>, n: nat)
    requires n !in s
    ensures |s + {n}| == |s| + 1
  {
  }

  lemma PlacesSnoc(init: seq<CellValue>, last: CellValue)
    ensures |NumberPlaces(init + [last])| == |NumberPlaces(init)| + if last.Number? then 1 else 0
    ensures |FilledPlaces(init + [last])| == |FilledPlaces(init)| + if last != Null && last != Text("") then 1 else 0
  {
    NumberPlacesSnoc(init, last);
    FilledPlacesSnoc(init, last);
    assert |init| !in NumberPlaces(init) && |init| !in FilledPlaces(init);
    hide NumberPlaces, FilledPlaces;
    OneMore(NumberPlaces(init), |init|);
    OneMore(FilledPlaces(init), |init|);
    assert NumberPlaces(init) + {} == NumberPlaces(init) && FilledPlaces(init) + {} == FilledPlaces(init);
  }

  lemma CountsOne(v: CellValue)
    ensures |Numbers([v])| == (if v.Number? then 1 else 0) && CountFilled([v]) == if v != Null && v != Text("") then 1 else 0
  {
    assert [v][1..] == [];
  }

  lemma {:induction false} NumbersCounted(vals: seq<CellValue>)
    ensures |Numbers(vals)| == |NumberPlaces(vals)| && CountFilled(vals) == |FilledPlaces(vals)|
  {
    if vals != [] {
      hide Numbers, CountFilled, NumberPlaces, FilledPlaces;
      var init, last := vals[..|vals| - 1], vals[|vals| - 1];
      NumbersCounted(init);
      assert vals == init + [last];
      NumbersAppend(init, [last]);
      FilledAppend(init, [last]);
      CountsOne(last);
      PlacesSnoc(init, last);
    }
  }

  lemma {:induction false} FilledAppend(a: seq<CellValue>, b: seq<CellValue>)
    ensures CountFilled(a + b) == CountFilled(a) + CountFilled(b)
  {
    if a == [] {
      assert a + b == b;
    } else {
      assert (a + b)[1..] == a[1..] + b;
      FilledAppend(a[1..], b);
    }
  }

  // `COUNT` is the number of numbers, `COUNTA` of values that are neither blank nor empty.
  lemma Counting(h: Host, r: Resolver, args: seq<Expr>, vals: seq<CellValue>)
    requires Yields(h, r, args, vals)
    ensures Eval(h, Func("COUNT", args), r) == Some(Number(|set i: nat | i < |vals| && vals[i].Number?| as real))
    ensures Eval(h, Func("COUNTA", args), r) == Some(Number(|set i: nat | i < |vals| && vals[i] != Null && vals[i] != Text("")| as real))
  {
    ListIs(h, r, "COUNT", args, vals);
    ListIs(h, r, "COUNTA", args, vals);
    hide Eval, Yields;
    NumbersCounted(vals);
    assert NumberPlaces(vals) == set i: nat | i < |vals| && vals[i].Number?;
    assert FilledPlaces(vals) == set i: nat | i < |vals| && vals[i] != Null && vals[i] != Text("");
  }

  // The average times the count is the sum; there is no average of nothing.
  lemma Average(h: Host, r: Resolver, args: seq<Expr>, vals: seq<CellValue>)
    requires Yields(h, r, args, vals) && NoErrors(vals)
    ensures if exists i :: 0 <= i < |vals| && vals[i].Number?
            then Eval(h, Binary(Times, Func("AVERAGE", args), Func("COUNT", args)), r) == Eval(h, Func("SUM", args), r)
            else Eval(h, Func("AVERAGE", args), r) == Some(Text("#DIV/0!"))
  {
    ListIs(h, r, "AVERAGE", args, vals);
    ListIs(h, r, "COUNT", args, vals);
    SumIs(h, r, args, vals);
    NoErrorsIs(vals);
    SomeNumber(vals);
    hide Eval, Yields, Numbers;
    if Numbers(vals) != [] {
      var s, n := Sum(Numbers(vals)), |Numbers(vals)| as real;
      Quotient(s, n);
      ProductIs(h, r, Func("AVERAGE", args), s / n, Func("COUNT", args), n, s);
    }
  }

  lemma {:induction false} SomeNumber(vals: seq<CellValue>)
    ensures Numbers(vals) != [] <==> exists i :: 0 <= i < |vals| && vals[i].Number?
    ensures forall i :: 0 <= i < |vals| && vals[i].Number? ==> vals[i].n in Numbers(vals)
    ensures forall x :: x in Numbers(vals) ==> exists i :: 0 <= i < |vals| && vals[i] == Number(x)
  {
    if vals != [] {
      SomeNumber(vals[1..]);
      assert vals == [vals[0]] + vals[1..];
    }
  }

  lemma {:induction false} LeastIs(nums: seq<real>)
    requires nums != []
    ensures Least(nums) in nums && forall x :: x in nums ==> Least(nums) <= x
    ensures Greatest(nums) in nums && forall x :: x in nums ==> Greatest(nums) >= x
  {
    if |nums| > 1 {
      LeastIs(nums[1..]);
      assert nums == [nums[0]] + nums[1..];
    }
  }

  // The extremes are among the numbers and bound them all; of nothing they are zero.
  lemma Extremes(h: Host, r: Resolver, args: seq<Expr>, vals: seq<CellValue>)
    requires Yields(h, r, args, vals) && NoErrors(vals)
    ensures (forall i :: 0 <= i < |vals| ==> !vals[i].Number?) ==>
              Eval(h, Func("MIN", args), r) == Eval(h, Func("MAX", args), r) == Some(Number(0.0))
    ensures (exists i :: 0 <= i < |vals| && vals[i].Number?) ==>
              exists lo, hi :: Eval(h, Func("MIN", args), r) == Some(Number(lo)) && Eval(h, Func("MAX", args), r) == Some(Number(hi)) && Bounds(vals, lo, hi)
  {
    ListIs(h, r, "MIN", args, vals);
    ListIs(h, r, "MAX", args, vals);
    NoErrorsIs(vals);
    SomeNumber(vals);
    hide Eval, Yields, Numbers;
    if Numbers(vals) != [] {
      LeastIs(Numbers(vals));
      var lo, hi := Least(Numbers(vals)), Greatest(Numbers(vals));
      assert Bounds(vals, lo, hi);
      assert Eval(h, Func("MIN", args), r) == Some(Number(lo)) && Eval(h, Func("MAX", args), r) == Some(Number(hi));
    }
  }

  ghost predicate Bounds(vals: seq<CellValue>, lo: real, hi: real) {
    && Number(lo) in vals && Number(hi) in vals
    && forall i :: 0 <= i < |vals| && vals[i].Number? ==> lo <= vals[i].n <= hi
  }

  // ----- Joining -----

  lemma {:induction false} JoinAppend(h: Host, a: seq<CellValue>, b: seq<CellValue>)
    ensures JoinText(h, a + b) == JoinText(h, a) + JoinText(h, b)
  {
    hide ToText;
    if a == [] {
      assert a + b == b;
    } else {
      assert (a + b)[1..] == a[1..] + b;
      JoinAppend(h, a[1..], b);
    }
  }

  // Joining nothing is the empty text, joining one value its text, and joining a list that is split is
  // joining the parts.
  lemma JoinLaws(h: Host, r: Resolver, name: string, a: seq<Expr>, x: seq<CellValue>, b: seq<Expr>, y: seq<CellValue>, e: Expr, v: CellValue, s: string)
    requires name in {"CONCAT", "CONCATENATE"} && Yields(h, r, a, x) && Yields(h, r, b, y)
    requires !e.Range? && Eval(h, e, r) == Some(v) && FormulaLaws.Reads(h, v, s)
    ensures Eval(h, Func(name, []), r) == Some(Text(""))
    ensures Eval(h, Func(name, [e]), r) == Some(Text(s))
    ensures Eval(h, Func(name, a + b), r) == Eval(h, Binary(Concat, Func(name, a), Func(name, b)), r)
  {
    YieldsOne(h, r, e, v);
    YieldsAppend(h, r, a, x, b, y);
    hide Eval, Yields;
    assert JoinText(h, [v]) == s by {
      assert [v][1..] == [];
    }
    ListIs(h, r, name, [], []);
    ListIs(h, r, name, [e], [v]);
    ListIs(h, r, name, a, x);
    ListIs(h, r, name, b, y);
    ListIs(h, r, name, a + b, x + y);
    JoinAppend(h, x, y);
    Concatenation(h, r, Func(name, a), Text(JoinText(h, x)), JoinText(h, x), Func(name, b), Text(JoinText(h, y)), JoinText(h, y));
  }
}
