/** Which cells a recalculation brings to an end, and what it writes into the others. */
module RecalcCycles {
  import opened Text
  import opened FormulaSyntax
  import opened FormulaEval
  import opened Recalc
  import opened RecalcSound

  // ----- Cells without cycles below them -----

  // The expression mentions this coordinate, in a reference or inside a range.
  ghost predicate Mentions(e: Expr, coord: string) {
    match e
    case Cell(ref) => coord == ref.coord
    case Range(_, _) => coord in RangeLabels(e)
    case Func(_, args) => exists i :: 0 <= i < |args| && Mentions(args[i], coord)
    case Binary(_, left, right) => Mentions(left, coord) || Mentions(right, coord)
    case Unary(_, x) => Mentions(x, coord)
    case Percent(x) => Mentions(x, coord)
    case _ => false
  }

  // Everything mentioned below these cells is among them, at a lower rank.
  ghost predicate Acyclic(p: Program, cone: set<string>, rank: string -> nat) {
    forall k, c :: k in cone && k in p && p[k].Computed? && Mentions(p[k].e, c) ==>
      Normalize(c) in cone && rank(Normalize(c)) < rank(k)
  }

  ghost predicate Answers(e: Expr, r: Resolver) {
    forall c: string :: Mentions(e, c) ==> r(c).Some?
  }

  lemma {:induction false} LabelsEnd(r: Resolver, labels: seq<string>)
    requires forall c :: c in labels ==> r(c).Some?
    ensures ResolveAll(r, labels).Some?
  {
    if labels != [] {
      LabelsEnd(r, labels[1..]);
    }
  }

  // An expression comes to an end when everything it mentions does.
  lemma {:induction false} EvalEnds(h: Host, e: Expr, r: Resolver)
    requires Answers(e, r)
    ensures Eval(h, e, r).Some?
    decreases e, 1
  {
    hide RangeLabels, EvalRange, EvalCall;
    match e
    case Range(_, _) => RangeEnds(e, r);
    case Unary(_, x) =>
      assert Answers(x, r);
      EvalEnds(h, x, r);
    case Percent(x) =>
      assert Answers(x, r);
      EvalEnds(h, x, r);
    case Binary(_, left, right) =>
      assert Answers(left, r) && Answers(right, r);
      EvalEnds(h, left, r);
      EvalEnds(h, right, r);
    case Func(name, args) =>
      forall i | 0 <= i < |args|
        ensures Answers(args[i], r)
      {
        ArgAnswers(e, r, i);
      }
      CallEnds(h, name, args, r);
    case Cell(ref) => assert Mentions(e, ref.coord);
    case Num(_) =>
    case Str(_) =>
    case Bool(_) =>
  }

  lemma ArgAnswers(e: Expr, r: Resolver, i: nat)
    requires e.Func? && i < |e.args| && Answers(e, r)
    ensures Answers(e.args[i], r)
  {
    hide Mentions;
    forall c: string | Mentions(e.args[i], c)
      ensures r(c).Some?
    {
      MentionedByArg(e, i, c);
    }
  }

  lemma MentionedByArg(e: Expr, i: nat, c: string)
    requires e.Func? && i < |e.args| && Mentions(e.args[i], c)
    ensures Mentions(e, c)
  {
  }

  lemma RangeEnds(e: Expr, r: Resolver)
    requires e.Range? && Answers(e, r)
    ensures EvalRange(r, e.start, e.end).Some?
  {
    RangeIs(e, r);
    hide RangeLabels, EvalRange;
    assert forall c :: c in RangeLabels(e) ==> Mentions(e, c);
    LabelsEnd(r, RangeLabels(e));
  }

  lemma {:induction false} CallEnds(h: Host, name: string, args: seq<Expr>, r: Resolver)
    requires forall i :: 0 <= i < |args| ==> Answers(args[i], r)
    ensures EvalCall(h, name, args, r).Some?
    decreases args, 2
  {
    hide Answers, Eval, EvalArgs, ListCall, UnaryCall, ModCall, RoundCall, ToBoolean, ToNumber;
    ArgsEnd(h, args, r);
    forall i | 0 <= i < |args|
      ensures Eval(h, args[i], r).Some?
    {
      EvalEnds(h, args[i], r);
    }
  }

  lemma {:induction false} ArgsEnd(h: Host, args: seq<Expr>, r: Resolver)
    requires forall i :: 0 <= i < |args| ==> Answers(args[i], r)
    ensures EvalArgs(h, args, r).Some?
    decreases args, 1
  {
    hide Answers, Eval, EvalRange;
    if args != [] {
      ArgsEnd(h, args[1..], r);
      if args[0].Range? {
        RangeEnds(args[0], r);
      } else {
        EvalEnds(h, args[0], r);
      }
    }
  }

  lemma RankFalls(p: Program, cone: set<string>, rank: string -> nat, key: string, c: string)
    requires Acyclic(p, cone, rank) && key in cone && key in p && p[key].Computed? && Mentions(p[key].e, c)
    ensures Normalize(c) in cone && rank(Normalize(c)) < rank(key)
  {
    hide Mentions, Normalize;
  }

  lemma PlainEnds(h: Host, p: Program, key: string, n: nat)
    requires key !in p || !p[key].Computed?
    ensures Meaning(h, p, key, n + 1).Some?
  {
  }

  // A cell whose dependencies contain no cycle comes to an end, at a depth of its rank.
  lemma {:induction false} AcyclicEnds(h: Host, p: Program, cone: set<string>, rank: string -> nat, key: string)
    requires Acyclic(p, cone, rank) && key in cone
    ensures Meaning(h, p, key, rank(key) + 1).Some?
    decreases rank(key)
  {
    hide *;
    if key in p && p[key].Computed? {
      var e := p[key].e;
      forall c: string | Mentions(e, c)
        ensures At(h, p, rank(key))(c).Some?
      {
        RankFalls(p, cone, rank, key, c);
        AcyclicEnds(h, p, cone, rank, Normalize(c));
        MeaningStable(h, p, Normalize(c), rank(Normalize(c)) + 1, rank(key));
        AtIs(h, p, rank(key), c);
      }
      AllAnswer(e, At(h, p, rank(key)));
      EvalEnds(h, e, At(h, p, rank(key)));
      OneLevel(h, p, key, rank(key));
    } else {
      PlainEnds(h, p, key, rank(key));
    }
  }

  lemma AllAnswer(e: Expr, r: Resolver)
    requires forall c: string | Mentions(e, c) :: r(c).Some?
    ensures Answers(e, r)
  {
  }

  // Every listed formula cell without a cycle below it gets the value of its plain recursion.
  lemma AcyclicIsMeaning(h: Host, fmt: NumFormat, cells: map<string, SheetCell>, keys: seq<string>,
                         cone: set<string>, rank: string -> nat, key: string) returns (v: CellValue)
    requires Acyclic(ProgramOf(fmt, cells), cone, rank) && key in cone && Listed(keys, key)
    requires key in cells && DefOf(fmt, cells[key]).Computed?
    ensures Meaning(h, ProgramOf(fmt, cells), key, rank(key) + 1) == Some(v)
    ensures key in Recalculated(h, fmt, cells, keys) && Recalculated(h, fmt, cells, keys)[key] == cells[key].(value := v)
  {
    hide Meaning, Normalize, DefOf, Recalculated, Acyclic;
    AcyclicEnds(h, ProgramOf(fmt, cells), cone, rank, key);
    v := Meaning(h, ProgramOf(fmt, cells), key, rank(key) + 1).value;
    var i :| 0 <= i < |keys| && Normalize(keys[i]) == key;
    ProgramHas(fmt, cells, key);
    SameKeys(h, fmt, cells, keys);
    hide ProgramOf;
    RecalculatedIsMeaning(h, fmt, cells, keys, i, rank(key) + 1);
  }

  lemma SameKeys(h: Host, fmt: NumFormat, cells: map<string, SheetCell>, keys: seq<string>)
    ensures Recalculated(h, fmt, cells, keys).Keys == cells.Keys
  {
    hide Outcomes, ProgramOf;
  }

  ghost predicate Listed(keys: seq<string>, key: string) {
    exists i :: 0 <= i < |keys| && Normalize(keys[i]) == key
  }

  lemma ProgramHas(fmt: NumFormat, cells: map<string, SheetCell>, key: string)
    requires key in cells
    ensures key in ProgramOf(fmt, cells) && ProgramOf(fmt, cells)[key] == DefOf(fmt, cells[key])
  {
    hide DefOf;
  }

  // ----- Rings -----

  const ERROR_FUNCTIONS := {"SUM", "AVERAGE", "MIN", "MAX"}

  // An error in a cell of the ring becomes the value of the expression: the cell is the first
  // that can give an error.
  ghost predicate PassesOn(ring: set<string>, e: Expr) {
    match e
    case Cell(ref) => Normalize(ref.coord) in ring
    case Range(_, _) => RangeLabels(e) != [] && Normalize(RangeLabels(e)[0]) in ring
    case Binary(op, left, right) =>
      op != Concat && (PassesOn(ring, left) || ((left.Num? || left.Bool?) && PassesOn(ring, right)))
    case Func(name, args) => name in ERROR_FUNCTIONS && args != [] && PassesOn(ring, args[0])
    case _ => false
  }

  // Formulas each of which passes on the error of another.
  ghost predicate Ring(p: Program, ring: set<string>) {
    forall k :: k in ring ==> k in p && p[k].Computed? && PassesOn(ring, p[k].e)
  }

  ghost predicate Marked(ring: set<string>, memo: Memo) {
    forall k :: k in ring && k in memo ==> memo[k] == CYCLE_ERROR
  }

  lemma MarkedGrows(ring: set<string>, memo: Memo, key: string, v: CellValue)
    requires Marked(ring, memo) && (key in ring ==> v == CYCLE_ERROR)
    ensures Marked(ring, memo[key := v])
  {
  }

  // A reference into the ring comes back with the cycle marker, whatever was evaluated before
  // and whichever cells are being visited.
  lemma {:induction false} RingIsMarked(h: Host, p: Program, ring: set<string>, coord: string, visiting: set<string>, memo: Memo)
    requires Ring(p, ring) && Marked(ring, memo)
    ensures var r := Resolve(h, p, coord, visiting, memo);
            Marked(ring, r.memo) && (Normalize(coord) in ring ==> r.value == CYCLE_ERROR)
    decreases p.Keys - visiting, 0
  {
    hide Normalize, Evaluate, PassesOn, Marked;
    var key := Normalize(coord);
    RingCell(p, ring, key);
    if key in memo {
      MarkedEntry(ring, memo, key);
    } else if key !in visiting && key in p && p[key].Computed? {
      assert key in p.Keys - visiting;
      ExpressionMarked(h, p, ring, p[key].e, visiting + {key}, memo);
      hide Ring;
      var r := Evaluate(h, p, p[key].e, visiting + {key}, memo);
      MarkedGrows(ring, r.memo, key, r.value);
    } else if key !in visiting {
      hide Ring;
      MarkedGrows(ring, memo, key, PlainValue(p, key));
    }
  }

  lemma RingCell(p: Program, ring: set<string>, key: string)
    requires Ring(p, ring)
    ensures key in ring ==> key in p && p[key].Computed? && PassesOn(ring, p[key].e)
  {
    hide PassesOn;
  }

  lemma MarkedEntry(ring: set<string>, memo: Memo, key: string)
    requires Marked(ring, memo) && key in memo
    ensures key in ring ==> memo[key] == CYCLE_ERROR
  {
  }

  lemma {:induction false} LabelsMarked(h: Host, p: Program, ring: set<string>, labels: seq<string>, visiting: set<string>, memo: Memo)
    requires Ring(p, ring) && Marked(ring, memo)
    ensures var r := ResolveLabels(h, p, labels, visiting, memo);
            && Marked(ring, r.memo)
            && (labels != [] && Normalize(labels[0]) in ring ==> r.value != [] && r.value[0] == CYCLE_ERROR)
    decreases p.Keys - visiting, 1, |labels|
  {
    hide Ring, Marked, Normalize, Resolve;
    if labels != [] {
      RingIsMarked(h, p, ring, labels[0], visiting, memo);
      LabelsMarked(h, p, ring, labels[1..], visiting, Resolve(h, p, labels[0], visiting, memo).memo);
    }
  }

  lemma {:induction false} ExpressionMarked(h: Host, p: Program, ring: set<string>, e: Expr, visiting: set<string>, memo: Memo)
    requires Ring(p, ring) && Marked(ring, memo)
    ensures var r := Evaluate(h, p, e, visiting, memo);
            Marked(ring, r.memo) && (PassesOn(ring, e) ==> r.value == CYCLE_ERROR)
    decreases p.Keys - visiting, 2, e, 1
  {
    hide Ring, Marked, Normalize, RangeLabels, UnaryOp, PercentOp, BinaryOp, EvaluateCall;
    match e
    case Cell(ref) =>
      CellEvaluates(h, p, e, visiting, memo);
      RingIsMarked(h, p, ring, ref.coord, visiting, memo);
    case Range(_, _) => LabelsMarked(h, p, ring, RangeLabels(e), visiting, memo);
    case Unary(_, x) => ExpressionMarked(h, p, ring, x, visiting, memo);
    case Percent(x) => ExpressionMarked(h, p, ring, x, visiting, memo);
    case Binary(op, left, right) =>
      ExpressionMarked(h, p, ring, left, visiting, memo);
      var a := Evaluate(h, p, left, visiting, memo);
      ExpressionMarked(h, p, ring, right, visiting, a.memo);
      if op != Concat {
        ErrorsPass(h, op, a.value, Evaluate(h, p, right, visiting, a.memo).value);
      }
    case Func(name, args) => CallMarked(h, p, ring, name, args, visiting, memo);
    case Num(_) =>
    case Str(_) =>
    case Bool(_) =>
  }

  lemma ErrorsPass(h: Host, op: Operator, a: CellValue, b: CellValue)
    requires op != Concat
    ensures a == CYCLE_ERROR ==> BinaryOp(h, op, a, b) == CYCLE_ERROR
    ensures (a.Number? || a.Truth?) && b == CYCLE_ERROR ==> BinaryOp(h, op, a, b) == CYCLE_ERROR
  {
    hide CompareOp, NumOp;
  }

  lemma FirstErrorWins(h: Host, name: string, values: seq<CellValue>)
    requires name in ERROR_FUNCTIONS && values != [] && values[0] == CYCLE_ERROR
    ensures ListCall(h, name, values) == CYCLE_ERROR
  {
    hide Numbers, Sum, Least, Greatest;
  }

  lemma {:induction false} CallMarked(h: Host, p: Program, ring: set<string>, name: string, args: seq<Expr>, visiting: set<string>, memo: Memo)
    requires Ring(p, ring) && Marked(ring, memo)
    ensures var r := EvaluateCall(h, p, name, args, visiting, memo);
            && Marked(ring, r.memo)
            && (name in ERROR_FUNCTIONS && args != [] && PassesOn(ring, args[0]) ==> r.value == CYCLE_ERROR)
    decreases p.Keys - visiting, 2, args, 2
  {
    hide Ring, Marked, PassesOn, ListCall, UnaryCall, ModCall, RoundCall, ToBoolean, ToNumber, Evaluate, EvaluateArgs;
    if name in LIST_FUNCTIONS && name != "AI" {
      ArgsMarked(h, p, ring, args, visiting, memo);
      if name in ERROR_FUNCTIONS && args != [] && PassesOn(ring, args[0]) {
        FirstErrorWins(h, name, EvaluateArgs(h, p, args, visiting, memo).value);
      }
    } else if 1 <= |args| <= 3 {
      ExpressionMarked(h, p, ring, args[0], visiting, memo);
      if |args| > 1 {
        var a := Evaluate(h, p, args[0], visiting, memo);
        ExpressionMarked(h, p, ring, args[1], visiting, a.memo);
        if |args| > 2 {
          ExpressionMarked(h, p, ring, args[2], visiting, a.memo);
        }
      }
    }
  }

  lemma {:induction false} ArgsMarked(h: Host, p: Program, ring: set<string>, args: seq<Expr>, visiting: set<string>, memo: Memo)
    requires Ring(p, ring) && Marked(ring, memo)
    ensures var r := EvaluateArgs(h, p, args, visiting, memo);
            && Marked(ring, r.memo)
            && (args != [] && PassesOn(ring, args[0]) ==> r.value != [] && r.value[0] == CYCLE_ERROR)
    decreases p.Keys - visiting, 2, args, 1
  {
    hide Ring, Marked, PassesOn, EvaluateArg;
    if args != [] {
      ArgMarked(h, p, ring, args[0], visiting, memo);
      ArgsMarked(h, p, ring, args[1..], visiting, EvaluateArg(h, p, args[0], visiting, memo).memo);
    }
  }

  lemma {:induction false} ArgMarked(h: Host, p: Program, ring: set<string>, arg: Expr, visiting: set<string>, memo: Memo)
    requires Ring(p, ring) && Marked(ring, memo)
    ensures var r := EvaluateArg(h, p, arg, visiting, memo);
            Marked(ring, r.memo) && (PassesOn(ring, arg) ==> r.value != [] && r.value[0] == CYCLE_ERROR)
    decreases p.Keys - visiting, 2, arg, 2
  {
    hide Ring, Marked, Normalize, RangeLabels, Evaluate, ResolveLabels;
    if arg.Range? {
      LabelsMarked(h, p, ring, RangeLabels(arg), visiting, memo);
    } else {
      ExpressionMarked(h, p, ring, arg, visiting, memo);
    }
  }

  lemma OutcomeMarked(h: Host, p: Program, ring: set<string>, key: string, memo: Memo)
    requires Ring(p, ring) && Marked(ring, memo)
    ensures var r := Outcome(h, p, key, memo);
            Marked(ring, r.memo) && (key in ring ==> r.value == Some(CYCLE_ERROR))
  {
    hide Marked, PassesOn, Evaluate;
    RingCell(p, ring, key);
    if key in p && p[key].Computed? {
      ExpressionMarked(h, p, ring, p[key].e, {}, memo);
    }
  }

  lemma {:induction false} OutcomesMarked(h: Host, p: Program, ring: set<string>, keys: seq<string>, memo: Memo)
    requires Ring(p, ring) && Marked(ring, memo)
    ensures Marked(ring, Outcomes(h, p, keys, memo))
  {
    hide Ring, Outcome, Normalize;
    if keys != [] {
      var key := Normalize(keys[0]);
      OutcomeMarked(h, p, ring, key, memo);
      OutcomesMarked(h, p, ring, keys[1..], Outcome(h, p, key, memo).memo);
    }
  }

  // A recalculation writes the cycle marker into every listed cell of a ring, in any order.
  lemma RingIsWritten(h: Host, fmt: NumFormat, cells: map<string, SheetCell>, keys: seq<string>, ring: set<string>, key: string)
    requires Listed(keys, key) && key in ring && Ring(ProgramOf(fmt, cells), ring)
    ensures key in Recalculated(h, fmt, cells, keys)
    ensures Recalculated(h, fmt, cells, keys)[key].value == Text("#CYCLE!")
  {
    hide Normalize, DefOf, PassesOn, Outcomes;
    var p := ProgramOf(fmt, cells);
    var i :| 0 <= i < |keys| && Normalize(keys[i]) == key;
    RingCell(p, ring, key);
    OutcomesMarked(h, p, ring, keys, map[]);
    OutcomesCover(h, p, keys, map[], i);
    MarkedEntry(ring, Outcomes(h, p, keys, map[]), key);
  }
}
