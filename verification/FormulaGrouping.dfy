/**
  How operators group: expressions written with only the parentheses that the precedence of the
  operators asks for are read back as they were.
 */
module FormulaGrouping {
  import opened Text
  import opened FormulaSyntax
  import opened FormulaParser
  import opened FormulaPrinter
  import opened FormulaReparse

  // The precedence table: comparisons bind loosest, then `&`, `+` and `-`, `*` and `/`, `^`.
  function Tier(op: Operator): (t: nat)
    ensures t <= 4
  {
    if op in {Eq, Ne, Lt, Gt, Le, Ge} then 0
    else if op == Concat then 1
    else if op in {Plus, Minus} then 2
    else if op in {Times, Divide} then 3
    else 4
  }

  lemma TierIsLevel(op: Operator)
    ensures OpLevel(op) == Tier(op)
  {
  }

  // A sign binds tighter than every operator, a percent sign tighter than a sign.
  function Grade(e: Expr): (g: nat)
    ensures g <= 7
  {
    match e
    case Binary(op, _, _) => Tier(op)
    case Unary(_, _) => 5
    case Percent(_) => 6
    case _ => 7
  }

  // The tokens without outer parentheses: operators group to the left, but `^` to the right.
  function Bare(fmt: NumFormat, e: Expr): (ts: seq<Token>)
    ensures ts != []
    decreases e, 0
  {
    match e
    case Func(name, args) => [FuncTok(name), LParen] + LeanArgs(fmt, args) + [RParen]
    case Binary(op, left, right) =>
      if op == Power then Lean(fmt, left, 5) + [OpTok(op)] + Lean(fmt, right, 4)
      else Lean(fmt, left, Tier(op)) + [OpTok(op)] + Lean(fmt, right, Tier(op) + 1)
    case Unary(op, x) => [OpTok(op)] + Lean(fmt, x, 5)
    case Percent(x) => Lean(fmt, x, 6) + [PercentTok]
    case _ => Toks(fmt, e)
  }

  // The same where only expressions of some grade may stand: any other one is put in parentheses.
  function Lean(fmt: NumFormat, e: Expr, grade: nat): (ts: seq<Token>)
    ensures ts != []
    decreases e, 1
  {
    if Grade(e) >= grade then Bare(fmt, e) else [LParen] + Bare(fmt, e) + [RParen]
  }

  function LeanArgs(fmt: NumFormat, args: seq<Expr>): seq<Token>
    decreases args, 2
  {
    if args == [] then []
    else if |args| == 1 then Lean(fmt, args[0], 0)
    else Lean(fmt, args[0], 0) + [Comma] + LeanArgs(fmt, args[1..])
  }

  // Nesting levels the parser spends on these tokens.
  function BareCost(e: Expr): nat
    decreases e, 0
  {
    match e
    case Func(_, args) => LeanArgsCost(args)
    case Binary(op, left, right) =>
      if op == Power then Larger(LeanCost(left, 5), 1 + LeanCost(right, 4))
      else Larger(LeanCost(left, Tier(op)), LeanCost(right, Tier(op) + 1))
    case Unary(_, x) => 1 + LeanCost(x, 5)
    case Percent(x) => LeanCost(x, 6)
    case _ => 0
  }

  function LeanCost(e: Expr, grade: nat): nat
    decreases e, 1
  {
    if Grade(e) >= grade then BareCost(e) else 1 + BareCost(e)
  }

  function LeanArgsCost(args: seq<Expr>): nat
    decreases args, 2
  {
    if args == [] then 0 else Larger(1 + LeanCost(args[0], 0), LeanArgsCost(args[1..]))
  }

  // ----- What the parser makes of them -----

  // The step that reads `e` and goes on with the operators of this level.
  ghost predicate LevelIs(fmt: NumFormat, level: nat, e: Expr, cost: nat, ts: seq<Token>, rest: seq<Token>, depth: nat)
    requires level < 4
  {
    ParseLevel(fmt, level, ts, depth) == if Fits(depth, cost) then LevelTail(fmt, level, e, rest, depth) else None
  }

  lemma SameContext(fmt: NumFormat, e: Expr, grade: nat)
    requires Grade(e) != grade
    ensures Lean(fmt, e, grade) == Lean(fmt, e, grade + 1) && LeanCost(e, grade) == LeanCost(e, grade + 1)
  {
  }

  lemma FirstOfLean(fmt: NumFormat, e: Expr)
    ensures Grade(e) >= 6 ==> !Bare(fmt, e)[0].OpTok?
    ensures !Lean(fmt, e, 6)[0].OpTok?
    ensures Bare(fmt, e)[0] != RParen && Lean(fmt, e, 6)[0] != RParen
  {
    match e
    case Percent(x) => FirstOfLean(fmt, x);
    case Binary(op, left, _) => BareStarts(fmt, e);
    case _ =>
  }

  lemma {:induction false} BareStarts(fmt: NumFormat, e: Expr)
    ensures Bare(fmt, e)[0] != RParen
  {
    match e
    case Percent(x) => BareStarts(fmt, x);
    case Binary(op, left, _) => BareStarts(fmt, left);
    case _ =>
  }

  // A level below `^`.
  lemma {:induction false} LeanReads(fmt: NumFormat, level: nat, e: Expr, rest: seq<Token>, depth: nat)
    requires level < 4 && WellFormed(fmt, e) && Stops(rest, level + 1) && depth <= MAX_FORMULA_DEPTH
    ensures LevelIs(fmt, level, e, LeanCost(e, level), Lean(fmt, e, level) + rest, rest, depth)
    decreases e, if Grade(e) < level then 1 else 0, 10 - level
  {
    if Grade(e) == level {
      InfixLean(fmt, e, rest, depth);
    } else {
      SameContext(fmt, e, level);
      if level < 3 {
        LeanReads(fmt, level + 1, e, rest, depth);
      } else {
        PowerLean(fmt, e, rest, depth);
      }
    }
  }

  // The tokens of `left op right` and what follows.
  lemma InfixTokens(fmt: NumFormat, e: Expr, rest: seq<Token>)
    requires e.Binary?
    ensures var t := Tier(e.op);
            var later := [OpTok(e.op)] + (Lean(fmt, e.right, if t == 4 then 4 else t + 1) + rest);
            && Lean(fmt, e, t) + rest == Lean(fmt, e.left, if t == 4 then 5 else t) + later
            && later[1..] == Lean(fmt, e.right, if t == 4 then 4 else t + 1) + rest
  {
    hide Lean;
    var t := Tier(e.op);
    BareInfix(fmt, e);
    var l, r := Lean(fmt, e.left, if t == 4 then 5 else t), Lean(fmt, e.right, if t == 4 then 4 else t + 1);
    hide Bare;
    assert l + [OpTok(e.op)] + r + rest == l + ([OpTok(e.op)] + (r + rest));
  }

  lemma BareInfix(fmt: NumFormat, e: Expr)
    requires e.Binary?
    ensures var t := Tier(e.op);
            Lean(fmt, e, t) == Lean(fmt, e.left, if t == 4 then 5 else t) + [OpTok(e.op)] + Lean(fmt, e.right, if t == 4 then 4 else t + 1)
    ensures var t := Tier(e.op);
            LeanCost(e, t) == if t == 4 then Larger(LeanCost(e.left, 5), 1 + LeanCost(e.right, 4))
                              else Larger(LeanCost(e.left, t), LeanCost(e.right, t + 1))
  {
  }

  lemma {:induction false} InfixLean(fmt: NumFormat, e: Expr, rest: seq<Token>, depth: nat)
    requires e.Binary? && Tier(e.op) < 4 && WellFormed(fmt, e) && Stops(rest, Tier(e.op) + 1) && depth <= MAX_FORMULA_DEPTH
    ensures LevelIs(fmt, Tier(e.op), e, LeanCost(e, Tier(e.op)), Lean(fmt, e, Tier(e.op)) + rest, rest, depth)
    decreases e, 0, 0
  {
    var t := Tier(e.op);
    var later := [OpTok(e.op)] + (Lean(fmt, e.right, t + 1) + rest);
    InfixTokens(fmt, e, rest);
    BareInfix(fmt, e);
    TierIsLevel(e.op);
    assert Stops(later, t + 1);
    LeanReads(fmt, t, e.left, later, depth);
    RightReads(fmt, t + 1, e.right, rest, depth);
    hide Lean, LeanCost, ParseLevel;
    assert LevelTail(fmt, t, e.left, later, depth) ==
           if Fits(depth, LeanCost(e.right, t + 1)) then LevelTail(fmt, t, e, rest, depth) else None;
  }

  // The right operand of a left-associative operator ends where its level ends.
  lemma {:induction false} RightReads(fmt: NumFormat, level: nat, e: Expr, rest: seq<Token>, depth: nat)
    requires 1 <= level <= 4 && WellFormed(fmt, e) && Stops(rest, level) && depth <= MAX_FORMULA_DEPTH
    ensures ParseLevel(fmt, level, Lean(fmt, e, level) + rest, depth) == Reads(Fits(depth, LeanCost(e, level)), e, rest)
    decreases e, 2, 0
  {
    if level < 4 {
      LeanReads(fmt, level, e, rest, depth);
      hide Lean, LeanCost, ParseLevel;
      assert LevelTail(fmt, level, e, rest, depth) == Some(Step(e, rest));
    } else {
      PowerLean(fmt, e, rest, depth);
    }
  }

  // From base and exponent to the power.
  lemma PowerJoins(fmt: NumFormat, ts: seq<Token>, left: Expr, l: nat, later: seq<Token>, right: Expr, r: nat,
                   rest: seq<Token>, depth: nat)
    requires Peek(later) == OpTok(Power) && depth <= MAX_FORMULA_DEPTH
    requires ParseUnary(fmt, ts, depth) == Reads(Fits(depth, l), left, later)
    requires Nests(depth) ==> ParsePower(fmt, later[1..], depth + 1) == Reads(Fits(depth + 1, r), right, rest)
    ensures ParsePower(fmt, ts, depth) == Reads(Fits(depth, Larger(l, 1 + r)), Binary(Power, left, right), rest)
  {
    hide ParseUnary;
  }

  lemma NoPower(fmt: NumFormat, ts: seq<Token>, e: Expr, cost: nat, rest: seq<Token>, depth: nat)
    requires Peek(rest) != OpTok(Power) && ParseUnary(fmt, ts, depth) == Reads(Fits(depth, cost), e, rest)
    ensures ParsePower(fmt, ts, depth) == Reads(Fits(depth, cost), e, rest)
  {
    hide ParseUnary;
  }

  lemma {:induction false} PowerLean(fmt: NumFormat, e: Expr, rest: seq<Token>, depth: nat)
    requires WellFormed(fmt, e) && Stops(rest, 4) && depth <= MAX_FORMULA_DEPTH
    ensures ParsePower(fmt, Lean(fmt, e, 4) + rest, depth) == Reads(Fits(depth, LeanCost(e, 4)), e, rest)
    decreases e, if Grade(e) < 4 then 1 else 0, 6
  {
    hide ParseUnary, ParsePower, Lean, LeanCost;
    if Grade(e) == 4 {
      var later := [OpTok(Power)] + (Lean(fmt, e.right, 4) + rest);
      InfixTokens(fmt, e, rest);
      BareInfix(fmt, e);
      UnaryLean(fmt, e.left, later, depth);
      if Nests(depth) {
        PowerLean(fmt, e.right, rest, depth + 1);
      }
      PowerJoins(fmt, Lean(fmt, e, 4) + rest, e.left, LeanCost(e.left, 5), later, e.right, LeanCost(e.right, 4), rest, depth);
    } else {
      SameContext(fmt, e, 4);
      UnaryLean(fmt, e, rest, depth);
      NoPower(fmt, Lean(fmt, e, 4) + rest, e, LeanCost(e, 4), rest, depth);
    }
  }

  // From the operand to the sign in front of it.
  lemma SignJoins(fmt: NumFormat, op: Operator, x: Expr, cost: nat, operand: seq<Token>, rest: seq<Token>, depth: nat)
    requires (op == Plus || op == Minus) && depth <= MAX_FORMULA_DEPTH
    requires Nests(depth) ==> ParseUnary(fmt, operand, depth + 1) == Reads(Fits(depth + 1, cost), x, rest)
    ensures ParseUnary(fmt, [OpTok(op)] + operand, depth) == Reads(Fits(depth, 1 + cost), Unary(op, x), rest)
  {
    hide ParsePostfix;
    assert ([OpTok(op)] + operand)[1..] == operand;
  }

  lemma NoSign(fmt: NumFormat, ts: seq<Token>, e: Expr, fits: bool, rest: seq<Token>, depth: nat)
    requires ts != [] && !ts[0].OpTok? && Peek(rest) != PercentTok
    requires ParsePostfix(fmt, ts, depth) == if fits then Some(PercentTail(e, rest)) else None
    ensures ParseUnary(fmt, ts, depth) == Reads(fits, e, rest)
  {
    hide ParsePostfix;
  }

  lemma SignTokens(fmt: NumFormat, e: Expr, rest: seq<Token>)
    requires e.Unary?
    ensures Lean(fmt, e, 5) + rest == [OpTok(e.op)] + (Lean(fmt, e.expr, 5) + rest)
    ensures LeanCost(e, 5) == 1 + LeanCost(e.expr, 5)
  {
  }

  lemma {:induction false} UnaryLean(fmt: NumFormat, e: Expr, rest: seq<Token>, depth: nat)
    requires WellFormed(fmt, e) && Peek(rest) != PercentTok && depth <= MAX_FORMULA_DEPTH
    ensures ParseUnary(fmt, Lean(fmt, e, 5) + rest, depth) == Reads(Fits(depth, LeanCost(e, 5)), e, rest)
    decreases e, if Grade(e) < 5 then 1 else 0, 5
  {
    hide ParseUnary, ParsePostfix, Lean, LeanCost;
    if e.Unary? {
      SignTokens(fmt, e, rest);
      if Nests(depth) {
        UnaryLean(fmt, e.expr, rest, depth + 1);
      }
      SignJoins(fmt, e.op, e.expr, LeanCost(e.expr, 5), Lean(fmt, e.expr, 5) + rest, rest, depth);
    } else {
      SameContext(fmt, e, 5);
      FirstOfLean(fmt, e);
      PostfixLean(fmt, e, rest, depth);
      NoSign(fmt, Lean(fmt, e, 5) + rest, e, Fits(depth, LeanCost(e, 5)), rest, depth);
    }
  }

  lemma {:induction false} PostfixLean(fmt: NumFormat, e: Expr, rest: seq<Token>, depth: nat)
    requires WellFormed(fmt, e) && depth <= MAX_FORMULA_DEPTH
    ensures ParsePostfix(fmt, Lean(fmt, e, 6) + rest, depth) ==
            if Fits(depth, LeanCost(e, 6)) then Some(PercentTail(e, rest)) else None
    decreases e, if Grade(e) < 6 then 1 else 0, 4
  {
    if e.Percent? {
      var later := [PercentTok] + rest;
      PostfixLean(fmt, e.expr, later, depth);
      assert Lean(fmt, e, 6) + rest == Lean(fmt, e.expr, 6) + later;
      assert later[1..] == rest;
    } else {
      SameContext(fmt, e, 6);
      PrimaryLean(fmt, e, rest, depth);
    }
  }

  lemma {:induction false} PrimaryLean(fmt: NumFormat, e: Expr, rest: seq<Token>, depth: nat)
    requires WellFormed(fmt, e) && depth <= MAX_FORMULA_DEPTH
    ensures ParsePrimary(fmt, Lean(fmt, e, 7) + rest, depth) == Reads(Fits(depth, LeanCost(e, 7)), e, rest)
    decreases e, if Grade(e) < 7 then 1 else 0, 3
  {
    if Grade(e) < 7 {
      GroupLean(fmt, e, rest, depth);
    } else if e.Func? {
      CallLean(fmt, e, rest, depth);
    } else {
      AtomReads(fmt, e, rest, depth);
    }
  }

  lemma {:induction false} GroupLean(fmt: NumFormat, e: Expr, rest: seq<Token>, depth: nat)
    requires WellFormed(fmt, e) && Grade(e) < 7 && depth <= MAX_FORMULA_DEPTH
    ensures ParsePrimary(fmt, Lean(fmt, e, 7) + rest, depth) == Reads(Fits(depth, LeanCost(e, 7)), e, rest)
    decreases e, 1, 2
  {
    var after := [RParen] + rest;
    var ts := Lean(fmt, e, 7) + rest;
    assert ts[1..] == Lean(fmt, e, 0) + after && after[1..] == rest;
    assert LeanCost(e, 7) == 1 + LeanCost(e, 0);
    if Nests(depth) {
      WholeLean(fmt, e, after, depth + 1);
    }
    hide ParseLevel, LeanCost;
    assert ParsePrimary(fmt, ts, depth) == ParseGroup(fmt, ts[1..], depth);
  }

  // A whole expression, up to a token that cannot go on with it.
  lemma {:induction false} WholeLean(fmt: NumFormat, e: Expr, after: seq<Token>, depth: nat)
    requires WellFormed(fmt, e) && Stops(after, 0) && depth <= MAX_FORMULA_DEPTH
    ensures ParseLevel(fmt, 0, Lean(fmt, e, 0) + after, depth) == Reads(Fits(depth, LeanCost(e, 0)), e, after)
    decreases e, 0, 11
  {
    LeanReads(fmt, 0, e, after, depth);
    hide ParseLevel, Lean, LeanCost;
    assert LevelTail(fmt, 0, e, after, depth) == Some(Step(e, after));
  }

  lemma {:induction false} CallLean(fmt: NumFormat, e: Expr, rest: seq<Token>, depth: nat)
    requires WellFormed(fmt, e) && e.Func? && depth <= MAX_FORMULA_DEPTH
    ensures ParsePrimary(fmt, Lean(fmt, e, 7) + rest, depth) == Reads(Fits(depth, LeanCost(e, 7)), e, rest)
    decreases e, 0, 1
  {
    var after, inner := [RParen] + rest, LeanArgs(fmt, e.args);
    LeanCall(fmt, e, rest);
    var call := [LParen] + (inner + after);
    FuncReads(fmt, e.name, call, depth);
    if e.args != [] {
      LeanArgsRead(fmt, [], e.args, after, depth);
      assert [] + e.args == e.args;
    }
    hide ParsePrimary, ParseCall, ParseArgs, Lean, LeanArgs, Reads, Fits, LeanArgsCost;
    LeanCloses(fmt, e.name, e.args, inner, rest, depth);
  }

  lemma LeanCall(fmt: NumFormat, e: Expr, rest: seq<Token>)
    requires e.Func?
    ensures Lean(fmt, e, 7) + rest == [FuncTok(e.name)] + ([LParen] + (LeanArgs(fmt, e.args) + ([RParen] + rest)))
    ensures e.args == [] ==> LeanArgs(fmt, e.args) == []
    ensures e.args != [] ==> LeanArgs(fmt, e.args) != [] && LeanArgs(fmt, e.args)[0] != RParen
    ensures LeanCost(e, 7) == LeanArgsCost(e.args)
  {
    if e.args != [] {
      BareStarts(fmt, e.args[0]);
    }
    assert [FuncTok(e.name), LParen] == [FuncTok(e.name)] + [LParen];
  }

  // From the arguments between the parentheses to the call.
  lemma LeanCloses(fmt: NumFormat, name: string, args: seq<Expr>, inner: seq<Token>, rest: seq<Token>, depth: nat)
    requires if args == [] then inner == []
             else inner != [] && inner[0] != RParen &&
                  ParseArgs(fmt, [], inner + ([RParen] + rest), depth) == Reads(Fits(depth, LeanArgsCost(args)), args, [RParen] + rest)
    requires depth <= MAX_FORMULA_DEPTH
    ensures ParseCall(fmt, name, [LParen] + (inner + ([RParen] + rest)), depth) ==
            Reads(Fits(depth, LeanArgsCost(args)), Func(name, args), rest)
  {
    hide ParseArgs;
    var after := [RParen] + rest;
    var ts := [LParen] + (inner + after);
    assert ts[1..] == inner + after && after[1..] == rest;
    if args == [] {
      assert inner + after == after && ts[2..] == rest;
    }
  }

  lemma {:induction false} LeanArgsRead(fmt: NumFormat, done: seq<Expr>, args: seq<Expr>, after: seq<Token>, depth: nat)
    requires args != [] && (forall i :: 0 <= i < |args| ==> WellFormed(fmt, args[i]))
    requires Peek(after) == RParen && depth <= MAX_FORMULA_DEPTH
    ensures ParseArgs(fmt, done, LeanArgs(fmt, args) + after, depth) == Reads(Fits(depth, LeanArgsCost(args)), done + args, after)
    decreases args, 0, 12
  {
    hide ParseArgs, ParseLevel, Lean, LeanCost, LeanArgsCost, Reads, Fits, IsFuncName, CoordText, IsNumeral;
    var first := args[0];
    var later := if |args| == 1 then after else [Comma] + (LeanArgs(fmt, args[1..]) + after);
    if Nests(depth) {
      WholeLean(fmt, first, later, depth + 1);
      if |args| > 1 {
        LeanArgsRead(fmt, done + [first], args[1..], after, depth);
        assert later[1..] == LeanArgs(fmt, args[1..]) + after;
        assert done + [first] + args[1..] == done + args;
      }
    }
    assert LeanArgs(fmt, args) + after == Lean(fmt, first, 0) + later;
    assert |args| == 1 ==> done + [first] == done + args && args[1..] == [];
    LeanArgsStep(fmt, done, args, Lean(fmt, first, 0), later, after, depth);
  }

  // From the first argument and the arguments after it to all the arguments.
  lemma LeanArgsStep(fmt: NumFormat, done: seq<Expr>, args: seq<Expr>, first: seq<Token>, later: seq<Token>,
                     after: seq<Token>, depth: nat)
    requires args != [] && Peek(after) == RParen && depth <= MAX_FORMULA_DEPTH
    requires Nests(depth) ==>
               ParseLevel(fmt, 0, first + later, depth + 1) == Reads(Fits(depth + 1, LeanCost(args[0], 0)), args[0], later)
    requires |args| == 1 ==> later == after && done + [args[0]] == done + args && args[1..] == []
    requires |args| > 1 ==> Peek(later) == Comma
    requires |args| > 1 && Nests(depth) ==>
               ParseArgs(fmt, done + [args[0]], later[1..], depth) == Reads(Fits(depth, LeanArgsCost(args[1..])), done + args, after)
    ensures ParseArgs(fmt, done, first + later, depth) == Reads(Fits(depth, LeanArgsCost(args)), done + args, after)
  {
    hide LeanCost;
    assert LeanArgsCost(args) == Larger(1 + LeanCost(args[0], 0), LeanArgsCost(args[1..]));
  }

  // ----- The main results -----

  // An expression written with only the parentheses that precedence and associativity ask for parses
  // to the same expression, exactly when its nesting is within the limit.
  lemma LeanReparse(fmt: NumFormat, e: Expr)
    requires WellFormed(fmt, e)
    ensures ParseTokens(fmt, Lean(fmt, e, 0) + [Eof]) == if LeanCost(e, 0) <= 100 then Some(e) else None
  {
    WholeLean(fmt, e, [Eof], 0);
  }

  // `outer` takes `inner` on its right without parentheses.
  predicate TighterThan(inner: Operator, outer: Operator) {
    match inner
    case Power => true
    case Times | Divide => outer !in {Times, Divide, Power}
    case Plus | Minus => outer in {Concat, Eq, Ne, Lt, Gt, Le, Ge}
    case Concat => outer in {Eq, Ne, Lt, Gt, Le, Ge}
    case _ => false
  }

  lemma TighterIs(inner: Operator, outer: Operator)
    ensures TighterThan(inner, outer) <==> Tier(inner) > Tier(outer) || (Tier(inner) == 4 && Tier(outer) == 4)
  {
  }

  // Two operators between three operands that need no parentheses: the second one takes the middle
  // operand exactly when it binds tighter, or both are `^`.
  lemma TwoOperators(fmt: NumFormat, a: Expr, o1: Operator, b: Expr, o2: Operator, c: Expr)
    requires WellFormed(fmt, a) && WellFormed(fmt, b) && WellFormed(fmt, c)
    requires Grade(a) == 7 && Grade(b) == 7 && Grade(c) == 7
    requires BareCost(a) <= 98 && BareCost(b) <= 98 && BareCost(c) <= 98
    ensures ParseTokens(fmt, Bare(fmt, a) + [OpTok(o1)] + Bare(fmt, b) + [OpTok(o2)] + Bare(fmt, c) + [Eof]) ==
            Some(if TighterThan(o2, o1) then Binary(o1, a, Binary(o2, b, c)) else Binary(o2, Binary(o1, a, b), c))
  {
    hide ParseTokens, Lean, Bare, LeanCost, BareCost, Tier;
    TighterIs(o2, o1);
    if TighterThan(o2, o1) {
      hide TighterThan, Grade;
      ToTheRight(fmt, a, o1, b, o2, c);
      LeanReparse(fmt, Binary(o1, a, Binary(o2, b, c)));
    } else {
      hide TighterThan, Grade;
      ToTheLeft(fmt, a, o1, b, o2, c);
      LeanReparse(fmt, Binary(o2, Binary(o1, a, b), c));
    }
  }

  lemma Alone(fmt: NumFormat, e: Expr, grade: nat)
    requires grade <= Grade(e)
    ensures Lean(fmt, e, grade) == Bare(fmt, e) && LeanCost(e, grade) == BareCost(e)
  {
  }

  // An operand of the highest grade on either side.
  lemma TwoSides(fmt: NumFormat, op: Operator, left: Expr, right: Expr)
    requires var t := Tier(op); Grade(left) >= (if t == 4 then 5 else t) && Grade(right) >= if t == 4 then 4 else t + 1
    ensures Bare(fmt, Binary(op, left, right)) == Bare(fmt, left) + [OpTok(op)] + Bare(fmt, right)
    ensures BareCost(Binary(op, left, right)) <= 1 + Larger(BareCost(left), BareCost(right))
  {
    hide Bare, Lean, LeanCost, BareCost;
    var t := Tier(op);
    BareInfix(fmt, Binary(op, left, right));
    Alone(fmt, Binary(op, left, right), t);
    Alone(fmt, left, if t == 4 then 5 else t);
    Alone(fmt, right, if t == 4 then 4 else t + 1);
  }

  lemma ToTheRight(fmt: NumFormat, a: Expr, o1: Operator, b: Expr, o2: Operator, c: Expr)
    requires Grade(a) == 7 && Grade(b) == 7 && Grade(c) == 7
    requires Tier(o2) > Tier(o1) || (Tier(o2) == 4 && Tier(o1) == 4)
    ensures var e := Binary(o1, a, Binary(o2, b, c));
            && Lean(fmt, e, 0) == Bare(fmt, a) + [OpTok(o1)] + Bare(fmt, b) + [OpTok(o2)] + Bare(fmt, c)
            && LeanCost(e, 0) <= 2 + Larger(BareCost(a), Larger(BareCost(b), BareCost(c)))
  {
    hide Bare, Lean, LeanCost, BareCost, Tier;
    TwoSides(fmt, o2, b, c);
    TwoSides(fmt, o1, a, Binary(o2, b, c));
    Alone(fmt, Binary(o1, a, Binary(o2, b, c)), 0);
    Regrouped(Bare(fmt, a), [OpTok(o1)], Bare(fmt, b), [OpTok(o2)], Bare(fmt, c));
  }

  lemma Regrouped<T>(a: seq<T>, b: seq<T>, c: seq<T>, d: seq<T>, e: seq<T>)
    ensures a + b + (c + d + e) == a + b + c + d + e
  {
  }

  lemma ToTheLeft(fmt: NumFormat, a: Expr, o1: Operator, b: Expr, o2: Operator, c: Expr)
    requires Grade(a) == 7 && Grade(b) == 7 && Grade(c) == 7
    requires Tier(o2) <= Tier(o1) && !(Tier(o2) == 4 && Tier(o1) == 4)
    ensures var e := Binary(o2, Binary(o1, a, b), c);
            && Lean(fmt, e, 0) == Bare(fmt, a) + [OpTok(o1)] + Bare(fmt, b) + [OpTok(o2)] + Bare(fmt, c)
            && LeanCost(e, 0) <= 2 + Larger(BareCost(a), Larger(BareCost(b), BareCost(c)))
  {
    hide Bare, Lean, LeanCost, BareCost, Tier;
    TwoSides(fmt, o1, a, b);
    TwoSides(fmt, o2, Binary(o1, a, b), c);
    Alone(fmt, Binary(o2, Binary(o1, a, b), c), 0);
  }
}
