/** What the parser makes of the tokens of a printed expression. */
module FormulaReparse {
  import opened Text
  import opened FormulaSyntax
  import opened FormulaParser
  import opened FormulaPrinter
  import FormulaLexer

  // ----- References -----

  lemma RefTextShape(ref: RefNode) returns (letters: string, digits: string, a: string, b: string)
    requires CoordText(ref.coord)
    ensures letters != "" && digits != "" && All(Letter, letters) && All(Digit, digits)
    ensures ToUpper(letters) == letters && ref.coord == letters + digits
    ensures a == (if ref.colAbs then "$" else "") && b == (if ref.rowAbs then "$" else "")
    ensures RefText(ref) == a + letters + b + digits
  {
    var n := Run(Letter, ref.coord);
    RunStops(Letter, ref.coord);
    RunStops(Digit, ref.coord[n..]);
    letters, digits := ref.coord[..n], ref.coord[n..];
    assert digits[..|digits|] == digits;
    a := if ref.colAbs then "$" else "";
    b := if ref.rowAbs then "$" else "";
  }

  // Where the pieces of a printed reference are; `tail` starts with its digits.
  lemma RefPieces(s: string, a: string, letters: string, b: string, tail: string)
    requires s == a + letters + b + tail && a in ["", "$"] && b in ["", "$"]
    requires letters != "" && tail != "" && All(Letter, letters) && IsDigit(tail[0])
    ensures FormulaLexer.DollarLen(s) == |a| && Run(Letter, s[|a|..]) == |letters|
    ensures FormulaLexer.DollarLen(s[|a| + |letters|..]) == |b|
    ensures s[|a|..|a| + |letters|] == letters
    ensures s[|a| + |letters| + |b|..] == tail
  {
    assert s[|a|..] == letters + (b + tail);
    assert s[|a|..|a| + |letters|] == letters;
    assert In(Letter, letters[0]);
    assert a == "" ==> s[0] == letters[0];
    assert (b + tail)[0] == (if b == "" then tail[0] else '$');
    RunAppend(Letter, letters, b + tail);
    assert s[|a| + |letters|..] == b + tail;
  }

  lemma PiecesParse(s: string, a: string, letters: string, b: string, digits: string)
    requires s == a + letters + b + digits && a in ["", "$"] && b in ["", "$"]
    requires letters != "" && digits != "" && All(Letter, letters) && All(Digit, digits)
    ensures ParseRefPart(s) == Some(RefNode(ToUpper(letters) + digits, a == "$", b == "$"))
  {
    assert In(Digit, digits[0]);
    RefPieces(s, a, letters, b, digits);
    assert digits[..|digits|] == digits;
    RunIs(Digit, digits, |digits|);
  }

  lemma RefPartReparses(ref: RefNode)
    requires CoordText(ref.coord)
    ensures ParseRefPart(RefText(ref)) == Some(ref)
  {
    var letters, digits, a, b := RefTextShape(ref);
    PiecesParse(RefText(ref), a, letters, b, digits);
  }

  lemma RefTextHasNoColon(ref: RefNode)
    requires CoordText(ref.coord)
    ensures forall i :: 0 <= i < |RefText(ref)| ==> RefText(ref)[i] != ':'
  {
    var letters, digits, a, b := RefTextShape(ref);
    assert forall i :: 0 <= i < |letters| ==> In(Letter, letters[i]);
    assert forall i :: 0 <= i < |digits| ==> In(Digit, digits[i]);
  }

  lemma CellReparses(ref: RefNode)
    requires CoordText(ref.coord)
    ensures ParseRef(RefText(ref)) == Some(Cell(ref))
  {
    RefTextHasNoColon(ref);
    FirstColonIs(RefText(ref), |RefText(ref)|);
    RefPartReparses(ref);
  }

  lemma RangeReparses(start: RefNode, end: RefNode)
    requires CoordText(start.coord) && CoordText(end.coord)
    ensures ParseRef(RefText(start) + ":" + RefText(end)) == Some(Range(start, end))
  {
    var a, b := RefText(start), RefText(end);
    var s := a + ":" + b;
    RefTextHasNoColon(start);
    FirstColonIs(s, |a|);
    assert s[..|a|] == a && s[|a| + 1..] == b;
    RefPartReparses(start);
    RefPartReparses(end);
  }

  // ----- Expressions -----

  lemma FirstToken(fmt: NumFormat, e: Expr)
    ensures !Toks(fmt, e)[0].OpTok? && Toks(fmt, e)[0] !in [RParen, PercentTok, Comma, Eof]
  {
    if e.Percent? {
      FirstToken(fmt, e.expr);
    }
  }

  // The step that reads `e` and leaves `rest`, unless `e` is nested too deep.
  function Reads<T>(fits: bool, value: T, rest: seq<Token>): Option<Step<T>> {
    if fits then Some(Step(value, rest)) else None
  }

  predicate Fits(depth: nat, cost: nat) { depth + cost <= MAX_FORMULA_DEPTH }

  // A token suffix at which every level from `level` on stops.
  predicate Stops(rest: seq<Token>, level: nat) {
    Peek(rest) != PercentTok && (Peek(rest).OpTok? ==> OpLevel(Peek(rest).op) < level)
  }

  lemma {:induction false} PostfixReads(fmt: NumFormat, e: Expr, rest: seq<Token>, depth: nat)
    requires WellFormed(fmt, e) && depth <= MAX_FORMULA_DEPTH
    ensures ParsePostfix(fmt, Toks(fmt, e) + rest, depth) ==
            if Fits(depth, Cost(e)) then Some(PercentTail(e, rest)) else None
    decreases e, 11
  {
    if e.Percent? {
      var later := [PercentTok] + rest;
      PostfixReads(fmt, e.expr, later, depth);
      assert Toks(fmt, e) + rest == Toks(fmt, e.expr) + later;
      assert later[1..] == rest;
    } else {
      PrimaryReads(fmt, e, rest, depth);
    }
  }

  lemma {:induction false} PrimaryReads(fmt: NumFormat, e: Expr, rest: seq<Token>, depth: nat)
    requires WellFormed(fmt, e) && depth <= MAX_FORMULA_DEPTH && !e.Percent?
    ensures ParsePrimary(fmt, Toks(fmt, e) + rest, depth) == Reads(Fits(depth, Cost(e)), e, rest)
    decreases e, 10
  {
    match e
    case Func(_, _) => CallReads(fmt, e, rest, depth);
    case Binary(_, _, _) => GroupReads(fmt, e, rest, depth);
    case Unary(_, _) => GroupReads(fmt, e, rest, depth);
    case _ => AtomReads(fmt, e, rest, depth);
  }

  lemma AtomReads(fmt: NumFormat, e: Expr, rest: seq<Token>, depth: nat)
    requires WellFormed(fmt, e) && (e.Num? || e.Str? || e.Bool? || e.Cell? || e.Range?)
    ensures ParsePrimary(fmt, Toks(fmt, e) + rest, depth) == Some(Step(e, rest))
  {
    if e.Cell? {
      CellReparses(e.ref);
      RefReads(fmt, RefText(e.ref), e, rest, depth);
    } else if e.Range? {
      RangeReparses(e.start, e.end);
      RefReads(fmt, RefText(e.start) + ":" + RefText(e.end), e, rest, depth);
    } else {
      assert (Toks(fmt, e) + rest)[1..] == rest;
    }
  }

  lemma RefReads(fmt: NumFormat, text: string, e: Expr, rest: seq<Token>, depth: nat)
    requires ParseRef(text) == Some(e)
    ensures ParsePrimary(fmt, [RefTok(text)] + rest, depth) == Some(Step(e, rest))
  {
    assert ([RefTok(text)] + rest)[1..] == rest;
  }

  lemma {:induction false} LevelReads(fmt: NumFormat, level: nat, e: Expr, rest: seq<Token>, depth: nat)
    requires level <= 4 && WellFormed(fmt, e) && Stops(rest, level) && depth <= MAX_FORMULA_DEPTH
    ensures ParseLevel(fmt, level, Toks(fmt, e) + rest, depth) == Reads(Fits(depth, Cost(e)), e, rest)
    decreases e, 20 - level
  {
    var ts := Toks(fmt, e) + rest;
    if level == 4 {
      FirstToken(fmt, e);
      PostfixReads(fmt, e, rest, depth);
      assert ParseUnary(fmt, ts, depth) == Reads(Fits(depth, Cost(e)), e, rest);
      assert ParsePower(fmt, ts, depth) == Reads(Fits(depth, Cost(e)), e, rest);
    } else {
      LevelReads(fmt, level + 1, e, rest, depth);
    }
  }

  // The inside of the parentheses around a printed binary or unary expression.
  function Inner(fmt: NumFormat, e: Expr): seq<Token>
    requires e.Binary? || e.Unary?
  {
    match e
    case Binary(op, left, right) => Toks(fmt, left) + [OpTok(op)] + Toks(fmt, right)
    case Unary(op, x) => [OpTok(op)] + Toks(fmt, x)
  }

  lemma {:induction false} GroupReads(fmt: NumFormat, e: Expr, rest: seq<Token>, depth: nat)
    requires WellFormed(fmt, e) && (e.Binary? || e.Unary?) && depth <= MAX_FORMULA_DEPTH
    ensures ParsePrimary(fmt, Toks(fmt, e) + rest, depth) == Reads(Fits(depth, Cost(e)), e, rest)
    decreases e, 9
  {
    if Nests(depth) {
      InnerReads(fmt, e, [RParen] + rest, depth + 1);
    }
    ClosingReads(fmt, e, Inner(fmt, e), rest, depth);
    GroupTokens(fmt, e, rest);
  }

  lemma GroupTokens(fmt: NumFormat, e: Expr, rest: seq<Token>)
    requires e.Binary? || e.Unary?
    ensures Toks(fmt, e) + rest == [LParen] + (Inner(fmt, e) + ([RParen] + rest))
  {
    if e.Binary? {
      Regroup([LParen], Toks(fmt, e.left), [OpTok(e.op)], Toks(fmt, e.right), [RParen], rest);
    } else {
      Regroup([LParen], [], [OpTok(e.op)], Toks(fmt, e.expr), [RParen], rest);
      assert [LParen, OpTok(e.op)] == [LParen] + [] + [OpTok(e.op)];
      assert [] + [OpTok(e.op)] == [OpTok(e.op)];
    }
  }

  lemma Regroup<T>(a: seq<T>, b: seq<T>, c: seq<T>, d: seq<T>, e: seq<T>, rest: seq<T>)
    ensures a + b + c + d + e + rest == a + ((b + c + d) + (e + rest))
  {
  }

  lemma {:induction false} InnerReads(fmt: NumFormat, e: Expr, after: seq<Token>, depth: nat)
    requires WellFormed(fmt, e) && (e.Binary? || e.Unary?) && 1 <= depth <= MAX_FORMULA_DEPTH
    requires Peek(after) == RParen
    ensures Cost(e) >= 1
    ensures ParseLevel(fmt, 0, Inner(fmt, e) + after, depth) == Reads(Fits(depth - 1, Cost(e)), e, after)
    decreases e, 8
  {
    hide ParseLevel, Inner, WellFormed, Reads, Peek;
    if e.Unary? {
      UnaryReads(fmt, 0, e, after, depth);
    } else {
      BinaryReads(fmt, 0, e, after, depth);
    }
  }

  // From the inside of a pair of parentheses to the pair.
  lemma ClosingReads(fmt: NumFormat, e: Expr, inner: seq<Token>, rest: seq<Token>, depth: nat)
    requires Cost(e) >= 1 && depth <= MAX_FORMULA_DEPTH
    requires Nests(depth) ==>
               ParseLevel(fmt, 0, inner + ([RParen] + rest), depth + 1) ==
               Reads(Fits(depth, Cost(e)), e, [RParen] + rest)
    ensures ParsePrimary(fmt, [LParen] + (inner + ([RParen] + rest)), depth) ==
            Reads(Fits(depth, Cost(e)), e, rest)
  {
    assert ([RParen] + rest)[1..] == rest;
    var ts := [LParen] + (inner + ([RParen] + rest));
    assert ts[1..] == inner + ([RParen] + rest);
    assert ParseGroup(fmt, ts[1..], depth) == Reads(Fits(depth, Cost(e)), e, rest);
  }

  lemma {:induction false} UnaryReads(fmt: NumFormat, level: nat, e: Expr, after: seq<Token>, depth: nat)
    requires level <= 4 && e.Unary? && WellFormed(fmt, e) && Peek(after) == RParen && depth <= MAX_FORMULA_DEPTH
    ensures ParseLevel(fmt, level, Inner(fmt, e) + after, depth) ==
            Reads(Fits(depth, 1 + Cost(e.expr)), e, after)
    decreases e, 4 - level
  {
    if level < 4 {
      hide Inner, WellFormed;
      UnaryReads(fmt, level + 1, e, after, depth);
    } else {
      FirstToken(fmt, e.expr);
      if Nests(depth) {
        PostfixReads(fmt, e.expr, after, depth + 1);
      }
      SignReads(fmt, e, Toks(fmt, e.expr), after, depth);
    }
  }

  // From the operand to the sign in front of it.
  lemma SignReads(fmt: NumFormat, e: Expr, operand: seq<Token>, after: seq<Token>, depth: nat)
    requires e.Unary? && (e.op == Plus || e.op == Minus) && Peek(after) == RParen && depth <= MAX_FORMULA_DEPTH
    requires operand != [] && !operand[0].OpTok? && operand == Toks(fmt, e.expr)
    requires Nests(depth) ==>
               ParsePostfix(fmt, operand + after, depth + 1) ==
               if Fits(depth + 1, Cost(e.expr)) then Some(PercentTail(e.expr, after)) else None
    ensures ParseLevel(fmt, 4, Inner(fmt, e) + after, depth) == Reads(Fits(depth, 1 + Cost(e.expr)), e, after)
  {
    var ts := Inner(fmt, e) + after;
    assert ts[1..] == operand + after;
    hide Toks, Cost, ParsePostfix, Inner;
    assert Nests(depth) ==> ParseUnary(fmt, ts[1..], depth + 1) == Reads(Fits(depth, 1 + Cost(e.expr)), e.expr, after);
    assert ParseUnary(fmt, ts, depth) == Reads(Fits(depth, 1 + Cost(e.expr)), e, after);
    assert ParsePower(fmt, ts, depth) == Reads(Fits(depth, 1 + Cost(e.expr)), e, after);
  }

  // What follows the left side of a printed binary expression.
  function Later(fmt: NumFormat, e: Expr, after: seq<Token>): seq<Token>
    requires e.Binary?
  {
    [OpTok(e.op)] + Toks(fmt, e.right) + after
  }

  lemma LaterIs(fmt: NumFormat, e: Expr, after: seq<Token>)
    requires e.Binary?
    ensures Inner(fmt, e) + after == Toks(fmt, e.left) + Later(fmt, e, after)
    ensures Later(fmt, e, after) != [] && Later(fmt, e, after)[0] == OpTok(e.op)
    ensures Later(fmt, e, after)[1..] == Toks(fmt, e.right) + after
  {
    hide Toks;
  }

  lemma {:induction false} BinaryReads(fmt: NumFormat, level: nat, e: Expr, after: seq<Token>, depth: nat)
    requires e.Binary? && WellFormed(fmt, e) && Peek(after) == RParen
    requires level <= OpLevel(e.op) && depth <= MAX_FORMULA_DEPTH
    ensures ParseLevel(fmt, level, Inner(fmt, e) + after, depth) ==
            Reads(Fits(depth, Cost(e) - 1), e, after)
    decreases e, 5 - level
  {
    if level < OpLevel(e.op) {
      hide Inner, WellFormed;
      BinaryReads(fmt, level + 1, e, after, depth);
    } else if level < 4 {
      InfixReads(fmt, e, after, depth);
    } else {
      PowerReads(fmt, e, after, depth);
    }
  }

  lemma {:induction false} InfixReads(fmt: NumFormat, e: Expr, after: seq<Token>, depth: nat)
    requires e.Binary? && WellFormed(fmt, e) && Peek(after) == RParen
    requires OpLevel(e.op) < 4 && depth <= MAX_FORMULA_DEPTH
    ensures ParseLevel(fmt, OpLevel(e.op), Inner(fmt, e) + after, depth) ==
            Reads(Fits(depth, Cost(e) - 1), e, after)
    decreases e, 0
  {
    var level, later := OpLevel(e.op), Later(fmt, e, after);
    LaterIs(fmt, e, after);
    assert Stops(later, level + 1) && Stops(after, level + 1);
    hide ParseLevel, Inner, Later, Toks;
    LevelReads(fmt, level + 1, e.left, later, depth);
    LevelReads(fmt, level + 1, e.right, after, depth);
    InfixJoins(fmt, e, later, after, depth);
  }

  // From the two sides of an operator to the expression.
  lemma InfixJoins(fmt: NumFormat, e: Expr, later: seq<Token>, after: seq<Token>, depth: nat)
    requires e.Binary? && Peek(after) == RParen && OpLevel(e.op) < 4 && depth <= MAX_FORMULA_DEPTH
    requires later != [] && later[0] == OpTok(e.op)
    requires ParseLevel(fmt, OpLevel(e.op) + 1, Toks(fmt, e.left) + later, depth) == Reads(Fits(depth, Cost(e.left)), e.left, later)
    requires ParseLevel(fmt, OpLevel(e.op) + 1, later[1..], depth) == Reads(Fits(depth, Cost(e.right)), e.right, after)
    ensures ParseLevel(fmt, OpLevel(e.op), Toks(fmt, e.left) + later, depth) == Reads(Fits(depth, Cost(e) - 1), e, after)
  {
    hide Toks;
    var level := OpLevel(e.op);
    assert LevelTail(fmt, level, e, after, depth) == Some(Step(e, after));
    assert LevelTail(fmt, level, e.left, later, depth) == Reads(Fits(depth, Cost(e.right)), e, after);
  }

  lemma {:induction false} PowerReads(fmt: NumFormat, e: Expr, after: seq<Token>, depth: nat)
    requires e.Binary? && WellFormed(fmt, e) && Peek(after) == RParen
    requires OpLevel(e.op) == 4 && depth <= MAX_FORMULA_DEPTH
    ensures ParseLevel(fmt, 4, Inner(fmt, e) + after, depth) == Reads(Fits(depth, Cost(e) - 1), e, after)
    decreases e, 0
  {
    var ts, later := Inner(fmt, e) + after, Later(fmt, e, after);
    LaterIs(fmt, e, after);
    FirstToken(fmt, e.left);
    PostfixReads(fmt, e.left, later, depth);
    if Nests(depth) {
      LevelReads(fmt, 4, e.right, after, depth + 1);
    }
    hide Inner, Later, Toks, WellFormed;
    assert ParseUnary(fmt, ts, depth) == Reads(Fits(depth, Cost(e.left)), e.left, later);
    if Nests(depth) {
      assert ParsePower(fmt, later[1..], depth + 1) == Reads(Fits(depth + 1, Cost(e.right)), e.right, after);
    }
    assert ParsePower(fmt, ts, depth) == Reads(Fits(depth, Cost(e) - 1), e, after);
  }

  lemma CallTokens(fmt: NumFormat, e: Expr, rest: seq<Token>)
    requires e.Func?
    ensures Toks(fmt, e) + rest == [FuncTok(e.name)] + ([LParen] + (ArgToks(fmt, e.args) + ([RParen] + rest)))
    ensures e.args == [] ==> ArgToks(fmt, e.args) == []
    ensures e.args != [] ==>
              ArgToks(fmt, e.args) != [] && ArgToks(fmt, e.args)[0] == Toks(fmt, e.args[0])[0]
  {
    hide Toks;
    assert Toks(fmt, e) == [FuncTok(e.name), LParen] + ArgToks(fmt, e.args) + [RParen] by {
      CallToks(fmt, e);
    }
    hide ArgToks;
    assert [FuncTok(e.name), LParen] == [FuncTok(e.name)] + [LParen];
  }

  lemma CallToks(fmt: NumFormat, e: Expr)
    requires e.Func?
    ensures Toks(fmt, e) == [FuncTok(e.name), LParen] + ArgToks(fmt, e.args) + [RParen]
  {
  }

  // From the arguments between the parentheses to the call.
  lemma CallCloses(fmt: NumFormat, name: string, args: seq<Expr>, inner: seq<Token>, rest: seq<Token>, depth: nat)
    requires if args == [] then inner == []
             else inner != [] && inner[0] != RParen &&
                  ParseArgs(fmt, [], inner + ([RParen] + rest), depth) == Reads(Fits(depth, ArgsCost(args)), args, [RParen] + rest)
    requires depth <= MAX_FORMULA_DEPTH
    ensures ParseCall(fmt, name, [LParen] + (inner + ([RParen] + rest)), depth) ==
            Reads(Fits(depth, ArgsCost(args)), Func(name, args), rest)
  {
    hide ParseArgs;
    var after := [RParen] + rest;
    var ts := [LParen] + (inner + after);
    assert ts[1..] == inner + after && after[1..] == rest;
    if args == [] {
      assert inner + after == after && ts[2..] == rest;
    }
  }

  lemma FuncReads(fmt: NumFormat, name: string, call: seq<Token>, depth: nat)
    ensures ParsePrimary(fmt, [FuncTok(name)] + call, depth) == ParseCall(fmt, name, call, depth)
  {
    hide ParseCall;
    assert ([FuncTok(name)] + call)[1..] == call;
  }

  lemma {:induction false} CallReads(fmt: NumFormat, e: Expr, rest: seq<Token>, depth: nat)
    requires WellFormed(fmt, e) && e.Func? && depth <= MAX_FORMULA_DEPTH
    ensures ParsePrimary(fmt, Toks(fmt, e) + rest, depth) == Reads(Fits(depth, Cost(e)), e, rest)
    decreases e, 9
  {
    var after, inner := [RParen] + rest, ArgToks(fmt, e.args);
    hide ParsePrimary, ParseCall, ParseArgs, Toks, ArgToks, Reads, Fits;
    CallTokens(fmt, e, rest);
    FuncReads(fmt, e.name, [LParen] + (inner + after), depth);
    if e.args != [] {
      FirstToken(fmt, e.args[0]);
      ArgsRead(fmt, [], e.args, after, depth);
      assert [] + e.args == e.args;
    }
    CallCloses(fmt, e.name, e.args, inner, rest, depth);
  }

  lemma {:induction false} ArgsRead(fmt: NumFormat, done: seq<Expr>, args: seq<Expr>, after: seq<Token>, depth: nat)
    requires args != [] && (forall i :: 0 <= i < |args| ==> WellFormed(fmt, args[i]))
    requires Peek(after) == RParen && depth <= MAX_FORMULA_DEPTH
    ensures ParseArgs(fmt, done, ArgToks(fmt, args) + after, depth) ==
            Reads(Fits(depth, ArgsCost(args)), done + args, after)
    decreases args, 0
  {
    hide ParseArgs, ParseLevel, Toks, Cost, ArgsCost;
    var first := args[0];
    var later := if |args| == 1 then after else [Comma] + (ArgToks(fmt, args[1..]) + after);
    if Nests(depth) {
      LevelReads(fmt, 0, first, later, depth + 1);
      if |args| > 1 {
        ArgsRead(fmt, done + [first], args[1..], after, depth);
        assert later[1..] == ArgToks(fmt, args[1..]) + after;
        assert done + [first] + args[1..] == done + args;
      } else {
        assert done + [first] == done + args;
      }
    }
    assert ArgToks(fmt, args) + after == Toks(fmt, first) + later;
    ArgsStep(fmt, done, args, Toks(fmt, first), later, after, depth);
  }

  // From the first argument and the arguments after it to all the arguments.
  lemma ArgsStep(fmt: NumFormat, done: seq<Expr>, args: seq<Expr>, first: seq<Token>, later: seq<Token>,
                 after: seq<Token>, depth: nat)
    requires args != [] && Peek(after) == RParen && depth <= MAX_FORMULA_DEPTH
    requires Nests(depth) ==>
               ParseLevel(fmt, 0, first + later, depth + 1) ==
               Reads(Fits(depth + 1, Cost(args[0])), args[0], later)
    requires |args| == 1 ==> later == after
    requires |args| > 1 ==> Peek(later) == Comma
    requires |args| > 1 && Nests(depth) ==>
               ParseArgs(fmt, done + [args[0]], later[1..], depth) ==
               Reads(Fits(depth, ArgsCost(args[1..])), done + args, after)
    ensures ParseArgs(fmt, done, first + later, depth) ==
            Reads(Fits(depth, ArgsCost(args)), done + args, after)
  {
    assert |args| == 1 ==> done + [args[0]] == done + args && args[1..] == [];
    assert ArgsCost(args) == Larger(1 + Cost(args[0]), ArgsCost(args[1..]));
  }

  // The tokens of a well-formed expression parse back to it exactly when its nesting fits.
  lemma TokensReparse(fmt: NumFormat, e: Expr)
    requires WellFormed(fmt, e)
    ensures ParseTokens(fmt, Toks(fmt, e) + [Eof]) ==
            if Cost(e) <= 100 then Some(e) else None
  {
    LevelReads(fmt, 0, e, [Eof], 0);
  }
}
