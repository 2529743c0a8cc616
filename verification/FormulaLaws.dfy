/**
  What evaluation computes, in terms of real numbers, texts and truth values: the laws of the
  operators, the conditional, the scalar functions and the aggregates.
 */
module FormulaLaws {
  import opened Text
  import opened FormulaSyntax
  import opened FormulaEval
  import Coords

  // ----- How values count and read -----

  // The value counts as this number: blanks as zero, truth values as one and zero, texts as the number
  // they spell.
  ghost predicate Counts(h: Host, v: CellValue, x: real) {
    match v
    case Null => x == 0.0
    case Number(n) => x == n
    case Truth(b) => x == if b then 1.0 else 0.0
    case Text(s) => if forall i :: 0 <= i < |s| ==> IsSpace(s[i]) then x == 0.0 else h.numeric(Trim(s)) == Some(x)
  }

  ghost predicate NoNumber(h: Host, v: CellValue) {
    v.Text? && (exists i :: 0 <= i < |v.s| && !IsSpace(v.s[i])) && h.numeric(Trim(v.s)).None?
  }

  // The value reads as this text.
  ghost predicate Reads(h: Host, v: CellValue, t: string) {
    match v
    case Null => t == ""
    case Number(n) => t == h.show(n)
    case Truth(b) => t == if b then "true" else "false"
    case Text(s) => t == s
  }

  // Texts from a hash to an exclamation mark are errors.
  ghost predicate IsError(v: CellValue) { v.Text? && |v.s| >= 1 && v.s[0] == '#' && v.s[|v.s| - 1] == '!' }

  ghost predicate Holds(h: Host, v: CellValue) {
    match v
    case Null => false
    case Number(n) => n != 0.0
    case Truth(b) => b
    case Text(s) => s != "" && h.lower(s) != "false"
  }

  lemma {:induction false} TrimBlank(s: string)
    ensures Trim(s) == "" <==> forall i :: 0 <= i < |s| ==> IsSpace(s[i])
  {
    TrimStartBlank(s);
    TrimEndBlank(TrimStart(s));
    assert Blank(s) <==> forall i :: 0 <= i < |s| ==> IsSpace(s[i]);
    hide IsSpace;
    if TrimStart(s) != "" {
      NotBlank(TrimStart(s));
    }
  }

  lemma NotBlank(s: string)
    requires s != "" && !IsSpace(s[0])
    ensures !Blank(s)
  {
    hide IsSpace;
  }

  ghost predicate Blank(s: string) { forall i :: 0 <= i < |s| ==> IsSpace(s[i]) }

  lemma TrimStartBlank(s: string)
    ensures TrimStart(s) == "" <==> Blank(s)
    ensures TrimStart(s) != "" ==> !IsSpace(TrimStart(s)[0])
  {
    RunStops(Space, s);
    var n := Run(Space, s);
    assert forall i :: 0 <= i < n ==> In(Space, s[..n][i]);
    if n < |s| {
      assert TrimStart(s)[0] == s[n];
    }
  }

  lemma {:induction false} TrimEndBlank(s: string)
    ensures TrimEnd(s) == "" <==> forall i :: 0 <= i < |s| ==> IsSpace(s[i])
  {
    hide IsSpace;
    if s != "" {
      TrimEndBlank(s[..|s| - 1]);
    }
  }

  lemma NumberIs(h: Host, v: CellValue, x: real)
    ensures ToNumber(h, v) == Some(x) <==> Counts(h, v, x)
    ensures ToNumber(h, v).None? <==> NoNumber(h, v)
  {
    if v.Text? {
      TrimBlank(v.s);
    }
    hide Trim, IsSpace;
  }

  // ----- Operators -----

  // What two operands evaluate to.
  ghost predicate Operands(h: Host, r: Resolver, a: Expr, u: CellValue, b: Expr, w: CellValue) {
    Eval(h, a, r) == Some(u) && Eval(h, b, r) == Some(w)
  }

  lemma BinaryIs(h: Host, r: Resolver, op: Operator, a: Expr, u: CellValue, b: Expr, w: CellValue)
    requires Operands(h, r, a, u, b, w)
    ensures Eval(h, Binary(op, a, b), r) == Some(BinaryOp(h, op, u, w))
  {
    hide BinaryOp, EvalCall, EvalRange, UnaryOp, PercentOp;
  }

  lemma ErrorIs(v: CellValue)
    ensures IsErrorValue(v) <==> IsError(v)
  {
  }

  lemma TimesIs(h: Host, u: CellValue, x: real, w: CellValue, y: real)
    requires ToNumber(h, u) == Some(x) && ToNumber(h, w) == Some(y)
    ensures NumOp(h, Times, u, w) == Number(x * y)
  {
    hide ToNumber;
  }

  lemma DivideIs(h: Host, u: CellValue, x: real, w: CellValue, y: real)
    requires ToNumber(h, u) == Some(x) && ToNumber(h, w) == Some(y)
    ensures NumOp(h, Divide, u, w) == if y == 0.0 then Text("#DIV/0!") else Number(x / y)
  {
    hide ToNumber;
  }

  lemma PlusIs(h: Host, u: CellValue, x: real, w: CellValue, y: real)
    requires ToNumber(h, u) == Some(x) && ToNumber(h, w) == Some(y)
    ensures NumOp(h, Plus, u, w) == Number(x + y) && NumOp(h, Minus, u, w) == Number(x - y)
    ensures NumOp(h, Power, u, w) == Number(h.pow(x, y))
  {
    hide ToNumber;
  }

  lemma NumOpUsed(h: Host, op: Operator, u: CellValue, w: CellValue)
    requires !IsErrorValue(u) && !IsErrorValue(w) && op in {Plus, Minus, Times, Divide, Power}
    ensures BinaryOp(h, op, u, w) == NumOp(h, op, u, w)
  {
    hide NumOp, IsErrorValue;
  }

  lemma Arithmetic(h: Host, r: Resolver, a: Expr, u: CellValue, x: real, b: Expr, w: CellValue, y: real)
    requires Operands(h, r, a, u, b, w) && !IsError(u) && !IsError(w) && Counts(h, u, x) && Counts(h, w, y)
    ensures Eval(h, Binary(Plus, a, b), r) == Some(Number(x + y))
    ensures Eval(h, Binary(Minus, a, b), r) == Some(Number(x - y))
    ensures Eval(h, Binary(Times, a, b), r) == Some(Number(x * y))
    ensures Eval(h, Binary(Divide, a, b), r) == if y == 0.0 then Some(Text("#DIV/0!")) else Some(Number(x / y))
    ensures Eval(h, Binary(Power, a, b), r) == Some(Number(h.pow(x, y)))
  {
    hide Eval, BinaryOp, NumOp, ToNumber, IsErrorValue;
    NumberIs(h, u, x);
    NumberIs(h, w, y);
    ErrorIs(u);
    ErrorIs(w);
    hide Counts, IsError;
    forall op | op in {Plus, Minus, Times, Divide, Power}
      ensures Eval(h, Binary(op, a, b), r) == Some(NumOp(h, op, u, w))
    {
      BinaryIs(h, r, op, a, u, b, w);
      NumOpUsed(h, op, u, w);
    }
    PlusIs(h, u, x, w, y);
    TimesIs(h, u, x, w, y);
    DivideIs(h, u, x, w, y);
  }

  lemma OperandErrors(h: Host, op: Operator, u: CellValue, w: CellValue)
    requires op != Concat
    ensures IsErrorValue(u) ==> BinaryOp(h, op, u, w) == u
    ensures !IsErrorValue(u) && IsErrorValue(w) ==> BinaryOp(h, op, u, w) == w
  {
    hide IsErrorValue, NumOp, CompareOp;
  }

  lemma NumOpFails(h: Host, op: Operator, u: CellValue, w: CellValue)
    requires ToNumber(h, u).None? || ToNumber(h, w).None?
    ensures NumOp(h, op, u, w) == Text("#VALUE!")
  {
    hide ToNumber;
  }

  // An error on the left comes before one on the right; a text that is no number is an error of its own.
  lemma ErrorsSpread(h: Host, r: Resolver, op: Operator, a: Expr, u: CellValue, b: Expr, w: CellValue)
    requires Operands(h, r, a, u, b, w) && op != Concat
    ensures IsError(u) ==> Eval(h, Binary(op, a, b), r) == Some(u)
    ensures !IsError(u) && IsError(w) ==> Eval(h, Binary(op, a, b), r) == Some(w)
    ensures !IsError(u) && !IsError(w) && op in {Plus, Minus, Times, Divide, Power} && (NoNumber(h, u) || NoNumber(h, w)) ==>
              Eval(h, Binary(op, a, b), r) == Some(Text("#VALUE!"))
  {
    hide Eval, BinaryOp, NumOp, ToNumber, IsErrorValue;
    BinaryIs(h, r, op, a, u, b, w);
    NumberIs(h, u, 0.0);
    NumberIs(h, w, 0.0);
    ErrorIs(u);
    ErrorIs(w);
    hide NoNumber, Counts, IsError;
    OperandErrors(h, op, u, w);
    if !IsErrorValue(u) && !IsErrorValue(w) && op in {Plus, Minus, Times, Divide, Power} && (NoNumber(h, u) || NoNumber(h, w)) {
      NumOpUsed(h, op, u, w);
      NumOpFails(h, op, u, w);
    }
  }

  lemma TextIs(h: Host, v: CellValue, t: string)
    ensures ToText(h, v) == t <==> Reads(h, v, t)
  {
  }

  lemma ConcatIs(h: Host, u: CellValue, w: CellValue)
    ensures BinaryOp(h, Concat, u, w) == Text(ToText(h, u) + ToText(h, w))
  {
    hide ToText;
  }

  lemma Concatenation(h: Host, r: Resolver, a: Expr, u: CellValue, s: string, b: Expr, w: CellValue, t: string)
    requires Operands(h, r, a, u, b, w) && Reads(h, u, s) && Reads(h, w, t)
    ensures Eval(h, Binary(Concat, a, b), r) == Some(Text(s + t))
  {
    hide Eval, BinaryOp, ToText;
    BinaryIs(h, r, Concat, a, u, b, w);
    TextIs(h, u, s);
    TextIs(h, w, t);
    ConcatIs(h, u, w);
  }

  // The six comparisons of two formulas, as truth values.
  ghost predicate Compared(h: Host, r: Resolver, a: Expr, b: Expr, lt: bool, eq: bool, gt: bool) {
    && Eval(h, Binary(Lt, a, b), r) == Some(Truth(lt)) && Eval(h, Binary(Ge, a, b), r) == Some(Truth(!lt))
    && Eval(h, Binary(Eq, a, b), r) == Some(Truth(eq)) && Eval(h, Binary(Ne, a, b), r) == Some(Truth(!eq))
    && Eval(h, Binary(Gt, a, b), r) == Some(Truth(gt)) && Eval(h, Binary(Le, a, b), r) == Some(Truth(!gt))
  }

  lemma ComparisonUsed(h: Host, op: Operator, u: CellValue, w: CellValue)
    requires !IsErrorValue(u) && !IsErrorValue(w) && op in {Eq, Ne, Lt, Gt, Le, Ge}
    ensures BinaryOp(h, op, u, w) == CompareOp(h, op, u, w)
  {
    hide CompareOp, IsErrorValue, NumOp;
  }

  lemma CompareNumbers(h: Host, op: Operator, u: CellValue, x: real, w: CellValue, y: real)
    requires ToNumber(h, u) == Some(x) && ToNumber(h, w) == Some(y)
    ensures CompareOp(h, op, u, w) == Ordered(op, x < y, x > y)
  {
    hide ToNumber, Ordered, ToText;
  }

  lemma CompareTexts(h: Host, op: Operator, u: CellValue, s: string, w: CellValue, t: string)
    requires (ToNumber(h, u).None? || ToNumber(h, w).None?) && ToText(h, u) == s && ToText(h, w) == t
    ensures CompareOp(h, op, u, w) == Ordered(op, s != t && h.textLess(s, t), s != t && !h.textLess(s, t))
  {
    hide ToNumber, Ordered, ToText;
  }

  // From the results of the comparisons to the formulas.
  lemma AllCompared(h: Host, r: Resolver, a: Expr, u: CellValue, b: Expr, w: CellValue, lt: bool, gt: bool)
    requires Operands(h, r, a, u, b, w) && !IsErrorValue(u) && !IsErrorValue(w) && !(lt && gt)
    requires forall op :: op in {Eq, Ne, Lt, Gt, Le, Ge} ==> CompareOp(h, op, u, w) == Ordered(op, lt, gt)
    ensures Compared(h, r, a, b, lt, !lt && !gt, gt)
  {
    hide Eval, BinaryOp, CompareOp, IsErrorValue;
    forall op | op in {Eq, Ne, Lt, Gt, Le, Ge}
      ensures Eval(h, Binary(op, a, b), r) == Some(Ordered(op, lt, gt))
    {
      BinaryIs(h, r, op, a, u, b, w);
      ComparisonUsed(h, op, u, w);
    }
  }

  // Comparisons are of numbers where both sides count as numbers,
  lemma NumberComparisons(h: Host, r: Resolver, a: Expr, u: CellValue, x: real, b: Expr, w: CellValue, y: real)
    requires Operands(h, r, a, u, b, w) && !IsError(u) && !IsError(w) && Counts(h, u, x) && Counts(h, w, y)
    ensures Compared(h, r, a, b, x < y, x == y, x > y)
  {
    hide Eval, BinaryOp, CompareOp, IsErrorValue, ToNumber, Ordered;
    NumberIs(h, u, x);
    NumberIs(h, w, y);
    ErrorIs(u);
    ErrorIs(w);
    hide Counts, IsError, Compared;
    forall op | op in {Eq, Ne, Lt, Gt, Le, Ge}
      ensures CompareOp(h, op, u, w) == Ordered(op, x < y, x > y)
    {
      CompareNumbers(h, op, u, x, w, y);
    }
    AllCompared(h, r, a, u, b, w, x < y, x > y);
  }

  // and otherwise of texts, by the host's order.
  lemma TextComparisons(h: Host, r: Resolver, a: Expr, u: CellValue, s: string, b: Expr, w: CellValue, t: string)
    requires Operands(h, r, a, u, b, w) && !IsError(u) && !IsError(w) && (NoNumber(h, u) || NoNumber(h, w))
    requires Reads(h, u, s) && Reads(h, w, t)
    ensures Compared(h, r, a, b, s != t && h.textLess(s, t), s == t, s != t && !h.textLess(s, t))
  {
    hide Eval, BinaryOp, CompareOp, IsErrorValue, ToNumber, ToText, Ordered;
    NumberIs(h, u, 0.0);
    NumberIs(h, w, 0.0);
    ErrorIs(u);
    ErrorIs(w);
    TextIs(h, u, s);
    TextIs(h, w, t);
    hide Counts, IsError, NoNumber, Compared, Reads;
    var lt, gt := s != t && h.textLess(s, t), s != t && !h.textLess(s, t);
    forall op | op in {Eq, Ne, Lt, Gt, Le, Ge}
      ensures CompareOp(h, op, u, w) == Ordered(op, lt, gt)
    {
      CompareTexts(h, op, u, s, w, t);
    }
    AllCompared(h, r, a, u, b, w, lt, gt);
  }

  lemma UnariesAre(h: Host, r: Resolver, a: Expr, u: CellValue)
    requires Eval(h, a, r) == Some(u)
    ensures forall op :: Eval(h, Unary(op, a), r) == Some(UnaryOp(h, op, u))
    ensures Eval(h, Percent(a), r) == Some(PercentOp(h, u))
  {
    hide UnaryOp, PercentOp, EvalCall, EvalRange, BinaryOp;
  }

  lemma SignOf(h: Host, u: CellValue, x: real)
    ensures ToNumber(h, u) == Some(x) ==>
              UnaryOp(h, Minus, u) == Number(-x) && UnaryOp(h, Plus, u) == Number(x) && PercentOp(h, u) == Number(x / 100.0)
    ensures ToNumber(h, u).None? ==> UnaryOp(h, Minus, u) == UnaryOp(h, Plus, u) == PercentOp(h, u) == Text("#VALUE!")
  {
    hide ToNumber;
  }

  lemma Signs(h: Host, r: Resolver, a: Expr, u: CellValue, x: real)
    requires Eval(h, a, r) == Some(u)
    ensures Counts(h, u, x) ==>
              && Eval(h, Unary(Minus, a), r) == Some(Number(-x))
              && Eval(h, Unary(Plus, a), r) == Some(Number(x))
              && Eval(h, Percent(a), r) == Some(Number(x / 100.0))
    ensures NoNumber(h, u) ==>
              Eval(h, Unary(Minus, a), r) == Eval(h, Unary(Plus, a), r) == Eval(h, Percent(a), r) == Some(Text("#VALUE!"))
  {
    hide Eval, UnaryOp, PercentOp, ToNumber;
    UnariesAre(h, r, a, u);
    NumberIs(h, u, x);
    SignOf(h, u, x);
  }

  // ----- Laws of the operators -----

  // The expression evaluates to a number.
  ghost predicate IsNumber(h: Host, r: Resolver, e: Expr, x: real) { Eval(h, e, r) == Some(Number(x)) }

  lemma SumIs(h: Host, r: Resolver, a: Expr, x: real, b: Expr, y: real)
    requires IsNumber(h, r, a, x) && IsNumber(h, r, b, y)
    ensures IsNumber(h, r, Binary(Plus, a, b), x + y) && IsNumber(h, r, Binary(Minus, a, b), x - y)
  {
    Arithmetic(h, r, a, Number(x), x, b, Number(y), y);
  }

  lemma ProductIs(h: Host, r: Resolver, a: Expr, x: real, b: Expr, y: real, p: real)
    requires IsNumber(h, r, a, x) && IsNumber(h, r, b, y) && p == x * y
    ensures IsNumber(h, r, Binary(Times, a, b), p)
  {
    Arithmetic(h, r, a, Number(x), x, b, Number(y), y);
  }

  lemma QuotientIs(h: Host, r: Resolver, a: Expr, x: real, b: Expr, y: real, q: real)
    requires IsNumber(h, r, a, x) && IsNumber(h, r, b, y) && (y != 0.0 ==> q == x / y)
    ensures if y == 0.0 then Eval(h, Binary(Divide, a, b), r) == Some(Text("#DIV/0!")) else IsNumber(h, r, Binary(Divide, a, b), q)
  {
    Arithmetic(h, r, a, Number(x), x, b, Number(y), y);
  }

  // Of any formulas with numbers for values: subtraction takes back addition, zero adds nothing, and
  // the order of the summands does not matter.
  lemma SumLaws(h: Host, r: Resolver, a: Expr, x: real, b: Expr, y: real)
    requires IsNumber(h, r, a, x) && IsNumber(h, r, b, y)
    ensures Eval(h, Binary(Plus, Binary(Minus, a, b), b), r) == Eval(h, a, r)
    ensures Eval(h, Binary(Plus, a, Num(0.0)), r) == Eval(h, a, r)
    ensures Eval(h, Binary(Plus, a, b), r) == Eval(h, Binary(Plus, b, a), r)
  {
    Literals(h, r);
    hide Eval;
    SumIs(h, r, a, x, b, y);
    SumIs(h, r, b, y, a, x);
    SumIs(h, r, Binary(Minus, a, b), x - y, b, y);
    SumIs(h, r, a, x, Num(0.0), 0.0);
  }

  // One multiplies by nothing, and products distribute over sums.
  lemma ProductLaws(h: Host, r: Resolver, a: Expr, x: real, b: Expr, y: real, c: Expr, z: real)
    requires IsNumber(h, r, a, x) && IsNumber(h, r, b, y) && IsNumber(h, r, c, z)
    ensures Eval(h, Binary(Times, a, Num(1.0)), r) == Eval(h, a, r)
    ensures Eval(h, Binary(Times, a, Binary(Plus, b, c)), r) == Eval(h, Binary(Plus, Binary(Times, a, b), Binary(Times, a, c)), r)
  {
    Literals(h, r);
    hide Eval;
    var p, q := x * y, x * z;
    Neutral(x);
    Distributes(x, y, z);
    ProductIs(h, r, a, x, Num(1.0), 1.0, x);
    SumIs(h, r, b, y, c, z);
    ProductIs(h, r, a, x, Binary(Plus, b, c), y + z, p + q);
    ProductIs(h, r, a, x, b, y, p);
    ProductIs(h, r, a, x, c, z, q);
    SumIs(h, r, Binary(Times, a, b), p, Binary(Times, a, c), q);
  }

  lemma Neutral(x: real)
    ensures x * 1.0 == x
  {
  }

  // A quotient times its divisor is the dividend; nothing can be divided by zero.
  lemma QuotientLaws(h: Host, r: Resolver, a: Expr, x: real, b: Expr, y: real)
    requires IsNumber(h, r, a, x) && IsNumber(h, r, b, y)
    ensures if y == 0.0 then Eval(h, Binary(Divide, a, b), r) == Some(Text("#DIV/0!"))
            else Eval(h, Binary(Times, Binary(Divide, a, b), b), r) == Eval(h, a, r)
  {
    hide Eval;
    var q := if y == 0.0 then 0.0 else x / y;
    QuotientIs(h, r, a, x, b, y, q);
    if y != 0.0 {
      Quotient(x, y);
      ProductIs(h, r, Binary(Divide, a, b), q, b, y, x);
    }
  }

  lemma Literals(h: Host, r: Resolver)
    ensures IsNumber(h, r, Num(0.0), 0.0) && IsNumber(h, r, Num(1.0), 1.0) && IsNumber(h, r, Num(100.0), 100.0)
  {
  }

  lemma Distributes(x: real, y: real, z: real)
    ensures x * (y + z) == x * y + x * z
  {
  }

  lemma Quotient(x: real, y: real)
    requires y != 0.0
    ensures (x / y) * y == x
  {
  }

  lemma ComparedIs(h: Host, r: Resolver, a: Expr, x: real, b: Expr, y: real)
    requires IsNumber(h, r, a, x) && IsNumber(h, r, b, y)
    ensures Compared(h, r, a, b, x < y, x == y, x > y)
  {
    NumberComparisons(h, r, a, Number(x), x, b, Number(y), y);
    hide Eval;
  }

  // Exactly one of `<`, `=`, `>` is true and the other three comparisons are their negations; `<` is
  // irreflexive, `>` is `<` turned round, and the same may be added on both sides.
  lemma OrderLaws(h: Host, r: Resolver, a: Expr, x: real, b: Expr, y: real, c: Expr, z: real)
    requires IsNumber(h, r, a, x) && IsNumber(h, r, b, y) && IsNumber(h, r, c, z)
    ensures Compared(h, r, a, b, true, false, false) || Compared(h, r, a, b, false, true, false) || Compared(h, r, a, b, false, false, true)
    ensures Compared(h, r, a, a, false, true, false)
    ensures Eval(h, Binary(Gt, a, b), r) == Eval(h, Binary(Lt, b, a), r)
    ensures Eval(h, Binary(Lt, Binary(Plus, a, c), Binary(Plus, b, c)), r) == Eval(h, Binary(Lt, a, b), r)
  {
    hide Eval;
    SumIs(h, r, a, x, c, z);
    SumIs(h, r, b, y, c, z);
    ComparedIs(h, r, a, x, b, y);
    ComparedIs(h, r, b, y, a, x);
    ComparedIs(h, r, a, x, a, x);
    ComparedIs(h, r, Binary(Plus, a, c), x + z, Binary(Plus, b, c), y + z);
  }

  // A number and its negative add up to nothing; a hundred times a percentage is the number.
  lemma SignLaws(h: Host, r: Resolver, a: Expr, x: real)
    requires IsNumber(h, r, a, x)
    ensures Eval(h, Binary(Plus, a, Unary(Minus, a)), r) == Some(Number(0.0))
    ensures Eval(h, Unary(Plus, a), r) == Eval(h, a, r)
    ensures Eval(h, Binary(Times, Percent(a), Num(100.0)), r) == Eval(h, a, r)
  {
    Literals(h, r);
    Signs(h, r, a, Number(x), x);
    hide Eval;
    SumIs(h, r, a, x, Unary(Minus, a), -x);
    Quotient(x, 100.0);
    ProductIs(h, r, Percent(a), x / 100.0, Num(100.0), 100.0, x);
  }
}
