/** Printing formulas, and which expressions the parser can produce. */
module FormulaPrinter {
  import opened Text
  import opened FormulaSyntax
  import FormulaLexer

  // Letters then digits, the first group of letters in upper case.
  predicate CoordText(s: string) {
    var n := Run(Letter, s);
    && 0 < n < |s|
    && ToUpper(s[..n]) == s[..n]
    && Run(Digit, s[n..]) == |s| - n
  }

  // `refToString`: a reference that is not letters and digits is printed as it stands.
  function RefText(ref: RefNode): string {
    var s := ref.coord;
    var n := Run(Letter, s);
    if n == 0 || n == |s| || Run(Digit, s[n..]) != |s| - n then s
    else
      (if ref.colAbs then "$" else "") + s[..n] + (if ref.rowAbs then "$" else "") + s[n..]
  }

  // `stringifyExpression`
  function Print(fmt: NumFormat, e: Expr): string {
    match e
    case Num(v) => fmt.show(v)
    case Str(s) => Quote(s)
    case Bool(b) => if b then "TRUE" else "FALSE"
    case Cell(ref) => RefText(ref)
    case Range(start, end) => RefText(start) + ":" + RefText(end)
    case Func(name, args) => name + "(" + PrintArgs(fmt, args) + ")"
    case Binary(op, left, right) => "(" + Print(fmt, left) + OpText(op) + Print(fmt, right) + ")"
    case Unary(op, x) => "(" + OpText(op) + Print(fmt, x) + ")"
    case Percent(x) => Print(fmt, x) + "%"
  }

  function PrintArgs(fmt: NumFormat, args: seq<Expr>): string {
    if args == [] then ""
    else if |args| == 1 then Print(fmt, args[0])
    else Print(fmt, args[0]) + "," + PrintArgs(fmt, args[1..])
  }

  // ----- What the parser can produce -----

  predicate IsNumeral(s: string) {
    s != "" && FormulaLexer.NumberLen(s) == |s|
  }

  // A name the lexer takes for a function: an upper-case identifier that does not start like a
  // reference and is not a truth value.
  predicate IsFuncName(s: string) {
    && s != ""
    && FormulaLexer.IdentStart(s[0])
    && Run(Word, s) == |s|
    && ToUpper(s) == s
    && s != "TRUE" && s != "FALSE"
    && FormulaLexer.RefPartLen(s) == 0
  }

  predicate WellFormed(fmt: NumFormat, e: Expr) {
    match e
    case Num(v) => IsNumeral(fmt.show(v)) && fmt.read(fmt.show(v)) == v
    case Str(_) => true
    case Bool(_) => true
    case Cell(ref) => CoordText(ref.coord)
    case Range(start, end) => CoordText(start.coord) && CoordText(end.coord)
    case Func(name, args) => IsFuncName(name) && forall i :: 0 <= i < |args| ==> WellFormed(fmt, args[i])
    case Binary(_, left, right) => WellFormed(fmt, left) && WellFormed(fmt, right)
    case Unary(op, x) => (op == Plus || op == Minus) && WellFormed(fmt, x)
    case Percent(x) => WellFormed(fmt, x)
  }

  // `WellFormed` without its condition on numbers.
  predicate Shaped(e: Expr) {
    match e
    case Cell(ref) => CoordText(ref.coord)
    case Range(start, end) => CoordText(start.coord) && CoordText(end.coord)
    case Func(name, args) => IsFuncName(name) && forall i :: 0 <= i < |args| ==> Shaped(args[i])
    case Binary(_, left, right) => Shaped(left) && Shaped(right)
    case Unary(op, x) => (op == Plus || op == Minus) && Shaped(x)
    case Percent(x) => Shaped(x)
    case _ => true
  }

  // Every number prints as a numeral that reads back the same, as finite numbers do.
  predicate NumbersRead(fmt: NumFormat, e: Expr) {
    match e
    case Num(v) => IsNumeral(fmt.show(v)) && fmt.read(fmt.show(v)) == v
    case Func(_, args) => forall i :: 0 <= i < |args| ==> NumbersRead(fmt, args[i])
    case Binary(_, left, right) => NumbersRead(fmt, left) && NumbersRead(fmt, right)
    case Unary(_, x) => NumbersRead(fmt, x)
    case Percent(x) => NumbersRead(fmt, x)
    case _ => true
  }

  lemma {:induction false} WellFormedIs(fmt: NumFormat, e: Expr)
    ensures WellFormed(fmt, e) <==> Shaped(e) && NumbersRead(fmt, e)
  {
    hide IsNumeral, IsFuncName, CoordText;
    match e
    case Func(_, args) =>
      forall i | 0 <= i < |args|
        ensures WellFormed(fmt, args[i]) <==> Shaped(args[i]) && NumbersRead(fmt, args[i])
      {
        WellFormedIs(fmt, args[i]);
      }
    case Binary(_, left, right) =>
      WellFormedIs(fmt, left);
      WellFormedIs(fmt, right);
    case Unary(_, x) => WellFormedIs(fmt, x);
    case Percent(x) => WellFormedIs(fmt, x);
    case _ =>
  }

  // ----- When the printed text reads back -----

  // Nesting levels the parser spends on the printed form.
  function Cost(e: Expr): nat {
    match e
    case Func(_, args) => ArgsCost(args)
    case Binary(op, left, right) =>
      var r := if op == Power then 1 + Cost(right) else Cost(right);
      1 + Larger(Cost(left), r)
    case Unary(_, x) => 2 + Cost(x)
    case Percent(x) => Cost(x)
    case _ => 0
  }

  function ArgsCost(args: seq<Expr>): nat {
    if args == [] then 0 else Larger(1 + Cost(args[0]), ArgsCost(args[1..]))
  }

  // The tokens of the printed form.
  function Toks(fmt: NumFormat, e: Expr): (ts: seq<Token>)
    ensures ts != []
  {
    match e
    case Num(v) => [NumTok(fmt.show(v))]
    case Str(s) => [StrTok(s)]
    case Bool(b) => [BoolTok(b)]
    case Cell(ref) => [RefTok(RefText(ref))]
    case Range(start, end) => [RefTok(RefText(start) + ":" + RefText(end))]
    case Func(name, args) => [FuncTok(name), LParen] + ArgToks(fmt, args) + [RParen]
    case Binary(op, left, right) => [LParen] + Toks(fmt, left) + [OpTok(op)] + Toks(fmt, right) + [RParen]
    case Unary(op, x) => [LParen, OpTok(op)] + Toks(fmt, x) + [RParen]
    case Percent(x) => Toks(fmt, x) + [PercentTok]
  }

  function ArgToks(fmt: NumFormat, args: seq<Expr>): seq<Token> {
    if args == [] then []
    else if |args| == 1 then Toks(fmt, args[0])
    else Toks(fmt, args[0]) + [Comma] + ArgToks(fmt, args[1..])
  }

  // The strings of an expression, in printed order.
  function Strings(e: Expr): seq<string> {
    match e
    case Str(s) => [s]
    case Func(_, args) => ArgStrings(args)
    case Binary(_, left, right) => Strings(left) + Strings(right)
    case Unary(_, x) => Strings(x)
    case Percent(x) => Strings(x)
    case _ => []
  }

  function ArgStrings(args: seq<Expr>): seq<string> {
    if args == [] then [] else Strings(args[0]) + ArgStrings(args[1..])
  }

  // No string of the expression needs a JSON escape.
  predicate Escapeless(e: Expr) {
    forall i :: 0 <= i < |Strings(e)| ==> EscapeFree(Strings(e)[i])
  }

  // The printed form is within what the lexer and the parser accept.
  predicate Reparses(fmt: NumFormat, e: Expr) {
    Escapeless(e) && Cost(e) <= 100 && |Toks(fmt, e)| <= 1000
  }
}
