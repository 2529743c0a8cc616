/**
  The recursive-descent formula parser. The functions say what each grammar level makes of a
  token suffix at a nesting depth; the class is the parser with its cursor and depth counter.
 */
module FormulaParser {
  import opened Text
  import opened FormulaSyntax
  import FormulaLexer

  // ----- References inside one token -----

  // `$?` letters `$?` digits, and nothing else.
  function ParseRefPart(s: string): Option<RefNode> {
    var i := FormulaLexer.DollarLen(s);
    var j := i + Run(Letter, s[i..]);
    var k := j + FormulaLexer.DollarLen(s[j..]);
    if j == i || k == |s| || Run(Digit, s[k..]) != |s| - k then None
    else Some(RefNode(ToUpper(s[i..j]) + s[k..], i == 1, k == j + 1))
  }

  function ParseRef(text: string): Option<Expr> {
    var n := FirstColon(text);
    if n == |text| then
      match ParseRefPart(text)
      case None => None
      case Some(ref) => Some(Cell(ref))
    else
      var start, end := ParseRefPart(text[..n]), ParseRefPart(text[n + 1..]);
      if start.None? || end.None? then None else Some(Range(start.value, end.value))
  }

  // ----- Grammar levels over token suffixes; `None` is a syntax error -----

  datatype Step<+T> = Step(value: T, rest: seq<Token>)

  function Peek(ts: seq<Token>): Token {
    if ts == [] then Eof else ts[0]
  }

  // One level deeper, or out of depth.
  predicate Nests(depth: nat) { depth + 1 <= MAX_FORMULA_DEPTH }

  // The four left-associative levels; level 4 is `^`.
  function ParseLevel(fmt: NumFormat, level: nat, ts: seq<Token>, depth: nat): (r: Option<Step<Expr>>)
    requires level <= 4
    ensures r.Some? ==> |r.value.rest| < |ts|
    decreases |ts|, 9 - level
  {
    if level == 4 then ParsePower(fmt, ts, depth)
    else
      match ParseLevel(fmt, level + 1, ts, depth)
      case None => None
      case Some(Step(left, rest)) => LevelTail(fmt, level, left, rest, depth)
  }

  // The operators and right operands that follow `left` on one level.
  function LevelTail(fmt: NumFormat, level: nat, left: Expr, ts: seq<Token>, depth: nat): (r: Option<Step<Expr>>)
    requires level < 4
    ensures r.Some? ==> |r.value.rest| <= |ts|
    decreases |ts|, 0
  {
    if Peek(ts).OpTok? && OpLevel(Peek(ts).op) == level then
      match ParseLevel(fmt, level + 1, ts[1..], depth)
      case None => None
      case Some(Step(right, rest)) =>
        LevelTail(fmt, level, Binary(ts[0].op, left, right), rest, depth)
    else
      Some(Step(left, ts))
  }

  function ParsePower(fmt: NumFormat, ts: seq<Token>, depth: nat): (r: Option<Step<Expr>>)
    ensures r.Some? ==> |r.value.rest| < |ts|
    decreases |ts|, 4
  {
    match ParseUnary(fmt, ts, depth)
    case None => None
    case Some(Step(base, rest)) =>
      if Peek(rest) != OpTok(Power) then Some(Step(base, rest))
      else if !Nests(depth) then None
      else
        match ParsePower(fmt, rest[1..], depth + 1)
        case None => None
        case Some(Step(right, after)) => Some(Step(Binary(Power, base, right), after))
  }

  predicate IsSign(t: Token) { t == OpTok(Plus) || t == OpTok(Minus) }

  function ParseUnary(fmt: NumFormat, ts: seq<Token>, depth: nat): (r: Option<Step<Expr>>)
    ensures r.Some? ==> |r.value.rest| < |ts|
    decreases |ts|, 3
  {
    if !IsSign(Peek(ts)) then ParsePostfix(fmt, ts, depth)
    else if !Nests(depth) then None
    else
      match ParseUnary(fmt, ts[1..], depth + 1)
      case None => None
      case Some(Step(e, rest)) => Some(Step(Unary(ts[0].op, e), rest))
  }

  function ParsePostfix(fmt: NumFormat, ts: seq<Token>, depth: nat): (r: Option<Step<Expr>>)
    ensures r.Some? ==> |r.value.rest| < |ts|
    decreases |ts|, 2
  {
    match ParsePrimary(fmt, ts, depth)
    case None => None
    case Some(Step(e, rest)) => Some(PercentTail(e, rest))
  }

  function PercentTail(e: Expr, ts: seq<Token>): (r: Step<Expr>)
    ensures |r.rest| <= |ts|
    decreases |ts|
  {
    if Peek(ts) == PercentTok then PercentTail(Percent(e), ts[1..]) else Step(e, ts)
  }

  function ParsePrimary(fmt: NumFormat, ts: seq<Token>, depth: nat): (r: Option<Step<Expr>>)
    ensures r.Some? ==> |r.value.rest| < |ts|
    decreases |ts|, 1
  {
    match Peek(ts)
    case NumTok(text) => Some(Step(Num(fmt.read(text)), ts[1..]))
    case StrTok(text) => Some(Step(Str(text), ts[1..]))
    case BoolTok(truth) => Some(Step(Bool(truth), ts[1..]))
    case RefTok(text) =>
      (match ParseRef(text)
       case None => None
       case Some(e) => Some(Step(e, ts[1..])))
    case FuncTok(name) => ParseCall(fmt, name, ts[1..], depth)
    case LParen => ParseGroup(fmt, ts[1..], depth)
    case _ => None
  }

  // What follows a function name.
  function ParseCall(fmt: NumFormat, name: string, ts: seq<Token>, depth: nat): (r: Option<Step<Expr>>)
    ensures r.Some? ==> |r.value.rest| < |ts|
    decreases |ts|, 11
  {
    if Peek(ts) != LParen then None
    else if Peek(ts[1..]) == RParen then Some(Step(Func(name, []), ts[2..]))
    else
      match ParseArgs(fmt, [], ts[1..], depth)
      case None => None
      case Some(Step(args, rest)) =>
        if Peek(rest) == RParen then Some(Step(Func(name, args), rest[1..])) else None
  }

  // What follows an opening parenthesis.
  function ParseGroup(fmt: NumFormat, ts: seq<Token>, depth: nat): (r: Option<Step<Expr>>)
    ensures r.Some? ==> |r.value.rest| < |ts|
    decreases |ts|, 11
  {
    if !Nests(depth) then None
    else
      match ParseLevel(fmt, 0, ts, depth + 1)
      case None => None
      case Some(Step(e, rest)) =>
        if Peek(rest) == RParen then Some(Step(e, rest[1..])) else None
  }

  // One or more arguments separated by commas, after the ones in `args`.
  function ParseArgs(fmt: NumFormat, args: seq<Expr>, ts: seq<Token>, depth: nat): (r: Option<Step<seq<Expr>>>)
    ensures r.Some? ==> |r.value.rest| < |ts|
    decreases |ts|, 10
  {
    if !Nests(depth) then None
    else
      match ParseLevel(fmt, 0, ts, depth + 1)
      case None => None
      case Some(Step(e, rest)) =>
        if Peek(rest) == Comma then ParseArgs(fmt, args + [e], rest[1..], depth)
        else Some(Step(args + [e], rest))
  }

  function ParseTokens(fmt: NumFormat, ts: seq<Token>): Option<Expr> {
    match ParseLevel(fmt, 0, ts, 0)
    case None => None
    case Some(Step(e, rest)) => if Peek(rest) == Eof then Some(e) else None
  }

  datatype Outcome = NotAFormula | SyntaxError | Formula(expr: Expr)

  // `parseExpression`: null, a thrown syntax error, or an expression.
  function ParseExpression(fmt: NumFormat, raw: string): Outcome {
    var trimmed := Trim(raw);
    if trimmed == "" || trimmed[0] != '=' then NotAFormula
    else
      var body := Trim(trimmed[1..]);
      if body == "" then NotAFormula
      else
        match FormulaLexer.Lex(body)
        case None => SyntaxError
        case Some(ts) =>
          match ParseTokens(fmt, ts)
          case None => SyntaxError
          case Some(e) => Formula(e)
  }

  // ----- The parser object -----

  class Parser {
    const tokens: seq<Token>
    const fmt: NumFormat
    var pos: nat
    var depth: nat

    constructor (fmt: NumFormat, tokens: seq<Token>)
      requires tokens != [] && tokens[|tokens| - 1] == Eof
      ensures this.fmt == fmt && this.tokens == tokens && pos == 0 && depth == 0 && Valid()
    {
      this.fmt, this.tokens := fmt, tokens;
      pos, depth := 0, 0;
    }

    // The cursor stays on a token: the end marker is never passed over.
    ghost predicate Valid()
      reads this
    {
      pos < |tokens| && tokens[|tokens| - 1] == Eof
    }

    ghost function Rest(): seq<Token>
      requires Valid()
      reads this
    {
      tokens[pos..]
    }

    // A thrown error where the specification has none, and the same step otherwise.
    ghost predicate Meets<T(!new)>(spec: Option<Step<T>>, r: Option<T>)
      reads this
    {
      match (spec, r)
      case (None, None) => true
      case (Some(step), Some(value)) => Valid() && step == Step(value, Rest())
      case _ => false
    }

    method ParseBinary(level: nat) returns (r: Option<Expr>)
      requires Valid() && level <= 4
      modifies this
      ensures depth == old(depth)
      ensures Meets(ParseLevel(fmt, level, old(Rest()), old(depth)), r)
      decreases |tokens| - pos, 9 - level
    {
      if level == 4 {
        r := ParsePowerLevel();
        return;
      }
      var left := ParseBinary(level + 1);
      if left.None? {
        return None;
      }
      var e := left.value;
      ghost var spec := LevelTail(fmt, level, e, Rest(), depth);
      while tokens[pos].OpTok? && OpLevel(tokens[pos].op) == level
        invariant Valid() && depth == old(depth) && old(pos) < pos
        invariant LevelTail(fmt, level, e, Rest(), depth) == spec
        decreases |tokens| - pos
      {
        var op := tokens[pos].op;
        assert Rest()[1..] == tokens[pos + 1..];
        pos := pos + 1;
        var right := ParseBinary(level + 1);
        if right.None? {
          return None;
        }
        e := Binary(op, e, right.value);
      }
      r := Some(e);
    }

    method ParsePowerLevel() returns (r: Option<Expr>)
      requires Valid()
      modifies this
      ensures depth == old(depth)
      ensures Meets(ParsePower(fmt, old(Rest()), old(depth)), r)
      decreases |tokens| - pos, 4
    {
      var base := ParseUnaryLevel();
      if base.None? || tokens[pos] != OpTok(Power) {
        return base;
      }
      assert Rest()[1..] == tokens[pos + 1..];
      pos := pos + 1;
      if !Nests(depth) {
        return None;
      }
      depth := depth + 1;
      var right := ParsePowerLevel();
      depth := depth - 1;
      r := if right.None? then None else Some(Binary(Power, base.value, right.value));
    }

    method ParseUnaryLevel() returns (r: Option<Expr>)
      requires Valid()
      modifies this
      ensures depth == old(depth)
      ensures Meets(ParseUnary(fmt, old(Rest()), old(depth)), r)
      decreases |tokens| - pos, 3
    {
      if !IsSign(tokens[pos]) {
        r := ParsePostfixLevel();
        return;
      }
      var op := tokens[pos].op;
      assert Rest()[1..] == tokens[pos + 1..];
      pos := pos + 1;
      if !Nests(depth) {
        return None;
      }
      depth := depth + 1;
      var e := ParseUnaryLevel();
      depth := depth - 1;
      r := if e.None? then None else Some(Unary(op, e.value));
    }

    method ParsePostfixLevel() returns (r: Option<Expr>)
      requires Valid()
      modifies this
      ensures depth == old(depth)
      ensures Meets(ParsePostfix(fmt, old(Rest()), old(depth)), r)
      decreases |tokens| - pos, 2
    {
      r := ParsePrimaryLevel();
      if r.None? {
        return;
      }
      ghost var spec := PercentTail(r.value, Rest());
      while tokens[pos] == PercentTok
        invariant Valid() && depth == old(depth) && r.Some?
        invariant PercentTail(r.value, Rest()) == spec
        decreases |tokens| - pos
      {
        assert Rest()[1..] == tokens[pos + 1..];
        pos := pos + 1;
        r := Some(Percent(r.value));
      }
    }

    method ParsePrimaryLevel() returns (r: Option<Expr>)
      requires Valid()
      modifies this
      ensures depth == old(depth)
      ensures Meets(ParsePrimary(fmt, old(Rest()), old(depth)), r)
      decreases |tokens| - pos, 1
    {
      hide ParseCall, ParseGroup, ParseRef;
      var t := tokens[pos];
      ghost var ts := Rest();
      assert ts[1..] == tokens[pos + 1..] && Peek(ts) == t;
      if t == Eof {
        return None;
      }
      pos := pos + 1;
      assert Rest() == ts[1..];
      match t {
        case NumTok(text) => r := Some(Num(fmt.read(text)));
        case StrTok(text) => r := Some(Str(text));
        case BoolTok(truth) => r := Some(Bool(truth));
        case RefTok(text) => r := ParseRef(text);
        case FuncTok(name) => r := ParseFunction(name);
        case LParen => r := ParseParenthesised();
        case _ => r := None;
      }
    }

    method ParseFunction(name: string) returns (r: Option<Expr>)
      requires Valid()
      modifies this
      ensures depth == old(depth)
      ensures Meets(ParseCall(fmt, name, old(Rest()), old(depth)), r)
      decreases |tokens| - pos, 11
    {
      assert Rest()[1..] == tokens[pos + 1..];
      var open := Expect(LParen);
      if !open {
        return None;
      }
      assert Rest()[1..] == tokens[pos + 1..];
      var args := Some([]);
      if tokens[pos] != RParen {
        args := ParseArguments();
        if args.None? {
          return None;
        }
        assert Rest()[1..] == tokens[pos + 1..];
      } else {
        assert old(Rest())[2..] == tokens[pos + 1..];
      }
      var closed := Expect(RParen);
      r := if closed then Some(Func(name, args.value)) else None;
    }

    method ParseParenthesised() returns (r: Option<Expr>)
      requires Valid()
      modifies this
      ensures depth == old(depth)
      ensures Meets(ParseGroup(fmt, old(Rest()), old(depth)), r)
      decreases |tokens| - pos, 11
    {
      if !Nests(depth) {
        return None;
      }
      depth := depth + 1;
      r := ParseBinary(0);
      depth := depth - 1;
      if r.None? {
        return;
      }
      assert Rest()[1..] == tokens[pos + 1..];
      var closed := Expect(RParen);
      if !closed {
        r := None;
      }
    }

    method ParseArguments() returns (r: Option<seq<Expr>>)
      requires Valid()
      modifies this
      ensures depth == old(depth)
      ensures Meets(ParseArgs(fmt, [], old(Rest()), old(depth)), r)
      decreases |tokens| - pos, 10
    {
      var args: seq<Expr> := [];
      ghost var spec := ParseArgs(fmt, args, Rest(), depth);
      while true
        invariant Valid() && depth == old(depth) && old(pos) <= pos
        invariant ParseArgs(fmt, args, Rest(), depth) == spec
        decreases |tokens| - pos
      {
        if !Nests(depth) {
          return None;
        }
        depth := depth + 1;
        var e := ParseBinary(0);
        depth := depth - 1;
        if e.None? {
          return None;
        }
        args := args + [e.value];
        if tokens[pos] != Comma {
          return Some(args);
        }
        assert Rest()[1..] == tokens[pos + 1..];
        pos := pos + 1;
      }
      r := None;
    }

    // `expect`: false stands for the error it throws.
    method Expect(t: Token) returns (ok: bool)
      requires Valid() && t != Eof
      modifies `pos
      ensures ok == (tokens[old(pos)] == t)
      ensures ok ==> pos == old(pos) + 1 && Valid()
    {
      ok := tokens[pos] == t;
      pos := pos + 1;
    }

    method Parse() returns (r: Option<Expr>)
      requires Valid() && pos == 0 && depth == 0
      modifies this
      ensures r == ParseTokens(fmt, tokens)
    {
      assert Rest() == tokens;
      r := ParseBinary(0);
      if r.Some? && tokens[pos] != Eof {
        r := None;
      }
    }
  }

  method ParseFormula(fmt: NumFormat, raw: string) returns (r: Outcome)
    ensures r == ParseExpression(fmt, raw)
  {
    var trimmed := Trim(raw);
    if trimmed == "" || trimmed[0] != '=' {
      return NotAFormula;
    }
    var body := Trim(trimmed[1..]);
    if body == "" {
      return NotAFormula;
    }
    var ts := FormulaLexer.Tokenize(body);
    if ts.None? {
      return SyntaxError;
    }
    var parser := new Parser(fmt, ts.value);
    var e := parser.Parse();
    r := if e.None? then SyntaxError else Formula(e.value);
  }
}
