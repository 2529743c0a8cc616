/**
  Printing a formula and parsing it again. The text a structural edit stores denotes the
  expression it was printed from exactly when no string needs an escape and the printed form is
  within the nesting and token limits.
 */
module FormulaRoundTrip {
  import opened Text
  import opened FormulaSyntax
  import opened FormulaLexer
  import opened FormulaParser
  import opened FormulaPrinter
  import opened FormulaSound
  import FormulaReparse
  import opened FormulaRelex

  // ----- Printed text is never trimmed -----

  // A run of digits up to the end of a text ends with a digit.
  lemma DigitsEnd(s: string, i: nat)
    requires i < |s| && Run(Digit, s[i..]) == |s| - i
    ensures IsDigit(s[|s| - 1])
  {
    RunStops(Digit, s[i..]);
    assert In(Digit, s[i..][..|s| - i][|s| - i - 1]);
  }

  lemma NumeralEnds(s: string)
    requires IsNumeral(s)
    ensures IsDigit(s[|s| - 1])
  {
    var d := Run(Digit, s);
    var t := s[d..];
    var f := FractionLen(t);
    var u := s[d + f..];
    if ExponentLen(u) > 0 {
      var sign := if |u| > 1 && (u[1] == '+' || u[1] == '-') then 2 else 1;
      assert u[sign..] == s[d + f + sign..];
      hide Run;
      DigitsEnd(s, d + f + sign);
    } else if f > 0 {
      assert t[1..] == s[d + 1..];
      hide Run;
      DigitsEnd(s, d + 1);
    } else {
      assert s[0..] == s;
      hide Run;
      DigitsEnd(s, 0);
    }
  }

  lemma RefTextEnds(ref: RefNode)
    requires CoordText(ref.coord)
    ensures RefText(ref) != "" && IsDigit(RefText(ref)[|RefText(ref)| - 1])
  {
    var letters, digits, a, b := FormulaReparse.RefTextShape(ref);
    assert In(Digit, digits[|digits| - 1]);
  }

  lemma PrintEnds(fmt: NumFormat, e: Expr)
    requires WellFormed(fmt, e)
    ensures Print(fmt, e) != "" && !IsSpace(Print(fmt, e)[|Print(fmt, e)| - 1])
  {
    hide IsFuncName, CoordText, EscapeAll, PrintArgs, RefText;
    match e
    case Num(v) => NumeralEnds(fmt.show(v));
    case Cell(ref) => RefTextEnds(ref);
    case Range(_, end) => RefTextEnds(end);
    case Str(_) =>
    case Bool(_) =>
    case Func(_, _) =>
    case Binary(_, _, _) =>
    case Unary(_, _) =>
    case Percent(_) =>
  }

  // Parsing the stored text is lexing and parsing the printed body.
  lemma StoredBody(fmt: NumFormat, e: Expr)
    requires WellFormed(fmt, e)
    ensures ParseExpression(fmt, "=" + Print(fmt, e)) ==
            match Lex(Print(fmt, e))
            case None => SyntaxError
            case Some(ts) =>
              match ParseTokens(fmt, ts)
              case None => SyntaxError
              case Some(x) => Formula(x)
  {
    var body := Print(fmt, e);
    var raw := "=" + body;
    PrintStarts(fmt, e);
    PrintEnds(fmt, e);
    TrimTight(body);
    TrimTight(raw);
    assert raw[1..] == body;
  }

  // ----- Without escapes -----

  lemma EscapelessOutcome(fmt: NumFormat, e: Expr)
    requires WellFormed(fmt, e) && Escapeless(e)
    ensures ParseExpression(fmt, "=" + Print(fmt, e)) ==
            if |Toks(fmt, e)| <= MAX_FORMULA_TOKENS && Cost(e) <= MAX_FORMULA_DEPTH then Formula(e) else SyntaxError
  {
    var body := Print(fmt, e);
    StoredBody(fmt, e);
    LexFromIsTokenwise();
    PrintLexes(LexFrom, fmt, e, "");
    FormulaReparse.TokensReparse(fmt, e);
    BodyTokens(body, Toks(fmt, e));
  }

  lemma BodyTokens(body: string, ts: seq<Token>)
    requires Lexes(LexFrom, body, ts, "")
    ensures Lex(body) == if |ts| <= MAX_FORMULA_TOKENS then Some(ts + [Eof]) else None
  {
    hide Advance;
    var acc: seq<Token> := [];
    assert body + "" == body && acc + ts == ts;
    assert LexFrom(Cursor(body + "", acc)) ==
           if |acc| + |ts| <= MAX_FORMULA_TOKENS then LexFrom(Cursor("", acc + ts)) else None;
  }

  // ----- With an escape -----

  // In front of `rest`, whatever the lexer makes of `text` does not start with these strings.
  ghost predicate Spoils(lex: Lexer, text: string, strings: seq<string>, rest: string) {
    forall acc: seq<Token> ::
      var r := lex(Cursor(text + rest, acc));
      r.None? || !(StrTexts(acc) + strings <= StrTexts(r.value))
  }

  ghost predicate Spoiling(lex: Lexer) {
    forall s, rest :: !EscapeFree(s) ==> Spoils(lex, Quote(s), [s], rest)
  }

  lemma {:induction false} StrTextsAppend(a: seq<Token>, b: seq<Token>)
    ensures StrTexts(a + b) == StrTexts(a) + StrTexts(b)
  {
    if a == [] {
      assert a + b == b;
    } else {
      StrTextsAppend(a[1..], b);
      assert (a + b)[1..] == a[1..] + b;
    }
  }

  lemma SpoilsLater(lex: Lexer, a: string, ts: seq<Token>, b: string, strings: seq<string>, rest: string)
    requires Lexes(lex, a, ts, b + rest) && Spoils(lex, b, strings, rest)
    ensures Spoils(lex, a + b, StrTexts(ts) + strings, rest)
  {
    hide StrTexts;
    assert a + b + rest == a + (b + rest);
    forall acc: seq<Token>
      ensures var r := lex(Cursor(a + b + rest, acc));
              r.None? || !(StrTexts(acc) + (StrTexts(ts) + strings) <= StrTexts(r.value))
    {
      var r := lex(Cursor(b + rest, acc + ts));
      assert lex(Cursor(a + (b + rest), acc)) == if |acc| + |ts| <= MAX_FORMULA_TOKENS then r else None;
      if r.Some? {
        LongerStart(acc, ts, strings, StrTexts(r.value));
      }
    }
  }

  lemma LongerStart(acc: seq<Token>, ts: seq<Token>, strings: seq<string>, all: seq<string>)
    ensures StrTexts(acc) + (StrTexts(ts) + strings) <= all <==> StrTexts(acc + ts) + strings <= all
  {
    StrTextsAppend(acc, ts);
    assert StrTexts(acc) + (StrTexts(ts) + strings) == StrTexts(acc + ts) + strings;
  }

  lemma ShorterPrefix<T>(a: seq<T>, b: seq<T>, c: seq<T>, all: seq<T>)
    ensures a + (b + c) <= all ==> a + b <= all
  {
    assert a + (b + c) == (a + b) + c;
  }

  lemma SpoilsSooner(lex: Lexer, a: string, strings: seq<string>, b: string, more: seq<string>, rest: string)
    requires Spoils(lex, a, strings, b + rest)
    ensures Spoils(lex, a + b, strings + more, rest)
  {
    hide StrTexts;
    assert a + b + rest == a + (b + rest);
    forall acc: seq<Token>
      ensures var r := lex(Cursor(a + b + rest, acc));
              r.None? || !(StrTexts(acc) + (strings + more) <= StrTexts(r.value))
    {
      var r := lex(Cursor(a + (b + rest), acc));
      if r.Some? {
        ShorterPrefix(StrTexts(acc), strings, more, StrTexts(r.value));
      }
    }
  }

  // Where the escaped text first tells a string from itself: a position at which the two differ,
  // or the position after the string, which is then not a closing quote.
  lemma {:induction false} EscapeShows(s: string) returns (k: nat)
    requires !EscapeFree(s)
    ensures k <= |s| && k < |EscapeAll(s)|
    ensures if k < |s| then EscapeAll(s)[k] != s[k] else EscapeAll(s)[k] != '"'
    ensures |EscapeAll(s)| > |s|
  {
    LongerThan(s);
    if !NeedsEscape(s[0]) {
      var j := EscapeShows(s[1..]);
      k := j + 1;
    } else if s[0] != '\\' {
      k := 0;
    } else {
      k := 1;
      while k < |s| && s[k] == '\\'
        invariant 1 <= k <= |s|
        invariant forall i :: 0 <= i < k ==> s[i] == '\\'
      {
        k := k + 1;
      }
      Backslashes(s, k);
    }
  }

  lemma {:induction false} LongerThan(s: string)
    ensures |EscapeAll(s)| >= |s|
    ensures !EscapeFree(s) ==> |EscapeAll(s)| > |s|
  {
    if s != "" {
      LongerThan(s[1..]);
      if !NeedsEscape(s[0]) && EscapeFree(s[1..]) {
        assert forall i :: 0 < i < |s| ==> s[i] == s[1..][i - 1];
        assert EscapeFree(s);
      }
    }
  }

  lemma {:induction false} Backslashes(s: string, n: nat)
    requires n <= |s| && forall i :: 0 <= i < n ==> s[i] == '\\'
    ensures |EscapeAll(s)| >= 2 * n
    ensures forall i :: 0 <= i < 2 * n ==> EscapeAll(s)[i] == '\\'
  {
    if n > 0 {
      Backslashes(s[1..], n - 1);
      assert EscapeAll(s) == "\\\\" + EscapeAll(s[1..]);
    }
  }

  // A string that needs an escape is never read back as itself.
  lemma QuotedIsMisread(s: string, rest: string)
    requires !EscapeFree(s)
    ensures var r := Scan(Quote(s) + rest);
            r == Bad || (r.Found? && r.token.StrTok? && r.token.text != s)
  {
    var k := EscapeShows(s);
    var body := EscapeAll(s);
    var text := Quote(s) + rest;
    assert text == "\"" + body + ("\"" + rest);
    var n := FindQuote('"', text, 1);
    QuoteFound('"', text, 1);
    assert text[|body| + 1] == '"' && text[k + 1] == body[k];
    assert n == |s| + 1 && k < |s| ==> text[1..n][k] == text[k + 1];
  }

  lemma {:induction false} QuoteFound(quote: char, s: string, i: nat)
    requires i <= |s|
    ensures var n := FindQuote(quote, s, i);
            (n < |s| ==> s[n] == quote) && forall j :: i <= j < n ==> s[j] != quote
    decreases |s| - i
  {
    if i < |s| && s[i] != quote {
      QuoteFound(quote, s, i + 1);
    }
  }

  lemma {:induction false} LexExtends(c: Cursor)
    requires LexFrom(c).Some?
    ensures c.tokens <= LexFrom(c).value
    decreases |c.left|
  {
    hide Scan;
    if c.left != "" {
      LexExtends(Advance(c).value);
    }
  }

  lemma LexFromIsSpoiling()
    ensures Spoiling(LexFrom)
  {
    forall s, rest | !EscapeFree(s)
      ensures Spoils(LexFrom, Quote(s), [s], rest)
    {
      forall acc: seq<Token>
        ensures var r := LexFrom(Cursor(Quote(s) + rest, acc));
                r.None? || !(StrTexts(acc) + [s] <= StrTexts(r.value))
      {
        OneStringSpoils(s, rest, acc);
      }
    }
  }

  lemma OneStringSpoils(s: string, rest: string, acc: seq<Token>)
    requires !EscapeFree(s)
    ensures var r := LexFrom(Cursor(Quote(s) + rest, acc));
            r.None? || !(StrTexts(acc) + [s] <= StrTexts(r.value))
  {
    var c := Cursor(Quote(s) + rest, acc);
    QuotedIsMisread(s, rest);
    hide Scan, EscapeFree, Quote;
    if Advance(c).Some? {
      var next := Advance(c).value;
      if LexFrom(next).Some? {
        LexExtends(next);
        OtherString(acc, Scan(c.left).token, s, LexFrom(next).value);
      }
    }
  }

  lemma OtherString(acc: seq<Token>, t: Token, s: string, ts: seq<Token>)
    requires acc + [t] <= ts && t.StrTok? && t.text != s
    ensures !(StrTexts(acc) + [s] <= StrTexts(ts))
  {
    var more := ts[|acc| + 1..];
    assert ts == acc + [t] + more;
    StrTextsAppend(acc + [t], more);
    StrTextsAppend(acc, [t]);
    assert StrTexts([t]) == [t.text];
    assert StrTexts(ts)[|StrTexts(acc)|] == t.text;
  }

  // The strings of the tokens of an expression are its strings.
  lemma {:induction false} TokStrings(fmt: NumFormat, e: Expr)
    ensures StrTexts(Toks(fmt, e)) == Strings(e)
    decreases e, 2
  {
    match e
    case Func(_, args) => CallTokStrings(fmt, e);
    case Binary(_, _, _) => InfixTokStrings(fmt, e);
    case Unary(op, x) =>
      TokStrings(fmt, x);
      StrTextsAppend([LParen, OpTok(op)], Toks(fmt, x));
      StrTextsAppend([LParen, OpTok(op)] + Toks(fmt, x), [RParen]);
    case Percent(x) =>
      TokStrings(fmt, x);
      StrTextsAppend(Toks(fmt, x), [PercentTok]);
    case Num(_) =>
    case Str(_) =>
    case Bool(_) =>
    case Cell(_) =>
    case Range(_, _) =>
  }

  lemma {:induction false} CallTokStrings(fmt: NumFormat, e: Expr)
    requires e.Func?
    ensures StrTexts(Toks(fmt, e)) == Strings(e)
    decreases e, 1
  {
    var name, args := [FuncTok(e.name), LParen], ArgToks(fmt, e.args);
    ArgTokStrings(fmt, e.args);
    StrTextsAppend(name, args);
    StrTextsAppend(name + args, [RParen]);
  }

  lemma {:induction false} InfixTokStrings(fmt: NumFormat, e: Expr)
    requires e.Binary?
    ensures StrTexts(Toks(fmt, e)) == Strings(e)
    decreases e, 1
  {
    TokStrings(fmt, e.left);
    TokStrings(fmt, e.right);
    var a, b := [LParen] + Toks(fmt, e.left), [OpTok(e.op)];
    StrTextsAppend([LParen], Toks(fmt, e.left));
    StrTextsAppend(a, b);
    StrTextsAppend(a + b, Toks(fmt, e.right));
    StrTextsAppend(a + b + Toks(fmt, e.right), [RParen]);
  }

  lemma {:induction false} ArgTokStrings(fmt: NumFormat, args: seq<Expr>)
    ensures StrTexts(ArgToks(fmt, args)) == ArgStrings(args)
    decreases args, 0
  {
    if args != [] {
      TokStrings(fmt, args[0]);
      ArgTokStrings(fmt, args[1..]);
      if |args| == 1 {
        assert ArgStrings(args[1..]) == [];
      } else {
        StrTextsAppend(Toks(fmt, args[0]), [Comma]);
        StrTextsAppend(Toks(fmt, args[0]) + [Comma], ArgToks(fmt, args[1..]));
      }
    }
  }

  // ( text where the text is spoiled )
  lemma SpoilsInside(lex: Lexer, a: string, ts: seq<Token>, b: string, strings: seq<string>, c: string,
                     more: seq<string>, rest: string)
    requires Lexes(lex, a, ts, b + (c + rest)) && Spoils(lex, b, strings, c + rest)
    ensures Spoils(lex, a + b + c, StrTexts(ts) + strings + more, rest)
  {
    hide Lexes, Spoils;
    SpoilsLater(lex, a, ts, b, strings, c + rest);
    SpoilsSooner(lex, a + b, StrTexts(ts) + strings, c, more, rest);
  }

  lemma {:induction false} PrintSpoils(lex: Lexer, fmt: NumFormat, e: Expr, rest: string)
    requires Tokenwise(lex) && Spoiling(lex) && WellFormed(fmt, e) && !Escapeless(e)
    ensures Spoils(lex, Print(fmt, e), Strings(e), rest)
    decreases e, 1
  {
    hide Tokenwise, Lexes, IsFuncName, CoordText, IsNumeral;
    match e
    case Func(_, _) => CallSpoils(lex, fmt, e, rest);
    case Binary(_, _, _) => BinarySpoils(lex, fmt, e, rest);
    case Unary(op, x) =>
      UnarySpoils(lex, fmt, e, rest);
    case Percent(x) =>
      assert Strings(e) == Strings(x) + [];
      PrintSpoils(lex, fmt, x, "%" + rest);
      SpoilsSooner(lex, Print(fmt, x), Strings(x), "%", [], rest);
    case Str(s) =>
      assert !EscapeFree(s);
    case Num(_) =>
    case Bool(_) =>
    case Cell(_) =>
    case Range(_, _) =>
  }

  lemma {:induction false} UnarySpoils(lex: Lexer, fmt: NumFormat, e: Expr, rest: string)
    requires Tokenwise(lex) && Spoiling(lex) && e.Unary? && WellFormed(fmt, e) && !Escapeless(e)
    ensures Spoils(lex, Print(fmt, e), Strings(e), rest)
    decreases e, 0
  {
    hide Tokenwise, Lexes, Spoils, Spoiling;
    var op, x := OpText(e.op), Print(fmt, e.expr);
    assert Strings(e) == Strings(e.expr);
    PrintStarts(fmt, e.expr);
    PrintSpoils(lex, fmt, e.expr, ")" + rest);
    SymbolLexes(lex, LParen, op + (x + (")" + rest)));
    JoinSymbol(lex, "(", [LParen], OpTok(e.op), x + (")" + rest));
    SpoilsInside(lex, "(" + op, [LParen] + [OpTok(e.op)], x, Strings(e.expr), ")", [], rest);
    StrTextsAppend([LParen], [OpTok(e.op)]);
    assert [] + [] + Strings(e.expr) + [] == Strings(e);
  }

  lemma {:induction false} BinarySpoils(lex: Lexer, fmt: NumFormat, e: Expr, rest: string)
    requires Tokenwise(lex) && Spoiling(lex) && e.Binary? && WellFormed(fmt, e) && !Escapeless(e)
    ensures Spoils(lex, Print(fmt, e), Strings(e), rest)
    decreases e, 0
  {
    hide Tokenwise, Lexes, Spoils, Spoiling;
    var l, r, op := Print(fmt, e.left), Print(fmt, e.right), OpText(e.op);
    EscapelessParts(e);
    PrintStarts(fmt, e.right);
    if !Escapeless(e.left) {
      LeftSpoils(lex, fmt, e, rest);
    } else {
      RightSpoils(lex, fmt, e, rest);
    }
  }

  lemma {:induction false} LeftSpoils(lex: Lexer, fmt: NumFormat, e: Expr, rest: string)
    requires Tokenwise(lex) && Spoiling(lex) && e.Binary? && WellFormed(fmt, e) && !Escapeless(e.left)
    ensures Spoils(lex, Print(fmt, e), Strings(e), rest)
    decreases e.left, 2
  {
    PartsWellFormed(fmt, e);
    var later := OpText(e.op) + Print(fmt, e.right) + ")";
    PrintSpoils(lex, fmt, e.left, later + rest);
    LeftPrint(fmt, e);
    assert IsSymbol(LParen) && TokText(LParen) == "(" && ClearOf(LParen, Print(fmt, e.left) + (later + rest));
    hide *;
    SymbolLexes(lex, LParen, Print(fmt, e.left) + (later + rest));
    SpoilsInside(lex, "(", [LParen], Print(fmt, e.left), Strings(e.left), later, Strings(e.right), rest);
  }

  lemma LeftPrint(fmt: NumFormat, e: Expr)
    requires e.Binary?
    ensures StrTexts([LParen]) + Strings(e.left) + Strings(e.right) == Strings(e)
    ensures "(" + Print(fmt, e.left) + (OpText(e.op) + Print(fmt, e.right) + ")") == Print(fmt, e)
  {
    assert StrTexts([LParen]) == [];
  }

  lemma {:induction false} RightSpoils(lex: Lexer, fmt: NumFormat, e: Expr, rest: string)
    requires Tokenwise(lex) && Spoiling(lex) && e.Binary? && WellFormed(fmt, e)
    requires Escapeless(e.left) && !Escapeless(e.right)
    ensures Spoils(lex, Print(fmt, e), Strings(e), rest)
    decreases e.right, 2
  {
    PartsWellFormed(fmt, e);
    PrintStarts(fmt, e.right);
    PrintSpoils(lex, fmt, e.right, ")" + rest);
    var later := Print(fmt, e.right) + (")" + rest);
    OperatorDelimits(e.op, later);
    PrintLexes(lex, fmt, e.left, OpText(e.op) + later);
    LeftStrings(fmt, e);
    assert Print(fmt, e) == "(" + Print(fmt, e.left) + OpText(e.op) + Print(fmt, e.right) + ")";
    hide *;
    InfixSpoils(lex, Print(fmt, e.left), Toks(fmt, e.left), e.op, Print(fmt, e.right), Strings(e.right), rest);
  }

  lemma OperatorDelimits(op: Operator, later: string)
    requires later != "" && later[0] !in {'<', '>', '='}
    ensures Delimited(OpText(op) + later) && ClearOf(OpTok(op), later)
  {
  }

  // ( left operator right ), where the right side is misread.
  lemma InfixSpoils(lex: Lexer, l: string, ls: seq<Token>, op: Operator, r: string, strings: seq<string>, rest: string)
    requires Tokenwise(lex) && Lexes(lex, l, ls, OpText(op) + (r + (")" + rest)))
    requires ClearOf(OpTok(op), r + (")" + rest)) && Spoils(lex, r, strings, ")" + rest)
    ensures Spoils(lex, "(" + l + OpText(op) + r + ")", StrTexts([LParen] + ls + [OpTok(op)]) + strings + [], rest)
  {
    assert IsSymbol(LParen) && IsSymbol(OpTok(op)) && TokText(LParen) == "(" && TokText(OpTok(op)) == OpText(op);
    var later := r + (")" + rest);
    assert ClearOf(LParen, l + (OpText(op) + later));
    hide *;
    OpenLexes(lex, LParen, l, ls, OpText(op) + later);
    JoinSymbol(lex, "(" + l, [LParen] + ls, OpTok(op), later);
    SpoilsInside(lex, "(" + l + OpText(op), [LParen] + ls + [OpTok(op)], r, strings, ")", [], rest);
  }

  lemma PartsWellFormed(fmt: NumFormat, e: Expr)
    requires e.Binary? && WellFormed(fmt, e)
    ensures WellFormed(fmt, e.left) && WellFormed(fmt, e.right)
  {
  }

  lemma LeftStrings(fmt: NumFormat, e: Expr)
    requires e.Binary?
    ensures StrTexts([LParen] + Toks(fmt, e.left) + [OpTok(e.op)]) + Strings(e.right) + [] == Strings(e)
  {
    TokStrings(fmt, e.left);
    StrTextsAppend([LParen], Toks(fmt, e.left));
    StrTextsAppend([LParen] + Toks(fmt, e.left), [OpTok(e.op)]);
  }

  lemma {:induction false} CallSpoils(lex: Lexer, fmt: NumFormat, e: Expr, rest: string)
    requires Tokenwise(lex) && Spoiling(lex) && e.Func? && WellFormed(fmt, e) && !Escapeless(e)
    ensures Spoils(lex, Print(fmt, e), Strings(e), rest)
    decreases e, 0
  {
    assert Strings(e) == ArgStrings(e.args) && Print(fmt, e) == e.name + "(" + PrintArgs(fmt, e.args) + ")";
    assert IsFuncName(e.name);
    hide Tokenwise, Lexes, Spoils, Spoiling, IsFuncName, Toks, Print, Strings;
    ArgsSpoil(lex, fmt, e.args, ")" + rest);
    hide *;
    NamedSpoils(lex, e.name, PrintArgs(fmt, e.args), Strings(e), rest);
  }

  // name ( text ), where the text is misread.
  lemma NamedSpoils(lex: Lexer, name: string, inner: string, strings: seq<string>, rest: string)
    requires Tokenwise(lex) && IsFuncName(name) && Spoils(lex, inner, strings, ")" + rest)
    ensures Spoils(lex, name + "(" + inner + ")", strings, rest)
  {
    var later := inner + (")" + rest);
    assert IsSymbol(LParen) && TokText(LParen) == "(" && ClearOf(LParen, later);
    StrTextsAppend([FuncTok(name)], [LParen]);
    assert StrTexts([FuncTok(name)]) == [] && StrTexts([LParen]) == [];
    assert [] + [] + strings + [] == strings;
    hide *;
    NameLexes(lex, name, "(" + later);
    JoinSymbol(lex, name, [FuncTok(name)], LParen, later);
    SpoilsInside(lex, name + "(", [FuncTok(name)] + [LParen], inner, strings, ")", [], rest);
  }

  lemma {:induction false} ArgsSpoil(lex: Lexer, fmt: NumFormat, args: seq<Expr>, rest: string)
    requires (forall i :: 0 <= i < |args| ==> WellFormed(fmt, args[i]))
    requires Tokenwise(lex) && Spoiling(lex) && !ArgsEscapeless(args)
    ensures Spoils(lex, PrintArgs(fmt, args), ArgStrings(args), rest)
    decreases args, 0
  {
    hide Tokenwise, Lexes, Spoils, Spoiling, WellFormed, Toks, Print;
    assert args != [];
    ArgsEscapelessParts(args);
    var first, later := Print(fmt, args[0]), PrintArgs(fmt, args[1..]);
    var s := Strings(args[0]);
    if |args| == 1 {
      assert ArgStrings(args[1..]) == [] && ArgStrings(args) == s;
      PrintSpoils(lex, fmt, args[0], rest);
    } else if !Escapeless(args[0]) {
      PrintSpoils(lex, fmt, args[0], ("," + later) + rest);
      SpoilsSooner(lex, first, s, "," + later, ArgStrings(args[1..]), rest);
      assert first + ("," + later) == PrintArgs(fmt, args);
    } else {
      PrintLexes(lex, fmt, args[0], "," + (later + rest));
      JoinSymbol(lex, first, Toks(fmt, args[0]), Comma, later + rest);
      ArgsSpoil(lex, fmt, args[1..], rest);
      SpoilsLater(lex, first + ",", Toks(fmt, args[0]) + [Comma], later, ArgStrings(args[1..]), rest);
      TokStrings(fmt, args[0]);
      StrTextsAppend(Toks(fmt, args[0]), [Comma]);
      assert StrTexts([Comma]) == [] && s + [] == s;
      assert first + "," + later == PrintArgs(fmt, args);
    }
  }

  lemma EscapedOutcome(fmt: NumFormat, e: Expr)
    requires WellFormed(fmt, e) && !Escapeless(e)
    ensures ParseExpression(fmt, "=" + Print(fmt, e)) != Formula(e)
  {
    StoredBody(fmt, e);
    LexFromIsTokenwise();
    LexFromIsSpoiling();
    PrintSpoils(LexFrom, fmt, e, "");
    var body := Print(fmt, e);
    hide LexFrom;
    var acc: seq<Token> := [];
    var c := Cursor(body, acc);
    assert body + "" == body && StrTexts(acc) + Strings(e) == Strings(e);
    var r := LexFrom(Cursor(body + "", acc));
    if r.Some? {
      assert !(StrTexts(acc) + Strings(e) <= StrTexts(r.value));
      LexGood(c);
      if ParseTokens(fmt, r.value).Some? {
        ParsedStrings(fmt, r.value);
      }
    }
  }

  // The stored text denotes the expression exactly when `Reparses` holds.
  lemma RoundTrip(fmt: NumFormat, e: Expr)
    requires WellFormed(fmt, e)
    ensures ParseExpression(fmt, "=" + Print(fmt, e)) == Formula(e) <==> Reparses(fmt, e)
  {
    if Escapeless(e) {
      EscapelessOutcome(fmt, e);
    } else {
      EscapedOutcome(fmt, e);
    }
  }

  // In particular for every expression that came out of the parser with finite numbers.
  lemma ParsedRoundTrip(fmt: NumFormat, raw: string)
    requires ParseExpression(fmt, raw).Formula? && NumbersRead(fmt, ParseExpression(fmt, raw).expr)
    ensures var e := ParseExpression(fmt, raw).expr;
            ParseExpression(fmt, "=" + Print(fmt, e)) == Formula(e) <==> Reparses(fmt, e)
  {
    ParsedIsShaped(fmt, raw);
    WellFormedIs(fmt, ParseExpression(fmt, raw).expr);
    RoundTrip(fmt, ParseExpression(fmt, raw).expr);
  }
}
