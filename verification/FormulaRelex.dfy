/** What the lexer makes of the text of a printed expression. */
module FormulaRelex {
  import opened Text
  import opened FormulaSyntax
  import opened FormulaLexer
  import opened FormulaPrinter
  import FormulaReparse

  function TokText(t: Token): string {
    match t
    case NumTok(text) => text
    case StrTok(text) => Quote(text)
    case BoolTok(truth) => if truth then "TRUE" else "FALSE"
    case FuncTok(name) => name
    case IdentTok(name) => name
    case RefTok(text) => text
    case OpTok(op) => OpText(op)
    case PercentTok => "%"
    case LParen => "("
    case RParen => ")"
    case Comma => ","
    case Eof => ""
  }

  // ----- One token and what follows it -----

  predicate FollowChar(c: char) {
    c in {')', ',', '+', '-', '*', '/', '^', '&', '=', '<', '>', '%'}
  }

  predicate Delimited(rest: string) { rest == "" || FollowChar(rest[0]) }

  ghost predicate Scans(t: Token, rest: string) {
    var s := TokText(t) + rest;
    TokText(t) != "" && Scan(s) == Found(t, |TokText(t)|)
  }

  lemma RunExtend(k: CharClass, a: string, b: string)
    requires Run(k, a) < |a| || b == "" || !In(k, b[0])
    ensures Run(k, a + b) == Run(k, a)
  {
    var n := Run(k, a);
    RunStops(k, a);
    assert (a + b)[..n] == a[..n];
    assert n < |a| ==> (a + b)[n] == a[n];
    RunIs(k, a + b, n);
  }

  lemma FractionExtend(t: string, rest: string)
    requires Delimited(rest)
    ensures FractionLen(t + rest) == FractionLen(t)
  {
    if t != "" && t[0] == '.' {
      assert (t + rest)[1..] == t[1..] + rest;
      RunExtend(Digit, t[1..], rest);
    }
  }

  lemma ExponentExtend(t: string, rest: string)
    requires Delimited(rest) && ExponentLen(t) == |t|
    ensures ExponentLen(t + rest) == |t|
  {
    if t != "" {
      assert |t| > 1 && (t + rest)[1] == t[1];
      var sign := if t[1] == '+' || t[1] == '-' then 2 else 1;
      assert (t + rest)[sign..] == t[sign..] + rest;
      RunExtend(Digit, t[sign..], rest);
    }
  }

  lemma NumberScans(text: string, rest: string)
    requires IsNumeral(text) && Delimited(rest)
    ensures NumberLen(text + rest) == |text| && IsDigit(text[0])
  {
    var d := Run(Digit, text);
    var f := FractionLen(text[d..]);
    RunExtend(Digit, text, rest);
    FractionExtend(text[d..], rest);
    ExponentExtend(text[d + f..], rest);
    NumberPieces(text + rest, d, text[d..] + rest, f, text[d + f..] + rest);
  }

  lemma NumberPieces(s: string, d: nat, frac: string, f: nat, exp: string)
    requires 0 < d <= d + f <= |s| && Run(Digit, s) == d
    requires s[d..] == frac && FractionLen(frac) == f && s[d + f..] == exp
    ensures NumberLen(s) == d + f + ExponentLen(exp)
  {
  }

  lemma RefPartScans(ref: RefNode, rest: string)
    requires CoordText(ref.coord)
    requires rest == "" || !IsDigit(rest[0])
    ensures RefText(ref) != "" && !IsSpace(RefText(ref)[0]) && !IsDigit(RefText(ref)[0])
    ensures RefText(ref)[0] != '"' && RefText(ref)[0] != '\''
    ensures RefPartLen(RefText(ref) + rest) == |RefText(ref)|
    ensures forall i :: 0 <= i < |RefText(ref)| ==> !IsSpace(RefText(ref)[i])
  {
    var letters, digits, a, b := FormulaReparse.RefTextShape(ref);
    var text := RefText(ref);
    var s := text + rest;
    assert In(Letter, letters[0]);
    assert text[0] == (if a == "" then letters[0] else '$');
    PiecesScan(s, a, letters, b, digits, rest);
    NoSpaces(text, a, letters, b, digits);
  }

  lemma PiecesScan(s: string, a: string, letters: string, b: string, digits: string, rest: string)
    requires s == a + letters + b + digits + rest && a in ["", "$"] && b in ["", "$"]
    requires letters != "" && digits != "" && All(Letter, letters) && All(Digit, digits)
    requires rest == "" || !IsDigit(rest[0])
    ensures RefPartLen(s) == |a| + |letters| + |b| + |digits|
  {
    assert In(Digit, digits[0]);
    assert s == a + letters + b + (digits + rest);
    FormulaReparse.RefPieces(s, a, letters, b, digits + rest);
    RunAppend(Digit, digits, rest);
  }

  lemma StripNothing(s: string)
    requires forall i :: 0 <= i < |s| ==> !IsSpace(s[i])
    ensures StripSpaces(s) == s
  {
    StripNothingUpTo(s, |s|);
    assert s[..|s|] == s;
  }

  lemma {:induction false} StripNothingUpTo(s: string, n: nat)
    requires n <= |s| && forall i :: 0 <= i < n ==> !IsSpace(s[i])
    ensures StripPrefix(s, n) == s[..n]
  {
    if n > 0 {
      StripNothingUpTo(s, n - 1);
    }
  }

  lemma NoSpaces(text: string, a: string, letters: string, b: string, digits: string)
    requires text == a + letters + b + digits && a in ["", "$"] && b in ["", "$"]
    requires All(Letter, letters) && All(Digit, digits)
    ensures forall i :: 0 <= i < |text| ==> !IsSpace(text[i])
  {
    assert forall i :: 0 <= i < |letters| ==> In(Letter, letters[i]);
    assert forall i :: 0 <= i < |digits| ==> In(Digit, digits[i]);
  }

  lemma RangeTailAbsent(rest: string)
    requires Delimited(rest)
    ensures RangeTailLen(rest) == 0
  {
    RunIs(Space, rest, 0);
  }

  lemma RangeTailScans(end: RefNode, rest: string)
    requires CoordText(end.coord) && Delimited(rest)
    ensures RangeTailLen(":" + RefText(end) + rest) == 1 + |RefText(end)|
  {
    RefPartScans(end, rest);
    var part := RefText(end) + rest;
    ColonTail(":" + RefText(end) + rest, part);
  }

  lemma ColonTail(tail: string, part: string)
    requires tail == ":" + part && part != "" && !IsSpace(part[0]) && RefPartLen(part) > 0
    ensures RangeTailLen(tail) == 1 + RefPartLen(part)
  {
    RunIs(Space, tail, 0);
    RunIs(Space, part, 0);
    assert tail[1..] == part;
  }

  lemma ScansReference(s: string)
    requires s != "" && !IsSpace(s[0]) && !IsDigit(s[0]) && s[0] != '"' && s[0] != '\'' && RefLen(s) > 0
    ensures Scan(s) == Found(RefTok(StripSpaces(s[..RefLen(s)])), RefLen(s))
  {
    RunIs(Digit, s, 0);
    assert NumberLen(s) == 0;
    hide RefLen, StripSpaces, NumberLen;
  }

  // A word that is not a number, from the lexeme lengths the scanner looks at.
  lemma RefTokScans(text: string, rest: string)
    requires text != "" && !IsSpace(text[0]) && !IsDigit(text[0]) && text[0] != '"' && text[0] != '\''
    requires RefLen(text + rest) == |text| && forall i :: 0 <= i < |text| ==> !IsSpace(text[i])
    ensures Scans(RefTok(text), rest)
  {
    StripNothing(text);
    FirstPart(text, rest);
    hide *;
    ScansReference(text + rest);
    ScansIs(RefTok(text), rest, text);
  }

  lemma FirstPart(text: string, rest: string)
    requires text != ""
    ensures (text + rest)[0] == text[0] && (text + rest)[..|text|] == text
  {
  }

  lemma ScansIs(t: Token, rest: string, text: string)
    requires text != "" && t == RefTok(text) && Scan(text + rest) == Found(t, |text|)
    ensures Scans(t, rest)
  {
    hide Scan;
  }

  lemma CellScans(ref: RefNode, rest: string)
    requires CoordText(ref.coord) && Delimited(rest)
    ensures Scans(RefTok(RefText(ref)), rest)
  {
    var text := RefText(ref);
    RefPartScans(ref, rest);
    assert (text + rest)[|text|..] == rest;
    RangeTailAbsent(rest);
    RefTokScans(text, rest);
  }

  lemma RangeScans(start: RefNode, end: RefNode, rest: string)
    requires CoordText(start.coord) && CoordText(end.coord) && Delimited(rest)
    ensures Scans(RefTok(RefText(start) + ":" + RefText(end)), rest)
  {
    assert rest == "" || !IsDigit(rest[0]);
    assert !IsDigit(':');
    hide *;
    var a, b := RefText(start), RefText(end);
    RefPartScans(start, ":" + b + rest);
    RefPartScans(end, rest);
    RangeTailScans(end, rest);
    RangeTextScans(a, b, rest);
  }

  lemma RangeTextScans(a: string, b: string, rest: string)
    requires a != "" && !IsSpace(a[0]) && !IsDigit(a[0]) && a[0] != '"' && a[0] != '\''
    requires forall i :: 0 <= i < |a| ==> !IsSpace(a[i])
    requires forall i :: 0 <= i < |b| ==> !IsSpace(b[i])
    requires RefPartLen(a + (":" + b + rest)) == |a| && RangeTailLen(":" + b + rest) == 1 + |b|
    ensures Scans(RefTok(a + ":" + b), rest)
  {
    JoinedSpaceless(a, b);
    hide *;
    RangeJoins(a, b, rest);
    RefLenOfRange(a + ":" + b + rest, a, ":" + b + rest);
    RefTokScans(a + ":" + b, rest);
  }

  lemma RangeJoins(a: string, b: string, rest: string)
    requires a != ""
    ensures a + ":" + b + rest == a + (":" + b + rest)
    ensures |a + ":" + b| == |a| + 1 + |b| && (a + ":" + b)[0] == a[0]
  {
  }

  lemma JoinedSpaceless(a: string, b: string)
    requires forall i :: 0 <= i < |a| ==> !IsSpace(a[i])
    requires forall i :: 0 <= i < |b| ==> !IsSpace(b[i])
    ensures forall i :: 0 <= i < |a + ":" + b| ==> !IsSpace((a + ":" + b)[i])
  {
  }

  lemma RefLenOfRange(s: string, a: string, tail: string)
    requires s == a + tail && a != "" && RefPartLen(s) == |a|
    ensures RefLen(s) == |a| + RangeTailLen(tail)
  {
    assert s[|a|..] == tail;
  }

  lemma NumTokScans(text: string, rest: string)
    requires IsNumeral(text) && Delimited(rest)
    ensures Scans(NumTok(text), rest)
  {
    NumberScans(text, rest);
    var s := text + rest;
    assert s[0] == text[0] && s[..|text|] == text;
  }

  lemma {:induction false} FindQuoteIs(quote: char, s: string, i: nat, n: nat)
    requires i <= n <= |s| && (forall j :: i <= j < n ==> s[j] != quote)
    requires n < |s| ==> s[n] == quote
    ensures FindQuote(quote, s, i) == n
    decreases n - i
  {
    if i < n {
      FindQuoteIs(quote, s, i + 1, n);
    }
  }

  lemma StrTokScans(text: string, rest: string)
    requires EscapeFree(text)
    ensures Scans(StrTok(text), rest)
  {
    EscapeNothing(text);
    var s := Quote(text) + rest;
    assert s == "\"" + text + "\"" + rest;
    FindQuoteIs('"', s, 1, |text| + 1);
    assert s[1..|text| + 1] == text;
  }

  lemma WordIsNoRef(word: string, rest: string)
    requires word != "" && IdentStart(word[0]) && Run(Word, word) == |word|
    requires rest != "" ==> !In(Word, rest[0]) && rest[0] != '$'
    requires RefPartLen(word) == 0
    ensures RefPartLen(word + rest) == 0
  {
    var s := word + rest;
    var n := Run(Letter, word);
    RunStops(Letter, word);
    RunStops(Word, word);
    assert word[..|word|] == word;
    RunExtend(Letter, word, rest);
    if n > 0 {
      assert s[0..] == s && word[0..] == word;
      assert s[n..] == word[n..] + rest;
      if n < |word| {
        assert In(Word, word[n]);
        RunExtend(Digit, word[n..], rest);
        assert s[n] == word[n];
      }
    }
  }

  lemma WordScans(word: string, rest: string)
    requires word != "" && IdentStart(word[0]) && Run(Word, word) == |word|
    requires rest != "" ==> !In(Word, rest[0]) && rest[0] != '$' && !IsSpace(rest[0])
    requires RefPartLen(word) == 0
    ensures Scan(word + rest) == ScanWord(word + rest)
    ensures IdentLen(word + rest) == |word|
  {
    WordIsNoRef(word, rest);
    ScanIsWord(word + rest);
    RunExtend(Word, word, rest);
  }

  lemma ScanIsWord(s: string)
    requires s != "" && IdentStart(s[0]) && RefPartLen(s) == 0
    ensures Scan(s) == ScanWord(s)
  {
    RunIs(Digit, s, 0);
  }

  lemma FuncTokScans(name: string, rest: string)
    requires IsFuncName(name) && rest != "" && rest[0] == '('
    ensures Scans(FuncTok(name), rest)
  {
    WordScans(name, rest);
    var s := name + rest;
    assert s[..|name|] == name && s[|name|..] == rest;
    RunIs(Space, rest, 0);
  }

  lemma BoolTokScans(truth: bool, rest: string)
    requires Delimited(rest)
    ensures Scans(BoolTok(truth), rest)
  {
    var word := TokText(BoolTok(truth));
    BoolWord(word);
    WordScans(word, rest);
    var s := word + rest;
    assert s[..|word|] == word;
  }

  lemma BoolWord(word: string)
    requires word == "TRUE" || word == "FALSE"
    ensures Run(Word, word) == |word| && RefPartLen(word) == 0 && ToUpper(word) == word
  {
    RunIs(Word, word, |word|);
    assert word[0..] == word;
    RunIs(Letter, word, |word|);
    assert word[|word|..] == "";
  }

  // A text that starts with an operator or a bracket.
  lemma ScansSymbol(s: string)
    requires s != "" && s[0] in {'<', '>', '+', '-', '*', '/', '^', '&', '=', '%', '(', ')', ','}
    ensures Scan(s) == ScanSymbol(s)
  {
    RunIs(Digit, s, 0);
    RunIs(Letter, s, 0);
    assert s[0..] == s;
    hide Run, ScanSymbol, FindQuote, RangeTailLen, StripSpaces;
  }

  lemma SymbolText(t: Token, rest: string)
    requires t.OpTok? || t in [PercentTok, LParen, RParen, Comma]
    requires t.OpTok? && rest != "" ==> rest[0] !in {'<', '>', '='}
    ensures TokText(t) != "" && ScanSymbol(TokText(t) + rest) == Found(t, |TokText(t)|)
    ensures TokText(t)[0] in {'<', '>', '+', '-', '*', '/', '^', '&', '=', '%', '(', ')', ','}
  {
    var s := TokText(t) + rest;
    assert s[0] == TokText(t)[0];
    assert |TokText(t)| == 1 && |s| > 1 ==> s[1] == rest[0];
    assert |TokText(t)| == 2 ==> s[1] == TokText(t)[1];
  }

  lemma SymbolScans(t: Token, rest: string)
    requires t.OpTok? || t in [PercentTok, LParen, RParen, Comma]
    requires t.OpTok? && rest != "" ==> rest[0] !in {'<', '>', '='}
    ensures Scans(t, rest)
  {
    SymbolText(t, rest);
    hide Scan, ScanSymbol, TokText;
    assert (TokText(t) + rest)[0] == TokText(t)[0];
    ScansSymbol(TokText(t) + rest);
  }

  // ----- Whole expressions -----

  type Lexer = Cursor -> Option<seq<Token>>

  // In front of `rest`, the lexer takes `text` for the tokens `ts` while its budget lasts.
  ghost predicate Lexes(lex: Lexer, text: string, ts: seq<Token>, rest: string) {
    forall acc: seq<Token> ::
      lex(Cursor(text + rest, acc)) ==
      if |acc| + |ts| <= MAX_FORMULA_TOKENS then lex(Cursor(rest, acc + ts)) else None
  }

  // What is used of the lexer: it takes one scanned token at a time.
  ghost predicate Tokenwise(lex: Lexer) {
    forall t, rest :: Scans(t, rest) ==> Lexes(lex, TokText(t), [t], rest)
  }

  lemma LexFromIsTokenwise()
    ensures Tokenwise(LexFrom)
  {
    forall t, rest | Scans(t, rest)
      ensures Lexes(LexFrom, TokText(t), [t], rest)
    {
      forall acc: seq<Token>
        ensures LexFrom(Cursor(TokText(t) + rest, acc)) ==
                if |acc| + |[t]| <= MAX_FORMULA_TOKENS then LexFrom(Cursor(rest, acc + [t])) else None
      {
        OneStep(t, rest, acc);
      }
    }
  }

  lemma OneStep(t: Token, rest: string, acc: seq<Token>)
    requires Scans(t, rest)
    ensures LexFrom(Cursor(TokText(t) + rest, acc)) ==
            if |acc| < MAX_FORMULA_TOKENS then LexFrom(Cursor(rest, acc + [t])) else None
  {
    var s := TokText(t) + rest;
    assert s[|TokText(t)|..] == rest;
  }

  lemma Join(lex: Lexer, a: string, ts: seq<Token>, b: string, us: seq<Token>, rest: string)
    requires Lexes(lex, a, ts, b + rest) && Lexes(lex, b, us, rest)
    ensures Lexes(lex, a + b, ts + us, rest)
  {
    assert a + b + rest == a + (b + rest);
    forall acc: seq<Token>
      ensures lex(Cursor(a + b + rest, acc)) ==
              if |acc| + |ts + us| <= MAX_FORMULA_TOKENS then lex(Cursor(rest, acc + (ts + us))) else None
    {
      assert acc + ts + us == acc + (ts + us);
      assert lex(Cursor(b + rest, acc + ts)) ==
             if |acc + ts| + |us| <= MAX_FORMULA_TOKENS then lex(Cursor(rest, acc + ts + us)) else None;
    }
  }

  predicate IsSymbol(t: Token) { t.OpTok? || t in [PercentTok, LParen, RParen, Comma] }

  predicate ClearOf(t: Token, rest: string) {
    t.OpTok? && rest != "" ==> rest[0] !in {'<', '>', '='}
  }

  lemma SymbolLexes(lex: Lexer, t: Token, rest: string)
    requires Tokenwise(lex) && IsSymbol(t) && ClearOf(t, rest)
    ensures Lexes(lex, TokText(t), [t], rest)
  {
    SymbolScans(t, rest);
  }

  lemma JoinSymbol(lex: Lexer, a: string, ts: seq<Token>, t: Token, rest: string)
    requires Tokenwise(lex) && Lexes(lex, a, ts, TokText(t) + rest)
    requires IsSymbol(t) && ClearOf(t, rest)
    ensures Lexes(lex, a + TokText(t), ts + [t], rest)
  {
    hide Lexes;
    SymbolLexes(lex, t, rest);
    Join(lex, a, ts, TokText(t), [t], rest);
  }

  // Printed expressions start with neither a comparison sign nor a space.
  lemma PrintStarts(fmt: NumFormat, e: Expr)
    requires WellFormed(fmt, e)
    ensures Print(fmt, e) != "" && Print(fmt, e)[0] !in {'<', '>', '='} && !IsSpace(Print(fmt, e)[0])
  {
    match e
    case Num(v) => NumberScans(fmt.show(v), "");
    case Cell(ref) => RefPartScans(ref, ""); RefStarts(ref);
    case Range(start, end) => RefPartScans(start, ""); RefStarts(start);
    case Percent(x) => PrintStarts(fmt, x);
    case Func(name, args) => assert IdentStart(name[0]);
    case Str(_) =>
    case Bool(_) =>
    case Binary(_, _, _) =>
    case Unary(_, _) =>
  }

  lemma RefStarts(ref: RefNode)
    requires CoordText(ref.coord)
    ensures RefText(ref) != "" && (RefText(ref)[0] == '$' || IsLetter(RefText(ref)[0]))
  {
    var letters, digits, a, b := FormulaReparse.RefTextShape(ref);
    assert In(Letter, letters[0]);
    assert RefText(ref)[0] == (if a == "" then letters[0] else '$');
  }

  // `(` text: one symbol in front.
  lemma OpenLexes(lex: Lexer, t: Token, b: string, us: seq<Token>, rest: string)
    requires Tokenwise(lex) && IsSymbol(t) && ClearOf(t, b + rest)
    requires Lexes(lex, b, us, rest)
    ensures Lexes(lex, TokText(t) + b, [t] + us, rest)
  {
    hide Lexes;
    SymbolLexes(lex, t, b + rest);
    Join(lex, TokText(t), [t], b, us, rest);
  }

  // left, symbol, right
  lemma InfixLexes(lex: Lexer, a: string, ts: seq<Token>, t: Token, b: string, us: seq<Token>, rest: string)
    requires Tokenwise(lex) && IsSymbol(t) && ClearOf(t, b + rest)
    requires Lexes(lex, a, ts, TokText(t) + (b + rest)) && Lexes(lex, b, us, rest)
    ensures Lexes(lex, a + TokText(t) + b, ts + [t] + us, rest)
  {
    hide Lexes;
    JoinSymbol(lex, a, ts, t, b + rest);
    Join(lex, a + TokText(t), ts + [t], b, us, rest);
  }

  lemma {:induction false} PrintLexes(lex: Lexer, fmt: NumFormat, e: Expr, rest: string)
    requires Tokenwise(lex) && WellFormed(fmt, e) && Escapeless(e) && Delimited(rest)
    ensures Lexes(lex, Print(fmt, e), Toks(fmt, e), rest)
    decreases e, 1
  {
    hide Lexes, Tokenwise, IsNumeral, IsFuncName, CoordText, RefText;
    match e
    case Func(_, _) => CallLexes(lex, fmt, e, rest);
    case Binary(_, _, _) => BinaryLexes(lex, fmt, e, rest);
    case Unary(_, _) => UnaryLexes(lex, fmt, e, rest);
    case Percent(x) =>
      assert Strings(e) == Strings(x);
      PrintLexes(lex, fmt, x, "%" + rest);
      JoinSymbol(lex, Print(fmt, x), Toks(fmt, x), PercentTok, rest);
    case Num(_) => AtomLexes(lex, fmt, e, rest);
    case Str(_) => AtomLexes(lex, fmt, e, rest);
    case Bool(_) => AtomLexes(lex, fmt, e, rest);
    case Cell(_) => AtomLexes(lex, fmt, e, rest);
    case Range(_, _) => AtomLexes(lex, fmt, e, rest);
  }

  lemma {:induction false} UnaryLexes(lex: Lexer, fmt: NumFormat, e: Expr, rest: string)
    requires Tokenwise(lex) && e.Unary? && WellFormed(fmt, e) && Escapeless(e)
    ensures Lexes(lex, Print(fmt, e), Toks(fmt, e), rest)
    decreases e, 0
  {
    hide Lexes, Tokenwise, IsNumeral, IsFuncName, CoordText, RefText;
    var t, x, xs := OpTok(e.op), Print(fmt, e.expr), Toks(fmt, e.expr);
    PrintStarts(fmt, e.expr);
    assert Strings(e) == Strings(e.expr);
    PrintLexes(lex, fmt, e.expr, ")" + rest);
    PrefixLexes(lex, t, x, xs, rest);
  }

  // ( symbol text )
  lemma PrefixLexes(lex: Lexer, t: Token, x: string, xs: seq<Token>, rest: string)
    requires Tokenwise(lex) && IsSymbol(t) && ClearOf(t, x + (")" + rest)) && x != ""
    requires Lexes(lex, x, xs, ")" + rest)
    ensures Lexes(lex, "(" + TokText(t) + x + ")", [LParen, t] + xs + [RParen], rest)
  {
    hide Lexes;
    var inner := "(" + TokText(t) + x;
    SymbolLexes(lex, LParen, TokText(t) + (x + (")" + rest)));
    InfixLexes(lex, "(", [LParen], t, x, xs, ")" + rest);
    assert [LParen] + [t] + xs == [LParen, t] + xs;
    JoinSymbol(lex, inner, [LParen, t] + xs, RParen, rest);
  }

  lemma {:induction false} BinaryLexes(lex: Lexer, fmt: NumFormat, e: Expr, rest: string)
    requires Tokenwise(lex) && e.Binary? && WellFormed(fmt, e) && Escapeless(e)
    ensures Lexes(lex, Print(fmt, e), Toks(fmt, e), rest)
    decreases e, 0
  {
    hide Lexes;
    var l, r, t := Print(fmt, e.left), Print(fmt, e.right), OpTok(e.op);
    EscapelessParts(e);
    PrintStarts(fmt, e.right);
    PrintLexes(lex, fmt, e.left, TokText(t) + (r + (")" + rest)));
    PrintLexes(lex, fmt, e.right, ")" + rest);
    ParenLexes(lex, l, Toks(fmt, e.left), t, r, Toks(fmt, e.right), rest);
  }

  // ( left symbol right )
  lemma ParenLexes(lex: Lexer, l: string, ls: seq<Token>, t: Token, r: string, rs: seq<Token>, rest: string)
    requires Tokenwise(lex) && IsSymbol(t) && ClearOf(t, r + (")" + rest))
    requires Lexes(lex, l, ls, TokText(t) + (r + (")" + rest))) && Lexes(lex, r, rs, ")" + rest)
    ensures Lexes(lex, "(" + l + TokText(t) + r + ")", [LParen] + ls + [t] + rs + [RParen], rest)
  {
    hide Lexes;
    OpenLexes(lex, LParen, l, ls, TokText(t) + (r + (")" + rest)));
    InfixLexes(lex, "(" + l, [LParen] + ls, t, r, rs, ")" + rest);
    JoinSymbol(lex, "(" + l + TokText(t) + r, [LParen] + ls + [t] + rs, RParen, rest);
  }

  lemma AtomLexes(lex: Lexer, fmt: NumFormat, e: Expr, rest: string)
    requires Tokenwise(lex) && WellFormed(fmt, e) && Escapeless(e) && Delimited(rest)
    requires e.Num? || e.Str? || e.Bool? || e.Cell? || e.Range?
    ensures Lexes(lex, Print(fmt, e), Toks(fmt, e), rest)
  {
    if e.Str? {
      assert Strings(e)[0] == e.text;
      TextLexes(lex, e.text, rest);
    } else if e.Cell? {
      CellLexes(lex, e.ref, rest);
    } else if e.Range? {
      RangeLexes(lex, e.start, e.end, rest);
    } else {
      NumOrBoolLexes(lex, fmt, e, rest);
    }
  }

  lemma TextLexes(lex: Lexer, s: string, rest: string)
    requires Tokenwise(lex) && EscapeFree(s)
    ensures Lexes(lex, Quote(s), [StrTok(s)], rest)
  {
    StrTokScans(s, rest);
    assert TokText(StrTok(s)) == Quote(s);
  }

  lemma CellLexes(lex: Lexer, ref: RefNode, rest: string)
    requires Tokenwise(lex) && CoordText(ref.coord) && Delimited(rest)
    ensures Lexes(lex, RefText(ref), [RefTok(RefText(ref))], rest)
  {
    hide RefText, CoordText, Scan;
    CellScans(ref, rest);
    assert TokText(RefTok(RefText(ref))) == RefText(ref);
  }

  lemma RangeLexes(lex: Lexer, start: RefNode, end: RefNode, rest: string)
    requires Tokenwise(lex) && CoordText(start.coord) && CoordText(end.coord) && Delimited(rest)
    ensures Lexes(lex, RefText(start) + ":" + RefText(end), [RefTok(RefText(start) + ":" + RefText(end))], rest)
  {
    hide RefText, CoordText, Scan;
    RangeScans(start, end, rest);
    var text := RefText(start) + ":" + RefText(end);
    assert TokText(RefTok(text)) == text;
  }

  lemma NumOrBoolLexes(lex: Lexer, fmt: NumFormat, e: Expr, rest: string)
    requires Tokenwise(lex) && WellFormed(fmt, e) && Delimited(rest) && (e.Num? || e.Bool?)
    ensures Lexes(lex, Print(fmt, e), Toks(fmt, e), rest)
  {
    if e.Num? {
      NumTokScans(fmt.show(e.value), rest);
      assert TokText(NumTok(fmt.show(e.value))) == Print(fmt, e);
    } else {
      BoolTokScans(e.truth, rest);
      assert TokText(BoolTok(e.truth)) == Print(fmt, e);
    }
  }

  lemma NameLexes(lex: Lexer, name: string, rest: string)
    requires Tokenwise(lex) && IsFuncName(name) && rest != "" && rest[0] == '('
    ensures Lexes(lex, name, [FuncTok(name)], rest)
  {
    FuncTokScans(name, rest);
    assert TokText(FuncTok(name)) == name;
  }

  // name ( text )
  lemma CallTextLexes(lex: Lexer, name: string, inner: string, ts: seq<Token>, rest: string)
    requires Tokenwise(lex) && IsFuncName(name)
    requires (inner == "" && ts == []) || Lexes(lex, inner, ts, ")" + rest)
    ensures Lexes(lex, name + "(" + inner + ")", [FuncTok(name), LParen] + ts + [RParen], rest)
  {
    Parentheses(inner + (")" + rest), rest);
    assert [FuncTok(name)] + [LParen] == [FuncTok(name), LParen];
    hide *;
    NameLexes(lex, name, "(" + (inner + (")" + rest)));
    JoinSymbol(lex, name, [FuncTok(name)], LParen, inner + (")" + rest));
    if inner == "" && ts == [] {
      NoText(name, rest, [FuncTok(name), LParen]);
    } else {
      Join(lex, name + "(", [FuncTok(name), LParen], inner, ts, ")" + rest);
    }
    JoinSymbol(lex, name + "(" + inner, [FuncTok(name), LParen] + ts, RParen, rest);
  }

  lemma Parentheses(after: string, rest: string)
    ensures IsSymbol(LParen) && TokText(LParen) == "(" && ClearOf(LParen, after)
    ensures IsSymbol(RParen) && TokText(RParen) == ")" && ClearOf(RParen, rest)
  {
  }

  lemma NoText(name: string, rest: string, ts: seq<Token>)
    ensures "" + (")" + rest) == ")" + rest && name + "(" + "" == name + "(" && ts + [] == ts
  {
  }

  lemma {:induction false} CallLexes(lex: Lexer, fmt: NumFormat, e: Expr, rest: string)
    requires Tokenwise(lex) && e.Func? && WellFormed(fmt, e) && Escapeless(e)
    ensures Lexes(lex, Print(fmt, e), Toks(fmt, e), rest)
    decreases e, 0
  {
    hide Lexes;
    if e.args != [] {
      assert Strings(e) == ArgStrings(e.args);
      ArgsLex(lex, fmt, e.args, ")" + rest);
    }
    CallTextLexes(lex, e.name, PrintArgs(fmt, e.args), ArgToks(fmt, e.args), rest);
  }

  lemma {:induction false} ArgsLex(lex: Lexer, fmt: NumFormat, args: seq<Expr>, rest: string)
    requires args != [] && (forall i :: 0 <= i < |args| ==> WellFormed(fmt, args[i]))
    requires Tokenwise(lex) && ArgsEscapeless(args) && Delimited(rest)
    ensures Lexes(lex, PrintArgs(fmt, args), ArgToks(fmt, args), rest)
    decreases args, 0
  {
    hide Lexes, Tokenwise, Escapeless, ArgsEscapeless, WellFormed, Print, Toks;
    ArgsEscapelessParts(args);
    if |args| == 1 {
      PrintLexes(lex, fmt, args[0], rest);
    } else {
      var later := PrintArgs(fmt, args[1..]);
      PrintLexes(lex, fmt, args[0], "," + (later + rest));
      ArgsLex(lex, fmt, args[1..], rest);
      InfixLexes(lex, Print(fmt, args[0]), Toks(fmt, args[0]), Comma, later, ArgToks(fmt, args[1..]), rest);
    }
  }

  lemma EscapelessParts(e: Expr)
    requires e.Binary?
    ensures Escapeless(e) <==> Escapeless(e.left) && Escapeless(e.right)
  {
    var a, b := Strings(e.left), Strings(e.right);
    assert forall i :: 0 <= i < |a| ==> Strings(e)[i] == a[i];
    assert forall i :: 0 <= i < |b| ==> Strings(e)[|a| + i] == b[i];
  }

  ghost predicate ArgsEscapeless(args: seq<Expr>) {
    forall i :: 0 <= i < |ArgStrings(args)| ==> EscapeFree(ArgStrings(args)[i])
  }

  lemma ArgsEscapelessParts(args: seq<Expr>)
    requires args != []
    ensures ArgsEscapeless(args) <==> Escapeless(args[0]) && ArgsEscapeless(args[1..])
  {
    var a, b := Strings(args[0]), ArgStrings(args[1..]);
    assert ArgStrings(args) == a + b;
    assert forall i :: 0 <= i < |a| ==> ArgStrings(args)[i] == a[i];
    assert forall i :: 0 <= i < |b| ==> ArgStrings(args)[|a| + i] == b[i];
  }
}
