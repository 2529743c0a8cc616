/** What the lexer and the parser can produce: well-formed tokens and expressions. */
module FormulaSound {
  import opened Text
  import opened FormulaSyntax
  import opened FormulaLexer
  import opened FormulaParser
  import opened FormulaPrinter

  // ----- Tokens -----

  ghost predicate GoodTok(t: Token) {
    (t.NumTok? ==> IsNumeral(t.text)) && (t.FuncTok? ==> IsFuncName(t.name))
  }

  ghost predicate Good(ts: seq<Token>) {
    forall i :: 0 <= i < |ts| ==> GoodTok(ts[i])
  }

  lemma RunPrefix(k: CharClass, s: string, m: nat)
    requires m <= |s|
    ensures Run(k, s[..m]) == if Run(k, s) < m then Run(k, s) else m
  {
    var n := if Run(k, s) < m then Run(k, s) else m;
    RunFromIs(k, s, 0, Run(k, s));
    RunFromIs(k, s[..m], 0, n);
  }

  lemma FractionPrefix(t: string, m: nat)
    requires FractionLen(t) <= m <= |t|
    ensures FractionLen(t[..m]) == FractionLen(t)
  {
    if t != "" && t[0] == '.' && m > 0 {
      assert t[..m][1..] == t[1..][..m - 1];
      RunPrefix(Digit, t[1..], m - 1);
    }
  }

  lemma ExponentPrefix(t: string)
    ensures ExponentLen(t[..ExponentLen(t)]) == ExponentLen(t)
  {
    var m := ExponentLen(t);
    if m > 0 {
      var sign := if |t| > 1 && (t[1] == '+' || t[1] == '-') then 2 else 1;
      assert t[..m][sign..] == t[sign..][..m - sign];
      RunPrefix(Digit, t[sign..], m - sign);
    }
  }

  lemma NumberPrefix(s: string)
    requires NumberLen(s) > 0
    ensures IsNumeral(s[..NumberLen(s)])
  {
    var d := Run(Digit, s);
    var f := FractionLen(s[d..]);
    var x := ExponentLen(s[d + f..]);
    var n := d + f + x;
    assert n == NumberLen(s) && d > 0;
    RunPrefix(Digit, s, n);
    FractionPrefix(s[d..], f + x);
    ExponentPrefix(s[d + f..]);
    NumberPieces(s, d, f, x);
  }

  lemma NumberPieces(s: string, d: nat, f: nat, x: nat)
    requires 0 < d && d + f + x <= |s|
    requires Run(Digit, s[..d + f + x]) == d
    requires FractionLen(s[d..][..f + x]) == f && ExponentLen(s[d + f..][..x]) == x
    ensures IsNumeral(s[..d + f + x])
  {
    hide Run, FractionLen, ExponentLen;
    var p := s[..d + f + x];
    assert p[d..] == s[d..][..f + x];
    assert p[d + f..] == s[d + f..][..x];
  }

  lemma UpperTwice(s: string)
    ensures ToUpper(ToUpper(s)) == ToUpper(s)
  {
  }

  lemma UpperRuns(k: CharClass, s: string)
    requires k != Space
    ensures Run(k, ToUpper(s)) == Run(k, s)
  {
    RunFromIs(k, s, 0, Run(k, s));
    RunFromIs(k, ToUpper(s), 0, Run(k, s));
  }

  lemma NameIsGood(s: string)
    requires s != "" && IdentStart(s[0]) && RefPartLen(s) == 0
    requires var r := ScanWord(s); r.Found? && r.token.FuncTok?
    ensures GoodTok(ScanWord(s).token)
  {
    var n := IdentLen(s);
    var word := s[..n];
    var upper := ToUpper(word);
    RunPrefix(Word, s, n);
    UpperRuns(Word, word);
    UpperTwice(word);
    assert n > 0 && upper[0] == UpperChar(s[0]) by {
      RunFromIs(Word, s, 0, n);
      assert In(Word, s[0]);
    }
    UpperIsNoRef(s, n);
  }

  // The upper-case form of a word at the front of `s` does not start like a reference either.
  lemma UpperIsNoRef(s: string, n: nat)
    requires s != "" && IdentStart(s[0]) && RefPartLen(s) == 0 && 0 < n == Run(Word, s)
    ensures RefPartLen(ToUpper(s[..n])) == 0
  {
    var word := s[..n];
    var upper := ToUpper(word);
    var l := Run(Letter, s);
    RunFromIs(Letter, s, 0, l);
    RunFromIs(Word, s, 0, n);
    assert l <= n by {
      assert n < l ==> In(Letter, s[n]) && In(Word, s[n]);
    }
    RunPrefix(Letter, s, n);
    UpperRuns(Letter, word);
    assert upper[0] == UpperChar(s[0]) && upper[0..] == upper;
    if l > 0 {
      assert s[0..] == s;
      if l < n {
        assert In(Word, s[l]);
        assert s[l..][0] == s[l] && upper[l..][0] == upper[l] == UpperChar(s[l]);
        RunFromIs(Digit, s[l..], 0, 0);
        RunFromIs(Digit, upper[l..], 0, 0);
      } else {
        assert upper[l..] == "";
      }
    }
  }

  lemma WordIsGood(s: string)
    requires s != "" && IdentStart(s[0]) && RefLen(s) == 0
    ensures ScanWord(s).Found? ==> GoodTok(ScanWord(s).token)
  {
    hide IsFuncName, IsNumeral;
    if ScanWord(s).Found? && ScanWord(s).token.FuncTok? {
      NameIsGood(s);
    }
  }

  lemma SymbolIsGood(s: string)
    requires s != ""
    ensures ScanSymbol(s).Found? ==> GoodTok(ScanSymbol(s).token)
  {
    hide IsFuncName, IsNumeral;
  }

  lemma ScanGood(s: string)
    requires s != "" && Scan(s).Found?
    ensures GoodTok(Scan(s).token)
  {
    if NumberLen(s) > 0 {
      NumberPrefix(s);
    } else if RefLen(s) == 0 && IdentStart(s[0]) {
      WordIsGood(s);
    } else {
      SymbolIsGood(s);
    }
    hide NumberLen, RefLen, ScanWord, ScanSymbol, IsFuncName, IsNumeral, IsSpace, IdentStart, FindQuote, StripSpaces;
  }

  lemma {:induction false} LexGood(c: Cursor)
    requires Good(c.tokens) && LexFrom(c).Some?
    ensures Good(LexFrom(c).value)
    decreases |c.left|
  {
    hide Scan;
    if c.left != "" {
      if Scan(c.left).Found? {
        ScanGood(c.left);
      }
      LexGood(Advance(c).value);
    }
  }

  // ----- References -----

  lemma PartIsCoord(s: string)
    requires ParseRefPart(s).Some?
    ensures CoordText(ParseRefPart(s).value.coord)
  {
    var i := DollarLen(s);
    var n := Run(Letter, s[i..]);
    var j := i + n;
    var k := j + DollarLen(s[j..]);
    var letters, digits := ToUpper(s[i..j]), s[k..];
    assert s[i..j] == s[i..][..n];
    RunPrefix(Letter, s[i..], n);
    UpperRuns(Letter, s[i..j]);
    UpperTwice(s[i..j]);
    hide *;
    LettersDigits(letters, digits, n);
  }

  lemma LettersDigits(letters: string, digits: string, n: nat)
    requires |letters| == n > 0 && Run(Letter, letters) == n && ToUpper(letters) == letters
    requires digits != "" && Run(Digit, digits) == |digits|
    ensures CoordText(letters + digits)
  {
    RunStops(Letter, letters);
    RunStops(Digit, digits);
    assert letters[..n] == letters && digits[..|digits|] == digits;
    assert In(Digit, digits[0]);
    RunAppend(Letter, letters, digits);
    hide Run;
    var coord := letters + digits;
    assert coord[..n] == letters && coord[n..] == digits;
  }

  lemma RefWellFormed(fmt: NumFormat, text: string)
    requires ParseRef(text).Some?
    ensures Shaped(ParseRef(text).value) && Strings(ParseRef(text).value) == []
  {
    var n := FirstColon(text);
    if n == |text| {
      PartIsCoord(text);
    } else {
      PartIsCoord(text[..n]);
      PartIsCoord(text[n + 1..]);
    }
  }

  // ----- Expressions -----

  // The string tokens, in order.
  function StrTexts(ts: seq<Token>): seq<string> {
    if ts == [] then []
    else if ts[0].StrTok? then [ts[0].text] + StrTexts(ts[1..])
    else StrTexts(ts[1..])
  }

  // A shaped expression that takes up the front of the strings `before`.
  ghost predicate Keeps(fmt: NumFormat, before: seq<string>, e: Expr, rest: seq<Token>) {
    Shaped(e) && Good(rest) && Strings(e) + StrTexts(rest) == before
  }

  ghost predicate Sound(fmt: NumFormat, before: seq<string>, r: Option<Step<Expr>>) {
    r.Some? ==> Keeps(fmt, before, r.value.value, r.value.rest)
  }

  lemma SkipToken(ts: seq<Token>)
    requires Good(ts) && ts != []
    ensures Good(ts[1..])
    ensures !ts[0].StrTok? ==> StrTexts(ts[1..]) == StrTexts(ts)
  {
  }

  lemma {:induction false} LevelSound(fmt: NumFormat, level: nat, ts: seq<Token>, depth: nat)
    requires level <= 4 && Good(ts)
    ensures Sound(fmt, StrTexts(ts), ParseLevel(fmt, level, ts, depth))
    decreases |ts|, 9 - level
  {
    if level == 4 {
      PowerSound(fmt, ts, depth);
    } else {
      LevelSound(fmt, level + 1, ts, depth);
      match ParseLevel(fmt, level + 1, ts, depth)
      case None =>
      case Some(Step(left, rest)) => TailSound(fmt, level, left, rest, depth);
    }
  }

  lemma {:induction false} TailSound(fmt: NumFormat, level: nat, left: Expr, ts: seq<Token>, depth: nat)
    requires level < 4 && Good(ts) && Shaped(left)
    ensures Sound(fmt, Strings(left) + StrTexts(ts), LevelTail(fmt, level, left, ts, depth))
    decreases |ts|, 0
  {
    if Peek(ts).OpTok? && OpLevel(Peek(ts).op) == level {
      SkipToken(ts);
      LevelSound(fmt, level + 1, ts[1..], depth);
      match ParseLevel(fmt, level + 1, ts[1..], depth)
      case None =>
      case Some(Step(right, rest)) =>
        assert Strings(left) + Strings(right) + StrTexts(rest) == Strings(left) + StrTexts(ts);
        TailSound(fmt, level, Binary(ts[0].op, left, right), rest, depth);
    }
  }

  lemma {:induction false} PowerSound(fmt: NumFormat, ts: seq<Token>, depth: nat)
    requires Good(ts)
    ensures Sound(fmt, StrTexts(ts), ParsePower(fmt, ts, depth))
    decreases |ts|, 4
  {
    hide IsFuncName, IsNumeral, CoordText, Good, GoodTok;
    UnarySound(fmt, ts, depth);
    match ParseUnary(fmt, ts, depth)
    case None =>
    case Some(Step(base, rest)) =>
      if Peek(rest) == OpTok(Power) && Nests(depth) {
        SkipToken(rest);
        PowerSound(fmt, rest[1..], depth + 1);
        match ParsePower(fmt, rest[1..], depth + 1)
        case None =>
        case Some(Step(right, after)) =>
          assert Strings(base) + Strings(right) + StrTexts(after) == Strings(base) + StrTexts(rest);
      }
  }

  lemma {:induction false} UnarySound(fmt: NumFormat, ts: seq<Token>, depth: nat)
    requires Good(ts)
    ensures Sound(fmt, StrTexts(ts), ParseUnary(fmt, ts, depth))
    decreases |ts|, 3
  {
    if !IsSign(Peek(ts)) {
      PostfixSound(fmt, ts, depth);
    } else if Nests(depth) {
      SkipToken(ts);
      UnarySound(fmt, ts[1..], depth + 1);
    }
  }

  lemma {:induction false} PostfixSound(fmt: NumFormat, ts: seq<Token>, depth: nat)
    requires Good(ts)
    ensures Sound(fmt, StrTexts(ts), ParsePostfix(fmt, ts, depth))
    decreases |ts|, 2
  {
    PrimarySound(fmt, ts, depth);
    match ParsePrimary(fmt, ts, depth)
    case None =>
    case Some(Step(e, rest)) => PercentSound(fmt, e, rest);
  }

  lemma {:induction false} PercentSound(fmt: NumFormat, e: Expr, ts: seq<Token>)
    requires Shaped(e) && Good(ts)
    ensures Keeps(fmt, Strings(e) + StrTexts(ts), PercentTail(e, ts).value, PercentTail(e, ts).rest)
    decreases |ts|
  {
    if Peek(ts) == PercentTok {
      SkipToken(ts);
      PercentSound(fmt, Percent(e), ts[1..]);
    }
  }

  lemma {:induction false} PrimarySound(fmt: NumFormat, ts: seq<Token>, depth: nat)
    requires Good(ts)
    ensures Sound(fmt, StrTexts(ts), ParsePrimary(fmt, ts, depth))
    decreases |ts|, 1
  {
    hide ParseCall, ParseGroup, ParseRef, IsFuncName, IsNumeral, CoordText, StrTexts;
    if ts != [] {
      SkipToken(ts);
      match ts[0]
      case FuncTok(name) =>
        assert GoodTok(ts[0]);
        CallSound(fmt, name, ts[1..], depth);
      case LParen => GroupSound(fmt, ts[1..], depth);
      case RefTok(text) =>
        if ParseRef(text).Some? {
          RefWellFormed(fmt, text);
          assert [] + StrTexts(ts[1..]) == StrTexts(ts[1..]);
        }
      case NumTok(text) =>
        assert GoodTok(ts[0]);
        assert [] + StrTexts(ts[1..]) == StrTexts(ts[1..]);
      case BoolTok(_) => assert [] + StrTexts(ts[1..]) == StrTexts(ts[1..]);
      case StrTok(_) => StringFirst(ts);
      case _ =>
    }
  }

  lemma StringFirst(ts: seq<Token>)
    requires ts != [] && ts[0].StrTok?
    ensures StrTexts(ts) == [ts[0].text] + StrTexts(ts[1..])
  {
  }

  lemma {:induction false} GroupSound(fmt: NumFormat, ts: seq<Token>, depth: nat)
    requires Good(ts)
    ensures Sound(fmt, StrTexts(ts), ParseGroup(fmt, ts, depth))
    decreases |ts|, 11
  {
    if Nests(depth) {
      LevelSound(fmt, 0, ts, depth + 1);
      match ParseLevel(fmt, 0, ts, depth + 1)
      case None =>
      case Some(Step(e, rest)) =>
        if Peek(rest) == RParen {
          SkipToken(rest);
        }
    }
  }

  lemma {:induction false} CallSound(fmt: NumFormat, name: string, ts: seq<Token>, depth: nat)
    requires Good(ts) && IsFuncName(name)
    ensures Sound(fmt, StrTexts(ts), ParseCall(fmt, name, ts, depth))
    decreases |ts|, 11
  {
    if Peek(ts) == LParen {
      SkipToken(ts);
      if Peek(ts[1..]) == RParen {
        SkipToken(ts[1..]);
        var e := Func(name, []);
        assert ts[1..][1..] == ts[2..];
        EmptyCall(fmt, name);
        assert [] + StrTexts(ts[2..]) == StrTexts(ts);
        assert Keeps(fmt, StrTexts(ts), e, ts[2..]);
      } else {
        ArgsSound(fmt, [], ts[1..], depth);
        assert [] + StrTexts(ts[1..]) == StrTexts(ts);
        match ParseArgs(fmt, [], ts[1..], depth)
        case None =>
        case Some(Step(args, rest)) =>
          if Peek(rest) == RParen {
            SkipToken(rest);
          }
      }
    }
  }

  lemma EmptyCall(fmt: NumFormat, name: string)
    requires IsFuncName(name)
    ensures Shaped(Func(name, [])) && Strings(Func(name, [])) == []
  {
  }

  lemma {:induction false} ArgStringsAppend(args: seq<Expr>, e: Expr)
    ensures ArgStrings(args + [e]) == ArgStrings(args) + Strings(e)
  {
    if args == [] {
      assert [] + [e] == [e];
      assert ArgStrings([e]) == Strings(e) + ArgStrings([]);
    } else {
      ArgStringsAppend(args[1..], e);
      assert (args + [e])[1..] == args[1..] + [e];
    }
  }

  lemma {:induction false} ArgsSound(fmt: NumFormat, args: seq<Expr>, ts: seq<Token>, depth: nat)
    requires Good(ts) && (forall i :: 0 <= i < |args| ==> Shaped(args[i]))
    ensures var r := ParseArgs(fmt, args, ts, depth);
            r.Some? ==>
              && (forall i :: 0 <= i < |r.value.value| ==> Shaped(r.value.value[i]))
              && Good(r.value.rest)
              && ArgStrings(r.value.value) + StrTexts(r.value.rest) == ArgStrings(args) + StrTexts(ts)
    decreases |ts|, 10
  {
    if Nests(depth) {
      LevelSound(fmt, 0, ts, depth + 1);
      match ParseLevel(fmt, 0, ts, depth + 1)
      case None =>
      case Some(Step(e, rest)) =>
        ArgStringsAppend(args, e);
        assert ArgStrings(args + [e]) + StrTexts(rest) == ArgStrings(args) + StrTexts(ts);
        if Peek(rest) == Comma {
          SkipToken(rest);
          ArgsSound(fmt, args + [e], rest[1..], depth);
        }
    }
  }

  // Everything the parser returns is well formed.
  lemma ParsedIsShaped(fmt: NumFormat, raw: string)
    requires ParseExpression(fmt, raw).Formula?
    ensures Shaped(ParseExpression(fmt, raw).expr)
  {
    var body := Trim(Trim(raw)[1..]);
    LexGood(Cursor(body, []));
    LevelSound(fmt, 0, Lex(body).value, 0);
  }

  // A parsed token list starts with the strings of its expression.
  lemma ParsedStrings(fmt: NumFormat, ts: seq<Token>)
    requires Good(ts) && ParseTokens(fmt, ts).Some?
    ensures Strings(ParseTokens(fmt, ts).value) <= StrTexts(ts)
  {
    LevelSound(fmt, 0, ts, 0);
  }
}
