/** The formula lexer: one token at a time, greedy, with a bound on the number of tokens. */
module FormulaLexer {
  import opened Text
  import opened FormulaSyntax

  // ----- Lexeme lengths; 0 when the lexeme is not at the front of `s` -----

  function FractionLen(s: string): (n: nat)
    ensures n <= |s|
  {
    if s != "" && s[0] == '.' && Run(Digit, s[1..]) > 0 then 1 + Run(Digit, s[1..]) else 0
  }

  function ExponentLen(s: string): (n: nat)
    ensures n <= |s|
  {
    if s == "" || (s[0] != 'e' && s[0] != 'E') then 0
    else
      var sign := if |s| > 1 && (s[1] == '+' || s[1] == '-') then 2 else 1;
      var d := Run(Digit, s[sign..]);
      if d > 0 then sign + d else 0
  }

  // Digits, an optional fraction, an optional exponent.
  function NumberLen(s: string): (n: nat)
    ensures n <= |s|
  {
    var d := Run(Digit, s);
    if d == 0 then 0
    else
      var f := FractionLen(s[d..]);
      d + f + ExponentLen(s[d + f..])
  }

  function DollarLen(s: string): (n: nat)
    ensures n <= |s| && n <= 1
  {
    if s != "" && s[0] == '$' then 1 else 0
  }

  // `$?` letters `$?` digits.
  function RefPartLen(s: string): (n: nat)
    ensures n <= |s|
  {
    var i := DollarLen(s);
    var letters := Run(Letter, s[i..]);
    if letters == 0 then 0
    else
      var j := i + letters;
      var k := j + DollarLen(s[j..]);
      var digits := Run(Digit, s[k..]);
      if digits == 0 then 0 else k + digits
  }

  // The second half of a range, with the spaces and the colon before it.
  function RangeTailLen(s: string): (n: nat)
    ensures n <= |s|
  {
    var i := Run(Space, s);
    if i == |s| || s[i] != ':' then 0
    else
      var j := i + 1 + Run(Space, s[i + 1..]);
      var n := RefPartLen(s[j..]);
      if n == 0 then 0 else j + n
  }

  function RefLen(s: string): (n: nat)
    ensures n <= |s|
  {
    var n := RefPartLen(s);
    if n == 0 then 0 else n + RangeTailLen(s[n..])
  }

  predicate IdentStart(c: char) { IsLetter(c) || c == '_' }

  function IdentLen(s: string): (n: nat)
    ensures n <= |s|
  {
    if s != "" && IdentStart(s[0]) then Run(Word, s) else 0
  }

  // Position of the first `quote` in `s` at or after `i`, or its length.
  function FindQuote(quote: char, s: string, i: nat): (n: nat)
    requires i <= |s|
    ensures i <= n <= |s|
    decreases |s| - i
  {
    if i == |s| || s[i] == quote then i else FindQuote(quote, s, i + 1)
  }

  function StripSpaces(s: string): string {
    StripPrefix(s, |s|)
  }

  function StripPrefix(s: string, n: nat): string
    requires n <= |s|
  {
    if n == 0 then ""
    else if IsSpace(s[n - 1]) then StripPrefix(s, n - 1)
    else StripPrefix(s, n - 1) + [s[n - 1]]
  }

  // ----- One step of the lexer -----

  datatype Scanned = Blank | Bad | Found(token: Token, len: nat)

  function ScanWord(s: string): (r: Scanned)
    requires s != "" && IdentStart(s[0])
    ensures r.Found? && 0 < r.len <= |s|
  {
    var n := IdentLen(s);
    var word := s[..n];
    var upper := ToUpper(word);
    if upper == "TRUE" || upper == "FALSE" then Found(BoolTok(upper == "TRUE"), n)
    else
      var j := n + Run(Space, s[n..]);
      if j < |s| && s[j] == '(' then Found(FuncTok(upper), j) else Found(IdentTok(word), n)
  }

  function ScanSymbol(s: string): (r: Scanned)
    requires s != ""
    ensures r.Found? ==> 0 < r.len <= |s|
  {
    var next := if |s| > 1 then s[1] else ' ';
    match s[0]
    case '<' =>
      if next == '>' then Found(OpTok(Ne), 2)
      else if next == '=' then Found(OpTok(Le), 2)
      else Found(OpTok(Lt), 1)
    case '>' => if next == '=' then Found(OpTok(Ge), 2) else Found(OpTok(Gt), 1)
    case '+' => Found(OpTok(Plus), 1)
    case '-' => Found(OpTok(Minus), 1)
    case '*' => Found(OpTok(Times), 1)
    case '/' => Found(OpTok(Divide), 1)
    case '^' => Found(OpTok(Power), 1)
    case '&' => Found(OpTok(Concat), 1)
    case '=' => Found(OpTok(Eq), 1)
    case '%' => Found(PercentTok, 1)
    case '(' => Found(LParen, 1)
    case ')' => Found(RParen, 1)
    case ',' => Found(Comma, 1)
    case _ => Bad
  }

  function Scan(s: string): (r: Scanned)
    requires s != ""
    ensures r.Found? ==> 0 < r.len <= |s|
  {
    if IsSpace(s[0]) then Blank
    else if s[0] == '"' || s[0] == '\'' then
      var n := FindQuote(s[0], s, 1);
      if n == |s| then Bad else Found(StrTok(s[1..n]), n + 1)
    else if NumberLen(s) > 0 then Found(NumTok(s[..NumberLen(s)]), NumberLen(s))
    else if RefLen(s) > 0 then Found(RefTok(StripSpaces(s[..RefLen(s)])), RefLen(s))
    else if IdentStart(s[0]) then ScanWord(s)
    else ScanSymbol(s)
  }

  // ----- The whole text -----

  // The text left to read, and the tokens read so far.
  datatype Cursor = Cursor(left: string, tokens: seq<Token>)

  // One iteration of the lexer; `None` where it throws.
  function Advance(c: Cursor): (r: Option<Cursor>)
    requires c.left != ""
    ensures r.Some? ==> |r.value.left| < |c.left|
    ensures r.Some? ==> r.value.left == c.left[|c.left| - |r.value.left|..]
  {
    if |c.tokens| >= MAX_FORMULA_TOKENS then None
    else
      match Scan(c.left)
      case Blank => Some(Cursor(c.left[1..], c.tokens))
      case Bad => None
      case Found(token, len) => Some(Cursor(c.left[len..], c.tokens + [token]))
  }

  function LexFrom(c: Cursor): Option<seq<Token>>
    decreases |c.left|
  {
    if c.left == "" then Some(c.tokens + [Eof])
    else
      match Advance(c)
      case None => None
      case Some(next) => LexFrom(next)
  }

  // The tokens of `s` with the end marker; `None` is a syntax error.
  function Lex(s: string): Option<seq<Token>> {
    LexFrom(Cursor(s, []))
  }

  // One iteration, as a move of the index to `j`.
  lemma LexStep(src: string, i: nat, tokens: seq<Token>)
    requires i < |src|
    ensures var next := Advance(Cursor(src[i..], tokens));
            && (next.None? ==> LexFrom(Cursor(src[i..], tokens)) == None)
            && (next.Some? ==>
                  var j := |src| - |next.value.left|;
                  && i < j <= |src|
                  && LexFrom(Cursor(src[i..], tokens)) == LexFrom(Cursor(src[j..], next.value.tokens)))
  {
    hide Advance;
    var next := Advance(Cursor(src[i..], tokens));
    if next.Some? {
      assert next.value.left == src[|src| - |next.value.left|..];
    }
  }

  lemma LexEnd(src: string, tokens: seq<Token>)
    ensures src[0..] == src && LexFrom(Cursor(src[|src|..], tokens)) == Some(tokens + [Eof])
  {
  }

  // `tokenize`: an index moving over the source, `None` where it throws.
  method Tokenize(src: string) returns (r: Option<seq<Token>>)
    ensures r == Lex(src)
    ensures r.Some? ==> r.value != [] && r.value[|r.value| - 1] == Eof
  {
    LexEnd(src, []);
    assert LexFrom(Cursor(src[0..], [])) == Lex(src);
    r := TokenizeFrom(src);
  }

  method TokenizeFrom(src: string) returns (r: Option<seq<Token>>)
    ensures r == LexFrom(Cursor(src[0..], []))
    ensures r.Some? ==> r.value != [] && r.value[|r.value| - 1] == Eof
  {
    hide *;
    var tokens: seq<Token> := [];
    var i := 0;
    while i < |src|
      invariant 0 <= i <= |src|
      invariant LexFrom(Cursor(src[i..], tokens)) == LexFrom(Cursor(src[0..], []))
    {
      LexStep(src, i, tokens);
      var next := Advance(Cursor(src[i..], tokens));
      if next.None? {
        return None;
      }
      tokens, i := next.value.tokens, |src| - |next.value.left|;
    }
    LexEnd(src, tokens);
    r := Some(tokens + [Eof]);
  }
}
