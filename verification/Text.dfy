/** Character classes, longest runs, trimming, decimal numerals and JSON string quoting. */
module Text {

  datatype Option<+T> = None | Some(value: T)

  // ----- Character classes -----

  datatype CharClass = Digit | Letter | Word | Space

  predicate IsDigit(c: char) { '0' <= c <= '9' }

  predicate IsUpper(c: char) { 'A' <= c <= 'Z' }

  predicate IsLower(c: char) { 'a' <= c <= 'z' }

  predicate IsLetter(c: char) { IsUpper(c) || IsLower(c) }

  // The characters matched by `\s`, which are also the ones `trim` removes.
  predicate IsSpace(c: char) {
    || 9 <= c as int <= 13
    || c == ' '
    || c as int in {0xA0, 0x1680, 0x2028, 0x2029, 0x202F, 0x205F, 0x3000, 0xFEFF}
    || 0x2000 <= c as int <= 0x200A
  }

  predicate In(k: CharClass, c: char) {
    match k
    case Digit => IsDigit(c)
    case Letter => IsLetter(c)
    case Word => IsLetter(c) || IsDigit(c) || c == '_' || c == '.'
    case Space => IsSpace(c)
  }

  function UpperChar(c: char): char {
    if IsLower(c) then (c as int - 32) as char else c
  }

  function ToUpper(s: string): (u: string)
    ensures |u| == |s|
    ensures forall i :: 0 <= i < |s| ==> u[i] == UpperChar(s[i])
  {
    UpperPrefix(s, |s|)
  }

  function UpperPrefix(s: string, n: nat): (u: string)
    requires n <= |s|
    ensures |u| == n
    ensures forall i :: 0 <= i < n ==> u[i] == UpperChar(s[i])
  {
    if n == 0 then "" else UpperPrefix(s, n - 1) + [UpperChar(s[n - 1])]
  }

  ghost predicate All(k: CharClass, s: string) {
    forall i :: 0 <= i < |s| ==> In(k, s[i])
  }

  // ----- Longest runs: what a greedy `[class]*` matches at the front of `s` -----

  function Run(k: CharClass, s: string): (n: nat)
    ensures n <= |s|
  {
    RunFrom(k, s, 0)
  }

  // The end of the run that starts at `i`.
  function RunFrom(k: CharClass, s: string, i: nat): (n: nat)
    requires i <= |s|
    ensures i <= n <= |s|
    decreases |s| - i
  {
    if i == |s| || !In(k, s[i]) then i else RunFrom(k, s, i + 1)
  }

  lemma {:induction false} RunFromIs(k: CharClass, s: string, i: nat, n: nat)
    requires i <= n <= |s|
    ensures RunFrom(k, s, i) == n <==>
            (forall j :: i <= j < n ==> In(k, s[j])) && (n < |s| ==> !In(k, s[n]))
    decreases |s| - i
  {
    if i < |s| && In(k, s[i]) && i < n {
      RunFromIs(k, s, i + 1, n);
    }
  }

  lemma RunStops(k: CharClass, s: string)
    ensures var n := Run(k, s);
            All(k, s[..n]) && (n < |s| ==> !In(k, s[n]))
  {
    RunFromIs(k, s, 0, Run(k, s));
  }

  lemma RunIs(k: CharClass, s: string, n: nat)
    requires n <= |s| && All(k, s[..n])
    requires n < |s| ==> !In(k, s[n])
    ensures Run(k, s) == n
  {
    assert forall j :: 0 <= j < n ==> In(k, s[..n][j]) && s[..n][j] == s[j];
    RunFromIs(k, s, 0, n);
  }

  lemma RunAppend(k: CharClass, a: string, b: string)
    requires All(k, a)
    requires b != "" ==> !In(k, b[0])
    ensures Run(k, a + b) == |a|
  {
    assert (a + b)[..|a|] == a;
    RunIs(k, a + b, |a|);
  }

  // ----- Trimming -----

  function TrimStart(s: string): string {
    s[Run(Space, s)..]
  }

  function TrimEnd(s: string): string {
    if s != "" && IsSpace(s[|s| - 1]) then TrimEnd(s[..|s| - 1]) else s
  }

  function Trim(s: string): string {
    TrimEnd(TrimStart(s))
  }

  lemma TrimTight(s: string)
    requires s != "" && !IsSpace(s[0]) && !IsSpace(s[|s| - 1])
    ensures Trim(s) == s
  {
    RunIs(Space, s, 0);
  }

  // ----- Decimal numerals -----

  function DigitChar(d: nat): (c: char)
    requires d < 10
    ensures IsDigit(c)
  {
    (d + 48) as char
  }

  function DigitVal(c: char): (d: nat)
    requires IsDigit(c)
    ensures d < 10
  {
    c as int - 48
  }

  function Decimal(n: nat): (s: string)
    ensures s != "" && All(Digit, s)
  {
    if n < 10 then [DigitChar(n)] else Decimal(n / 10) + [DigitChar(n % 10)]
  }

  function DigitsValue(s: string): nat
    requires All(Digit, s)
  {
    if s == "" then 0
    else DigitsValue(s[..|s| - 1]) * 10 + DigitVal(s[|s| - 1])
  }

  lemma {:induction false} DecimalValue(n: nat)
    ensures DigitsValue(Decimal(n)) == n
    ensures n > 0 ==> Decimal(n)[0] != '0'
  {
    if n >= 10 {
      DecimalValue(n / 10);
      var s := Decimal(n);
      assert s[..|s| - 1] == Decimal(n / 10);
    } else {
      var s := Decimal(n);
      assert s[..|s| - 1] == "";
    }
  }

  lemma {:induction false} ValueDecimal(s: string)
    requires s != "" && All(Digit, s) && s[0] != '0'
    ensures DigitsValue(s) > 0
    ensures Decimal(DigitsValue(s)) == s
  {
    if |s| == 1 {
      assert s[..0] == "";
    } else {
      var init := s[..|s| - 1];
      assert init[0] == s[0];
      ValueDecimal(init);
      assert s == init + [s[|s| - 1]];
    }
  }

  // Template-literal text of an integer.
  function IntText(n: int): string {
    if n < 0 then "-" + Decimal(-n) else Decimal(n)
  }

  // ----- JSON string quoting (`JSON.stringify` of a string) -----

  predicate NeedsEscape(c: char) {
    c == '"' || c == '\\' || c < ' '
  }

  predicate EscapeFree(s: string) {
    forall i :: 0 <= i < |s| ==> !NeedsEscape(s[i])
  }

  function HexDigit(d: nat): char
    requires d < 16
  {
    if d < 10 then (d + 48) as char else (d + 87) as char
  }

  function EscapeChar(c: char): (t: string)
    ensures t != ""
    ensures !NeedsEscape(c) ==> t == [c]
    ensures NeedsEscape(c) ==> |t| >= 2 && t[0] == '\\'
  {
    if c == '"' then "\\\""
    else if c == '\\' then "\\\\"
    else if c as int == 8 then "\\b"
    else if c as int == 9 then "\\t"
    else if c as int == 10 then "\\n"
    else if c as int == 12 then "\\f"
    else if c as int == 13 then "\\r"
    else if c < ' ' then "\\u00" + [HexDigit(c as int / 16), HexDigit(c as int % 16)]
    else [c]
  }

  function EscapeAll(s: string): string {
    if s == "" then "" else EscapeChar(s[0]) + EscapeAll(s[1..])
  }

  function Quote(s: string): string {
    "\"" + EscapeAll(s) + "\""
  }

  lemma {:induction false} EscapeNothing(s: string)
    requires EscapeFree(s)
    ensures EscapeAll(s) == s
  {
    if s != "" {
      EscapeNothing(s[1..]);
    }
  }

  lemma EscapeFirst(c: char, s: string)
    ensures EscapeAll([c] + s) == EscapeChar(c) + EscapeAll(s)
  {
    hide EscapeChar;
    assert ([c] + s)[1..] == s;
  }

  // The head of a concatenation, and associativity, as single steps.
  lemma HeadFirst(a: string, b: string)
    requires a != ""
    ensures a == [a[0]] + a[1..] && a + b == [a[0]] + (a[1..] + b)
  {
  }

  lemma Associates(a: string, b: string, c: string)
    ensures a + (b + c) == a + b + c
  {
  }

  lemma {:induction false} EscapeAppend(a: string, b: string)
    ensures EscapeAll(a + b) == EscapeAll(a) + EscapeAll(b)
  {
    if a == "" {
      assert a + b == b;
    } else {
      hide *;
      HeadFirst(a, b);
      EscapeFirst(a[0], a[1..]);
      EscapeFirst(a[0], a[1..] + b);
      EscapeAppend(a[1..], b);
      Associates(EscapeChar(a[0]), EscapeAll(a[1..]), EscapeAll(b));
    }
  }

  // ----- Separators -----

  function FirstColon(s: string): (n: nat)
    ensures n <= |s|
    ensures n < |s| ==> s[n] == ':'
    ensures forall i :: 0 <= i < n ==> s[i] != ':'
  {
    if s == "" || s[0] == ':' then 0 else 1 + FirstColon(s[1..])
  }

  lemma FirstColonIs(s: string, n: nat)
    requires n <= |s| && (forall i :: 0 <= i < n ==> s[i] != ':')
    requires n < |s| ==> s[n] == ':'
    ensures FirstColon(s) == n
  {
  }

  function Larger(a: nat, b: nat): nat { if a < b then b else a }
}
