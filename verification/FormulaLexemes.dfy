/** The lexemes of formulas, as texts: what one step of the lexer takes from the front of its input. */
module FormulaLexemes {
  import opened Text
  import opened FormulaSyntax
  import opened FormulaLexer

  // ----- Numerals -----

  ghost predicate Digits(t: string) { t != "" && forall i :: 0 <= i < |t| ==> '0' <= t[i] <= '9' }

  ghost predicate Fraction(t: string) { t == "" || (t[0] == '.' && Digits(t[1..])) }

  ghost predicate Exponent(t: string) {
    t == "" || (|t| >= 2 && t[0] in {'e', 'E'} && (Digits(t[1..]) || (t[1] in {'+', '-'} && Digits(t[2..]))))
  }

  // Digits, then possibly a fraction, then possibly an exponent.
  ghost predicate Numeral(t: string) {
    exists i, j :: 0 <= i <= j <= |t| && Digits(t[..i]) && Fraction(t[i..j]) && Exponent(t[j..])
  }

  // A piece of a prefix.
  lemma Slice(s: string, n: nat, a: nat, b: nat)
    requires a <= b <= n <= |s|
    ensures s[..n][a..b] == s[a..b] == s[a..][..b - a]
  {
    assert forall k :: a <= k < b ==> s[..n][a..b][k - a] == s[k] && s[a..][..b - a][k - a] == s[k];
  }

  lemma SliceEnd(s: string, n: nat, a: nat)
    requires a <= n <= |s|
    ensures s[..n][a..] == s[a..][..n - a]
  {
    Slice(s, n, a, n);
    assert s[..n][a..] == s[..n][a..n];
  }

  // The longest run reaches at least as far as all of these.
  lemma RunReaches(k: CharClass, s: string, m: nat)
    requires m <= |s| && forall i :: 0 <= i < m ==> In(k, s[i])
    ensures Run(k, s) >= m
    ensures m < |s| && !In(k, s[m]) ==> Run(k, s) == m
  {
    RunStops(k, s);
    if m < |s| && !In(k, s[m]) {
      RunIs(k, s, m);
    }
  }

  lemma DigitsRun(s: string)
    ensures Run(Digit, s) > 0 ==> Digits(s[..Run(Digit, s)])
  {
    RunStops(Digit, s);
    var n := Run(Digit, s);
    assert forall i :: 0 <= i < n ==> In(Digit, s[..n][i]);
  }

  lemma DigitsReach(s: string, m: nat)
    requires m <= |s| && Digits(s[..m])
    ensures m <= Run(Digit, s) && (m < |s| && !IsDigit(s[m]) ==> m == Run(Digit, s))
  {
    assert forall i :: 0 <= i < m ==> s[..m][i] == s[i];
    RunReaches(Digit, s, m);
  }

  lemma FractionRun(s: string)
    ensures Fraction(s[..FractionLen(s)])
  {
    if s != "" {
      DigitsRun(s[1..]);
      var d := Run(Digit, s[1..]);
      assert s[..1 + d][1..] == s[1..][..d];
    }
  }

  // A fraction that is not followed by a digit is the longest one; without one there is no dot.
  lemma FractionReach(s: string, m: nat)
    requires m <= |s| && Fraction(s[..m])
    ensures m <= FractionLen(s) && (m < |s| && !IsDigit(s[m]) && s[m] != '.' ==> m == FractionLen(s))
  {
    if m > 0 {
      assert s[..m][0] == s[0] && s[..m][1..] == s[1..][..m - 1];
      DigitsReach(s[1..], m - 1);
      assert m < |s| ==> s[m] == s[1..][m - 1];
    }
  }

  lemma ExponentRun(s: string)
    ensures Exponent(s[..ExponentLen(s)])
  {
    if |s| > 1 && (s[0] == 'e' || s[0] == 'E') {
      var sign := if s[1] == '+' || s[1] == '-' then 2 else 1;
      DigitsRun(s[sign..]);
      var n := ExponentLen(s);
      if n > 0 {
        SliceEnd(s, n, sign);
      }
    }
  }

  lemma ExponentReach(s: string, m: nat)
    requires m <= |s| && Exponent(s[..m])
    ensures m <= ExponentLen(s)
  {
    if m > 0 {
      assert s[..m][0] == s[0] && s[..m][1] == s[1];
      if s[1] == '+' || s[1] == '-' {
        assert s[..m][1..][0] == s[1];
        assert s[..m][2..] == s[2..][..m - 2];
        DigitsReach(s[2..], m - 2);
      } else {
        assert s[..m][1..] == s[1..][..m - 1];
        DigitsReach(s[1..], m - 1);
      }
    }
  }

  lemma NumberParts(s: string, d: nat, f: nat)
    requires d == Run(Digit, s) > 0 && f == FractionLen(s[d..])
    ensures d + f <= |s| && NumberLen(s) == d + f + ExponentLen(s[d + f..])
  {
    hide FractionLen, ExponentLen;
  }

  // From the end of the digits on.
  lemma TailReach(s: string, d: nat, j: nat, m: nat)
    requires d == Run(Digit, s) > 0 && d <= j <= m <= |s| && d < m && Fraction(s[d..j]) && Exponent(s[j..m])
    ensures m <= NumberLen(s)
  {
    var f := FractionLen(s[d..]);
    NumberParts(s, d, f);
    assert s[d..j] == s[d..][..j - d] && s[j..m] == s[j..][..m - j];
    hide NumberLen, ExponentLen, FractionLen;
    FractionReach(s[d..], j - d);
    if j < m {
      assert s[j..m][0] == s[j] && s[d..][j - d] == s[j];
      assert f == j - d;
      ExponentReach(s[j..], m - j);
    }
  }

  lemma NumberPrefix(s: string, m: nat, i: nat, j: nat)
    requires i <= j <= m <= |s| && Digits(s[..i]) && Fraction(s[i..j]) && Exponent(s[j..m])
    ensures 0 < m <= NumberLen(s)
  {
    DigitsReach(s, i);
    if i < m {
      assert s[i] == if i < j then s[i..j][0] else s[j..m][0];
      hide NumberLen, FractionLen, ExponentLen, Digits;
      TailReach(s, i, j, m);
    }
  }

  lemma NumeralAt(t: string, i: nat, j: nat)
    requires i <= j <= |t| && Digits(t[..i]) && Fraction(t[i..j]) && Exponent(t[j..])
    ensures Numeral(t)
  {
  }

  // The lexer takes the longest numeral at the front.
  lemma NumberRun(s: string)
    ensures NumberLen(s) > 0 ==> Numeral(s[..NumberLen(s)])
  {
    var d := Run(Digit, s);
    if d > 0 {
      var f, n := FractionLen(s[d..]), NumberLen(s);
      NumberParts(s, d, f);
      hide NumberLen, FractionLen, ExponentLen, Digits, Fraction, Exponent, Numeral;
      DigitsRun(s);
      FractionRun(s[d..]);
      ExponentRun(s[d + f..]);
      Slice(s, n, 0, d);
      Slice(s, n, d, d + f);
      SliceEnd(s, n, d + f);
      assert s[..n][..d] == s[..n][0..d] && s[..d] == s[0..d];
      NumeralAt(s[..n], d, d + f);
    }
  }

  lemma NumberReach(s: string, m: nat)
    requires m <= |s| && Numeral(s[..m])
    ensures 0 < m <= NumberLen(s)
  {
    hide NumberLen, Digits, Fraction, Exponent;
    var t := s[..m];
    var i, j :| 0 <= i <= j <= |t| && Digits(t[..i]) && Fraction(t[i..j]) && Exponent(t[j..]);
    assert t[..i] == s[..i] && t[i..j] == s[i..j] && t[j..] == s[j..m];
    NumberPrefix(s, m, i, j);
  }

  // ----- References -----

  ghost predicate Letters(t: string) { t != "" && forall i :: 0 <= i < |t| ==> 'A' <= t[i] <= 'Z' || 'a' <= t[i] <= 'z' }

  ghost predicate Dollar(t: string) { t == "" || t == "$" }

  // Letters and digits, each possibly behind a dollar sign.
  ghost predicate RefPart(t: string) {
    exists i, j, k :: 0 <= i <= j <= k <= |t| && Dollar(t[..i]) && Letters(t[i..j]) && Dollar(t[j..k]) && Digits(t[k..])
  }

  lemma RefPartAt(t: string, i: nat, j: nat, k: nat)
    requires i <= j <= k <= |t| && Dollar(t[..i]) && Letters(t[i..j]) && Dollar(t[j..k]) && Digits(t[k..])
    ensures RefPart(t)
  {
  }

  lemma LettersRun(s: string)
    ensures Run(Letter, s) > 0 ==> Letters(s[..Run(Letter, s)])
  {
    RunStops(Letter, s);
    var n := Run(Letter, s);
    assert forall i :: 0 <= i < n ==> In(Letter, s[..n][i]);
  }

  lemma LettersReach(s: string, m: nat)
    requires m <= |s| && Letters(s[..m])
    ensures m <= Run(Letter, s) && (m < |s| && !IsLetter(s[m]) ==> m == Run(Letter, s))
  {
    assert forall i :: 0 <= i < m ==> s[..m][i] == s[i];
    RunReaches(Letter, s, m);
  }

  lemma DollarIs(s: string, m: nat)
    requires m <= |s| && Dollar(s[..m]) && (m < |s| ==> s[m] != '$')
    ensures DollarLen(s) == m
  {
    if m > 0 {
      assert s[..m][0] == s[0];
    }
  }

  lemma RefParts(s: string, i: nat, j: nat, k: nat)
    requires i == DollarLen(s) && j == i + Run(Letter, s[i..]) && k == j + DollarLen(s[j..])
    ensures j <= k <= |s| && RefPartLen(s) == if j == i || Run(Digit, s[k..]) == 0 then 0 else k + Run(Digit, s[k..])
  {
    hide DollarLen;
  }

  lemma RefPartRun(s: string)
    ensures RefPartLen(s) > 0 ==> RefPart(s[..RefPartLen(s)])
  {
    var i := DollarLen(s);
    var j := i + Run(Letter, s[i..]);
    var k := j + DollarLen(s[j..]);
    RefParts(s, i, j, k);
    var n := RefPartLen(s);
    if n > 0 {
      assert Dollar(s[..i]) && Dollar(s[j..k]);
      LettersRun(s[i..]);
      DigitsRun(s[k..]);
      hide RefPartLen, DollarLen, Digits, Letters, Dollar, RefPart;
      Slice(s, n, 0, i);
      Slice(s, n, i, j);
      Slice(s, n, j, k);
      SliceEnd(s, n, k);
      assert s[..n][..i] == s[..n][0..i] && s[..i] == s[0..i];
      RefPartAt(s[..n], i, j, k);
    }
  }

  // The pieces of a reference at the front are the ones that the lexer finds.
  lemma RefPieces(s: string, m: nat, i: nat, j: nat, k: nat)
    requires i <= j <= k <= m <= |s| && Dollar(s[..i]) && Letters(s[i..j]) && Dollar(s[j..k]) && Digits(s[k..m])
    ensures i == DollarLen(s) && j == i + Run(Letter, s[i..]) && k == j + DollarLen(s[j..]) && m - k <= Run(Digit, s[k..])
  {
    assert s[i..j][0] == s[i] && s[k..m][0] == s[k];
    DollarIs(s, i);
    assert s[j] == if j < k then s[j..k][0] else s[k];
    assert s[i..j] == s[i..][..j - i] && s[i..][j - i] == s[j];
    LettersReach(s[i..], j - i);
    assert s[j..k] == s[j..][..k - j] && s[j..][k - j] == s[k];
    DollarIs(s[j..], k - j);
    assert s[k..m] == s[k..][..m - k];
    DigitsReach(s[k..], m - k);
  }

  lemma RefPartReach(s: string, m: nat)
    requires m <= |s| && RefPart(s[..m])
    ensures 0 < m <= RefPartLen(s)
  {
    var t := s[..m];
    var i, j, k :| 0 <= i <= j <= k <= |t| && Dollar(t[..i]) && Letters(t[i..j]) && Dollar(t[j..k]) && Digits(t[k..]);
    assert t[..i] == s[..i] && t[i..j] == s[i..j] && t[j..k] == s[j..k] && t[k..] == s[k..m];
    RefPieces(s, m, i, j, k);
    RefParts(s, i, j, k);
    hide RefPartLen, DollarLen, Dollar;
  }

  ghost predicate Spaces(t: string) { forall i :: 0 <= i < |t| ==> IsSpace(t[i]) }

  // A second reference behind a colon, with spaces around the colon.
  ghost predicate RangeTail(t: string) {
    exists c, q :: 0 <= c < q <= |t| && Spaces(t[..c]) && t[c] == ':' && Spaces(t[c + 1..q]) && RefPart(t[q..])
  }

  lemma RangeTailAt(t: string, c: nat, q: nat)
    requires c < q <= |t| && Spaces(t[..c]) && t[c] == ':' && Spaces(t[c + 1..q]) && RefPart(t[q..])
    ensures RangeTail(t)
  {
  }

  lemma BlankRun(s: string)
    ensures Spaces(s[..Run(Space, s)])
  {
    RunStops(Space, s);
    assert forall i :: 0 <= i < Run(Space, s) ==> In(Space, s[..Run(Space, s)][i]);
  }

  lemma BlankReach(s: string, m: nat)
    requires m < |s| && Spaces(s[..m]) && !IsSpace(s[m])
    ensures m == Run(Space, s)
  {
    assert forall i :: 0 <= i < m ==> s[..m][i] == s[i];
    RunReaches(Space, s, m);
  }

  lemma TailParts(s: string, c: nat, q: nat)
    requires c == Run(Space, s) < |s| && s[c] == ':' && q == c + 1 + Run(Space, s[c + 1..])
    ensures q <= |s| && RangeTailLen(s) == if RefPartLen(s[q..]) == 0 then 0 else q + RefPartLen(s[q..])
  {
    hide RefPartLen;
  }

  lemma TailStarts(s: string)
    requires RangeTailLen(s) > 0
    ensures Run(Space, s) < |s| && s[Run(Space, s)] == ':'
  {
    hide RefPartLen;
  }

  lemma TailSlices(s: string, n: nat, c: nat, q: nat)
    requires c < q <= n <= |s|
    ensures s[..n][..c] == s[..c] && s[..n][c] == s[c] && s[..n][c + 1..q] == s[c + 1..][..q - c - 1] && s[..n][q..] == s[q..][..n - q]
  {
    Slice(s, n, c + 1, q);
    SliceEnd(s, n, q);
  }

  lemma RangeTailRun(s: string)
    ensures RangeTailLen(s) > 0 ==> RangeTail(s[..RangeTailLen(s)])
  {
    hide RangeTailLen, RefPartLen, Spaces, RefPart, RangeTail;
    var c, n := Run(Space, s), RangeTailLen(s);
    if n > 0 {
      TailStarts(s);
      var q := c + 1 + Run(Space, s[c + 1..]);
      TailParts(s, c, q);
      BlankRun(s);
      BlankRun(s[c + 1..]);
      RefPartRun(s[q..]);
      TailSlices(s, n, c, q);
      RangeTailAt(s[..n], c, q);
    }
  }

  lemma FirstOfRefPart(t: string)
    requires RefPart(t)
    ensures t != "" && !IsSpace(t[0])
  {
    var i, j, k :| 0 <= i <= j <= k <= |t| && Dollar(t[..i]) && Letters(t[i..j]) && Dollar(t[j..k]) && Digits(t[k..]);
    assert t[i..j][0] == t[i];
    if i > 0 {
      assert t[..i][0] == t[0];
    }
  }

  lemma ColonIsNoSpace()
    ensures !IsSpace(':')
  {
  }

  lemma TailPieces(s: string, m: nat, c: nat, q: nat)
    requires c < q < m <= |s| && s[c] == ':' && !IsSpace(s[q])
    requires Spaces(s[..c]) && Spaces(s[c + 1..][..q - c - 1]) && RefPart(s[q..][..m - q])
    ensures m <= RangeTailLen(s)
  {
    hide RangeTailLen, RefPartLen, RefPart, Spaces, IsSpace;
    assert s[c + 1..][q - c - 1] == s[q];
    ColonIsNoSpace();
    BlankReach(s, c);
    BlankReach(s[c + 1..], q - c - 1);
    TailParts(s, c, q);
    RefPartReach(s[q..], m - q);
  }

  lemma RangeTailReach(s: string, m: nat)
    requires m <= |s| && RangeTail(s[..m])
    ensures 0 < m <= RangeTailLen(s)
  {
    hide RangeTailLen, RefPart, Spaces, IsSpace;
    var t := s[..m];
    var c, q :| 0 <= c < q <= |t| && Spaces(t[..c]) && t[c] == ':' && Spaces(t[c + 1..q]) && RefPart(t[q..]);
    FirstOfRefPart(t[q..]);
    TailSlices(s, m, c, q);
    assert t[q..][0] == s[q];
    TailPieces(s, m, c, q);
  }

  // A cell, or a range.
  ghost predicate Reference(t: string) {
    RefPart(t) || exists p :: 0 <= p <= |t| && RefPart(t[..p]) && RangeTail(t[p..])
  }

  lemma RefRun(s: string)
    ensures RefLen(s) > 0 ==> Reference(s[..RefLen(s)])
  {
    hide RefPartLen, RangeTailLen, RefPart, RangeTail;
    var p, n := RefPartLen(s), RefLen(s);
    if n > 0 {
      RefPartRun(s);
      RangeTailRun(s[p..]);
      assert s[..n][..p] == s[..p] && s[..n][p..] == s[p..][..n - p];
    }
  }

  lemma FirstOfTail(t: string)
    requires RangeTail(t)
    ensures t != "" && (IsSpace(t[0]) || t[0] == ':')
  {
    hide RefPart, IsSpace;
    var c, q :| 0 <= c < q <= |t| && Spaces(t[..c]) && t[c] == ':' && Spaces(t[c + 1..q]) && RefPart(t[q..]);
    if c > 0 {
      assert t[..c][0] == t[0];
    }
  }

  lemma PiecesExact(s: string, p: nat, i: nat, j: nat, k: nat)
    requires i <= j <= k <= p < |s| && Dollar(s[..i]) && Letters(s[i..j]) && Dollar(s[j..k]) && Digits(s[k..p]) && !IsDigit(s[p])
    ensures p == RefPartLen(s)
  {
    RefPieces(s, p, i, j, k);
    RefParts(s, i, j, k);
    hide RefPartLen, DollarLen, Dollar, Letters;
    assert s[k..p] == s[k..][..p - k] && s[k..][p - k] == s[p];
    assert s[i..j] != "" && s[k..p] != "" by {
      LettersDigits(s[i..j], s[k..p]);
    }
    hide Digits;
    DigitsReach(s[k..], p - k);
  }

  lemma LettersDigits(a: string, b: string)
    ensures (Letters(a) ==> a != "") && (Digits(b) ==> b != "")
  {
  }

  // A reference part is the longest one where no digit follows.
  lemma RefPartExact(s: string, p: nat)
    requires p < |s| && RefPart(s[..p]) && !IsDigit(s[p])
    ensures p == RefPartLen(s)
  {
    hide RefPartLen, Dollar, Digits, Letters;
    var t := s[..p];
    var i, j, k :| 0 <= i <= j <= k <= |t| && Dollar(t[..i]) && Letters(t[i..j]) && Dollar(t[j..k]) && Digits(t[k..]);
    assert t[..i] == s[..i] && t[i..j] == s[i..j] && t[j..k] == s[j..k] && t[k..] == s[k..p];
    PiecesExact(s, p, i, j, k);
  }

  lemma RefReach(s: string, m: nat)
    requires m <= |s| && Reference(s[..m])
    ensures 0 < m <= RefLen(s)
  {
    hide RefPartLen, RangeTailLen, RefPart, RangeTail, IsSpace;
    if RefPart(s[..m]) {
      RefPartReach(s, m);
    } else {
      var t := s[..m];
      var p :| 0 <= p <= |t| && RefPart(t[..p]) && RangeTail(t[p..]);
      assert t[..p] == s[..p] && t[p..] == s[p..][..m - p];
      FirstOfTail(t[p..]);
      assert t[p..][0] == s[p];
      SpacesAreNoDigits(s[p]);
      RefPartExact(s, p);
      RefPartReach(s, p);
      RangeTailReach(s[p..], m - p);
    }
  }

  lemma SpacesAreNoDigits(c: char)
    ensures IsSpace(c) || c == ':' ==> !IsDigit(c)
  {
  }

  // ----- The longest lexeme -----

  // `n` is the length of the longest prefix of this kind, or zero if there is none.
  ghost predicate Longest(s: string, n: nat, kind: string -> bool) {
    && n <= |s| && (n > 0 ==> kind(s[..n]))
    && forall m :: 0 <= m <= |s| && kind(s[..m]) ==> 0 < m <= n
  }

  // The lexer takes the longest numeral, and the longest reference, at the front.
  lemma LongestAre(s: string)
    ensures Longest(s, NumberLen(s), t => Numeral(t)) && Longest(s, RefLen(s), t => Reference(t))
  {
    hide NumberLen, RefLen, Numeral, Reference;
    NumberRun(s);
    RefRun(s);
    forall m | 0 <= m <= |s| && Numeral(s[..m])
      ensures 0 < m <= NumberLen(s)
    {
      NumberReach(s, m);
    }
    forall m | 0 <= m <= |s| && Reference(s[..m])
      ensures 0 < m <= RefLen(s)
    {
      RefReach(s, m);
    }
  }

  // ----- Spaces inside a reference -----

  // What is left of a text without its spaces.
  lemma {:induction false} StripPrefixIs(s: string, n: nat)
    requires n <= |s|
    ensures Spaceless(s[..n], StripPrefix(s, n))
    decreases n
  {
    if n > 0 {
      StripPrefixIs(s, n - 1);
      assert s[..n] == s[..n - 1] + [s[n - 1]];
      SpacelessSnoc(s[..n - 1], StripPrefix(s, n - 1), s[n - 1]);
    }
  }

  // The characters of the one that are no spaces are the other, in order.
  ghost predicate Spaceless(s: string, t: string)
    decreases s
  {
    if s == "" then t == ""
    else if IsSpace(s[0]) then Spaceless(s[1..], t)
    else t != "" && t[0] == s[0] && Spaceless(s[1..], t[1..])
  }

  lemma {:induction false} SpacelessSnoc(s: string, t: string, c: char)
    requires Spaceless(s, t)
    ensures Spaceless(s + [c], if IsSpace(c) then t else t + [c])
  {
    hide IsSpace;
    if s == "" {
      assert [c][1..] == "";
    } else {
      assert (s + [c])[1..] == s[1..] + [c];
      if IsSpace(s[0]) {
        SpacelessSnoc(s[1..], t, c);
      } else {
        SpacelessSnoc(s[1..], t[1..], c);
        assert (t + [c])[1..] == t[1..] + [c];
      }
    }
  }

  lemma StripIs(s: string)
    ensures Spaceless(s, StripSpaces(s))
  {
    StripPrefixIs(s, |s|);
    assert s[..|s|] == s;
  }

  // ----- One step of the lexer -----

  // The first closing quote.
  ghost predicate ClosesAt(s: string, n: nat) {
    1 <= n < |s| && s[n] == s[0] && forall i :: 1 <= i < n ==> s[i] != s[0]
  }

  lemma {:induction false} QuoteAt(quote: char, s: string, i: nat)
    requires i <= |s|
    ensures var n := FindQuote(quote, s, i);
            (n < |s| ==> s[n] == quote) && forall k :: i <= k < n ==> s[k] != quote
    decreases |s| - i
  {
    if i < |s| && s[i] != quote {
      QuoteAt(quote, s, i + 1);
    }
  }

  // A text in either kind of quotes, without escapes.
  lemma ScansQuoted(s: string)
    requires s != "" && s[0] in {'"', '\''}
    ensures if exists n :: ClosesAt(s, n) then Scan(s).Found? && ClosesAt(s, Scan(s).len - 1) && Scan(s).token == StrTok(s[1..Scan(s).len - 1])
            else Scan(s) == Bad
  {
    QuoteAt(s[0], s, 1);
    var n := FindQuote(s[0], s, 1);
    hide FindQuote, NumberLen, RefLen, ScanWord, ScanSymbol;
    assert Scan(s) == if n == |s| then Bad else Found(StrTok(s[1..n]), n + 1);
    if n < |s| {
      assert ClosesAt(s, n);
    }
  }

  lemma ScansBlank(s: string)
    requires s != ""
    ensures Scan(s) == Blank <==> s[0] as int in {9, 10, 11, 12, 13, 32, 0xA0, 0x1680, 0x2028, 0x2029, 0x202F, 0x205F, 0x3000, 0xFEFF}
                                  || 0x2000 <= s[0] as int <= 0x200A
  {
    hide FindQuote, NumberLen, RefLen, ScanWord, StripSpaces;
  }

  // A numeral before a reference before a name before a symbol, the longest of its kind.
  lemma ScansNumeral(s: string)
    requires s != "" && !IsSpace(s[0]) && s[0] !in {'"', '\''}
    ensures NumberLen(s) > 0 ==> Scan(s) == Found(NumTok(s[..NumberLen(s)]), NumberLen(s))
    ensures NumberLen(s) == 0 && RefLen(s) > 0 ==>
              Scan(s).Found? && Scan(s).len == RefLen(s) && Scan(s).token.RefTok? && Spaceless(s[..RefLen(s)], Scan(s).token.text)
    ensures NumberLen(s) == 0 && RefLen(s) == 0 ==> Scan(s) == if IdentStart(s[0]) then ScanWord(s) else ScanSymbol(s)
  {
    hide FindQuote, NumberLen, RefLen, ScanWord, ScanSymbol, StripSpaces, Spaceless;
    StripIs(s[..RefLen(s)]);
  }

  // ----- Names and symbols -----

  ghost predicate WordChar(c: char) { 'A' <= c <= 'Z' || 'a' <= c <= 'z' || '0' <= c <= '9' || c in {'_', '.'} }

  // The word at the front.
  ghost predicate WordAt(s: string, n: nat) {
    && 0 < n <= |s| && ('A' <= s[0] <= 'Z' || 'a' <= s[0] <= 'z' || s[0] == '_')
    && (forall i :: 0 <= i < n ==> WordChar(s[i])) && (n < |s| ==> !WordChar(s[n]))
  }

  // In upper case.
  ghost predicate Raises(s: string, u: string) {
    |u| == |s| && forall i :: 0 <= i < |s| ==> if 'a' <= s[i] <= 'z' then u[i] as int == s[i] as int - 32 else u[i] == s[i]
  }

  // A word is a truth value in any case; a function in upper case when an opening parenthesis follows,
  // after any spaces; otherwise a name.
  lemma ScansWord(s: string, n: nat, u: string)
    requires WordAt(s, n) && Raises(s[..n], u)
    ensures ScanWord(s) ==
            if u == "TRUE" then Found(BoolTok(true), n)
            else if u == "FALSE" then Found(BoolTok(false), n)
            else if exists j :: n <= j < |s| && Spaces(s[n..j]) && s[j] == '(' then Found(FuncTok(u), n + Run(Space, s[n..]))
            else Found(IdentTok(s[..n]), n)
  {
    assert forall i :: 0 <= i < n ==> In(Word, s[i]);
    assert n < |s| ==> !In(Word, s[n]);
    RunReaches(Word, s, n);
    RunIsAll(s, n);
    assert ToUpper(s[..n]) == u;
    ParenthesisFollows(s, n);
  }

  lemma RunIsAll(s: string, n: nat)
    requires n <= |s| && (forall i :: 0 <= i < n ==> In(Word, s[i])) && (n < |s| ==> !In(Word, s[n]))
    ensures Run(Word, s) == n
  {
    assert forall i :: 0 <= i < n ==> s[..n][i] == s[i];
    RunIs(Word, s, n);
  }

  lemma ParenthesisFollows(s: string, n: nat)
    requires n <= |s|
    ensures var j := n + Run(Space, s[n..]);
            (j < |s| && s[j] == '(') <==> exists j :: n <= j < |s| && Spaces(s[n..j]) && s[j] == '('
  {
    var j := n + Run(Space, s[n..]);
    BlankRun(s[n..]);
    assert s[n..][..j - n] == s[n..j];
    if k :| n <= k < |s| && Spaces(s[n..k]) && s[k] == '(' {
      assert s[n..k] == s[n..][..k - n] && s[n..][k - n] == s[k];
      assert !IsSpace('(');
      hide IsSpace, Spaces;
      BlankReach(s[n..], k - n);
    }
  }

  // The symbols; two-character ones go before one-character ones.
  lemma ScansSymbol(s: string)
    requires s != ""
    ensures ScanSymbol(s) ==
            if s[0] == '<' && |s| > 1 && s[1] == '>' then Found(OpTok(Ne), 2)
            else if s[0] == '<' && |s| > 1 && s[1] == '=' then Found(OpTok(Le), 2)
            else if s[0] == '>' && |s| > 1 && s[1] == '=' then Found(OpTok(Ge), 2)
            else if s[0] in "+-*/^&=<>" then
              Found(OpTok(if s[0] == '+' then Plus else if s[0] == '-' then Minus else if s[0] == '*' then Times
                          else if s[0] == '/' then Divide else if s[0] == '^' then Power else if s[0] == '&' then Concat
                          else if s[0] == '=' then Eq else if s[0] == '<' then Lt else Gt), 1)
            else if s[0] == '%' then Found(PercentTok, 1)
            else if s[0] == '(' then Found(LParen, 1)
            else if s[0] == ')' then Found(RParen, 1)
            else if s[0] == ',' then Found(Comma, 1)
            else Bad
  {
  }
}
