/** Topics of remote events: colon-separated segments, and a wildcard for whatever follows. */
module EventTopics {
  import opened Text

  const MAX_TOPIC_SEGMENTS := 3

  predicate StartsWith(s: string, prefix: string) { prefix <= s }

  predicate IsWildcardTopic(topic: string) {
    |topic| >= 2 && topic[|topic| - 2..] == ":*"
  }

  // `topicMatches`
  predicate TopicMatches(subscribed: string, actual: string) {
    || subscribed == actual
    || (IsWildcardTopic(subscribed) && StartsWith(actual, subscribed[..|subscribed| - 2] + ":"))
  }

  // ----- Segments -----

  // The text between the colons.
  function Segments(s: string): (segments: seq<string>)
    ensures segments != []
    decreases |s|
  {
    var n := FirstColon(s);
    if n == |s| then [s] else [s[..n]] + Segments(s[n + 1..])
  }

  lemma FirstColonAppend(a: string, rest: string)
    requires FirstColon(a) == |a|
    ensures FirstColon(a + ":" + rest) == |a|
  {
    var s := a + ":" + rest;
    assert s[|a|] == ':';
    assert forall i :: 0 <= i < |a| ==> s[i] == a[i];
    FirstColonIs(s, |a|);
  }

  lemma SegmentsSplit(s: string, n: nat)
    requires FirstColon(s) == n < |s|
    ensures Segments(s) == [s[..n]] + Segments(s[n + 1..])
  {
  }

  lemma OnlySegment(s: string)
    requires FirstColon(s) == |s|
    ensures Segments(s) == [s]
  {
  }

  // Joining with a colon joins the segments.
  lemma {:induction false} SegmentsAppend(a: string, rest: string)
    ensures Segments(a + ":" + rest) == Segments(a) + Segments(rest)
    decreases |a|
  {
    hide Segments, FirstColon;
    var s, n := a + ":" + rest, FirstColon(a);
    if n == |a| {
      FirstColonAppend(a, rest);
      OnlySegment(a);
      SegmentsSplit(s, n);
      assert s[..n] == a && s[n + 1..] == rest;
    } else {
      assert s[n] == ':' && forall i :: 0 <= i < n ==> s[i] == a[i];
      FirstColonIs(s, n);
      SegmentsSplit(s, n);
      SegmentsSplit(a, n);
      SegmentsAppend(a[n + 1..], rest);
      assert s[..n] == a[..n] && s[n + 1..] == a[n + 1..] + ":" + rest;
    }
  }

  function Join(segments: seq<string>): string
    requires segments != []
  {
    if |segments| == 1 then segments[0] else segments[0] + ":" + Join(segments[1..])
  }

  lemma {:induction false} JoinSegments(s: string)
    ensures Join(Segments(s)) == s
    decreases |s|
  {
    var n := FirstColon(s);
    hide Segments, Join, FirstColon;
    if n < |s| {
      JoinSegments(s[n + 1..]);
      SegmentsSplit(s, n);
      JoinCons(s[..n], Segments(s[n + 1..]));
      assert s == s[..n] + ":" + s[n + 1..];
    } else {
      OnlySegment(s);
      OneSegment(s);
    }
  }

  lemma JoinCons(first: string, rest: seq<string>)
    requires rest != []
    ensures Join([first] + rest) == first + ":" + Join(rest)
  {
    assert ([first] + rest)[1..] == rest;
  }

  lemma {:induction false} JoinAppend(a: seq<string>, b: seq<string>)
    requires a != [] && b != []
    ensures Join(a + b) == Join(a) + ":" + Join(b)
  {
    if |a| == 1 {
      assert (a + b)[1..] == b;
    } else {
      assert (a + b)[1..] == a[1..] + b;
      JoinAppend(a[1..], b);
      assert Join(a + b) == a[0] + ":" + (Join(a[1..]) + ":" + Join(b));
    }
  }

  // A wildcard topic matches itself and whatever has more segments after the ones it names;
  // characters never match across a segment's end.
  lemma WildcardMatchesSegments(base: string, actual: string)
    ensures TopicMatches(base + ":*", actual) <==>
            actual == base + ":*" || Segments(base) < Segments(actual)
  {
    var subscribed := base + ":*";
    assert subscribed[|subscribed| - 2..] == ":*" && subscribed[..|subscribed| - 2] == base;
    var prefix := base + ":";
    if StartsWith(actual, prefix) {
      var rest := actual[|prefix|..];
      assert actual == base + ":" + rest;
      SegmentsAppend(base, rest);
    }
    if Segments(base) < Segments(actual) {
      var rest := Segments(actual)[|Segments(base)|..];
      assert Segments(actual) == Segments(base) + rest;
      JoinAppend(Segments(base), rest);
      JoinSegments(base);
      JoinSegments(actual);
      assert actual == prefix + Join(rest);
    }
  }

  // Without a wildcard only the topic itself matches.
  lemma ExactMatchesItself(subscribed: string, actual: string)
    requires !IsWildcardTopic(subscribed)
    ensures TopicMatches(subscribed, actual) <==> subscribed == actual
  {
  }

  // ----- The topic grammar -----

  predicate NameChar(c: char) { IsLetter(c) || IsDigit(c) || c == '_' }

  predicate IsName(s: string) {
    s != "" && NameChar(s[0]) && forall i :: 0 <= i < |s| ==> NameChar(s[i]) || s[i] == '.' || s[i] == '-'
  }

  // Without a final wildcard.
  function WithoutStar(segments: seq<string>): seq<string>
    requires segments != []
  {
    if segments[|segments| - 1] == "*" then segments[..|segments| - 1] else segments
  }

  // `EVENT_TOPIC_RE`: a base, up to three more names, and possibly a final wildcard.
  predicate IsTopic(s: string) {
    var names := WithoutStar(Segments(s));
    && 1 <= |names| <= 1 + MAX_TOPIC_SEGMENTS
    && forall i :: 0 <= i < |names| ==> IsName(names[i])
  }

  lemma StarIsOneSegment()
    ensures Segments("*") == ["*"]
  {
  }

  // The wildcard of a valid topic is its last segment.
  lemma TopicWildcardIsLast(s: string)
    requires |Segments(s)| > 1 || s != "*"
    ensures IsWildcardTopic(s) <==> Segments(s)[|Segments(s)| - 1] == "*"
  {
    StarIsOneSegment();
    JoinSegments(s);
    hide Segments, Join;
    var all := Segments(s);
    if all[|all| - 1] == "*" && |all| > 1 {
      var names := all[..|all| - 1];
      assert all == names + ["*"];
      JoinStar(names);
      EndsInStar(s, Join(names));
    } else if |all| == 1 {
      assert all == [all[0]];
      OneSegment(all[0]);
    }
    if IsWildcardTopic(s) {
      EndsInStar(s, s[..|s| - 2]);
      PlusStar(s[..|s| - 2]);
      SegmentsAppend(s[..|s| - 2], "*");
    }
  }

  lemma EndsInStar(s: string, base: string)
    ensures s == base + ":*" ==> IsWildcardTopic(s)
    ensures IsWildcardTopic(s) && base == s[..|s| - 2] ==> s == base + ":*"
  {
    if s == base + ":*" {
      assert s[|s| - 2..] == ":*";
    }
    if IsWildcardTopic(s) && base == s[..|s| - 2] {
      assert s == s[..|s| - 2] + s[|s| - 2..];
    }
  }

  lemma OneSegment(s: string)
    ensures Join([s]) == s
  {
  }

  // One name: a letter, a digit or an underscore, and then also dots and dashes.
  ghost predicate Names(s: string) {
    && s != "" && s[0] !in {'.', '-'}
    && forall i :: 0 <= i < |s| ==>
         'A' <= s[i] <= 'Z' || 'a' <= s[i] <= 'z' || '0' <= s[i] <= '9' || s[i] in {'_', '.', '-'}
  }

  lemma NameIs(s: string)
    ensures IsName(s) <==> Names(s)
    ensures IsName(s) ==> FirstColon(s) == |s| && s != "*"
  {
    if IsName(s) {
      assert forall i :: 0 <= i < |s| ==> s[i] != ':' && s[i] != '*';
      FirstColonIs(s, |s|);
    }
  }

  lemma {:induction false} SegmentsJoin(names: seq<string>)
    requires names != [] && forall i :: 0 <= i < |names| ==> FirstColon(names[i]) == |names[i]|
    ensures Segments(Join(names)) == names
  {
    if |names| == 1 {
      assert names == [names[0]];
      OnlySegment(names[0]);
    } else {
      SegmentsJoin(names[1..]);
      SegmentsAppend(names[0], Join(names[1..]));
      OnlySegment(names[0]);
    }
  }

  // One to four names with colons between them, and possibly a colon and a star behind them.
  ghost predicate Spells(names: seq<string>, s: string) {
    && 1 <= |names| <= 4 && (forall i :: 0 <= i < |names| ==> Names(names[i]))
    && (s == Join(names) || s == Join(names) + ":*")
  }

  lemma TopicIsSpelled(s: string) returns (names: seq<string>)
    requires IsTopic(s)
    ensures Spells(names, s)
  {
    JoinSegments(s);
    var all := Segments(s);
    names := WithoutStar(all);
    hide IsName, Names, Segments, Join;
    forall i | 0 <= i < |names|
      ensures Names(names[i])
    {
      NameIs(names[i]);
    }
    hide WithoutStar;
    StarAtEnd(all);
  }

  lemma PlusStar(s: string)
    ensures s + ":" + "*" == s + ":*"
  {
  }

  lemma JoinStar(names: seq<string>)
    requires names != []
    ensures Join(names + ["*"]) == Join(names) + ":*"
  {
    hide Join;
    JoinAppend(names, ["*"]);
    OneSegment("*");
    PlusStar(Join(names));
  }

  lemma StarAtEnd(all: seq<string>)
    requires all != [] && WithoutStar(all) != []
    ensures Join(all) == if all[|all| - 1] == "*" then Join(WithoutStar(all)) + ":*" else Join(WithoutStar(all))
  {
    hide Join;
    if all[|all| - 1] == "*" {
      assert all == WithoutStar(all) + ["*"];
      JoinStar(WithoutStar(all));
    }
  }

  lemma SpelledIsTopic(s: string, names: seq<string>)
    requires Spells(names, s)
    ensures IsTopic(s)
  {
    hide IsName, Names, Segments, Join;
    forall i | 0 <= i < |names|
      ensures IsName(names[i]) && FirstColon(names[i]) == |names[i]| && names[i] != "*"
    {
      NameIs(names[i]);
    }
    SegmentsJoin(names);
    if s != Join(names) {
      StarIsOneSegment();
      assert s == Join(names) + ":" + "*";
      SegmentsAppend(Join(names), "*");
      assert (names + ["*"])[..|names|] == names;
    }
  }

  lemma TopicGrammar(s: string)
    ensures IsTopic(s) <==> exists names :: Spells(names, s)
  {
    hide IsTopic, Spells;
    if IsTopic(s) {
      var names := TopicIsSpelled(s);
    }
    if names :| Spells(names, s) {
      SpelledIsTopic(s, names);
    }
  }
}
