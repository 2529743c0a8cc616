/** What an arriving chunk means: which messages it completes, and how the decoding of it ends. */
module IpcStreams {
  import opened Text
  import opened IpcFraming

  // The number in front of a payload: four bytes, the most significant one first.
  ghost function Length(b: Bytes): nat
    requires |b| >= 4
  {
    b[0] as int * 16_777_216 + b[1] as int * 65_536 + b[2] as int * 256 + b[3] as int
  }

  // The bytes are these payloads, each behind its length, and some more.
  ghost predicate Splits(b: Bytes, payloads: seq<Bytes>, tail: Bytes)
    decreases |payloads|
  {
    if payloads == [] then b == tail
    else
      var n := |payloads[0]|;
      |b| >= 4 + n && Length(b) == n && b[4..4 + n] == payloads[0] && Splits(b[4 + n..], payloads[1..], tail)
  }

  // How the decoding ends: for want of bytes, at a length that is too large, at a payload that does not
  // parse, or because the handler has thrown.
  datatype End = Starved | Oversized | Garbled | Thrown

  ghost predicate EndsIn<M>(p: Protocol<M>, end: End, tail: Bytes, buffer: Bytes) {
    match end
    case Starved => (|tail| < 4 || (Length(tail) <= p.maxFrameBytes && |tail| < 4 + Length(tail))) && buffer == tail
    case Oversized => |tail| >= 4 && Length(tail) > p.maxFrameBytes && buffer == tail
    case Garbled =>
      && |tail| >= 4 && Length(tail) <= p.maxFrameBytes && |tail| >= 4 + Length(tail)
      && p.parse(tail[4..4 + Length(tail)]).None? && buffer == tail[4 + Length(tail)..]
    case Thrown => buffer == tail
  }

  // The messages are those of the payloads; only the last one can have made the handler throw.
  ghost predicate Handled<M>(p: Protocol<M>, payloads: seq<Bytes>, ms: seq<M>, end: End) {
    && |ms| == |payloads| && (end == Thrown ==> ms != [])
    && (forall i :: 0 <= i < |ms| ==> |payloads[i]| <= p.maxFrameBytes && p.parse(payloads[i]) == Some(ms[i]))
    && (forall i :: 0 <= i < |ms| ==> (p.react(ms[i]) == Throws <==> end == Thrown && i == |ms| - 1))
  }

  // The channel was closed before the end, by whoever.
  ghost predicate WasClosed<M>(p: Protocol<M>, s: Receiver<M>, ms: seq<M>) {
    s.closed || exists i :: 0 <= i < |ms| && p.react(ms[i]) == Closes
  }

  // From one state and the bytes in its buffer to another state.
  ghost predicate Explained<M>(p: Protocol<M>, s: Receiver<M>, payloads: seq<Bytes>, ms: seq<M>, tail: Bytes, end: End, t: Receiver<M>) {
    && Splits(s.buffer, payloads, tail) && Handled(p, payloads, ms, end) && EndsIn(p, end, tail, t.buffer)
    && t.delivered == s.delivered + ms
    && (t.closed <==> end != Starved || WasClosed(p, s, ms))
    && (t.failed <==> s.failed || (end != Starved && !WasClosed(p, s, ms)))
  }

  lemma HeaderIsLength(b: Bytes)
    requires |b| >= 4
    ensures Header(b) == Length(b)
  {
  }

  lemma NothingMore<M>(p: Protocol<M>, s: Receiver<M>, end: End, t: Receiver<M>)
    requires end != Thrown && EndsIn(p, end, s.buffer, t.buffer) && t.delivered == s.delivered
    requires t.closed <==> end != Starved || s.closed
    requires t.failed <==> s.failed || (end != Starved && !s.closed)
    ensures Explained(p, s, [], [], s.buffer, end, t)
  {
    assert s.delivered + [] == s.delivered;
  }

  // One more payload in front.
  lemma OneMore<M>(p: Protocol<M>, s: Receiver<M>, payload: Bytes, m: M, u: Receiver<M>, payloads: seq<Bytes>, ms: seq<M>,
                   tail: Bytes, end: End, t: Receiver<M>)
    requires |payload| <= p.maxFrameBytes && p.parse(payload) == Some(m) && p.react(m) != Throws
    requires |s.buffer| >= 4 + |payload| && Length(s.buffer) == |payload| && s.buffer[4..4 + |payload|] == payload
    requires u == s.(buffer := s.buffer[4 + |payload|..], delivered := s.delivered + [m], closed := s.closed || p.react(m) == Closes)
    requires Explained(p, u, payloads, ms, tail, end, t)
    ensures Explained(p, s, [payload] + payloads, [m] + ms, tail, end, t)
  {
    var ps, ns := [payload] + payloads, [m] + ms;
    assert ps[1..] == payloads && u.delivered + ms == s.delivered + ns;
    hide EndsIn;
    forall i | 0 <= i < |ns|
      ensures |ps[i]| <= p.maxFrameBytes && p.parse(ps[i]) == Some(ns[i])
      ensures p.react(ns[i]) == Throws <==> end == Thrown && i == |ns| - 1
    {
      if i > 0 {
        assert ps[i] == payloads[i - 1] && ns[i] == ms[i - 1];
      }
    }
    WasClosedCons(p, s, u, m, ms);
  }

  lemma WasClosedCons<M>(p: Protocol<M>, s: Receiver<M>, u: Receiver<M>, m: M, ms: seq<M>)
    requires u.closed <==> s.closed || p.react(m) == Closes
    ensures WasClosed(p, s, [m] + ms) <==> WasClosed(p, u, ms)
  {
    var ns := [m] + ms;
    assert ns[0] == m && forall i :: 0 <= i < |ms| ==> ns[i + 1] == ms[i];
    if i :| 0 <= i < |ns| && p.react(ns[i]) == Closes {
      assert i == 0 || ms[i - 1] == ns[i];
    }
    if i :| 0 <= i < |ms| && p.react(ms[i]) == Closes {
      assert ns[i + 1] == ms[i];
    }
  }

  lemma ThrownAt<M>(p: Protocol<M>, s: Receiver<M>, payload: Bytes, m: M, t: Receiver<M>)
    requires |payload| <= p.maxFrameBytes && p.parse(payload) == Some(m) && p.react(m) == Throws
    requires |s.buffer| >= 4 + |payload| && Length(s.buffer) == |payload| && s.buffer[4..4 + |payload|] == payload
    requires t == s.(buffer := s.buffer[4 + |payload|..], delivered := s.delivered + [m], closed := true, failed := s.failed || !s.closed)
    ensures Explained(p, s, [payload], [m], s.buffer[4 + |payload|..], Thrown, t)
  {
    assert [payload][1..] == [];
  }

  lemma {:induction false} DrainMeans<M>(p: Protocol<M>, s: Receiver<M>) returns (payloads: seq<Bytes>, ms: seq<M>, tail: Bytes, end: End)
    ensures Explained(p, s, payloads, ms, tail, end, Drain(p, s).s)
    decreases |s.buffer|
  {
    hide Explained;
    if |s.buffer| >= 4 {
      HeaderIsLength(s.buffer);
    }
    payloads, ms, tail, end := [], [], s.buffer, Starved;
    match TryDecodeFrame(p.maxFrameBytes, s.buffer)
    case Incomplete => NothingMore(p, s, Starved, Drain(p, s).s);
    case TooLarge =>
      end := Oversized;
      NothingMore(p, s, Oversized, Drain(p, s).s);
    case Whole(payload, rest) =>
      var next := Dispatch(p, s, payload, rest);
      if p.parse(payload).None? {
        end := Garbled;
        NothingMore(p, s, Garbled, next.s);
      } else if p.react(p.parse(payload).value) == Throws {
        payloads, ms, tail, end := [payload], [p.parse(payload).value], rest, Thrown;
        ThrownAt(p, s, payload, p.parse(payload).value, next.s);
      } else {
        payloads, ms, tail, end := DrainMeans(p, next.s);
        OneMore(p, s, payload, p.parse(payload).value, next.s, payloads, ms, tail, end, Drain(p, next.s).s);
        payloads, ms := [payload] + payloads, [p.parse(payload).value] + ms;
      }
  }

  // A chunk that arrives on an open channel: the bytes held so far and the chunk are some payloads and a
  // tail, the messages of the payloads are delivered in order, and the channel ends closed exactly when
  // something was wrong or a handler closed it, and failed exactly when something was wrong first.
  lemma OnDataMeans<M>(p: Protocol<M>, s: Receiver<M>, chunk: Bytes) returns (payloads: seq<Bytes>, ms: seq<M>, tail: Bytes, end: End)
    requires !s.closed
    ensures Explained(p, s.(buffer := s.buffer + chunk), payloads, ms, tail, end, OnData(p, s, chunk))
  {
    hide Explained, Drain;
    payloads, ms, tail, end := DrainMeans(p, s.(buffer := s.buffer + chunk));
  }

  // Nothing more is delivered on a channel that is closed.
  lemma ClosedIsDeaf<M>(p: Protocol<M>, s: Receiver<M>, chunk: Bytes)
    requires s.closed
    ensures OnData(p, s, chunk) == s
  {
  }
}
