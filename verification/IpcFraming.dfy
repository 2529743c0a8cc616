/** Length-prefixed frames between sandboxed plugins and their host. */
module IpcFraming {
  import opened Text

  const IPC_FRAME_HEADER_BYTES := 4
  const MAX_UINT32 := 0x1_0000_0000

  newtype Byte = x: int | 0 <= x < 256

  type Bytes = seq<Byte>

  // What the message handler does with a message: nothing special, close the channel, or throw.
  datatype Reaction = Goes | Closes | Throws

  // `parse` is the fail-closed parser of a payload; `None` is a typed error.
  datatype Protocol<!M> = Protocol(maxFrameBytes: nat, parse: Bytes -> Option<M>, react: M -> Reaction)

  // The receiving side. `delivered` lists the messages handed to the handler, and `failed` says
  // that the error handler was called.
  datatype Receiver<M> = Receiver(buffer: Bytes, closed: bool, failed: bool, delivered: seq<M>)

  // The big-endian length in front of a frame.
  function Header(b: Bytes): (n: nat)
    requires |b| >= 4
    ensures n < MAX_UINT32
  {
    ((b[0] as int * 256 + b[1] as int) * 256 + b[2] as int) * 256 + b[3] as int
  }

  function WriteHeader(n: nat): Bytes
    requires n < MAX_UINT32
  {
    [(n / 0x100_0000) as Byte, (n / 0x1_0000 % 256) as Byte, (n / 256 % 256) as Byte, (n % 256) as Byte]
  }

  function Frame(payload: Bytes): Bytes
    requires |payload| < MAX_UINT32
  {
    WriteHeader(|payload|) + payload
  }

  lemma HeaderRoundTrip(n: nat, rest: Bytes)
    requires n < MAX_UINT32
    ensures Header(WriteHeader(n) + rest) == n
  {
    var a, b, c, d := n / 0x100_0000, n / 0x1_0000 % 256, n / 256 % 256, n % 256;
    var w := WriteHeader(n) + rest;
    assert w[0] as int == a && w[1] as int == b && w[2] as int == c && w[3] as int == d;
    assert n / 256 == (n / 0x1_0000) * 256 + c;
    assert n / 0x1_0000 == a * 256 + b;
  }

  // ----- The decoding loop -----

  datatype Decoded = Incomplete | TooLarge | Whole(payload: Bytes, rest: Bytes)

  // `tryDecodeFrame`
  function TryDecodeFrame(maxFrameBytes: nat, buffer: Bytes): (d: Decoded)
    ensures d.Whole? ==> |d.rest| < |buffer|
  {
    if |buffer| < IPC_FRAME_HEADER_BYTES then Incomplete
    else
      var length := Header(buffer);
      if length > maxFrameBytes then TooLarge
      else if |buffer| < IPC_FRAME_HEADER_BYTES + length then Incomplete
      else Whole(buffer[IPC_FRAME_HEADER_BYTES..IPC_FRAME_HEADER_BYTES + length], buffer[IPC_FRAME_HEADER_BYTES + length..])
  }

  function Fail<M>(s: Receiver<M>): Receiver<M> {
    if s.closed then s else s.(closed := true, failed := true)
  }

  // The loop ended for want of bytes (`starved`) or by an error.
  datatype Drained<M> = Drained(s: Receiver<M>, starved: bool)

  // The handler's turn: the state it leaves, and whether the loop goes on.
  function Dispatch<M>(p: Protocol<M>, s: Receiver<M>, payload: Bytes, rest: Bytes): Drained<M> {
    match p.parse(payload)
    case None => Drained(Fail(s.(buffer := rest)), false)
    case Some(m) =>
      var next := s.(buffer := rest, delivered := s.delivered + [m]);
      match p.react(m)
      case Goes => Drained(next, true)
      case Closes => Drained(next.(closed := true), true)
      case Throws => Drained(Fail(next), false)
  }

  // The loop of `onData`; a handler that closes the channel does not end it.
  function Drain<M>(p: Protocol<M>, s: Receiver<M>): Drained<M>
    decreases |s.buffer|
  {
    match TryDecodeFrame(p.maxFrameBytes, s.buffer)
    case Incomplete => Drained(s, true)
    case TooLarge => Drained(Fail(s), false)
    case Whole(payload, rest) =>
      var d := Dispatch(p, s, payload, rest);
      if d.starved then Drain(p, d.s) else d
  }

  // `onData`
  function OnData<M>(p: Protocol<M>, s: Receiver<M>, chunk: Bytes): Receiver<M> {
    if s.closed then s else Drain(p, s.(buffer := s.buffer + chunk)).s
  }

  function OnChunks<M>(p: Protocol<M>, s: Receiver<M>, chunks: seq<Bytes>): Receiver<M>
    decreases |chunks|
  {
    if chunks == [] then s else OnChunks(p, OnData(p, s, chunks[0]), chunks[1..])
  }

  function Concat(chunks: seq<Bytes>): Bytes {
    if chunks == [] then [] else chunks[0] + Concat(chunks[1..])
  }

  // ----- Fragmentation -----

  // Agreement on everything that can be observed, and on the buffer of an open channel.
  predicate Agree<M(==)>(a: Receiver<M>, b: Receiver<M>) {
    && a.delivered == b.delivered
    && a.closed == b.closed
    && a.failed == b.failed
    && (!a.closed ==> a.buffer == b.buffer)
  }

  lemma MoreBytes(maxFrameBytes: nat, buffer: Bytes, more: Bytes)
    ensures var d := TryDecodeFrame(maxFrameBytes, buffer);
            && (d.TooLarge? ==> TryDecodeFrame(maxFrameBytes, buffer + more) == d)
            && (d.Whole? ==> TryDecodeFrame(maxFrameBytes, buffer + more) == Whole(d.payload, d.rest + more))
  {
    if |buffer| >= IPC_FRAME_HEADER_BYTES {
      var n := IPC_FRAME_HEADER_BYTES + Header(buffer);
      assert Header(buffer + more) == Header(buffer);
      if n <= |buffer| {
        assert (buffer + more)[..n] == buffer[..n];
        assert (buffer + more)[n..] == buffer[n..] + more;
        assert (buffer + more)[4..n] == buffer[4..n];
      }
    }
  }

  // Draining with more bytes behind is draining and then going on with what is left.
  lemma {:induction false} DrainMore<M>(p: Protocol<M>, s: Receiver<M>, more: Bytes)
    ensures var d := Drain(p, s);
            var long := Drain(p, s.(buffer := s.buffer + more));
            if d.starved then long == Drain(p, d.s.(buffer := d.s.buffer + more))
            else long == Drained(long.s, false) && long.s == d.s.(buffer := long.s.buffer)
    decreases |s.buffer|
  {
    MoreBytes(p.maxFrameBytes, s.buffer, more);
    var d := TryDecodeFrame(p.maxFrameBytes, s.buffer);
    if d.Whole? {
      var next := Dispatch(p, s, d.payload, d.rest);
      var long := s.(buffer := s.buffer + more);
      assert Dispatch(p, long, d.payload, d.rest + more) ==
             Drained(next.s.(buffer := next.s.buffer + more), next.starved);
      if next.starved {
        DrainMore(p, next.s, more);
      }
    }
  }

  // The next frame is complete and parses.
  predicate DeliversNext<M>(p: Protocol<M>, buffer: Bytes) {
    var d := TryDecodeFrame(p.maxFrameBytes, buffer);
    d.Whole? && p.parse(d.payload).Some?
  }

  lemma {:induction false} DrainDelivers<M>(p: Protocol<M>, s: Receiver<M>)
    ensures var t := Drain(p, s).s;
            && |s.delivered| + (if DeliversNext(p, s.buffer) then 1 else 0) <= |t.delivered|
            && (!DeliversNext(p, s.buffer) ==> t.delivered == s.delivered)
            && (s.closed ==> t.closed && t.failed == s.failed)
    decreases |s.buffer|
  {
    var d := TryDecodeFrame(p.maxFrameBytes, s.buffer);
    if d.Whole? {
      var next := Dispatch(p, s, d.payload, d.rest);
      if next.starved {
        DrainDelivers(p, next.s);
      }
    }
  }

  // Two chunks have the effect of their concatenation, unless the handler closes the channel
  // during the first and the bytes that are left then complete another message: one chunk
  // still delivers it, two do not.
  lemma SplitIff<M>(p: Protocol<M>, s: Receiver<M>, a: Bytes, b: Bytes)
    requires !s.closed
    ensures var first := Drain(p, s.(buffer := s.buffer + a));
            Agree(OnData(p, OnData(p, s, a), b), OnData(p, s, a + b)) <==>
            !(first.s.closed && first.starved && DeliversNext(p, first.s.buffer + b))
  {
    var start := s.(buffer := s.buffer + a);
    var first := Drain(p, start);
    assert s.buffer + (a + b) == start.buffer + b;
    DrainMore(p, start, b);
    if first.starved && first.s.closed {
      DrainDelivers(p, first.s.(buffer := first.s.buffer + b));
    }
    if !first.starved {
      StoppedIsClosed(p, start);
    }
  }

  lemma {:induction false} StoppedIsClosed<M>(p: Protocol<M>, s: Receiver<M>)
    ensures !Drain(p, s).starved ==> Drain(p, s).s.closed
    decreases |s.buffer|
  {
    var d := TryDecodeFrame(p.maxFrameBytes, s.buffer);
    if d.Whole? {
      var next := Dispatch(p, s, d.payload, d.rest);
      if next.starved {
        StoppedIsClosed(p, next.s);
      }
    }
  }

  // A handler that never closes the channel from within.
  ghost predicate NeverCloses<M(!new)>(p: Protocol<M>) {
    forall m: M :: p.react(m) != Closes
  }

  lemma {:induction false} StarvedIsOpen<M(!new)>(p: Protocol<M>, s: Receiver<M>)
    requires NeverCloses(p) && !s.closed
    ensures Drain(p, s).starved <==> !Drain(p, s).s.closed
    decreases |s.buffer|
  {
    var d := TryDecodeFrame(p.maxFrameBytes, s.buffer);
    if d.Whole? {
      var next := Dispatch(p, s, d.payload, d.rest);
      if next.starved {
        StarvedIsOpen(p, next.s);
      }
    }
  }

  // Any fragmentation of the same bytes is decoded alike.
  lemma {:induction false} ChunkingIrrelevant<M(!new)>(p: Protocol<M>, s: Receiver<M>, chunks: seq<Bytes>)
    requires NeverCloses(p) && !s.closed && chunks != []
    ensures Agree(OnChunks(p, s, chunks), OnData(p, s, Concat(chunks)))
    decreases |chunks|
  {
    hide Drain, NeverCloses;
    if |chunks| == 1 {
      assert Concat(chunks) == chunks[0];
      assert OnChunks(p, OnData(p, s, chunks[0]), []) == OnData(p, s, chunks[0]);
    } else {
      var a, b := chunks[0], Concat(chunks[1..]);
      var mid := OnData(p, s, a);
      StarvedIsOpen(p, s.(buffer := s.buffer + a));
      SplitIff(p, s, a, b);
      if mid.closed {
        ClosedStays(p, mid, chunks[1..]);
      } else {
        ChunkingIrrelevant(p, mid, chunks[1..]);
      }
    }
  }

  lemma {:induction false} ClosedStays<M>(p: Protocol<M>, s: Receiver<M>, chunks: seq<Bytes>)
    requires s.closed
    ensures OnChunks(p, s, chunks) == s
    decreases |chunks|
  {
    if chunks != [] {
      ClosedStays(p, s, chunks[1..]);
    }
  }

  lemma {:induction false} StarvedBufferIsSmall<M>(p: Protocol<M>, s: Receiver<M>)
    ensures var d := Drain(p, s);
            (d.starved ==> |d.s.buffer| < IPC_FRAME_HEADER_BYTES + p.maxFrameBytes)
    decreases |s.buffer|
  {
    var d := TryDecodeFrame(p.maxFrameBytes, s.buffer);
    if d.Whole? {
      var next := Dispatch(p, s, d.payload, d.rest);
      if next.starved {
        StarvedBufferIsSmall(p, next.s);
      }
    }
  }

  // Between calls an open channel holds less than a header and one largest payload.
  lemma OpenBufferIsSmall<M>(p: Protocol<M>, s: Receiver<M>, chunk: Bytes)
    ensures var t := OnData(p, s, chunk);
            (!t.closed ==> |t.buffer| < IPC_FRAME_HEADER_BYTES + p.maxFrameBytes)
  {
    var start := s.(buffer := s.buffer + chunk);
    StarvedBufferIsSmall(p, start);
    if !s.closed && !Drain(p, start).starved {
      StoppedIsClosed(p, start);
    }
  }

  // ----- Sending -----

  predicate Sendable(maxFrameBytes: nat, payload: Bytes) { |payload| <= maxFrameBytes && |payload| < MAX_UINT32 }

  function Frames(payloads: seq<Bytes>): Bytes
    requires forall i :: 0 <= i < |payloads| ==> |payloads[i]| < MAX_UINT32
  {
    if payloads == [] then [] else Frame(payloads[0]) + Frames(payloads[1..])
  }

  lemma FrameDecodes(maxFrameBytes: nat, payload: Bytes, rest: Bytes)
    requires Sendable(maxFrameBytes, payload)
    ensures TryDecodeFrame(maxFrameBytes, Frame(payload) + rest) == Whole(payload, rest)
  {
    var b := Frame(payload) + rest;
    assert b == WriteHeader(|payload|) + (payload + rest);
    HeaderRoundTrip(|payload|, payload + rest);
    var n := IPC_FRAME_HEADER_BYTES + |payload|;
    assert b[4..n] == payload && b[n..] == rest;
  }

  // Messages sent as frames, and the payloads they were written as.
  ghost predicate Accepted<M>(p: Protocol<M>, payloads: seq<Bytes>, messages: seq<M>) {
    && |messages| == |payloads|
    && forall i :: 0 <= i < |payloads| ==>
         && Sendable(p.maxFrameBytes, payloads[i])
         && p.parse(payloads[i]) == Some(messages[i])
         && p.react(messages[i]) == Goes
  }

  lemma {:induction false} FramesDrain<M>(p: Protocol<M>, s: Receiver<M>, payloads: seq<Bytes>, messages: seq<M>)
    requires Accepted(p, payloads, messages) && s.buffer == Frames(payloads)
    ensures Drain(p, s) == Drained(s.(buffer := [], delivered := s.delivered + messages), true)
    decreases |payloads|
  {
    hide Frame, Frames, TryDecodeFrame;
    if payloads == [] {
      FramesEmpty(p, s);
      assert messages == [] && s.delivered + messages == s.delivered;
    } else {
      FramesFirst(payloads);
      FrameDecodes(p.maxFrameBytes, payloads[0], Frames(payloads[1..]));
      var next := s.(buffer := Frames(payloads[1..]), delivered := s.delivered + [messages[0]]);
      FramesDrain(p, next, payloads[1..], messages[1..]);
      assert next.delivered + messages[1..] == s.delivered + messages;
    }
  }

  lemma FramesFirst(payloads: seq<Bytes>)
    requires payloads != [] && forall i :: 0 <= i < |payloads| ==> |payloads[i]| < MAX_UINT32
    ensures Frames(payloads) == Frame(payloads[0]) + Frames(payloads[1..])
  {
  }

  lemma FramesEmpty<M>(p: Protocol<M>, s: Receiver<M>)
    requires s.buffer == Frames([])
    ensures Frames([]) == [] && Drain(p, s) == Drained(s, true)
  {
  }

  // However the sent bytes are cut into chunks, the receiver delivers the sent messages in
  // order, stays open, and is left with an empty buffer.
  lemma SentIsDelivered<M(!new)>(p: Protocol<M>, payloads: seq<Bytes>, messages: seq<M>, chunks: seq<Bytes>)
    requires NeverCloses(p) && Accepted(p, payloads, messages)
    requires forall i :: 0 <= i < |payloads| ==> |payloads[i]| < MAX_UINT32
    requires Concat(chunks) == Frames(payloads)
    ensures OnChunks(p, Receiver([], false, false, []), chunks) == Receiver([], false, false, messages)
  {
    var s: Receiver<M> := Receiver([], false, false, []);
    if chunks == [] {
      FramesDrain(p, s, payloads, messages);
      FramesEmpty(p, s);
    } else {
      assert s.buffer + Concat(chunks) == Concat(chunks);
      FramesDrain(p, s.(buffer := Concat(chunks)), payloads, messages);
      ChunkingIrrelevant(p, s, chunks);
      assert [] + messages == messages;
    }
  }
}
