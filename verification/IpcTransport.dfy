/** The transport object: decoding in place, and a write queue under back-pressure. */
module IpcTransport {
  import opened Text
  import opened IpcFraming

  datatype SendResult = Sent | ChannelClosed | FrameTooLarge | LengthOverflow

  // What the output stream answers to a write.
  datatype Answer = Accepts | Refuses | Raises

  // The index after the last one in `order`.
  ghost function Reached(order: seq<nat>): nat {
    if order == [] then 0 else order[|order| - 1] + 1
  }

  ghost predicate Steps(order: seq<nat>) {
    && (order != [] ==> order[0] == 0)
    && (forall i :: 0 < i < |order| ==> order[i] == order[i - 1] || order[i] == order[i - 1] + 1)
  }

  // Frames are written in the order they were queued; a frame is written again only while it is
  // the head of the queue. The queue is what is left of the frames sent.
  ghost predicate Log(sent: seq<Bytes>, queue: seq<Bytes>, written: seq<Bytes>, order: seq<nat>, refused: nat) {
    && |queue| <= |sent|
    && queue == sent[|sent| - |queue|..]
    && |order| == |written|
    && (forall i :: 0 <= i < |order| ==> order[i] < |sent| && written[i] == sent[order[i]])
    && Steps(order)
    && |sent| - |queue| <= Reached(order) <= |sent| - |queue| + 1
    && |written| + |queue| == |sent| + refused
  }

  lemma LogWrite(sent: seq<Bytes>, queue: seq<Bytes>, written: seq<Bytes>, order: seq<nat>, refused: nat)
    requires Log(sent, queue, written, order, refused) && queue != []
    ensures var index: nat := |sent| - |queue|;
            && Log(sent, queue, written + [queue[0]], order + [index], refused + 1)
            && Log(sent, queue[1..], written + [queue[0]], order + [index], refused)
  {
    assert queue[0] == sent[|sent| - |queue|];
  }

  lemma LogSend(sent: seq<Bytes>, queue: seq<Bytes>, written: seq<Bytes>, order: seq<nat>, refused: nat, frame: Bytes)
    requires Log(sent, queue, written, order, refused)
    ensures Log(sent + [frame], queue + [frame], written, order, refused)
  {
  }

  class IPCSocketTransport<M> {
    const protocol: Protocol<M>
    const stringify: M -> Bytes

    var buffer: Bytes
    var closed: bool
    var failed: bool
    var delivered: seq<M>

    var writeQueue: seq<Bytes>
    var flushing: bool
    // Frames handed to the output stream, in order.
    var written: seq<Bytes>

    // Frames queued so far; the index in `sent` of each write; how often the stream refused.
    ghost var sent: seq<Bytes>
    ghost var order: seq<nat>
    ghost var refused: nat

    ghost predicate Queued()
      reads this
    {
      && Log(sent, writeQueue, written, order, refused)
      && (flushing ==> writeQueue != [] && refused > 0)
    }

    // Between calls an idle open transport has nothing queued.
    ghost predicate Valid()
      reads this
    {
      Queued() && (flushing || closed || writeQueue == [])
    }

    ghost function State(): Receiver<M>
      reads this
    {
      Receiver(buffer, closed, failed, delivered)
    }

    constructor (protocol: Protocol<M>, stringify: M -> Bytes)
      ensures Valid() && State() == Receiver([], false, false, []) && sent == [] && refused == 0
      ensures this.protocol == protocol && this.stringify == stringify
    {
      this.protocol, this.stringify := protocol, stringify;
      buffer, closed, failed, delivered := [], false, false, [];
      writeQueue, flushing, written, sent, order, refused := [], false, [], [], [], 0;
    }

    method Close()
      modifies `closed
      ensures closed
    {
      if closed {
        return;
      }
      closed := true;
    }

    method FailChannel()
      modifies `closed, `failed
      ensures State() == Fail(old(State()))
    {
      if closed {
        return;
      }
      closed, failed := true, true;
    }

    // `dispatchFrame` and what the loop of `onData` makes of it.
    method DispatchFrame(payload: Bytes) returns (goOn: bool)
      modifies `closed, `failed, `delivered
      ensures Drained(State(), goOn) == Dispatch(protocol, old(State()), payload, buffer)
    {
      var message := protocol.parse(payload);
      if message.None? {
        FailChannel();
        return false;
      }
      delivered := delivered + [message.value];
      match protocol.react(message.value) {
        case Goes => goOn := true;
        case Closes =>
          Close();
          goOn := true;
        case Throws =>
          FailChannel();
          goOn := false;
      }
    }

    method OnData(chunk: Bytes)
      modifies `buffer, `closed, `failed, `delivered
      ensures State() == IpcFraming.OnData(protocol, old(State()), chunk)
    {
      if closed {
        return;
      }
      buffer := buffer + chunk;
      ghost var start := State();
      while true
        invariant Drain(protocol, State()) == Drain(protocol, start)
        decreases |buffer|
      {
        ghost var before := State();
        var d := TryDecodeFrame(protocol.maxFrameBytes, buffer);
        match d {
          case Incomplete => return;
          case TooLarge =>
            FailChannel();
            return;
          case Whole(payload, rest) =>
            buffer := rest;
            var goOn := DispatchFrame(payload);
            assert Drained(State(), goOn) == Dispatch(protocol, before, payload, rest);
            if !goOn {
              return;
            }
        }
      }
    }

    method Write(frame: Bytes) returns (answer: Answer)
      modifies `written
      ensures answer.Raises? ==> written == old(written)
      ensures !answer.Raises? ==> written == old(written) + [frame]
    {
      if * {
        return Raises;
      }
      written := written + [frame];
      if * {
        return Refuses;
      }
      return Accepts;
    }

    // A refused frame stays at the head of the queue and is written again after `drain`.
    method WriteHead() returns (goOn: bool)
      requires Queued() && !flushing && !closed && writeQueue != []
      modifies `closed, `failed, `writeQueue, `flushing, `written, `order, `refused
      ensures Queued()
      ensures goOn ==> !flushing && !closed && |writeQueue| < |old(writeQueue)|
      ensures !goOn ==> (flushing || closed) && writeQueue == old(writeQueue)
      ensures if closed then failed && !flushing else failed == old(failed)
      ensures flushing ==> refused == old(refused) + 1
    {
      hide Log;
      LogWrite(sent, writeQueue, written, order, refused);
      var frame := writeQueue[0];
      var answer := Write(frame);
      if answer.Raises? {
        FailChannel();
        return false;
      }
      order := order + [|sent| - |writeQueue|];
      if answer.Refuses? {
        flushing, refused := true, refused + 1;
        return false;
      }
      writeQueue := writeQueue[1..];
      return true;
    }

    method FlushWrites()
      requires Queued()
      modifies `closed, `failed, `writeQueue, `flushing, `written, `order, `refused
      ensures Valid()
      ensures old(flushing) || old(closed) ==> unchanged(this)
      ensures if closed && !old(closed) then failed else failed == old(failed) && closed == old(closed)
    {
      if flushing || closed {
        return;
      }
      hide Log;
      var goOn := true;
      while goOn && writeQueue != []
        invariant Queued()
        invariant if goOn then !flushing && !closed else flushing || closed
        invariant if closed then failed else failed == old(failed)
        decreases |writeQueue|, goOn
      {
        goOn := WriteHead();
      }
    }

    // `send`
    method Send(message: M) returns (result: SendResult)
      requires Valid()
      modifies `closed, `failed, `writeQueue, `flushing, `written, `sent, `order, `refused
      ensures Valid()
      ensures result.ChannelClosed? <==> old(closed)
      ensures result.FrameTooLarge? <==> !old(closed) && |stringify(message)| > protocol.maxFrameBytes
      ensures result.Sent? <==> !old(closed) && Sendable(protocol.maxFrameBytes, stringify(message))
      ensures sent == if Sendable(protocol.maxFrameBytes, stringify(message)) && !old(closed)
                      then old(sent) + [Frame(stringify(message))] else old(sent)
      ensures !result.Sent? ==> unchanged(this)
      ensures if closed && !old(closed) then failed else failed == old(failed) && closed == old(closed)
    {
      if closed {
        return ChannelClosed;
      }
      var payload := stringify(message);
      if |payload| > protocol.maxFrameBytes {
        return FrameTooLarge;
      }
      if |payload| >= MAX_UINT32 {
        return LengthOverflow;
      }
      LogSend(sent, writeQueue, written, order, refused, Frame(payload));
      hide Log;
      writeQueue := writeQueue + [Frame(payload)];
      sent := sent + [Frame(payload)];
      assert Queued();
      FlushWrites();
      return Sent;
    }

    // The `drain` listener.
    method OnDrain()
      requires Valid() && flushing
      modifies `closed, `failed, `writeQueue, `flushing, `written, `order, `refused
      ensures Valid()
      ensures if closed && !old(closed) then failed else failed == old(failed) && closed == old(closed)
    {
      flushing := false;
      FlushWrites();
    }

    // Every frame taken off the queue has been written, and each frame exactly once, precisely
    // as long as the stream has refused no write.
    lemma WrittenOnceIff()
      requires Valid()
      ensures written + writeQueue == sent <==> refused == 0
    {
      StepsAreSlow(order, |order|);
      if refused == 0 {
        var base := |sent| - |writeQueue|;
        assert |order| == base;
        forall i | 0 <= i < |order|
          ensures order[i] == i
        {
          StepsAreFull(order, i, base);
        }
        assert written == sent[..base];
      }
    }
  }

  lemma {:induction false} StepsAreSlow(order: seq<nat>, n: nat)
    requires Steps(order) && n <= |order|
    ensures forall i :: 0 <= i < n ==> order[i] <= i
  {
    if n > 0 {
      StepsAreSlow(order, n - 1);
      assert n > 1 ==> order[n - 1] <= order[n - 2] + 1;
    }
  }

  // Steps that get as far as their number never stand still.
  lemma {:induction false} StepsAreFull(order: seq<nat>, i: nat, last: nat)
    requires Steps(order) && i < |order| == last && order[last - 1] + 1 >= last
    ensures order[i] >= i
    decreases last - i
  {
    if i + 1 < last {
      StepsAreFull(order, i + 1, last);
    }
    StepsAreSlow(order, last);
  }
}
