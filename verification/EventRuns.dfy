/** Runs of the hub that show where the order of delivery stops being guaranteed. */
module EventRuns {
  import opened Text
  import opened EventTopics
  import opened EventHub
  import opened EventAdapter
  import opened EventDelivery

  const SOME_KEY := Key("me", "s")
  const SOME_SUB := Subscription(SOME_KEY, "t", 1_000, 1_000)
  const SOME_EVENT := Emission("t", "x", 0, {"t"})
  const SOME_TURN := Turn(SOME_SUB, 0, 0)

  function SomePacket(n: nat, epoch: nat): Packet {
    Packet(SOME_KEY, "hub", "t", "x", n, 0, "t", epoch, 0, 0)
  }

  function Subscribing(h: HubState): HubState { Register(h, SOME_KEY, "t", Some(1_000), true, 0).0 }

  function Sending(h: HubState): HubState { Send(h, "hub", SOME_TURN, 0, SOME_EVENT) }

  // A hub whose only subscription, if any, is this one.
  ghost predicate At(h: HubState, subscribed: bool, n: nat, epoch: nat) {
    && h.subscriptions == (if subscribed then map[SOME_KEY := SOME_SUB] else map[])
    && Sequence(h, SOME_KEY) == n && Epoch(h, SOME_KEY) == epoch
  }

  lemma SubscribingAt(h: HubState, n: nat, epoch: nat)
    requires At(h, false, n, epoch)
    ensures At(Subscribing(h), true, n, epoch) && Subscribing(h).sent == h.sent
  {
    assert OfPeer(h, "me") == {} && OfTopic(h, "t") == {};
  }

  lemma SendingAt(h: HubState, n: nat, epoch: nat)
    requires At(h, true, n, epoch)
    ensures At(Sending(h), true, n + 1, epoch) && Sending(h).sent == h.sent + [SomePacket(n + 1, epoch)]
  {
  }

  lemma UnsubscribingAt(h: HubState, n: nat, epoch: nat)
    requires At(h, true, n, epoch)
    ensures At(Unsubscribe(h, SOME_KEY).0, false, 0, epoch + 1) && Unsubscribe(h, SOME_KEY).0.sent == h.sent
  {
  }

  // Three frames, an unsubscription, a new subscription under the same id, two more frames: the
  // numbers start over, and a network that reorders frames can have the second frame of the new
  // epoch delivered before the third of the old one.
  lemma EpochsInterleave(w: World)
    requires w.hubId == "hub" && w.myId == "me"
    ensures var first := Sending(Sending(Sending(Subscribing(EMPTY_HUB))));
            var h := Sending(Sending(Subscribing(Unsubscribe(first, SOME_KEY).0)));
            h.sent == [SomePacket(1, 0), SomePacket(2, 0), SomePacket(3, 0), SomePacket(1, 1), SomePacket(2, 1)]
    ensures var a0 := Subscribed(AdapterState(map[], {}, []), "s", "hub", "t");
            var a1 := Inbound(a0, Arriving(w, SomePacket(1, 0)), true);
            var a2 := Inbound(a1, Arriving(w, SomePacket(2, 1)), true);
            var a3 := Inbound(a2, Arriving(w, SomePacket(3, 0)), true);
            a3.delivered == [EventOf(Arriving(w, SomePacket(1, 0))), EventOf(Arriving(w, SomePacket(2, 1))),
                             EventOf(Arriving(w, SomePacket(3, 0)))]
  {
    var h0 := EMPTY_HUB;
    assert At(h0, false, 0, 0);
    hide Subscribing, Sending, Unsubscribe, At;
    SubscribingAt(h0, 0, 0);
    var h1 := Subscribing(h0);
    SendingAt(h1, 0, 0);
    SendingAt(Sending(h1), 1, 0);
    SendingAt(Sending(Sending(h1)), 2, 0);
    var h4 := Sending(Sending(Sending(h1)));
    UnsubscribingAt(h4, 3, 0);
    var h5 := Unsubscribe(h4, SOME_KEY).0;
    SubscribingAt(h5, 0, 1);
    SendingAt(Subscribing(h5), 0, 1);
    SendingAt(Sending(Subscribing(h5)), 1, 1);
  }

  // ----- Overlapping fan-outs -----

  // What matters of a world with this one subscription, if it is live.
  datatype Scene = Scene(
    live: bool, place: nat, next: nat, number: nat, epoch: nat, sent: seq<Packet>, fanouts: seq<Fanout>)

  ghost predicate Shows(w: World, d: Scene) {
    && w.hubId == "hub" && w.myId == "me" && w.exposed == {"t"}
    && w.hub.subscriptions == (if d.live then map[SOME_KEY := SOME_SUB] else map[])
    && w.hub.places == (if d.live then map[SOME_KEY := d.place] else map[])
    && w.hub.nextPlace == d.next && Sequence(w.hub, SOME_KEY) == d.number && Epoch(w.hub, SOME_KEY) == d.epoch
    && w.hub.sent == d.sent && w.fanouts == d.fanouts && |w.emissions| == |d.fanouts|
    && forall id :: 0 <= id < |w.emissions| ==> w.emissions[id] == SOME_EVENT
  }

  function Turned(d: Scene, id: nat): Scene
    requires id < |d.fanouts|
  {
    var t := Turn(SOME_SUB, d.epoch, d.place);
    d.(fanouts := d.fanouts[id := d.fanouts[id].(cursor := d.place + 1, waiting := Some(t))])
  }

  function Finished(d: Scene, id: nat): Scene
    requires id < |d.fanouts| && d.fanouts[id].waiting.Some?
  {
    var t := d.fanouts[id].waiting.value;
    d.(number := d.number + 1,
       sent := d.sent + [Packet(SOME_KEY, "hub", "t", "x", d.number + 1, id, "t", d.epoch, t.epoch, t.place)],
       fanouts := d.fanouts[id := d.fanouts[id].(waiting := None)])
  }

  function Started(d: Scene): Scene {
    d.(fanouts := d.fanouts + [Fanout(|d.sent|, Going(d.fanouts), 0, None, false)])
  }

  lemma OneMore(w: World, actions: seq<Action>, a: Action, u: World, v: World)
    requires EventDelivery.Run(w, actions) == Some(u) && Do(u, a) == Some(v)
    ensures EventDelivery.Run(w, actions + [a]) == Some(v)
  {
    assert (actions + [a])[..|actions|] == actions;
  }

  lemma Registers(w: World, d: Scene) returns (v: World)
    requires Shows(w, d) && !d.live
    ensures Do(w, HubSubscribe(SOME_KEY, "t", Some(1_000), true, 0)) == Some(v)
    ensures Shows(v, d.(live := true, place := d.next, next := d.next + 1))
  {
    assert OfPeer(w.hub, "me") == {} && OfTopic(w.hub, "t") == {};
    v := Do(w, HubSubscribe(SOME_KEY, "t", Some(1_000), true, 0)).value;
  }

  lemma Leaves(w: World, d: Scene) returns (v: World)
    requires Shows(w, d) && d.live
    ensures Do(w, HubUnsubscribe(SOME_KEY)) == Some(v)
    ensures Shows(v, d.(live := false, number := 0, epoch := d.epoch + 1))
  {
    v := Do(w, HubUnsubscribe(SOME_KEY)).value;
  }

  lemma Starts(w: World, d: Scene) returns (v: World)
    requires Shows(w, d)
    ensures Do(w, EmitStart("t", "x", 0)) == Some(v) && Shows(v, Started(d))
  {
    assert Expired(w.hub, 0) == {};
    assert Exposes(w.exposed, "t");
    hide Exposes;
    v := Do(w, EmitStart("t", "x", 0)).value;
    SameHub(w.hub);
  }

  lemma SameHub(h: HubState)
    requires Expired(h, 0) == {}
    ensures var d := Sweep(h, 0);
            && d.subscriptions == h.subscriptions && d.places == h.places && d.nextPlace == h.nextPlace
            && d.sequences == h.sequences && d.epochs == h.epochs && d.sent == h.sent
  {
  }

  lemma Turns(w: World, d: Scene, id: nat) returns (v: World)
    requires Shows(w, d) && d.live && id < |d.fanouts|
    requires d.fanouts[id].waiting.None? && !d.fanouts[id].ended && d.fanouts[id].cursor <= d.place
    ensures Do(w, EmitTurn(id, SOME_KEY)) == Some(v) && Shows(v, Turned(d, id))
  {
    assert Considers(SOME_EVENT, SOME_SUB);
    hide Considers;
    assert w.emissions[id] == SOME_EVENT;
    v := Do(w, EmitTurn(id, SOME_KEY)).value;
  }

  lemma Finishes(w: World, d: Scene, id: nat) returns (v: World)
    requires Shows(w, d) && id < |d.fanouts| && d.fanouts[id].waiting.Some? && d.fanouts[id].waiting.value.s == SOME_SUB
    ensures Do(w, EmitFinish(id, true)) == Some(v) && Shows(v, Finished(d, id))
  {
    assert w.emissions[id] == SOME_EVENT;
    v := Do(w, EmitFinish(id, true)).value;
  }

  const NO_SCENE := Scene(false, 0, 0, 0, 0, [], [])

  lemma NothingShown(w: World)
    requires Initial(w) && w.hubId == "hub" && w.myId == "me" && w.exposed == {"t"}
    ensures Shows(w, NO_SCENE) && EventDelivery.Run(w, []) == Some(w)
  {
  }

  // Both frames of the hub arrive in the order in which they were sent, and are handled.
  ghost predicate HandledBoth(v: World) {
    |v.hub.sent| == 2 &&
    var a0 := Subscribed(AdapterState(map[], {}, []), "s", "hub", "t");
    var a1 := Inbound(a0, Arriving(v, v.hub.sent[0]), true);
    var a2 := Inbound(a1, Arriving(v, v.hub.sent[1]), true);
    a2.delivered == [EventOf(Arriving(v, v.hub.sent[0])), EventOf(Arriving(v, v.hub.sent[1]))]
  }

  lemma BothHandled(v: World, d: Scene)
    requires Shows(v, d) && |d.sent| == 2
    requires forall i :: 0 <= i < 2 ==>
               && d.sent[i].key == SOME_KEY && d.sent[i].publisher == "hub" && d.sent[i].topic == "t"
               && d.sent[i].sequenceNumber == i + 1
    ensures HandledBoth(v)
  {
  }

  // Two calls of `emitLocal` overlap, and the guards of the later one answer first: the frame of
  // the later emission is sent, and handled, before that of the earlier one.
  lemma EmissionsOvertake(w: World) returns (actions: seq<Action>, v: World)
    requires Initial(w) && w.hubId == "hub" && w.myId == "me" && w.exposed == {"t"}
    ensures EventDelivery.Run(w, actions) == Some(v) && HandledBoth(v)
    ensures var p, q := v.hub.sent[0], v.hub.sent[1];
            && p.key == q.key && p.epoch == q.epoch == p.considered == q.considered
            && p.emission == 1 && q.emission == 0 && |v.fanouts| == 2 && 0 in v.fanouts[1].running
  {
    NothingShown(w);
    var d1 := NO_SCENE.(live := true, next := 1);
    var d3 := Turned(Started(d1), 0);
    var d5 := Turned(Started(d3), 1);
    var d6 := Finished(d5, 1);
    var d7 := Finished(d6, 0);
    assert d7.sent == [Packet(SOME_KEY, "hub", "t", "x", 1, 1, "t", 0, 0, 0), Packet(SOME_KEY, "hub", "t", "x", 2, 0, "t", 0, 0, 0)];
    assert 0 in d7.fanouts[1].running;
    hide EventDelivery.Run, Do, Shows, Initial, HandledBoth;
    var w1 := Registers(w, NO_SCENE);
    OneMore(w, [], HubSubscribe(SOME_KEY, "t", Some(1_000), true, 0), w, w1);
    actions := [] + [HubSubscribe(SOME_KEY, "t", Some(1_000), true, 0)];
    actions, v := EmitAndWait(w, actions, w1, d1);
    actions, v := EmitAndWait(w, actions, v, d3);
    actions, v := Answer(w, actions, v, d5, 1);
    actions, v := Answer(w, actions, v, d6, 0);
    BothHandled(v, d7);
    Shown(v, d7);
  }

  lemma Shown(w: World, d: Scene)
    requires Shows(w, d)
    ensures w.hub.sent == d.sent && w.fanouts == d.fanouts
  {
  }

  // A further emission begins and comes to wait for the guards.
  lemma EmitAndWait(w: World, before: seq<Action>, u: World, d: Scene) returns (actions: seq<Action>, v: World)
    requires EventDelivery.Run(w, before) == Some(u) && Shows(u, d) && d.live
    ensures EventDelivery.Run(w, actions) == Some(v) && Shows(v, Turned(Started(d), |d.fanouts|))
  {
    hide EventDelivery.Run, Do, Shows;
    var u1 := Starts(u, d);
    OneMore(w, before, EmitStart("t", "x", 0), u, u1);
    v := Turns(u1, Started(d), |d.fanouts|);
    actions := before + [EmitStart("t", "x", 0)];
    OneMore(w, actions, EmitTurn(|d.fanouts|, SOME_KEY), u1, v);
    actions := actions + [EmitTurn(|d.fanouts|, SOME_KEY)];
  }

  // The guards answer, and the frame is sent.
  lemma Answer(w: World, before: seq<Action>, u: World, d: Scene, id: nat) returns (actions: seq<Action>, v: World)
    requires EventDelivery.Run(w, before) == Some(u) && Shows(u, d)
    requires id < |d.fanouts| && d.fanouts[id].waiting.Some? && d.fanouts[id].waiting.value.s == SOME_SUB
    ensures EventDelivery.Run(w, actions) == Some(v) && Shows(v, Finished(d, id))
  {
    hide EventDelivery.Run, Do, Shows;
    v := Finishes(u, d, id);
    OneMore(w, before, EmitFinish(id, true), u, v);
    actions := before + [EmitFinish(id, true)];
  }

  function OneWaiting(): Scene { Turned(Started(NO_SCENE.(live := true, next := 1)), 0) }

  function Rejoined(): Scene {
    Finished(OneWaiting().(live := false, number := 0, epoch := 1), 0).(live := true, place := 1, next := 2)
  }

  lemma WaitsForGuards(w: World) returns (actions: seq<Action>, v: World)
    requires Initial(w) && w.hubId == "hub" && w.myId == "me" && w.exposed == {"t"}
    ensures EventDelivery.Run(w, actions) == Some(v) && Shows(v, OneWaiting())
  {
    NothingShown(w);
    hide EventDelivery.Run, Do, Shows, Initial;
    var w1 := Registers(w, NO_SCENE);
    OneMore(w, [], HubSubscribe(SOME_KEY, "t", Some(1_000), true, 0), w, w1);
    actions := [] + [HubSubscribe(SOME_KEY, "t", Some(1_000), true, 0)];
    actions, v := EmitAndWait(w, actions, w1, NO_SCENE.(live := true, next := 1));
  }

  lemma LeavesAndRejoins(w: World, before: seq<Action>, u: World) returns (actions: seq<Action>, v: World)
    requires EventDelivery.Run(w, before) == Some(u) && Shows(u, OneWaiting())
    ensures EventDelivery.Run(w, actions) == Some(v) && Shows(v, Rejoined())
  {
    hide EventDelivery.Run, Do, Shows, Initial;
    var d := OneWaiting();
    var u1 := Leaves(u, d);
    OneMore(w, before, HubUnsubscribe(SOME_KEY), u, u1);
    actions := before + [HubUnsubscribe(SOME_KEY)];
    d := d.(live := false, number := 0, epoch := 1);
    actions, u1 := Answer(w, actions, u1, d, 0);
    v := Registers(u1, Finished(d, 0));
    OneMore(w, actions, HubSubscribe(SOME_KEY, "t", Some(1_000), true, 0), u1, v);
    actions := actions + [HubSubscribe(SOME_KEY, "t", Some(1_000), true, 0)];
  }

  lemma SecondTurn(w: World, before: seq<Action>, u: World) returns (actions: seq<Action>, v: World)
    requires EventDelivery.Run(w, before) == Some(u) && Shows(u, Rejoined())
    ensures EventDelivery.Run(w, actions) == Some(v) && Shows(v, Finished(Turned(Rejoined(), 0), 0))
  {
    hide EventDelivery.Run, Do, Shows, Initial;
    var u1 := Turns(u, Rejoined(), 0);
    OneMore(w, before, EmitTurn(0, SOME_KEY), u, u1);
    actions, v := Answer(w, before + [EmitTurn(0, SOME_KEY)], u1, Turned(Rejoined(), 0), 0);
  }

  // A subscriber leaves and comes back while its guards are awaited: the loop finds it again at
  // its new place, and one emission reaches it twice, in one epoch.
  lemma OneEmissionTwice(w: World) returns (actions: seq<Action>, v: World)
    requires Initial(w) && w.hubId == "hub" && w.myId == "me" && w.exposed == {"t"}
    ensures EventDelivery.Run(w, actions) == Some(v) && HandledBoth(v)
    ensures var p, q := v.hub.sent[0], v.hub.sent[1];
            p.key == q.key && p.epoch == q.epoch == q.considered && p.considered < p.epoch && p.emission == q.emission
  {
    var d := Finished(Turned(Rejoined(), 0), 0);
    assert d.sent == [Packet(SOME_KEY, "hub", "t", "x", 1, 0, "t", 1, 0, 0), Packet(SOME_KEY, "hub", "t", "x", 2, 0, "t", 1, 1, 1)];
    hide EventDelivery.Run, Do, Shows, Initial, HandledBoth, Rejoined, Turned, Finished;
    actions, v := WaitsForGuards(w);
    actions, v := LeavesAndRejoins(w, actions, v);
    actions, v := SecondTurn(w, actions, v);
    BothHandled(v, d);
    Shown(v, d);
  }
}
