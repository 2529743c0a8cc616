/**
  A hub and a subscriber over a network that loses, duplicates and reorders frames, but does not
  forge them: what the subscriber's handlers see.
 */
module EventDelivery {
  import opened Text
  import opened EventTopics
  import opened EventHub
  import opened EventAdapter

  // The loop of one call of `emitLocal`: how many frames had been sent and which fan-outs were
  // going when it began, where its traversal has come to, the turn it is in, whether it is over.
  datatype Fanout = Fanout(first: nat, running: set<nat>, cursor: nat, waiting: Option<Turn>, ended: bool)

  // The beginning of a turn: for which subscription, in which of its epochs, at which place.
  datatype Began = Began(key: Key, epoch: nat, place: nat)

  // `hubId` and `myId` are the verified identities of the two nodes; `source` tells for every
  // delivered event which frame of the hub it came from, if any; `turns` are all turns so far, and
  // `moments` tells for every frame where the fan-outs stood when it was sent.
  datatype World = World(
    hubId: string, myId: string, exposed: set<string>, hub: HubState, emissions: seq<Emission>,
    fanouts: seq<Fanout>, turns: set<Began>, moments: seq<seq<Fanout>>, me: AdapterState, source: seq<Option<nat>>)

  // One stretch of code between two awaits, or one frame handed over by the network.
  datatype Action =
    | Expose(events: set<string>)
    | HubSweep(now: int)
    | HubSubscribe(key: Key, topic: string, ttlMs: Option<int>, resolvable: bool, now: int)
    | HubUnsubscribe(key: Key)
    | HubClose
    | EmitStart(topic: string, payload: string, now: int)
    | EmitTurn(emission: nat, key: Key)
    | EmitFinish(emission: nat, sends: bool)
    | EmitEnd(emission: nat)
    | Subscribe(id: string, peerId: string, topic: string)
    | Teardown(id: string)
    | Deliver(frame: nat, admitted: bool)
    | FromElsewhere(message: Message, admitted: bool)

  // A hub's frame as it arrives.
  function Arriving(w: World, p: Packet): Message {
    Message(w.hubId, p.publisher, p.key.subscriptionId, p.topic, p.sequenceNumber, p.payload)
  }

  function Received(w: World, m: Message, admitted: bool, from: Option<nat>): World {
    var next := Inbound(w.me, m, admitted);
    w.(me := next, source := if |next.delivered| > |w.me.delivered| then w.source + [from] else w.source)
  }

  predicate Waits(w: World, id: nat) {
    id < |w.emissions| && id < |w.fanouts| && w.fanouts[id].waiting.Some?
  }

  // Between two turns.
  predicate Loops(w: World, id: nat) {
    id < |w.emissions| && id < |w.fanouts| && w.fanouts[id].waiting.None? && !w.fanouts[id].ended
  }

  function Going(fanouts: seq<Fanout>): set<nat> {
    set id: nat | id < |fanouts| && !fanouts[id].ended
  }

  // One step; `None` when it is not enabled.
  function Do(w: World, a: Action): Option<World> {
    match a
    case Expose(events) => Some(w.(exposed := events))
    case HubSweep(now) => Some(w.(hub := Sweep(w.hub, now)))
    case HubSubscribe(key, topic, ttlMs, resolvable, now) =>
      Some(w.(hub := Register(w.hub, key, topic, ttlMs, resolvable, now).0))
    case HubUnsubscribe(key) => Some(w.(hub := Unsubscribe(w.hub, key).0))
    case HubClose => Some(w.(hub := Drop(w.hub, w.hub.subscriptions.Keys + w.hub.sequences.Keys)))
    case EmitStart(topic, payload, now) =>
      if Exposes(w.exposed, topic)
      then Some(w.(hub := Sweep(w.hub, now),
                   emissions := w.emissions + [Emission(topic, payload, now, w.exposed)],
                   fanouts := w.fanouts + [Fanout(|w.hub.sent|, Going(w.fanouts), 0, None, false)]))
      else None
    case EmitTurn(id, key) =>
      if Loops(w, id) && IsNext(w.hub, w.emissions[id], w.fanouts[id].cursor, key)
      then
        var t := TurnOf(w.hub, key);
        Some(w.(fanouts := w.fanouts[id := w.fanouts[id].(cursor := t.place + 1, waiting := Some(t))],
                turns := w.turns + {Began(key, t.epoch, t.place)}))
      else None
    case EmitFinish(id, sends) =>
      if !Waits(w, id) then None
      else
        var hub := if sends then Send(w.hub, w.hubId, w.fanouts[id].waiting.value, id, w.emissions[id]) else w.hub;
        Some(w.(hub := hub, fanouts := w.fanouts[id := w.fanouts[id].(waiting := None)],
                moments := w.moments + if sends then [w.fanouts] else []))
    case EmitEnd(id) =>
      if Loops(w, id) && forall k :: k in w.hub.subscriptions ==> !Ahead(w.hub, w.emissions[id], w.fanouts[id].cursor, k)
      then Some(w.(fanouts := w.fanouts[id := w.fanouts[id].(ended := true)]))
      else None
    case Subscribe(id, peerId, topic) =>
      if id in w.me.used then None else Some(w.(me := Subscribed(w.me, id, peerId, topic)))
    case Teardown(id) => Some(w.(me := TornDown(w.me, id)))
    case Deliver(n, admitted) =>
      if n < |w.hub.sent| && w.hub.sent[n].key.peerId == w.myId
      then Some(Received(w, Arriving(w, w.hub.sent[n]), admitted, Some(n)))
      else None
    case FromElsewhere(m, admitted) =>
      if m.from == w.hubId then None else Some(Received(w, m, admitted, None))
  }

  function Run(w: World, actions: seq<Action>): Option<World> {
    if actions == [] then Some(w)
    else
      match Run(w, actions[..|actions| - 1])
      case None => None
      case Some(v) => Do(v, actions[|actions| - 1])
  }

  ghost predicate Initial(w: World) {
    && w.hub == EMPTY_HUB
    && w.emissions == [] && w.fanouts == [] && w.turns == {} && w.moments == []
    && w.me == AdapterState(map[], {}, []) && w.source == []
  }

  // ----- What every run keeps -----

  // Every emission was of a topic exposed when it was called, and every turn is for a subscription
  // that is not out of date and matches.
  ghost predicate EmissionsOk(w: World) {
    && (forall i :: 0 <= i < |w.emissions| ==> Exposes(w.emissions[i].exposed, w.emissions[i].topic))
    && |w.fanouts| == |w.emissions|
    && (forall id :: 0 <= id < |w.fanouts| && w.fanouts[id].waiting.Some? ==>
          Considers(w.emissions[id], w.fanouts[id].waiting.value.s))
  }

  // Every frame carries an emission, for a subscription whose topic it matches.
  ghost predicate FrameOk(w: World, p: Packet) {
    && p.emission < |w.emissions|
    && p.topic == w.emissions[p.emission].topic
    && p.payload == w.emissions[p.emission].payload
    && p.publisher == w.hubId
    && TopicMatches(p.subscribed, p.topic)
  }

  ghost predicate FramesOk(w: World) {
    forall n :: 0 <= n < |w.hub.sent| ==> FrameOk(w, w.hub.sent[n])
  }

  // Every event delivered for the hub came from a frame of the hub to us.
  ghost predicate EventFrom(w: World, e: Event, from: Option<nat>) {
    e.peerId == w.hubId ==>
      && from.Some? && from.value < |w.hub.sent|
      && w.hub.sent[from.value].key == Key(w.myId, e.subscriptionId)
      && e == EventOf(Arriving(w, w.hub.sent[from.value]))
  }

  ghost predicate EventsOk(w: World) {
    && |w.source| == |w.me.delivered|
    && forall i :: 0 <= i < |w.source| ==> EventFrom(w, w.me.delivered[i], w.source[i])
  }

  // A turn belongs to the place its subscription had throughout that epoch.
  ghost predicate TurnsOk(h: HubState, turns: set<Began>) {
    && (forall t :: t in turns ==>
          && t.epoch <= Epoch(h, t.key)
          && (t.epoch == Epoch(h, t.key) ==> t.key in h.places && h.places[t.key] == t.place))
    && (forall t, u :: t in turns && u in turns && t.key == u.key && t.epoch == u.epoch ==> t.place == u.place)
  }

  // Every frame, and every turn that waits, began as recorded.
  ghost predicate Recorded(sent: seq<Packet>, fanouts: seq<Fanout>, turns: set<Began>) {
    && (forall n :: 0 <= n < |sent| ==>
          sent[n].emission < |fanouts| && Began(sent[n].key, sent[n].considered, sent[n].place) in turns)
    && (forall id :: 0 <= id < |fanouts| && fanouts[id].waiting.Some? ==>
          var t := fanouts[id].waiting.value;
          Began(t.s.key, t.epoch, t.place) in turns)
  }

  // The turns of one fan-out come at increasing places.
  ghost predicate PlacesRise(sent: seq<Packet>, fanouts: seq<Fanout>) {
    && (forall n :: 0 <= n < |sent| && sent[n].emission < |fanouts| ==>
          var f := fanouts[sent[n].emission];
          sent[n].place < f.cursor && (f.waiting.Some? ==> sent[n].place < f.waiting.value.place))
    && (forall id :: 0 <= id < |fanouts| && fanouts[id].waiting.Some? ==>
          fanouts[id].waiting.value.place < fanouts[id].cursor)
    && (forall m, n :: 0 <= m < n < |sent| && sent[m].emission == sent[n].emission ==> sent[m].place < sent[n].place)
  }

  // The frames of a fan-out come after it began, and before whatever began when it was over.
  ghost predicate StartsOk(sent: seq<Packet>, fanouts: seq<Fanout>) {
    && (forall id :: 0 <= id < |fanouts| ==> fanouts[id].first <= |sent|)
    && (forall id :: 0 <= id < |fanouts| && fanouts[id].waiting.Some? ==> !fanouts[id].ended)
    && (forall n :: 0 <= n < |sent| && sent[n].emission < |fanouts| ==> fanouts[sent[n].emission].first <= n)
    && (forall i, j :: 0 <= i < j < |fanouts| ==> Apart(sent, fanouts, i, j))
  }

  // The earlier fan-out was going when the later one began, or is over and has sent its frames.
  ghost predicate Apart(sent: seq<Packet>, fanouts: seq<Fanout>, i: nat, j: nat)
    requires i < |fanouts| && j < |fanouts|
  {
    i in fanouts[j].running || (fanouts[i].ended && Precedes(sent, i, fanouts[j].first))
  }

  ghost predicate Precedes(sent: seq<Packet>, emission: nat, first: nat) {
    forall n :: 0 <= n < |sent| && sent[n].emission == emission ==> n < first
  }

  ghost predicate FansOk(sent: seq<Packet>, fanouts: seq<Fanout>, turns: set<Began>) {
    Recorded(sent, fanouts, turns) && PlacesRise(sent, fanouts) && StartsOk(sent, fanouts)
  }

  // The fan-out waits in the turn of this place, or has not come to it.
  predicate Owes(f: Fanout, place: nat) {
    !f.ended && (f.cursor <= place || (f.waiting.Some? && f.waiting.value.place == place))
  }

  // What a fan-out owes later it has owed before.
  ghost predicate Older(f: Fanout, g: Fanout) {
    && (f.ended ==> g.ended) && f.cursor <= g.cursor
    && (g.waiting.Some? && g.waiting != f.waiting ==> f.cursor <= g.waiting.value.place)
  }

  ghost predicate AllOlder(before: seq<Fanout>, after: seq<Fanout>) {
    |before| <= |after| && forall a :: 0 <= a < |before| ==> Older(before[a], after[a])
  }

  // An earlier emission owed its turn when a frame was sent exactly if its own frame came later.
  ghost predicate MomentsOk(sent: seq<Packet>, moments: seq<seq<Fanout>>, fanouts: seq<Fanout>) {
    && |moments| == |sent|
    && (forall m :: 0 <= m < |sent| ==> AllOlder(moments[m], fanouts) && sent[m].emission < |moments[m]|)
    && (forall m, n :: 0 <= m < |sent| && 0 <= n < |sent| && sent[n].emission < sent[m].emission ==>
          (Owes(moments[m][sent[n].emission], sent[n].place) <==> m < n))
  }

  ghost predicate Inv(w: World) {
    && HubOk(w.hub) && EmissionsOk(w) && FramesOk(w) && Delivering(w.me) && EventsOk(w)
    && TurnsOk(w.hub, w.turns) && FansOk(w.hub.sent, w.fanouts, w.turns) && MomentsOk(w.hub.sent, w.moments, w.fanouts)
  }

  lemma StepHub(w: World, a: Action, v: World)
    requires HubOk(w.hub) && Do(w, a) == Some(v)
    ensures HubOk(v.hub)
    ensures w.hub.sent <= v.hub.sent && v.hubId == w.hubId && v.myId == w.myId
  {
    hide HubOk, Register, Sweep, Drop, Inbound;
    SentSteps(w.hub);
    match a
    case HubSweep(now) =>
      SweepIsDrop(w.hub, now);
      DropKeeps(w.hub, Expired(w.hub, now));
    case HubSubscribe(key, topic, ttlMs, resolvable, now) => RegisterKeeps(w.hub, key, topic, ttlMs, resolvable, now);
    case HubUnsubscribe(key) => DropKeeps(w.hub, {key});
    case HubClose => DropKeeps(w.hub, w.hub.subscriptions.Keys + w.hub.sequences.Keys);
    case EmitStart(topic, payload, now) =>
      SweepIsDrop(w.hub, now);
      DropKeeps(w.hub, Expired(w.hub, now));
    case EmitFinish(id, sends) => SendKeeps(w.hub, w.hubId, w.fanouts[id].waiting.value, id, w.emissions[id]);
    case _ =>
  }

  lemma SweepIsDrop(h: HubState, now: int)
    ensures Sweep(h, now) == Drop(h, Expired(h, now))
  {
  }

  lemma SentSteps(h: HubState)
    ensures forall keys :: Drop(h, keys).sent == h.sent
    ensures forall now :: Sweep(h, now).sent == h.sent
    ensures forall key, topic, ttlMs, resolvable, now :: Register(h, key, topic, ttlMs, resolvable, now).0.sent == h.sent
  {
  }

  lemma StepEmissions(w: World, a: Action, v: World)
    requires EmissionsOk(w) && Do(w, a) == Some(v)
    ensures EmissionsOk(v) && w.emissions <= v.emissions
  {
    hide Exposes, Considers, Register, Sweep, Drop, Inbound, Send;
  }

  lemma StepFrames(w: World, a: Action, v: World)
    requires EmissionsOk(w) && FramesOk(w) && w.emissions <= v.emissions && v.hubId == w.hubId && FanStep(w, a, v)
    ensures FramesOk(v)
  {
    hide EmissionsOk, TopicMatches;
    FramesStay(w, v);
    if a.EmitFinish? {
      assert Waits(w, a.emission);
      NewFrame(w, a.emission, v);
    }
  }

  lemma FramesStay(w: World, v: World)
    requires FramesOk(w) && w.emissions <= v.emissions && v.hubId == w.hubId
    ensures forall n :: 0 <= n < |w.hub.sent| ==> FrameOk(v, w.hub.sent[n])
  {
    hide TopicMatches;
  }

  lemma NewFrame(w: World, id: nat, v: World)
    requires EmissionsOk(w) && Waits(w, id) && w.emissions <= v.emissions && v.hubId == w.hubId
    ensures FrameOk(v, NextPacket(w.hub, w.hubId, w.fanouts[id].waiting.value, id, w.emissions[id]))
  {
    hide Exposes, TopicMatches;
    assert Considers(w.emissions[id], w.fanouts[id].waiting.value.s);
  }

  // The steps of the subscriber, and what all others leave alone.
  predicate Inward(a: Action) { a.Subscribe? || a.Teardown? || a.Deliver? || a.FromElsewhere? }

  lemma SubscriberStays(w: World, a: Action, v: World)
    requires Do(w, a) == Some(v) && !Inward(a)
    ensures v.me == w.me && v.source == w.source
  {
    hide Exposes, Considers, Sweep, Drop, Register, Send, IsNext, Ahead, TurnOf, Unsubscribe;
  }

  lemma EventsStay(w: World, v: World)
    requires EventsOk(w) && v.me == w.me && v.source == w.source
    requires w.hub.sent <= v.hub.sent && v.hubId == w.hubId && v.myId == w.myId
    ensures EventsOk(v)
  {
  }

  lemma EventsReceived(w: World, m: Message, admitted: bool, from: Option<nat>)
    requires Delivering(w.me) && EventsOk(w)
    requires EventFrom(w, EventOf(m), from)
    ensures Delivering(Received(w, m, admitted, from).me) && EventsOk(Received(w, m, admitted, from))
  {
    InboundKeeps(w.me, m, admitted);
    hide Delivering, Passes;
  }

  lemma StepEvents(w: World, a: Action, v: World)
    requires HubOk(w.hub) && Delivering(w.me) && EventsOk(w) && Do(w, a) == Some(v)
    ensures Delivering(v.me) && EventsOk(v)
  {
    if Inward(a) {
      InwardEvents(w, a, v);
    } else {
      StepHub(w, a, v);
      SubscriberStays(w, a, v);
      hide Do;
      EventsStay(w, v);
    }
  }

  lemma InwardEvents(w: World, a: Action, v: World)
    requires Delivering(w.me) && EventsOk(w) && Do(w, a) == Some(v) && Inward(a)
    ensures Delivering(v.me) && EventsOk(v)
  {
    hide Delivering, EventsOk, Received;
    match a
    case Subscribe(id, peerId, topic) =>
      SubscribedKeeps(w.me, id, peerId, topic);
      SameEvents(w, v);
    case Teardown(id) =>
      TornDownKeeps(w.me, id);
      SameEvents(w, v);
    case Deliver(n, admitted) => EventsReceived(w, Arriving(w, w.hub.sent[n]), admitted, Some(n));
    case FromElsewhere(m, admitted) => EventsReceived(w, m, admitted, None);
  }

  lemma SameEvents(w: World, v: World)
    requires EventsOk(w) && v.me.delivered == w.me.delivered && v.source == w.source && v.hub == w.hub
    requires v.hubId == w.hubId && v.myId == w.myId
    ensures EventsOk(v)
  {
  }

  lemma DropTurns(h: HubState, keys: set<Key>, turns: set<Began>)
    requires TurnsOk(h, turns)
    ensures TurnsOk(Drop(h, keys), turns)
  {
    var d := Drop(h, keys);
    assert forall k: Key :: Epoch(d, k) == Epoch(h, k) + if k in keys then 1 else 0;
  }

  lemma RegisterTurns(h: HubState, key: Key, topic: string, ttlMs: Option<int>, resolvable: bool, now: int, turns: set<Began>)
    requires PlacesOk(h) && TurnsOk(h, turns)
    ensures TurnsOk(Register(h, key, topic, ttlMs, resolvable, now).0, turns)
  {
    var r := Register(h, key, topic, ttlMs, resolvable, now).0;
    assert forall k: Key :: Epoch(r, k) == Epoch(h, k);
    assert forall k :: k in h.places ==> k in r.places && r.places[k] == h.places[k];
  }

  lemma SendTurns(h: HubState, self: string, t: Turn, id: nat, e: Emission, turns: set<Began>)
    requires TurnsOk(h, turns)
    ensures TurnsOk(Send(h, self, t, id, e), turns)
  {
    assert forall k: Key :: Epoch(Send(h, self, t, id, e), k) == Epoch(h, k);
  }

  lemma TurnBegins(h: HubState, key: Key, turns: set<Began>)
    requires TurnsOk(h, turns) && key in h.places
    ensures TurnsOk(h, turns + {Began(key, Epoch(h, key), h.places[key])})
  {
  }

  lemma StepTurns(w: World, a: Action, v: World)
    requires HubOk(w.hub) && TurnsOk(w.hub, w.turns) && Do(w, a) == Some(v)
    ensures TurnsOk(v.hub, v.turns)
  {
    hide SequencesOk, CapsOk, PlacesOk, EpochsRise, TurnsOk, Register, Sweep, Drop, Send, Inbound, Exposes, Considers;
    match a
    case HubSweep(now) =>
      SweepIsDrop(w.hub, now);
      DropTurns(w.hub, Expired(w.hub, now), w.turns);
    case HubSubscribe(key, topic, ttlMs, resolvable, now) =>
      RegisterTurns(w.hub, key, topic, ttlMs, resolvable, now, w.turns);
    case HubUnsubscribe(key) => DropTurns(w.hub, {key}, w.turns);
    case HubClose => DropTurns(w.hub, w.hub.subscriptions.Keys + w.hub.sequences.Keys, w.turns);
    case EmitStart(topic, payload, now) =>
      SweepIsDrop(w.hub, now);
      DropTurns(w.hub, Expired(w.hub, now), w.turns);
    case EmitTurn(id, key) => TurnBegins(w.hub, key, w.turns);
    case EmitFinish(id, sends) =>
      if sends {
        SendTurns(w.hub, w.hubId, w.fanouts[id].waiting.value, id, w.emissions[id], w.turns);
      }
    case _ =>
  }

  // What a step does to the fan-outs, the turns and the frames.
  ghost predicate FanStep(w: World, a: Action, v: World) {
    match a
    case EmitStart(_, _, _) =>
      && v.fanouts == w.fanouts + [Fanout(|w.hub.sent|, Going(w.fanouts), 0, None, false)]
      && v.turns == w.turns && v.hub.sent == w.hub.sent && v.moments == w.moments
    case EmitTurn(id, key) =>
      && Loops(w, id) && key in w.hub.subscriptions && key in w.hub.places && w.hub.places[key] >= w.fanouts[id].cursor
      && var t := TurnOf(w.hub, key);
         && v.fanouts == w.fanouts[id := w.fanouts[id].(cursor := t.place + 1, waiting := Some(t))]
         && v.turns == w.turns + {Began(key, t.epoch, t.place)} && v.hub.sent == w.hub.sent && v.moments == w.moments
    case EmitFinish(id, sends) =>
      && Waits(w, id)
      && v.fanouts == w.fanouts[id := w.fanouts[id].(waiting := None)] && v.turns == w.turns
      && v.moments == w.moments + (if sends then [w.fanouts] else [])
      && var t := w.fanouts[id].waiting.value;
         v.hub.sent == w.hub.sent + if sends then [NextPacket(w.hub, w.hubId, t, id, w.emissions[id])] else []
    case EmitEnd(id) =>
      && Loops(w, id) && v.fanouts == w.fanouts[id := w.fanouts[id].(ended := true)]
      && v.turns == w.turns && v.hub.sent == w.hub.sent && v.moments == w.moments
    case _ => v.fanouts == w.fanouts && v.turns == w.turns && v.hub.sent == w.hub.sent && v.moments == w.moments
  }

  lemma FanStepHolds(w: World, a: Action, v: World)
    requires Do(w, a) == Some(v)
    ensures FanStep(w, a, v)
  {
    SentSteps(w.hub);
    hide Exposes, Considers, Sweep, Drop, Register, NextPacket, TurnOf, Inbound;
    assert w.hub.sent + [] == w.hub.sent && w.moments + [] == w.moments;
  }

  lemma FanStarts(sent: seq<Packet>, fanouts: seq<Fanout>, turns: set<Began>)
    requires FansOk(sent, fanouts, turns)
    ensures FansOk(sent, fanouts + [Fanout(|sent|, Going(fanouts), 0, None, false)], turns)
  {
    var longer := fanouts + [Fanout(|sent|, Going(fanouts), 0, None, false)];
    assert Recorded(sent, longer, turns) && PlacesRise(sent, longer);
    EmissionsKnown(sent, fanouts, turns);
    hide Recorded, PlacesRise;
    StartsAdded(sent, fanouts);
  }

  lemma EmissionsKnown(sent: seq<Packet>, fanouts: seq<Fanout>, turns: set<Began>)
    requires Recorded(sent, fanouts, turns)
    ensures forall n :: 0 <= n < |sent| ==> sent[n].emission < |fanouts|
  {
  }

  lemma StartsAdded(sent: seq<Packet>, fanouts: seq<Fanout>)
    requires StartsOk(sent, fanouts) && forall n :: 0 <= n < |sent| ==> sent[n].emission < |fanouts|
    ensures StartsOk(sent, fanouts + [Fanout(|sent|, Going(fanouts), 0, None, false)])
  {
    var longer := fanouts + [Fanout(|sent|, Going(fanouts), 0, None, false)];
    forall i, j | 0 <= i < j < |longer|
      ensures Apart(sent, longer, i, j)
    {
      if j < |fanouts| {
        assert Apart(sent, fanouts, i, j);
      } else {
        assert i in Going(fanouts) <==> !fanouts[i].ended;
      }
    }
    forall n | 0 <= n < |sent|
      ensures longer[sent[n].emission].first <= n
    {
      assert longer[sent[n].emission] == fanouts[sent[n].emission];
    }
  }

  // The order of the fan-outs does not change while they go on and end.
  lemma StartsKept(sent: seq<Packet>, fanouts: seq<Fanout>, after: seq<Fanout>)
    requires StartsOk(sent, fanouts) && |after| == |fanouts|
    requires forall k :: 0 <= k < |after| ==>
               && after[k].first == fanouts[k].first && after[k].running == fanouts[k].running
               && (fanouts[k].ended ==> after[k].ended) && (after[k].waiting.Some? ==> !after[k].ended)
    ensures StartsOk(sent, after)
  {
    forall i, j | 0 <= i < j < |after|
      ensures Apart(sent, after, i, j)
    {
      assert Apart(sent, fanouts, i, j);
    }
  }

  lemma FanTurns(sent: seq<Packet>, fanouts: seq<Fanout>, turns: set<Began>, id: nat, t: Turn)
    requires FansOk(sent, fanouts, turns) && id < |fanouts| && !fanouts[id].ended && t.place >= fanouts[id].cursor
    ensures FansOk(sent, fanouts[id := fanouts[id].(cursor := t.place + 1, waiting := Some(t))],
                   turns + {Began(t.s.key, t.epoch, t.place)})
  {
    StartsKept(sent, fanouts, fanouts[id := fanouts[id].(cursor := t.place + 1, waiting := Some(t))]);
    hide StartsOk;
  }

  lemma FanRests(sent: seq<Packet>, fanouts: seq<Fanout>, turns: set<Began>, id: nat)
    requires FansOk(sent, fanouts, turns) && id < |fanouts|
    ensures FansOk(sent, fanouts[id := fanouts[id].(waiting := None)], turns)
  {
    StartsKept(sent, fanouts, fanouts[id := fanouts[id].(waiting := None)]);
    hide StartsOk;
  }

  lemma FanEnds(sent: seq<Packet>, fanouts: seq<Fanout>, turns: set<Began>, id: nat)
    requires FansOk(sent, fanouts, turns) && id < |fanouts| && fanouts[id].waiting.None?
    ensures FansOk(sent, fanouts[id := fanouts[id].(ended := true)], turns)
  {
    StartsKept(sent, fanouts, fanouts[id := fanouts[id].(ended := true)]);
    hide StartsOk;
  }

  lemma FanSends(sent: seq<Packet>, fanouts: seq<Fanout>, turns: set<Began>, id: nat, p: Packet)
    requires FansOk(sent, fanouts, turns) && id < |fanouts| && fanouts[id].waiting.Some?
    requires var t := fanouts[id].waiting.value;
             p.emission == id && p.key == t.s.key && p.considered == t.epoch && p.place == t.place
    ensures FansOk(sent + [p], fanouts[id := fanouts[id].(waiting := None)], turns)
  {
    var longer, after := sent + [p], fanouts[id := fanouts[id].(waiting := None)];
    SendRecorded(sent, fanouts, turns, id, p);
    SendRises(sent, fanouts, id, p);
    hide Recorded, PlacesRise;
    SendStarts(sent, fanouts, id, p);
  }

  lemma SendStarts(sent: seq<Packet>, fanouts: seq<Fanout>, id: nat, p: Packet)
    requires StartsOk(sent, fanouts) && id < |fanouts| && fanouts[id].waiting.Some? && p.emission == id
    ensures StartsOk(sent + [p], fanouts[id := fanouts[id].(waiting := None)])
  {
    var longer, after := sent + [p], fanouts[id := fanouts[id].(waiting := None)];
    forall k | 0 <= k < |after|
      ensures after[k].first == fanouts[k].first && after[k].running == fanouts[k].running && after[k].ended == fanouts[k].ended
    {
    }
    forall i, j | 0 <= i < j < |after|
      ensures Apart(longer, after, i, j)
    {
      assert Apart(sent, fanouts, i, j);
    }
    forall n | 0 <= n < |longer| && longer[n].emission < |after|
      ensures after[longer[n].emission].first <= n
    {
      if n < |sent| {
        assert longer[n] == sent[n];
      }
    }
  }

  lemma SendRecorded(sent: seq<Packet>, fanouts: seq<Fanout>, turns: set<Began>, id: nat, p: Packet)
    requires Recorded(sent, fanouts, turns) && id < |fanouts| && fanouts[id].waiting.Some?
    requires var t := fanouts[id].waiting.value;
             p.emission == id && p.key == t.s.key && p.considered == t.epoch && p.place == t.place
    ensures Recorded(sent + [p], fanouts[id := fanouts[id].(waiting := None)], turns)
  {
  }

  lemma SendRises(sent: seq<Packet>, fanouts: seq<Fanout>, id: nat, p: Packet)
    requires PlacesRise(sent, fanouts) && id < |fanouts| && fanouts[id].waiting.Some?
    requires p.emission == id && p.place == fanouts[id].waiting.value.place
    ensures PlacesRise(sent + [p], fanouts[id := fanouts[id].(waiting := None)])
  {
  }

  lemma TurnKey(h: HubState, key: Key)
    requires HubOk(h) && key in h.subscriptions && key in h.places
    ensures TurnOf(h, key).s.key == key
  {
    hide SequencesOk, PlacesOk, EpochsRise;
  }

  lemma StepFans(w: World, a: Action, v: World)
    requires HubOk(w.hub) && FansOk(w.hub.sent, w.fanouts, w.turns) && Do(w, a) == Some(v)
    ensures FansOk(v.hub.sent, v.fanouts, v.turns)
  {
    hide Do, HubOk, FansOk, TurnOf, FanStep;
    FanStepHolds(w, a, v);
    FanStepKeeps(w, a, v);
  }

  lemma FanStepKeeps(w: World, a: Action, v: World)
    requires HubOk(w.hub) && FansOk(w.hub.sent, w.fanouts, w.turns) && FanStep(w, a, v)
    ensures FansOk(v.hub.sent, v.fanouts, v.turns)
  {
    hide HubOk, FansOk;
    match a
    case EmitStart(_, _, _) => FanStarts(w.hub.sent, w.fanouts, w.turns);
    case EmitTurn(id, key) =>
      TurnKey(w.hub, key);
      FanTurns(w.hub.sent, w.fanouts, w.turns, id, TurnOf(w.hub, key));
    case EmitFinish(id, sends) =>
      if sends {
        var t := w.fanouts[id].waiting.value;
        FanSends(w.hub.sent, w.fanouts, w.turns, id, NextPacket(w.hub, w.hubId, t, id, w.emissions[id]));
      } else {
        assert w.hub.sent + [] == w.hub.sent;
        FanRests(w.hub.sent, w.fanouts, w.turns, id);
      }
    case EmitEnd(id) => FanEnds(w.hub.sent, w.fanouts, w.turns, id);
    case _ =>
  }

  // ----- Where the fan-outs stood -----

  lemma OwesBefore(f: Fanout, g: Fanout, place: nat)
    requires Older(f, g) && Owes(g, place)
    ensures Owes(f, place)
  {
  }

  lemma MomentsStay(sent: seq<Packet>, moments: seq<seq<Fanout>>, fanouts: seq<Fanout>, after: seq<Fanout>)
    requires MomentsOk(sent, moments, fanouts) && AllOlder(fanouts, after)
    ensures MomentsOk(sent, moments, after)
  {
    hide Owes;
  }

  lemma OneGoesOn(fanouts: seq<Fanout>, id: nat, f: Fanout)
    requires id < |fanouts| && Older(fanouts[id], f)
    ensures AllOlder(fanouts, fanouts[id := f])
  {
  }

  lemma OneMore(fanouts: seq<Fanout>, f: Fanout)
    ensures AllOlder(fanouts, fanouts + [f])
  {
  }

  // The frame of a turn: nothing sent before was owed, and all that was sent before it was owed it.
  lemma OwedNow(sent: seq<Packet>, moments: seq<seq<Fanout>>, fanouts: seq<Fanout>, id: nat, k: nat)
    requires MomentsOk(sent, moments, fanouts) && PlacesRise(sent, fanouts) && StartsOk(sent, fanouts)
    requires id < |fanouts| && fanouts[id].waiting.Some? && k < |sent|
    ensures sent[k].emission < id ==> !Owes(fanouts[sent[k].emission], sent[k].place)
    ensures id < sent[k].emission ==> Owes(moments[k][id], fanouts[id].waiting.value.place)
  {
    if id < sent[k].emission {
      OwesBefore(moments[k][id], fanouts[id], fanouts[id].waiting.value.place);
    }
  }

  lemma MomentAdded(sent: seq<Packet>, moments: seq<seq<Fanout>>, fanouts: seq<Fanout>, id: nat, p: Packet)
    requires MomentsOk(sent, moments, fanouts) && PlacesRise(sent, fanouts) && StartsOk(sent, fanouts)
    requires id < |fanouts| && fanouts[id].waiting.Some?
    requires p.emission == id && p.place == fanouts[id].waiting.value.place
    ensures MomentsOk(sent + [p], moments + [fanouts], fanouts)
  {
    forall k | 0 <= k < |sent|
      ensures sent[k].emission < id ==> !Owes(fanouts[sent[k].emission], sent[k].place)
      ensures id < sent[k].emission ==> Owes(moments[k][id], p.place)
    {
      OwedNow(sent, moments, fanouts, id, k);
    }
    hide Owes, PlacesRise, StartsOk;
    assert AllOlder(fanouts, fanouts);
  }

  lemma StepMoments(w: World, a: Action, v: World)
    requires FansOk(w.hub.sent, w.fanouts, w.turns) && MomentsOk(w.hub.sent, w.moments, w.fanouts) && FanStep(w, a, v)
    ensures MomentsOk(v.hub.sent, v.moments, v.fanouts)
  {
    hide MomentsOk, AllOlder, Recorded, PlacesRise, StartsOk, TurnOf, NextPacket;
    match a
    case EmitStart(_, _, _) =>
      OneMore(w.fanouts, v.fanouts[|w.fanouts|]);
      MomentsStay(w.hub.sent, w.moments, w.fanouts, v.fanouts);
    case EmitTurn(id, key) =>
      TurnPlace(w.hub, key);
      OneGoesOn(w.fanouts, id, v.fanouts[id]);
      MomentsStay(w.hub.sent, w.moments, w.fanouts, v.fanouts);
    case EmitFinish(id, sends) =>
      OneGoesOn(w.fanouts, id, v.fanouts[id]);
      if sends {
        var p := NextPacket(w.hub, w.hubId, w.fanouts[id].waiting.value, id, w.emissions[id]);
        PacketIs(w.hub, w.hubId, w.fanouts[id].waiting.value, id, w.emissions[id]);
        MomentAdded(w.hub.sent, w.moments, w.fanouts, id, p);
      } else {
        assert w.hub.sent + [] == w.hub.sent && w.moments + [] == w.moments;
      }
      MomentsStay(v.hub.sent, v.moments, w.fanouts, v.fanouts);
    case EmitEnd(id) =>
      OneGoesOn(w.fanouts, id, v.fanouts[id]);
      MomentsStay(w.hub.sent, w.moments, w.fanouts, v.fanouts);
    case _ =>
  }

  lemma TurnPlace(h: HubState, key: Key)
    requires key in h.subscriptions && key in h.places
    ensures TurnOf(h, key).place == h.places[key]
  {
  }

  lemma PacketIs(h: HubState, self: string, t: Turn, id: nat, e: Emission)
    ensures NextPacket(h, self, t, id, e).emission == id && NextPacket(h, self, t, id, e).place == t.place
  {
  }

  lemma {:induction false} RunKeeps(w: World, actions: seq<Action>)
    requires Initial(w) && Run(w, actions).Some?
    ensures Inv(Run(w, actions).value)
  {
    hide Do, HubOk, EmissionsOk, FramesOk, Delivering, EventsOk, TurnsOk, FansOk, MomentsOk;
    if actions == [] {
      InitialInv(w);
    } else {
      var init, last := actions[..|actions| - 1], actions[|actions| - 1];
      RunKeeps(w, init);
      StepKeeps(Run(w, init).value, last, Run(w, actions).value);
    }
  }

  lemma StepKeeps(w: World, a: Action, v: World)
    requires Inv(w) && Do(w, a) == Some(v)
    ensures Inv(v)
  {
    hide Do, HubOk, EmissionsOk, FramesOk, Delivering, EventsOk, TurnsOk, FansOk, MomentsOk;
    hide FanStep;
    StepHub(w, a, v);
    StepEmissions(w, a, v);
    FanStepHolds(w, a, v);
    StepFrames(w, a, v);
    StepEvents(w, a, v);
    StepTurns(w, a, v);
    StepFans(w, a, v);
    StepMoments(w, a, v);
  }

  lemma InitialInv(w: World)
    requires Initial(w)
    ensures Inv(w)
  {
    InitialHub();
    InitialAdapter();
    InitialFans();
    InitialFrames(w);
    hide HubOk, TurnsOk, FansOk, MomentsOk, Delivering, EmissionsOk, FramesOk, EventsOk;
  }

  lemma InitialAdapter()
    ensures Delivering(AdapterState(map[], {}, []))
  {
  }

  lemma InitialFans()
    ensures TurnsOk(EMPTY_HUB, {}) && FansOk([], [], {}) && MomentsOk([], [], [])
  {
  }

  lemma InitialFrames(w: World)
    requires Initial(w)
    ensures EmissionsOk(w) && FramesOk(w) && EventsOk(w)
  {
  }

  lemma InitialHub()
    ensures HubOk(EMPTY_HUB)
  {
    assert forall p: string :: OfPeer(EMPTY_HUB, p) == {};
    assert forall t: string :: OfTopic(EMPTY_HUB, t) == {};
  }

  // ----- The main results -----

  // No peer holds more subscriptions than its cap, no topic has more than its cap, and every
  // granted lifetime is between a millisecond and five minutes.
  lemma CapsHold(w: World, actions: seq<Action>, peerId: string, topic: string, key: Key)
    requires Initial(w) && Run(w, actions).Some?
    ensures var h := Run(w, actions).value.hub;
            && |OfPeer(h, peerId)| <= 64
            && |OfTopic(h, topic)| <= 128
            && (key in h.subscriptions ==> 1 <= h.subscriptions[key].ttlMs <= 300_000)
  {
    hide Run, Initial, EmissionsOk, FramesOk, Delivering, EventsOk, SequencesOk;
    RunKeeps(w, actions);
  }

  // Every frame that leaves the hub carries the topic and payload of an emission whose topic was
  // exposed when it was called, for a subscription whose topic it matches.
  lemma OnlyExposedTopicsLeave(w: World, actions: seq<Action>, n: nat)
    requires Initial(w) && Run(w, actions).Some? && n < |Run(w, actions).value.hub.sent|
    ensures var v := Run(w, actions).value;
            var p := v.hub.sent[n];
            && p.emission < |v.emissions|
            && p.topic == v.emissions[p.emission].topic && p.payload == v.emissions[p.emission].payload
            && Exposes(v.emissions[p.emission].exposed, p.topic)
            && TopicMatches(p.subscribed, p.topic)
  {
    hide Run, Initial, HubOk, Delivering, EventsOk, Exposes, TopicMatches;
    RunKeeps(w, actions);
  }

  // A turn is only ever taken for a subscription that matches the topic and was not out of date when the
  // emission was called.
  lemma TurnsAreLive(w: World, actions: seq<Action>, id: nat)
    requires Initial(w) && Run(w, actions).Some? && Waits(Run(w, actions).value, id)
    ensures var v := Run(w, actions).value;
            v.fanouts[id].waiting.value.s.expiresAt > v.emissions[id].now &&
            TopicMatches(v.fanouts[id].waiting.value.s.topic, v.emissions[id].topic)
  {
    hide Run, Initial, HubOk, FramesOk, Delivering, EventsOk, TurnsOk, FansOk, MomentsOk, Exposes, TopicMatches;
    RunKeeps(w, actions);
    assert Considers(Run(w, actions).value.emissions[id], Run(w, actions).value.fanouts[id].waiting.value.s);
  }

  // Two events that the hub's frames `m` and `n` brought, for one of our subscriptions.
  ghost predicate Came(v: World, i: nat, j: nat, m: nat, n: nat) {
    && i < j < |v.me.delivered| && |v.source| == |v.me.delivered|
    && v.me.delivered[i].peerId == v.hubId && v.me.delivered[i].subscriptionId == v.me.delivered[j].subscriptionId
    && v.source[i] == Some(m) && v.source[j] == Some(n) && m < |v.hub.sent| && n < |v.hub.sent|
  }

  // Every event that a handler sees for the hub came with a frame that the hub sent us for this
  // subscription, and carries topic and payload of an emission exposed when it was called.
  lemma DeliveredWasEmitted(w: World, actions: seq<Action>, i: nat) returns (n: nat)
    requires Initial(w) && Run(w, actions).Some? && i < |Run(w, actions).value.me.delivered|
    requires var v := Run(w, actions).value; v.me.delivered[i].peerId == v.hubId
    ensures var v := Run(w, actions).value; |v.source| == |v.me.delivered| && v.source[i] == Some(n) && n < |v.hub.sent|
    ensures var v := Run(w, actions).value;
            var event, p := v.me.delivered[i], v.hub.sent[n];
            && p.key == Key(v.myId, event.subscriptionId) && p.emission < |v.emissions|
            && var e := v.emissions[p.emission];
               event.topic == e.topic && event.payload == e.payload && Exposes(e.exposed, e.topic)
  {
    RunKeeps(w, actions);
    hide HubOk, EmissionsOk, FramesOk, TurnsOk, FansOk, MomentsOk, Delivering;
    var v := Run(w, actions).value;
    hide Run, Initial;
    assert EventFrom(v, v.me.delivered[i], v.source[i]);
    n := v.source[i].value;
    OnlyExposedTopicsLeave(w, actions, n);
  }

  // Two events of one subscription carry the topics and payloads of their frames, and came in the
  // order in which the frames were sent exactly when they came in the order of the epochs.
  lemma DeliveredInOrder(w: World, actions: seq<Action>, i: nat, j: nat, m: nat, n: nat)
    requires Initial(w) && Run(w, actions).Some? && Came(Run(w, actions).value, i, j, m, n)
    ensures var v := Run(w, actions).value;
            var p, q := v.hub.sent[m], v.hub.sent[n];
            && p.key == q.key == Key(v.myId, v.me.delivered[i].subscriptionId)
            && v.me.delivered[i].topic == p.topic && v.me.delivered[i].payload == p.payload
            && v.me.delivered[j].topic == q.topic && v.me.delivered[j].payload == q.payload
            && (m < n <==> p.epoch <= q.epoch)
  {
    RunKeeps(w, actions);
    hide Run, Initial, CapsOk, PlacesOk, EmissionsOk, FramesOk, TurnsOk, FansOk, MomentsOk;
    var v := Run(w, actions).value;
    assert EventFrom(v, v.me.delivered[i], v.source[i]) && EventFrom(v, v.me.delivered[j], v.source[j]);
    hide SequencesOk, Delivering;
    IncreasingHolds(v, i, j);
    if v.hub.sent[m].epoch == v.hub.sent[n].epoch {
      NumberedHolds(v);
      NumbersFollowOrder(v.hub.sent, m, n);
    }
  }

  // A fan-out sends at most one frame for each epoch in which it considers a subscription.
  lemma OneFrameEach(v: World, m: nat, n: nat)
    requires TurnsOk(v.hub, v.turns) && FansOk(v.hub.sent, v.fanouts, v.turns)
    requires m < |v.hub.sent| && n < |v.hub.sent| && m != n
    requires v.hub.sent[m].key == v.hub.sent[n].key && v.hub.sent[m].emission == v.hub.sent[n].emission
    ensures v.hub.sent[m].considered != v.hub.sent[n].considered
  {
    var p, q := v.hub.sent[m], v.hub.sent[n];
    assert Began(p.key, p.considered, p.place) in v.turns && Began(q.key, q.considered, q.place) in v.turns;
    assert p.place != q.place;
  }

  // No emission is delivered twice, but for frames whose turns began in different epochs: then
  // the subscription was dropped and registered again while the fan-out was going.
  lemma DeliveredOnce(w: World, actions: seq<Action>, i: nat, j: nat, m: nat, n: nat)
    requires Initial(w) && Run(w, actions).Some? && Came(Run(w, actions).value, i, j, m, n)
    ensures var v := Run(w, actions).value;
            var p, q := v.hub.sent[m], v.hub.sent[n];
            p.emission == q.emission ==> p.considered != q.considered
  {
    DeliveredInOrder(w, actions, i, j, m, n);
    RunKeeps(w, actions);
    hide Run, Initial, HubOk, EmissionsOk, FramesOk, Delivering, EventsOk, TurnsOk, FansOk, MomentsOk;
    var v := Run(w, actions).value;
    if v.hub.sent[m].emission == v.hub.sent[n].emission {
      OneFrameEach(v, m, n);
    }
  }

  // A fan-out that was over when another began has sent all its frames before.
  lemma EarlierFramesFirst(v: World, m: nat, n: nat)
    requires FansOk(v.hub.sent, v.fanouts, v.turns) && m < |v.hub.sent| && n < |v.hub.sent|
    requires v.hub.sent[m].emission < v.hub.sent[n].emission
    requires v.hub.sent[m].emission !in v.fanouts[v.hub.sent[n].emission].running
    ensures m < n
  {
    hide PlacesRise;
    assert Apart(v.hub.sent, v.fanouts, v.hub.sent[m].emission, v.hub.sent[n].emission);
  }

  // Within one epoch events come in the order of their emissions, none twice when their turns
  // began in one epoch, unless the earlier emission was still being fanned out when the later
  // one began.
  lemma DeliveredInEmissionOrder(w: World, actions: seq<Action>, i: nat, j: nat, m: nat, n: nat)
    requires Initial(w) && Run(w, actions).Some? && Came(Run(w, actions).value, i, j, m, n)
    requires var v := Run(w, actions).value;
             var p, q := v.hub.sent[m], v.hub.sent[n];
             p.epoch == q.epoch && p.emission < |v.fanouts| && q.emission !in v.fanouts[p.emission].running
    ensures var v := Run(w, actions).value;
            var p, q := v.hub.sent[m], v.hub.sent[n];
            p.emission <= q.emission && (p.considered == q.considered ==> p.emission < q.emission)
  {
    DeliveredInOrder(w, actions, i, j, m, n);
    DeliveredOnce(w, actions, i, j, m, n);
    RunKeeps(w, actions);
    hide Run, Initial, HubOk, EmissionsOk, FramesOk, Delivering, EventsOk, TurnsOk;
    var v := Run(w, actions).value;
    if v.hub.sent[n].emission < v.hub.sent[m].emission {
      EarlierFramesFirst(v, n, m);
    }
  }

  // Within one epoch, events of two emissions come in the order of the emissions exactly when the
  // earlier one no longer owed the subscription its turn at the moment the frame of the later one was
  // sent.
  lemma EmissionOrderIff(w: World, actions: seq<Action>, i: nat, j: nat, m: nat, n: nat)
    requires Initial(w) && Run(w, actions).Some?
    requires Came(Run(w, actions).value, i, j, m, n) || Came(Run(w, actions).value, j, i, n, m)
    requires var v := Run(w, actions).value;
             var p, q := v.hub.sent[m], v.hub.sent[n];
             p.epoch == q.epoch && p.emission < q.emission
    ensures var v := Run(w, actions).value;
            var p, q := v.hub.sent[m], v.hub.sent[n];
            && n < |v.moments| && p.emission < |v.moments[n]|
            && (i < j <==> !Owes(v.moments[n][p.emission], p.place))
  {
    RunKeeps(w, actions);
    hide Run, Initial, HubOk, EmissionsOk, FramesOk, Delivering, EventsOk, TurnsOk, FansOk, Owes, AllOlder;
    if i < j {
      DeliveredInOrder(w, actions, i, j, m, n);
    } else {
      DeliveredInOrder(w, actions, j, i, n, m);
    }
  }

  lemma NumberedHolds(w: World)
    requires HubOk(w.hub)
    ensures Numbered(w.hub.sent)
  {
    hide Numbered, CapsOk;
  }

  lemma IncreasingHolds(w: World, i: nat, j: nat)
    requires Delivering(w.me) && i < j < |w.me.delivered|
    requires w.me.delivered[i].subscriptionId == w.me.delivered[j].subscriptionId
    ensures w.me.delivered[i].sequenceNumber < w.me.delivered[j].sequenceNumber
    ensures w.me.delivered[i].peerId == w.me.delivered[j].peerId
  {
    hide TopicMatches;
  }
}
