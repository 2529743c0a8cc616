/** The subscription hub of a publisher: subscriptions, caps, lifetimes and sequence numbers. */
module EventHub {
  import opened Text
  import opened EventTopics

  const MAX_SUBSCRIPTIONS_PER_PEER := 64
  const MAX_SUBSCRIPTIONS_PER_TOPIC := 128
  const MAX_SUBSCRIPTION_TTL_MS := 300_000
  const DEFAULT_SUBSCRIPTION_TTL_MS := 60_000

  // A subscription is addressed by its peer and its id.
  datatype Key = Key(peerId: string, subscriptionId: string)

  datatype Subscription = Subscription(key: Key, topic: string, ttlMs: int, expiresAt: int)

  type Payload = string

  // A call of `emitLocal` that passed the exposure gate, and the topics exposed at that moment.
  datatype Emission = Emission(topic: string, payload: Payload, now: int, exposed: set<string>)

  // A turn of a fan-out loop that waits for the guards of a subscription, with how often that
  // subscription's sequence had been dropped when the turn began, and its place in the loop.
  datatype Turn = Turn(s: Subscription, epoch: nat, place: nat)

  // An `event_emit` frame, with what the wire does not show: the emission it belongs to, the
  // topic of the subscription it was sent for, how often that subscription's sequence had been
  // dropped when it was sent, and the same when its turn began, with the place of the turn.
  datatype Packet = Packet(
    key: Key, publisher: string, topic: string, payload: Payload, sequenceNumber: nat,
    emission: nat, subscribed: string, epoch: nat, considered: nat, place: nat)

  // `places` is the order in which the map of subscriptions is traversed: a new key goes to the
  // end, a key that is set again keeps its place. `sent` lists every frame handed to the network.
  datatype HubState = HubState(
    subscriptions: map<Key, Subscription>,
    places: map<Key, nat>,
    nextPlace: nat,
    sequences: map<Key, nat>,
    epochs: map<Key, nat>,
    sent: seq<Packet>)

  const EMPTY_HUB := HubState(map[], map[], 0, map[], map[], [])

  datatype Ack = Accepted(ttlMs: int) | Unsubscribed | Rejected(reason: Reason)

  datatype Reason = TopicNotExposed | NotAuthorized | SubscriptionCap | SubscriptionNotFound | PeerNotResolvable

  function Epoch(h: HubState, key: Key): nat { if key in h.epochs then h.epochs[key] else 0 }

  function Sequence(h: HubState, key: Key): nat { if key in h.sequences then h.sequences[key] else 0 }

  // ----- Steps -----

  // Deleting subscriptions and their sequences.
  function Drop(h: HubState, keys: set<Key>): HubState {
    HubState(h.subscriptions - keys, h.places - keys, h.nextPlace, h.sequences - keys,
             h.epochs + map k | k in keys :: Epoch(h, k) + 1, h.sent)
  }

  function Expired(h: HubState, now: int): set<Key> {
    set k | k in h.subscriptions && h.subscriptions[k].expiresAt <= now
  }

  // `sweep`
  function Sweep(h: HubState, now: int): HubState { Drop(h, Expired(h, now)) }

  // `handleUnsubscribe`
  function Unsubscribe(h: HubState, key: Key): (HubState, Ack) {
    if key in h.subscriptions then (Drop(h, {key}), Unsubscribed)
    else (h, Rejected(SubscriptionNotFound))
  }

  function OfPeer(h: HubState, peerId: string): set<Key> {
    set k | k in h.subscriptions && k.peerId == peerId
  }

  function OfTopic(h: HubState, topic: string): set<Key> {
    set k | k in h.subscriptions && h.subscriptions[k].topic == topic
  }

  function GrantedTtl(ttlMs: Option<int>): (t: int)
    ensures 1 <= t <= MAX_SUBSCRIPTION_TTL_MS
  {
    var asked := if ttlMs.Some? then ttlMs.value else DEFAULT_SUBSCRIPTION_TTL_MS;
    if asked < 1 then 1 else if asked > MAX_SUBSCRIPTION_TTL_MS then MAX_SUBSCRIPTION_TTL_MS else asked
  }

  // The place of a key in the traversal.
  function Placed(h: HubState, key: Key): HubState {
    if key in h.subscriptions then h else h.(places := h.places[key := h.nextPlace], nextPlace := h.nextPlace + 1)
  }

  // `handleSubscribe` after its last await: caps, addressability, registration.
  function Register(h: HubState, key: Key, topic: string, ttlMs: Option<int>, resolvable: bool, now: int): (HubState, Ack) {
    if |OfPeer(h, key.peerId)| >= MAX_SUBSCRIPTIONS_PER_PEER then (h, Rejected(SubscriptionCap))
    else if |OfTopic(h, topic)| >= MAX_SUBSCRIPTIONS_PER_TOPIC then (h, Rejected(SubscriptionCap))
    else if !resolvable then (h, Rejected(PeerNotResolvable))
    else
      var ttl := GrantedTtl(ttlMs);
      (Placed(h, key).(subscriptions := h.subscriptions[key := Subscription(key, topic, ttl, now + ttl)]), Accepted(ttl))
  }

  // The exposure gate: a topic listed itself or by an exposed wildcard.
  predicate Exposes(exposed: set<string>, topic: string) {
    topic in exposed || exists e :: e in exposed && IsWildcardTopic(e) && TopicMatches(e, topic)
  }

  // The answer to a subscription request before the guards; `granted` is the peer gate's verdict.
  function SubscribeRefusal(self: string, exposed: set<string>, peerId: string, topic: string, granted: bool): Option<Reason> {
    if !IsTopic(topic) then Some(TopicNotExposed)
    else if peerId == self || !granted then Some(NotAuthorized)
    else if !IsWildcardTopic(topic) && !Exposes(exposed, topic) then Some(TopicNotExposed)
    else None
  }

  // What is exposed shows in the answers exactly to other peers that the gate has granted, and
  // only for exact topics: nobody else can probe it.
  lemma ExposureShowsIff(self: string, a: set<string>, b: set<string>, peerId: string, topic: string, granted: bool)
    ensures SubscribeRefusal(self, a, peerId, topic, granted) != SubscribeRefusal(self, b, peerId, topic, granted) <==>
            && IsTopic(topic) && !IsWildcardTopic(topic)
            && peerId != self && granted
            && (Exposes(a, topic) <==> !Exposes(b, topic))
  {
    hide IsTopic, Exposes, IsWildcardTopic;
  }

  // The filters of the fan-out loop before the guards are awaited.
  predicate Considers(e: Emission, s: Subscription) {
    s.expiresAt > e.now && TopicMatches(s.topic, e.topic)
  }

  // A subscription that a fan-out whose traversal has come to the cursor has still ahead of it.
  predicate Ahead(h: HubState, e: Emission, cursor: nat, key: Key) {
    && key in h.subscriptions && key in h.places
    && h.places[key] >= cursor
    && Considers(e, h.subscriptions[key])
  }

  // The one whose turn is next.
  predicate IsNext(h: HubState, e: Emission, cursor: nat, key: Key) {
    && Ahead(h, e, cursor, key)
    && forall k :: k in h.subscriptions && Ahead(h, e, cursor, k) ==> h.places[key] <= h.places[k]
  }

  function TurnOf(h: HubState, key: Key): Turn
    requires key in h.subscriptions && key in h.places
  {
    Turn(h.subscriptions[key], Epoch(h, key), h.places[key])
  }

  function NextPacket(h: HubState, self: string, t: Turn, id: nat, e: Emission): Packet {
    Packet(t.s.key, self, e.topic, e.payload, Sequence(h, t.s.key) + 1, id, t.s.topic, Epoch(h, t.s.key), t.epoch, t.place)
  }

  // The fan-out loop after the guards and the gate: number the frame and send it. The
  // subscription may have been dropped while the guards were awaited.
  function Send(h: HubState, self: string, t: Turn, id: nat, e: Emission): HubState {
    h.(sequences := h.sequences[t.s.key := Sequence(h, t.s.key) + 1], sent := h.sent + [NextPacket(h, self, t, id, e)])
  }

  // ----- Invariants -----

  // How many frames of this subscription and epoch there are.
  function Sent(packets: seq<Packet>, key: Key, epoch: nat): nat {
    if packets == [] then 0
    else
      Sent(packets[..|packets| - 1], key, epoch) +
      if packets[|packets| - 1].key == key && packets[|packets| - 1].epoch == epoch then 1 else 0
  }

  lemma SentSnoc(packets: seq<Packet>, p: Packet, key: Key, epoch: nat)
    ensures Sent(packets + [p], key, epoch) == Sent(packets, key, epoch) + if p.key == key && p.epoch == epoch then 1 else 0
  {
    assert (packets + [p])[..|packets|] == packets;
  }

  // Within one epoch of a subscription frames are numbered 1, 2, 3, ... as they are sent.
  ghost predicate Numbered(packets: seq<Packet>) {
    forall i :: 0 <= i < |packets| ==>
      packets[i].sequenceNumber == Sent(packets[..i], packets[i].key, packets[i].epoch) + 1
  }

  ghost predicate SequencesOk(h: HubState) {
    && Numbered(h.sent)
    && (forall k: Key :: Sequence(h, k) == Sent(h.sent, k, Epoch(h, k)))
    && (forall k: Key, e: nat :: e > Epoch(h, k) ==> Sent(h.sent, k, e) == 0)
  }

  ghost predicate CapsOk(h: HubState) {
    && (forall p: string :: |OfPeer(h, p)| <= MAX_SUBSCRIPTIONS_PER_PEER)
    && (forall t: string :: |OfTopic(h, t)| <= MAX_SUBSCRIPTIONS_PER_TOPIC)
    && (forall k :: k in h.subscriptions ==>
          h.subscriptions[k].key == k && 1 <= h.subscriptions[k].ttlMs <= MAX_SUBSCRIPTION_TTL_MS)
  }

  // Every subscription has a place of its own.
  ghost predicate PlacesOk(h: HubState) {
    && h.places.Keys == h.subscriptions.Keys
    && (forall k :: k in h.places ==> h.places[k] < h.nextPlace)
    && (forall j, k :: j in h.places && k in h.places && h.places[j] == h.places[k] ==> j == k)
  }

  // The epochs of one subscription's frames never fall.
  ghost predicate EpochsRise(h: HubState) {
    && (forall i, j :: 0 <= i <= j < |h.sent| && h.sent[i].key == h.sent[j].key ==> h.sent[i].epoch <= h.sent[j].epoch)
    && (forall i :: 0 <= i < |h.sent| ==> h.sent[i].epoch <= Epoch(h, h.sent[i].key))
  }

  ghost predicate HubOk(h: HubState) { SequencesOk(h) && CapsOk(h) && PlacesOk(h) && EpochsRise(h) }

  lemma Subset<T>(a: set<T>, b: set<T>)
    requires a <= b
    ensures |a| <= |b|
  {
    var rest := b - a;
    assert b == a + rest;
  }

  lemma DropCaps(h: HubState, keys: set<Key>)
    requires CapsOk(h)
    ensures CapsOk(Drop(h, keys))
  {
    var d := Drop(h, keys);
    forall p: string
      ensures |OfPeer(d, p)| <= MAX_SUBSCRIPTIONS_PER_PEER
    {
      Subset(OfPeer(d, p), OfPeer(h, p));
    }
    forall t: string
      ensures |OfTopic(d, t)| <= MAX_SUBSCRIPTIONS_PER_TOPIC
    {
      Subset(OfTopic(d, t), OfTopic(h, t));
    }
  }

  lemma DropNumbers(h: HubState, keys: set<Key>)
    requires SequencesOk(h) && EpochsRise(h)
    ensures SequencesOk(Drop(h, keys)) && EpochsRise(Drop(h, keys))
  {
    hide Sent, Numbered;
    var d := Drop(h, keys);
    assert forall k: Key :: Epoch(d, k) == Epoch(h, k) + if k in keys then 1 else 0;
    assert forall k: Key :: Sequence(d, k) == if k in keys then 0 else Sequence(h, k);
  }

  lemma DropPlaces(h: HubState, keys: set<Key>)
    requires PlacesOk(h)
    ensures PlacesOk(Drop(h, keys))
  {
  }

  // Dropping subscriptions keeps the caps, the numbering and the order.
  lemma DropKeeps(h: HubState, keys: set<Key>)
    requires HubOk(h)
    ensures HubOk(Drop(h, keys))
  {
    hide SequencesOk, CapsOk, PlacesOk, EpochsRise, Drop;
    DropCaps(h, keys);
    DropNumbers(h, keys);
    DropPlaces(h, keys);
  }

  lemma CapsGrow(h: HubState, s: Subscription)
    requires CapsOk(h) && 1 <= s.ttlMs <= MAX_SUBSCRIPTION_TTL_MS
    requires |OfPeer(h, s.key.peerId)| < MAX_SUBSCRIPTIONS_PER_PEER && |OfTopic(h, s.topic)| < MAX_SUBSCRIPTIONS_PER_TOPIC
    ensures CapsOk(Placed(h, s.key).(subscriptions := h.subscriptions[s.key := s]))
  {
    var r := Placed(h, s.key).(subscriptions := h.subscriptions[s.key := s]);
    forall p: string
      ensures |OfPeer(r, p)| <= MAX_SUBSCRIPTIONS_PER_PEER
    {
      Subset(OfPeer(r, p), if p == s.key.peerId then OfPeer(h, p) + {s.key} else OfPeer(h, p));
    }
    forall t: string
      ensures |OfTopic(r, t)| <= MAX_SUBSCRIPTIONS_PER_TOPIC
    {
      Subset(OfTopic(r, t), if t == s.topic then OfTopic(h, t) + {s.key} else OfTopic(h, t));
    }
  }

  lemma SequencesStay(h: HubState, r: HubState)
    requires SequencesOk(h) && EpochsRise(h)
    requires r.sequences == h.sequences && r.epochs == h.epochs && r.sent == h.sent
    ensures SequencesOk(r) && EpochsRise(r)
  {
    hide Sent, Numbered;
    assert forall k: Key :: Epoch(r, k) == Epoch(h, k) && Sequence(r, k) == Sequence(h, k);
  }

  lemma RegisterPlaces(h: HubState, s: Subscription)
    requires PlacesOk(h)
    ensures PlacesOk(Placed(h, s.key).(subscriptions := h.subscriptions[s.key := s]))
  {
  }

  lemma RegisterKeeps(h: HubState, key: Key, topic: string, ttlMs: Option<int>, resolvable: bool, now: int)
    requires HubOk(h)
    ensures HubOk(Register(h, key, topic, ttlMs, resolvable, now).0)
  {
    hide SequencesOk, CapsOk, PlacesOk, EpochsRise, Placed, OfPeer, OfTopic;
    var ttl := GrantedTtl(ttlMs);
    var s := Subscription(key, topic, ttl, now + ttl);
    if |OfPeer(h, key.peerId)| < MAX_SUBSCRIPTIONS_PER_PEER && |OfTopic(h, topic)| < MAX_SUBSCRIPTIONS_PER_TOPIC {
      CapsGrow(h, s);
      RegisterPlaces(h, s);
      SamePacing(h, key);
      SequencesStay(h, Placed(h, key).(subscriptions := h.subscriptions[key := s]));
    }
  }

  lemma SamePacing(h: HubState, key: Key)
    ensures var r := Placed(h, key); r.sequences == h.sequences && r.epochs == h.epochs && r.sent == h.sent
  {
  }

  lemma SendKeeps(h: HubState, self: string, t: Turn, id: nat, e: Emission)
    requires HubOk(h)
    ensures HubOk(Send(h, self, t, id, e))
  {
    var v := Send(h, self, t, id, e);
    SendNumbers(h, self, t, id, e);
    hide SequencesOk, Sent, EpochsRise;
    forall q: string
      ensures OfPeer(v, q) == OfPeer(h, q)
    {
    }
    forall q: string
      ensures OfTopic(v, q) == OfTopic(h, q)
    {
    }
  }

  lemma SendNumbers(h: HubState, self: string, t: Turn, id: nat, e: Emission)
    requires SequencesOk(h) && EpochsRise(h)
    ensures SequencesOk(Send(h, self, t, id, e)) && EpochsRise(Send(h, self, t, id, e))
  {
    hide Sent;
    var v, p, key := Send(h, self, t, id, e), NextPacket(h, self, t, id, e), t.s.key;
    forall i | 0 <= i < |v.sent|
      ensures v.sent[i].sequenceNumber == Sent(v.sent[..i], v.sent[i].key, v.sent[i].epoch) + 1
    {
      assert v.sent[..i] == if i < |h.sent| then h.sent[..i] else h.sent;
    }
    forall k: Key, n: nat
      ensures Sent(v.sent, k, n) == Sent(h.sent, k, n) + if k == key && n == Epoch(h, key) then 1 else 0
    {
      SentSnoc(h.sent, p, k, n);
    }
    forall k: Key
      ensures Epoch(v, k) == Epoch(h, k) && Sequence(v, k) == Sequence(h, k) + if k == key then 1 else 0
    {
    }
  }

  // ----- Order -----

  lemma {:induction false} SentGrows(packets: seq<Packet>, i: nat, j: nat, key: Key, epoch: nat)
    requires i < j <= |packets| && packets[i].key == key && packets[i].epoch == epoch
    ensures Sent(packets[..i], key, epoch) < Sent(packets[..j], key, epoch)
  {
    assert packets[..j][..j - 1] == packets[..j - 1];
    if i < j - 1 {
      SentGrows(packets, i, j - 1, key, epoch);
    }
  }

  // Of two frames of one subscription and epoch, the one sent first has the smaller number.
  lemma NumbersFollowOrder(packets: seq<Packet>, i: nat, j: nat)
    requires Numbered(packets) && i < |packets| && j < |packets|
    requires packets[i].key == packets[j].key && packets[i].epoch == packets[j].epoch
    ensures i < j <==> packets[i].sequenceNumber < packets[j].sequenceNumber
  {
    if i < j {
      SentGrows(packets, i, j, packets[i].key, packets[i].epoch);
    } else if j < i {
      SentGrows(packets, j, i, packets[i].key, packets[i].epoch);
    }
  }
}
