/** The hub object, one method for each stretch of its code between two awaits. */
module HubObject {
  import opened Text
  import opened EventTopics
  import opened EventHub

  class SubscriptionHub {
    const selfPeerId: string
    var exposed: set<string>
    var subscriptions: map<Key, Subscription>
    // The insertion order of `subscriptions`.
    var places: map<Key, nat>
    var nextPlace: nat
    var sequences: map<Key, nat>
    ghost var epochs: map<Key, nat>
    ghost var sent: seq<Packet>

    ghost function State(): HubState
      reads this
    {
      HubState(subscriptions, places, nextPlace, sequences, epochs, sent)
    }

    constructor (selfPeerId: string, events: seq<string>)
      ensures State() == EMPTY_HUB && HubOk(State())
      ensures this.selfPeerId == selfPeerId && exposed == set e | e in events && IsTopic(e)
    {
      this.selfPeerId := selfPeerId;
      exposed, subscriptions, places, nextPlace, sequences, epochs, sent := {}, map[], map[], 0, map[], map[], [];
      new;
      assert forall p: string :: OfPeer(State(), p) == {};
      assert forall t: string :: OfTopic(State(), t) == {};
      SetExposedEvents(events);
    }

    // Malformed topics are left out.
    method SetExposedEvents(events: seq<string>)
      modifies `exposed
      ensures exposed == set e | e in events && IsTopic(e)
    {
      var next: set<string> := {};
      for i := 0 to |events|
        invariant next == set e | e in events[..i] && IsTopic(e)
      {
        if IsTopic(events[i]) {
          next := next + {events[i]};
        }
        assert events[..i + 1] == events[..i] + [events[i]];
      }
      assert events[..|events|] == events;
      exposed := next;
    }

    method IsExposed(topic: string) returns (yes: bool)
      ensures yes <==> Exposes(exposed, topic)
    {
      if topic in exposed {
        return true;
      }
      var rest := exposed;
      while rest != {}
        invariant rest <= exposed
        invariant forall e :: e in exposed - rest ==> !(IsWildcardTopic(e) && TopicMatches(e, topic))
        decreases |rest|
      {
        var entry :| entry in rest;
        if IsWildcardTopic(entry) && TopicMatches(entry, topic) {
          return true;
        }
        rest := rest - {entry};
      }
      return false;
    }

    ghost method DropSequence(keys: set<Key>)
      modifies `epochs
      ensures epochs == old(epochs) + map k | k in keys :: Epoch(old(State()), k) + 1
    {
      epochs := epochs + map k | k in keys :: Epoch(State(), k) + 1;
    }

    method SweepAt(now: int)
      requires HubOk(State())
      modifies `subscriptions, `places, `sequences, `epochs
      ensures State() == Sweep(old(State()), now) && HubOk(State())
      ensures Swept(old(State()), now, State())
    {
      DropKeeps(State(), Expired(State(), now));
      SweepMeans(State(), now);
      hide HubOk, Swept;
      DropSequence(Expired(State(), now));
      subscriptions, places, sequences := SweepLoop(subscriptions, places, sequences, now);
    }

    static method SweepLoop(subscriptions: map<Key, Subscription>, places: map<Key, nat>, sequences: map<Key, nat>, now: int)
      returns (live: map<Key, Subscription>, order: map<Key, nat>, numbers: map<Key, nat>)
      ensures var gone := set k | k in subscriptions && subscriptions[k].expiresAt <= now;
              live == subscriptions - gone && order == places - gone && numbers == sequences - gone
    {
      live, order, numbers := subscriptions, places, sequences;
      var rest := subscriptions.Keys;
      ghost var dropped: set<Key> := {};
      NoneLess(subscriptions);
      NoneLess(places);
      NoneLess(sequences);
      GoneEnds(subscriptions, now);
      hide GoneOf;
      while rest != {}
        invariant rest <= subscriptions.Keys && dropped == GoneOf(subscriptions, rest, now)
        invariant live == subscriptions - dropped && order == places - dropped && numbers == sequences - dropped
        decreases |rest|
      {
        var key :| key in rest;
        GoneStep(subscriptions, rest, now, key);
        rest := rest - {key};
        if live[key].expiresAt <= now {
          live, order, numbers := DropOne(subscriptions, places, sequences, live, order, numbers, key, dropped);
          dropped := dropped + {key};
        }
      }
    }

    static method DropOne(ghost subscriptions: map<Key, Subscription>, ghost places: map<Key, nat>, ghost sequences: map<Key, nat>,
                          live: map<Key, Subscription>, order: map<Key, nat>, numbers: map<Key, nat>, key: Key, ghost dropped: set<Key>)
      returns (a: map<Key, Subscription>, b: map<Key, nat>, c: map<Key, nat>)
      requires live == subscriptions - dropped && order == places - dropped && numbers == sequences - dropped
      ensures a == live - {key} && b == order - {key} && c == numbers - {key}
      ensures a == subscriptions - (dropped + {key}) && b == places - (dropped + {key}) && c == sequences - (dropped + {key})
    {
      OneLess(subscriptions, dropped, key);
      OneLess(places, dropped, key);
      OneLess(sequences, dropped, key);
      return live - {key}, order - {key}, numbers - {key};
    }

    method CountForPeer(peerId: string) returns (count: nat)
      ensures count == |OfPeer(State(), peerId)|
    {
      var rest := subscriptions.Keys;
      count := 0;
      ghost var counted: set<Key> := {};
      while rest != {}
        invariant rest <= subscriptions.Keys && count == |counted|
        invariant counted == set k | k in subscriptions && k !in rest && k.peerId == peerId
        decreases |rest|
      {
        var key :| key in rest;
        rest := rest - {key};
        if key.peerId == peerId {
          count := count + 1;
          counted := counted + {key};
        }
      }
      assert counted == OfPeer(State(), peerId);
    }

    method CountForTopic(topic: string) returns (count: nat)
      ensures count == |OfTopic(State(), topic)|
    {
      var rest := subscriptions.Keys;
      count := 0;
      ghost var counted: set<Key> := {};
      while rest != {}
        invariant rest <= subscriptions.Keys && count == |counted|
        invariant counted == set k | k in subscriptions && k !in rest && subscriptions[k].topic == topic
        decreases |rest|
      {
        var key :| key in rest;
        rest := rest - {key};
        if subscriptions[key].topic == topic {
          count := count + 1;
          counted := counted + {key};
        }
      }
      assert counted == OfTopic(State(), topic);
    }

    // `handleUnsubscribe`
    method HandleUnsubscribe(key: Key) returns (ack: Ack)
      requires HubOk(State())
      modifies `subscriptions, `places, `sequences, `epochs
      ensures (State(), ack) == Unsubscribe(old(State()), key) && HubOk(State())
      ensures ack == if key in old(subscriptions) then Unsubscribed else Rejected(SubscriptionNotFound)
      ensures key !in subscriptions && forall k :: k != key ==> (k in subscriptions <==> k in old(subscriptions))
      ensures ack == Unsubscribed ==> sequences == old(sequences) - {key}
    {
      if key in subscriptions {
        DropKeeps(State(), {key});
        hide HubOk;
        DropSequence({key});
        subscriptions, places, sequences := subscriptions - {key}, places - {key}, sequences - {key};
        return Unsubscribed;
      }
      return Rejected(SubscriptionNotFound);
    }

    // `handleSubscribe` from the request to the guards; `granted` is the verdict of the peer gate.
    method BeginSubscribe(peerId: string, topic: string, granted: bool) returns (refused: Option<Reason>)
      ensures refused == SubscribeRefusal(selfPeerId, exposed, peerId, topic, granted)
      ensures refused.None? <==> IsTopic(topic) && peerId != selfPeerId && granted && (IsWildcardTopic(topic) || Exposes(exposed, topic))
      ensures refused.Some? ==> refused == Some(if IsTopic(topic) && (peerId == selfPeerId || !granted) then NotAuthorized else TopicNotExposed)
    {
      if !IsTopic(topic) {
        return Some(TopicNotExposed);
      }
      if selfPeerId == peerId {
        return Some(NotAuthorized);
      }
      if !granted {
        return Some(NotAuthorized);
      }
      if !IsWildcardTopic(topic) {
        var yes := IsExposed(topic);
        if !yes {
          return Some(TopicNotExposed);
        }
      }
      return None;
    }

    // Both caps, and whether the subscriber can be addressed.
    method RoomFor(key: Key, topic: string, resolvable: bool) returns (refused: Option<Reason>)
      ensures refused == if |OfPeer(State(), key.peerId)| >= MAX_SUBSCRIPTIONS_PER_PEER then Some(SubscriptionCap)
                         else if |OfTopic(State(), topic)| >= MAX_SUBSCRIPTIONS_PER_TOPIC then Some(SubscriptionCap)
                         else if !resolvable then Some(PeerNotResolvable)
                         else None
    {
      hide OfPeer, OfTopic;
      var ofPeer := CountForPeer(key.peerId);
      if ofPeer >= MAX_SUBSCRIPTIONS_PER_PEER {
        return Some(SubscriptionCap);
      }
      var ofTopic := CountForTopic(topic);
      if ofTopic >= MAX_SUBSCRIPTIONS_PER_TOPIC {
        return Some(SubscriptionCap);
      }
      return if resolvable then None else Some(PeerNotResolvable);
    }

    // `handleSubscribe` after the guards.
    method FinishSubscribe(key: Key, topic: string, ttlMs: Option<int>, resolvable: bool, now: int) returns (ack: Ack)
      requires HubOk(State())
      modifies `subscriptions, `places, `nextPlace
      ensures (State(), ack) == Register(old(State()), key, topic, ttlMs, resolvable, now) && HubOk(State())
      ensures Answered(old(State()), key, topic, ttlMs, resolvable, now, State(), ack)
    {
      RegisterKeeps(State(), key, topic, ttlMs, resolvable, now);
      RegisterMeans(State(), key, topic, ttlMs, resolvable, now);
      hide HubOk, Answered, OfPeer, OfTopic, GrantedTtl;
      var refused := RoomFor(key, topic, resolvable);
      if refused.Some? {
        return Rejected(refused.value);
      }
      var ttl := GrantedTtl(ttlMs);
      if key !in subscriptions {
        places, nextPlace := places[key := nextPlace], nextPlace + 1;
      }
      subscriptions := subscriptions[key := Subscription(key, topic, ttl, now + ttl)];
      return Accepted(ttl);
    }

    // `emitLocal` up to its loop; no emission when the topic is not exposed.
    method BeginEmit(topic: string, payload: Payload, now: int) returns (emission: Option<Emission>)
      requires HubOk(State())
      modifies `subscriptions, `places, `sequences, `epochs
      ensures emission == if Exposes(exposed, topic) then Some(Emission(topic, payload, now, exposed)) else None
      ensures State() == (if emission.Some? then Sweep(old(State()), now) else old(State())) && HubOk(State())
    {
      var yes := IsExposed(topic);
      if !yes {
        return None;
      }
      SweepAt(now);
      return Some(Emission(topic, payload, now, exposed));
    }

    // The loop from one await to the next: the subscription whose turn is next, if any is left.
    method NextTurn(e: Emission, cursor: nat) returns (next: Option<Key>)
      requires HubOk(State())
      ensures next.Some? ==> IsNext(State(), e, cursor, next.value)
      ensures next.Some? ==>
                && next.value in subscriptions && next.value in places && places[next.value] >= cursor
                && subscriptions[next.value].expiresAt > e.now && TopicMatches(subscriptions[next.value].topic, e.topic)
      ensures next.None? ==> forall k :: !Ahead(State(), e, cursor, k)
    {
      hide SequencesOk, CapsOk, EpochsRise;
      next := None;
      var rest := subscriptions.Keys;
      while rest != {}
        invariant rest <= subscriptions.Keys
        invariant next.None? ==> forall k :: k in subscriptions.Keys - rest ==> !Ahead(State(), e, cursor, k)
        invariant next.Some? ==> Ahead(State(), e, cursor, next.value) && next.value !in rest
        invariant next.Some? ==> forall k :: k in subscriptions.Keys - rest && Ahead(State(), e, cursor, k) ==>
                                   places[next.value] <= places[k]
        decreases |rest|
      {
        var key :| key in rest;
        rest := rest - {key};
        if places[key] >= cursor && Considers(e, subscriptions[key]) && (next.None? || places[key] < places[next.value]) {
          next := Some(key);
        }
      }
    }

    // One turn of the loop after the guards were awaited.
    method Dispatch(ghost id: nat, e: Emission, s: Subscription, ghost t: Turn, guarded: bool, admitted: bool) returns (handed: bool)
      requires HubOk(State()) && Considers(e, s) && t.s == s
      modifies `sequences, `sent
      ensures HubOk(State()) && (handed <==> guarded && admitted)
      ensures State() == if guarded && admitted then Send(old(State()), selfPeerId, t, id, e) else old(State())
      ensures handed ==>
                && |sent| == |old(sent)| + 1
                && var p := sent[|old(sent)|];
                   && p.key == s.key && p.publisher == selfPeerId && p.topic == e.topic && p.payload == e.payload
                   && p.sequenceNumber == (if s.key in old(sequences) then old(sequences)[s.key] else 0) + 1
                   && sequences == old(sequences)[s.key := p.sequenceNumber]
    {
      hide HubOk, Considers;
      if !guarded || !admitted {
        return false;
      }
      SendKeeps(State(), selfPeerId, t, id, e);
      var n := (if s.key in sequences then sequences[s.key] else 0) + 1;
      sent := sent + [NextPacket(State(), selfPeerId, t, id, e)];
      sequences := sequences[s.key := n];
      return true;
    }

    // `close`
    method Close()
      requires HubOk(State())
      modifies `subscriptions, `places, `sequences, `epochs
      ensures State() == Drop(old(State()), old(subscriptions.Keys + sequences.Keys)) && HubOk(State())
    {
      DropKeeps(State(), subscriptions.Keys + sequences.Keys);
      hide HubOk;
      DropSequence(subscriptions.Keys + sequences.Keys);
      subscriptions, places, sequences := map[], map[], map[];
    }
  }

  // Exactly the subscriptions that are not out of date are left, and the numbers of the others are gone.
  ghost predicate Swept(h: HubState, now: int, v: HubState) {
    && v.subscriptions == (map k | k in h.subscriptions && h.subscriptions[k].expiresAt > now :: h.subscriptions[k])
    && v.sequences == map k | k in h.sequences && (k in h.subscriptions ==> h.subscriptions[k].expiresAt > now) :: h.sequences[k]
  }

  lemma SweepMeans(h: HubState, now: int)
    ensures Swept(h, now, Sweep(h, now))
  {
  }

  // A request is accepted within both caps, for an address that is known, and for the lifetime asked for
  // as far as it is between a millisecond and five minutes, by default a minute.
  ghost predicate Answered(h: HubState, key: Key, topic: string, ttlMs: Option<int>, resolvable: bool, now: int, v: HubState, ack: Ack) {
    var room := |set k | k in h.subscriptions && k.peerId == key.peerId| < 64 &&
                |set k | k in h.subscriptions && h.subscriptions[k].topic == topic| < 128;
    if room && resolvable then
      && ack.Accepted?
      && ack.ttlMs == (if ttlMs.None? then 60_000 else if ttlMs.value < 1 then 1 else if ttlMs.value > 300_000 then 300_000 else ttlMs.value)
      && v.subscriptions == h.subscriptions[key := Subscription(key, topic, ack.ttlMs, now + ack.ttlMs)]
    else v == h && ack == Rejected(if room then PeerNotResolvable else SubscriptionCap)
  }

  lemma RegisterMeans(h: HubState, key: Key, topic: string, ttlMs: Option<int>, resolvable: bool, now: int)
    ensures var (v, ack) := Register(h, key, topic, ttlMs, resolvable, now);
            Answered(h, key, topic, ttlMs, resolvable, now, v, ack)
  {
    assert OfPeer(h, key.peerId) == set k | k in h.subscriptions && k.peerId == key.peerId;
    assert OfTopic(h, topic) == set k | k in h.subscriptions && h.subscriptions[k].topic == topic;
  }

  // The expired subscriptions that a sweep has passed.
  ghost function GoneOf(subscriptions: map<Key, Subscription>, rest: set<Key>, now: int): set<Key> {
    set k | k in subscriptions && k !in rest && subscriptions[k].expiresAt <= now
  }

  lemma GoneStep(subscriptions: map<Key, Subscription>, rest: set<Key>, now: int, key: Key)
    requires key in rest && rest <= subscriptions.Keys
    ensures key !in GoneOf(subscriptions, rest, now)
    ensures GoneOf(subscriptions, rest - {key}, now) ==
            GoneOf(subscriptions, rest, now) + if subscriptions[key].expiresAt <= now then {key} else {}
  {
  }

  lemma GoneEnds(subscriptions: map<Key, Subscription>, now: int)
    ensures GoneOf(subscriptions, subscriptions.Keys, now) == {}
    ensures GoneOf(subscriptions, {}, now) == set k | k in subscriptions && subscriptions[k].expiresAt <= now
  {
  }

  lemma NoneLess<V>(m: map<Key, V>)
    ensures m - {} == m
  {
  }

  lemma OneLess<V>(m: map<Key, V>, dropped: set<Key>, key: Key)
    ensures (m - dropped) - {key} == m - (dropped + {key})
  {
  }
}
