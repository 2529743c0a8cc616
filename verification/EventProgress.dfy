/** What does happen in a run of hub and subscriber: nobody is left out, and fresh frames are handled. */
module EventProgress {
  import T = Text
  import opened EventTopics
  import opened EventHub
  import opened EventAdapter
  import opened EventDelivery

  // A subscription has this place in the traversal, is not out of date, and is for the topic that
  // the fan-out carries.
  ghost predicate Eligible(v: World, id: nat, key: Key, place: nat) {
    && id < |v.emissions| && id < |v.fanouts|
    && key in v.hub.subscriptions && key in v.hub.places && v.hub.places[key] == place
    && v.hub.subscriptions[key].expiresAt > v.emissions[id].now
    && TopicMatches(v.hub.subscriptions[key].topic, v.emissions[id].topic)
  }

  // The fan-out has not come to this place.
  ghost predicate Before(v: World, id: nat, place: nat) {
    id < |v.fanouts| && !v.fanouts[id].ended && v.fanouts[id].cursor <= place
  }

  lemma OtherFirst(h: HubState, e: Emission, cursor: nat, key: Key, other: Key)
    requires PlacesOk(h) && Ahead(h, e, cursor, key) && IsNext(h, e, cursor, other) && other != key
    ensures h.places[other] < h.places[key]
  {
    hide Considers;
  }

  // A turn of another subscription does not pass this one.
  lemma TurnPasses(v: World, id: nat, other: Key, u: World, key: Key, place: nat)
    requires PlacesOk(v.hub) && Eligible(v, id, key, place) && Before(v, id, place)
    requires Do(v, EmitTurn(id, other)) == T.Some(u) && other != key
    ensures Before(u, id, place)
  {
    hide PlacesOk, TopicMatches, IsNext;
    assert Ahead(v.hub, v.emissions[id], v.fanouts[id].cursor, key);
    OtherFirst(v.hub, v.emissions[id], v.fanouts[id].cursor, key, other);
  }

  lemma EndsLate(v: World, id: nat, u: World, key: Key, place: nat)
    requires Eligible(v, id, key, place) && Before(v, id, place)
    ensures Do(v, EmitEnd(id)).None?
  {
    hide TopicMatches;
    assert Ahead(v.hub, v.emissions[id], v.fanouts[id].cursor, key);
  }

  // No other step moves the fan-out on.
  lemma StepPasses(v: World, a: Action, u: World, id: nat, key: Key, place: nat)
    requires PlacesOk(v.hub) && Eligible(v, id, key, place) && Before(v, id, place)
    requires Do(v, a) == T.Some(u) && a != EmitTurn(id, key)
    ensures Before(u, id, place)
  {
    if a.EmitTurn? && a.emission == id {
      hide Do, Eligible, Before, PlacesOk;
      TurnPasses(v, id, a.key, u, key, place);
    } else if a == EmitEnd(id) {
      hide Do, Eligible, Before, PlacesOk;
      EndsLate(v, id, u, key, place);
    } else {
      hide PlacesOk, Eligible, IsNext, Ahead, TurnOf, Sweep, Drop, Register, Unsubscribe, Send, Exposes, Received;
    }
  }

  lemma Prefixes(w: World, actions: seq<Action>, n: nat)
    requires n <= |actions| && Run(w, actions).Some?
    ensures Run(w, actions[..n]).Some?
  {
    hide Do;
    if n < |actions| {
      assert actions[..|actions| - 1][..n] == actions[..n];
      Prefixes(w, actions[..|actions| - 1], n);
    } else {
      assert actions[..n] == actions;
    }
  }

  // The state after this many actions.
  ghost function After(w: World, actions: seq<Action>, n: nat): World
    requires n <= |actions| && Run(w, actions).Some?
  {
    Prefixes(w, actions, n);
    Run(w, actions[..n]).value
  }

  lemma AfterNext(w: World, actions: seq<Action>, n: nat)
    requires n < |actions| && Run(w, actions).Some?
    ensures Do(After(w, actions, n), actions[n]) == T.Some(After(w, actions, n + 1))
  {
    hide Do;
    Prefixes(w, actions, n + 1);
    assert actions[..n + 1][..n] == actions[..n];
  }

  lemma PlacesAfter(w: World, actions: seq<Action>, n: nat)
    requires Initial(w) && n <= |actions| && Run(w, actions).Some?
    ensures PlacesOk(After(w, actions, n).hub)
  {
    Prefixes(w, actions, n);
    hide Run, Initial, EmissionsOk, FramesOk, Delivering, EventsOk, TurnsOk, FansOk, MomentsOk, SequencesOk, CapsOk, PlacesOk, EpochsRise;
    RunKeeps(w, actions[..n]);
  }

  lemma {:induction false} TurnOrBefore(w: World, actions: seq<Action>, from: nat, n: nat, id: nat, key: Key, place: nat)
    requires Initial(w) && Run(w, actions).Some? && from <= n <= |actions|
    requires forall i :: from <= i < n ==> Eligible(After(w, actions, i), id, key, place)
    requires Before(After(w, actions, from), id, place)
    ensures Before(After(w, actions, n), id, place) || exists i :: from <= i < n && actions[i] == EmitTurn(id, key)
  {
    hide Run, Do, Initial, Eligible, Before, PlacesOk, After;
    if from < n {
      TurnOrBefore(w, actions, from, n - 1, id, key, place);
      if actions[n - 1] != EmitTurn(id, key) && Before(After(w, actions, n - 1), id, place) {
        AfterNext(w, actions, n - 1);
        PlacesAfter(w, actions, n - 1);
        StepPasses(After(w, actions, n - 1), actions[n - 1], After(w, actions, n), id, key, place);
      }
    }
  }

  // In every run, a subscription that is there, in date and matching from before the fan-out has come
  // to it until the fan-out is over has had its turn: no traversal leaves anybody out, whatever comes
  // and goes meanwhile.
  lemma NobodyIsSkipped(w: World, actions: seq<Action>, from: nat, id: nat, key: Key, place: nat)
    requires Initial(w) && Run(w, actions).Some? && from <= |actions|
    requires forall i :: from <= i < |actions| ==> Eligible(After(w, actions, i), id, key, place)
    requires Before(After(w, actions, from), id, place)
    requires id < |Run(w, actions).value.fanouts| && Run(w, actions).value.fanouts[id].ended
    ensures exists i :: from <= i < |actions| && actions[i] == EmitTurn(id, key)
  {
    TurnOrBefore(w, actions, from, |actions|, id, key, place);
    assert actions[..|actions|] == actions;
    hide Run, Do, Initial, Eligible;
  }

  lemma FrameIsOk(w: World, actions: seq<Action>, n: nat)
    requires Initial(w) && Run(w, actions).Some? && n < |Run(w, actions).value.hub.sent|
    ensures FrameOk(Run(w, actions).value, Run(w, actions).value.hub.sent[n])
  {
    hide Run, Initial, EmissionsOk, FrameOk, HubOk, Delivering, EventsOk, TurnsOk, FansOk, MomentsOk;
    RunKeeps(w, actions);
  }

  // In every run, a frame of the hub for a subscription of ours that matches it is handled when it
  // arrives before any frame of a greater number: the handler gets its topic, number and payload, this
  // subscription goes on from its number, and all others stay as they are.
  lemma FreshIsHandled(w: World, actions: seq<Action>, n: nat)
    requires Initial(w) && Run(w, actions).Some?
    requires var v := Run(w, actions).value;
             && n < |v.hub.sent| && v.hub.sent[n].key.peerId == v.myId
             && v.hub.sent[n].key.subscriptionId in v.me.subscriptions
             && var s := v.me.subscriptions[v.hub.sent[n].key.subscriptionId];
                s.peerId == v.hubId && TopicMatches(s.topic, v.hub.sent[n].topic) && s.lastSequenceNumber < v.hub.sent[n].sequenceNumber
    ensures var v := Run(w, actions).value;
            var p, i := v.hub.sent[n], v.hub.sent[n].key.subscriptionId;
            && Do(v, Deliver(n, true)).Some?
            && var u := Do(v, Deliver(n, true)).value;
               && u.me.delivered == v.me.delivered + [Event(v.hubId, i, p.topic, p.sequenceNumber, p.payload)]
               && u.me.subscriptions == v.me.subscriptions[i := Remote(v.hubId, v.me.subscriptions[i].topic, p.sequenceNumber)]
               && u.hub == v.hub && u.source == v.source + [T.Some(n)]
  {
    FrameIsOk(w, actions, n);
    hide Run, Initial, TopicMatches;
  }
}
