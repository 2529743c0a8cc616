/** The receiving side: subscriptions of ours at remote peers, and the filters of inbound events. */
module EventAdapter {
  import opened Text
  import opened EventTopics

  type Payload = string

  datatype Remote = Remote(peerId: string, topic: string, lastSequenceNumber: int)

  // An inbound `event_emit`, with the verified identity of the peer it came from.
  datatype Message = Message(
    from: string, publisher: string, subscriptionId: string, topic: string, sequenceNumber: int, payload: Payload)

  // What the handler of a subscription is called with.
  datatype Event = Event(peerId: string, subscriptionId: string, topic: string, sequenceNumber: int, payload: Payload)

  // `used` are the ids drawn so far; they are random and taken to be distinct.
  datatype AdapterState = AdapterState(subscriptions: map<string, Remote>, used: set<string>, delivered: seq<Event>)

  function EventOf(m: Message): Event {
    Event(m.from, m.subscriptionId, m.topic, m.sequenceNumber, m.payload)
  }

  // The filters before the telemetry gate.
  predicate Passes(a: AdapterState, m: Message) {
    && m.publisher == m.from
    && m.subscriptionId in a.subscriptions
    && a.subscriptions[m.subscriptionId].peerId == m.from
    && TopicMatches(a.subscriptions[m.subscriptionId].topic, m.topic)
    && m.sequenceNumber > a.subscriptions[m.subscriptionId].lastSequenceNumber
  }

  // `handleInboundEvent`; `admitted` is the verdict of sizing and the telemetry gate.
  function Inbound(a: AdapterState, m: Message, admitted: bool): AdapterState {
    if !Passes(a, m) || !admitted then a
    else
      var next := a.subscriptions[m.subscriptionId].(lastSequenceNumber := m.sequenceNumber);
      a.(subscriptions := a.subscriptions[m.subscriptionId := next], delivered := a.delivered + [EventOf(m)])
  }

  // An accepted `subscribeRemote` under a new id.
  function Subscribed(a: AdapterState, id: string, peerId: string, topic: string): AdapterState {
    AdapterState(a.subscriptions[id := Remote(peerId, topic, 0)], a.used + {id}, a.delivered)
  }

  // `teardown`
  function TornDown(a: AdapterState, id: string): AdapterState {
    a.(subscriptions := a.subscriptions - {id})
  }

  // ----- Order of delivery -----

  // Events of one subscription carry increasing numbers, are of its peer and match its topic.
  ghost predicate Delivering(a: AdapterState) {
    && a.subscriptions.Keys <= a.used
    && (forall i :: 0 <= i < |a.delivered| ==> a.delivered[i].subscriptionId in a.used)
    && (forall i, j :: 0 <= i < j < |a.delivered| && a.delivered[i].subscriptionId == a.delivered[j].subscriptionId ==>
          && a.delivered[i].sequenceNumber < a.delivered[j].sequenceNumber
          && a.delivered[i].peerId == a.delivered[j].peerId)
    && (forall i :: 0 <= i < |a.delivered| && a.delivered[i].subscriptionId in a.subscriptions ==>
          var e, s := a.delivered[i], a.subscriptions[a.delivered[i].subscriptionId];
          e.sequenceNumber <= s.lastSequenceNumber && e.peerId == s.peerId && TopicMatches(s.topic, e.topic))
  }

  lemma InboundKeeps(a: AdapterState, m: Message, admitted: bool)
    requires Delivering(a)
    ensures Delivering(Inbound(a, m, admitted))
  {
    hide TopicMatches;
  }

  lemma SubscribedKeeps(a: AdapterState, id: string, peerId: string, topic: string)
    requires Delivering(a) && id !in a.used
    ensures Delivering(Subscribed(a, id, peerId, topic))
  {
    hide TopicMatches;
  }

  lemma TornDownKeeps(a: AdapterState, id: string)
    requires Delivering(a)
    ensures Delivering(TornDown(a, id))
  {
    hide TopicMatches;
  }

  class RemoteEventAdapter {
    var subscriptions: map<string, Remote>
    ghost var used: set<string>
    ghost var delivered: seq<Event>

    ghost function State(): AdapterState
      reads this
    {
      AdapterState(subscriptions, used, delivered)
    }

    constructor ()
      ensures State() == AdapterState(map[], {}, []) && Delivering(State())
    {
      subscriptions, used, delivered := map[], {}, [];
    }

    // `subscribeRemote` once the acknowledgement is in.
    method SubscribeRemote(id: string, peerId: string, topic: string)
      requires Delivering(State()) && id !in used
      modifies this
      ensures State() == Subscribed(old(State()), id, peerId, topic) && Delivering(State())
      ensures subscriptions == old(subscriptions)[id := Remote(peerId, topic, 0)] && delivered == old(delivered)
    {
      SubscribedKeeps(State(), id, peerId, topic);
      subscriptions := subscriptions[id := Remote(peerId, topic, 0)];
      used := used + {id};
    }

    // `unsubscribeRemote`, and a refresh that was refused.
    method Teardown(id: string)
      requires Delivering(State())
      modifies `subscriptions
      ensures State() == TornDown(old(State()), id) && Delivering(State())
      ensures subscriptions == old(subscriptions) - {id}
    {
      TornDownKeeps(State(), id);
      subscriptions := subscriptions - {id};
    }

    // `handleInboundEvent`; returns the event the handler is called with.
    method HandleInboundEvent(m: Message, admitted: bool) returns (handled: Option<Event>)
      requires Delivering(State())
      modifies this
      ensures State() == Inbound(old(State()), m, admitted) && Delivering(State())
      ensures handled.Some? <==>
              && admitted && m.publisher == m.from && m.subscriptionId in old(subscriptions)
              && var s := old(subscriptions)[m.subscriptionId];
                 s.peerId == m.from && TopicMatches(s.topic, m.topic) && s.lastSequenceNumber < m.sequenceNumber
      ensures if handled.None? then subscriptions == old(subscriptions) && delivered == old(delivered)
              else
                && handled.value == Event(m.from, m.subscriptionId, m.topic, m.sequenceNumber, m.payload)
                && delivered == old(delivered) + [handled.value]
                && subscriptions == old(subscriptions)[m.subscriptionId := Remote(m.from, old(subscriptions)[m.subscriptionId].topic, m.sequenceNumber)]
    {
      InboundKeeps(State(), m, admitted);
      if m.publisher != m.from {
        return None;
      }
      if m.subscriptionId !in subscriptions || subscriptions[m.subscriptionId].peerId != m.from {
        return None;
      }
      var subscription := subscriptions[m.subscriptionId];
      if !TopicMatches(subscription.topic, m.topic) {
        return None;
      }
      if m.sequenceNumber <= subscription.lastSequenceNumber {
        return None;
      }
      if !admitted {
        return None;
      }
      subscriptions := subscriptions[m.subscriptionId := subscription.(lastSequenceNumber := m.sequenceNumber)];
      delivered := delivered + [EventOf(m)];
      return Some(EventOf(m));
    }
  }
}
