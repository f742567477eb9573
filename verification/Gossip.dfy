/** What one node does with one message: deduplication, advertisements, TTL and the choice of targets. */
module Gossip {
  import opened Common
  import opened TopicRouting

  datatype Action = Join | Leave | Unknown

  datatype Payload = Unparsable | SubAd(topic: Topic, sequenceNumber: int, action: Action)

  datatype Kind = Ordinary | Control(payload: Payload)

  datatype Message = Message(id: Id, kind: Kind, sender: Peer, topic: Topic, ttl: int, routingPath: seq<Peer>)

  const ROUTE_LEASE_MS := 30000

  /** The protocol state of one node. */
  datatype Local = Local(seen: set<Id>, routes: Table)

  /** The state after a message, the message as changed on the way, whom it goes to, and whether
      it is handed to the application. */
  datatype Outcome = Outcome(local: Local, message: Message, targets: set<Peer>, emitted: bool)

  function Set<T>(s: seq<T>): set<T> { set x | x in s }

  function OfOption(p: Option<Peer>): set<Peer> { if p.Some? then {p.value} else {} }

  predicate Scoped(topic: Topic) { topic != "" && topic != "global" }

  /** The peers an ordinary message may be forwarded to. */
  function Eligible(peers: set<Peer>, routes: Table, m: Message, from: Option<Peer>, now: int): set<Peer> {
    (if Scoped(m.topic) then peers * PeersForTopic(routes, m.topic, now) else peers) - {m.sender} - OfOption(from)
  }

  /** A fan-out choice: any `fanout` of the eligible peers, or all of them when there are fewer. */
  ghost predicate FanoutChoice(fanout: nat, eligible: set<Peer>, chosen: set<Peer>) {
    chosen <= eligible && |chosen| == if fanout <= |eligible| then fanout else |eligible|
  }

  /** The eligible peers: connected, neither the sender nor the neighbour the message came from, and, unless the
      topic is empty or "global", next hops of unexpired entries for it. */
  lemma EligibleMeaning(peers: set<Peer>, routes: Table, m: Message, from: Option<Peer>, now: int, p: Peer)
    ensures p in Eligible(peers, routes, m, from, now) <==>
            && p in peers && p != m.sender && from != Some(p)
            && (m.topic == "" || m.topic == "global"
                || exists o :: Lookup(routes, m.topic, o).Some? && Lookup(routes, m.topic, o).value.nextHop == p
                               && Lookup(routes, m.topic, o).value.expiresAt >= now)
  {
    PeersForTopicMeaning(routes, m.topic, now, p);
  }

  /** A choice takes eligible peers only, no more than the fan-out, and all of them if there are fewer. */
  lemma ChoiceMeaning(fanout: nat, eligible: set<Peer>, chosen: set<Peer>)
    ensures FanoutChoice(fanout, eligible, chosen) <==>
            chosen <= eligible && |chosen| <= fanout && (|chosen| < fanout ==> chosen == eligible)
  {
    if FanoutChoice(fanout, eligible, chosen) && |chosen| < fanout { SubsetOfSameSize(chosen, eligible); }
    if chosen <= eligible { SubsetSize(chosen, eligible); }
  }

  lemma {:induction false} PickFanout(fanout: nat, eligible: set<Peer>) returns (chosen: set<Peer>)
    ensures FanoutChoice(fanout, eligible, chosen)
    decreases |eligible|
  {
    if |eligible| <= fanout {
      chosen := eligible;
    } else {
      var p :| p in eligible;
      chosen := PickFanout(fanout, eligible - {p});
    }
  }

  function AdTargets(self: Peer, peers: set<Peer>, m: Message, from: Option<Peer>): set<Peer> {
    peers - Set(m.routingPath + [self]) - OfOption(from) - {m.sender}
  }

  function AdOffer(self: Peer, m: Message, from: Option<Peer>, now: int): Offer
    requires m.kind.Control? && m.kind.payload.SubAd?
  {
    Offer(m.kind.payload.topic, m.sender,
          Route(if from.Some? then from.value else self, |m.routingPath|, m.kind.payload.sequenceNumber,
                m.routingPath, now + ROUTE_LEASE_MS))
  }

  /** The effect of an advertisement on the table, and whether it changed anything. */
  function Advertised(self: Peer, t: Table, m: Message, from: Option<Peer>, now: int): (Table, bool)
    requires m.kind.Control? && m.kind.payload.SubAd?
  {
    var ad := m.kind.payload;
    match ad.action
    case Join =>
      var offer := AdOffer(self, m, from, now);
      (Accept(t, offer), Installs(Lookup(t, ad.topic, m.sender), offer.route))
    case Leave => (Without(t, ad.topic, m.sender), Lookup(t, ad.topic, m.sender).Some?)
    case Unknown => (t, false)
  }

  /** `chosen` is the fan-out choice, used only when an ordinary message is forwarded. */
  function Receive(self: Peer, peers: set<Peer>, l: Local, m: Message, from: Option<Peer>, now: int,
                   chosen: set<Peer>): Outcome
  {
    var l1 := l.(seen := l.seen + {m.id});
    if m.id in l.seen then Outcome(l, m, {}, false)
    else if m.kind.Ordinary? then
      Outcome(l1, m.(ttl := m.ttl - 1), if m.ttl - 1 > 0 then chosen else {}, true)
    else if m.kind.payload.Unparsable? || self in m.routingPath then Outcome(l1, m, {}, false)
    else
      var (routes, changed) := Advertised(self, l.routes, m, from, now);
      var l2 := l1.(routes := routes);
      if changed && m.ttl > 1 then
        Outcome(l2, m.(ttl := m.ttl - 1, routingPath := m.routingPath + [self]), AdTargets(self, peers, m, from), true)
      else Outcome(l2, m, {}, true)
  }
}
