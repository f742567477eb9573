/** The soft-state distance-vector table of one node: topic -> origin -> route. */
module TopicRouting {
  import opened Common

  datatype Route = Route(nextHop: Peer, hopCount: nat, sequenceNumber: int, path: seq<Peer>, expiresAt: int)

  type Table = map<Topic, map<Peer, Route>>

  datatype Offer = Offer(topic: Topic, origin: Peer, route: Route)

  // ---- The table as a value ----

  function Lookup(t: Table, topic: Topic, origin: Peer): Option<Route> {
    if topic in t && origin in t[topic] then Some(t[topic][origin]) else None
  }

  function Put(t: Table, topic: Topic, origin: Peer, r: Route): Table {
    t[topic := (if topic in t then t[topic] else map[])[origin := r]]
  }

  /** Higher sequence number first, then fewer hops. */
  predicate Better(seq1: int, hop1: int, seq2: int, hop2: int) {
    seq1 > seq2 || (seq1 == seq2 && hop1 < hop2)
  }

  predicate Supersedes(offer: Route, held: Route) {
    Better(offer.sequenceNumber, offer.hopCount, held.sequenceNumber, held.hopCount)
  }

  predicate Installs(existing: Option<Route>, offer: Route) {
    existing.None? || Supersedes(offer, existing.value)
  }

  function Max(a: int, b: int): int { if a >= b then a else b }

  /** What one offer makes of the entry it addresses. */
  function Merge(existing: Option<Route>, offer: Route): Route {
    if Installs(existing, offer) then offer
    else
      var r := existing.value;
      if offer.sequenceNumber == r.sequenceNumber && offer.nextHop == r.nextHop
      then r.(expiresAt := Max(r.expiresAt, offer.expiresAt))
      else r
  }

  function Accept(t: Table, o: Offer): Table {
    Put(t, o.topic, o.origin, Merge(Lookup(t, o.topic, o.origin), o.route))
  }

  type Keep = (Topic, Peer, Route) -> bool

  function OtherThan(topic: Topic, origin: Peer): Keep { (tp: Topic, o: Peer, r: Route) => tp != topic || o != origin }

  function LiveAt(now: int): Keep { (tp: Topic, o: Peer, r: Route) => now <= r.expiresAt }

  function AwayFrom(peer: Peer): Keep { (tp: Topic, o: Peer, r: Route) => r.nextHop != peer && o != peer }

  function Without(t: Table, topic: Topic, origin: Peer): Table {
    Retain(t, OtherThan(topic, origin))
  }

  /** The table restricted to the entries that `keep` accepts; topics left with no entry disappear. */
  function Retain(t: Table, keep: Keep): Table {
    map topic | topic in t && (exists o :: o in t[topic] && keep(topic, o, t[topic][o])) ::
      Kept(t[topic], topic, keep)
  }

  function Kept(m: map<Peer, Route>, topic: Topic, keep: Keep): map<Peer, Route> {
    map o | o in m && keep(topic, o, m[o]) :: m[o]
  }

  function PeersForTopic(t: Table, topic: Topic, now: int): set<Peer> {
    if topic in t then set o | o in t[topic] && now <= t[topic][o].expiresAt :: t[topic][o].nextHop else {}
  }

  /** No operation of the router leaves a topic without entries. */
  ghost predicate NoEmptyTopic(t: Table) {
    forall topic :: topic in t ==> t[topic] != map[]
  }

  // ---- Laws of single operations ----

  lemma LookupAccept(t: Table, o: Offer, topic: Topic, origin: Peer)
    ensures Lookup(Accept(t, o), topic, origin) ==
            if topic == o.topic && origin == o.origin
            then Some(Merge(Lookup(t, topic, origin), o.route)) else Lookup(t, topic, origin)
  {
  }

  /** The entry after an offer: the offered route if there was none, or if its sequence number is higher, or equal
      with fewer hops; otherwise the old one, prolonged by a later lease through the same next hop. */
  lemma AcceptMeaning(t: Table, o: Offer)
    ensures var was, r := Lookup(t, o.topic, o.origin), o.route;
            var updated := was.None? || r.sequenceNumber > was.value.sequenceNumber
                           || (r.sequenceNumber == was.value.sequenceNumber && r.hopCount < was.value.hopCount);
            && Installs(was, r) == updated
            && Lookup(Accept(t, o), o.topic, o.origin) ==
               Some(if updated then r
                    else if r.sequenceNumber == was.value.sequenceNumber && r.nextHop == was.value.nextHop && r.expiresAt > was.value.expiresAt
                    then was.value.(expiresAt := r.expiresAt) else was.value)
    ensures forall tp, origin :: tp != o.topic || origin != o.origin ==> Lookup(Accept(t, o), tp, origin) == Lookup(t, tp, origin)
  {
  }

  lemma LookupRetain(t: Table, keep: Keep, topic: Topic, origin: Peer)
    ensures Lookup(Retain(t, keep), topic, origin) ==
            var r := Lookup(t, topic, origin);
            if r.Some? && keep(topic, origin, r.value) then r else None
  {
  }

  lemma AcceptKeepsNoEmptyTopic(t: Table, o: Offer)
    requires NoEmptyTopic(t)
    ensures NoEmptyTopic(Accept(t, o))
  {
    forall topic | topic in Accept(t, o) ensures Accept(t, o)[topic] != map[] {
      if topic == o.topic { assert o.origin in Accept(t, o)[topic]; }
    }
  }

  lemma RetainNoEmptyTopic(t: Table, keep: Keep)
    ensures NoEmptyTopic(Retain(t, keep))
  {
    forall topic | topic in Retain(t, keep) ensures Retain(t, keep)[topic] != map[] {
      var p :| p in t[topic] && keep(topic, p, t[topic][p]);
      assert p in Retain(t, keep)[topic];
    }
  }

  lemma PeersForTopicMeaning(t: Table, topic: Topic, now: int, p: Peer)
    ensures p in PeersForTopic(t, topic, now) <==>
            exists o :: Lookup(t, topic, o).Some? && now <= Lookup(t, topic, o).value.expiresAt
                        && Lookup(t, topic, o).value.nextHop == p
  {
    if p in PeersForTopic(t, topic, now) {
      var o :| o in t[topic] && now <= t[topic][o].expiresAt && t[topic][o].nextHop == p;
      assert Lookup(t, topic, o).Some?;
    }
  }

  // ---- Confluence of offers ----

  function AcceptAll(t: Table, offers: seq<Offer>): Table {
    if offers == [] then t
    else Accept(AcceptAll(t, offers[..|offers| - 1]), offers[|offers| - 1])
  }

  predicate For(o: Offer, topic: Topic, origin: Peer) {
    o.topic == topic && o.origin == origin
  }

  /** Offer `i` is the earliest of the best offers for (topic, origin): no later one has a higher sequence
      number, or the same one and fewer hops, and every earlier one has a lower number, or the same one and
      more hops. */
  ghost predicate FirstBest(offers: seq<Offer>, topic: Topic, origin: Peer, i: int) {
    && 0 <= i < |offers| && For(offers[i], topic, origin)
    && var best := offers[i].route;
    && (forall j :: i <= j < |offers| && For(offers[j], topic, origin) ==>
          offers[j].route.sequenceNumber < best.sequenceNumber
          || (offers[j].route.sequenceNumber == best.sequenceNumber && offers[j].route.hopCount >= best.hopCount))
    && (forall j :: 0 <= j < i && For(offers[j], topic, origin) ==>
          offers[j].route.sequenceNumber < best.sequenceNumber
          || (offers[j].route.sequenceNumber == best.sequenceNumber && offers[j].route.hopCount > best.hopCount))
  }

  /** Offer `j` starts or renews the lease of the route that offer `i` brought. */
  ghost predicate Renews(offers: seq<Offer>, i: int, j: int) {
    && 0 <= i <= j < |offers| && For(offers[j], offers[i].topic, offers[i].origin)
    && offers[j].route.sequenceNumber == offers[i].route.sequenceNumber
    && offers[j].route.nextHop == offers[i].route.nextHop
  }

  /** `r` is the route of offer `i`, the first best one, with the latest lease of its renewals. */
  ghost predicate StoredFrom(offers: seq<Offer>, topic: Topic, origin: Peer, i: int, r: Route) {
    && FirstBest(offers, topic, origin, i)
    && r == offers[i].route.(expiresAt := r.expiresAt)
    && (exists j :: Renews(offers, i, j) && offers[j].route.expiresAt == r.expiresAt)
    && (forall j :: Renews(offers, i, j) ==> offers[j].route.expiresAt <= r.expiresAt)
  }

  ghost predicate NoneFor(offers: seq<Offer>, topic: Topic, origin: Peer) {
    forall i :: 0 <= i < |offers| ==> !For(offers[i], topic, origin)
  }

  /** Any sequence of offers stores, per (topic, origin), the lexicographic best ever offered. The
      route is that of the first offer that attains it, and its lease is the latest among that
      offer and the later offers of the same sequence number through the same next hop. */
  lemma {:induction false} RouteTableConfluence(offers: seq<Offer>, topic: Topic, origin: Peer)
    ensures match Lookup(AcceptAll(map[], offers), topic, origin)
            case None => NoneFor(offers, topic, origin)
            case Some(r) => exists i :: StoredFrom(offers, topic, origin, i, r)
  {
    if offers != [] {
      var n := |offers| - 1;
      var prev, last := offers[..n], offers[n];
      RouteTableConfluence(prev, topic, origin);
      var before := Lookup(AcceptAll(map[], prev), topic, origin);
      LookupAccept(AcceptAll(map[], prev), last, topic, origin);
      assert AcceptAll(map[], offers) == Accept(AcceptAll(map[], prev), last);
      assert forall k :: 0 <= k < n ==> prev[k] == offers[k];
      if For(last, topic, origin) && Installs(before, last.route) {
        LastOfferWins(offers, before, topic, origin);
      } else if before.Some? {
        var i :| StoredFrom(prev, topic, origin, i, before.value);
        EarlierOfferStays(offers, i, before.value, topic, origin);
        assert StoredFrom(offers, topic, origin, i, Lookup(AcceptAll(map[], offers), topic, origin).value);
      }
    }
  }

  lemma LastOfferWins(offers: seq<Offer>, before: Option<Route>, topic: Topic, origin: Peer)
    requires |offers| > 0
    requires var last := offers[|offers| - 1]; For(last, topic, origin) && Installs(before, last.route)
    requires var prev := offers[..|offers| - 1];
             match before
             case None => NoneFor(prev, topic, origin)
             case Some(r) => exists i :: StoredFrom(prev, topic, origin, i, r)
    ensures StoredFrom(offers, topic, origin, |offers| - 1, offers[|offers| - 1].route)
  {
    var n := |offers| - 1;
    var prev := offers[..n];
    assert forall k :: 0 <= k < n ==> prev[k] == offers[k];
    if before.Some? {
      var i :| StoredFrom(prev, topic, origin, i, before.value);
    }
    assert Renews(offers, n, n);
  }

  lemma EarlierOfferStays(offers: seq<Offer>, i: int, before: Route, topic: Topic, origin: Peer)
    requires |offers| > 0 && StoredFrom(offers[..|offers| - 1], topic, origin, i, before)
    requires var last := offers[|offers| - 1]; For(last, topic, origin) ==> !Supersedes(last.route, before)
    ensures var last := offers[|offers| - 1];
            StoredFrom(offers, topic, origin, i,
                       if For(last, topic, origin) then Merge(Some(before), last.route) else before)
  {
    var n := |offers| - 1;
    var prev := offers[..n];
    assert forall k :: 0 <= k < n ==> prev[k] == offers[k];
    var j :| Renews(prev, i, j) && prev[j].route.expiresAt == before.expiresAt;
    assert Renews(offers, i, j);
    assert forall k :: Renews(offers, i, k) && k < n ==> Renews(prev, i, k);
  }

  lemma NoneForSubset(xs: seq<Offer>, ys: seq<Offer>, topic: Topic, origin: Peer)
    requires forall o :: o in xs ==> o in ys
    ensures NoneFor(ys, topic, origin) ==> NoneFor(xs, topic, origin)
  {
    forall i | 0 <= i < |xs| ensures exists j :: 0 <= j < |ys| && ys[j] == xs[i] {
      assert xs[i] in ys;
    }
  }

  /** The stored rank does not depend on the order in which the same offers arrive. */
  lemma OrderOfOffersIrrelevant(xs: seq<Offer>, ys: seq<Offer>, topic: Topic, origin: Peer)
    requires forall o :: o in xs <==> o in ys
    ensures var a, b := Lookup(AcceptAll(map[], xs), topic, origin), Lookup(AcceptAll(map[], ys), topic, origin);
            && a.Some? == b.Some?
            && (a.Some? ==> a.value.sequenceNumber == b.value.sequenceNumber && a.value.hopCount == b.value.hopCount)
  {
    RouteTableConfluence(xs, topic, origin);
    RouteTableConfluence(ys, topic, origin);
    NoneForSubset(xs, ys, topic, origin);
    NoneForSubset(ys, xs, topic, origin);
    var a, b := Lookup(AcceptAll(map[], xs), topic, origin), Lookup(AcceptAll(map[], ys), topic, origin);
    if a.Some? && b.Some? {
      var i :| StoredFrom(xs, topic, origin, i, a.value);
      var j :| StoredFrom(ys, topic, origin, j, b.value);
      assert xs[i] in ys && ys[j] in xs;
    }
  }

  // ---- Collection ----

  function Collected(t: Table, now: int): Table {
    Retain(t, LiveAt(now))
  }

  function Cleared(t: Table, peer: Peer): Table {
    Retain(t, AwayFrom(peer))
  }

  /** Collecting at `now` cannot be observed by any lookup made at `now` or later. */
  lemma CollectionInvisible(t: Table, topic: Topic, now: int, later: int)
    requires now <= later
    ensures PeersForTopic(Collected(t, now), topic, later) == PeersForTopic(t, topic, later)
  {
    var c := Collected(t, now);
    forall p ensures p in PeersForTopic(c, topic, later) <==> p in PeersForTopic(t, topic, later) {
      PeersForTopicMeaning(t, topic, later, p);
      PeersForTopicMeaning(c, topic, later, p);
      forall o ensures Lookup(c, topic, o) ==
                       var r := Lookup(t, topic, o); if r.Some? && now <= r.value.expiresAt then r else None {
        LookupRetain(t, LiveAt(now), topic, o);
      }
    }
  }

  /** Collecting leaves exactly the routes whose lease is not over. */
  lemma CollectedExactly(t: Table, now: int, topic: Topic, origin: Peer)
    ensures var r := Lookup(t, topic, origin);
            Lookup(Collected(t, now), topic, origin) == if r.Some? && r.value.expiresAt >= now then r else None
    ensures NoEmptyTopic(Collected(t, now))
  {
    LookupRetain(t, LiveAt(now), topic, origin);
    RetainNoEmptyTopic(t, LiveAt(now));
  }

  /** Removing the route of one origin to one topic leaves every other entry, also those of the same topic and
      those of the same origin, as it was. */
  lemma RemovedExactly(t: Table, topic: Topic, origin: Peer, tp: Topic, o: Peer)
    ensures Lookup(Without(t, topic, origin), tp, o) == if tp == topic && o == origin then None else Lookup(t, tp, o)
    ensures NoEmptyTopic(Without(t, topic, origin))
  {
    LookupRetain(t, OtherThan(topic, origin), tp, o);
    RetainNoEmptyTopic(t, OtherThan(topic, origin));
  }

  /** After clearing, exactly the routes that neither pass through nor start at the peer are left. */
  lemma ClearedExactly(t: Table, peer: Peer, topic: Topic, origin: Peer)
    ensures var r := Lookup(t, topic, origin);
            Lookup(Cleared(t, peer), topic, origin) ==
            if r.Some? && r.value.nextHop != peer && origin != peer then r else None
    ensures NoEmptyTopic(Cleared(t, peer))
    ensures forall tp, now :: peer !in PeersForTopic(Cleared(t, peer), tp, now)
  {
    LookupRetain(t, AwayFrom(peer), topic, origin);
    RetainNoEmptyTopic(t, AwayFrom(peer));
    forall tp, now ensures peer !in PeersForTopic(Cleared(t, peer), tp, now) {
      PeersForTopicMeaning(Cleared(t, peer), tp, now, peer);
      forall o ensures Lookup(Cleared(t, peer), tp, o).Some? ==> Lookup(Cleared(t, peer), tp, o).value.nextHop != peer {
        LookupRetain(t, AwayFrom(peer), tp, o);
      }
    }
  }

  function TopicsOf(t: Table, peer: Peer): set<Topic> {
    {"global", "dm:" + peer} + set topic | topic in t && peer in t[topic]
  }

  /** The topics of a peer are the two that every peer has and those with a route to it, live or not; so once an
      offer of the peer for a topic was accepted, the topic is one of them, until the route is deleted. */
  lemma TopicsOfMeaning(t: Table, peer: Peer, topic: Topic)
    ensures topic in TopicsOf(t, peer) <==> topic == "global" || topic == "dm:" + peer || Lookup(t, topic, peer).Some?
    ensures forall r :: topic in TopicsOf(Accept(t, Offer(topic, peer, r)), peer)
    ensures forall offers :: (exists i :: 0 <= i < |offers| && For(offers[i], topic, peer)) ==> topic in TopicsOf(AcceptAll(t, offers), peer)
  {
    forall offers | exists i :: 0 <= i < |offers| && For(offers[i], topic, peer) ensures topic in TopicsOf(AcceptAll(t, offers), peer) {
      var i :| 0 <= i < |offers| && For(offers[i], topic, peer);
      OfferedIsHeld(t, offers, i);
    }
  }

  lemma {:induction false} OfferedIsHeld(t: Table, offers: seq<Offer>, i: nat)
    requires i < |offers|
    ensures Lookup(AcceptAll(t, offers), offers[i].topic, offers[i].origin).Some?
  {
    if i < |offers| - 1 { OfferedIsHeld(t, offers[..|offers| - 1], i); }
  }

  // ---- The router object ----

  /** Where a sweep stands for one topic: still to do, or reduced to the entries that `keep` accepts. */
  ghost predicate Swept(was: Table, cur: Table, todo: set<Topic>, topic: Topic, keep: Keep) {
    if topic in todo then topic in was && topic in cur && cur[topic] == was[topic]
    else
      && (topic in cur <==> topic in was && Kept(was[topic], topic, keep) != map[])
      && (topic in cur ==> cur[topic] == Kept(was[topic], topic, keep))
  }

  lemma KeptNonempty(m: map<Peer, Route>, topic: Topic, keep: Keep)
    ensures Kept(m, topic, keep) != map[] <==> exists o :: o in m && keep(topic, o, m[o])
  {
    forall o | o in m && keep(topic, o, m[o]) ensures Kept(m, topic, keep) != map[] {
      assert o in Kept(m, topic, keep);
    }
    if Kept(m, topic, keep) != map[] {
      var o :| o in Kept(m, topic, keep);
    }
  }

  lemma SweepOne(was: Table, cur: Table, todo: set<Topic>, topic: Topic, keep: Keep)
    requires topic in todo && topic in was
    requires forall tp :: Swept(was, cur, todo, tp, keep)
    ensures var kept := Kept(was[topic], topic, keep);
            var next := if |kept| == 0 then cur - {topic} else cur[topic := kept];
            forall tp :: Swept(was, next, todo - {topic}, tp, keep)
  {
    var kept := Kept(was[topic], topic, keep);
    var next := if |kept| == 0 then cur - {topic} else cur[topic := kept];
    forall tp ensures Swept(was, next, todo - {topic}, tp, keep) {
      assert Swept(was, cur, todo, tp, keep);
    }
  }

  lemma SweptAll(was: Table, cur: Table, keep: Keep)
    requires forall topic :: Swept(was, cur, {}, topic, keep)
    ensures cur == Retain(was, keep)
    ensures NoEmptyTopic(cur)
  {
    forall topic ensures topic in cur <==> topic in Retain(was, keep) {
      assert Swept(was, cur, {}, topic, keep);
      if topic in was { KeptNonempty(was[topic], topic, keep); }
    }
    assert forall topic :: topic in cur ==> Swept(was, cur, {}, topic, keep);
  }

  lemma RemovedIsSwept(was: Table, topic: Topic, origin: Peer)
    requires NoEmptyTopic(was)
    ensures var inner := if topic in was then was[topic] - {origin} else map[];
            var next := if |inner| == 0 then was - {topic} else was[topic := inner];
            next == Without(was, topic, origin) && NoEmptyTopic(next)
  {
    var keep := OtherThan(topic, origin);
    var inner := if topic in was then was[topic] - {origin} else map[];
    var next := if |inner| == 0 then was - {topic} else was[topic := inner];
    forall tp ensures Swept(was, next, {}, tp, keep) {
      if tp in was {
        assert tp != topic ==> Kept(was[tp], tp, keep) == was[tp];
        assert tp == topic ==> Kept(was[tp], tp, keep) == inner;
      }
    }
    SweptAll(was, next, keep);
  }

  class TopicRouter {
    var routes: Table

    ghost predicate Valid() reads this { NoEmptyTopic(routes) }

    constructor ()
      ensures Valid() && routes == map[]
    {
      routes := map[];
    }

    method UpdateRoute(topic: Topic, originPeerId: Peer, nextHop: Peer, hopCount: nat, sequenceNumber: int,
                       path: seq<Peer>, expiresAt: int)
      returns (updated: bool)
      requires Valid()
      modifies this
      ensures Valid()
      ensures var route := Route(nextHop, hopCount, sequenceNumber, path, expiresAt);
              && routes == Accept(old(routes), Offer(topic, originPeerId, route))
              && updated == Installs(Lookup(old(routes), topic, originPeerId), route)
      ensures var was := Lookup(old(routes), topic, originPeerId);
              && (updated <==> was.None? || sequenceNumber > was.value.sequenceNumber
                               || (sequenceNumber == was.value.sequenceNumber && hopCount < was.value.hopCount))
              && Lookup(routes, topic, originPeerId) ==
                 Some(if updated then Route(nextHop, hopCount, sequenceNumber, path, expiresAt)
                      else if sequenceNumber == was.value.sequenceNumber && nextHop == was.value.nextHop && expiresAt > was.value.expiresAt
                      then was.value.(expiresAt := expiresAt) else was.value)
      ensures forall tp, o :: tp != topic || o != originPeerId ==> Lookup(routes, tp, o) == Lookup(old(routes), tp, o)
    {
      ghost var offer := Offer(topic, originPeerId, Route(nextHop, hopCount, sequenceNumber, path, expiresAt));
      AcceptKeepsNoEmptyTopic(routes, offer);
      AcceptMeaning(routes, offer);
      if topic !in routes {
        routes := routes[topic := map[]];
      }
      var topicRoutes := routes[topic];
      if originPeerId in topicRoutes {
        var existing := topicRoutes[originPeerId];
        if sequenceNumber < existing.sequenceNumber {
          assert topicRoutes[originPeerId := existing] == topicRoutes;
          return false;
        }
        if sequenceNumber == existing.sequenceNumber && hopCount >= existing.hopCount {
          if nextHop == existing.nextHop {
            existing := existing.(expiresAt := Max(existing.expiresAt, expiresAt));
            routes := routes[topic := topicRoutes[originPeerId := existing]];
          }
          assert topicRoutes[originPeerId := topicRoutes[originPeerId]] == topicRoutes;
          return false;
        }
      }
      routes := routes[topic := topicRoutes[originPeerId := Route(nextHop, hopCount, sequenceNumber, path, expiresAt)]];
      return true;
    }

    method RemoveRoute(topic: Topic, originPeerId: Peer) returns (deleted: bool)
      requires Valid()
      modifies this
      ensures Valid()
      ensures routes == Without(old(routes), topic, originPeerId)
      ensures deleted == Lookup(old(routes), topic, originPeerId).Some?
      ensures forall tp, o :: Lookup(routes, tp, o) == if tp == topic && o == originPeerId then None else Lookup(old(routes), tp, o)
    {
      forall tp, o { RemovedExactly(routes, topic, originPeerId, tp, o); }
      RemovedIsSwept(routes, topic, originPeerId);
      deleted := false;
      if topic in routes {
        var topicRoutes := routes[topic];
        deleted := originPeerId in topicRoutes;
        topicRoutes := topicRoutes - {originPeerId};
        routes := if |topicRoutes| == 0 then routes - {topic} else routes[topic := topicRoutes];
      } else {
        assert routes - {topic} == routes;
      }
    }

    method GetPeersForTopic(topic: Topic, now: int) returns (peers: set<Peer>)
      ensures peers == PeersForTopic(routes, topic, now)
      ensures forall p :: p in peers <==> exists o :: Lookup(routes, topic, o).Some? && Lookup(routes, topic, o).value.nextHop == p
                                                      && Lookup(routes, topic, o).value.expiresAt >= now
    {
      forall p { PeersForTopicMeaning(routes, topic, now, p); }
      peers := {};
      if topic in routes {
        var topicRoutes := routes[topic];
        var todo := topicRoutes.Keys;
        while todo != {}
          invariant todo <= topicRoutes.Keys
          invariant peers == set o | o in topicRoutes && o !in todo && now <= topicRoutes[o].expiresAt :: topicRoutes[o].nextHop
        {
          var o :| o in todo;
          todo := todo - {o};
          if now <= topicRoutes[o].expiresAt {
            peers := peers + {topicRoutes[o].nextHop};
          }
        }
      }
    }

    /** The topics of a peer: the two implicit ones and every topic it is an origin of. */
    method GetTopicsForPeer(peerId: Peer) returns (topics: set<Topic>)
      ensures topics == TopicsOf(routes, peerId)
      ensures forall topic :: topic in topics <==> topic == "global" || topic == "dm:" + peerId || Lookup(routes, topic, peerId).Some?
    {
      topics := {"global", "dm:" + peerId};
      var todo := routes.Keys;
      while todo != {}
        invariant todo <= routes.Keys
        invariant topics == {"global", "dm:" + peerId} + set t | t in routes && t !in todo && peerId in routes[t]
      {
        var t :| t in todo;
        todo := todo - {t};
        if peerId in routes[t] {
          topics := topics + {t};
        }
      }
    }

    method ClearRoutesForPeer(peerId: Peer)
      requires Valid()
      modifies this
      ensures Valid()
      ensures routes == Cleared(old(routes), peerId)
      ensures forall tp, o :: var r := Lookup(old(routes), tp, o);
                              Lookup(routes, tp, o) == if r.Some? && r.value.nextHop != peerId && o != peerId then r else None
    {
      forall tp, o { ClearedExactly(routes, peerId, tp, o); }
      ghost var keep := AwayFrom(peerId);
      ghost var was := routes;
      var topics := routes.Keys;
      while topics != {}
        invariant forall tp :: Swept(was, routes, topics, tp, keep)
        decreases topics
      {
        var topic :| topic in topics;
        assert Swept(was, routes, topics, topic, keep);
        var topicRoutes := routes[topic];
        var origins := topicRoutes.Keys;
        while origins != {}
          invariant origins <= was[topic].Keys
          invariant topicRoutes == map o | o in was[topic] && (o in origins || keep(topic, o, was[topic][o])) :: was[topic][o]
          decreases origins
        {
          var o :| o in origins;
          origins := origins - {o};
          if topicRoutes[o].nextHop == peerId || o == peerId {
            topicRoutes := topicRoutes - {o};
          }
        }
        assert topicRoutes == Kept(was[topic], topic, keep);
        SweepOne(was, routes, topics, topic, keep);
        topics := topics - {topic};
        routes := if |topicRoutes| == 0 then routes - {topic} else routes[topic := topicRoutes];
      }
      SweptAll(was, routes, keep);
    }

    method Gc(now: int)
      requires Valid()
      modifies this
      ensures Valid()
      ensures routes == Collected(old(routes), now)
      ensures forall tp, o :: var r := Lookup(old(routes), tp, o);
                              Lookup(routes, tp, o) == if r.Some? && r.value.expiresAt >= now then r else None
    {
      forall tp, o { CollectedExactly(routes, now, tp, o); }
      ghost var keep := LiveAt(now);
      ghost var was := routes;
      var topics := routes.Keys;
      while topics != {}
        invariant forall tp :: Swept(was, routes, topics, tp, keep)
        decreases topics
      {
        var topic :| topic in topics;
        assert Swept(was, routes, topics, topic, keep);
        var topicRoutes := routes[topic];
        var origins := topicRoutes.Keys;
        while origins != {}
          invariant origins <= was[topic].Keys
          invariant topicRoutes == map o | o in was[topic] && (o in origins || keep(topic, o, was[topic][o])) :: was[topic][o]
          decreases origins
        {
          var o :| o in origins;
          origins := origins - {o};
          if now > topicRoutes[o].expiresAt {
            topicRoutes := topicRoutes - {o};
          }
        }
        assert topicRoutes == Kept(was[topic], topic, keep);
        SweepOne(was, routes, topics, topic, keep);
        topics := topics - {topic};
        routes := if |topicRoutes| == 0 then routes - {topic} else routes[topic := topicRoutes];
      }
      SweptAll(was, routes, keep);
    }
  }
}
