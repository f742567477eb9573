/** Stretches of a run in which no entry for an origin and a topic is deleted: every such entry that is newer
    than the stretch points at a strictly better one, so that these routes never loop, whatever was deleted
    or lost before, and whatever happens to other routes. */
module LoopFreedom {
  import opened Common
  import opened TopicRouting
  import opened Gossip
  import opened Network
  import opened PathVector

  /** The routes to one origin for one topic, and the state in which the stretch begins; for runs without any
      deletion of them that is the initial one. */
  datatype Scope = Scope(base: State, topic: Topic, origin: Peer)

  function EntryIn(k: Scope, s: State, n: Peer): Option<Route> { Entry(s, n, k.topic, k.origin) }

  /** Node `n` holds an entry that is at least as good as (sequence, hops). */
  ghost predicate AtLeast(k: Scope, s: State, n: Peer, sequence: int, hops: int) {
    var e := EntryIn(k, s, n);
    e.Some? && !Better(sequence, hops, e.value.sequenceNumber, e.value.hopCount)
  }

  /** Node `n` has seen the advertisement with this sequence number. */
  ghost predicate SawAd(k: Scope, s: State, n: Peer, sequence: int) {
    exists id :: id in s.log && id in Seen(s, n) && IsAd(s.log[id], k.topic, k.origin, sequence)
  }

  /** A route learned from an advertisement comes from a next hop that is closer. */
  ghost predicate LearnedOk(cfg: Config, k: Scope, s: State, n: Peer, r: Route) {
    && SawAd(k, s, n, r.sequenceNumber) && Learned(cfg, n, k.origin, r)
    && (n != k.origin ==> AtLeast(k, s, r.nextHop, r.sequenceNumber, r.hopCount - 1))
  }

  /** Advertised after the base state. */
  predicate Newer(k: Scope, sequence: int) { sequence > SequenceOf(k.base, k.origin, k.topic) }

  ghost predicate EntryOk(cfg: Config, k: Scope, s: State, n: Peer) {
    var e := EntryIn(k, s, n);
    e.Some? && Newer(k, e.value.sequenceNumber) ==> LearnedOk(cfg, k, s, n, e.value)
  }

  predicate IsJoin(k: Scope, m: Message) {
    m.kind.Control? && m.kind.payload.SubAd? && m.kind.payload.action == Join && m.kind.payload.topic == k.topic && m.sender == k.origin
  }

  predicate IsNewJoin(k: Scope, m: Message) { IsJoin(k, m) && Newer(k, m.kind.payload.sequenceNumber) }

  /** The node that sent this advertisement stands by it. */
  ghost predicate SenderOk(k: Scope, s: State, m: Message, trail: seq<Peer>) {
    IsNewJoin(k, m) && trail != [] ==> AtLeast(k, s, trail[|trail| - 1], m.kind.payload.sequenceNumber, |trail| - 1)
  }

  /** Whoever has seen an advertisement has a route at least as new. */
  ghost predicate SeenAdOk(k: Scope, s: State, n: Peer, id: Id) {
    id in Seen(s, n) && id in s.log && IsNewJoin(k, s.log[id]) ==>
      EntryIn(k, s, n).Some? && EntryIn(k, s, n).value.sequenceNumber >= s.log[id].kind.payload.sequenceNumber
  }

  ghost predicate RouteInv(cfg: Config, k: Scope, s: State) {
    && BaseInv(cfg, s) && SequencesGrow(k.base, s) && RoutesShaped(cfg, s)
    && (forall c :: c in s.net ==> SenderOk(k, s, c.msg, c.trail))
    && (forall n :: EntryOk(cfg, k, s, n))
    && (forall n, id :: SeenAdOk(k, s, n, id))
  }

  /** Nobody loses an entry for the origin and the topic. */
  ghost predicate KeepsEntries(s: State, t: State, topic: Topic, origin: Peer) {
    forall n :: Entry(s, n, topic, origin).Some? ==> Entry(t, n, topic, origin).Some?
  }

  /** No step of the run deletes an entry for the origin and the topic. */
  ghost predicate RunKeeps(cfg: Config, s: State, steps: seq<Step>, topic: Topic, origin: Peer)
    decreases |steps|
  {
    steps != [] ==>
      && Enabled(cfg, s, steps[0]) && KeepsEntries(s, Next(cfg, s, steps[0]), topic, origin)
      && RunKeeps(cfg, Next(cfg, s, steps[0]), steps[1..], topic, origin)
  }

  /** Entries only ever get better. */
  ghost predicate RoutesGrow(k: Scope, s: State, t: State) {
    forall n :: EntryIn(k, s, n).Some? ==> EntryIn(k, t, n).Some? && !Supersedes(EntryIn(k, s, n).value, EntryIn(k, t, n).value)
  }

  lemma AtLeastLater(k: Scope, s: State, t: State, n: Peer, sequence: int, hops: int)
    requires RoutesGrow(k, s, t) && AtLeast(k, s, n, sequence, hops)
    ensures AtLeast(k, t, n, sequence, hops)
  {
  }

  lemma SawAdLater(k: Scope, s: State, t: State, n: Peer, sequence: int)
    requires HistoryGrows(s, t) && SawAd(k, s, n, sequence)
    ensures SawAd(k, t, n, sequence)
  {
    var id :| id in s.log && id in Seen(s, n) && IsAd(s.log[id], k.topic, k.origin, sequence);
    assert id in t.log && id in Seen(t, n) && IsAd(t.log[id], k.topic, k.origin, sequence);
  }

  lemma LearnedLater(cfg: Config, k: Scope, s: State, t: State, n: Peer, r: Route, lease: int)
    requires RoutesGrow(k, s, t) && HistoryGrows(s, t) && LearnedOk(cfg, k, s, n, r)
    ensures LearnedOk(cfg, k, t, n, r.(expiresAt := lease))
  {
    SawAdLater(k, s, t, n, r.sequenceNumber);
    if n != k.origin { AtLeastLater(k, s, t, r.nextHop, r.sequenceNumber, r.hopCount - 1); }
  }

  /** An entry that changed at most its lease is still good. */
  lemma EntryLater(cfg: Config, k: Scope, s: State, t: State, n: Peer)
    requires RoutesGrow(k, s, t) && HistoryGrows(s, t) && EntryOk(cfg, k, s, n)
    requires var a, b := EntryIn(k, s, n), EntryIn(k, t, n);
             b.Some? ==> a.Some? && b.value == a.value.(expiresAt := b.value.expiresAt)
    ensures EntryOk(cfg, k, t, n)
  {
    var a, b := EntryIn(k, s, n), EntryIn(k, t, n);
    if b.Some? && Newer(k, b.value.sequenceNumber) {
      LearnedLater(cfg, k, s, t, n, a.value, b.value.expiresAt);
    }
  }

  /** The routing effect of a step that keeps the entries: at most one node takes in at most one offer. */
  ghost predicate OneOffer(k: Scope, s: State, t: State, n: Peer, offer: Option<Route>) {
    forall x :: EntryIn(k, t, x) == if x == n && offer.Some? then Some(Merge(EntryIn(k, s, x), offer.value)) else EntryIn(k, s, x)
  }

  lemma OneOfferGrows(k: Scope, s: State, t: State, n: Peer, offer: Option<Route>)
    requires OneOffer(k, s, t, n, offer)
    ensures RoutesGrow(k, s, t)
  {
  }

  /** A step keeps the route invariant if its offer is a good entry whenever it is installed. */
  lemma OneOfferKeeps(cfg: Config, k: Scope, s: State, t: State, n: Peer, offer: Option<Route>)
    requires RouteInv(cfg, k, s) && BaseInv(cfg, t) && HistoryGrows(s, t)
    requires SequencesGrow(s, t) && RoutesShaped(cfg, t)
    requires OneOffer(k, s, t, n, offer)
    requires offer.Some? && Installs(EntryIn(k, s, n), offer.value) ==> EntryOk(cfg, k, t, n)
    requires forall c :: c in t.net && c !in s.net ==> SenderOk(k, t, c.msg, c.trail)
    requires forall x, id :: id in Seen(t, x) && !(id in Seen(s, x)) ==> SeenAdOk(k, t, x, id)
    ensures RouteInv(cfg, k, t)
  {
    OneOfferGrows(k, s, t, n, offer);
    forall c | c in t.net ensures SenderOk(k, t, c.msg, c.trail) {
      if c in s.net { SenderOkLater(k, s, t, c); }
    }
    forall x ensures EntryOk(cfg, k, t, x) {
      if !(x == n && offer.Some? && Installs(EntryIn(k, s, x), offer.value)) { EntryLater(cfg, k, s, t, x); }
    }
    forall x, id ensures SeenAdOk(k, t, x, id) {
      if id in Seen(s, x) { SeenAdOkLater(k, s, t, x, id); }
    }
    hide EntryOk, SenderOk, SeenAdOk, RoutesShaped;
  }

  lemma SenderOkLater(k: Scope, s: State, t: State, c: Copy)
    requires RoutesGrow(k, s, t) && SenderOk(k, s, c.msg, c.trail)
    ensures SenderOk(k, t, c.msg, c.trail)
  {
    if IsNewJoin(k, c.msg) && c.trail != [] {
      AtLeastLater(k, s, t, c.trail[|c.trail| - 1], c.msg.kind.payload.sequenceNumber, |c.trail| - 1);
    }
  }

  lemma SeenAdOkLater(k: Scope, s: State, t: State, x: Peer, id: Id)
    requires RoutesGrow(k, s, t) && HistoryGrows(s, t) && SeenAdOk(k, s, x, id) && id in Seen(s, x) && Seen(s, x) <= s.log.Keys
    ensures SeenAdOk(k, t, x, id)
  {
  }

  // ---- One step ----

  /** The offer that a message makes to the table of the node it reaches. */
  function ArrivalOffer(k: Scope, s: State, n: Peer, m: Message, trail: seq<Peer>, now: int): Option<Route> {
    if m.id !in Seen(s, n) && IsJoin(k, m) then Some(AdOffer(n, m, Inbound(trail), now).route) else None
  }

  lemma ArrivedEntry(cfg: Config, k: Scope, s: State, n: Peer, m: Message, trail: seq<Peer>, now: int, chosen: set<Peer>)
    requires n in cfg.pools && n in s.locals
    requires m.kind.Control? ==> m.kind.payload.SubAd? && m.kind.payload.action != Unknown && n !in m.routingPath
    requires var t := Arrive(cfg, s, n, m, trail, now, chosen); EntryIn(k, s, n).Some? ==> EntryIn(k, t, n).Some?
    ensures var t, offer := Arrive(cfg, s, n, m, trail, now, chosen), ArrivalOffer(k, s, n, m, trail, now);
            EntryIn(k, t, n) == if offer.Some? then Some(Merge(EntryIn(k, s, n), offer.value)) else EntryIn(k, s, n)
  {
    if m.kind.Control? {
      LookupAccept(s.locals[n].routes, AdOffer(n, m, Inbound(trail), now), k.topic, k.origin);
      LookupRetain(s.locals[n].routes, OtherThan(m.kind.payload.topic, m.sender), k.topic, k.origin);
    }
    hide Accept, Retain, Copies, Merge;
  }

  lemma ArriveOneOffer(cfg: Config, k: Scope, s: State, n: Peer, m: Message, trail: seq<Peer>, now: int, chosen: set<Peer>)
    requires s.locals.Keys == Nodes(cfg) && Acceptable(cfg, s, n, m, trail) && LoggedOk(cfg, s, m.id)
    requires KeepsEntries(s, Arrive(cfg, s, n, m, trail, now, chosen), k.topic, k.origin)
    ensures OneOffer(k, s, Arrive(cfg, s, n, m, trail, now, chosen), n, ArrivalOffer(k, s, n, m, trail, now))
  {
    hide Receive, Copies, Merge, ArrivalOffer;
    var t := Arrive(cfg, s, n, m, trail, now, chosen);
    ArrivedEntry(cfg, k, s, n, m, trail, now, chosen);
    forall x | x != n ensures EntryIn(k, t, x) == EntryIn(k, s, x) {}
  }

  /** An installed advertisement is a good entry. */
  lemma ArrivedEntryOk(cfg: Config, k: Scope, s: State, t: State, n: Peer, m: Message, trail: seq<Peer>, now: int)
    requires Acceptable(cfg, s, n, m, trail) && SenderOk(k, s, m, trail) && LoggedOk(cfg, s, m.id) && (trail != [] ==> m.ttl >= 1)
    requires HistoryGrows(s, t) && m.id in Seen(t, n)
    requires var offer := ArrivalOffer(k, s, n, m, trail, now);
             offer.Some? && OneOffer(k, s, t, n, offer) && Installs(EntryIn(k, s, n), offer.value)
    ensures EntryOk(cfg, k, t, n)
  {
    var ad := m.kind.payload;
    OneOfferGrows(k, s, t, n, ArrivalOffer(k, s, n, m, trail, now));
    assert IsAd(t.log[m.id], ad.topic, m.sender, ad.sequenceNumber);
    if trail != [] && IsNewJoin(k, m) {
      AtLeastLater(k, s, t, trail[|trail| - 1], ad.sequenceNumber, |trail| - 1);
    }
    OfferShaped(cfg, s, n, m, trail, now);
  }

  /** A node forwards a JOIN only when it has just installed it. */
  lemma ForwardedOk(cfg: Config, k: Scope, s: State, n: Peer, m: Message, trail: seq<Peer>, now: int, chosen: set<Peer>, c: Copy)
    requires s.locals.Keys == Nodes(cfg) && Acceptable(cfg, s, n, m, trail)
    requires c in Arrive(cfg, s, n, m, trail, now, chosen).net && c !in s.net
    ensures SenderOk(k, Arrive(cfg, s, n, m, trail, now, chosen), c.msg, c.trail)
  {
    var e := Receive(n, Links(cfg, n), s.locals[n], m, Inbound(trail), now, chosen);
    CopiesMembers(cfg.pools[n], n, e.targets, e.message, trail + [n], c);
    LastOfTrail(trail, n);
    if IsJoin(k, m) {
      LookupAccept(s.locals[n].routes, AdOffer(n, m, Inbound(trail), now), k.topic, k.origin);
    }
    hide Accept, Retain, Copies;
  }

  lemma ArrivedSeenOk(cfg: Config, k: Scope, s: State, t: State, n: Peer, m: Message, trail: seq<Peer>, now: int)
    requires Acceptable(cfg, s, n, m, trail) && t.log == s.log && Seen(t, n) == Seen(s, n) + {m.id}
    requires OneOffer(k, s, t, n, ArrivalOffer(k, s, n, m, trail, now)) && m.id !in Seen(s, n)
    ensures SeenAdOk(k, t, n, m.id)
  {
  }

  lemma AllArrivedSeenOk(cfg: Config, k: Scope, s: State, t: State, n: Peer, m: Message, trail: seq<Peer>, now: int)
    requires Acceptable(cfg, s, n, m, trail) && t.log == s.log && Seen(t, n) == Seen(s, n) + {m.id}
    requires forall x :: x != n ==> Seen(t, x) == Seen(s, x)
    requires OneOffer(k, s, t, n, ArrivalOffer(k, s, n, m, trail, now))
    ensures forall x, id :: id in Seen(t, x) && !(id in Seen(s, x)) ==> SeenAdOk(k, t, x, id)
  {
    if m.id !in Seen(s, n) { ArrivedSeenOk(cfg, k, s, t, n, m, trail, now); }
  }

  lemma AllForwardedOk(cfg: Config, k: Scope, s: State, n: Peer, m: Message, trail: seq<Peer>, now: int, chosen: set<Peer>)
    requires s.locals.Keys == Nodes(cfg) && Acceptable(cfg, s, n, m, trail)
    ensures var t := Arrive(cfg, s, n, m, trail, now, chosen);
            forall c :: c in t.net && c !in s.net ==> SenderOk(k, t, c.msg, c.trail)
  {
    var t := Arrive(cfg, s, n, m, trail, now, chosen);
    forall c | c in t.net && c !in s.net ensures SenderOk(k, t, c.msg, c.trail) {
      ForwardedOk(cfg, k, s, n, m, trail, now, chosen, c);
    }
  }

  lemma ArriveKeepsRoutes(cfg: Config, k: Scope, s: State, n: Peer, m: Message, trail: seq<Peer>, now: int, chosen: set<Peer>)
    requires ValidConfig(cfg) && RouteInv(cfg, k, s)
    requires Acceptable(cfg, s, n, m, trail) && ChoiceOk(cfg, s.locals[n], n, m, trail, now, chosen) && SenderOk(k, s, m, trail)
    requires trail != [] ==> m.ttl >= 1
    requires KeepsEntries(s, Arrive(cfg, s, n, m, trail, now, chosen), k.topic, k.origin)
    ensures RouteInv(cfg, k, Arrive(cfg, s, n, m, trail, now, chosen))
    ensures RoutesGrow(k, s, Arrive(cfg, s, n, m, trail, now, chosen))
  {
    var t := Arrive(cfg, s, n, m, trail, now, chosen);
    var offer := ArrivalOffer(k, s, n, m, trail, now);
    ArriveFrame(cfg, s, n, m, trail, now, chosen);
    ArriveGrows(cfg, s, n, m, trail, now, chosen);
    ArriveKeepsBase(cfg, s, n, m, trail, now, chosen);
    ArriveKeepsShape(cfg, s, n, m, trail, now, chosen);
    ArriveOneOffer(cfg, k, s, n, m, trail, now, chosen);
    OneOfferGrows(k, s, t, n, offer);
    if offer.Some? && Installs(EntryIn(k, s, n), offer.value) { ArrivedEntryOk(cfg, k, s, t, n, m, trail, now); }
    AllForwardedOk(cfg, k, s, n, m, trail, now, chosen);
    AllArrivedSeenOk(cfg, k, s, t, n, m, trail, now);
    hide Arrive, EntryOk, SenderOk, SeenAdOk, RoutesShaped, KeepsEntries, OneOffer;
    OneOfferKeeps(cfg, k, s, t, n, offer);
  }

  /** Nothing changes but what has been originated. */
  lemma OriginatedKeepsRoutes(cfg: Config, k: Scope, s: State, step: Step)
    requires ValidConfig(cfg) && RouteInv(cfg, k, s) && Enabled(cfg, s, step) && (step.Publish? || step.Advertise?)
    ensures RouteInv(cfg, k, Originated(cfg, s, step)) && RoutesGrow(k, s, Originated(cfg, s, step))
  {
    var t := Originated(cfg, s, step);
    OriginatedKeepsBase(cfg, s, step);
    OriginatedAcceptable(cfg, s, step);
    OriginatedCounts(cfg, s, step);
    AllShapedLater(cfg, s, t);
    assert OneOffer(k, s, t, step.node, None);
    hide EntryOk, SenderOk, SeenAdOk, RoutesShaped, BaseInv;
    OneOfferGrows(k, s, t, step.node, None);
    OneOfferKeeps(cfg, k, s, t, step.node, None);
  }

  lemma OriginatedCounts(cfg: Config, s: State, step: Step)
    requires Enabled(cfg, s, step) && (step.Publish? || step.Advertise?)
    ensures SequencesGrow(s, Originated(cfg, s, step))
  {
  }

  lemma OriginationKeepsRoutes(cfg: Config, k: Scope, s: State, step: Step)
    requires ValidConfig(cfg) && RouteInv(cfg, k, s) && Enabled(cfg, s, step) && (step.Publish? || step.Advertise?)
    requires KeepsEntries(s, Next(cfg, s, step), k.topic, k.origin)
    ensures RouteInv(cfg, k, Next(cfg, s, step)) && RoutesGrow(k, s, Next(cfg, s, step))
  {
    var t := Originated(cfg, s, step);
    OriginatedKeepsRoutes(cfg, k, s, step);
    OriginatedAcceptable(cfg, s, step);
    ArriveKeepsRoutes(cfg, k, t, step.node, NewMessage(cfg, step, s), [], step.now, if step.Publish? then step.chosen else {});
    GrowsTransitive(k, s, t, Next(cfg, s, step));
  }

  lemma GrowsTransitive(k: Scope, s: State, t: State, u: State)
    requires RoutesGrow(k, s, t) && RoutesGrow(k, t, u)
    ensures RoutesGrow(k, s, u)
  {
  }

  /** What is in flight may go missing or come twice, and other entries may change. */
  lemma SameEntriesKeepRoutes(cfg: Config, k: Scope, s: State, t: State)
    requires RouteInv(cfg, k, s) && BaseInv(cfg, t) && RoutesShaped(cfg, t)
    requires forall n :: EntryIn(k, t, n) == EntryIn(k, s, n) && Seen(t, n) == Seen(s, n)
    requires t.log == s.log && t.sequences == s.sequences && forall c :: c in t.net ==> c in s.net
    ensures RouteInv(cfg, k, t) && RoutesGrow(k, s, t)
  {
    hide BaseInv, RoutesShaped, EntryOk, SenderOk, SeenAdOk;
    SameHistory(s, t);
    assert OneOffer(k, s, t, k.origin, None);
    OneOfferGrows(k, s, t, k.origin, None);
    OneOfferKeeps(cfg, k, s, t, k.origin, None);
  }

  lemma SameHistory(s: State, t: State)
    requires t.log == s.log && t.sequences == s.sequences && forall n :: Seen(t, n) == Seen(s, n)
    ensures HistoryGrows(s, t) && SequencesGrow(s, t)
  {
  }

  lemma TakenKeepsRoutes(cfg: Config, k: Scope, s: State, c: Copy)
    requires RouteInv(cfg, k, s) && c in s.net
    ensures RouteInv(cfg, k, Taken(s, c)) && RoutesGrow(k, s, Taken(s, c)) && SenderOk(k, Taken(s, c), c.msg, c.trail)
  {
    TakenKeepsBase(cfg, s, c);
    AllShapedLater(cfg, s, Taken(s, c));
    SenderOkLaterTaken(k, s, c);
    hide BaseInv, RoutesShaped, EntryOk, SenderOk, SeenAdOk;
    SameEntriesKeepRoutes(cfg, k, s, Taken(s, c));
  }

  lemma SenderOkLaterTaken(k: Scope, s: State, c: Copy)
    requires SenderOk(k, s, c.msg, c.trail)
    ensures SenderOk(k, Taken(s, c), c.msg, c.trail)
  {
  }

  lemma DeliveryKeepsRoutes(cfg: Config, k: Scope, s: State, step: Step)
    requires ValidConfig(cfg) && RouteInv(cfg, k, s) && Enabled(cfg, s, step) && step.Deliver?
    requires KeepsEntries(s, Next(cfg, s, step), k.topic, k.origin)
    ensures RouteInv(cfg, k, Next(cfg, s, step)) && RoutesGrow(k, s, Next(cfg, s, step))
  {
    var c := step.copy;
    TakenKeepsBase(cfg, s, c);
    TakenKeepsRoutes(cfg, k, s, c);
    ArriveKeepsRoutes(cfg, k, Taken(s, c), c.to, c.msg, c.trail, step.now, step.chosen);
    GrowsTransitive(k, s, Taken(s, c), Next(cfg, s, step));
  }

  /** A handshake offers a route that is older than any advertisement. */
  function HandshakeOffer(k: Scope, step: Step): Option<Route> {
    if step.Handshake? && step.topic == k.topic && step.peer == k.origin
    then Some(Route(step.peer, 0, 0, [], step.now + ROUTE_LEASE_MS)) else None
  }

  lemma TableStepOneOffer(cfg: Config, k: Scope, s: State, step: Step)
    requires Enabled(cfg, s, step) && (step.Handshake? || step.Collect? || step.Disconnect?)
    requires KeepsEntries(s, Next(cfg, s, step), k.topic, k.origin)
    ensures OneOffer(k, s, Next(cfg, s, step), step.node, HandshakeOffer(k, step))
    ensures var t := Next(cfg, s, step);
            SequencesGrow(s, t) && t.net == s.net && t.log == s.log && forall x :: Seen(t, x) == Seen(s, x)
  {
    hide Accept, Retain;
    var table := s.locals[step.node].routes;
    match step
    case Handshake(_, peer, topic, now) =>
      LookupAccept(table, Offer(topic, peer, Route(peer, 0, 0, [], now + ROUTE_LEASE_MS)), k.topic, k.origin);
    case Collect(_, now) => LookupRetain(table, LiveAt(now), k.topic, k.origin);
    case Disconnect(_, peer) => LookupRetain(table, AwayFrom(peer), k.topic, k.origin);
  }

  lemma TableStepKeepsRoutes(cfg: Config, k: Scope, s: State, step: Step)
    requires ValidConfig(cfg) && RouteInv(cfg, k, s) && Enabled(cfg, s, step)
    requires step.Handshake? || step.Collect? || step.Disconnect?
    requires KeepsEntries(s, Next(cfg, s, step), k.topic, k.origin)
    ensures RouteInv(cfg, k, Next(cfg, s, step)) && RoutesGrow(k, s, Next(cfg, s, step))
  {
    var t, offer := Next(cfg, s, step), HandshakeOffer(k, step);
    TableStepKeepsBase(cfg, s, step);
    TableStepKeepsShape(cfg, s, step);
    TableStepOneOffer(cfg, k, s, step);
    OneOfferGrows(k, s, t, step.node, offer);
    if offer.Some? && Installs(EntryIn(k, s, step.node), offer.value) { OldEntryOk(cfg, k, t, step.node); }
    hide Next, Enabled, RoutesShaped, EntryOk, SenderOk, SeenAdOk, OneOffer, KeepsEntries;
    OneOfferKeeps(cfg, k, s, t, step.node, offer);
  }

  lemma OldEntryOk(cfg: Config, k: Scope, t: State, n: Peer)
    requires EntryIn(k, t, n).Some? && EntryIn(k, t, n).value.sequenceNumber == 0
    ensures EntryOk(cfg, k, t, n)
  {
  }

  lemma DuplicateKeepsRoutes(cfg: Config, k: Scope, s: State, step: Step)
    requires RouteInv(cfg, k, s) && Enabled(cfg, s, step) && step.Duplicate?
    ensures RouteInv(cfg, k, Next(cfg, s, step)) && RoutesGrow(k, s, Next(cfg, s, step))
  {
    var t := Next(cfg, s, step);
    SameHistoryKeepsBase(cfg, s, t);
    AllShapedLater(cfg, s, t);
    hide BaseInv, RoutesShaped, EntryOk, SenderOk, SeenAdOk;
    SameEntriesKeepRoutes(cfg, k, s, t);
  }

  lemma NextKeepsRoutes(cfg: Config, k: Scope, s: State, step: Step)
    requires ValidConfig(cfg) && RouteInv(cfg, k, s) && Enabled(cfg, s, step)
    requires KeepsEntries(s, Next(cfg, s, step), k.topic, k.origin)
    ensures RouteInv(cfg, k, Next(cfg, s, step)) && RoutesGrow(k, s, Next(cfg, s, step))
    ensures HistoryGrows(s, Next(cfg, s, step))
  {
    NextKeepsBase(cfg, s, step);
    hide RouteInv, RoutesGrow, HistoryGrows, BaseInv, Next;
    if step.Publish? || step.Advertise? {
      OriginationKeepsRoutes(cfg, k, s, step);
    } else if step.Deliver? {
      DeliveryKeepsRoutes(cfg, k, s, step);
    } else if step.Lose? {
      LossIsTaken(cfg, s, step);
      TakenKeepsRoutes(cfg, k, s, step.copy);
    } else if step.Duplicate? {
      DuplicateKeepsRoutes(cfg, k, s, step);
    } else {
      TableStepKeepsRoutes(cfg, k, s, step);
    }
  }

  lemma LossIsTaken(cfg: Config, s: State, step: Step)
    requires Enabled(cfg, s, step) && step.Lose?
    ensures Next(cfg, s, step) == Taken(s, step.copy) && step.copy in s.net
  {
  }

  // ---- Stretches ----

  /** At its beginning a stretch has no newer routes and no newer advertisements. */
  lemma BaseRoutes(cfg: Config, k: Scope)
    requires BaseInv(cfg, k.base) && RoutesShaped(cfg, k.base)
    ensures RouteInv(cfg, k, k.base)
  {
    var s := k.base;
    forall id | id in s.log ensures !IsNewJoin(k, s.log[id]) { assert LoggedOk(cfg, s, id); }
    forall c | c in s.net ensures SenderOk(k, s, c.msg, c.trail) {
      assert CopyOk(cfg, s, c);
      assert !IsNewJoin(k, s.log[c.msg.id]);
    }
    forall n ensures EntryOk(cfg, k, s, n) {
      if EntryIn(k, s, n).Some? {
        assert TableShaped(cfg, s, n, s.locals[n].routes);
        assert Shaped(cfg, s, n, k.topic, k.origin, EntryIn(k, s, n).value);
      }
    }
  }

  lemma {:induction false} RunKeepsRoutes(cfg: Config, k: Scope, s: State, steps: seq<Step>, end: State)
    requires ValidConfig(cfg) && RouteInv(cfg, k, s) && Run(cfg, s, steps, end) && RunKeeps(cfg, s, steps, k.topic, k.origin)
    ensures RouteInv(cfg, k, end)
    decreases |steps|
  {
    if steps != [] {
      NextKeepsRoutes(cfg, k, s, steps[0]);
      hide RouteInv, Next, Enabled;
      RunKeepsRoutes(cfg, k, Next(cfg, s, steps[0]), steps[1..], end);
    }
  }

  /** What holds after a stretch that deletes none of the entries, whatever came before it. */
  lemma RoutesAfter(cfg: Config, past: seq<Step>, k: Scope, steps: seq<Step>, s: State)
    requires ValidConfig(cfg) && Run(cfg, Initial(cfg), past, k.base)
    requires Run(cfg, k.base, steps, s) && RunKeeps(cfg, k.base, steps, k.topic, k.origin)
    ensures RouteInv(cfg, k, s)
  {
    InitialBase(cfg);
    RunKeepsBase(cfg, Initial(cfg), past, k.base);
    RoutesAlwaysShaped(cfg, past, k.base);
    BaseRoutes(cfg, k);
    RunKeepsRoutes(cfg, k, k.base, steps, s);
  }

  lemma RoutesFromStart(cfg: Config, steps: seq<Step>, s: State, topic: Topic, origin: Peer)
    requires ValidConfig(cfg) && Run(cfg, Initial(cfg), steps, s) && RunKeeps(cfg, Initial(cfg), steps, topic, origin)
    ensures RouteInv(cfg, Scope(Initial(cfg), topic, origin), s)
  {
    NoSteps(cfg, Initial(cfg));
    RoutesAfter(cfg, [], Scope(Initial(cfg), topic, origin), steps, s);
  }

  // ---- Runs without any deleting step ----

  lemma JoinsLogged(cfg: Config, s: State, step: Step)
    requires Enabled(cfg, s, step) && KeepsRoutes(step) && forall id :: id in s.log ==> !IsLeave(s.log[id])
    ensures forall id :: id in Next(cfg, s, step).log ==> !IsLeave(Next(cfg, s, step).log[id])
  {
    hide Receive, Copies;
  }

  /** Only collection, cleared peers and word of a departure delete entries. */
  lemma HarmlessStep(cfg: Config, s: State, step: Step, topic: Topic, origin: Peer)
    requires ValidConfig(cfg) && BaseInv(cfg, s) && Enabled(cfg, s, step) && KeepsRoutes(step) && (step.Deliver? ==> !IsLeave(step.copy.msg))
    ensures KeepsEntries(s, Next(cfg, s, step), topic, origin)
  {
    if step.Deliver? {
      HarmlessArrival(cfg, Taken(s, step.copy), step.copy.to, step.copy.msg, step.copy.trail, step.now, step.chosen, topic, origin);
    } else if step.Publish? || step.Advertise? {
      HarmlessArrival(cfg, Originated(cfg, s, step), step.node, NewMessage(cfg, step, s), [], step.now,
                      if step.Publish? then step.chosen else {}, topic, origin);
    } else if step.Handshake? {
      LookupAccept(s.locals[step.node].routes, Offer(step.topic, step.peer, Route(step.peer, 0, 0, [], step.now + ROUTE_LEASE_MS)), topic, origin);
    }
    hide Accept, Arrive;
  }

  lemma HarmlessArrival(cfg: Config, s: State, n: Peer, m: Message, trail: seq<Peer>, now: int, chosen: set<Peer>, topic: Topic, origin: Peer)
    requires n in cfg.pools && n in s.locals && !IsLeave(m)
    ensures KeepsEntries(s, Arrive(cfg, s, n, m, trail, now, chosen), topic, origin)
  {
    if m.kind.Control? && m.kind.payload.SubAd? {
      LookupAccept(s.locals[n].routes, AdOffer(n, m, Inbound(trail), now), topic, origin);
    }
    hide Accept, Copies;
  }

  /** A run without deleting steps keeps all entries, and nobody ever leaves in it. */
  lemma {:induction false} KeepingKeeps(cfg: Config, s: State, steps: seq<Step>, end: State, topic: Topic, origin: Peer)
    requires ValidConfig(cfg) && BaseInv(cfg, s) && Run(cfg, s, steps, end) && Keeping(steps)
    requires forall id :: id in s.log ==> !IsLeave(s.log[id])
    ensures RunKeeps(cfg, s, steps, topic, origin) && forall id :: id in end.log ==> !IsLeave(end.log[id])
    decreases |steps|
  {
    if steps != [] {
      var step := steps[0];
      assert KeepsRoutes(step);
      NextKeepsBase(cfg, s, step);
      JoinsLogged(cfg, s, step);
      if step.Deliver? { assert CopyOk(cfg, s, step.copy); }
      HarmlessStep(cfg, s, step, topic, origin);
      TailKeeping(steps);
      hide Next, Enabled, BaseInv, Keeping, KeepsEntries;
      KeepingKeeps(cfg, Next(cfg, s, step), steps[1..], end, topic, origin);
    }
  }

  lemma TailKeeping(steps: seq<Step>)
    requires steps != [] && Keeping(steps)
    ensures Keeping(steps[1..])
  {
  }

  lemma NoDeletionsKeep(cfg: Config, steps: seq<Step>, s: State, topic: Topic, origin: Peer)
    requires ValidConfig(cfg) && Run(cfg, Initial(cfg), steps, s) && Keeping(steps)
    ensures RunKeeps(cfg, Initial(cfg), steps, topic, origin) && forall id :: id in s.log ==> !IsLeave(s.log[id])
  {
    InitialBase(cfg);
    KeepingKeeps(cfg, Initial(cfg), steps, s, topic, origin);
  }

  // ---- Following next hops ----

  /** `w` follows the next hops towards `origin`; only its last node may be the origin. */
  ghost predicate Follows(s: State, topic: Topic, origin: Peer, w: seq<Peer>) {
    forall i :: 0 <= i < |w| - 1 ==>
      w[i] != origin && Entry(s, w[i], topic, origin).Some? && Entry(s, w[i], topic, origin).value.nextHop == w[i + 1]
  }

  /** An entry from the stretch; if nothing had been advertised before it, any entry. */
  ghost predicate NewEntry(k: Scope, s: State, n: Peer) {
    var e := EntryIn(k, s, n);
    e.Some? && (Newer(k, e.value.sequenceNumber) || SequenceOf(k.base, k.origin, k.topic) == 0)
  }

  /** Every hop that does not end at the origin leads to a node with a strictly better entry. */
  lemma NextHopIsBetter(cfg: Config, steps: seq<Step>, s: State, n: Peer, topic: Topic, origin: Peer)
    requires ValidConfig(cfg) && Run(cfg, Initial(cfg), steps, s) && RunKeeps(cfg, Initial(cfg), steps, topic, origin)
    requires n != origin && Entry(s, n, topic, origin).Some?
    requires Entry(s, n, topic, origin).value.nextHop != origin
    ensures var r := Entry(s, n, topic, origin).value;
            && Entry(s, r.nextHop, topic, origin).Some? && Supersedes(Entry(s, r.nextHop, topic, origin).value, r)
            && r.nextHop in Links(cfg, n)
  {
    RoutesFromStart(cfg, steps, s, topic, origin);
    HopImproves(cfg, Scope(Initial(cfg), topic, origin), s, n);
  }

  lemma HopImproves(cfg: Config, k: Scope, s: State, n: Peer)
    requires ValidConfig(cfg) && RouteInv(cfg, k, s) && n != k.origin && NewEntry(k, s, n)
    ensures var r := EntryIn(k, s, n).value;
            && r.nextHop in Links(cfg, n)
            && (r.nextHop != k.origin ==> NewEntry(k, s, r.nextHop) && Supersedes(EntryIn(k, s, r.nextHop).value, r))
  {
    var r := EntryIn(k, s, n).value;
    assert EntryOk(cfg, k, s, n);
    if Newer(k, r.sequenceNumber) {
      var p := r.path + [n];
      assert p[|r.path|] in Links(cfg, p[|r.path| - 1]);
    } else {
      DirectEntry(cfg, k, s, n);
    }
  }

  /** Only handshakes make entries that are older than any advertisement. */
  lemma DirectEntry(cfg: Config, k: Scope, s: State, n: Peer)
    requires RouteInv(cfg, k, s) && NewEntry(k, s, n) && !Newer(k, EntryIn(k, s, n).value.sequenceNumber)
    ensures Direct(cfg, n, k.origin, EntryIn(k, s, n).value)
  {
    assert TableShaped(cfg, s, n, s.locals[n].routes);
    assert Shaped(cfg, s, n, k.topic, k.origin, EntryIn(k, s, n).value);
  }

  /** Along a walk the entries strictly improve until the origin is reached. */
  lemma {:induction false} WalkImproves(cfg: Config, k: Scope, s: State, w: seq<Peer>, i: int, j: int)
    requires ValidConfig(cfg) && RouteInv(cfg, k, s) && Follows(s, k.topic, k.origin, w)
    requires 0 <= i < j < |w| && w[j] != k.origin && NewEntry(k, s, w[i])
    ensures NewEntry(k, s, w[j])
    ensures Supersedes(EntryIn(k, s, w[j]).value, EntryIn(k, s, w[i]).value)
    decreases j - i
  {
    if i < j - 1 { WalkImproves(cfg, k, s, w, i, j - 1); }
    HopImproves(cfg, k, s, w[j - 1]);
  }

  lemma WalkNoDup(cfg: Config, k: Scope, s: State, w: seq<Peer>)
    requires ValidConfig(cfg) && RouteInv(cfg, k, s) && Follows(s, k.topic, k.origin, w)
    requires |w| > 1 ==> NewEntry(k, s, w[0])
    ensures NoDup(w)
  {
    forall i, j | 0 <= i < j < |w| ensures w[i] != w[j] {
      if w[j] != k.origin {
        if i > 0 { WalkImproves(cfg, k, s, w, 0, i); }
        WalkImproves(cfg, k, s, w, i, j);
      }
    }
  }

  /** Loop freedom: in every run that deletes no route to the origin for the topic, following the next hops
      visits no node twice, whatever is deleted of other routes. */
  lemma LoopFree(cfg: Config, steps: seq<Step>, s: State, topic: Topic, origin: Peer, w: seq<Peer>)
    requires ValidConfig(cfg) && Run(cfg, Initial(cfg), steps, s) && RunKeeps(cfg, Initial(cfg), steps, topic, origin)
    requires Follows(s, topic, origin, w)
    ensures NoDup(w)
  {
    RoutesFromStart(cfg, steps, s, topic, origin);
    WalkNoDup(cfg, Scope(Initial(cfg), topic, origin), s, w);
  }

  /** Loop freedom is regained: whatever was deleted or lost before, once no route to the origin for the topic
      is deleted any more, next hops do not go round from a node that has heard an advertisement issued
      since. */
  lemma LoopFreeAgain(cfg: Config, past: seq<Step>, base: State, steps: seq<Step>, s: State, topic: Topic, origin: Peer, w: seq<Peer>)
    requires ValidConfig(cfg) && Run(cfg, Initial(cfg), past, base)
    requires Run(cfg, base, steps, s) && RunKeeps(cfg, base, steps, topic, origin)
    requires Follows(s, topic, origin, w)
    requires |w| > 1 ==> Entry(s, w[0], topic, origin).value.sequenceNumber > SequenceOf(base, origin, topic)
    ensures NoDup(w)
  {
    RoutesAfter(cfg, past, Scope(base, topic, origin), steps, s);
    WalkNoDup(cfg, Scope(base, topic, origin), s, w);
  }

  ghost predicate WalkTo(s: State, topic: Topic, origin: Peer, n: Peer, w: seq<Peer>) {
    w != [] && w[0] == n && w[|w| - 1] == origin && Follows(s, topic, origin, w)
  }

  /** No entry is a dead end: from every node that holds one, the next hops lead to the origin. */
  lemma RoutesReachOrigin(cfg: Config, steps: seq<Step>, s: State, n: Peer, topic: Topic, origin: Peer)
    requires ValidConfig(cfg) && Run(cfg, Initial(cfg), steps, s) && RunKeeps(cfg, Initial(cfg), steps, topic, origin)
    requires Entry(s, n, topic, origin).Some?
    ensures exists w :: WalkTo(s, topic, origin, n, w) && NoDup(w) && Linked(cfg, w)
  {
    RoutesFromStart(cfg, steps, s, topic, origin);
    NewRouteReachesOrigin(cfg, Scope(Initial(cfg), topic, origin), s, n);
  }

  lemma NewRouteReachesOrigin(cfg: Config, k: Scope, s: State, n: Peer)
    requires ValidConfig(cfg) && RouteInv(cfg, k, s) && NewEntry(k, s, n)
    ensures exists w :: WalkTo(s, k.topic, k.origin, n, w) && NoDup(w) && Linked(cfg, w)
  {
    var w := ExtendWalk(cfg, k, s, [n]);
  }

  lemma {:induction false} ExtendWalk(cfg: Config, k: Scope, s: State, w: seq<Peer>) returns (full: seq<Peer>)
    requires ValidConfig(cfg) && RouteInv(cfg, k, s)
    requires w != [] && Follows(s, k.topic, k.origin, w) && Linked(cfg, w) && NewEntry(k, s, w[0])
    requires forall i :: 0 <= i < |w| ==> w[i] in Nodes(cfg)
    ensures WalkTo(s, k.topic, k.origin, w[0], full) && NoDup(full) && Linked(cfg, full)
    decreases |Nodes(cfg)| + 1 - |w|
  {
    WalkNoDup(cfg, k, s, w);
    NoDupWithin(w, Nodes(cfg));
    hide RouteInv, Follows, Linked;
    var last := w[|w| - 1];
    if last == k.origin {
      full := w;
    } else {
      if |w| > 1 { WalkImproves(cfg, k, s, w, 0, |w| - 1); }
      HopImproves(cfg, k, s, last);
      OneHopFurther(cfg, s, k.topic, k.origin, w);
      full := ExtendWalk(cfg, k, s, w + [EntryIn(k, s, last).value.nextHop]);
    }
  }

  lemma OneHopFurther(cfg: Config, s: State, topic: Topic, origin: Peer, w: seq<Peer>)
    requires ValidConfig(cfg) && w != [] && Follows(s, topic, origin, w) && Linked(cfg, w) && w[|w| - 1] != origin
    requires Entry(s, w[|w| - 1], topic, origin).Some? && Entry(s, w[|w| - 1], topic, origin).value.nextHop in Links(cfg, w[|w| - 1])
    ensures var longer := w + [Entry(s, w[|w| - 1], topic, origin).value.nextHop];
            Follows(s, topic, origin, longer) && Linked(cfg, longer) && longer[|w|] in Nodes(cfg)
  {
  }
}
