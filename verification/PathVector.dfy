/** What every run keeps, whatever is lost, duplicated, collected or cleared: trails and path vectors,
    the TTL account, and at-most-once processing. */
module PathVector {
  import opened Common
  import opened TopicRouting
  import opened Gossip
  import opened Network

  ghost predicate SameCore(a: Message, b: Message) {
    a.id == b.id && a.kind == b.kind && a.sender == b.sender && a.topic == b.topic
  }

  /** Message `m` may reach node `n` along `trail`. */
  ghost predicate Acceptable(cfg: Config, s: State, n: Peer, m: Message, trail: seq<Peer>) {
    && n in Nodes(cfg)
    && m.id in s.log && SameCore(m, s.log[m.id])
    && |trail| + m.ttl == cfg.maxTtl
    && NoDup(trail) && Linked(cfg, trail)
    && (forall i :: 0 <= i < |trail| ==> trail[i] in Nodes(cfg) && m.id in Seen(s, trail[i]))
    && (if trail == [] then m.sender == n else trail[0] == m.sender && n in Links(cfg, trail[|trail| - 1]))
    && (m.kind.Control? ==> m.routingPath == trail && n !in trail)
  }

  ghost predicate CopyOk(cfg: Config, s: State, c: Copy) {
    && c.trail != [] && c.trail[|c.trail| - 1] == c.from
    && c.msg.ttl >= 1 && c.to != c.msg.sender
    && Acceptable(cfg, s, c.to, c.msg, c.trail)
  }

  ghost predicate IsAd(m: Message, topic: Topic, origin: Peer, sequence: int) {
    m.sender == origin && m.kind.Control? && m.kind.payload.SubAd?
    && m.kind.payload.topic == topic && m.kind.payload.sequenceNumber == sequence
  }

  ghost predicate LoggedOk(cfg: Config, s: State, id: Id)
    requires id in s.log
  {
    var m := s.log[id];
    && m.id == id && m.sender in Nodes(cfg) && m.ttl == cfg.maxTtl && m.routingPath == []
    && (m.kind.Control? ==>
          && m.kind.payload.SubAd? && m.kind.payload.action != Unknown
          && 1 <= m.kind.payload.sequenceNumber <= SequenceOf(s, m.sender, m.kind.payload.topic))
  }

  ghost predicate SameAd(a: Message, b: Message) {
    && a.kind.Control? && a.kind.payload.SubAd? && b.kind.Control? && b.kind.payload.SubAd?
    && a.sender == b.sender && a.kind.payload.topic == b.kind.payload.topic
    && a.kind.payload.sequenceNumber == b.kind.payload.sequenceNumber
  }

  /** No two advertisements of one origin for one topic carry the same sequence number. */
  ghost predicate SequencesUnique(s: State) {
    forall id1, id2 :: id1 in s.log && id2 in s.log && SameAd(s.log[id1], s.log[id2]) ==> id1 == id2
  }

  /** A node hands a message over at most once and broadcasts it at most once, and an ordinary one
      exactly when it has seen it. */
  ghost predicate OnceOk(s: State, n: Peer, id: Id) {
    && s.emitted[(n, id)] <= 1 && s.forwarded[(n, id)] <= 1
    && (id !in Seen(s, n) ==> s.emitted[(n, id)] == 0 && s.forwarded[(n, id)] == 0)
    && (id in Seen(s, n) && id in s.log && s.log[id].kind.Ordinary? ==> s.emitted[(n, id)] == 1)
  }

  ghost predicate BaseInv(cfg: Config, s: State) {
    && s.locals.Keys == Nodes(cfg)
    && (forall c :: c in s.net ==> CopyOk(cfg, s, c))
    && (forall id :: id in s.log ==> LoggedOk(cfg, s, id))
    && SequencesUnique(s)
    && (forall n :: Seen(s, n) <= s.log.Keys)
    && (forall n, id :: OnceOk(s, n, id))
  }

  /** What later states keep of earlier ones. */
  ghost predicate HistoryGrows(s: State, t: State) {
    && (forall id :: id in s.log ==> id in t.log && t.log[id] == s.log[id])
    && (forall n :: Seen(s, n) <= Seen(t, n))
  }

  lemma CopyOkLater(cfg: Config, s: State, t: State, c: Copy)
    requires HistoryGrows(s, t) && CopyOk(cfg, s, c)
    ensures CopyOk(cfg, t, c)
  {
  }

  lemma HistoryTransitive(s: State, t: State, u: State)
    requires HistoryGrows(s, t) && HistoryGrows(t, u)
    ensures HistoryGrows(s, u)
  {
    forall n ensures Seen(s, n) <= Seen(u, n) { assert Seen(s, n) <= Seen(t, n) <= Seen(u, n); }
  }

  lemma CopiesMembers(pool: Pool, self: Peer, targets: set<Peer>, m: Message, trail: seq<Peer>, c: Copy)
    ensures c in Copies(pool, self, targets, m, trail) <==>
            c == Copy(self, c.to, m, trail) && c.to in targets && c.to in pool.outbound + pool.inbound
  {
  }

  lemma LastOfTrail(trail: seq<Peer>, n: Peer)
    ensures trail + [n] != [] && (trail + [n])[|trail + [n]| - 1] == n
    ensures Inbound(trail + [n]) == Some(n)
  {
  }

  /** What a node sends on is acceptable to whoever gets it. */
  lemma SentOk(cfg: Config, s: State, n: Peer, m: Message, trail: seq<Peer>, now: int, chosen: set<Peer>, p: Peer)
    requires ValidConfig(cfg) && s.locals.Keys == Nodes(cfg)
    requires Acceptable(cfg, s, n, m, trail) && ChoiceOk(cfg, s.locals[n], n, m, trail, now, chosen)
    requires p in Receive(n, Links(cfg, n), s.locals[n], m, Inbound(trail), now, chosen).targets && p in Links(cfg, n)
    ensures var e := Receive(n, Links(cfg, n), s.locals[n], m, Inbound(trail), now, chosen);
            CopyOk(cfg, Arrive(cfg, s, n, m, trail, now, chosen), Copy(n, p, e.message, trail + [n]))
  {
    var e := Receive(n, Links(cfg, n), s.locals[n], m, Inbound(trail), now, chosen);
    var t := Arrive(cfg, s, n, m, trail, now, chosen);
    var longer := trail + [n];
    assert m.id !in Seen(s, n);
    assert n !in trail;
    assert NoDup(longer);
    assert Linked(cfg, longer);
    assert forall x :: m.id in Seen(s, x) ==> m.id in Seen(t, x);
    assert m.id in Seen(t, n);
    if m.kind.Control? { assert p !in Set(longer); }
  }

  lemma ArriveGrows(cfg: Config, s: State, n: Peer, m: Message, trail: seq<Peer>, now: int, chosen: set<Peer>)
    requires n in cfg.pools && n in s.locals
    ensures HistoryGrows(s, Arrive(cfg, s, n, m, trail, now, chosen))
    ensures m.id in Seen(Arrive(cfg, s, n, m, trail, now, chosen), n)
  {
  }

  lemma ArriveCopiesOk(cfg: Config, s: State, n: Peer, m: Message, trail: seq<Peer>, now: int, chosen: set<Peer>, c: Copy)
    requires ValidConfig(cfg) && s.locals.Keys == Nodes(cfg)
    requires Acceptable(cfg, s, n, m, trail) && ChoiceOk(cfg, s.locals[n], n, m, trail, now, chosen)
    requires c in s.net ==> CopyOk(cfg, s, c)
    requires c in Arrive(cfg, s, n, m, trail, now, chosen).net
    ensures CopyOk(cfg, Arrive(cfg, s, n, m, trail, now, chosen), c)
  {
    var e := Receive(n, Links(cfg, n), s.locals[n], m, Inbound(trail), now, chosen);
    if c in s.net {
      ArriveGrows(cfg, s, n, m, trail, now, chosen);
      CopyOkLater(cfg, s, Arrive(cfg, s, n, m, trail, now, chosen), c);
    } else {
      CopiesMembers(cfg.pools[n], n, e.targets, e.message, trail + [n], c);
      SentOk(cfg, s, n, m, trail, now, chosen, c.to);
    }
  }

  lemma ArriveOnce(cfg: Config, s: State, n: Peer, m: Message, trail: seq<Peer>, now: int, chosen: set<Peer>, x: Peer, id: Id)
    requires n in cfg.pools && n in s.locals && m.id in s.log && SameCore(m, s.log[m.id])
    requires OnceOk(s, x, id)
    ensures OnceOk(Arrive(cfg, s, n, m, trail, now, chosen), x, id)
  {
  }

  lemma AllArriveCopiesOk(cfg: Config, s: State, n: Peer, m: Message, trail: seq<Peer>, now: int, chosen: set<Peer>)
    requires ValidConfig(cfg) && s.locals.Keys == Nodes(cfg)
    requires Acceptable(cfg, s, n, m, trail) && ChoiceOk(cfg, s.locals[n], n, m, trail, now, chosen)
    requires forall c :: c in s.net ==> CopyOk(cfg, s, c)
    ensures var t := Arrive(cfg, s, n, m, trail, now, chosen); forall c :: c in t.net ==> CopyOk(cfg, t, c)
  {
    var t := Arrive(cfg, s, n, m, trail, now, chosen);
    forall c | c in t.net ensures CopyOk(cfg, t, c) { ArriveCopiesOk(cfg, s, n, m, trail, now, chosen, c); }
  }

  lemma AllArriveOnce(cfg: Config, s: State, n: Peer, m: Message, trail: seq<Peer>, now: int, chosen: set<Peer>)
    requires n in cfg.pools && n in s.locals && m.id in s.log && SameCore(m, s.log[m.id])
    requires forall x, id :: OnceOk(s, x, id)
    ensures var t := Arrive(cfg, s, n, m, trail, now, chosen); forall x, id :: OnceOk(t, x, id)
  {
    var t := Arrive(cfg, s, n, m, trail, now, chosen);
    forall x, id ensures OnceOk(t, x, id) { ArriveOnce(cfg, s, n, m, trail, now, chosen, x, id); }
  }

  lemma ArriveKeepsBase(cfg: Config, s: State, n: Peer, m: Message, trail: seq<Peer>, now: int, chosen: set<Peer>)
    requires ValidConfig(cfg) && BaseInv(cfg, s)
    requires Acceptable(cfg, s, n, m, trail) && ChoiceOk(cfg, s.locals[n], n, m, trail, now, chosen)
    ensures BaseInv(cfg, Arrive(cfg, s, n, m, trail, now, chosen))
  {
    var t := Arrive(cfg, s, n, m, trail, now, chosen);
    ArriveFrame(cfg, s, n, m, trail, now, chosen);
    AllArriveCopiesOk(cfg, s, n, m, trail, now, chosen);
    AllArriveOnce(cfg, s, n, m, trail, now, chosen);
    SameLogKeepsBase(cfg, s, t);
  }

  lemma ArriveFrame(cfg: Config, s: State, n: Peer, m: Message, trail: seq<Peer>, now: int, chosen: set<Peer>)
    requires n in cfg.pools && n in s.locals
    ensures var t := Arrive(cfg, s, n, m, trail, now, chosen);
            && t.locals.Keys == s.locals.Keys && t.log == s.log && t.sequences == s.sequences
            && Seen(t, n) == Seen(s, n) + {m.id}
            && forall x :: x != n ==> Seen(t, x) == Seen(s, x)
  {
  }

  lemma SameLogKeepsBase(cfg: Config, s: State, t: State)
    requires BaseInv(cfg, s) && t.locals.Keys == s.locals.Keys && t.log == s.log && t.sequences == s.sequences
    requires forall c :: c in t.net ==> CopyOk(cfg, t, c)
    requires forall x :: Seen(t, x) <= s.log.Keys
    requires forall x, id :: OnceOk(t, x, id)
    ensures BaseInv(cfg, t)
  {
    forall id | id in t.log ensures LoggedOk(cfg, t, id) { assert LoggedOk(cfg, s, id); }
  }

  lemma SequencesStayUnique(cfg: Config, s: State, step: Step)
    requires SequencesUnique(s) && Enabled(cfg, s, step) && (step.Publish? || step.Advertise?)
    requires forall id :: id in s.log ==> LoggedOk(cfg, s, id)
    ensures SequencesUnique(Originated(cfg, s, step))
  {
    var t := Originated(cfg, s, step);
    forall id1, id2 | id1 in t.log && id2 in t.log && SameAd(t.log[id1], t.log[id2]) ensures id1 == id2 {
      if id1 in s.log { assert LoggedOk(cfg, s, id1); }
      if id2 in s.log { assert LoggedOk(cfg, s, id2); }
    }
  }

  lemma LongerLogKeepsBase(cfg: Config, s: State, t: State)
    requires BaseInv(cfg, s) && HistoryGrows(s, t)
    requires t.locals == s.locals && t.net == s.net && t.emitted == s.emitted && t.forwarded == s.forwarded
    requires SequencesUnique(t)
    requires forall id :: id in t.log ==> LoggedOk(cfg, t, id)
    ensures BaseInv(cfg, t)
  {
    forall c | c in t.net ensures CopyOk(cfg, t, c) { CopyOkLater(cfg, s, t, c); }
    forall x ensures Seen(t, x) <= t.log.Keys { assert Seen(s, x) <= s.log.Keys; }
    forall x, id ensures OnceOk(t, x, id) { assert OnceOk(s, x, id) && Seen(s, x) <= s.log.Keys; }
  }

  lemma OriginatedLogged(cfg: Config, s: State, step: Step, id: Id)
    requires Enabled(cfg, s, step) && (step.Publish? || step.Advertise?)
    requires id in Originated(cfg, s, step).log && (id in s.log ==> LoggedOk(cfg, s, id))
    ensures LoggedOk(cfg, Originated(cfg, s, step), id)
  {
  }

  lemma OriginatedAcceptable(cfg: Config, s: State, step: Step)
    requires Enabled(cfg, s, step) && (step.Publish? || step.Advertise?)
    ensures Acceptable(cfg, Originated(cfg, s, step), step.node, NewMessage(cfg, step, s), [])
    ensures HistoryGrows(s, Originated(cfg, s, step))
  {
  }

  lemma OriginatedKeepsBase(cfg: Config, s: State, step: Step)
    requires BaseInv(cfg, s) && Enabled(cfg, s, step) && (step.Publish? || step.Advertise?)
    ensures BaseInv(cfg, Originated(cfg, s, step))
  {
    var t := Originated(cfg, s, step);
    forall id | id in t.log ensures LoggedOk(cfg, t, id) { OriginatedLogged(cfg, s, step, id); }
    SequencesStayUnique(cfg, s, step);
    OriginatedAcceptable(cfg, s, step);
    LongerLogKeepsBase(cfg, s, t);
  }

  lemma OriginationKeepsBase(cfg: Config, s: State, step: Step)
    requires ValidConfig(cfg) && BaseInv(cfg, s) && Enabled(cfg, s, step) && (step.Publish? || step.Advertise?)
    ensures BaseInv(cfg, Next(cfg, s, step))
    ensures HistoryGrows(s, Next(cfg, s, step))
  {
    var chosen := if step.Publish? then step.chosen else {};
    var t, m := Originated(cfg, s, step), NewMessage(cfg, step, s);
    OriginatedKeepsBase(cfg, s, step);
    OriginatedAcceptable(cfg, s, step);
    ArriveGrows(cfg, t, step.node, m, [], step.now, chosen);
    ArriveKeepsBase(cfg, t, step.node, m, [], step.now, chosen);
    HistoryTransitive(s, t, Next(cfg, s, step));
  }

  lemma TakenKeepsBase(cfg: Config, s: State, c: Copy)
    requires BaseInv(cfg, s) && c in s.net
    ensures BaseInv(cfg, Taken(s, c)) && HistoryGrows(s, Taken(s, c)) && CopyOk(cfg, Taken(s, c), c)
  {
    SameHistoryKeepsBase(cfg, s, Taken(s, c));
    CopyOkLater(cfg, s, Taken(s, c), c);
  }

  lemma DeliveryKeepsBase(cfg: Config, s: State, step: Step)
    requires ValidConfig(cfg) && BaseInv(cfg, s) && Enabled(cfg, s, step) && step.Deliver?
    ensures BaseInv(cfg, Next(cfg, s, step))
    ensures HistoryGrows(s, Next(cfg, s, step))
  {
    var c := step.copy;
    var t := Taken(s, c);
    TakenKeepsBase(cfg, s, c);
    ArriveGrows(cfg, t, c.to, c.msg, c.trail, step.now, step.chosen);
    ArriveKeepsBase(cfg, t, c.to, c.msg, c.trail, step.now, step.chosen);
    HistoryTransitive(s, t, Next(cfg, s, step));
  }

  lemma WithRoutesKeepsBase(cfg: Config, s: State, n: Peer, table: Table)
    requires BaseInv(cfg, s) && n in s.locals
    ensures BaseInv(cfg, WithRoutes(s, n, table)) && HistoryGrows(s, WithRoutes(s, n, table))
  {
    SameHistoryKeepsBase(cfg, s, WithRoutes(s, n, table));
  }

  lemma TableStepKeepsBase(cfg: Config, s: State, step: Step)
    requires BaseInv(cfg, s) && Enabled(cfg, s, step) && (step.Handshake? || step.Collect? || step.Disconnect?)
    ensures BaseInv(cfg, Next(cfg, s, step)) && HistoryGrows(s, Next(cfg, s, step))
  {
    WithRoutesKeepsBase(cfg, s, step.node, Next(cfg, s, step).locals[step.node].routes);
  }

  lemma NextKeepsBase(cfg: Config, s: State, step: Step)
    requires ValidConfig(cfg) && BaseInv(cfg, s) && Enabled(cfg, s, step)
    ensures BaseInv(cfg, Next(cfg, s, step))
    ensures HistoryGrows(s, Next(cfg, s, step))
  {
    if step.Publish? || step.Advertise? {
      OriginationKeepsBase(cfg, s, step);
    } else if step.Deliver? {
      DeliveryKeepsBase(cfg, s, step);
    } else if step.Lose? {
      TakenKeepsBase(cfg, s, step.copy);
    } else if step.Duplicate? {
      SameHistoryKeepsBase(cfg, s, Next(cfg, s, step));
    } else {
      TableStepKeepsBase(cfg, s, step);
    }
  }

  /** Neither the tables nor the multiplicity of copies matter to the base invariant. */
  lemma SameHistoryKeepsBase(cfg: Config, s: State, t: State)
    requires BaseInv(cfg, s) && t.locals.Keys == s.locals.Keys
    requires forall n :: Seen(t, n) == Seen(s, n)
    requires t.log == s.log && t.sequences == s.sequences && t.emitted == s.emitted && t.forwarded == s.forwarded
    requires forall c :: c in t.net ==> c in s.net
    ensures BaseInv(cfg, t) && HistoryGrows(s, t)
  {
    forall c | c in t.net ensures CopyOk(cfg, t, c) { CopyOkLater(cfg, s, t, c); }
    forall id | id in t.log ensures LoggedOk(cfg, t, id) { assert LoggedOk(cfg, s, id); }
    forall x, id ensures OnceOk(t, x, id) { assert OnceOk(s, x, id); }
  }

  lemma InitialBase(cfg: Config)
    ensures BaseInv(cfg, Initial(cfg))
  {
  }

  lemma {:induction false} RunKeepsBase(cfg: Config, s: State, steps: seq<Step>, end: State)
    requires ValidConfig(cfg) && BaseInv(cfg, s) && Run(cfg, s, steps, end)
    ensures BaseInv(cfg, end)
    decreases |steps|
  {
    if steps != [] {
      NextKeepsBase(cfg, s, steps[0]);
      RunKeepsBase(cfg, Next(cfg, s, steps[0]), steps[1..], end);
    }
  }

  // ---- Theorems about every run ----

  lemma AllCopiesOk(cfg: Config, steps: seq<Step>, s: State, c: Copy)
    requires ValidConfig(cfg) && Run(cfg, Initial(cfg), steps, s) && c in s.net
    ensures CopyOk(cfg, s, c)
  {
    InitialBase(cfg);
    RunKeepsBase(cfg, Initial(cfg), steps, s);
  }

  /** An advertisement in flight carries a duplicate-free path that starts at its sender, follows
      links, ends at the node that sent this copy and avoids the receiver; path and TTL add up. */
  lemma PathVectorInvariant(cfg: Config, steps: seq<Step>, s: State, c: Copy)
    requires ValidConfig(cfg) && Run(cfg, Initial(cfg), steps, s)
    requires c in s.net && c.msg.kind.Control?
    ensures var p := c.msg.routingPath;
            && p != [] && p[0] == c.msg.sender && p[|p| - 1] == c.from
            && NoDup(p + [c.to]) && Linked(cfg, p + [c.to])
            && |p| + c.msg.ttl == cfg.maxTtl && c.msg.ttl >= 1
  {
    AllCopiesOk(cfg, steps, s, c);
  }

  // ---- Installed routes ----

  /** A route from a handshake goes straight to the neighbour. */
  ghost predicate Direct(cfg: Config, n: Peer, origin: Peer, r: Route) {
    origin in Links(cfg, n) && r.sequenceNumber == 0 && r.hopCount == 0 && r.nextHop == origin && r.path == []
  }

  /** A route from an advertisement repeats its path vector; the originator's own one is empty. */
  ghost predicate Learned(cfg: Config, n: Peer, origin: Peer, r: Route) {
    && r.hopCount == |r.path| && r.sequenceNumber >= 1
    && if n == origin then r.path == [] && r.nextHop == n
       else
         && 1 <= |r.path| < cfg.maxTtl && r.path[0] == origin && r.nextHop == r.path[|r.path| - 1]
         && NoDup(r.path + [n]) && Linked(cfg, r.path + [n])
  }

  /** A route of one of the two forms, no newer than what its origin has advertised. */
  ghost predicate Shaped(cfg: Config, s: State, n: Peer, topic: Topic, origin: Peer, r: Route) {
    (Direct(cfg, n, origin, r) || Learned(cfg, n, origin, r)) && r.sequenceNumber <= SequenceOf(s, origin, topic)
  }

  ghost predicate TableShaped(cfg: Config, s: State, n: Peer, t: Table) {
    forall topic, origin :: Lookup(t, topic, origin).Some? ==> Shaped(cfg, s, n, topic, origin, Lookup(t, topic, origin).value)
  }

  ghost predicate RoutesShaped(cfg: Config, s: State) {
    forall n :: n in s.locals ==> TableShaped(cfg, s, n, s.locals[n].routes)
  }

  /** Sequence numbers never go back. */
  ghost predicate SequencesGrow(s: State, t: State) {
    forall origin, topic :: SequenceOf(s, origin, topic) <= SequenceOf(t, origin, topic)
  }

  lemma AcceptShaped(cfg: Config, s: State, n: Peer, t: Table, o: Offer)
    requires TableShaped(cfg, s, n, t) && Shaped(cfg, s, n, o.topic, o.origin, o.route)
    ensures TableShaped(cfg, s, n, Accept(t, o))
  {
    forall topic, origin | Lookup(Accept(t, o), topic, origin).Some?
      ensures Shaped(cfg, s, n, topic, origin, Lookup(Accept(t, o), topic, origin).value)
    {
      LookupAccept(t, o, topic, origin);
    }
  }

  lemma RetainShaped(cfg: Config, s: State, n: Peer, t: Table, keep: Keep)
    requires TableShaped(cfg, s, n, t)
    ensures TableShaped(cfg, s, n, Retain(t, keep))
  {
    forall topic, origin | Lookup(Retain(t, keep), topic, origin).Some?
      ensures Shaped(cfg, s, n, topic, origin, Lookup(Retain(t, keep), topic, origin).value)
    {
      LookupRetain(t, keep, topic, origin);
    }
  }

  lemma ShapedLater(cfg: Config, s: State, t: State, n: Peer, table: Table)
    requires SequencesGrow(s, t) && TableShaped(cfg, s, n, table)
    ensures TableShaped(cfg, t, n, table)
  {
    forall topic, origin | Lookup(table, topic, origin).Some?
      ensures Shaped(cfg, t, n, topic, origin, Lookup(table, topic, origin).value)
    {
      assert Shaped(cfg, s, n, topic, origin, Lookup(table, topic, origin).value);
      assert SequenceOf(s, origin, topic) <= SequenceOf(t, origin, topic);
    }
  }

  lemma AllShapedLater(cfg: Config, s: State, t: State)
    requires SequencesGrow(s, t) && RoutesShaped(cfg, s) && t.locals == s.locals
    ensures RoutesShaped(cfg, t)
  {
    forall n | n in t.locals ensures TableShaped(cfg, t, n, t.locals[n].routes) { ShapedLater(cfg, s, t, n, t.locals[n].routes); }
  }

  /** What an acceptable advertisement offers is a proper route. */
  lemma OfferShaped(cfg: Config, s: State, n: Peer, m: Message, trail: seq<Peer>, now: int)
    requires Acceptable(cfg, s, n, m, trail) && LoggedOk(cfg, s, m.id) && m.kind.Control? && (trail != [] ==> m.ttl >= 1)
    ensures Learned(cfg, n, m.sender, AdOffer(n, m, Inbound(trail), now).route)
    ensures m.kind.payload.sequenceNumber <= SequenceOf(s, m.sender, m.kind.payload.topic)
  {
    assert NoDup(trail + [n]);
    assert Linked(cfg, trail + [n]);
  }

  lemma ArriveKeepsShape(cfg: Config, s: State, n: Peer, m: Message, trail: seq<Peer>, now: int, chosen: set<Peer>)
    requires s.locals.Keys == Nodes(cfg) && RoutesShaped(cfg, s)
    requires Acceptable(cfg, s, n, m, trail) && LoggedOk(cfg, s, m.id) && (trail != [] ==> m.ttl >= 1)
    ensures RoutesShaped(cfg, Arrive(cfg, s, n, m, trail, now, chosen))
  {
    var l := s.locals[n];
    var e := Receive(n, Links(cfg, n), l, m, Inbound(trail), now, chosen);
    if m.kind.Control? {
      OfferShaped(cfg, s, n, m, trail, now);
      AcceptShaped(cfg, s, n, l.routes, AdOffer(n, m, Inbound(trail), now));
      RetainShaped(cfg, s, n, l.routes, OtherThan(m.kind.payload.topic, m.sender));
    }
    hide Accept, Retain, TableShaped, Copies, Acceptable, LoggedOk, Shaped;
    assert TableShaped(cfg, s, n, e.local.routes);
    AfterArrival(cfg, s, n, m, trail, now, chosen);
  }

  lemma AfterArrival(cfg: Config, s: State, n: Peer, m: Message, trail: seq<Peer>, now: int, chosen: set<Peer>)
    requires n in cfg.pools && n in s.locals && RoutesShaped(cfg, s)
    requires TableShaped(cfg, s, n, Receive(n, Links(cfg, n), s.locals[n], m, Inbound(trail), now, chosen).local.routes)
    ensures RoutesShaped(cfg, Arrive(cfg, s, n, m, trail, now, chosen))
  {
    hide Receive, Copies, Shaped;
    var t := Arrive(cfg, s, n, m, trail, now, chosen);
    forall x | x in t.locals ensures TableShaped(cfg, t, x, t.locals[x].routes) {
      ShapedLater(cfg, s, t, x, t.locals[x].routes);
    }
  }

  lemma TableStepKeepsShape(cfg: Config, s: State, step: Step)
    requires ValidConfig(cfg) && RoutesShaped(cfg, s) && Enabled(cfg, s, step)
    requires step.Handshake? || step.Collect? || step.Disconnect?
    ensures RoutesShaped(cfg, Next(cfg, s, step))
  {
    hide TableShaped;
    var n := step.node;
    var table := s.locals[n].routes;
    match step {
      case Handshake(_, peer, topic, now) =>
        AcceptShaped(cfg, s, n, table, Offer(topic, peer, Route(peer, 0, 0, [], now + ROUTE_LEASE_MS)));
      case Collect(_, now) => RetainShaped(cfg, s, n, table, LiveAt(now));
      case Disconnect(_, peer) => RetainShaped(cfg, s, n, table, AwayFrom(peer));
    }
    var t := Next(cfg, s, step);
    forall x | x in t.locals ensures TableShaped(cfg, t, x, t.locals[x].routes) {
      ShapedLater(cfg, s, t, x, t.locals[x].routes);
    }
  }

  lemma NextKeepsShape(cfg: Config, s: State, step: Step)
    requires ValidConfig(cfg) && BaseInv(cfg, s) && RoutesShaped(cfg, s) && Enabled(cfg, s, step)
    ensures RoutesShaped(cfg, Next(cfg, s, step))
  {
    hide RoutesShaped;
    if step.Publish? || step.Advertise? {
      var u := Originated(cfg, s, step);
      OriginatedAcceptable(cfg, s, step);
      OriginatedLogged(cfg, s, step, step.id);
      AllShapedLater(cfg, s, u);
      ArriveKeepsShape(cfg, u, step.node, NewMessage(cfg, step, s), [], step.now, if step.Publish? then step.chosen else {});
    } else if step.Deliver? {
      TakenKeepsBase(cfg, s, step.copy);
      AllShapedLater(cfg, s, Taken(s, step.copy));
      ArriveKeepsShape(cfg, Taken(s, step.copy), step.copy.to, step.copy.msg, step.copy.trail, step.now, step.chosen);
    } else if step.Handshake? || step.Collect? || step.Disconnect? {
      TableStepKeepsShape(cfg, s, step);
    } else {
      AllShapedLater(cfg, s, Next(cfg, s, step));
    }
  }

  lemma {:induction false} RunKeepsShape(cfg: Config, s: State, steps: seq<Step>, end: State)
    requires ValidConfig(cfg) && BaseInv(cfg, s) && RoutesShaped(cfg, s) && Run(cfg, s, steps, end)
    ensures RoutesShaped(cfg, end)
    decreases |steps|
  {
    if steps != [] {
      NextKeepsBase(cfg, s, steps[0]);
      NextKeepsShape(cfg, s, steps[0]);
      RunKeepsShape(cfg, Next(cfg, s, steps[0]), steps[1..], end);
    }
  }

  lemma RoutesAlwaysShaped(cfg: Config, steps: seq<Step>, s: State)
    requires ValidConfig(cfg) && Run(cfg, Initial(cfg), steps, s)
    ensures RoutesShaped(cfg, s)
  {
    InitialBase(cfg);
    RunKeepsShape(cfg, Initial(cfg), steps, s);
  }

  /** In every run, deletions included, every route at a node stems from a handshake with its origin or
      from an advertisement. In the second case the hop count is the length of the path, the next hop is
      its last node, and the path is a simple one of fewer than maxTtl nodes, along links from the origin;
      the originator's own entry has the empty path. No route is newer than what its origin advertised. */
  lemma InstalledRoutes(cfg: Config, steps: seq<Step>, s: State, n: Peer, topic: Topic, origin: Peer)
    requires ValidConfig(cfg) && Run(cfg, Initial(cfg), steps, s) && Entry(s, n, topic, origin).Some?
    ensures var r := Entry(s, n, topic, origin).value;
            && 0 <= r.sequenceNumber <= SequenceOf(s, origin, topic)
            && if r.sequenceNumber == 0 then
                 origin in Links(cfg, n) && r.hopCount == 0 && r.nextHop == origin && r.path == []
               else
                 && r.hopCount == |r.path|
                 && if n == origin then r.path == [] && r.nextHop == n
                    else
                      && 1 <= |r.path| < cfg.maxTtl && r.path[0] == origin && r.nextHop == r.path[|r.path| - 1]
                      && NoDup(r.path + [n]) && Linked(cfg, r.path + [n])
  {
    RoutesAlwaysShaped(cfg, steps, s);
    assert TableShaped(cfg, s, n, s.locals[n].routes);
    assert Shaped(cfg, s, n, topic, origin, Entry(s, n, topic, origin).value);
  }

  /** No copy of any message is on more than its (maxTtl - 1)-th hop, and it visited no node twice. */
  lemma HopBound(cfg: Config, steps: seq<Step>, s: State, c: Copy)
    requires ValidConfig(cfg) && Run(cfg, Initial(cfg), steps, s) && c in s.net
    ensures 1 <= |c.trail| <= cfg.maxTtl - 1 && NoDup(c.trail) && c.trail[0] == c.msg.sender
    ensures |c.trail| <= |Nodes(cfg)|
  {
    AllCopiesOk(cfg, steps, s, c);
    NoDupWithin(c.trail, Nodes(cfg));
  }

  /** Every node hands a message over and broadcasts it at most once, and it has handed over every
      ordinary message that it has seen. */
  lemma AtMostOnce(cfg: Config, steps: seq<Step>, s: State, n: Peer, id: Id)
    requires ValidConfig(cfg) && Run(cfg, Initial(cfg), steps, s)
    ensures s.emitted[(n, id)] <= 1 && s.forwarded[(n, id)] <= 1
    ensures id in s.log && s.log[id].kind.Ordinary? ==> s.emitted[(n, id)] == if id in Seen(s, n) then 1 else 0
  {
    InitialBase(cfg);
    RunKeepsBase(cfg, Initial(cfg), steps, s);
    assert OnceOk(s, n, id);
  }

  lemma {:induction false} NoDupWithin<T>(p: seq<T>, all: set<T>)
    requires NoDup(p) && forall i :: 0 <= i < |p| ==> p[i] in all
    ensures |p| <= |all|
    ensures |p| == |all| ==> forall x :: x in all ==> x in p
    decreases |p|
  {
    if p != [] {
      var last := p[|p| - 1];
      NoDupWithin(p[..|p| - 1], all - {last});
      assert all == (all - {last}) + {last};
    } else if |all| == 0 {
      assert all == {};
    }
  }
}
