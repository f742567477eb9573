/** An advertisement that is delivered along a path: what it leaves at the nodes it passes. */
module Travel {
  import opened Common
  import opened TopicRouting
  import opened Gossip
  import opened Network

  /** What stays the same of an advertisement on its way. */
  datatype Ad = Ad(id: Id, topic: Topic, sequence: int, action: Action)

  function AdMessage(ad: Ad, sender: Peer, ttl: int, path: seq<Peer>): Message {
    Message(ad.id, Control(SubAd(ad.topic, ad.sequence, ad.action)), sender, "global", ttl, path)
  }

  ghost predicate TravelPath(cfg: Config, path: seq<Peer>) {
    2 <= |path| <= cfg.maxTtl && NoDup(path) && Linked(cfg, path)
  }

  /** The copy on its way to the k-th node of the path. */
  function HopCopy(cfg: Config, ad: Ad, path: seq<Peer>, k: nat): Copy
    requires 1 <= k < |path|
  {
    Copy(path[k - 1], path[k], AdMessage(ad, path[0], cfg.maxTtl - k, path[..k]), path[..k])
  }

  /** A node at which the advertisement changes the table. */
  ghost predicate Ready(s: State, n: Peer, ad: Ad, origin: Peer) {
    && ad.id !in Seen(s, n)
    && var e := Entry(s, n, ad.topic, origin);
       (ad.action == Join && (e.Some? ==> e.value.sequenceNumber < ad.sequence)) || (ad.action == Leave && e.Some?)
  }

  /** The entry that it leaves there. */
  function Left(ad: Ad, n: Peer, trail: seq<Peer>, now: int): Option<Route> {
    if ad.action == Join
    then Some(Route(if trail == [] then n else trail[|trail| - 1], |trail|, ad.sequence, trail, now + ROUTE_LEASE_MS))
    else None
  }

  /** Node `n` took the advertisement in, and no other node changed. */
  ghost predicate Took(s: State, t: State, n: Peer, ad: Ad, origin: Peer, trail: seq<Peer>, now: int) {
    && t.locals.Keys == s.locals.Keys && Entry(t, n, ad.topic, origin) == Left(ad, n, trail, now) && Seen(t, n) == Seen(s, n) + {ad.id}
    && forall x :: x in s.locals && x != n ==> t.locals[x] == s.locals[x]
  }

  lemma ArrivalTaken(cfg: Config, s: State, n: Peer, m: Message, ad: Ad, trail: seq<Peer>, now: int)
    requires s.locals.Keys == Nodes(cfg) && n in Nodes(cfg) && n !in trail && Ready(s, n, ad, m.sender)
    requires m == AdMessage(ad, m.sender, m.ttl, trail)
    ensures Took(s, Arrive(cfg, s, n, m, trail, now, {}), n, ad, m.sender, trail, now)
  {
    LookupAccept(s.locals[n].routes, AdOffer(n, m, Inbound(trail), now), ad.topic, m.sender);
    LookupRetain(s.locals[n].routes, OtherThan(ad.topic, m.sender), ad.topic, m.sender);
    hide Accept, Retain, Copies;
  }

  lemma ArrivalPassedOn(cfg: Config, s: State, n: Peer, m: Message, ad: Ad, trail: seq<Peer>, p: Peer, now: int)
    requires s.locals.Keys == Nodes(cfg) && n in Nodes(cfg) && n !in trail && Ready(s, n, ad, m.sender)
    requires m == AdMessage(ad, m.sender, m.ttl, trail) && m.ttl > 1
    requires p in Links(cfg, n) && p !in trail && p != n && p != m.sender
    ensures Copy(n, p, AdMessage(ad, m.sender, m.ttl - 1, trail + [n]), trail + [n]) in Arrive(cfg, s, n, m, trail, now, {}).net
  {
    hide Accept, Retain, Copies;
    var e := Receive(n, Links(cfg, n), s.locals[n], m, Inbound(trail), now, {});
    assert p !in Set(trail + [n]);
    SentTo(cfg.pools[n], n, e.targets, e.message, trail + [n], p);
  }

  lemma SentTo(pool: Pool, self: Peer, targets: set<Peer>, m: Message, trail: seq<Peer>, p: Peer)
    requires p in targets && p in pool.outbound + pool.inbound
    ensures Copy(self, p, m, trail) in Copies(pool, self, targets, m, trail)
  {
    if p in pool.outbound {
      assert Copy(self, p, m, trail) in OneWay(pool.outbound, self, targets, m, trail);
    } else {
      assert Copy(self, p, m, trail) in OneWay(pool.inbound, self, targets, m, trail);
    }
  }

  /** The messages in flight under other ids stay there. */
  ghost predicate OthersStay(s: State, t: State, id: Id) {
    forall c :: c in s.net && c.msg.id != id ==> c in t.net
  }

  // ---- One hop ----

  lemma OneHop(cfg: Config, s: State, ad: Ad, path: seq<Peer>, k: nat, now: int) returns (t: State)
    requires ValidConfig(cfg) && s.locals.Keys == Nodes(cfg) && TravelPath(cfg, path) && 1 <= k < |path|
    requires HopCopy(cfg, ad, path, k) in s.net && Ready(s, path[k], ad, path[0])
    ensures var step := Deliver(HopCopy(cfg, ad, path, k), now, {}); Enabled(cfg, s, step) && t == Next(cfg, s, step)
    ensures Took(s, t, path[k], ad, path[0], path[..k], now) && OthersStay(s, t, ad.id)
    ensures t.log == s.log && t.sequences == s.sequences
    ensures k + 1 < |path| ==> HopCopy(cfg, ad, path, k + 1) in t.net
  {
    hide Arrive, Took, Ready, OthersStay, Next, Enabled;
    var c := HopCopy(cfg, ad, path, k);
    var u, n, trail := Taken(s, c), path[k], path[..k];
    AtHop(cfg, path, k);
    HopEnabled(cfg, s, c, now);
    SameReady(s, u, n, ad, path[0]);
    t := Arrive(cfg, u, n, c.msg, trail, now, {});
    ArrivalTaken(cfg, u, n, c.msg, ad, trail, now);
    TakenStart(s, c, t, ad, path[0], now);
    HopNet(cfg, s, c, t, ad, now);
    if k + 1 < |path| {
      ArrivalPassedOn(cfg, u, n, c.msg, ad, trail, path[k + 1], now);
    }
  }

  /** What a path of links says about its k-th node. */
  lemma AtHop(cfg: Config, path: seq<Peer>, k: nat)
    requires ValidConfig(cfg) && NoDup(path) && Linked(cfg, path) && 1 <= k < |path|
    ensures path[k] in Nodes(cfg) && path[k] !in path[..k]
    ensures k + 1 < |path| ==>
              && path[k + 1] in Links(cfg, path[k]) && path[k + 1] !in path[..k] && path[k + 1] != path[k] && path[k + 1] != path[0]
              && path[..k] + [path[k]] == path[..k + 1]
  {
    assert path[k - 1 + 1] in Links(cfg, path[k - 1]);
  }

  lemma SameReady(s: State, u: State, n: Peer, ad: Ad, origin: Peer)
    requires u.locals == s.locals && Ready(s, n, ad, origin)
    ensures Ready(u, n, ad, origin)
  {
  }

  lemma HopEnabled(cfg: Config, s: State, c: Copy, now: int)
    requires s.locals.Keys == Nodes(cfg) && c in s.net && c.to in Nodes(cfg) && c.msg.kind.Control?
    ensures Enabled(cfg, s, Deliver(c, now, {}))
    ensures Next(cfg, s, Deliver(c, now, {})) == Arrive(cfg, Taken(s, c), c.to, c.msg, c.trail, now, {})
  {
    hide Arrive;
  }

  lemma TakenStart(s: State, c: Copy, t: State, ad: Ad, origin: Peer, now: int)
    requires Took(Taken(s, c), t, c.to, ad, origin, c.trail, now)
    ensures Took(s, t, c.to, ad, origin, c.trail, now)
  {
  }

  lemma HopNet(cfg: Config, s: State, c: Copy, t: State, ad: Ad, now: int)
    requires c.to in cfg.pools && c.to in s.locals && t == Arrive(cfg, Taken(s, c), c.to, c.msg, c.trail, now, {}) && c.msg.id == ad.id
    ensures OthersStay(s, t, ad.id) && t.log == s.log && t.sequences == s.sequences
  {
    hide Receive, Copies;
    forall d | d in s.net && d.msg.id != ad.id ensures d in t.net { assert d in Taken(s, c).net; }
  }

  // ---- Many hops ----

  /** From the k-th node up to, but without, the e-th one every node of the path took the advertisement in. */
  ghost predicate Travelled(cfg: Config, s: State, t: State, ad: Ad, path: seq<Peer>, k: nat, e: nat, now: int)
    requires k <= e <= |path| && path != []
  {
    && t.locals.Keys == s.locals.Keys && t.log == s.log && t.sequences == s.sequences && OthersStay(s, t, ad.id)
    && (forall j :: k <= j < e ==>
          Entry(t, path[j], ad.topic, path[0]) == Left(ad, path[j], path[..j], now) && Seen(t, path[j]) == Seen(s, path[j]) + {ad.id})
    && (forall x :: x in s.locals && x !in path[k..e] ==> t.locals[x] == s.locals[x])
  }

  lemma {:induction false} Travels(cfg: Config, s: State, ad: Ad, path: seq<Peer>, k: nat, e: nat, now: int) returns (steps: seq<Step>, t: State)
    requires ValidConfig(cfg) && s.locals.Keys == Nodes(cfg) && TravelPath(cfg, path) && 1 <= k <= e <= |path|
    requires k < |path| ==> HopCopy(cfg, ad, path, k) in s.net
    requires forall j :: k <= j < e ==> Ready(s, path[j], ad, path[0])
    ensures Run(cfg, s, steps, t) && DeliveriesAt(steps, now)
    ensures Travelled(cfg, s, t, ad, path, k, e, now) && (e < |path| ==> HopCopy(cfg, ad, path, e) in t.net)
    decreases e - k
  {
    hide Run, Next, Enabled;
    if k == e {
      steps, t := [], s;
      NoSteps(cfg, s);
    } else {
      var u := OneHop(cfg, s, ad, path, k, now);
      forall j | k + 1 <= j < e ensures Ready(u, path[j], ad, path[0]) { StillReady(cfg, s, u, ad, path, k, j, now); }
      var rest;
      rest, t := Travels(cfg, u, ad, path, k + 1, e, now);
      var step := Deliver(HopCopy(cfg, ad, path, k), now, {});
      steps := [step] + rest;
      PrependRun(cfg, s, step, rest, t);
      PrependDelivery(step, rest, now);
      TravelledOn(cfg, s, u, t, ad, path, k, e, now);
    }
  }

  lemma StillReady(cfg: Config, s: State, u: State, ad: Ad, path: seq<Peer>, k: nat, j: nat, now: int)
    requires NoDup(path) && 1 <= k < j < |path| && Took(s, u, path[k], ad, path[0], path[..k], now)
    requires Ready(s, path[j], ad, path[0])
    ensures Ready(u, path[j], ad, path[0])
  {
    assert path[j] != path[k];
    assert path[j] in s.locals ==> u.locals[path[j]] == s.locals[path[j]];
  }

  lemma TravelledOn(cfg: Config, s: State, u: State, t: State, ad: Ad, path: seq<Peer>, k: nat, e: nat, now: int)
    requires NoDup(path) && 1 <= k < e <= |path| && Took(s, u, path[k], ad, path[0], path[..k], now) && OthersStay(s, u, ad.id)
    requires u.log == s.log && u.sequences == s.sequences && Travelled(cfg, u, t, ad, path, k + 1, e, now)
    requires forall j :: k <= j < e ==> path[j] in s.locals
    ensures Travelled(cfg, s, t, ad, path, k, e, now)
  {
    forall x | x in s.locals && x !in path[k..e] ensures t.locals[x] == s.locals[x] {
      assert path[k..e][0] == path[k];
      assert path[k..e][1..] == path[k + 1..e];
    }
    forall j | k <= j < e
      ensures Entry(t, path[j], ad.topic, path[0]) == Left(ad, path[j], path[..j], now) && Seen(t, path[j]) == Seen(s, path[j]) + {ad.id}
    {
      if j == k {
        assert path[k] !in path[k + 1..e];
        assert t.locals[path[k]] == u.locals[path[k]];
      } else {
        assert u.locals[path[j]] == s.locals[path[j]];
      }
    }
  }

  // ---- From the start ----

  /** The origin sends the advertisement out. */
  lemma Announced(cfg: Config, s: State, ad: Ad, path: seq<Peer>, now: int) returns (t: State)
    requires ValidConfig(cfg) && s.locals.Keys == Nodes(cfg) && TravelPath(cfg, path)
    requires ad.id !in s.log && Ready(s, path[0], ad, path[0]) && ad.sequence == SequenceOf(s, path[0], ad.topic) + 1
    ensures var step := Advertise(path[0], ad.id, ad.topic, ad.action, now); Enabled(cfg, s, step) && t == Next(cfg, s, step)
    ensures Took(s, t, path[0], ad, path[0], [], now) && s.net <= t.net && t.locals.Keys == s.locals.Keys
    ensures t.log.Keys == s.log.Keys + {ad.id} && t.sequences == s.sequences[(path[0], ad.topic) := ad.sequence as nat]
    ensures HopCopy(cfg, ad, path, 1) in t.net
  {
    hide Arrive, Took, Ready, Next, Enabled;
    var n := path[0];
    var step := Advertise(n, ad.id, ad.topic, ad.action, now);
    var u, m := Originated(cfg, s, step), AdMessage(ad, n, cfg.maxTtl, []);
    assert path[1] in Links(cfg, n) && path[1] != n && n in Nodes(cfg);
    ReadyIsKnown(s, n, ad, n);
    AnnouncementIsArrival(cfg, s, step, m, now);
    SameReady(s, u, n, ad, n);
    t := Arrive(cfg, u, n, m, [], now, {});
    ArrivalTaken(cfg, u, n, m, ad, [], now);
    FromStart(s, u, t, n, ad, now);
    ArrivalPassedOn(cfg, u, n, m, ad, [], path[1], now);
    assert [] + [n] == path[..1];
    AnnouncedNet(cfg, s, step, u, t, m, now);
  }

  lemma ReadyIsKnown(s: State, n: Peer, ad: Ad, origin: Peer)
    requires Ready(s, n, ad, origin)
    ensures ad.action != Unknown
  {
  }

  lemma FromStart(s: State, u: State, t: State, n: Peer, ad: Ad, now: int)
    requires u.locals == s.locals && Took(u, t, n, ad, n, [], now)
    ensures Took(s, t, n, ad, n, [], now) && t.locals.Keys == s.locals.Keys
  {
  }

  lemma AnnouncedNet(cfg: Config, s: State, step: Step, u: State, t: State, m: Message, now: int)
    requires step.Advertise? && step.node in cfg.pools && step.node in s.locals && m == NewMessage(cfg, step, s)
    requires u == Originated(cfg, s, step) && t == Arrive(cfg, u, step.node, m, [], now, {})
    ensures s.net <= t.net && t.log.Keys == s.log.Keys + {step.id}
    ensures t.sequences == s.sequences[(step.node, step.topic) := SequenceOf(s, step.node, step.topic) + 1]
  {
    hide Receive, Copies;
  }

  lemma AnnouncementIsArrival(cfg: Config, s: State, step: Step, m: Message, now: int)
    requires s.locals.Keys == Nodes(cfg) && step.Advertise? && step.node in Nodes(cfg) && step.id !in s.log && step.action != Unknown && step.now == now
    requires m == NewMessage(cfg, step, s)
    ensures Enabled(cfg, s, step) && Next(cfg, s, step) == Arrive(cfg, Originated(cfg, s, step), step.node, m, [], now, {})
  {
    hide Arrive;
  }

  lemma PathNodes(cfg: Config, path: seq<Peer>)
    requires ValidConfig(cfg) && TravelPath(cfg, path)
    ensures forall j :: 0 <= j < |path| ==> path[j] in Nodes(cfg)
  {
    forall j | 0 <= j < |path| ensures path[j] in Nodes(cfg) {
      if j == 0 { assert path[0 + 1] in Links(cfg, path[0]); } else { assert path[j - 1 + 1] in Links(cfg, path[j - 1]); }
    }
  }

  /** What one announcement and its deliveries up to the e-th node make of state `s`. */
  ghost predicate Spread(cfg: Config, s: State, t: State, ad: Ad, path: seq<Peer>, e: nat, now: int)
    requires 1 <= e <= |path|
  {
    && t.locals.Keys == s.locals.Keys && t.log.Keys == s.log.Keys + {ad.id} && SequenceOf(t, path[0], ad.topic) == ad.sequence
    && OthersStay(s, t, ad.id) && (e < |path| ==> HopCopy(cfg, ad, path, e) in t.net)
    && (forall j :: 0 <= j < e ==>
          Entry(t, path[j], ad.topic, path[0]) == Left(ad, path[j], path[..j], now) && Seen(t, path[j]) == Seen(s, path[j]) + {ad.id})
    && (forall x :: x in s.locals && x !in path[..e] ==> t.locals[x] == s.locals[x])
  }

  /** An announcement can be made to spread along a path on which everyone is ready for it. */
  lemma Spreads(cfg: Config, s: State, ad: Ad, path: seq<Peer>, e: nat, now: int) returns (steps: seq<Step>, t: State)
    requires ValidConfig(cfg) && s.locals.Keys == Nodes(cfg) && TravelPath(cfg, path) && 1 <= e <= |path|
    requires ad.id !in s.log && ad.sequence == SequenceOf(s, path[0], ad.topic) + 1
    requires forall j :: 0 <= j < e ==> Ready(s, path[j], ad, path[0])
    ensures var step := Advertise(path[0], ad.id, ad.topic, ad.action, now);
            Enabled(cfg, s, step) && Run(cfg, Next(cfg, s, step), steps, t) && DeliveriesAt(steps, now)
    ensures Spread(cfg, s, t, ad, path, e, now)
  {
    hide Enabled, Next, Run, Travelled, Took, Ready, Spread;
    var u := Announced(cfg, s, ad, path, now);
    forall j | 1 <= j < e ensures Ready(u, path[j], ad, path[0]) { ReadyAfterStart(s, u, path, j, ad, now); }
    steps, t := Travels(cfg, u, ad, path, 1, e, now);
    PathNodes(cfg, path);
    WholeSpread(cfg, s, u, t, ad, path, e, now);
  }

  lemma ReadyAfterStart(s: State, u: State, path: seq<Peer>, j: nat, ad: Ad, now: int)
    requires NoDup(path) && 1 <= j < |path| && Took(s, u, path[0], ad, path[0], [], now) && Ready(s, path[j], ad, path[0])
    ensures Ready(u, path[j], ad, path[0])
  {
    assert path[j] in s.locals ==> u.locals[path[j]] == s.locals[path[j]];
  }

  lemma WholeSpread(cfg: Config, s: State, u: State, t: State, ad: Ad, path: seq<Peer>, e: nat, now: int)
    requires NoDup(path) && 1 <= e <= |path| && Took(s, u, path[0], ad, path[0], [], now) && Travelled(cfg, u, t, ad, path, 1, e, now)
    requires s.net <= u.net && u.log.Keys == s.log.Keys + {ad.id} && SequenceOf(u, path[0], ad.topic) == ad.sequence
    requires e < |path| ==> HopCopy(cfg, ad, path, e) in t.net
    requires path[0] in s.locals && forall j :: 0 <= j < e ==> path[j] in s.locals
    ensures Spread(cfg, s, t, ad, path, e, now)
  {
    forall j | 0 <= j < e
      ensures Entry(t, path[j], ad.topic, path[0]) == Left(ad, path[j], path[..j], now) && Seen(t, path[j]) == Seen(s, path[j]) + {ad.id}
    {
      if j == 0 {
        assert path[0] !in path[1..e];
        assert t.locals[path[0]] == u.locals[path[0]];
      } else {
        assert u.locals[path[j]] == s.locals[path[j]];
      }
    }
    forall x | x in s.locals && x !in path[..e] ensures t.locals[x] == s.locals[x] {
      assert path[..e] == [path[0]] + path[1..e];
    }
    forall c | c in s.net && c.msg.id != ad.id ensures c in t.net { assert c in u.net; }
  }

  lemma SpreadAt(cfg: Config, s: State, t: State, ad: Ad, path: seq<Peer>, e: nat, j: nat, now: int)
    requires 1 <= e <= |path| && Spread(cfg, s, t, ad, path, e, now) && j < e
    ensures Entry(t, path[j], ad.topic, path[0]) == Left(ad, path[j], path[..j], now) && Seen(t, path[j]) == Seen(s, path[j]) + {ad.id}
  {
  }

  lemma SpreadElsewhere(cfg: Config, s: State, t: State, ad: Ad, path: seq<Peer>, e: nat, x: Peer, now: int)
    requires 1 <= e <= |path| && Spread(cfg, s, t, ad, path, e, now) && x in s.locals && x !in path[..e]
    ensures Seen(t, x) == Seen(s, x) && Entry(t, x, ad.topic, path[0]) == Entry(s, x, ad.topic, path[0])
  {
  }

  lemma SpreadFrame(cfg: Config, s: State, t: State, ad: Ad, path: seq<Peer>, e: nat, c: Copy, now: int)
    requires 1 <= e <= |path| && Spread(cfg, s, t, ad, path, e, now)
    ensures t.locals.Keys == s.locals.Keys && t.log.Keys == s.log.Keys + {ad.id} && SequenceOf(t, path[0], ad.topic) == ad.sequence
    ensures c in s.net && c.msg.id != ad.id ==> c in t.net
    ensures e < |path| ==> HopCopy(cfg, ad, path, e) in t.net
  {
  }
}
