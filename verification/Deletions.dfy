/** Runs that delete routes: exactly when they can loop, and what they can leave behind once all is quiet. */
module Deletions {
  import opened Common
  import opened TopicRouting
  import opened Gossip
  import opened Network
  import opened PathVector
  import opened LoopFreedom
  import opened Cycles
  import opened Travel
  import opened Termination
  import opened Coverage
  import StepLaws

  /** The three ways in which a table loses a route. */
  datatype Deletion = ByLeave | ByCollection | ByDisconnection

  predicate Deletes(kind: Deletion, step: Step) {
    match kind
    case ByLeave => step.Advertise? && step.action == Leave
    case ByCollection => step.Collect?
    case ByDisconnection => step.Disconnect?
  }

  /** All deletions in the run are of this kind. */
  ghost predicate OnlyBy(kind: Deletion, steps: seq<Step>) {
    forall i :: 0 <= i < |steps| ==> KeepsRoutes(steps[i]) || Deletes(kind, steps[i])
  }

  ghost predicate NothingLost(steps: seq<Step>) {
    forall i :: 0 <= i < |steps| ==> !steps[i].Lose?
  }

  /** The routes along the walk have not expired. */
  ghost predicate LiveWalk(s: State, topic: Topic, origin: Peer, w: seq<Peer>, now: int) {
    forall i :: 0 <= i < |w| - 1 ==> Entry(s, w[i], topic, origin).Some? && now <= Entry(s, w[i], topic, origin).value.expiresAt
  }

  /** In runs with this kind of deletion, in which no clock goes backwards, no chain of next hops that have not
      expired at the end visits a node twice. */
  ghost predicate LoopFreeBy(cfg: Config, kind: Deletion) {
    forall steps, s, topic, origin, w, now ::
      (&& Run(cfg, Initial(cfg), steps, s) && OnlyBy(kind, steps) && Chronological(steps) && Until(steps, now)
       && Follows(s, topic, origin, w) && LiveWalk(s, topic, origin, w, now))
      ==> NoDup(w)
  }

  /** A ring of three or more nodes, short enough for advertisements to meet from both sides. */
  ghost predicate HasShortCycle(cfg: Config) {
    exists p :: SimpleCycle(cfg, p) && |p| <= 2 * cfg.maxTtl - 3
  }

  // ---- A loop needs a short cycle ----

  function PathAt(s: State, topic: Topic, origin: Peer, n: Peer): seq<Peer> {
    if Entry(s, n, topic, origin).Some? then Entry(s, n, topic, origin).value.path else []
  }

  /** Going round a loop the paths cannot always get shorter by one node, so two of them differ. */
  lemma {:induction false} PathsDiffer(s: State, topic: Topic, origin: Peer, w: seq<Peer>, k: nat, j: nat) returns (i: nat)
    requires k < j < |w| && |PathAt(s, topic, origin, w[k])| < |PathAt(s, topic, origin, w[j])| + (j - k)
    ensures k <= i < j && PathAt(s, topic, origin, w[i]) != PathAt(s, topic, origin, w[i + 1]) + [w[i + 1]]
    decreases j - k
  {
    if PathAt(s, topic, origin, w[k]) != PathAt(s, topic, origin, w[k + 1]) + [w[k + 1]] {
      i := k;
    } else {
      i := PathsDiffer(s, topic, origin, w, k + 1, j);
    }
  }

  /** The paths of two consecutive nodes of a loop, both led to the second of them. */
  lemma LearnedPaths(cfg: Config, s: State, topic: Topic, origin: Peer, x: Peer, y: Peer)
    requires RoutesShaped(cfg, s) && x != origin && y != origin
    requires Entry(s, x, topic, origin).Some? && Entry(s, x, topic, origin).value.nextHop == y
    requires Entry(s, y, topic, origin).Some? && Entry(s, y, topic, origin).value.nextHop != origin
    ensures var p, q := PathAt(s, topic, origin, x), PathAt(s, topic, origin, y) + [y];
            && SimplePath(cfg, p, origin, y) && |p| < cfg.maxTtl && SimplePath(cfg, q, origin, y) && |q| <= cfg.maxTtl
  {
    assert TableShaped(cfg, s, x, s.locals[x].routes) && TableShaped(cfg, s, y, s.locals[y].routes);
    assert Shaped(cfg, s, x, topic, origin, Entry(s, x, topic, origin).value);
    assert Shaped(cfg, s, y, topic, origin, Entry(s, y, topic, origin).value);
    var p := PathAt(s, topic, origin, x);
    var longer := p + [x];
    forall i | 0 <= i < |p| - 1 ensures p[i + 1] in Links(cfg, p[i]) { assert longer[i + 1] in Links(cfg, longer[i]); }
    forall i, j | 0 <= i < j < |p| ensures p[i] != p[j] { assert longer[i] != longer[j]; }
  }

  /** In every run, whatever it deletes: where next hops go round, the links have a short cycle. */
  lemma LoopNeedsShortCycle(cfg: Config, steps: seq<Step>, s: State, topic: Topic, origin: Peer, w: seq<Peer>)
    requires ValidConfig(cfg) && Run(cfg, Initial(cfg), steps, s)
    requires Follows(s, topic, origin, w) && !NoDup(w)
    ensures HasShortCycle(cfg)
  {
    RoutesAlwaysShaped(cfg, steps, s);
    var i, j :| 0 <= i < j < |w| && w[i] == w[j];
    var k := PathsDiffer(s, topic, origin, w, i, j);
    var after := if k + 1 < j then k + 2 else i + 1;
    assert w[k + 1] == w[after - 1] && w[after] != origin;
    LearnedPaths(cfg, s, topic, origin, w[k], w[k + 1]);
    hide Run, RoutesShaped, PathAt, SimplePath, Follows;
    var cycle := TwoPathsMakeCycle(cfg, PathAt(s, topic, origin, w[k]), PathAt(s, topic, origin, w[k + 1]) + [w[k + 1]], origin, w[k + 1]);
  }

  // ---- A short cycle can be made to loop ----

  /** The two ways round from `a`: one by `b` to `c`, the other by `c` to `b`, with no node in common before. */
  ghost predicate TwoWays(cfg: Config, f: seq<Peer>, g: seq<Peer>) {
    && TravelPath(cfg, f) && TravelPath(cfg, g) && |f| >= 3 && |g| >= 3 && f[0] == g[0]
    && f[|f| - 2] == g[|g| - 1] && f[|f| - 1] == g[|g| - 2]
    && forall i, j :: 1 <= i < |f| - 1 && 1 <= j < |g| - 1 ==> f[i] != g[j]
  }

  lemma WaysRound(cfg: Config, p: seq<Peer>) returns (f: seq<Peer>, g: seq<Peer>)
    requires ValidConfig(cfg) && SimpleCycle(cfg, p) && |p| <= 2 * cfg.maxTtl - 3
    ensures TwoWays(cfg, f, g) && f[0] == p[0]
  {
    var n := |p|;
    var i := if n <= cfg.maxTtl then 1 else n - cfg.maxTtl + 1;
    f := p[..i + 2];
    PartOfPath(cfg, p, 0, i + 2);
    g := OtherWay(cfg, p, i);
    forall x, y | 1 <= x < |f| - 1 && 1 <= y < |g| - 1 ensures f[x] != g[y] { assert g[y] == p[n - y]; }
  }

  lemma OtherWay(cfg: Config, p: seq<Peer>, i: nat) returns (g: seq<Peer>)
    requires ValidConfig(cfg) && SimpleCycle(cfg, p) && 1 <= i < |p|
    ensures |g| == |p| - i + 1 && g[0] == p[0] && NoDup(g) && Linked(cfg, g)
    ensures forall y :: 1 <= y < |g| ==> g[y] == p[|p| - y]
  {
    var rest := p[i..];
    PartOfPath(cfg, p, i, |p|);
    ReversedPath(cfg, rest);
    g := [p[0]] + Reversed(rest);
    assert p[|p| - 1] in Links(cfg, p[0]);
    JoinedPaths(cfg, [p[0]], Reversed(rest));
  }

  /** When the second advertisement reaches the last node, and when the first one does, late. */
  const MIDDLE := 20000
  const LATE := ROUTE_LEASE_MS + 1

  function FirstAd(topic: Topic): Ad { Ad("1", topic, 1, Join) }

  function SecondAd(topic: Topic): Ad { Ad("2", topic, 2, Join) }

  function LeaveAd(topic: Topic): Ad { Ad("3", topic, 3, Leave) }

  /** The copy of the first advertisement that comes too late. */
  function LateCopy(cfg: Config, topic: Topic, f: seq<Peer>): Copy
    requires |f| >= 2
  {
    HopCopy(cfg, FirstAd(topic), f, |f| - 1)
  }

  ghost predicate HoldsSince(s: State, n: Peer, topic: Topic, origin: Peer, sequence: int) {
    Entry(s, n, topic, origin).Some? && Entry(s, n, topic, origin).value.sequenceNumber == sequence
  }

  ghost predicate Untouched(s: State, n: Peer, topic: Topic, origin: Peer) {
    Seen(s, n) == {} && Entry(s, n, topic, origin) == None
  }

  /** The first advertisement reached `b` and is on its way to `c`. */
  ghost predicate FirstHeard(cfg: Config, s: State, topic: Topic, f: seq<Peer>, g: seq<Peer>)
    requires TwoWays(cfg, f, g)
  {
    var a, b := f[0], f[|f| - 2];
    && s.locals.Keys == Nodes(cfg) && s.log.Keys == {"1"} && SequenceOf(s, a, topic) == 1 && LateCopy(cfg, topic, f) in s.net
    && Seen(s, a) == {"1"} && HoldsSince(s, a, topic, a, 1) && Seen(s, b) == {"1"} && HoldsSince(s, b, topic, a, 1)
    && forall j :: 1 <= j < |g| - 1 ==> Untouched(s, g[j], topic, a)
  }

  /** The second one came the other way round as far as `c`, and is on its way to `b`. */
  ghost predicate SecondAtC(cfg: Config, s: State, topic: Topic, f: seq<Peer>, g: seq<Peer>)
    requires TwoWays(cfg, f, g)
  {
    var a, b, c := f[0], f[|f| - 2], f[|f| - 1];
    && s.locals.Keys == Nodes(cfg) && s.log.Keys == {"1", "2"} && SequenceOf(s, a, topic) == 2
    && LateCopy(cfg, topic, f) in s.net && HopCopy(cfg, SecondAd(topic), g, |g| - 1) in s.net
    && Seen(s, b) == {"1"} && HoldsSince(s, b, topic, a, 1) && Seen(s, a) == {"1", "2"} && HoldsSince(s, a, topic, a, 2)
    && (forall j :: 1 <= j < |g| - 1 ==> Seen(s, g[j]) == {"2"} && HoldsSince(s, g[j], topic, a, 2))
    && Entry(s, c, topic, a).value.expiresAt == ROUTE_LEASE_MS && Entry(s, c, topic, a).value.nextHop == g[|g| - 3]
  }

  /** It reached `b`, well after `c`: `b` has its route through `c`. */
  ghost predicate SecondHeard(cfg: Config, s: State, topic: Topic, f: seq<Peer>, g: seq<Peer>)
    requires TwoWays(cfg, f, g)
  {
    var a, b, c := f[0], f[|f| - 2], f[|f| - 1];
    && s.locals.Keys == Nodes(cfg) && s.log.Keys == {"1", "2"} && SequenceOf(s, a, topic) == 2 && LateCopy(cfg, topic, f) in s.net
    && Seen(s, b) == {"1", "2"} && PointsTo(s, b, topic, a, c, MIDDLE + ROUTE_LEASE_MS)
    && Seen(s, a) == {"1", "2"} && HoldsSince(s, a, topic, a, 2)
    && (forall j :: 1 <= j < |g| - 1 ==> Seen(s, g[j]) == {"2"} && HoldsSince(s, g[j], topic, a, 2))
    && Entry(s, c, topic, a).value.expiresAt == ROUTE_LEASE_MS && Entry(s, c, topic, a).value.nextHop == g[|g| - 3]
  }

  /** `c` lost its route. */
  ghost predicate RouteGone(cfg: Config, s: State, kind: Deletion, topic: Topic, f: seq<Peer>, g: seq<Peer>)
    requires TwoWays(cfg, f, g)
  {
    var a, b, c := f[0], f[|f| - 2], f[|f| - 1];
    && s.locals.Keys == Nodes(cfg) && SequenceOf(s, a, topic) >= 2 && LateCopy(cfg, topic, f) in s.net
    && PointsTo(s, b, topic, a, c, LATE)
    && Entry(s, c, topic, a) == None && "1" !in Seen(s, c) && Seen(s, c) + {"1"} == s.log.Keys
    && (kind != ByLeave ==> Seen(s, b) == s.log.Keys)
  }

  /** Node `n` has a route through `hop` that lasts at least until `now`. */
  ghost predicate PointsTo(s: State, n: Peer, topic: Topic, origin: Peer, hop: Peer, now: int) {
    var e := Entry(s, n, topic, origin);
    e.Some? && e.value.nextHop == hop && now <= e.value.expiresAt
  }

  /** The two nodes are each other's next hop, by routes that have not expired. */
  ghost predicate PointAtEachOther(s: State, topic: Topic, origin: Peer, b: Peer, c: Peer, now: int) {
    PointsTo(s, b, topic, origin, c, now) && PointsTo(s, c, topic, origin, b, now)
  }

  /** A run without losses, in order of time until `now`, whose deletions are all of one kind. */
  ghost predicate Built(kind: Deletion, steps: seq<Step>, now: int) {
    OnlyBy(kind, steps) && NothingLost(steps) && Chronological(steps) && Until(steps, now)
  }

  lemma DeliveriesBuilt(kind: Deletion, steps: seq<Step>, now: int)
    requires DeliveriesAt(steps, now)
    ensures Built(kind, steps, now)
  {
  }

  lemma BuiltAppend(kind: Deletion, xs: seq<Step>, before: int, ys: seq<Step>, now: int)
    requires Built(kind, xs, before) && before <= now && Built(kind, ys, now)
    requires forall i :: 0 <= i < |ys| && ClockOf(ys[i]).Some? ==> ClockOf(ys[i]).value == now
    ensures Built(kind, xs + ys, now)
  {
  }

  /** An origination or deletion, followed by deliveries, all at the same time. */
  lemma BuildOn(cfg: Config, kind: Deletion, s0: State, steps0: seq<Step>, before: int, s: State, step: Step,
                more: seq<Step>, t: State, now: int)
    returns (steps: seq<Step>)
    requires Run(cfg, s0, steps0, s) && Built(kind, steps0, before) && before <= now
    requires Enabled(cfg, s, step) && Run(cfg, Next(cfg, s, step), more, t)
    requires DeliveriesAt(more, now) && !step.Lose? && (KeepsRoutes(step) || Deletes(kind, step))
    requires ClockOf(step).Some? ==> ClockOf(step).value == now
    ensures Run(cfg, s0, steps, t) && Built(kind, steps, now)
  {
    hide Enabled, Next;
    RunSnoc(cfg, s0, steps0, s, step);
    RunAppend(cfg, s0, steps0 + [step], Next(cfg, s, step), more, t);
    DeliveriesBuilt(kind, more, now);
    BuiltAppend(kind, steps0, before, [step], now);
    BuiltAppend(kind, steps0 + [step], now, more, now);
    steps := steps0 + [step] + more;
  }

  // ---- First advertisement ----

  lemma HearFirst(cfg: Config, kind: Deletion, topic: Topic, f: seq<Peer>, g: seq<Peer>) returns (steps: seq<Step>, t: State)
    requires ValidConfig(cfg) && TwoWays(cfg, f, g)
    ensures Run(cfg, Initial(cfg), steps, t) && Built(kind, steps, 0) && FirstHeard(cfg, t, topic, f, g)
  {
    hide Enabled, Next, Run, FirstHeard, Spread;
    var s0, ad := Initial(cfg), FirstAd(topic);
    PathNodes(cfg, f);
    PathNodes(cfg, g);
    var more;
    more, t := Spreads(cfg, s0, ad, f, |f| - 1, 0);
    NoSteps(cfg, s0);
    steps := BuildOn(cfg, kind, s0, [], 0, s0, Advertise(f[0], "1", topic, Join, 0), more, t, 0);
    FirstAdHeard(cfg, t, topic, f, g);
  }

  lemma FirstAdHeard(cfg: Config, t: State, topic: Topic, f: seq<Peer>, g: seq<Peer>)
    requires TwoWays(cfg, f, g) && (forall j :: 0 <= j < |f| ==> f[j] in Nodes(cfg)) && forall j :: 0 <= j < |g| ==> g[j] in Nodes(cfg)
    requires Spread(cfg, Initial(cfg), t, FirstAd(topic), f, |f| - 1, 0)
    ensures FirstHeard(cfg, t, topic, f, g)
  {
    var s, ad, e := Initial(cfg), FirstAd(topic), |f| - 1;
    hide Spread;
    SpreadFrame(cfg, s, t, ad, f, e, LateCopy(cfg, topic, f), 0);
    SpreadAt(cfg, s, t, ad, f, e, 0, 0);
    SpreadAt(cfg, s, t, ad, f, e, e - 1, 0);
    forall j | 1 <= j < |g| - 1 ensures Untouched(t, g[j], topic, f[0]) {
      NotOnFirstWay(cfg, f, g, j);
      SpreadElsewhere(cfg, s, t, ad, f, e, g[j], 0);
    }
  }

  lemma NotOnFirstWay(cfg: Config, f: seq<Peer>, g: seq<Peer>, j: nat)
    requires TwoWays(cfg, f, g) && 1 <= j < |g| - 1
    ensures g[j] !in f[..|f| - 1]
  {
  }

  // ---- Second advertisement ----

  lemma HearSecond(cfg: Config, kind: Deletion, steps0: seq<Step>, s: State, topic: Topic, f: seq<Peer>, g: seq<Peer>)
    returns (steps: seq<Step>, t: State)
    requires ValidConfig(cfg) && TwoWays(cfg, f, g)
    requires Run(cfg, Initial(cfg), steps0, s) && Built(kind, steps0, 0) && FirstHeard(cfg, s, topic, f, g)
    ensures Run(cfg, Initial(cfg), steps, t) && Built(kind, steps, MIDDLE) && SecondHeard(cfg, t, topic, f, g)
  {
    hide Enabled, Next, Run, SecondHeard, SecondAtC, Spread, Took, Ready;
    var e := |g| - 1;
    PathNodes(cfg, g);
    forall j | 0 <= j < e ensures Ready(s, g[j], SecondAd(topic), g[0]) { SecondReady(cfg, s, topic, f, g, j); }
    var more, mid := Spreads(cfg, s, SecondAd(topic), g, e, 0);
    var steps1 := BuildOn(cfg, kind, Initial(cfg), steps0, 0, s, Advertise(g[0], "2", topic, Join, 0), more, mid, 0);
    SecondOnItsWay(cfg, s, mid, topic, f, g);
    LastReady(cfg, mid, topic, f, g);
    t := OneHop(cfg, mid, SecondAd(topic), g, e, MIDDLE);
    NoSteps(cfg, t);
    steps := BuildOn(cfg, kind, Initial(cfg), steps1, 0, mid, Deliver(HopCopy(cfg, SecondAd(topic), g, e), MIDDLE, {}), [], t, MIDDLE);
    SecondArrived(cfg, mid, t, topic, f, g);
  }

  lemma SecondReady(cfg: Config, s: State, topic: Topic, f: seq<Peer>, g: seq<Peer>, j: nat)
    requires TwoWays(cfg, f, g) && FirstHeard(cfg, s, topic, f, g) && 0 <= j < |g|
    ensures Ready(s, g[j], SecondAd(topic), g[0])
  {
    if 1 <= j < |g| - 1 { assert Untouched(s, g[j], topic, f[0]); }
  }

  lemma SecondOnItsWay(cfg: Config, s: State, t: State, topic: Topic, f: seq<Peer>, g: seq<Peer>)
    requires ValidConfig(cfg) && TwoWays(cfg, f, g) && FirstHeard(cfg, s, topic, f, g) && g[|g| - 1] in Nodes(cfg)
    requires Spread(cfg, s, t, SecondAd(topic), g, |g| - 1, 0)
    ensures SecondAtC(cfg, t, topic, f, g)
  {
    var ad, e := SecondAd(topic), |g| - 1;
    hide Spread;
    SpreadFrame(cfg, s, t, ad, g, e, LateCopy(cfg, topic, f), 0);
    SpreadAt(cfg, s, t, ad, g, e, 0, 0);
    assert g[|g| - 1] !in g[..e];
    SpreadElsewhere(cfg, s, t, ad, g, e, g[|g| - 1], 0);
    forall j | 1 <= j < |g| - 1
      ensures Seen(t, g[j]) == {"2"} && HoldsSince(t, g[j], topic, f[0], 2)
      ensures Entry(t, g[j], topic, f[0]).value.expiresAt == ROUTE_LEASE_MS && Entry(t, g[j], topic, f[0]).value.nextHop == g[j - 1]
    {
      assert Untouched(s, g[j], topic, f[0]);
      OnTheSecondWay(cfg, s, t, topic, g, j);
    }
    hide Left, Untouched;
    assert f[|f| - 1] == g[|g| - 2];
  }

  lemma OnTheSecondWay(cfg: Config, s: State, t: State, topic: Topic, g: seq<Peer>, j: nat)
    requires 1 <= j < |g| - 1 && Untouched(s, g[j], topic, g[0]) && Spread(cfg, s, t, SecondAd(topic), g, |g| - 1, 0)
    ensures Seen(t, g[j]) == {"2"} && HoldsSince(t, g[j], topic, g[0], 2)
    ensures Entry(t, g[j], topic, g[0]).value.expiresAt == ROUTE_LEASE_MS && Entry(t, g[j], topic, g[0]).value.nextHop == g[j - 1]
  {
    hide Spread;
    SpreadAt(cfg, s, t, SecondAd(topic), g, |g| - 1, j, 0);
    assert g[..j][j - 1] == g[j - 1];
  }

  lemma LastReady(cfg: Config, s: State, topic: Topic, f: seq<Peer>, g: seq<Peer>)
    requires TwoWays(cfg, f, g) && SecondAtC(cfg, s, topic, f, g)
    ensures Ready(s, g[|g| - 1], SecondAd(topic), g[0])
    ensures s.locals.Keys == Nodes(cfg) && HopCopy(cfg, SecondAd(topic), g, |g| - 1) in s.net
  {
  }

  lemma SecondArrived(cfg: Config, s: State, t: State, topic: Topic, f: seq<Peer>, g: seq<Peer>)
    requires ValidConfig(cfg) && TwoWays(cfg, f, g) && SecondAtC(cfg, s, topic, f, g) && forall j :: 0 <= j < |g| ==> g[j] in Nodes(cfg)
    requires Took(s, t, g[|g| - 1], SecondAd(topic), g[0], g[..|g| - 1], MIDDLE) && OthersStay(s, t, "2")
    requires t.log == s.log && t.sequences == s.sequences
    ensures SecondHeard(cfg, t, topic, f, g)
  {
    var b := g[|g| - 1];
    assert g[..|g| - 1][|g| - 2] == g[|g| - 2];
    forall j | 0 <= j < |g| - 1 ensures t.locals[g[j]] == s.locals[g[j]] { assert g[j] != b; }
  }

  // ---- The deletion ----

  lemma LoseRoute(cfg: Config, kind: Deletion, steps0: seq<Step>, s: State, topic: Topic, f: seq<Peer>, g: seq<Peer>)
    returns (steps: seq<Step>, t: State)
    requires ValidConfig(cfg) && TwoWays(cfg, f, g)
    requires Run(cfg, Initial(cfg), steps0, s) && Built(kind, steps0, MIDDLE) && SecondHeard(cfg, s, topic, f, g)
    ensures Run(cfg, Initial(cfg), steps, t) && Built(kind, steps, LATE) && RouteGone(cfg, t, kind, topic, f, g)
  {
    hide Enabled, Next, Run;
    var a, c := f[0], f[|f| - 1];
    PathNodes(cfg, f);
    assert c == g[|g| - 2];
    match kind
    case ByLeave => steps, t := LoseByLeave(cfg, steps0, s, topic, f, g);
    case ByCollection =>
      t := CollectedAt(cfg, s, c, topic, a, LATE);
      NoSteps(cfg, t);
      steps := BuildOn(cfg, kind, Initial(cfg), steps0, MIDDLE, s, Collect(c, LATE), [], t, LATE);
    case ByDisconnection =>
      var peer := g[|g| - 3];
      assert g[|g| - 3 + 1] in Links(cfg, g[|g| - 3]);
      t := DisconnectedAt(cfg, s, c, topic, a, peer);
      NoSteps(cfg, t);
      steps := BuildOn(cfg, kind, Initial(cfg), steps0, MIDDLE, s, Disconnect(c, peer), [], t, LATE);
  }

  lemma CollectedAt(cfg: Config, s: State, c: Peer, topic: Topic, a: Peer, now: int) returns (t: State)
    requires s.locals.Keys == Nodes(cfg) && c in Nodes(cfg) && Entry(s, c, topic, a).Some? && Entry(s, c, topic, a).value.expiresAt < now
    ensures Enabled(cfg, s, Collect(c, now)) && t == Next(cfg, s, Collect(c, now))
    ensures Entry(t, c, topic, a) == None && t == s.(locals := t.locals) && Seen(t, c) == Seen(s, c)
    ensures t.locals.Keys == s.locals.Keys && forall x :: x in s.locals && x != c ==> t.locals[x] == s.locals[x]
  {
    LookupRetain(s.locals[c].routes, LiveAt(now), topic, a);
    hide Retain;
    t := Next(cfg, s, Collect(c, now));
  }

  lemma DisconnectedAt(cfg: Config, s: State, c: Peer, topic: Topic, a: Peer, peer: Peer) returns (t: State)
    requires s.locals.Keys == Nodes(cfg) && c in Nodes(cfg) && Entry(s, c, topic, a).Some? && Entry(s, c, topic, a).value.nextHop == peer
    requires peer in Links(cfg, c)
    ensures Enabled(cfg, s, Disconnect(c, peer)) && t == Next(cfg, s, Disconnect(c, peer))
    ensures Entry(t, c, topic, a) == None && t == s.(locals := t.locals) && Seen(t, c) == Seen(s, c)
    ensures t.locals.Keys == s.locals.Keys && forall x :: x in s.locals && x != c ==> t.locals[x] == s.locals[x]
  {
    LookupRetain(s.locals[c].routes, AwayFrom(peer), topic, a);
    hide Retain;
    t := Next(cfg, s, Disconnect(c, peer));
  }

  /** The origin leaves the topic, and word of that takes the second way as far as `c`. */
  lemma LoseByLeave(cfg: Config, steps0: seq<Step>, s: State, topic: Topic, f: seq<Peer>, g: seq<Peer>)
    returns (steps: seq<Step>, t: State)
    requires ValidConfig(cfg) && TwoWays(cfg, f, g)
    requires Run(cfg, Initial(cfg), steps0, s) && Built(ByLeave, steps0, MIDDLE) && SecondHeard(cfg, s, topic, f, g)
    ensures Run(cfg, Initial(cfg), steps, t) && Built(ByLeave, steps, LATE) && RouteGone(cfg, t, ByLeave, topic, f, g)
  {
    hide Enabled, Next, Run, RouteGone, Spread;
    var e := |g| - 1;
    PathNodes(cfg, g);
    forall j | 0 <= j < e ensures Ready(s, g[j], LeaveAd(topic), g[0]) {
      if j > 0 { assert HoldsSince(s, g[j], topic, f[0], 2); }
    }
    var more;
    more, t := Spreads(cfg, s, LeaveAd(topic), g, e, LATE);
    steps := BuildOn(cfg, ByLeave, Initial(cfg), steps0, MIDDLE, s, Advertise(g[0], "3", topic, Leave, LATE), more, t, LATE);
    LeaveHeard(cfg, s, t, topic, f, g);
  }

  lemma LeaveHeard(cfg: Config, s: State, t: State, topic: Topic, f: seq<Peer>, g: seq<Peer>)
    requires ValidConfig(cfg) && TwoWays(cfg, f, g) && SecondHeard(cfg, s, topic, f, g)
    requires g[|g| - 1] in Nodes(cfg) && Spread(cfg, s, t, LeaveAd(topic), g, |g| - 1, LATE)
    ensures RouteGone(cfg, t, ByLeave, topic, f, g)
  {
    var ad, e := LeaveAd(topic), |g| - 1;
    hide Spread;
    SpreadFrame(cfg, s, t, ad, g, e, LateCopy(cfg, topic, f), LATE);
    SpreadAt(cfg, s, t, ad, g, e, e - 1, LATE);
    assert g[|g| - 1] !in g[..e];
    SpreadElsewhere(cfg, s, t, ad, g, e, g[|g| - 1], LATE);
    assert Seen(s, g[|g| - 2]) == {"2"};
  }

  // ---- The loop ----

  /** In every network with a short cycle, and for every kind of deletion, there is a run without losses, in
      which no clock goes backwards, after which two nodes are each other's next hop by live routes. */
  lemma OneDeletionCanLoop(cfg: Config, kind: Deletion, topic: Topic, p: seq<Peer>)
    returns (steps: seq<Step>, s: State, b: Peer, c: Peer)
    requires ValidConfig(cfg) && SimpleCycle(cfg, p) && |p| <= 2 * cfg.maxTtl - 3
    ensures Run(cfg, Initial(cfg), steps, s) && OnlyBy(kind, steps) && NothingLost(steps)
    ensures Chronological(steps) && Until(steps, LATE)
    ensures b != p[0] && c != p[0] && PointAtEachOther(s, topic, p[0], b, c, LATE)
    ensures HoldsSince(s, c, topic, p[0], 1) && SequenceOf(s, p[0], topic) >= 2
    ensures Seen(s, c) == s.log.Keys && (kind != ByLeave ==> Seen(s, b) == s.log.Keys)
  {
    hide Enabled, Next, Run, FirstHeard, SecondHeard;
    var f, g := WaysRound(cfg, p);
    var steps1, s1 := HearFirst(cfg, kind, topic, f, g);
    var steps2, s2 := HearSecond(cfg, kind, steps1, s1, topic, f, g);
    var steps3, s3 := LoseRoute(cfg, kind, steps2, s2, topic, f, g);
    b, c := f[|f| - 2], f[|f| - 1];
    s := OneHop(cfg, s3, FirstAd(topic), f, |f| - 1, LATE);
    NoSteps(cfg, s);
    steps := BuildOn(cfg, kind, Initial(cfg), steps3, LATE, s3, Deliver(LateCopy(cfg, topic, f), LATE, {}), [], s, LATE);
    PathNodes(cfg, f);
    assert s.locals[b] == s3.locals[b];
    assert f[..|f| - 1][|f| - 2] == b;
  }

  /** Exactly when deletions of one kind can make next hops go round: in every network, all runs whose clocks
      go forward are free of live loops if and only if the links have no cycle of at least three and at most
      2 * maxTtl - 3 nodes. */
  lemma LoopFreeIffNoShortCycle(cfg: Config, kind: Deletion)
    requires ValidConfig(cfg)
    ensures LoopFreeBy(cfg, kind) <==> !HasShortCycle(cfg)
  {
    if HasShortCycle(cfg) {
      var p :| SimpleCycle(cfg, p) && |p| <= 2 * cfg.maxTtl - 3;
      ShortCycleLoops(cfg, kind, p);
    } else {
      forall steps, s, topic, origin, w | Run(cfg, Initial(cfg), steps, s) && Follows(s, topic, origin, w) ensures NoDup(w) {
        if !NoDup(w) { LoopNeedsShortCycle(cfg, steps, s, topic, origin, w); }
      }
    }
  }

  lemma ShortCycleLoops(cfg: Config, kind: Deletion, p: seq<Peer>)
    requires ValidConfig(cfg) && SimpleCycle(cfg, p) && |p| <= 2 * cfg.maxTtl - 3
    ensures !LoopFreeBy(cfg, kind)
  {
    hide Run, Enabled, Next;
    var steps, s, b, c := OneDeletionCanLoop(cfg, kind, "", p);
    var w := [b, c, b];
    assert Follows(s, "", p[0], w) && LiveWalk(s, "", p[0], w, LATE);
    assert w[0] == w[2] && !NoDup(w);
  }

  /** With at most maxTtl nodes every cycle is short, so that only forests are free of loops. */
  lemma LoopFreeIffForest(cfg: Config, kind: Deletion)
    requires ValidConfig(cfg) && |Nodes(cfg)| <= cfg.maxTtl
    ensures LoopFreeBy(cfg, kind) <==> forall p :: !SimpleCycle(cfg, p)
  {
    hide LoopFreeBy, SimpleCycle;
    LoopFreeIffNoShortCycle(cfg, kind);
    forall p | SimpleCycle(cfg, p) ensures |p| <= 2 * cfg.maxTtl - 3 { CycleIsShort(cfg, p); }
  }

  lemma CycleIsShort(cfg: Config, p: seq<Peer>)
    requires ValidConfig(cfg) && |Nodes(cfg)| <= cfg.maxTtl && SimpleCycle(cfg, p)
    ensures |p| <= 2 * cfg.maxTtl - 3
  {
    forall i | 0 <= i < |p| ensures p[i] in Nodes(cfg) {
      if i > 0 { assert p[i - 1 + 1] in Links(cfg, p[i - 1]); }
    }
    NoDupWithin(p, Nodes(cfg));
  }

  // ---- After everything was delivered ----

  lemma FrozenStep(cfg: Config, s: State, step: Step, n: Peer)
    requires BaseInv(cfg, s) && Enabled(cfg, s, step) && step.Deliver? && n in Nodes(cfg) && Seen(s, n) == s.log.Keys
    ensures var t := Next(cfg, s, step); t.locals[n] == s.locals[n] && t.log == s.log && t.sequences == s.sequences
  {
    assert CopyOk(cfg, s, step.copy);
    hide Copies;
  }

  lemma TailDeliveries(steps: seq<Step>, now: int)
    requires steps != [] && DeliveriesAt(steps, now)
    ensures steps[0].Deliver? && DeliveriesAt(steps[1..], now)
  {
  }

  /** A node that has seen every message does not change while what is in flight gets delivered. */
  lemma {:induction false} Frozen(cfg: Config, s: State, steps: seq<Step>, t: State, n: Peer, now: int)
    requires ValidConfig(cfg) && BaseInv(cfg, s) && Run(cfg, s, steps, t) && DeliveriesAt(steps, now)
    requires n in Nodes(cfg) && Seen(s, n) == s.log.Keys
    ensures n in t.locals && t.locals[n] == s.locals[n] && t.sequences == s.sequences
    decreases |steps|
  {
    if steps != [] {
      TailDeliveries(steps, now);
      FrozenStep(cfg, s, steps[0], n);
      NextKeepsBase(cfg, s, steps[0]);
      hide Next, Enabled, BaseInv, DeliveriesAt;
      Frozen(cfg, Next(cfg, s, steps[0]), steps[1..], t, n, now);
    }
  }

  lemma LearnedIsConnected(cfg: Config, steps: seq<Step>, s: State, n: Peer, topic: Topic, origin: Peer)
    requires ValidConfig(cfg) && Run(cfg, Initial(cfg), steps, s) && n != origin && HoldsSince(s, n, topic, origin, 1)
    ensures Connected(cfg, origin, n)
  {
    InstalledRoutes(cfg, steps, s, n, topic, origin);
    assert Joins(cfg, Entry(s, n, topic, origin).value.path + [n], origin, n);
  }

  // ---- Convergence in spite of deletions ----

  /** The newest advertisement is a JOIN, no copy of which was lost or is in flight. */
  ghost predicate NewestJoinSpread(steps: seq<Step>, s: State, topic: Topic, origin: Peer) {
    var q := SequenceOf(s, origin, topic);
    && (exists id :: id in s.log && IsAd(s.log[id], topic, origin, q) && s.log[id].kind.payload.action == Join)
    && LosslessAd(steps, topic, origin, q) && forall c :: c in s.net ==> !IsAd(c.msg, topic, origin, q)
  }

  /** Every run with this kind of deletion, in which no clock goes backwards, that lost no copy of an origin's
      newest JOIN, and has none in flight any more, leaves its sequence number at every connected node. */
  ghost predicate ConvergesBy(cfg: Config, kind: Deletion) {
    forall steps, s, topic, origin, n ::
      Run(cfg, Initial(cfg), steps, s) && OnlyBy(kind, steps) && Chronological(steps)
      && NewestJoinSpread(steps, s, topic, origin) && Connected(cfg, origin, n)
      ==> HoldsSince(s, n, topic, origin, SequenceOf(s, origin, topic))
  }

  ghost predicate NoLinks(cfg: Config) { forall n :: Links(cfg, n) == {} }

  /** A run that shows that deletions of this kind prevent convergence: all was delivered, but a node connected
      to the origin does not hold the route of its newest JOIN. */
  ghost predicate Diverged(cfg: Config, kind: Deletion, steps: seq<Step>, s: State, topic: Topic, origin: Peer, n: Peer) {
    && Run(cfg, Initial(cfg), steps, s) && OnlyBy(kind, steps) && NothingLost(steps) && Chronological(steps) && |s.net| == 0
    && NewestJoinSpread(steps, s, topic, origin) && Connected(cfg, origin, n) && Entry(s, n, topic, origin) == None
  }

  lemma DivergedPrevents(cfg: Config, kind: Deletion, steps: seq<Step>, s: State, topic: Topic, origin: Peer, n: Peer)
    requires Diverged(cfg, kind, steps, s, topic, origin, n)
    ensures !ConvergesBy(cfg, kind)
  {
    hide Run, NewestJoinSpread, Connected, OnlyBy, Chronological;
    assert !HoldsSince(s, n, topic, origin, SequenceOf(s, origin, topic));
  }

  /** A run without losses that ends in this state, with nothing in flight, and what its newest JOIN is. */
  lemma QuietIsSpread(cfg: Config, kind: Deletion, steps: seq<Step>, now: int, s: State, topic: Topic, origin: Peer, n: Peer, id: Id)
    requires Run(cfg, Initial(cfg), steps, s) && Built(kind, steps, now) && |s.net| == 0 && Entry(s, n, topic, origin) == None
    requires id in s.log && s.log[id].sender == origin
    requires s.log[id].kind == Control(SubAd(topic, SequenceOf(s, origin, topic), Join))
    requires n in Links(cfg, origin) || n == origin
    ensures Diverged(cfg, kind, steps, s, topic, origin, n)
  {
    hide Run;
    assert IsAd(s.log[id], topic, origin, SequenceOf(s, origin, topic));
    assert Joins(cfg, if n == origin then [n] else [origin, n], origin, n);
  }

  lemma DeliveriesKeepLog(cfg: Config, s: State, steps: seq<Step>, t: State, now: int)
    requires Run(cfg, s, steps, t) && DeliveriesAt(steps, now)
    ensures t.log == s.log && t.sequences == s.sequences
    decreases |steps|
  {
    if steps != [] {
      TailDeliveries(steps, now);
      LogUnchanged(cfg, s, steps[0]);
      DeliveryKeepsSequences(cfg, s, steps[0]);
      hide Next, Enabled, DeliveriesAt;
      DeliveriesKeepLog(cfg, Next(cfg, s, steps[0]), steps[1..], t, now);
    }
  }

  lemma DeliveryKeepsSequences(cfg: Config, s: State, step: Step)
    requires Enabled(cfg, s, step) && step.Deliver?
    ensures Next(cfg, s, step).sequences == s.sequences
  {
    hide Receive, Copies;
  }

  /** Deliver all that is in flight; the nodes that have seen everything stay as they are. */
  lemma Settle(cfg: Config, kind: Deletion, steps0: seq<Step>, before: int, s0: State, now: int) returns (steps: seq<Step>, s: State)
    requires ValidConfig(cfg) && Run(cfg, Initial(cfg), steps0, s0) && Built(kind, steps0, before) && before <= now
    ensures Run(cfg, Initial(cfg), steps, s) && Built(kind, steps, now) && |s.net| == 0
    ensures s.log == s0.log && s.sequences == s0.sequences && s.locals.Keys == Nodes(cfg) == s0.locals.Keys
    ensures forall n :: n in Nodes(cfg) && Seen(s0, n) == s0.log.Keys ==> n in s0.locals && s.locals[n] == s0.locals[n]
  {
    hide Next, Enabled, Run;
    InitialBase(cfg);
    RunKeepsBase(cfg, Initial(cfg), steps0, s0);
    var more;
    more, s := Quiescence(cfg, s0, now);
    steps := steps0 + more;
    RunAppend(cfg, Initial(cfg), steps0, s0, more, s);
    DeliveriesBuilt(kind, more, now);
    BuiltAppend(kind, steps0, before, more, now);
    DeliveriesKeepLog(cfg, s0, more, s, now);
    RunKeepsBase(cfg, Initial(cfg), steps, s);
    forall n | n in Nodes(cfg) && Seen(s0, n) == s0.log.Keys ensures n in s0.locals && s.locals[n] == s0.locals[n] {
      Frozen(cfg, s0, more, s, n, now);
    }
  }

  /** Convergence fails after deletions, too: nothing was lost and nothing is in flight any more, but a node
      connected to the origin holds the first route although there is a newer advertisement; and unless the
      origin left, two nodes stay each other's next hop. No clock goes backwards. */
  lemma OneDeletionCanLeaveStaleRoute(cfg: Config, kind: Deletion, topic: Topic, p: seq<Peer>)
    returns (steps: seq<Step>, s: State, b: Peer, c: Peer)
    requires ValidConfig(cfg) && SimpleCycle(cfg, p) && |p| <= 2 * cfg.maxTtl - 3
    ensures Run(cfg, Initial(cfg), steps, s) && OnlyBy(kind, steps) && NothingLost(steps) && |s.net| == 0
    ensures Chronological(steps) && Until(steps, LATE)
    ensures Connected(cfg, p[0], c) && HoldsSince(s, c, topic, p[0], 1) && SequenceOf(s, p[0], topic) >= 2
    ensures kind != ByLeave ==> PointAtEachOther(s, topic, p[0], b, c, LATE)
  {
    var steps1, s1;
    steps1, s1, b, c := OneDeletionCanLoop(cfg, kind, topic, p);
    hide Next, Enabled, Run;
    steps, s := Settle(cfg, kind, steps1, LATE, s1, LATE);
    LearnedIsConnected(cfg, steps, s, c, topic, p[0]);
  }

  /** A node tells of a topic for the first time. */
  lemma ToldAlone(cfg: Config, kind: Deletion, a: Peer, topic: Topic) returns (steps: seq<Step>, s: State)
    requires ValidConfig(cfg) && a in Nodes(cfg)
    ensures Run(cfg, Initial(cfg), steps, s) && Built(kind, steps, 0)
    ensures Entry(s, a, topic, a) == Left(FirstAd(topic), a, [], 0) && Seen(s, a) == {"1"} == s.log.Keys
    ensures SequenceOf(s, a, topic) == 1 && s.locals.Keys == Nodes(cfg)
    ensures s.log["1"].sender == a && s.log["1"].kind == Control(SubAd(topic, 1, Join))
    ensures forall n :: n in Nodes(cfg) && n != a ==> Entry(s, n, topic, a) == None
    ensures cfg.maxTtl <= 1 ==> |s.net| == 0
  {
    hide Run;
    var s0, step := Initial(cfg), Advertise(a, "1", topic, Join, 0);
    var u, m := Originated(cfg, s0, step), AdMessage(FirstAd(topic), a, cfg.maxTtl, []);
    AnnouncementIsArrival(cfg, s0, step, m, 0);
    assert Ready(u, a, FirstAd(topic), a);
    s := Arrive(cfg, u, a, m, [], 0, {});
    ArrivalTaken(cfg, u, a, m, FirstAd(topic), [], 0);
    NothingSent(cfg, u, a, m);
    NoSteps(cfg, s0);
    NoSteps(cfg, s);
    steps := BuildOn(cfg, kind, s0, [], 0, s0, step, [], s, 0);
    hide Receive, Copies;
  }

  /** With a TTL of at most one nothing goes out. */
  lemma NothingSent(cfg: Config, s: State, n: Peer, m: Message)
    requires n in cfg.pools && n in s.locals && m.kind.Control?
    ensures m.ttl <= 1 ==> Arrive(cfg, s, n, m, [], 0, {}).net == s.net
  {
    var e := Receive(n, Links(cfg, n), s.locals[n], m, None, 0, {});
    assert m.ttl <= 1 ==> e.targets == {};
    assert Copies(cfg.pools[n], n, {}, e.message, [n]) == multiset{};
  }

  /** A node's own route expires and is collected. */
  lemma OwnRouteCollected(cfg: Config, a: Peer, topic: Topic) returns (steps: seq<Step>, s: State)
    requires ValidConfig(cfg) && a in Nodes(cfg)
    ensures Diverged(cfg, ByCollection, steps, s, topic, a, a)
  {
    hide Next, Enabled, Run, Built;
    var steps1, s1 := ToldAlone(cfg, ByCollection, a, topic);
    var steps2, s2 := Settle(cfg, ByCollection, steps1, 0, s1, 0);
    s := CollectedAt(cfg, s2, a, topic, a, LATE);
    NoSteps(cfg, s);
    steps := BuildOn(cfg, ByCollection, Initial(cfg), steps2, 0, s2, Collect(a, LATE), [], s, LATE);
    QuietIsSpread(cfg, ByCollection, steps, LATE, s, topic, a, a, "1");
  }

  /** A neighbour of the origin heard of it and lost the connection. */
  lemma NeighbourDisconnected(cfg: Config, a: Peer, b: Peer, topic: Topic) returns (steps: seq<Step>, s: State)
    requires ValidConfig(cfg) && b in Links(cfg, a) && cfg.maxTtl >= 2
    ensures Diverged(cfg, ByDisconnection, steps, s, topic, a, b)
  {
    hide Next, Enabled, Run, Built, Spread;
    var steps1, s1 := HeardNextDoor(cfg, ByDisconnection, a, b, topic);
    var steps2, s2 := Settle(cfg, ByDisconnection, steps1, 0, s1, 0);
    s := DisconnectedAt(cfg, s2, b, topic, a, a);
    NoSteps(cfg, s);
    steps := BuildOn(cfg, ByDisconnection, Initial(cfg), steps2, 0, s2, Disconnect(b, a), [], s, 0);
    QuietIsSpread(cfg, ByDisconnection, steps, 0, s, topic, a, b, "1");
  }

  /** An advertisement reaches a neighbour. */
  lemma HeardNextDoor(cfg: Config, kind: Deletion, a: Peer, b: Peer, topic: Topic) returns (steps: seq<Step>, s: State)
    requires ValidConfig(cfg) && b in Links(cfg, a) && cfg.maxTtl >= 2
    ensures Run(cfg, Initial(cfg), steps, s) && Built(kind, steps, 0) && s.locals.Keys == Nodes(cfg)
    ensures s.log.Keys == {"1"} == Seen(s, a) == Seen(s, b) && SequenceOf(s, a, topic) == 1
    ensures Entry(s, a, topic, a) == Left(FirstAd(topic), a, [], 0) && Entry(s, b, topic, a) == Left(FirstAd(topic), b, [a], 0)
    ensures s.log["1"].sender == a && s.log["1"].kind == Control(SubAd(topic, 1, Join))
  {
    hide Next, Enabled, Run, Built, Spread;
    var s0, path := Initial(cfg), [a, b];
    assert TravelPath(cfg, path);
    var more;
    more, s := Spreads(cfg, s0, FirstAd(topic), path, 2, 0);
    NoSteps(cfg, s0);
    NothingBuilt(kind, 0);
    steps := BuildOn(cfg, kind, s0, [], 0, s0, Advertise(a, "1", topic, Join, 0), more, s, 0);
    SpreadFrame(cfg, s0, s, FirstAd(topic), path, 2, HopCopy(cfg, FirstAd(topic), path, 1), 0);
    SpreadAt(cfg, s0, s, FirstAd(topic), path, 2, 0, 0);
    SpreadAt(cfg, s0, s, FirstAd(topic), path, 2, 1, 0);
    assert path[..1] == [a] && path[..0] == [];
    SpreadLogs(cfg, s0, FirstAd(topic), path, more, s, 0);
  }

  lemma NothingBuilt(kind: Deletion, now: int)
    ensures Built(kind, [], now)
  {
  }

  /** What an advertisement that spread is recorded as. */
  lemma SpreadLogs(cfg: Config, s: State, ad: Ad, path: seq<Peer>, more: seq<Step>, t: State, now: int)
    requires path != [] && ad.sequence == SequenceOf(s, path[0], ad.topic) + 1
    requires var step := Advertise(path[0], ad.id, ad.topic, ad.action, now);
             Enabled(cfg, s, step) && Run(cfg, Next(cfg, s, step), more, t) && DeliveriesAt(more, now)
    ensures ad.id in t.log && t.log[ad.id].sender == path[0] && t.log[ad.id].kind == Control(SubAd(ad.topic, ad.sequence, ad.action))
    ensures forall id :: id in s.log && id != ad.id ==> id in t.log && t.log[id] == s.log[id]
  {
    hide Next, Enabled, Run, DeliveriesAt;
    var step := Advertise(path[0], ad.id, ad.topic, ad.action, now);
    OriginatorSaw(cfg, s, step);
    DeliveriesKeepLog(cfg, Next(cfg, s, step), more, t, now);
  }

  function Leave2(topic: Topic): Ad { Ad("2", topic, 2, Leave) }

  function Join3(topic: Topic): Ad { Ad("3", topic, 3, Join) }

  /** A LEAVE that is overtaken by a newer JOIN deletes its route: LEAVE has no sequence check. */
  lemma LateLeaveDeletesNewerRoute(cfg: Config, a: Peer, b: Peer, topic: Topic) returns (steps: seq<Step>, s: State)
    requires ValidConfig(cfg) && b in Links(cfg, a) && cfg.maxTtl >= 2
    ensures Diverged(cfg, ByLeave, steps, s, topic, a, b)
  {
    hide Next, Enabled, Run, Built, Spread, Took, Ready;
    var path := [a, b];
    assert TravelPath(cfg, path) && b in Nodes(cfg) && a in Nodes(cfg);
    var steps1, s1 := HeardNextDoor(cfg, ByLeave, a, b, topic);
    LeaveCanStart(s1, a, b, topic);
    var more2, s2 := Spreads(cfg, s1, Leave2(topic), path, 1, 0);
    var steps2 := BuildOn(cfg, ByLeave, Initial(cfg), steps1, 0, s1, Advertise(a, "2", topic, Leave, 0), more2, s2, 0);
    AfterLeave(cfg, s1, s2, a, b, topic);
    var more3, s3 := Spreads(cfg, s2, Join3(topic), path, 2, 0);
    var steps3 := BuildOn(cfg, ByLeave, Initial(cfg), steps2, 0, s2, Advertise(a, "3", topic, Join, 0), more3, s3, 0);
    SpreadLogs(cfg, s2, Join3(topic), path, more3, s3, 0);
    AfterJoin(cfg, s2, s3, a, b, topic);
    var s4 := OneHop(cfg, s3, Leave2(topic), path, 1, 0);
    NoSteps(cfg, s4);
    var steps4 := BuildOn(cfg, ByLeave, Initial(cfg), steps3, 0, s3, Deliver(HopCopy(cfg, Leave2(topic), path, 1), 0, {}), [], s4, 0);
    AfterLateLeave(cfg, s3, s4, a, b, topic);
    steps, s := Settle(cfg, ByLeave, steps4, 0, s4, 0);
    QuietIsSpread(cfg, ByLeave, steps, 0, s, topic, a, b, "3");
  }

  lemma LeaveCanStart(s: State, a: Peer, b: Peer, topic: Topic)
    requires Seen(s, a) == {"1"} && Entry(s, a, topic, a).Some?
    ensures Ready(s, [a, b][0], Leave2(topic), a)
  {
  }

  /** The LEAVE is on its way to `b`. */
  ghost predicate LeaveOut(cfg: Config, s: State, a: Peer, b: Peer, topic: Topic) {
    && s.locals.Keys == Nodes(cfg) && s.log.Keys == {"1", "2"} && SequenceOf(s, a, topic) == 2
    && Ready(s, a, Join3(topic), a) && Ready(s, b, Join3(topic), a)
    && Seen(s, b) == {"1"} && HopCopy(cfg, Leave2(topic), [a, b], 1) in s.net
  }

  lemma AfterLeave(cfg: Config, s1: State, s2: State, a: Peer, b: Peer, topic: Topic)
    requires a != b && s1.locals.Keys == Nodes(cfg) && b in Nodes(cfg)
    requires s1.log.Keys == {"1"} == Seen(s1, a) == Seen(s1, b) && Entry(s1, b, topic, a) == Left(FirstAd(topic), b, [a], 0)
    requires Spread(cfg, s1, s2, Leave2(topic), [a, b], 1, 0)
    ensures LeaveOut(cfg, s2, a, b, topic)
  {
    var path := [a, b];
    SpreadFrame(cfg, s1, s2, Leave2(topic), path, 1, HopCopy(cfg, Leave2(topic), path, 1), 0);
    SpreadAt(cfg, s1, s2, Leave2(topic), path, 1, 0, 0);
    assert path[..1] == [a];
    SpreadElsewhere(cfg, s1, s2, Leave2(topic), path, 1, b, 0);
    hide Spread;
  }

  /** The newer JOIN was heard, the LEAVE is still on its way. */
  ghost predicate JoinHeard(cfg: Config, s: State, a: Peer, b: Peer, topic: Topic) {
    && s.locals.Keys == Nodes(cfg) && s.log.Keys == {"1", "2", "3"} && SequenceOf(s, a, topic) == 3
    && Seen(s, b) == {"1", "3"} && Ready(s, b, Leave2(topic), a) && HopCopy(cfg, Leave2(topic), [a, b], 1) in s.net
  }

  lemma AfterJoin(cfg: Config, s2: State, s3: State, a: Peer, b: Peer, topic: Topic)
    requires a != b && LeaveOut(cfg, s2, a, b, topic) && Spread(cfg, s2, s3, Join3(topic), [a, b], 2, 0)
    ensures JoinHeard(cfg, s3, a, b, topic)
  {
    var path := [a, b];
    SpreadFrame(cfg, s2, s3, Join3(topic), path, 2, HopCopy(cfg, Leave2(topic), path, 1), 0);
    SpreadAt(cfg, s2, s3, Join3(topic), path, 2, 1, 0);
    hide Spread;
  }

  lemma AfterLateLeave(cfg: Config, s3: State, s4: State, a: Peer, b: Peer, topic: Topic)
    requires JoinHeard(cfg, s3, a, b, topic) && Took(s3, s4, [a, b][1], Leave2(topic), a, [a, b][..1], 0)
    ensures Entry(s4, b, topic, a) == None && Seen(s4, b) == {"1", "2", "3"}
  {
  }

  /** Advertisements do not spread at all. */
  lemma NothingSpreads(cfg: Config, kind: Deletion, a: Peer, b: Peer, topic: Topic) returns (steps: seq<Step>, s: State)
    requires ValidConfig(cfg) && b in Links(cfg, a) && cfg.maxTtl <= 1
    ensures Diverged(cfg, kind, steps, s, topic, a, b)
  {
    steps, s := ToldAlone(cfg, kind, a, topic);
    QuietIsSpread(cfg, kind, steps, 0, s, topic, a, b, "1");
  }

  // ---- Networks without links ----

  /** Nothing is in flight, and every origin of a newest JOIN holds its own route. */
  ghost predicate OwnRoutesUpToDate(cfg: Config, s: State) {
    && s.net == multiset{}
    && forall id :: id in s.log && IsNewestJoin(s, id) ==>
         var m := s.log[id]; HoldsSince(s, m.sender, m.kind.payload.topic, m.sender, m.kind.payload.sequenceNumber)
  }

  ghost predicate IsNewestJoin(s: State, id: Id)
    requires id in s.log
  {
    var m := s.log[id];
    && m.kind.Control? && m.kind.payload.SubAd? && m.kind.payload.action == Join
    && m.kind.payload.sequenceNumber == SequenceOf(s, m.sender, m.kind.payload.topic)
  }

  lemma NextOwnUpToDate(cfg: Config, kind: Deletion, s: State, step: Step)
    requires ValidConfig(cfg) && NoLinks(cfg) && kind != ByCollection && BaseInv(cfg, s) && RoutesShaped(cfg, s)
    requires OwnRoutesUpToDate(cfg, s) && Enabled(cfg, s, step) && (KeepsRoutes(step) || Deletes(kind, step))
    ensures OwnRoutesUpToDate(cfg, Next(cfg, s, step))
  {
    if step.Publish? {
      LonelyPublish(cfg, s, step);
    } else {
      assert step.Advertise?;
      LonelyAdvertise(cfg, s, step);
    }
  }

  /** A node without links sends nothing. */
  lemma NobodyToSendTo(cfg: Config, s: State, n: Peer, m: Message, trail: seq<Peer>, now: int, chosen: set<Peer>)
    requires NoLinks(cfg) && n in cfg.pools && n in s.locals
    ensures Arrive(cfg, s, n, m, trail, now, chosen).net == s.net
  {
    hide Receive;
    assert Links(cfg, n) == {};
    var e := Receive(n, Links(cfg, n), s.locals[n], m, Inbound(trail), now, chosen);
    assert OneWay(cfg.pools[n].outbound, n, e.targets, e.message, trail + [n]) == {};
    assert OneWay(cfg.pools[n].inbound, n, e.targets, e.message, trail + [n]) == {};
  }

  lemma LonelyPublish(cfg: Config, s: State, step: Step)
    requires NoLinks(cfg) && BaseInv(cfg, s) && OwnRoutesUpToDate(cfg, s) && Enabled(cfg, s, step) && step.Publish?
    ensures OwnRoutesUpToDate(cfg, Next(cfg, s, step))
  {
    var t := Next(cfg, s, step);
    OriginatorSaw(cfg, s, step);
    NobodyToSendTo(cfg, Originated(cfg, s, step), step.node, NewMessage(cfg, step, s), [], step.now, step.chosen);
    hide Copies;
    forall id | id in t.log && IsNewestJoin(t, id)
      ensures var m := t.log[id]; HoldsSince(t, m.sender, m.kind.payload.topic, m.sender, m.kind.payload.sequenceNumber)
    {
      assert id in s.log && IsNewestJoin(s, id);
    }
  }

  lemma LonelyAdvertise(cfg: Config, s: State, step: Step)
    requires NoLinks(cfg) && BaseInv(cfg, s) && RoutesShaped(cfg, s) && OwnRoutesUpToDate(cfg, s) && Enabled(cfg, s, step) && step.Advertise?
    ensures OwnRoutesUpToDate(cfg, Next(cfg, s, step))
  {
    var t := Next(cfg, s, step);
    OriginatorSaw(cfg, s, step);
    NobodyToSendTo(cfg, Originated(cfg, s, step), step.node, NewMessage(cfg, step, s), [], step.now, {});
    forall id | id in t.log && IsNewestJoin(t, id)
      ensures var m := t.log[id]; HoldsSince(t, m.sender, m.kind.payload.topic, m.sender, m.kind.payload.sequenceNumber)
    {
      if id == step.id { OwnJoinHeld(cfg, s, step); } else { OlderJoinHeld(cfg, s, step, id); }
    }
  }

  lemma OwnJoinHeld(cfg: Config, s: State, step: Step)
    requires BaseInv(cfg, s) && RoutesShaped(cfg, s) && Enabled(cfg, s, step) && step.Advertise? && step.action == Join
    ensures HoldsSince(Next(cfg, s, step), step.node, step.topic, step.node, SequenceOf(s, step.node, step.topic) + 1)
  {
    var u, m := Originated(cfg, s, step), NewMessage(cfg, step, s);
    assert TableShaped(cfg, s, step.node, s.locals[step.node].routes);
    var ad := Ad(step.id, step.topic, SequenceOf(s, step.node, step.topic) + 1, Join);
    assert Seen(s, step.node) <= s.log.Keys;
    if Entry(s, step.node, step.topic, step.node).Some? {
      assert Shaped(cfg, s, step.node, step.topic, step.node, Entry(s, step.node, step.topic, step.node).value);
    }
    assert Ready(u, step.node, ad, step.node);
    ArrivalTaken(cfg, u, step.node, m, ad, [], step.now);
    hide Receive, Copies;
  }

  lemma OlderJoinHeld(cfg: Config, s: State, step: Step, id: Id)
    requires BaseInv(cfg, s) && OwnRoutesUpToDate(cfg, s) && Enabled(cfg, s, step) && step.Advertise? && id != step.id
    requires id in Next(cfg, s, step).log && IsNewestJoin(Next(cfg, s, step), id)
    ensures var t := Next(cfg, s, step);
            var m := t.log[id]; HoldsSince(t, m.sender, m.kind.payload.topic, m.sender, m.kind.payload.sequenceNumber)
  {
    var t := Next(cfg, s, step);
    AdBefore(cfg, s, step, id);
    var m := s.log[id];
    assert LoggedOk(cfg, s, id);
    AdvertisedSequence(cfg, s, step);
    assert IsNewestJoin(s, id);
    OtherEntryStays(cfg, s, step, m.kind.payload.topic, m.sender);
  }

  lemma AdvertisedSequence(cfg: Config, s: State, step: Step)
    requires Enabled(cfg, s, step) && step.Advertise?
    ensures Next(cfg, s, step).sequences == s.sequences[(step.node, step.topic) := SequenceOf(s, step.node, step.topic) + 1]
  {
    hide Receive, Copies;
  }

  /** Advertising touches only the advertised entry. */
  lemma OtherEntryStays(cfg: Config, s: State, step: Step, topic: Topic, origin: Peer)
    requires Enabled(cfg, s, step) && step.Advertise? && !(topic == step.topic && origin == step.node)
    ensures Entry(Next(cfg, s, step), origin, topic, origin) == Entry(s, origin, topic, origin)
  {
    StepLaws.Advertisement(cfg, s, step, origin, topic, origin);
    hide Next, Entry;
  }

  lemma {:induction false} RunOwnUpToDate(cfg: Config, kind: Deletion, s: State, steps: seq<Step>, t: State)
    requires ValidConfig(cfg) && NoLinks(cfg) && kind != ByCollection && BaseInv(cfg, s) && RoutesShaped(cfg, s)
    requires OwnRoutesUpToDate(cfg, s) && Run(cfg, s, steps, t) && OnlyBy(kind, steps)
    ensures OwnRoutesUpToDate(cfg, t)
    decreases |steps|
  {
    if steps != [] {
      NextOwnUpToDate(cfg, kind, s, steps[0]);
      NextKeepsBase(cfg, s, steps[0]);
      NextKeepsShape(cfg, s, steps[0]);
      hide Next, Enabled, OwnRoutesUpToDate, BaseInv, RoutesShaped;
      RunOwnUpToDate(cfg, kind, Next(cfg, s, steps[0]), steps[1..], t);
    }
  }

  lemma ConnectedByLinks(cfg: Config, a: Peer, b: Peer)
    requires Connected(cfg, a, b)
    ensures a == b || Links(cfg, a) != {}
  {
    var p :| Joins(cfg, p, a, b);
    if |p| > 1 { assert p[0 + 1] in Links(cfg, p[0]); }
  }

  lemma LonelyConverges(cfg: Config, kind: Deletion)
    requires ValidConfig(cfg) && NoLinks(cfg) && kind != ByCollection
    ensures ConvergesBy(cfg, kind)
  {
    forall steps, s, topic, origin, n
      | Run(cfg, Initial(cfg), steps, s) && OnlyBy(kind, steps) && NewestJoinSpread(steps, s, topic, origin) && Connected(cfg, origin, n)
      ensures HoldsSince(s, n, topic, origin, SequenceOf(s, origin, topic))
    {
      InitialBase(cfg);
      ConnectedByLinks(cfg, origin, n);
      RunOwnUpToDate(cfg, kind, Initial(cfg), steps, s);
      var id :| id in s.log && IsAd(s.log[id], topic, origin, SequenceOf(s, origin, topic)) && s.log[id].kind.payload.action == Join;
      assert IsNewestJoin(s, id);
    }
  }

  lemma NobodyConverges(cfg: Config, kind: Deletion)
    requires ValidConfig(cfg) && Nodes(cfg) == {}
    ensures ConvergesBy(cfg, kind)
  {
    forall steps, s, topic, origin | Run(cfg, Initial(cfg), steps, s) ensures !NewestJoinSpread(steps, s, topic, origin) {
      NobodyAdvertises(cfg, steps, s);
    }
  }

  lemma NobodyAdvertises(cfg: Config, steps: seq<Step>, s: State)
    requires ValidConfig(cfg) && Run(cfg, Initial(cfg), steps, s)
    ensures Nodes(cfg) == {} ==> s.log.Keys == {}
  {
    InitialBase(cfg);
    RunKeepsBase(cfg, Initial(cfg), steps, s);
    hide Run;
    if id :| id in s.log { assert LoggedOk(cfg, s, id); }
  }

  /** Exactly when runs converge in spite of deletions of one kind. A collected route is missing until the next
      advertisement, so that collection prevents it wherever there is a node. A lost connection, or a LEAVE
      that comes late, prevents it wherever there is a link: the neighbour may lose the newest route, or, with
      a TTL of at most one, never hears of it. `Coverage.Recovery` is what runs can rely on. */
  lemma ConvergesIff(cfg: Config, kind: Deletion)
    requires ValidConfig(cfg)
    ensures ConvergesBy(cfg, kind) <==> if kind == ByCollection then Nodes(cfg) == {} else NoLinks(cfg)
  {
    hide ConvergesBy, Diverged, Run;
    if kind == ByCollection {
      if a :| a in Nodes(cfg) {
        var steps, s := OwnRouteCollected(cfg, a, "");
        DivergedPrevents(cfg, kind, steps, s, "", a, a);
      } else {
        NobodyConverges(cfg, kind);
      }
    } else if NoLinks(cfg) {
      LonelyConverges(cfg, kind);
    } else {
      var a :| Links(cfg, a) != {};
      var b :| b in Links(cfg, a);
      LinkDiverges(cfg, kind, a, b);
    }
  }

  lemma LinkDiverges(cfg: Config, kind: Deletion, a: Peer, b: Peer)
    requires ValidConfig(cfg) && kind != ByCollection && b in Links(cfg, a)
    ensures !ConvergesBy(cfg, kind)
  {
    hide ConvergesBy, Diverged, Run;
    var steps, s;
    if cfg.maxTtl <= 1 {
      steps, s := NothingSpreads(cfg, kind, a, b, "");
    } else if kind == ByLeave {
      steps, s := LateLeaveDeletesNewerRoute(cfg, a, b, "");
    } else {
      steps, s := NeighbourDisconnected(cfg, a, b, "");
    }
    DivergedPrevents(cfg, kind, steps, s, "", a, b);
  }
}
