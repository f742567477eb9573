/** How much of a sync batch gets past the rate limiter of the node that receives it. */
module SyncIntake {
  import opened Common
  import opened Gossip
  import opened Network
  import RateLimiting

  /** What a sync batch changes for sure: the sender's account with the rate limiter, and the seen set. */
  datatype Intake = Intake(account: RateLimiting.Account, seen: set<Id>)

  /** The messages of a payload; one that is no list has none. */
  function MessagesOf(payload: Option<seq<Message>>): seq<Message> {
    if payload.Some? then payload.value else []
  }

  /** The outcome of the two checks beside the rate limiter, for every message. */
  datatype Oracle = Oracle(powValid: Message -> bool, signatureValid: Message -> bool)

  /** A message that was seen before is skipped; any other costs a token, and is taken in if it passes. */
  function TakeOne(rate: RateLimiting.Rate, i: Intake, m: Message, oracle: Oracle, now: int): Intake {
    if m.id in i.seen || !oracle.powValid(m) then i
    else
      var (account, verdict) := RateLimiting.Check(rate, i.account, now);
      Intake(account, if verdict.Admitted? && oracle.signatureValid(m) then i.seen + {m.id} else i.seen)
  }

  function TakeAll(rate: RateLimiting.Rate, i: Intake, messages: seq<Message>, oracle: Oracle, times: seq<int>): Intake
    requires |times| == |messages|
  {
    if messages == [] then i
    else
      var n := |messages| - 1;
      TakeOne(rate, TakeAll(rate, i, messages[..n], oracle, times[..n]), messages[n], oracle, times[n])
  }

  // ---- What the messages that are taken in do ----

  /** The rest of what a batch changes: the tables, what is handed over and what is sent on. */
  datatype Effect = Effect(local: Local, emitted: multiset<Id>, sent: multiset<Copy>)

  /** The node that receives the batch, the peer that sent it, and who else is connected. */
  datatype Site = Site(self: Peer, from: Peer, pool: Pool, fanout: nat)

  predicate IsTaken(rate: RateLimiting.Rate, i: Intake, m: Message, oracle: Oracle, now: int) {
    m.id !in i.seen && oracle.powValid(m) && RateLimiting.Check(rate, i.account, now).1.Admitted? && oracle.signatureValid(m)
  }

  /** One that is taken in is processed like a gossip message from the sender of the batch. */
  function InjectOne(site: Site, taken: bool, f: Effect, m: Message, now: int, chosen: set<Peer>): Effect {
    if !taken then f
    else
      var e := Receive(site.self, site.pool.outbound + site.pool.inbound, f.local, m, Some(site.from), now, chosen);
      Effect(e.local, if e.emitted then f.emitted + multiset{m.id} else f.emitted,
             f.sent + Copies(site.pool, site.self, e.targets, e.message, [site.from, site.self]))
  }

  function InjectAll(site: Site, rate: RateLimiting.Rate, i: Intake, f: Effect, messages: seq<Message>, oracle: Oracle,
                     times: seq<int>, choices: seq<set<Peer>>): Effect
    requires |times| == |messages| == |choices|
  {
    if messages == [] then f
    else
      var n := |messages| - 1;
      var before := TakeAll(rate, i, messages[..n], oracle, times[..n]);
      InjectOne(site, IsTaken(rate, before, messages[n], oracle, times[n]),
                InjectAll(site, rate, i, f, messages[..n], oracle, times[..n], choices[..n]), messages[n], times[n], choices[n])
  }

  /** The choice of targets for a message that is processed in this state. */
  ghost predicate LegitTargets(site: Site, l: Local, m: Message, now: int, chosen: set<Peer>) {
    m.kind.Ordinary? && m.id !in l.seen ==>
      FanoutChoice(site.fanout, Eligible(site.pool.outbound + site.pool.inbound, l.routes, m, Some(site.from), now), chosen)
  }

  /** Every choice was legitimate when it was made. */
  ghost predicate LegitChoices(site: Site, rate: RateLimiting.Rate, i: Intake, f: Effect, messages: seq<Message>, oracle: Oracle,
                               times: seq<int>, choices: seq<set<Peer>>)
    requires |times| == |messages| == |choices|
  {
    messages != [] ==>
      var n := |messages| - 1;
      && LegitChoices(site, rate, i, f, messages[..n], oracle, times[..n], choices[..n])
      && (IsTaken(rate, TakeAll(rate, i, messages[..n], oracle, times[..n]), messages[n], oracle, times[n]) ==>
            LegitTargets(site, InjectAll(site, rate, i, f, messages[..n], oracle, times[..n], choices[..n]).local,
                         messages[n], times[n], choices[n]))
  }

  /** What the first `n` messages of a batch have made of the starting values. */
  ghost predicate BatchSoFar(site: Site, rate: RateLimiting.Rate, i: Intake, f: Effect, messages: seq<Message>, oracle: Oracle,
                             times: seq<int>, n: nat, choices: seq<set<Peer>>, j: Intake, g: Effect)
    requires |times| == |messages|
  {
    && n <= |messages| && |choices| == n && i.seen <= j.seen
    && j == TakeAll(rate, i, messages[..n], oracle, times[..n])
    && g == InjectAll(site, rate, i, f, messages[..n], oracle, times[..n], choices)
    && LegitChoices(site, rate, i, f, messages[..n], oracle, times[..n], choices)
    && (AllOrdinary(messages) ==> g.emitted == f.emitted + multiset(j.seen - i.seen) && g.local.routes == f.local.routes)
  }

  lemma BatchStarts(site: Site, rate: RateLimiting.Rate, i: Intake, f: Effect, messages: seq<Message>, oracle: Oracle, times: seq<int>)
    requires |times| == |messages|
    ensures BatchSoFar(site, rate, i, f, messages, oracle, times, 0, [], i, f)
  {
    assert i.seen - i.seen == {};
  }

  lemma BatchGoesOn(site: Site, rate: RateLimiting.Rate, i: Intake, f: Effect, messages: seq<Message>, oracle: Oracle,
                    times: seq<int>, n: nat, choices: seq<set<Peer>>, j: Intake, g: Effect, chosen: set<Peer>, k: Intake, h: Effect)
    requires |times| == |messages| && n < |messages| && BatchSoFar(site, rate, i, f, messages, oracle, times, n, choices, j, g)
    requires k == TakeOne(rate, j, messages[n], oracle, times[n])
    requires var taken := IsTaken(rate, j, messages[n], oracle, times[n]);
             && h == InjectOne(site, taken, g, messages[n], times[n], chosen)
             && (taken ==> LegitTargets(site, g.local, messages[n], times[n], chosen))
    requires messages[n].kind.Ordinary? ==> h.emitted == g.emitted + multiset(k.seen - j.seen) && h.local.routes == g.local.routes
    ensures BatchSoFar(site, rate, i, f, messages, oracle, times, n + 1, choices + [chosen], k, h)
  {
    assert messages[..n + 1][..n] == messages[..n] && times[..n + 1][..n] == times[..n] && (choices + [chosen])[..n] == choices;
    OneMoreSeen(i.seen, j.seen, k.seen, messages[n].id);
    hide RateLimiting.Check, Receive, Copies, LegitTargets;
  }

  lemma BatchEnds(site: Site, rate: RateLimiting.Rate, i: Intake, f: Effect, messages: seq<Message>, oracle: Oracle,
                  times: seq<int>, choices: seq<set<Peer>>, j: Intake, g: Effect)
    requires |times| == |messages| && BatchSoFar(site, rate, i, f, messages, oracle, times, |messages|, choices, j, g)
    ensures j == TakeAll(rate, i, messages, oracle, times)
    ensures g == InjectAll(site, rate, i, f, messages, oracle, times, choices)
    ensures LegitChoices(site, rate, i, f, messages, oracle, times, choices)
    ensures AllOrdinary(messages) ==> g.emitted == f.emitted + multiset(j.seen - i.seen) && g.local.routes == f.local.routes
  {
    assert messages[..|messages|] == messages && times[..|messages|] == times;
  }

  /** A batch cannot bring more new messages than the sender has tokens, and what is refilled meanwhile. */
  lemma {:induction false} BatchBound(rate: RateLimiting.Rate, i: Intake, messages: seq<Message>, oracle: Oracle, times: seq<int>)
    requires |times| == |messages| > 0 && RateLimiting.ValidRate(rate) && RateLimiting.Sorted(times)
    requires RateLimiting.BucketOk(rate, i.account, times[0])
    ensures var end, last := TakeAll(rate, i, messages, oracle, times), times[|times| - 1];
            && i.seen <= end.seen && RateLimiting.BucketOk(rate, end.account, last)
            && |end.seen - i.seen| as real + RateLimiting.TokensAt(rate, end.account, last)
               <= RateLimiting.TokensAt(rate, i.account, times[0]) + RateLimiting.Accrued(rate, last - times[0])
            && |end.seen - i.seen| as real <= RateLimiting.TokensAt(rate, i.account, times[0]) + RateLimiting.Accrued(rate, last - times[0])
  {
    var n := |messages| - 1;
    var end := TakeAll(rate, i, messages, oracle, times);
    if n == 0 {
      assert TakeAll(rate, i, messages[..0], oracle, times[..0]) == i;
      assert end == TakeOne(rate, i, messages[0], oracle, times[0]);
      OneTaken(rate, i, i, messages[0], oracle, times[0]);
      RateLimiting.AccruedAdds(rate, 0, 0);
      assert i.seen - i.seen == {};
    } else {
      var mid := TakeAll(rate, i, messages[..n], oracle, times[..n]);
      BatchBound(rate, i, messages[..n], oracle, times[..n]);
      RateLimiting.RefillIsSlow(rate, mid.account, times[n - 1], times[n]);
      RateLimiting.AccruedAdds(rate, times[n - 1] - times[0], times[n] - times[n - 1]);
      OneTaken(rate, i, mid, messages[n], oracle, times[n]);
    }
    RateLimiting.RefillIsSlow(rate, end.account, times[n], times[n]);
  }

  lemma OneTaken(rate: RateLimiting.Rate, i: Intake, mid: Intake, m: Message, oracle: Oracle, now: int)
    requires RateLimiting.ValidRate(rate) && RateLimiting.BucketOk(rate, mid.account, now) && i.seen <= mid.seen
    ensures var end := TakeOne(rate, mid, m, oracle, now);
            && i.seen <= end.seen && RateLimiting.BucketOk(rate, end.account, now)
            && |end.seen - i.seen| as real + RateLimiting.TokensAt(rate, end.account, now)
               <= |mid.seen - i.seen| as real + RateLimiting.TokensAt(rate, mid.account, now)
  {
    RateLimiting.CheckKeepsBucket(rate, mid.account, now, now);
    if m.id !in mid.seen {
      assert mid.seen + {m.id} - i.seen == (mid.seen - i.seen) + {m.id};
    }
  }

  ghost predicate AllValid(messages: seq<Message>, oracle: Oracle) {
    forall k :: 0 <= k < |messages| ==> oracle.powValid(messages[k]) && oracle.signatureValid(messages[k])
  }

  /** A sender with a token for each message, and no ban, gets the whole batch in. */
  lemma {:induction false} EnoughTokens(rate: RateLimiting.Rate, i: Intake, messages: seq<Message>, oracle: Oracle, times: seq<int>)
    requires |times| == |messages| > 0 && RateLimiting.ValidRate(rate) && RateLimiting.Sorted(times) && AllValid(messages, oracle)
    requires RateLimiting.BucketOk(rate, i.account, times[0]) && !RateLimiting.IsBanned(i.account, times[0])
    requires RateLimiting.TokensAt(rate, i.account, times[0]) >= |messages| as real
    ensures var end, last := TakeAll(rate, i, messages, oracle, times), times[|times| - 1];
            && end.seen == i.seen + IdsOf(messages)
            && RateLimiting.BucketOk(rate, end.account, last) && !RateLimiting.IsBanned(end.account, last)
            && RateLimiting.TokensAt(rate, end.account, last) >= RateLimiting.TokensAt(rate, i.account, times[0]) - |messages| as real
  {
    var n := |messages| - 1;
    var end := TakeAll(rate, i, messages, oracle, times);
    IdsBounds(messages);
    IdsUpTo(messages, n);
    if n == 0 {
      assert TakeAll(rate, i, messages[..0], oracle, times[..0]) == i;
      OneAdmitted(rate, i, messages[0], oracle, times[0]);
    } else {
      var mid := TakeAll(rate, i, messages[..n], oracle, times[..n]);
      EnoughTokens(rate, i, messages[..n], oracle, times[..n]);
      TokensStay(rate, mid.account, times[n - 1], times[n]);
      OneAdmitted(rate, mid, messages[n], oracle, times[n]);
    }
  }

  lemma TokensStay(rate: RateLimiting.Rate, a: RateLimiting.Account, now: int, later: int)
    requires RateLimiting.ValidRate(rate) && RateLimiting.BucketOk(rate, a, now) && !RateLimiting.IsBanned(a, now) && now <= later
    ensures RateLimiting.BucketOk(rate, a, later) && !RateLimiting.IsBanned(a, later)
    ensures RateLimiting.TokensAt(rate, a, later) >= RateLimiting.TokensAt(rate, a, now)
  {
    if a.bucket.Some? {
      RateLimiting.AccruedMonotone(rate, now - a.bucket.value.lastRefill, later - a.bucket.value.lastRefill);
      RateLimiting.AccruedMonotone(rate, 0, later - a.bucket.value.lastRefill);
    }
  }

  lemma OneAdmitted(rate: RateLimiting.Rate, mid: Intake, m: Message, oracle: Oracle, now: int)
    requires RateLimiting.ValidRate(rate) && RateLimiting.BucketOk(rate, mid.account, now) && !RateLimiting.IsBanned(mid.account, now)
    requires RateLimiting.TokensAt(rate, mid.account, now) >= 1.0 && oracle.powValid(m) && oracle.signatureValid(m)
    ensures var end := TakeOne(rate, mid, m, oracle, now);
            && end.seen == mid.seen + {m.id}
            && RateLimiting.BucketOk(rate, end.account, now) && !RateLimiting.IsBanned(end.account, now)
            && RateLimiting.TokensAt(rate, end.account, now) >= RateLimiting.TokensAt(rate, mid.account, now) - 1.0
  {
    RateLimiting.CheckKeepsBucket(rate, mid.account, now, now);
  }

  ghost predicate AllNew(messages: seq<Message>, seen: set<Id>) {
    && (forall k :: 0 <= k < |messages| ==> messages[k].id !in seen)
    && (forall j, k :: 0 <= j < k < |messages| ==> messages[j].id != messages[k].id)
  }

  lemma {:induction false} NewIdsCount(messages: seq<Message>, seen: set<Id>)
    requires AllNew(messages, seen)
    ensures |IdsOf(messages)| == |messages| && IdsOf(messages) !! seen
  {
    if messages != [] {
      var n := |messages| - 1;
      NewIdsCount(messages[..n], seen);
      IdsUpTo(messages, n);
      IdsBounds(messages);
      assert messages[n].id !in IdsOf(messages[..n]);
    }
  }

  /** Of a batch of valid messages that are all new, exactly those are taken in whose call the limiter admits. */
  lemma {:induction false} TakenIffAdmitted(rate: RateLimiting.Rate, i: Intake, messages: seq<Message>, oracle: Oracle, times: seq<int>)
    requires |times| == |messages| && AllValid(messages, oracle) && AllNew(messages, i.seen)
    ensures var end := TakeAll(rate, i, messages, oracle, times);
            && end.account == RateLimiting.AfterFrom(rate, i.account, times)
            && i.seen <= end.seen <= i.seen + IdsOf(messages)
            && forall k :: 0 <= k < |messages| ==>
                 (messages[k].id in end.seen <==> RateLimiting.VerdictFrom(rate, i.account, times, k).Admitted?)
  {
    if messages != [] {
      var n := |messages| - 1;
      var m, mid := messages[n], TakeAll(rate, i, messages[..n], oracle, times[..n]);
      TakenIffAdmitted(rate, i, messages[..n], oracle, times[..n]);
      IdsUpTo(messages, n);
      IdsBounds(messages);
      LastIsNew(messages, i.seen);
      forall k | 0 <= k < n
        ensures messages[..n][k] == messages[k]
        ensures RateLimiting.VerdictFrom(rate, i.account, times[..n], k) == RateLimiting.VerdictFrom(rate, i.account, times, k)
      {
        assert times[..n][..k] == times[..k];
      }
      hide RateLimiting.Check;
    }
  }

  /** What does not count: messages that were seen before or fail proof of work leave no trace, not even with the
      rate limiter; new ones that only fail the signature check cost their sender, and are not taken in. */
  lemma {:induction false} NothingTaken(rate: RateLimiting.Rate, i: Intake, messages: seq<Message>, oracle: Oracle, times: seq<int>)
    requires |times| == |messages|
    ensures (forall k :: 0 <= k < |messages| ==> messages[k].id in i.seen || !oracle.powValid(messages[k])) ==>
              TakeAll(rate, i, messages, oracle, times) == i
    ensures (forall k :: 0 <= k < |messages| ==>
               messages[k].id !in i.seen && oracle.powValid(messages[k]) && !oracle.signatureValid(messages[k])) ==>
              TakeAll(rate, i, messages, oracle, times) == Intake(RateLimiting.AfterFrom(rate, i.account, times), i.seen)
  {
    if messages != [] {
      var n := |messages| - 1;
      NothingTaken(rate, i, messages[..n], oracle, times[..n]);
      assert forall k :: 0 <= k < n ==> messages[..n][k] == messages[k];
      hide RateLimiting.Check;
    }
  }

  lemma LastIsNew(messages: seq<Message>, seen: set<Id>)
    requires messages != [] && AllNew(messages, seen)
    ensures messages[|messages| - 1].id !in seen + IdsOf(messages[..|messages| - 1])
    ensures forall k :: 0 <= k < |messages| - 1 ==> messages[k].id != messages[|messages| - 1].id
  {
  }

  /** A batch of new and valid messages is taken in whole if and only if the sender is not banned, its balance
      and the refill since the first message cover every message so far, and in no later stretch there are more
      messages than the capacity and the refill cover. The batch is acknowledged either way. */
  lemma BatchTakenWholeIff(rate: RateLimiting.Rate, i: Intake, messages: seq<Message>, oracle: Oracle, times: seq<int>)
    requires |times| == |messages| > 0 && RateLimiting.ValidRate(rate) && RateLimiting.Sorted(times)
    requires RateLimiting.BucketOk(rate, i.account, times[0])
    requires AllValid(messages, oracle) && AllNew(messages, i.seen)
    ensures IdsOf(messages) <= TakeAll(rate, i, messages, oracle, times).seen <==>
            && !RateLimiting.IsBanned(i.account, times[0])
            && (forall k :: 0 <= k < |times| ==>
                  (k + 1) as real <= RateLimiting.TokensAt(rate, i.account, times[0]) + RateLimiting.Accrued(rate, times[k] - times[0]))
            && (forall j, k :: 1 <= j <= k < |times| ==>
                  (k - j + 1) as real <= rate.capacity + RateLimiting.Accrued(rate, times[k] - times[j]))
  {
    WholeIffAdmitted(rate, i, messages, oracle, times);
    RateLimiting.AdmittedFromIff(rate, i.account, times);
    RateLimiting.AffordableMeans(rate, i.account, times);
    hide TakeAll, IdsOf, RateLimiting.AdmittedFrom, RateLimiting.Affordable, RateLimiting.TokensAt, RateLimiting.Accrued, RateLimiting.IsBanned;
  }

  lemma WholeIffAdmitted(rate: RateLimiting.Rate, i: Intake, messages: seq<Message>, oracle: Oracle, times: seq<int>)
    requires |times| == |messages| && AllValid(messages, oracle) && AllNew(messages, i.seen)
    ensures IdsOf(messages) <= TakeAll(rate, i, messages, oracle, times).seen <==> RateLimiting.AdmittedFrom(rate, i.account, times, |times|)
  {
    TakenIffAdmitted(rate, i, messages, oracle, times);
    hide TakeAll, RateLimiting.VerdictFrom;
    if IdsOf(messages) <= TakeAll(rate, i, messages, oracle, times).seen {
      forall k | 0 <= k < |messages| ensures RateLimiting.VerdictFrom(rate, i.account, times, k).Admitted? {
        assert messages[k].id in IdsOf(messages);
      }
    }
  }

  function IdsOf(messages: seq<Message>): set<Id> { set i | 0 <= i < |messages| :: messages[i].id }

  ghost predicate AllOrdinary(messages: seq<Message>) { forall i :: 0 <= i < |messages| ==> messages[i].kind.Ordinary? }

  lemma IdsUpTo(messages: seq<Message>, i: nat)
    requires i < |messages|
    ensures IdsOf(messages[..i]) + {messages[i].id} == IdsOf(messages[..i + 1])
  {
    var some, more := messages[..i], messages[..i + 1];
    forall id | id in IdsOf(some) ensures id in IdsOf(more) {
      var k :| 0 <= k < i && some[k].id == id;
      assert more[k] == some[k];
    }
    assert more[i] == messages[i];
    forall id | id in IdsOf(more) ensures id in IdsOf(some) + {messages[i].id} {
      var k :| 0 <= k <= i && more[k].id == id;
      assert k < i ==> some[k] == more[k];
    }
  }

  lemma IdsBounds(messages: seq<Message>)
    ensures IdsOf(messages[..0]) == {} && IdsOf(messages[..|messages|]) == IdsOf(messages)
  {
    assert messages[..|messages|] == messages;
  }

  lemma NewIsTaken(self: Peer, peers: set<Peer>, l: Local, m: Message, from: Option<Peer>, now: int, chosen: set<Peer>)
    requires m.id !in l.seen
    ensures var e := Receive(self, peers, l, m, from, now, chosen);
            && e.local.seen == l.seen + {m.id}
            && (m.kind.Ordinary? ==> e.emitted && e.local.routes == l.routes)
  {
  }

  lemma OneMoreSeen(seen0: set<Id>, before: set<Id>, after: set<Id>, id: Id)
    requires seen0 <= before && (after == before || after == before + {id})
    ensures multiset(after - seen0) == multiset(before - seen0) + multiset(after - before)
  {
    if after == before {
      assert after - before == {};
    } else {
      assert after - seen0 == (before - seen0) + (after - before);
    }
  }
}
