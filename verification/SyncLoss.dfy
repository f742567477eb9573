/** End to end: what the receiver's rate limiter drops from a sync batch is lost, since the sender's watermark
    passes it. */
module SyncLoss {
  import opened Common
  import opened Gossip
  import opened MessageStorage
  import opened Synchronisation
  import opened SyncIntake
  import RateLimiting

  /** The messages of a batch as they arrive. */
  ghost predicate Carries(wire: seq<Message>, batch: seq<Record>) {
    |wire| == |batch| && forall k :: 0 <= k < |wire| ==> wire[k].id == batch[k].id
  }

  lemma {:induction false} BatchIsOwn(bs: seq<Batch>, b: nat, m: Record)
    requires b < |bs| && m in bs[b].messages
    ensures bs[b] in BatchesOf(bs, bs[b].stream) && m in Concat(BatchesOf(bs, bs[b].stream))
    decreases |bs|
  {
    var init, last, own := bs[..|bs| - 1], bs[|bs| - 1], bs[b].stream;
    assert bs == init + [last];
    BatchesOfSnoc(init, last, own);
    if b < |init| {
      BatchIsOwn(init, b, m);
      if last.stream == own { ConcatSnoc(BatchesOf(init, own), last); }
    } else {
      ConcatSnoc(BatchesOf(init, own), last);
    }
  }

  /** Whatever is stored then, no later stream that overlaps no other one collects the message. */
  ghost predicate NeverCollectedAgain(q: PeerSync, m: Record) {
    forall later, d, topics, delta ::
      OneAtATime(q, later) && IsDelta(d, topics, Run(q, later).watermark, delta) ==> m !in delta
  }

  /** All that a stream on its own has sent lies below the watermark that it leaves, for good. */
  lemma PassedForGood(p: PeerSync, collected: seq<Record>, es: seq<Event>, b: nat, m: Record)
    requires PeerOk(p) && p.waits == map[] && collected != [] && forall i :: 0 <= i < |es| ==> !es[i].Reconnect?
    requires !Waiting(Run(Begin(p, collected), es), p.started)
    requires var sent := Run(Begin(p, collected), es).sent; b < |sent| && sent[b].stream == p.started && m in sent[b].messages
    ensures m.lamportTimestamp <= Run(Begin(p, collected), es).watermark
    ensures NeverCollectedAgain(Run(Begin(p, collected), es), m)
  {
    var q := Run(Begin(p, collected), es);
    hide Run, PeerOk, Begin;
    StreamSendsAll(p, collected, es);
    SingleStreamMax(p, collected, es);
    BatchIsOwn(q.sent, b, m);
    assert m in multiset(Concat(BatchesOf(q.sent, p.started)));
    assert m in collected;
    MaxLamportIs(collected);
    forall later, d, topics, delta | OneAtATime(q, later) && IsDelta(d, topics, Run(q, later).watermark, delta) ensures m !in delta {
      WatermarkMonotone(q, later);
      StartsAt(q, later);
    }
  }

  lemma StartsAt(p: PeerSync, es: seq<Event>)
    ensures Run(p, es[..0]) == p
  {
  }

  /** If the receiver cannot afford a batch of new and valid messages, one of them is dropped although the batch
      is acknowledged; the sender's watermark passes it, and no later stream that does not overlap another
      one sends it again. */
  lemma DroppedForGood(p: PeerSync, collected: seq<Record>, es: seq<Event>, b: nat, wire: seq<Message>,
                       rate: RateLimiting.Rate, i: Intake, oracle: Oracle, times: seq<int>)
    returns (k: nat)
    requires PeerOk(p) && p.waits == map[] && collected != [] && forall j :: 0 <= j < |es| ==> !es[j].Reconnect?
    requires !Waiting(Run(Begin(p, collected), es), p.started)
    requires var sent := Run(Begin(p, collected), es).sent;
             b < |sent| && sent[b].stream == p.started && Carries(wire, sent[b].messages)
    requires |times| == |wire| > 0 && RateLimiting.ValidRate(rate) && RateLimiting.Sorted(times)
    requires RateLimiting.BucketOk(rate, i.account, times[0]) && AllValid(wire, oracle) && AllNew(wire, i.seen)
    requires RateLimiting.IsBanned(i.account, times[0]) || !RateLimiting.Affordable(rate, i.account, times)
    ensures k < |wire| && wire[k].id !in TakeAll(rate, i, wire, oracle, times).seen
    ensures var q := Run(Begin(p, collected), es);
            var m := q.sent[b].messages[k];
            m.id == wire[k].id && m.lamportTimestamp <= q.watermark && NeverCollectedAgain(q, m)
  {
    hide Run, PeerOk, Begin, TakeAll;
    RateLimiting.AdmittedFromIff(rate, i.account, times);
    TakenIffAdmitted(rate, i, wire, oracle, times);
    k :| 0 <= k < |wire| && !RateLimiting.VerdictFrom(rate, i.account, times, k).Admitted?;
    PassedForGood(p, collected, es, b, Run(Begin(p, collected), es).sent[b].messages[k]);
  }

  /** With the default capacity of 20 tokens, no batch of more than 20 that is processed at one instant is
      affordable. */
  lemma DefaultCapacityIsTooSmall(account: RateLimiting.Account, times: seq<int>, now: int)
    requires |times| > 20 && (forall k :: 0 <= k < |times| ==> times[k] == now)
    requires RateLimiting.TokensAt(RateLimiting.Rate(20.0, 5.0), account, now) <= 20.0
    ensures !RateLimiting.Affordable(RateLimiting.Rate(20.0, 5.0), account, times)
  {
    var rate := RateLimiting.Rate(20.0, 5.0);
    RateLimiting.AffordableMeans(rate, account, times);
    RateLimiting.AccruedAdds(rate, 0, 0);
    assert (20 + 1) as real > RateLimiting.TokensAt(rate, account, times[0]) + RateLimiting.Accrued(rate, times[20] - times[0]);
  }
}
