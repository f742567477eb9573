/** Tracking of messages that must be acknowledged: retries on timeout, and one outcome per message. */
module Acknowledgement {
  import opened Common

  const MAX_RETRY_ATTEMPTS := 3

  /** A message that waits for acknowledgements. */
  datatype Entry = Entry(attempts: nat, peers: set<Peer>)

  /** All that concerns one message id: its entry, its live timers, the outcomes reported for it, and the
      peers of each transmission. */
  datatype Track = Track(entry: Option<Entry>, timers: nat, confirmed: nat, failed: seq<set<Peer>>, rounds: seq<set<Peer>>)

  datatype Event = Ack(peer: Peer) | Timeout

  const UNTRACKED := Track(None, 0, 0, [], [])

  function Send(t: Track, peers: set<Peer>): Track {
    t.(entry := Some(Entry(1, peers)), timers := t.timers + 1, rounds := t.rounds + [peers])
  }

  function OnTimeout(t: Track): Track {
    if t.timers == 0 then t
    else
      var u := t.(timers := t.timers - 1);
      match t.entry
      case None => u
      case Some(e) =>
        if e.attempts >= MAX_RETRY_ATTEMPTS then u.(entry := None, failed := u.failed + [e.peers])
        else u.(entry := Some(Entry(e.attempts + 1, e.peers)), rounds := u.rounds + [e.peers], timers := u.timers + 1)
  }

  function OnAck(t: Track, peer: Peer): Track {
    match t.entry
    case None => t
    case Some(e) =>
      var left := e.peers - {peer};
      if left == {} then t.(entry := None, confirmed := t.confirmed + 1, timers := if t.timers > 0 then t.timers - 1 else 0)
      else t.(entry := Some(e.(peers := left)))
  }

  function On(t: Track, e: Event): Track {
    match e
    case Ack(p) => OnAck(t, p)
    case Timeout => OnTimeout(t)
  }

  function Run(t: Track, es: seq<Event>): Track {
    if es == [] then t else On(Run(t, es[..|es| - 1]), es[|es| - 1])
  }

  // ---- The history of a message, read off its events alone ----

  function Acked(es: seq<Event>): set<Peer> {
    set i | 0 <= i < |es| && es[i].Ack? :: es[i].peer
  }

  function Timeouts(es: seq<Event>): nat {
    if es == [] then 0 else Timeouts(es[..|es| - 1]) + if es[|es| - 1].Timeout? then 1 else 0
  }

  /** Event `k` is an acknowledgement that leaves nobody out, before the last timeout. */
  ghost predicate Completes(peers: set<Peer>, es: seq<Event>, k: int) {
    0 <= k < |es| && es[k].Ack? && peers <= Acked(es[..k + 1]) && Timeouts(es[..k]) < 3
  }

  /** Event `k` is the last timeout. */
  ghost predicate Expires(es: seq<Event>, k: int) {
    0 <= k < |es| && es[k].Timeout? && Timeouts(es[..k]) == 2
  }

  ghost predicate Completed(peers: set<Peer>, es: seq<Event>) {
    exists k :: Completes(peers, es, k)
  }

  /** Event `k` is the first such acknowledgement. */
  ghost predicate FirstCompletes(peers: set<Peer>, es: seq<Event>, k: int) {
    Completes(peers, es, k) && !Completed(peers, es[..k])
  }

  /** The track that the events call for. */
  ghost predicate TrackOk(peers: set<Peer>, es: seq<Event>, t: Track) {
    && t.timers == (if t.entry.Some? then 1 else 0)
    && t.confirmed == (if Completed(peers, es) then 1 else 0)
    && |t.failed| <= 1 && 1 <= |t.rounds| <= 3
    && (t.entry.Some? ==>
          && !Completed(peers, es) && t.failed == [] && Timeouts(es) < 3
          && t.entry.value == Entry(Timeouts(es) + 1, peers - Acked(es)) && |t.rounds| == Timeouts(es) + 1)
    && (t.failed != [] ==>
          !Completed(peers, es) && exists k :: Expires(es, k) && t.failed[0] == peers - Acked(es[..k]))
    && (t.entry.None? ==> Completed(peers, es) || t.failed != [])
    && (t.failed != [] ==> |t.rounds| == 3)
    && (Completed(peers, es) ==> exists k :: FirstCompletes(peers, es, k) && |t.rounds| == Timeouts(es[..k]) + 1)
  }

  lemma AckedSnoc(es: seq<Event>, e: Event)
    ensures Acked(es + [e]) == Acked(es) + if e.Ack? then {e.peer} else {}
  {
    var all := es + [e];
    forall p | p in Acked(es) ensures p in Acked(all) {
      var i :| 0 <= i < |es| && es[i].Ack? && es[i].peer == p;
      assert all[i] == es[i];
    }
    if e.Ack? { assert all[|es|] == e; }
  }

  lemma TimeoutsSnoc(es: seq<Event>, e: Event)
    ensures Timeouts(es + [e]) == Timeouts(es) + if e.Timeout? then 1 else 0
  {
    assert (es + [e])[..|es|] == es;
  }

  lemma CompletedSnoc(peers: set<Peer>, es: seq<Event>, e: Event)
    ensures Completed(peers, es + [e]) <==>
            Completed(peers, es) || (e.Ack? && peers <= Acked(es + [e]) && Timeouts(es) < 3)
  {
    var all := es + [e];
    forall k | 0 <= k < |es| ensures Completes(peers, es, k) <==> Completes(peers, all, k) {
      assert all[..k + 1] == es[..k + 1] && all[..k] == es[..k];
    }
    assert all[..|es| + 1] == all && all[..|es|] == es;
    assert Completes(peers, all, |es|) <==> e.Ack? && peers <= Acked(all) && Timeouts(es) < 3;
  }

  lemma ExpiresSnoc(es: seq<Event>, e: Event, k: int)
    requires Expires(es, k)
    ensures Expires(es + [e], k) && (es + [e])[..k] == es[..k]
  {
    assert (es + [e])[..k] == es[..k];
  }

  lemma {:induction false} TimeoutsMonotone(es: seq<Event>, k: nat)
    requires k <= |es|
    ensures Timeouts(es[..k]) <= Timeouts(es)
  {
    if k < |es| {
      TimeoutsMonotone(es[..|es| - 1], k);
      assert es[..|es| - 1][..k] == es[..k];
    } else {
      assert es[..k] == es;
    }
  }

  lemma ExpiryCounted(es: seq<Event>, k: int)
    requires Expires(es, k)
    ensures Timeouts(es) >= 3
  {
    TimeoutsMonotone(es, k + 1);
    assert es[..k + 1] == es[..k] + [es[k]];
    TimeoutsSnoc(es[..k], es[k]);
  }

  lemma OnKeepsTrack(peers: set<Peer>, es: seq<Event>, e: Event, t: Track)
    requires TrackOk(peers, es, t)
    ensures TrackOk(peers, es + [e], On(t, e))
  {
    AckedSnoc(es, e);
    TimeoutsSnoc(es, e);
    CompletedSnoc(peers, es, e);
    if t.entry.None? {
      ClosedKeepsTrack(peers, es, e, t);
    } else if e.Timeout? && t.entry.value.attempts >= 3 {
      assert (es + [e])[..|es|] == es;
      assert Expires(es + [e], |es|);
    }
  }

  lemma ClosedKeepsTrack(peers: set<Peer>, es: seq<Event>, e: Event, t: Track)
    requires TrackOk(peers, es, t) && t.entry.None?
    ensures TrackOk(peers, es + [e], On(t, e))
  {
    CompletedSnoc(peers, es, e);
    if t.failed != [] {
      var k :| Expires(es, k) && t.failed[0] == peers - Acked(es[..k]);
      ExpiresSnoc(es, e, k);
      ExpiryCounted(es, k);
    }
    if Completed(peers, es) {
      var k :| FirstCompletes(peers, es, k) && |t.rounds| == Timeouts(es[..k]) + 1;
      FirstSnoc(peers, es, e, k);
    }
  }

  lemma FirstSnoc(peers: set<Peer>, es: seq<Event>, e: Event, k: int)
    requires FirstCompletes(peers, es, k)
    ensures FirstCompletes(peers, es + [e], k) && (es + [e])[..k] == es[..k]
  {
    assert (es + [e])[..k] == es[..k] && (es + [e])[..k + 1] == es[..k + 1];
  }

  lemma SentTrack(peers: set<Peer>)
    ensures TrackOk(peers, [], Send(UNTRACKED, peers))
  {
    assert Acked([]) == {} && Timeouts([]) == 0 && !Completed(peers, []);
  }

  lemma {:induction false} RunKeepsTrack(peers: set<Peer>, es: seq<Event>)
    ensures TrackOk(peers, es, Run(Send(UNTRACKED, peers), es))
  {
    if es == [] {
      SentTrack(peers);
    } else {
      hide TrackOk, On;
      var prev, e := es[..|es| - 1], es[|es| - 1];
      RunKeepsTrack(peers, prev);
      OnKeepsTrack(peers, prev, e, Run(Send(UNTRACKED, peers), prev));
      assert prev + [e] == es;
    }
  }

  /** Exactly one outcome: a message sent under a fresh id is confirmed if some acknowledgement leaves
      nobody out before the third timeout, and otherwise fails at the third timeout with exactly the
      peers that have not acknowledged by then. Never both, never twice. One transmission at first and one
      after each of the first two timeouts before the outcome, and one live timer exactly while it is pending. */
  lemma ExactlyOneOutcome(peers: set<Peer>, es: seq<Event>)
    ensures var t := Run(Send(UNTRACKED, peers), es);
            && (t.confirmed == 1 <==> Completed(peers, es)) && t.confirmed <= 1
            && (t.failed != [] <==> !Completed(peers, es) && Timeouts(es) >= 3)
            && (t.failed != [] ==> |t.failed| == 1 && exists k :: Expires(es, k) && t.failed[0] == peers - Acked(es[..k]))
            && (t.entry.Some? <==> !Completed(peers, es) && Timeouts(es) < 3)
            && (t.entry.Some? ==> |t.rounds| == Timeouts(es) + 1) && (t.failed != [] ==> |t.rounds| == 3)
            && (Completed(peers, es) ==> exists k :: FirstCompletes(peers, es, k) && |t.rounds| == Timeouts(es[..k]) + 1)
            && t.timers == (if t.entry.Some? then 1 else 0)
  {
    RunKeepsTrack(peers, es);
    forall k | Expires(es, k) ensures Timeouts(es) >= 3 { ExpiryCounted(es, k); }
    hide Run, Send, Acked, Timeouts, Expires, Completed, FirstCompletes;
  }

  /** For a non-empty set of peers the completing acknowledgement may be any moment at which all have
      acknowledged; for an empty one it takes an acknowledgement from somebody. */
  lemma {:induction false} CompletedMeansAllAcked(peers: set<Peer>, es: seq<Event>)
    requires peers != {}
    ensures Completed(peers, es) <==>
            exists k :: 0 <= k <= |es| && peers <= Acked(es[..k]) && Timeouts(es[..k]) < 3
  {
    forall k | Completes(peers, es, k) ensures peers <= Acked(es[..k + 1]) && Timeouts(es[..k + 1]) < 3 {
      assert es[..k + 1] == es[..k] + [es[k]];
      TimeoutsSnoc(es[..k], es[k]);
    }
    forall k | 0 <= k <= |es| && peers <= Acked(es[..k]) && Timeouts(es[..k]) < 3
      ensures Completed(peers, es)
    {
      AllAckedCompletes(peers, es, k);
    }
  }

  lemma AckedNone()
    ensures Acked([]) == {}
  {
  }

  lemma {:induction false} AllAckedCompletes(peers: set<Peer>, es: seq<Event>, k: nat)
    requires peers != {} && k <= |es| && peers <= Acked(es[..k]) && Timeouts(es[..k]) < 3
    ensures Completed(peers, es)
  {
    AckedNone();
    assert es[..0] == [];
    if k > 0 {
      assert es[..k] == es[..k - 1] + [es[k - 1]];
      AckedSnoc(es[..k - 1], es[k - 1]);
      TimeoutsSnoc(es[..k - 1], es[k - 1]);
      if es[k - 1].Ack? {
        assert Completes(peers, es, k - 1);
      } else {
        AllAckedCompletes(peers, es, k - 1);
      }
    }
  }

  /** Event `k` is the timeout that causes the i-th retry, and these are the peers it goes to. */
  ghost predicate Retry(peers: set<Peer>, es: seq<Event>, i: nat, round: set<Peer>) {
    exists k :: 0 <= k < |es| && es[k].Timeout? && Timeouts(es[..k]) == i - 1 && round == peers - Acked(es[..k])
  }

  /** Every retry goes to exactly the peers that have not acknowledged by the timeout that causes it. */
  lemma {:induction false} RetriesGoToTheMissing(peers: set<Peer>, es: seq<Event>)
    ensures var t := Run(Send(UNTRACKED, peers), es);
            t.rounds != [] && t.rounds[0] == peers
            && forall i :: 1 <= i < |t.rounds| ==> Retry(peers, es, i, t.rounds[i])
  {
    if es != [] {
      var prev, e := es[..|es| - 1], es[|es| - 1];
      RetriesGoToTheMissing(peers, prev);
      RunKeepsTrack(peers, prev);
      var t, u := Run(Send(UNTRACKED, peers), prev), Run(Send(UNTRACKED, peers), es);
      assert t.entry.Some? ==> t.entry.value == Entry(Timeouts(prev) + 1, peers - Acked(prev)) && |t.rounds| == Timeouts(prev) + 1;
      hide TrackOk, Completed, Acked, Timeouts;
      forall i | 1 <= i < |u.rounds| ensures Retry(peers, es, i, u.rounds[i]) {
        if i < |t.rounds| {
          var k :| 0 <= k < |prev| && prev[k].Timeout? && Timeouts(prev[..k]) == i - 1 && t.rounds[i] == peers - Acked(prev[..k]);
          assert es[k] == prev[k] && es[..k] == prev[..k];
        } else {
          assert es[|prev|].Timeout? && es[..|prev|] == prev;
        }
      }
    }
  }

  /** A message to no peers is not confirmed by itself: it fails after three timeouts. */
  lemma NoPeersFails()
    ensures var t := Run(Send(UNTRACKED, {}), [Timeout, Timeout, Timeout]);
            t.confirmed == 0 && t.failed == [{}]
  {
    var es := [Timeout, Timeout, Timeout];
    var t0 := Send(UNTRACKED, {});
    assert es[..2] == [Timeout, Timeout] && es[..2][..1] == [Timeout] && es[..2][..1][..0] == [];
    assert Run(t0, es[..2][..1]) == OnTimeout(t0);
    assert Run(t0, es[..2]) == OnTimeout(OnTimeout(t0));
  }

  // ---- The manager object ----

  class AckManager {
    var pendingAcks: map<Id, Entry>
    var timers: multiset<Id>               // scheduled timeouts
    var confirmed: multiset<Id>            // 'delivery:confirmed' events
    var failed: map<Id, seq<set<Peer>>>    // 'delivery:failed' events, by message
    var rounds: map<Id, seq<set<Peer>>>    // transmissions, by message

    constructor ()
      ensures forall id :: TrackOf(id) == UNTRACKED
    {
      pendingAcks, timers, confirmed, failed, rounds := map[], multiset{}, multiset{}, map[], map[];
    }

    function TrackOf(id: Id): Track
      reads this
    {
      Track(if id in pendingAcks then Some(pendingAcks[id]) else None, timers[id], confirmed[id],
            if id in failed then failed[id] else [], if id in rounds then rounds[id] else [])
    }

    method Transmit(messageId: Id, peerIds: set<Peer>)
      modifies this`rounds
      ensures rounds == old(rounds)[messageId := old(TrackOf(messageId)).rounds + [peerIds]]
    {
      rounds := rounds[messageId := (if messageId in rounds then rounds[messageId] else []) + [peerIds]];
    }

    method StartTimer(messageId: Id)
      modifies this`timers
      ensures timers == if messageId in pendingAcks then old(timers) + multiset{messageId} else old(timers)
    {
      if messageId in pendingAcks {
        timers := timers + multiset{messageId};
      }
    }

    method SendWithAck(messageId: Id, peerIds: set<Peer>)
      modifies this
      ensures TrackOf(messageId) == Send(old(TrackOf(messageId)), peerIds)
      ensures forall id :: id != messageId ==> TrackOf(id) == old(TrackOf(id))
    {
      pendingAcks := pendingAcks[messageId := Entry(1, peerIds)];
      Transmit(messageId, peerIds);
      StartTimer(messageId);
    }

    /** A scheduled timeout fires. */
    method HandleTimeout(messageId: Id)
      requires messageId in timers
      modifies this
      ensures TrackOf(messageId) == OnTimeout(old(TrackOf(messageId)))
      ensures forall id :: id != messageId ==> TrackOf(id) == old(TrackOf(id))
    {
      timers := timers - multiset{messageId};
      if messageId !in pendingAcks { return; }
      var entry := pendingAcks[messageId];
      if entry.attempts >= MAX_RETRY_ATTEMPTS {
        pendingAcks := pendingAcks - {messageId};
        failed := failed[messageId := (if messageId in failed then failed[messageId] else []) + [entry.peers]];
      } else {
        pendingAcks := pendingAcks[messageId := entry.(attempts := entry.attempts + 1)];
        Transmit(messageId, entry.peers);
        StartTimer(messageId);
      }
    }

    method ReceiveAck(messageId: Id, sender: Peer)
      modifies this
      ensures TrackOf(messageId) == OnAck(old(TrackOf(messageId)), sender)
      ensures forall id :: id != messageId ==> TrackOf(id) == old(TrackOf(id))
    {
      if messageId in pendingAcks {
        var entry := pendingAcks[messageId];
        var left := entry.peers - {sender};
        if |left| == 0 {
          timers := timers - multiset{messageId};
          pendingAcks := pendingAcks - {messageId};
          confirmed := confirmed + multiset{messageId};
        } else {
          pendingAcks := pendingAcks[messageId := entry.(peers := left)];
        }
      }
    }
  }
}
