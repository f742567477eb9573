/** Synchronisation on reconnect: the missed messages go out in order, in batches, one ACK or timeout at a time.
    Streams to one peer may overlap when it reconnects again. */
module Synchronisation {
  import opened Common
  import opened Keys
  import opened MessageStorage
  import opened TopicScans
  import TopicRouting

  const BATCH_SIZE := 100

  /** A batch is known by its position among all that went to the peer. */
  datatype Batch = Batch(stream: nat, messages: seq<Record>)

  /** A suspended stream: its number, all its messages in order, the index of the batch in flight, and the
      watermark it started from. */
  datatype Stream = Stream(no: nat, messages: seq<Record>, next: nat, since: nat)

  /** All about one peer: the batches that streams wait for, each with its timer; the one batch whose ACK is
      expected; the stored watermark; the number of streams so far; and the batches sent. */
  datatype PeerSync = PeerSync(waits: map<nat, Stream>, slot: Option<nat>, watermark: nat, started: nat, sent: seq<Batch>)

  const UNKNOWN := PeerSync(map[], None, 0, 0, [])

  // ---- Sorting and batches ----

  /** Insertion before the first later message: equal timestamps keep their order. */
  function Insert(m: Record, ms: seq<Record>): seq<Record> {
    if ms == [] || m.lamportTimestamp <= ms[0].lamportTimestamp then [m] + ms else [ms[0]] + Insert(m, ms[1..])
  }

  /** The stable sort by timestamp. */
  function Sorted(ms: seq<Record>): seq<Record> {
    if ms == [] then [] else Insert(ms[0], Sorted(ms[1..]))
  }

  ghost predicate InLamportOrder(ms: seq<Record>) {
    forall i, j :: 0 <= i < j < |ms| ==> ms[i].lamportTimestamp <= ms[j].lamportTimestamp
  }

  function OneAtTime(m: Record, t: nat): seq<Record> { if m.lamportTimestamp == t then [m] else [] }

  function AtTime(ms: seq<Record>, t: nat): seq<Record> {
    if ms == [] then [] else OneAtTime(ms[0], t) + AtTime(ms[1..], t)
  }

  lemma {:induction false} InsertPermutes(m: Record, ms: seq<Record>)
    ensures multiset(Insert(m, ms)) == multiset{m} + multiset(ms)
  {
    if !(ms == [] || m.lamportTimestamp <= ms[0].lamportTimestamp) {
      InsertPermutes(m, ms[1..]);
      MultisetHead(ms);
    }
  }

  lemma MultisetHead<T>(s: seq<T>)
    requires s != []
    ensures multiset(s) == multiset{s[0]} + multiset(s[1..])
  {
    assert s == [s[0]] + s[1..];
  }

  /** A bound on all elements, which inserting and sorting preserve. */
  ghost predicate AllFrom(ms: seq<Record>, t: nat) { forall i :: 0 <= i < |ms| ==> t <= ms[i].lamportTimestamp }

  lemma {:induction false} InsertOrders(m: Record, ms: seq<Record>, t: nat)
    requires InLamportOrder(ms) && AllFrom(ms, t) && t <= m.lamportTimestamp
    ensures InLamportOrder(Insert(m, ms)) && AllFrom(Insert(m, ms), t)
  {
    if !(ms == [] || m.lamportTimestamp <= ms[0].lamportTimestamp) {
      InsertOrders(m, ms[1..], ms[0].lamportTimestamp);
    }
  }

  lemma {:induction false} InsertStable(m: Record, ms: seq<Record>, t: nat)
    ensures AtTime(Insert(m, ms), t) == OneAtTime(m, t) + AtTime(ms, t)
  {
    hide AtTime;
    if ms == [] || m.lamportTimestamp <= ms[0].lamportTimestamp {
      AtTimeCons(m, ms, t);
    } else {
      var first, rest := ms[0], ms[1..];
      InsertStable(m, rest, t);
      AtTimeCons(first, Insert(m, rest), t);
      AtTimeCons(first, rest, t);
      assert ms == [first] + rest;
      SwapApart(OneAtTime(first, t), OneAtTime(m, t), AtTime(rest, t));
    }
  }

  lemma SwapApart(a: seq<Record>, b: seq<Record>, rest: seq<Record>)
    requires a == [] || b == []
    ensures a + (b + rest) == b + (a + rest)
  {
  }

  lemma AtTimeCons(m: Record, ms: seq<Record>, t: nat)
    ensures AtTime([m] + ms, t) == OneAtTime(m, t) + AtTime(ms, t)
  {
    assert ([m] + ms)[1..] == ms;
  }

  /** Sorting permutes, orders by timestamp, and keeps the order of messages with equal timestamps. */
  lemma {:induction false} SortedLemma(ms: seq<Record>)
    ensures InLamportOrder(Sorted(ms)) && multiset(Sorted(ms)) == multiset(ms) && |Sorted(ms)| == |ms|
    ensures forall t :: AtTime(Sorted(ms), t) == AtTime(ms, t)
  {
    if ms != [] {
      SortedLemma(ms[1..]);
      InsertPermutes(ms[0], Sorted(ms[1..]));
      MultisetHead(ms);
      assert |multiset(Sorted(ms))| == |multiset(ms)|;
      InsertOrders(ms[0], Sorted(ms[1..]), 0);
      forall t ensures AtTime(Sorted(ms), t) == AtTime(ms, t) { InsertStable(ms[0], Sorted(ms[1..]), t); }
    }
  }

  function Max(a: nat, b: nat): nat { if a >= b then a else b }

  function MaxLamport(ms: seq<Record>): nat {
    if ms == [] then 0 else Max(ms[0].lamportTimestamp, MaxLamport(ms[1..]))
  }

  lemma {:induction false} MaxLamportIs(ms: seq<Record>)
    ensures forall m :: m in ms ==> m.lamportTimestamp <= MaxLamport(ms)
    ensures ms != [] ==> exists m :: m in ms && m.lamportTimestamp == MaxLamport(ms)
  {
    if ms != [] {
      MaxLamportIs(ms[1..]);
      assert ms == [ms[0]] + ms[1..];
      if MaxLamport(ms) == ms[0].lamportTimestamp {
        assert ms[0] in ms;
      } else {
        var m :| m in ms[1..] && m.lamportTimestamp == MaxLamport(ms[1..]);
        assert m in ms;
      }
    }
  }

  function ChunkEnd(ms: seq<Record>, i: nat): nat { if i + BATCH_SIZE <= |ms| then i + BATCH_SIZE else |ms| }

  function Chunk(ms: seq<Record>, i: nat): seq<Record>
    requires i <= |ms|
  {
    ms[i..ChunkEnd(ms, i)]
  }

  /** The batches of one stream among all that were sent. */
  function BatchesOf(bs: seq<Batch>, stream: nat): seq<Batch> {
    if bs == [] then []
    else
      var rest, last := BatchesOf(bs[..|bs| - 1], stream), bs[|bs| - 1];
      if last.stream == stream then rest + [last] else rest
  }

  lemma BatchesOfSnoc(bs: seq<Batch>, b: Batch, stream: nat)
    ensures BatchesOf(bs + [b], stream) == BatchesOf(bs, stream) + if b.stream == stream then [b] else []
  {
    assert (bs + [b])[..|bs|] == bs;
  }

  lemma {:induction false} NoBatchesOf(bs: seq<Batch>, stream: nat)
    requires forall i :: 0 <= i < |bs| ==> bs[i].stream != stream
    ensures BatchesOf(bs, stream) == []
  {
    if bs != [] { NoBatchesOf(bs[..|bs| - 1], stream); }
  }

  function Concat(bs: seq<Batch>): seq<Record> {
    if bs == [] then [] else Concat(bs[..|bs| - 1]) + bs[|bs| - 1].messages
  }

  // ---- One peer ----

  datatype Event = Reconnect(collected: seq<Record>) | Ack(batchId: nat) | Timeout(batchId: nat)

  /** Send the batch at `st.next` and wait for it: its ACK is the one expected now. */
  function SendChunk(p: PeerSync, st: Stream): PeerSync
    requires st.next <= |st.messages|
  {
    var id := |p.sent|;
    p.(waits := p.waits[id := st], slot := Some(id), sent := p.sent + [Batch(st.no, Chunk(st.messages, st.next))])
  }

  /** Go on after the wait: the next batch, or the end of the stream and the new watermark. */
  function Advance(p: PeerSync, st: Stream): PeerSync {
    var i := st.next + BATCH_SIZE;
    if i < |st.messages| then SendChunk(p, st.(next := i))
    else
      var top := MaxLamport(st.messages);
      p.(watermark := if top > st.since then top else p.watermark)
  }

  function Begin(p: PeerSync, collected: seq<Record>): PeerSync {
    if collected == [] then p
    else SendChunk(p.(started := p.started + 1), Stream(p.started, Sorted(collected), 0, p.watermark))
  }

  /** The batch whose wait an event ends. A timeout gives up the expected ACK, whichever it is. */
  predicate Wakes(p: PeerSync, e: Event) {
    match e
    case Reconnect(_) => false
    case Ack(b) => p.slot == Some(b) && b in p.waits
    case Timeout(b) => b in p.waits
  }

  function Next(p: PeerSync, e: Event): PeerSync {
    if e.Reconnect? then Begin(p, e.collected)
    else if Wakes(p, e) then Advance(p.(waits := p.waits - {e.batchId}, slot := None), p.waits[e.batchId])
    else p
  }

  function Run(p: PeerSync, es: seq<Event>): PeerSync {
    if es == [] then p else Next(Run(p, es[..|es| - 1]), es[|es| - 1])
  }

  /** The event lets this stream go on. */
  predicate WakesStream(p: PeerSync, e: Event, stream: nat) {
    Wakes(p, e) && p.waits[e.batchId].no == stream
  }

  /** How many events of a run let the stream go on. */
  function Advances(p: PeerSync, es: seq<Event>, stream: nat): nat {
    if es == [] then 0
    else Advances(p, es[..|es| - 1], stream) + if WakesStream(Run(p, es[..|es| - 1]), es[|es| - 1], stream) then 1 else 0
  }

  ghost predicate Waiting(p: PeerSync, stream: nat) { exists b :: b in p.waits && p.waits[b].no == stream }

  ghost predicate BatchesOk(bs: seq<Batch>) {
    forall i :: 0 <= i < |bs| ==> 1 <= |bs[i].messages| <= 100
  }

  /** Every wait is for a batch of its own stream, and no stream waits twice. */
  ghost predicate PeerOk(p: PeerSync) {
    && (forall b :: b in p.waits ==> b < |p.sent| && p.sent[b].stream == p.waits[b].no < p.started)
    && (forall b, c :: b in p.waits && c in p.waits && b != c ==> p.waits[b].no != p.waits[c].no)
    && (forall i :: 0 <= i < |p.sent| ==> p.sent[i].stream < p.started)
  }

  lemma NextKeepsPeer(p: PeerSync, e: Event)
    requires PeerOk(p)
    ensures PeerOk(Next(p, e)) && p.started <= Next(p, e).started
  {
  }

  lemma {:induction false} RunKeepsPeer(p: PeerSync, es: seq<Event>)
    requires PeerOk(p)
    ensures PeerOk(Run(p, es)) && p.started <= Run(p, es).started
  {
    if es != [] {
      RunKeepsPeer(p, es[..|es| - 1]);
      NextKeepsPeer(Run(p, es[..|es| - 1]), es[|es| - 1]);
    }
  }

  /** Where a stream of `all` stands that was woken `advances` times. */
  ghost predicate StreamOk(p: PeerSync, stream: nat, all: seq<Record>, since: nat, advances: nat) {
    var own := BatchesOf(p.sent, stream);
    && all != [] && stream < p.started && BatchesOk(own)
    && (Waiting(p, stream) ==> |own| == advances + 1 && advances * BATCH_SIZE < |all|)
    && (!Waiting(p, stream) ==> |own| == advances && advances * BATCH_SIZE >= |all| && Concat(own) == all)
    && forall b :: b in p.waits && p.waits[b].no == stream ==> WaitOk(p, b, stream, all, since, advances)
  }

  /** The wait is for the stream's last batch, with everything before that sent. */
  ghost predicate WaitOk(p: PeerSync, b: nat, stream: nat, all: seq<Record>, since: nat, advances: nat)
    requires b in p.waits
  {
    && p.waits[b] == Stream(stream, all, advances * BATCH_SIZE, since) && advances * BATCH_SIZE < |all|
    && Concat(BatchesOf(p.sent, stream)) == all[..ChunkEnd(all, advances * BATCH_SIZE)]
    && b < |p.sent| && forall i :: b < i < |p.sent| ==> p.sent[i].stream != stream
  }

  lemma ConcatSnoc(bs: seq<Batch>, b: Batch)
    ensures Concat(bs + [b]) == Concat(bs) + b.messages
  {
    assert (bs + [b])[..|bs + [b]| - 1] == bs;
  }

  lemma BeginOk(p: PeerSync, collected: seq<Record>)
    requires PeerOk(p) && collected != []
    ensures StreamOk(Begin(p, collected), p.started, Sorted(collected), p.watermark, 0)
  {
    SortedLemma(collected);
    var all, k := Sorted(collected), p.started;
    var q, b := Begin(p, collected), Batch(p.started, Chunk(all, 0));
    NoBatchesOf(p.sent, k);
    BatchesOfSnoc(p.sent, b, k);
    ConcatSnoc([], b);
    assert [] + [b] == [b];
    assert all[..ChunkEnd(all, 0)] == Chunk(all, 0);
    assert q.waits[|p.sent|].no == k;
  }

  /** What happens to other streams does not matter. */
  lemma OtherStreamOk(p: PeerSync, q: PeerSync, stream: nat, all: seq<Record>, since: nat, advances: nat)
    requires StreamOk(p, stream, all, since, advances) && p.started <= q.started
    requires forall b :: b in q.waits && q.waits[b].no == stream <==> b in p.waits && p.waits[b].no == stream
    requires forall b :: b in q.waits && q.waits[b].no == stream ==> q.waits[b] == p.waits[b]
    requires q.sent == p.sent || (|q.sent| == |p.sent| + 1 && q.sent[..|p.sent|] == p.sent && q.sent[|p.sent|].stream != stream)
    ensures StreamOk(q, stream, all, since, advances)
  {
    if q.sent != p.sent {
      assert q.sent == p.sent + [q.sent[|p.sent|]];
      BatchesOfSnoc(p.sent, q.sent[|p.sent|], stream);
    }
    if Waiting(p, stream) {
      var b :| b in p.waits && p.waits[b].no == stream;
      assert b in q.waits && q.waits[b].no == stream;
    }
    forall b | b in q.waits && q.waits[b].no == stream ensures WaitOk(q, b, stream, all, since, advances) {
      assert WaitOk(p, b, stream, all, since, advances);
    }
  }

  /** A wait of the stream is over. */
  lemma WokenOk(p: PeerSync, b: nat, stream: nat, all: seq<Record>, since: nat, advances: nat)
    requires PeerOk(p) && b in p.waits && p.waits[b].no == stream && StreamOk(p, stream, all, since, advances)
    ensures StreamOk(Advance(p.(waits := p.waits - {b}, slot := None), p.waits[b]), stream, all, since, advances + 1)
  {
    hide Concat, BatchesOf;
    assert WaitOk(p, b, stream, all, since, advances);
    var u, st := p.(waits := p.waits - {b}, slot := None), p.waits[b];
    var q, i := Advance(u, st), (advances + 1) * BATCH_SIZE;
    assert !Waiting(u, stream);
    if i < |all| {
      var next := Batch(stream, Chunk(all, i));
      BatchesOfSnoc(p.sent, next, stream);
      ConcatSnoc(BatchesOf(p.sent, stream), next);
      assert all[..ChunkEnd(all, i)] == all[..i] + Chunk(all, i);
      assert q.waits[|p.sent|].no == stream;
      assert q.sent == p.sent + [next];
    } else {
      assert all[..|all|] == all;
    }
  }

  lemma NextOk(p: PeerSync, e: Event, stream: nat, all: seq<Record>, since: nat, advances: nat)
    requires PeerOk(p) && StreamOk(p, stream, all, since, advances)
    ensures StreamOk(Next(p, e), stream, all, since, advances + if WakesStream(p, e, stream) then 1 else 0)
  {
    if WakesStream(p, e, stream) {
      WokenOk(p, e.batchId, stream, all, since, advances);
    } else {
      OthersMoveOn(p, e, stream);
      OtherStreamOk(p, Next(p, e), stream, all, since, advances);
    }
  }

  lemma OthersMoveOn(p: PeerSync, e: Event, stream: nat)
    requires PeerOk(p) && stream < p.started && !WakesStream(p, e, stream)
    ensures var q := Next(p, e);
            && p.started <= q.started
            && (forall b :: b in q.waits && q.waits[b].no == stream <==> b in p.waits && p.waits[b].no == stream)
            && (forall b :: b in q.waits && q.waits[b].no == stream ==> q.waits[b] == p.waits[b])
            && (q.sent == p.sent || (|q.sent| == |p.sent| + 1 && q.sent[..|p.sent|] == p.sent && q.sent[|p.sent|].stream != stream))
  {
  }

  lemma {:induction false} RunOk(p: PeerSync, es: seq<Event>, stream: nat, all: seq<Record>, since: nat)
    requires PeerOk(p) && StreamOk(p, stream, all, since, 0)
    ensures StreamOk(Run(p, es), stream, all, since, Advances(p, es, stream))
  {
    if es != [] {
      var before := es[..|es| - 1];
      RunOk(p, before, stream, all, since);
      RunKeepsPeer(p, before);
      NextOk(Run(p, before), es[|es| - 1], stream, all, since, Advances(p, before, stream));
    }
  }

  lemma StreamRun(p: PeerSync, collected: seq<Record>, es: seq<Event>)
    requires PeerOk(p) && collected != []
    ensures var q := Begin(p, collected);
            StreamOk(Run(q, es), p.started, Sorted(collected), p.watermark, Advances(q, es, p.started)) && PeerOk(Run(q, es))
  {
    BeginOk(p, collected);
    NextKeepsPeer(p, Reconnect(collected));
    RunOk(Begin(p, collected), es, p.started, Sorted(collected), p.watermark);
    RunKeepsPeer(Begin(p, collected), es);
  }

  /** One stream sends exactly what was collected: when it is over, whatever acknowledgements, timeouts and
      further reconnects there were, its batches of at most 100 contain every collected message once, in
      nondecreasing Lamport order. */
  lemma StreamSendsAll(p: PeerSync, collected: seq<Record>, es: seq<Event>)
    requires PeerOk(p) && collected != [] && !Waiting(Run(Begin(p, collected), es), p.started)
    ensures var mine := BatchesOf(Run(Begin(p, collected), es).sent, p.started);
            && mine != [] && BatchesOk(mine)
            && multiset(Concat(mine)) == multiset(collected) && InLamportOrder(Concat(mine))
  {
    StreamRun(p, collected, es);
    SortedLemma(collected);
    hide PeerOk, Run, Begin, Sorted;
  }

  /** Flow control: as long as a stream waits, it has sent one batch more than events let it go on, and it waits
      for the last one it sent; and it waits exactly as long as messages are left. */
  lemma OneBatchInFlight(p: PeerSync, collected: seq<Record>, es: seq<Event>)
    requires PeerOk(p) && collected != []
    ensures var q, k := Run(Begin(p, collected), es), p.started;
            var advances := Advances(Begin(p, collected), es, k);
            && |BatchesOf(q.sent, k)| == advances + (if Waiting(q, k) then 1 else 0)
            && (Waiting(q, k) <==> advances * 100 < |collected|)
            && forall b :: b in q.waits && q.waits[b].no == k ==>
                 b < |q.sent| && q.sent[b].stream == k && forall i :: b < i < |q.sent| ==> q.sent[i].stream != k
  {
    StreamRun(p, collected, es);
    SortedLemma(collected);
    var q, k := Run(Begin(p, collected), es), p.started;
    forall b | b in q.waits && q.waits[b].no == k
      ensures b < |q.sent| && q.sent[b].stream == k && forall i :: b < i < |q.sent| ==> q.sent[i].stream != k
    {
      assert WaitOk(q, b, k, Sorted(collected), p.watermark, Advances(Begin(p, collected), es, k));
    }
    hide Run, Begin, Sorted, Advances, Concat;
  }

  // ---- What events do ----

  /** `t` is the latest timestamp of these messages. */
  ghost predicate IsLatest(ms: seq<Record>, t: nat) {
    (forall m :: m in ms ==> m.lamportTimestamp <= t) && exists m :: m in ms && m.lamportTimestamp == t
  }

  /** The watermark once a stream of these messages is over that began at `since`. */
  ghost predicate Settled(ms: seq<Record>, since: nat, before: nat, after: nat) {
    if exists m :: m in ms && m.lamportTimestamp > since then IsLatest(ms, after) else after == before
  }

  /** The wait for batch `b` is over, and its stream has gone on. If it has messages left, the next 100 of them, or
      all if there are fewer, have been sent as one batch, whose acknowledgement is the one expected now. Otherwise
      the stream is over, and its latest timestamp is the watermark if it is above that at its start. */
  ghost predicate WentOn(was: PeerSync, b: nat, now: PeerSync)
    requires b in was.waits
  {
    var st, id := was.waits[b], |was.sent|;
    if st.next + 100 < |st.messages| then
      var end := if st.next + 200 <= |st.messages| then st.next + 200 else |st.messages|;
      && now.sent == was.sent + [Batch(st.no, st.messages[st.next + 100..end])] && now.slot == Some(id)
      && now.waits == (was.waits - {b})[id := Stream(st.no, st.messages, st.next + 100, st.since)]
      && now.watermark == was.watermark && now.started == was.started
    else
      && now.sent == was.sent && now.slot == None && now.waits == was.waits - {b} && now.started == was.started
      && Settled(st.messages, st.since, was.watermark, now.watermark)
  }

  /** A new stream of these messages, in Lamport order and otherwise as they were collected, has sent its first
      batch. */
  ghost predicate HasBegun(was: PeerSync, collected: seq<Record>, now: PeerSync) {
    exists all: seq<Record> ::
      && InLamportOrder(all) && multiset(all) == multiset(collected) && (forall t :: AtTime(all, t) == AtTime(collected, t))
      && now.sent == was.sent + [Batch(was.started, if |all| <= 100 then all else all[..100])] && now.slot == Some(|was.sent|)
      && now.waits == was.waits[|was.sent| := Stream(was.started, all, 0, was.watermark)]
      && now.watermark == was.watermark && now.started == was.started + 1
  }

  lemma MaxSettles(ms: seq<Record>, since: nat, before: nat)
    ensures Settled(ms, since, before, if MaxLamport(ms) > since then MaxLamport(ms) else before)
  {
    MaxLamportIs(ms);
  }

  lemma AdvanceGoesOn(p: PeerSync, b: nat)
    requires b in p.waits
    ensures WentOn(p, b, Advance(p.(waits := p.waits - {b}, slot := None), p.waits[b]))
  {
    MaxSettles(p.waits[b].messages, p.waits[b].since, p.watermark);
    hide Settled, MaxLamport;
  }

  lemma BeginBegins(p: PeerSync, collected: seq<Record>)
    requires collected != []
    ensures HasBegun(p, collected, Begin(p, collected))
  {
    SortedLemma(collected);
    var all := Sorted(collected);
    assert Chunk(all, 0) == if |all| <= 100 then all else all[..100];
    hide Sorted, Chunk, InLamportOrder, AtTime;
  }

  /** What each event does. An acknowledgement lets a stream go on exactly if it is the one expected now, a timeout
      exactly if some stream still waits for that batch; a reconnect begins a stream exactly if there is something to
      send. Otherwise nothing happens. */
  lemma EventMeaning(p: PeerSync, e: Event)
    ensures
      match e
      case Ack(b) => if p.slot == Some(b) && b in p.waits then WentOn(p, b, Next(p, e)) else Next(p, e) == p
      case Timeout(b) => if b in p.waits then WentOn(p, b, Next(p, e)) else Next(p, e) == p
      case Reconnect(collected) => if collected == [] then Next(p, e) == p else HasBegun(p, collected, Next(p, e))
  {
    hide Advance, WentOn, HasBegun;
    match e
    case Reconnect(collected) => if collected != [] { BeginBegins(p, collected); }
    case Ack(b) => if p.slot == Some(b) && b in p.waits { AdvanceGoesOn(p, b); }
    case Timeout(b) => if b in p.waits { AdvanceGoesOn(p, b); }
  }

  /** The acknowledgements of `k` batches from number `first` on, in order. */
  function AcksFrom(first: nat, k: nat): seq<Event> { seq(k, i requires 0 <= i < k => Ack(first + i)) }

  lemma AcksRun(q: PeerSync, first: nat, k: nat)
    ensures Run(q, AcksFrom(first, 0)) == q
    ensures Run(q, AcksFrom(first, k + 1)) == Next(Run(q, AcksFrom(first, k)), Ack(first + k))
  {
    assert AcksFrom(first, 0) == [];
    assert AcksFrom(first, k + 1) == AcksFrom(first, k) + [Ack(first + k)];
    RunSnoc(q, AcksFrom(first, k), Ack(first + k));
  }

  /** Only this stream waits, for the `k`-th of its batches, which is the last that was sent. */
  ghost predicate WaitsFor(p: PeerSync, q: PeerSync, all: seq<Record>, k: nat) {
    && |q.sent| == |p.sent| + k + 1 && q.slot == Some(|p.sent| + k) && q.watermark == p.watermark
    && q.waits == map[|p.sent| + k := Stream(p.started, all, k * 100, p.watermark)]
  }

  lemma AckStep(p: PeerSync, q: PeerSync, all: seq<Record>, k: nat)
    requires WaitsFor(p, q, all, k)
    ensures var r := Next(q, Ack(|p.sent| + k));
            if (k + 1) * 100 < |all| then WaitsFor(p, r, all, k + 1)
            else r.waits == map[] && r.slot == None && |r.sent| == |p.sent| + k + 1 && Settled(all, p.watermark, p.watermark, r.watermark)
  {
    EventMeaning(q, Ack(|p.sent| + k));
    hide Next, Settled;
    assert q.waits - {|p.sent| + k} == map[];
  }

  /** While the acknowledgements come in, the stream waits for one batch after the other. */
  lemma {:induction false} AcksSoFar(p: PeerSync, collected: seq<Record>, k: nat)
    requires p.waits == map[] && collected != [] && k * 100 < |collected|
    ensures WaitsFor(p, Run(Begin(p, collected), AcksFrom(|p.sent|, k)), Sorted(collected), k)
  {
    SortedLemma(collected);
    var q := Begin(p, collected);
    if k == 0 {
      AcksRun(q, |p.sent|, 0);
    } else {
      AcksSoFar(p, collected, k - 1);
      AcksRun(q, |p.sent|, k - 1);
      hide *;
      AckStep(p, Run(q, AcksFrom(|p.sent|, k - 1)), Sorted(collected), k - 1);
    }
  }

  /** Without any timeout: a stream on its own of n messages goes out in ceil(n / 100) batches and is over with the
      acknowledgement of the last one, and not before; the watermark is then the latest timestamp sent, unless it
      was higher. */
  lemma AcknowledgedStreamEnds(p: PeerSync, collected: seq<Record>, n: nat)
    requires p.waits == map[] && (n - 1) * 100 < |collected| <= n * 100 && n > 0
    ensures forall k: nat :: k < n ==> Waiting(Run(Begin(p, collected), AcksFrom(|p.sent|, k)), p.started)
    ensures var end := Run(Begin(p, collected), AcksFrom(|p.sent|, n));
            && end.waits == map[] && end.slot == None && |end.sent| == |p.sent| + n
            && Settled(collected, p.watermark, p.watermark, end.watermark)
  {
    AcksKeepWaiting(p, collected, n);
    AcksSoFar(p, collected, n - 1);
    AcksRun(Begin(p, collected), |p.sent|, n - 1);
    SortedLemma(collected);
    hide *;
    AckStep(p, Run(Begin(p, collected), AcksFrom(|p.sent|, n - 1)), Sorted(collected), n - 1);
    SameSettled(Sorted(collected), collected, p.watermark, Run(Begin(p, collected), AcksFrom(|p.sent|, n)).watermark);
  }

  lemma AcksKeepWaiting(p: PeerSync, collected: seq<Record>, n: nat)
    requires p.waits == map[] && collected != [] && (n - 1) * 100 < |collected|
    ensures forall k: nat :: k < n ==> Waiting(Run(Begin(p, collected), AcksFrom(|p.sent|, k)), p.started)
  {
    hide *;
    forall k: nat | k < n ensures Waiting(Run(Begin(p, collected), AcksFrom(|p.sent|, k)), p.started) {
      AcksSoFar(p, collected, k);
      WaitingOne(p, Run(Begin(p, collected), AcksFrom(|p.sent|, k)), Sorted(collected), k);
    }
  }

  lemma WaitingOne(p: PeerSync, q: PeerSync, all: seq<Record>, k: nat)
    requires WaitsFor(p, q, all, k)
    ensures Waiting(q, p.started)
  {
    assert q.waits[|p.sent| + k].no == p.started;
  }

  lemma SameSettled(xs: seq<Record>, ys: seq<Record>, since: nat, after: nat)
    requires multiset(xs) == multiset(ys)
    ensures Settled(xs, since, since, after) <==> Settled(ys, since, since, after)
  {
    assert forall m :: m in xs <==> m in multiset(xs);
    assert forall m :: m in ys <==> m in multiset(ys);
  }

  // ---- The watermark ----

  /** The event lets this stream end. */
  predicate Ends(p: PeerSync, e: Event) {
    Wakes(p, e) && p.waits[e.batchId].next + BATCH_SIZE >= |p.waits[e.batchId].messages|
  }

  /** Exactly when the watermark falls: a stream ends whose latest message is newer than the watermark it
      started from, but older than what another stream has stored meanwhile. */
  lemma WatermarkFallsIff(p: PeerSync, e: Event)
    ensures Next(p, e).watermark < p.watermark <==>
            Ends(p, e) && p.waits[e.batchId].since < MaxLamport(p.waits[e.batchId].messages) < p.watermark
    ensures Next(p, e).watermark > p.watermark ==> Ends(p, e) && Next(p, e).watermark == MaxLamport(p.waits[e.batchId].messages)
  {
  }

  // ---- Runs that lower the watermark ----

  lemma RunSnoc(p: PeerSync, es: seq<Event>, e: Event)
    ensures Run(p, es + [e]) == Next(Run(p, es), e)
  {
    assert (es + [e])[..|es|] == es;
  }

  lemma {:induction false} RunSplit(p: PeerSync, xs: seq<Event>, ys: seq<Event>)
    ensures Run(p, xs + ys) == Run(Run(p, xs), ys)
    decreases |ys|
  {
    if ys == [] {
      assert xs + ys == xs;
    } else {
      var init, e := ys[..|ys| - 1], ys[|ys| - 1];
      RunSplit(p, xs, init);
      RunSnoc(p, xs + init, e);
      assert xs + ys == xs + init + [e];
    }
  }

  /** The state before event `i`. */
  function StateAt(p: PeerSync, es: seq<Event>, i: nat): PeerSync
    requires i <= |es|
  {
    Run(p, es[..i])
  }

  lemma BeforeNext(p: PeerSync, es: seq<Event>, i: nat)
    requires i < |es|
    ensures StateAt(p, es, i + 1) == Next(StateAt(p, es, i), es[i])
  {
    assert es[..i + 1] == es[..i] + [es[i]];
    RunSnoc(p, es[..i], es[i]);
  }

  ghost predicate Falls(p: PeerSync, es: seq<Event>, i: nat) {
    i < |es| && StateAt(p, es, i + 1).watermark < StateAt(p, es, i).watermark
  }

  /** Event `h` begins a stream and event `i` ends it, with a maximum above the watermark it began with. */
  ghost predicate Spans(p: PeerSync, es: seq<Event>, h: nat, i: nat) {
    && h < i < |es| && es[h].Reconnect? && es[h].collected != []
    && Ends(StateAt(p, es, i), es[i]) && StateAt(p, es, i).waits[es[i].batchId].no == StateAt(p, es, h).started
    && StateAt(p, es, h).watermark < MaxLamport(es[h].collected)
  }

  /** Meanwhile event `j` ends another stream and stores a watermark above that maximum. */
  ghost predicate Overtaken(p: PeerSync, es: seq<Event>, h: nat, j: nat, i: nat) {
    && Spans(p, es, h, i) && h < j < i
    && Ends(StateAt(p, es, j), es[j]) && StateAt(p, es, j + 1).watermark != StateAt(p, es, j).watermark
    && MaxLamport(es[h].collected) < StateAt(p, es, j + 1).watermark
  }

  /** What the wait that ends a stream holds is what the stream began with. */
  lemma StreamAtEnd(p: PeerSync, es: seq<Event>, h: nat, i: nat)
    requires PeerOk(p) && h < i <= |es| && es[h].Reconnect? && es[h].collected != []
    ensures forall b :: b in StateAt(p, es, i).waits && StateAt(p, es, i).waits[b].no == StateAt(p, es, h).started ==>
              var st := StateAt(p, es, i).waits[b];
              st.since == StateAt(p, es, h).watermark && MaxLamport(st.messages) == MaxLamport(es[h].collected)
  {
    var q, mid := StateAt(p, es, h), es[h + 1..i];
    RunKeepsPeer(p, es[..h]);
    BeforeNext(p, es, h);
    assert es[..i] == es[..h + 1] + mid;
    RunSplit(p, es[..h + 1], mid);
    StreamRun(q, es[h].collected, mid);
    SortedLemma(es[h].collected);
    MaxLamportPermutes(Sorted(es[h].collected), es[h].collected);
    var r := StateAt(p, es, i);
    forall b | b in r.waits && r.waits[b].no == q.started
      ensures r.waits[b].since == q.watermark && MaxLamport(r.waits[b].messages) == MaxLamport(es[h].collected)
    {
      assert WaitOk(r, b, q.started, Sorted(es[h].collected), q.watermark, Advances(Begin(q, es[h].collected), mid, q.started));
    }
  }

  /** Every stream that was begun was begun by some reconnect. */
  lemma {:induction false} StreamHasStart(p: PeerSync, es: seq<Event>, n: nat) returns (h: nat)
    requires p.started <= n < Run(p, es).started
    ensures h < |es| && es[h].Reconnect? && es[h].collected != [] && StateAt(p, es, h).started == n
  {
    var last := |es| - 1;
    assert es == es[..last] + [es[last]];
    RunSnoc(p, es[..last], es[last]);
    if n < Run(p, es[..last]).started {
      h := StreamHasStart(p, es[..last], n);
      assert es[..last][..h] == es[..h];
    } else {
      h := last;
    }
  }

  lemma {:induction false} StreamsAreNew(p: PeerSync, es: seq<Event>)
    requires p.waits == map[]
    ensures forall b :: b in Run(p, es).waits ==> p.started <= Run(p, es).waits[b].no
    ensures p.started <= Run(p, es).started
  {
    if es != [] { StreamsAreNew(p, es[..|es| - 1]); }
  }

  /** A watermark that differs was stored in between, the last time by some event. */
  lemma {:induction false} LastStore(p: PeerSync, es: seq<Event>, h: nat, i: nat) returns (j: nat)
    requires h <= i <= |es| && StateAt(p, es, h).watermark != StateAt(p, es, i).watermark
    ensures h <= j < i && StateAt(p, es, j + 1).watermark == StateAt(p, es, i).watermark != StateAt(p, es, j).watermark
    decreases i - h
  {
    if StateAt(p, es, i - 1).watermark != StateAt(p, es, i).watermark {
      j := i - 1;
    } else {
      j := LastStore(p, es, h, i - 1);
    }
  }

  lemma {:induction false} FallsBetween(p: PeerSync, es: seq<Event>, x: nat, y: nat) returns (i: nat)
    requires x <= y <= |es| && StateAt(p, es, y).watermark < StateAt(p, es, x).watermark
    ensures x <= i < y && Falls(p, es, i)
    decreases y - x
  {
    if StateAt(p, es, y).watermark < StateAt(p, es, y - 1).watermark {
      i := y - 1;
    } else {
      i := FallsBetween(p, es, x, y - 1);
    }
  }

  lemma FallIsOvertaken(p: PeerSync, es: seq<Event>, i: nat) returns (h: nat, j: nat)
    requires PeerOk(p) && p.waits == map[] && Falls(p, es, i)
    ensures Overtaken(p, es, h, j, i)
  {
    var q, e := StateAt(p, es, i), es[i];
    BeforeNext(p, es, i);
    WatermarkFallsIff(q, e);
    RunKeepsPeer(p, es[..i]);
    StreamsAreNew(p, es[..i]);
    h := StreamHasStart(p, es[..i], q.waits[e.batchId].no);
    assert es[..i][..h] == es[..h];
    StreamAtEnd(p, es, h, i);
    j := LastStore(p, es, h, i);
    BeforeNext(p, es, h);
    BeforeNext(p, es, j);
    WatermarkFallsIff(StateAt(p, es, j), es[j]);
  }

  lemma OvertakenFalls(p: PeerSync, es: seq<Event>, h: nat, j: nat, i: nat) returns (x: nat)
    requires PeerOk(p) && Overtaken(p, es, h, j, i)
    ensures Falls(p, es, x)
  {
    StreamAtEnd(p, es, h, i);
    if MaxLamport(es[h].collected) < StateAt(p, es, i).watermark {
      BeforeNext(p, es, i);
      WatermarkFallsIff(StateAt(p, es, i), es[i]);
      x := i;
    } else {
      x := FallsBetween(p, es, j + 1, i);
    }
  }

  /** Exactly when a run lowers the watermark somewhere: some stream ends with a maximum, above the watermark it
      began with, that another stream has passed with what it stored since. */
  lemma RunLowersIff(p: PeerSync, es: seq<Event>)
    requires PeerOk(p) && p.waits == map[]
    ensures (exists i :: Falls(p, es, i)) <==> exists h, j, i :: Overtaken(p, es, h, j, i)
  {
    hide Falls, Overtaken, PeerOk;
    if i :| Falls(p, es, i) {
      var h, j := FallIsOvertaken(p, es, i);
    }
    if h, j, i :| Overtaken(p, es, h, j, i) {
      var x := OvertakenFalls(p, es, h, j, i);
    }
  }

  /** No peer reconnects while a stream to it is waiting. */
  ghost predicate OneAtATime(p: PeerSync, es: seq<Event>) {
    forall i :: 0 <= i < |es| && es[i].Reconnect? ==> Run(p, es[..i]).waits == map[]
  }

  lemma {:induction false} AloneSince(p: PeerSync, es: seq<Event>)
    requires p.waits == map[] && OneAtATime(p, es)
    ensures var q := Run(p, es); |q.waits.Keys| <= 1 && forall b :: b in q.waits ==> q.waits[b].since == q.watermark
  {
    if es != [] {
      var before := es[..|es| - 1];
      forall i | 0 <= i < |before| && before[i].Reconnect? ensures Run(p, before[..i]).waits == map[] {
        assert es[..i] == before[..i] && es[i] == before[i];
      }
      AloneSince(p, before);
      AloneStep(Run(p, before), es[|es| - 1]);
    }
  }

  lemma AloneStep(p: PeerSync, e: Event)
    requires |p.waits.Keys| <= 1 && (forall b :: b in p.waits ==> p.waits[b].since == p.watermark)
    requires e.Reconnect? ==> p.waits == map[]
    ensures var q := Next(p, e);
            && |q.waits.Keys| <= 1 && (forall b :: b in q.waits ==> q.waits[b].since == q.watermark)
            && q.watermark >= p.watermark
  {
    if Wakes(p, e) {
      SubsetOfSameSize({e.batchId}, p.waits.Keys);
      assert (p.waits - {e.batchId}).Keys == {};
    }
  }

  /** As long as the peer does not reconnect during a stream, the watermark never goes back. */
  lemma {:induction false} WatermarkMonotone(p: PeerSync, es: seq<Event>)
    requires p.waits == map[] && OneAtATime(p, es)
    ensures forall i :: 0 <= i <= |es| ==> Run(p, es[..i]).watermark <= Run(p, es).watermark
    decreases |es|
  {
    if es == [] {
      assert es[..0] == es;
    } else {
      var before := es[..|es| - 1];
      forall i | 0 <= i < |before| && before[i].Reconnect? ensures Run(p, before[..i]).waits == map[] {
        assert es[..i] == before[..i] && es[i] == before[i];
      }
      WatermarkMonotone(p, before);
      AloneSince(p, before);
      AloneStep(Run(p, before), es[|es| - 1]);
      forall i | 0 <= i <= |es| ensures Run(p, es[..i]).watermark <= Run(p, es).watermark {
        if i < |es| { assert es[..i] == before[..i]; } else { assert es[..i] == es; }
      }
    }
  }

  /** When the only stream ends, the watermark is the latest timestamp sent, or where it was. */
  lemma SingleStreamWatermark(p: PeerSync, collected: seq<Record>, es: seq<Event>)
    requires PeerOk(p) && p.waits == map[] && collected != [] && forall i :: 0 <= i < |es| ==> !es[i].Reconnect?
    requires !Waiting(Run(Begin(p, collected), es), p.started)
    ensures Settled(collected, p.watermark, p.watermark, Run(Begin(p, collected), es).watermark)
    ensures Run(Begin(p, collected), es).waits == map[]
  {
    SingleStreamMax(p, collected, es);
    hide Run, Begin, Waiting, PeerOk, Settled, MaxLamport;
    MaxSettles(collected, p.watermark, p.watermark);
  }

  lemma SingleStreamMax(p: PeerSync, collected: seq<Record>, es: seq<Event>)
    requires PeerOk(p) && p.waits == map[] && collected != [] && forall i :: 0 <= i < |es| ==> !es[i].Reconnect?
    requires !Waiting(Run(Begin(p, collected), es), p.started)
    ensures Run(Begin(p, collected), es).watermark == Max(p.watermark, MaxLamport(collected))
    ensures Run(Begin(p, collected), es).waits == map[]
  {
    SortedLemma(collected);
    MaxLamportPermutes(Sorted(collected), collected);
    NextKeepsPeer(p, Reconnect(collected));
    BeginOk(p, collected);
    OnlyStream(Begin(p, collected), es, p.started, Sorted(collected), p.watermark);
    NothingElseWaits(Run(Begin(p, collected), es), p.started);
    hide PeerOk, Run, Begin, Sorted, StreamOk, Waiting;
  }

  lemma NothingElseWaits(q: PeerSync, k: nat)
    requires forall b :: b in q.waits ==> q.waits[b].no == k
    ensures Waiting(q, k) || q.waits == map[]
  {
    if q.waits != map[] {
      var b :| b in q.waits;
      assert q.waits[b].no == k;
    }
  }

  lemma {:induction false} OnlyStream(p: PeerSync, es: seq<Event>, k: nat, all: seq<Record>, since: nat)
    requires PeerOk(p) && StreamOk(p, k, all, since, 0) && Waiting(p, k) && p.watermark == since
    requires (forall b :: b in p.waits ==> p.waits[b].no == k) && forall i :: 0 <= i < |es| ==> !es[i].Reconnect?
    ensures var q := Run(p, es);
            && (forall b :: b in q.waits ==> q.waits[b].no == k)
            && q.watermark == if Waiting(q, k) then since else Max(since, MaxLamport(all))
  {
    if es != [] {
      var before := es[..|es| - 1];
      OnlyStream(p, before, k, all, since);
      RunOk(p, before, k, all, since);
      RunKeepsPeer(p, before);
      RunOk(p, es, k, all, since);
      var q, e := Run(p, before), es[|es| - 1];
      OnlyStreamStep(q, e, k, all, since, Advances(p, before, k), Advances(p, es, k));
    }
  }

  lemma OnlyStreamStep(q: PeerSync, e: Event, k: nat, all: seq<Record>, since: nat, before: nat, after: nat)
    requires PeerOk(q) && StreamOk(q, k, all, since, before) && StreamOk(Next(q, e), k, all, since, after) && !e.Reconnect?
    requires forall b :: b in q.waits ==> q.waits[b].no == k
    requires q.watermark == if Waiting(q, k) then since else Max(since, MaxLamport(all))
    ensures var r := Next(q, e);
            && (forall b :: b in r.waits ==> r.waits[b].no == k)
            && r.watermark == if Waiting(r, k) then since else Max(since, MaxLamport(all))
  {
    if Wakes(q, e) {
      assert WaitOk(q, e.batchId, k, all, since, before);
      if (before + 1) * BATCH_SIZE < |all| { assert Next(q, e).waits[|q.sent|].no == k; }
    } else {
      assert Next(q, e) == q;
    }
  }

  function At(t: nat): Record { Record("m", "global", t, "CHAT", None, "") }

  /** A concrete case: the peer reconnects while the first stream, up to 50, waits; the second one goes up to
      20. Both time out, and the watermark falls from 50 to 20. */
  lemma OverlapLowersWatermark()
    ensures var es := [Reconnect([At(50)]), Reconnect([At(20)]), Timeout(0)];
            Run(UNKNOWN, es).watermark == 50 && Run(UNKNOWN, es + [Timeout(1)]).watermark == 20
  {
    var r1, r2 := Reconnect([At(50)]), Reconnect([At(20)]);
    RunSnoc(UNKNOWN, [], r1);
    RunSnoc(UNKNOWN, [] + [r1], r2);
    RunSnoc(UNKNOWN, [] + [r1] + [r2], Timeout(0));
    RunSnoc(UNKNOWN, [] + [r1] + [r2] + [Timeout(0)], Timeout(1));
    assert [] + [r1] + [r2] + [Timeout(0)] == [r1, r2, Timeout(0)];
    assert Sorted([At(50)]) == [At(50)] && Sorted([At(20)]) == [At(20)];
    assert MaxLamport([At(50)]) == 50 && MaxLamport([At(20)]) == 20;
    var p1 := Begin(UNKNOWN, [At(50)]);
    var p2 := Begin(p1, [At(20)]);
    assert p2.waits[0] == Stream(0, [At(50)], 0, 0) && p2.waits[1] == Stream(1, [At(20)], 0, 0);
    var p3 := Next(p2, Timeout(0));
    assert p3.watermark == 50 && p3.waits[1] == Stream(1, [At(20)], 0, 0);
  }

  lemma MaxLamportPermutes(xs: seq<Record>, ys: seq<Record>)
    requires multiset(xs) == multiset(ys)
    ensures MaxLamport(xs) == MaxLamport(ys)
  {
    MaxLamportIs(xs);
    MaxLamportIs(ys);
    assert forall m :: m in xs <==> m in multiset(xs);
    assert forall m :: m in ys <==> m in multiset(ys);
    if xs == [] {
      assert |multiset(ys)| == 0;
    } else {
      assert |multiset(ys)| > 0;
    }
  }

  // ---- What is collected ----

  /** Exactly the stored messages of these topics newer than `since`, each once. */
  ghost predicate IsDelta(d: Data, topics: set<Topic>, since: nat, ms: seq<Record>) {
    && (forall i, j :: 0 <= i < j < |ms| ==> ms[i] != ms[j])
    && forall m :: m in ms <==> Holds(d, m) && m.topic in topics && m.lamportTimestamp > since
  }

  lemma TopicLogExtendsDelta(d: Data, done: set<Topic>, t: Topic, since: nat, ms: seq<Record>, log: seq<Record>)
    requires IsDelta(d, done, since, ms) && IsTopicLog(d, t, since, log) && t !in done
    ensures IsDelta(d, done + {t}, since, ms + log)
  {
    var all := ms + log;
    forall i, j | 0 <= i < j < |all| ensures all[i] != all[j] {
      if j >= |ms| {
        assert all[j] in log && all[j].topic == t;
        if i >= |ms| {
          assert Before(log[i - |ms|], log[j - |ms|]);
          LtIrreflexive(all[j].id);
        } else {
          assert all[i] in ms;
        }
      }
    }
    assert forall m :: m in all <==> m in ms || m in log;
  }

  /** A stored newer message of another topic gets into the scan of `t`. */
  ghost predicate Strays(d: Data, m: Record, t: Topic, since: nat) {
    Holds(d, m) && m.lamportTimestamp > since && m.topic != t && Intrudes(m, t, Since(since))
  }

  /** No stored newer message gets into the scan of a topic that is not its own. */
  ghost predicate NoneStrays(d: Data, topics: set<Topic>, since: nat) {
    forall m: Record, t :: t in topics ==> !Strays(d, m, t, since)
  }

  /** The scans of the topics that are done have been collected: whatever each of them returned. */
  ghost predicate Gathered(d: Data, done: set<Topic>, since: nat, ms: seq<Record>) {
    && (forall m :: m in ms <==> exists t :: t in done && Holds(d, m) && Returned(m, t, since))
    && (NoneStrays(d, done, since) ==> IsDelta(d, done, since, ms))
    && (forall m: Record, t :: t in done && m.topic in done && Strays(d, m, t, since) ==> Repeats(ms))
  }

  ghost predicate Repeats(ms: seq<Record>) { exists i, j :: 0 <= i < j < |ms| && ms[i] == ms[j] }

  lemma RepeatsAppend(ms: seq<Record>, more: seq<Record>, m: Record)
    ensures Repeats(ms) ==> Repeats(ms + more)
    ensures m in ms && m in more ==> Repeats(ms + more)
  {
    var all := ms + more;
    if Repeats(ms) {
      var i, j :| 0 <= i < j < |ms| && ms[i] == ms[j];
      assert all[i] == all[j];
    }
    if m in ms && m in more {
      var i :| 0 <= i < |ms| && ms[i] == m;
      var j :| 0 <= j < |more| && more[j] == m;
      assert all[i] == all[|ms| + j];
    }
  }

  lemma ReturnedIff(d: Data, m: Record, t: Topic, since: nat)
    requires Fits(d) && since < PAD_LIMIT && Holds(d, m)
    ensures Returned(m, t, since) <==> m.lamportTimestamp > since && (m.topic == t || Strays(d, m, t, since))
  {
    HeldIds(d, m);
    RangeScanReturns(m, t, since);
  }

  lemma GatherOne(d: Data, done: set<Topic>, t: Topic, since: nat, ms: seq<Record>, scan: seq<Record>)
    requires Fits(d) && since < PAD_LIMIT && Gathered(d, done, since, ms) && IsScan(d, t, since, scan) && t !in done
    ensures Gathered(d, done + {t}, since, ms + scan)
  {
    hide Fits, Strays, Returned, IsTopicLog, IsDelta, Repeats, Intrudes;
    var all, more := ms + scan, done + {t};
    GatherMembers(d, done, t, since, ms, scan);
    GatherDelta(d, done, t, since, ms, scan);
    forall m: Record, u | u in more && m.topic in more && Strays(d, m, u, since) ensures Repeats(all) {
      GatherRepeats(d, done, t, since, ms, scan, m, u);
    }
  }

  lemma GatherMembers(d: Data, done: set<Topic>, t: Topic, since: nat, ms: seq<Record>, scan: seq<Record>)
    requires Gathered(d, done, since, ms) && IsScan(d, t, since, scan)
    ensures forall m :: m in ms + scan <==> exists u :: u in done + {t} && Holds(d, m) && Returned(m, u, since)
  {
    hide Returned, Holds, IsDelta, Repeats, NoneStrays;
    forall m ensures m in ms + scan <==> exists u :: u in done + {t} && Holds(d, m) && Returned(m, u, since) {
      if m in scan { assert t in done + {t} && Holds(d, m) && Returned(m, t, since); }
    }
  }

  lemma GatherDelta(d: Data, done: set<Topic>, t: Topic, since: nat, ms: seq<Record>, scan: seq<Record>)
    requires Fits(d) && since < PAD_LIMIT && Gathered(d, done, since, ms) && IsScan(d, t, since, scan) && t !in done
    ensures NoneStrays(d, done + {t}, since) ==> IsDelta(d, done + {t}, since, ms + scan)
  {
    hide Returned, IsDelta, Repeats, Intrudes;
    if NoneStrays(d, done + {t}, since) {
      forall m: Record, u | u in done ensures !Strays(d, m, u, since) { assert u in done + {t}; }
      forall m: Record | Holds(d, m) && m.lamportTimestamp > since ensures !Intrudes(m, t, Since(since)) {
        assert t in done + {t} && !Strays(d, m, t, since);
        NoOneIntrudesOnItself(m, Since(since));
      }
      ScanIsTopicLogIff(d, t, since, scan);
      TopicLogExtendsDelta(d, done, t, since, ms, scan);
    }
  }

  lemma GatherRepeats(d: Data, done: set<Topic>, t: Topic, since: nat, ms: seq<Record>, scan: seq<Record>, m: Record, u: Topic)
    requires Fits(d) && since < PAD_LIMIT && Gathered(d, done, since, ms) && IsScan(d, t, since, scan)
    requires u in done + {t} && m.topic in done + {t} && Strays(d, m, u, since)
    ensures Repeats(ms + scan)
  {
    hide Fits, Returned, IsDelta, NoneStrays, Intrudes, Repeats;
    RepeatsAppend(ms, scan, m);
    ReturnedIff(d, m, u, since);
    ReturnedIff(d, m, m.topic, since);
  }

  /** All messages for a peer, topic by topic: exactly the delta, each message once, if and only if none of
      the stored ones gets into the scan of another topic. */
  method CollectDelta(store: MessageStore, topics: set<Topic>, since: nat) returns (messages: seq<Record>)
    requires store.Valid()
    modifies store, store.db
    ensures store.Valid() && View(store.Contents()) == View(old(store.Contents()))
    ensures Fits(View(old(store.Contents()))) && since < PAD_LIMIT ==>
              (IsDelta(View(old(store.Contents())), topics, since, messages) <==> NoneStrays(View(old(store.Contents())), topics, since))
    ensures Fits(View(old(store.Contents()))) && since < PAD_LIMIT ==> Covers(View(old(store.Contents())), topics, since, messages)
  {
    hide Covers, Gathered, Fits, IsScan, IndexOk, NoneStrays, IsDelta;
    messages := [];
    var todo := topics;
    ghost var view := View(store.Contents());
    NothingGathered(view, since);
    assert topics - todo == {};
    while todo != {}
      invariant todo <= topics && store.Valid() && View(store.Contents()) == view
      invariant Fits(view) && since < PAD_LIMIT ==> Gathered(view, topics - todo, since, messages)
    {
      var topic :| topic in todo;
      var topicMsgs := store.GetByTopic(topic, since);
      FitsIsIndexed(view);
      if Fits(view) && since < PAD_LIMIT { GatherOne(view, topics - todo, topic, since, messages, topicMsgs); }
      assert topics - todo + {topic} == topics - (todo - {topic});
      messages := messages + topicMsgs;
      todo := todo - {topic};
    }
    assert topics - {} == topics;
    if Fits(view) && since < PAD_LIMIT { AllGathered(view, topics, since, messages); }
  }

  /** Whether or not some message strays: all the stored newer messages of the topics, and those that get into one of
      their scans. */
  ghost predicate Covers(d: Data, topics: set<Topic>, since: nat, ms: seq<Record>) {
    forall m :: m in ms <==>
      Holds(d, m) && m.lamportTimestamp > since && (m.topic in topics || exists t :: t in topics && Strays(d, m, t, since))
  }

  lemma FitsIsIndexed(d: Data)
    ensures Fits(d) ==> IndexOk(d)
  {
  }

  lemma NothingGathered(d: Data, since: nat)
    ensures Gathered(d, {}, since, [])
  {
  }

  lemma AllGathered(d: Data, topics: set<Topic>, since: nat, ms: seq<Record>)
    requires Fits(d) && since < PAD_LIMIT && Gathered(d, topics, since, ms)
    ensures IsDelta(d, topics, since, ms) <==> NoneStrays(d, topics, since)
    ensures Covers(d, topics, since, ms)
  {
    hide Fits, Returned, Intrudes, Strays, IsDelta;
    forall m ensures m in ms <==> Holds(d, m) && m.lamportTimestamp > since && (m.topic in topics || exists t :: t in topics && Strays(d, m, t, since)) {
      if Holds(d, m) {
        forall t ensures Returned(m, t, since) <==> m.lamportTimestamp > since && (m.topic == t || Strays(d, m, t, since)) {
          ReturnedIff(d, m, t, since);
        }
      }
    }
    forall m: Record, t | t in topics && Strays(d, m, t, since) ensures !IsDelta(d, topics, since, ms) {
      StrayIsCollected(d, topics, since, ms, m, t);
    }
  }

  lemma StrayIsCollected(d: Data, topics: set<Topic>, since: nat, ms: seq<Record>, m: Record, t: Topic)
    requires Fits(d) && since < PAD_LIMIT && Gathered(d, topics, since, ms) && t in topics && Strays(d, m, t, since)
    ensures m in ms && (m.topic in topics ==> Repeats(ms)) && !IsDelta(d, topics, since, ms)
  {
    ReturnedIff(d, m, t, since);
  }

  // ---- The manager object ----

  class SyncManager {
    const store: MessageStore
    const router: TopicRouting.TopicRouter
    var lastSeen: map<Peer, nat>
    var pendingAcks: map<Peer, nat>               // the batch whose ACK is expected
    var suspended: map<Peer, map<nat, Stream>>    // streams that wait, each with a running timer
    var streams: map<Peer, nat>                   // how many were started
    var sent: map<Peer, seq<Batch>>               // what went to each peer

    constructor (store: MessageStore, router: TopicRouting.TopicRouter)
      ensures this.store == store && this.router == router
      ensures Valid() && forall p :: StateOf(p) == UNKNOWN
    {
      this.store, this.router := store, router;
      lastSeen, pendingAcks, suspended, streams, sent := map[], map[], map[], map[], map[];
    }

    /** The expected ACK is one that some stream waits for. */
    ghost predicate Valid()
      reads this
    {
      forall p :: p in pendingAcks ==> p in suspended && pendingAcks[p] in suspended[p]
    }

    function StateOf(p: Peer): PeerSync
      reads this
    {
      PeerSync(if p in suspended then suspended[p] else map[],
               if p in pendingAcks then Some(pendingAcks[p]) else None,
               if p in lastSeen then lastSeen[p] else 0,
               if p in streams then streams[p] else 0,
               if p in sent then sent[p] else [])
    }

    /** Up to the first wait of the batch loop: a stream begins if there is something to send. Streams that are under
        way go on. The topics of the peer are the two that every peer has and those with a route to it. */
    method OnPeerReconnected(peerId: Peer, dbOpen: bool) returns (ghost collected: seq<Record>, ghost topics: set<Topic>)
      requires Valid() && store.Valid()
      modifies this, store, store.db
      ensures Valid() && store.Valid() && View(store.Contents()) == View(old(store.Contents()))
      ensures forall topic :: topic in topics <==>
                topic == "global" || topic == "dm:" + peerId || TopicRouting.Lookup(router.routes, topic, peerId).Some?
      ensures dbOpen ==>
                var view, since := View(old(store.Contents())), old(StateOf(peerId).watermark);
                Fits(view) && since < PAD_LIMIT ==>
                  Covers(view, topics, since, collected) && (IsDelta(view, topics, since, collected) <==> NoneStrays(view, topics, since))
      ensures StateOf(peerId) == if dbOpen then Next(old(StateOf(peerId)), Reconnect(collected)) else old(StateOf(peerId))
      ensures if dbOpen && collected != [] then HasBegun(old(StateOf(peerId)), collected, StateOf(peerId))
              else StateOf(peerId) == old(StateOf(peerId))
      ensures forall p :: p != peerId ==> StateOf(p) == old(StateOf(p))
    {
      hide Covers, IsDelta, NoneStrays, Fits, Sorted, SendChunk, HasBegun;
      var topicsOfPeer := router.GetTopicsForPeer(peerId);
      collected, topics := [], topicsOfPeer;
      if !dbOpen { return; }
      var lastSeenLamport := if peerId in lastSeen then lastSeen[peerId] else 0;
      var messagesToSync := CollectDelta(store, topicsOfPeer, lastSeenLamport);
      collected := messagesToSync;
      EventMeaning(StateOf(peerId), Reconnect(collected));
      if |messagesToSync| == 0 { return; }
      StartStream(peerId, messagesToSync);
    }

    method StartStream(peerId: Peer, collected: seq<Record>)
      requires Valid() && collected != []
      modifies this
      ensures Valid()
      ensures StateOf(peerId) == Begin(old(StateOf(peerId)), collected)
      ensures forall p :: p != peerId ==> StateOf(p) == old(StateOf(p))
    {
      hide Sorted, Chunk;
      var lastSeenLamport := if peerId in lastSeen then lastSeen[peerId] else 0;
      var messagesToSync := Sorted(collected);
      var no := if peerId in streams then streams[peerId] else 0;
      streams := streams[peerId := no + 1];
      Transmit(peerId, Stream(no, messagesToSync, 0, lastSeenLamport));
    }

    /** Send the batch at the stream's position and register the wait for its ACK, over any other wait. */
    method Transmit(peerId: Peer, stream: Stream)
      requires Valid() && stream.next <= |stream.messages|
      modifies this`pendingAcks, this`suspended, this`sent
      ensures Valid()
      ensures StateOf(peerId) == SendChunk(old(StateOf(peerId)), stream)
      ensures forall p :: p != peerId ==> StateOf(p) == old(StateOf(p))
    {
      var chunk := Chunk(stream.messages, stream.next);
      var batches := if peerId in sent then sent[peerId] else [];
      var batchId := |batches|;
      sent := sent[peerId := batches + [Batch(stream.no, chunk)]];
      suspended := suspended[peerId := (if peerId in suspended then suspended[peerId] else map[])[batchId := stream]];
      pendingAcks := pendingAcks[peerId := batchId];
    }

    /** The rest of the batch loop after a wait. */
    method Resume(peerId: Peer, stream: Stream)
      requires Valid()
      modifies this`pendingAcks, this`suspended, this`sent, this`lastSeen
      ensures Valid()
      ensures StateOf(peerId) == Advance(old(StateOf(peerId)), stream)
      ensures forall p :: p != peerId ==> StateOf(p) == old(StateOf(p))
    {
      var i := stream.next + BATCH_SIZE;
      if i < |stream.messages| {
        Transmit(peerId, stream.(next := i));
      } else {
        var maxLamportInSync := MaxLamport(stream.messages);
        if maxLamportInSync > stream.since {
          lastSeen := lastSeen[peerId := maxLamportInSync];
        }
      }
    }

    method ReceiveSyncAck(batchId: nat, fromPeerId: Peer)
      requires Valid()
      modifies this
      ensures Valid()
      ensures StateOf(fromPeerId) == Next(old(StateOf(fromPeerId)), Ack(batchId))
      ensures if old(fromPeerId in pendingAcks && pendingAcks[fromPeerId] == batchId)
              then WentOn(old(StateOf(fromPeerId)), batchId, StateOf(fromPeerId)) else StateOf(fromPeerId) == old(StateOf(fromPeerId))
      ensures forall p :: p != fromPeerId ==> StateOf(p) == old(StateOf(p))
    {
      EventMeaning(StateOf(fromPeerId), Ack(batchId));
      hide WentOn;
      if fromPeerId in pendingAcks && pendingAcks[fromPeerId] == batchId {
        var stream := suspended[fromPeerId][batchId];
        suspended := suspended[fromPeerId := suspended[fromPeerId] - {batchId}];
        pendingAcks := pendingAcks - {fromPeerId};
        Resume(fromPeerId, stream);
      }
    }

    /** The safety timer of a wait fires. It clears the peer's expected ACK, even another stream's. */
    method AckTimeout(peerId: Peer, batchId: nat)
      requires Valid() && peerId in suspended && batchId in suspended[peerId]
      modifies this
      ensures Valid()
      ensures StateOf(peerId) == Next(old(StateOf(peerId)), Timeout(batchId))
      ensures WentOn(old(StateOf(peerId)), batchId, StateOf(peerId))
      ensures forall p :: p != peerId ==> StateOf(p) == old(StateOf(p))
    {
      EventMeaning(StateOf(peerId), Timeout(batchId));
      hide WentOn;
      var stream := suspended[peerId][batchId];
      suspended := suspended[peerId := suspended[peerId] - {batchId}];
      pendingAcks := pendingAcks - {peerId};
      Resume(peerId, stream);
    }
  }
}
