/** Persistent messages: an ordered key/value store with a write buffer and an index by message id. */
module MessageStorage {
  import opened Common
  import opened Keys

  datatype Record = Record(id: Id, topic: Topic, lamportTimestamp: nat, kind: string, createdAt: Option<int>, payload: string)

  /** What the database holds: messages, index entries pointing at a message key, and entries of others. */
  datatype Value = Body(message: Record) | Ref(key: string) | Other(text: string)

  type Data = map<string, Value>

  datatype Op = Put(key: string, value: Value) | Del(key: string)

  const MAX_BUFFER_SIZE := 50

  // ---- Keys of messages ----

  function Key(m: Record): string {
    "msg:" + m.topic + ":" + Padded(m.lamportTimestamp) + ":" + m.id
  }

  function IdKey(id: Id): string { "id:" + id }

  /** The key after "msg:". */
  function Rest(m: Record): string {
    m.topic + ":" + (Padded(m.lamportTimestamp) + ":" + m.id)
  }

  lemma KeyForm(m: Record)
    ensures Key(m) == "msg:" + Rest(m) && Key(m)[0] == 'm'
    ensures IdKey(m.id)[0] == 'i'
  {
    assert Key(m) == "msg:" + Rest(m);
  }

  predicate NoColon(s: string) { forall i :: 0 <= i < |s| ==> s[i] != ':' }

  lemma {:induction false} DecimalNoColon(n: nat)
    ensures NoColon(Decimal(n)) && forall i :: 0 <= i < |Decimal(n)| ==> '0' <= Decimal(n)[i] <= '9'
  {
    DigitOrder(n % 10, 0);
    if n >= 10 { DecimalNoColon(n / 10); } else { DigitOrder(n, 0); }
  }

  lemma {:induction false} ZerosDigits(n: nat)
    ensures forall i :: 0 <= i < |Zeros(n)| ==> Zeros(n)[i] == '0'
  {
    if n > 0 { ZerosDigits(n - 1); }
  }

  lemma PaddedDigits(n: nat)
    ensures NoColon(Padded(n)) && |Padded(n)| >= WIDTH
    ensures forall i :: 0 <= i < |Padded(n)| ==> '0' <= Padded(n)[i] <= '9'
  {
    DecimalNoColon(n);
    ZerosDigits(if |Decimal(n)| >= WIDTH then 0 else WIDTH - |Decimal(n)|);
  }

  /** A string is determined by what stands before its last colon and after it. */
  lemma LastColon(a: string, x: string, b: string, y: string)
    requires NoColon(x) && NoColon(y) && a + ":" + x == b + ":" + y
    ensures a == b && x == y
  {
    var s, t := a + ":" + x, b + ":" + y;
    assert s[|a|] == ':' && forall i :: |a| < i < |s| ==> s[i] == x[i - |a| - 1];
    assert t[|b|] == ':' && forall i :: |b| < i < |t| ==> t[i] == y[i - |b| - 1];
    assert a == s[..|a|] && b == t[..|b|];
    assert x == s[|a| + 1..] && y == t[|b| + 1..];
  }

  /** With ids that contain no colon, as UUIDs do, no two messages that differ in topic, timestamp or id
      share a key. */
  lemma KeyInjective(m: Record, n: Record)
    requires NoColon(m.id) && NoColon(n.id)
    ensures Key(m) == Key(n) ==> m.id == n.id && m.topic == n.topic && m.lamportTimestamp == n.lamportTimestamp
  {
    if Key(m) == Key(n) {
      PaddedDigits(m.lamportTimestamp);
      PaddedDigits(n.lamportTimestamp);
      LastColon("msg:" + m.topic + ":" + Padded(m.lamportTimestamp), m.id,
                "msg:" + n.topic + ":" + Padded(n.lamportTimestamp), n.id);
      LastColon("msg:" + m.topic, Padded(m.lamportTimestamp), "msg:" + n.topic, Padded(n.lamportTimestamp));
      assert m.topic == ("msg:" + m.topic)[4..] && n.topic == ("msg:" + n.topic)[4..];
      PaddedInjective(m.lamportTimestamp, n.lamportTimestamp);
    }
  }

  /** A concrete pair of keys. */
  lemma KeyFormat(m: Record)
    requires m.id == "ab12" && m.topic == "global" && m.lamportTimestamp == 42
    ensures Key(m) == "msg:global:000000000000042:ab12" && IdKey(m.id) == "id:ab12"
  {
    PaddedFortyTwo();
  }

  // ---- The database as a value ----

  function Apply(d: Data, op: Op): Data {
    match op
    case Put(k, v) => d[k := v]
    case Del(k) => d - {k}
  }

  function ApplyAll(d: Data, ops: seq<Op>): Data {
    if ops == [] then d else Apply(ApplyAll(d, ops[..|ops| - 1]), ops[|ops| - 1])
  }

  lemma ApplyNone(d: Data)
    ensures ApplyAll(d, []) == d
  {
  }

  lemma {:induction false} ApplyAppend(d: Data, xs: seq<Op>, ys: seq<Op>)
    ensures ApplyAll(d, xs + ys) == ApplyAll(ApplyAll(d, xs), ys)
  {
    if ys == [] {
      assert xs + ys == xs;
    } else {
      ApplyAppend(d, xs, ys[..|ys| - 1]);
      assert (xs + ys)[..|xs + ys| - 1] == xs + ys[..|ys| - 1];
    }
  }

  predicate InRange(k: string, lo: string, hi: string) { Leq(lo, k) && Leq(k, hi) }

  ghost predicate Ascending(ks: seq<string>) { forall i, j :: 0 <= i < j < |ks| ==> Lt(ks[i], ks[j]) }

  ghost predicate AscendingRecords(ms: seq<Record>) { forall i, j :: 0 <= i < j < |ms| ==> Lt(Key(ms[i]), Key(ms[j])) }

  /** The database object: batches are atomic, iteration is in key order. */
  class Database {
    var data: Data

    constructor ()
      ensures data == map[]
    {
      data := map[];
    }

    method Batch(ops: seq<Op>)
      modifies this
      ensures data == ApplyAll(old(data), ops)
    {
      var i := 0;
      while i < |ops|
        invariant 0 <= i <= |ops| && data == ApplyAll(old(data), ops[..i])
      {
        assert ops[..i + 1][..i] == ops[..i];
        data := Apply(data, ops[i]);
        i := i + 1;
      }
      assert ops[..|ops|] == ops;
    }

    method Iterator(gte: string, lte: string) returns (keys: seq<string>)
      ensures Ascending(keys)
      ensures forall k :: k in keys <==> k in data && InRange(k, gte, lte)
    {
      keys := [];
      var todo := set k | k in data && InRange(k, gte, lte);
      ghost var all := todo;
      while todo != {}
        invariant todo <= all && Ascending(keys)
        invariant forall k :: k in keys <==> k in all && k !in todo
        invariant forall k, l :: k in keys && l in todo ==> Lt(k, l)
        decreases todo
      {
        var least :| least in todo;
        var rest := todo - {least};
        LtIrreflexive(least);
        while rest != {}
          invariant least in todo && rest <= todo
          invariant forall k :: k in todo && k !in rest ==> Leq(least, k)
          decreases rest
        {
          var k :| k in rest;
          rest := rest - {k};
          LtTotal(k, least);
          if Lt(k, least) {
            forall l | l in todo && l !in rest ensures Leq(k, l) { LeqChain(k, least, l); }
            least := k;
          }
        }
        forall k | k in todo && k != least ensures Lt(least, k) { LtTotal(least, k); }
        keys := keys + [least];
        todo := todo - {least};
      }
    }
  }

  lemma LeqChain(k: string, least: string, l: string)
    requires Lt(k, least) && (l == k || Leq(least, l))
    ensures Leq(k, l)
  {
    LtTotal(k, l);
    LtTotal(least, l);
    if Lt(l, k) && l != k { LtTransitive(l, k, least); }
  }

  // ---- The buffered store and the plain one ----

  /** Database contents and the writes that wait for the next flush. */
  datatype Store = Store(data: Data, buffer: seq<Op>)

  /** The contents as if every write had been immediate. */
  function View(s: Store): Data { ApplyAll(s.data, s.buffer) }

  function Flushed(s: Store): Store { Store(View(s), []) }

  function SaveOps(m: Record): seq<Op> { [Put(Key(m), Body(m)), Put(IdKey(m.id), Ref(Key(m)))] }

  function Saved(s: Store, m: Record): Store {
    var t := s.(buffer := s.buffer + SaveOps(m));
    if |t.buffer| >= MAX_BUFFER_SIZE then Flushed(t) else t
  }

  function SavedPlain(d: Data, m: Record): Data { d[Key(m) := Body(m)][IdKey(m.id) := Ref(Key(m))] }

  /** Older than the cutoff; a creation time that is no date is never older. */
  predicate OlderThan(m: Record, cutoff: int) { m.createdAt.Some? && m.createdAt.value < cutoff }

  /** The keys that pruning deletes: the old messages that its scan sees, and their index entries. */
  ghost predicate Pruned(d: Data, cutoff: int, k: string) {
    exists mk :: mk in d && InRange(mk, "msg:", "msg:~") && d[mk].Body? && OlderThan(d[mk].message, cutoff)
                 && (k == mk || k == IdKey(d[mk].message.id))
  }

  ghost function PrunedPlain(d: Data, cutoff: int): Data {
    map k | k in d && !Pruned(d, cutoff, k) :: d[k]
  }

  datatype StoreOp = Save(message: Record) | Flush | Prune(cutoff: int)

  ghost function StepBuffered(s: Store, op: StoreOp): Store {
    match op
    case Save(m) => Saved(s, m)
    case Flush => Flushed(s)
    case Prune(cutoff) => Store(PrunedPlain(View(s), cutoff), [])
  }

  ghost function StepPlain(d: Data, op: StoreOp): Data {
    match op
    case Save(m) => SavedPlain(d, m)
    case Flush => d
    case Prune(cutoff) => PrunedPlain(d, cutoff)
  }

  ghost function RunBuffered(s: Store, ops: seq<StoreOp>): Store {
    if ops == [] then s else StepBuffered(RunBuffered(s, ops[..|ops| - 1]), ops[|ops| - 1])
  }

  ghost function RunPlain(d: Data, ops: seq<StoreOp>): Data {
    if ops == [] then d else StepPlain(RunPlain(d, ops[..|ops| - 1]), ops[|ops| - 1])
  }

  lemma SaveIsImmediate(s: Store, m: Record)
    ensures View(Saved(s, m)) == SavedPlain(View(s), m)
  {
    ApplyAppend(s.data, s.buffer, SaveOps(m));
    var d := View(s);
    assert SaveOps(m)[..1] == [Put(Key(m), Body(m))] && SaveOps(m)[..1][..0] == [];
    assert ApplyAll(d, SaveOps(m)[..1]) == d[Key(m) := Body(m)];
  }

  /** The buffered store refines the plain one: after any sequence of saves, flushes and prunes, what
      reads see is what immediate writes would have stored. */
  lemma {:induction false} BufferedRefinesPlain(s: Store, ops: seq<StoreOp>)
    ensures View(RunBuffered(s, ops)) == RunPlain(View(s), ops)
  {
    if ops != [] {
      var prev, op := ops[..|ops| - 1], ops[|ops| - 1];
      BufferedRefinesPlain(s, prev);
      if op.Save? { SaveIsImmediate(RunBuffered(s, prev), op.message); }
    }
  }

  // ---- The index ----

  /** Index entries and messages are in bijection: every message lies under its key and is indexed by
      its id, and every index entry points to such a message. */
  ghost predicate IndexOk(d: Data) {
    && (forall k :: k in d && d[k].Body? ==>
          k == Key(d[k].message) && IdKey(d[k].message.id) in d && d[IdKey(d[k].message.id)] == Ref(k)
          && NoColon(d[k].message.id))
    && (forall k :: k in d && d[k].Ref? ==>
          d[k].key in d && d[d[k].key].Body? && k == IdKey(d[d[k].key].message.id))
    && (forall k :: k in d && d[k].Other? ==> k == "" || (k[0] != 'm' && k[0] != 'i'))
  }

  ghost predicate Holds(d: Data, m: Record) { Key(m) in d && d[Key(m)] == Body(m) }

  /** Saving keeps the index in order exactly if the id is new or is saved again under the same key. */
  lemma SaveKeepsIndexIff(d: Data, m: Record)
    requires IndexOk(d) && NoColon(m.id)
    ensures IndexOk(SavedPlain(d, m)) <==> (IdKey(m.id) in d ==> d[IdKey(m.id)] == Ref(Key(m)))
  {
    var e := SavedPlain(d, m);
    KeyForm(m);
    if IdKey(m.id) in d ==> d[IdKey(m.id)] == Ref(Key(m)) {
      forall k | k in e && e[k].Body?
        ensures k == Key(e[k].message) && IdKey(e[k].message.id) in e && e[IdKey(e[k].message.id)] == Ref(k)
                && NoColon(e[k].message.id)
      {
        if k != Key(m) {
          KeyForm(e[k].message);
          SameIdKey(e[k].message.id, m.id);
        }
      }
      forall k | k in e && e[k].Ref?
        ensures e[k].key in e && e[e[k].key].Body? && k == IdKey(e[e[k].key].message.id)
      {
        if k != IdKey(m.id) {
          KeyForm(d[d[k].key].message);
          KeyInjective(d[d[k].key].message, m);
        }
      }
    } else {
      KeyForm(d[d[IdKey(m.id)].key].message);
      OldCopyUnindexed(d, m);
    }
  }

  lemma SameIdKey(a: Id, b: Id)
    ensures IdKey(a) == IdKey(b) ==> a == b
  {
    assert a == IdKey(a)[3..] && b == IdKey(b)[3..];
  }

  lemma OldCopyUnindexed(d: Data, m: Record)
    requires IndexOk(d) && IdKey(m.id) in d && d[IdKey(m.id)] != Ref(Key(m))
    ensures !IndexOk(SavedPlain(d, m))
  {
    var e := SavedPlain(d, m);
    KeyForm(m);
    assert d[IdKey(m.id)].Ref?;
    var k := d[IdKey(m.id)].key;
    SameIdKey(d[k].message.id, m.id);
    KeyForm(d[k].message);
    assert k in e && e[k] == d[k] && k != Key(m);
    assert e[IdKey(e[k].message.id)] != Ref(k);
  }

  /** Every indexed id was saved by one of these operations. */
  ghost predicate IdsFrom(d: Data, ops: seq<StoreOp>) {
    forall id :: IdKey(id) in d ==> exists i :: 0 <= i < |ops| && ops[i].Save? && ops[i].message.id == id
  }

  ghost predicate UniqueSaves(ops: seq<StoreOp>) {
    && (forall i :: 0 <= i < |ops| && ops[i].Save? ==> NoColon(ops[i].message.id))
    && (forall i, j :: 0 <= i < j < |ops| && ops[i].Save? && ops[j].Save? ==> ops[i].message.id != ops[j].message.id)
  }

  lemma StepIds(d: Data, prev: seq<StoreOp>, op: StoreOp)
    requires IdsFrom(d, prev)
    ensures IdsFrom(StepPlain(d, op), prev + [op])
  {
    var e, ops := StepPlain(d, op), prev + [op];
    forall id | IdKey(id) in e ensures exists i :: 0 <= i < |ops| && ops[i].Save? && ops[i].message.id == id {
      if IdKey(id) in d {
        var i :| 0 <= i < |prev| && prev[i].Save? && prev[i].message.id == id;
        assert ops[i] == prev[i];
      } else {
        KeyForm(op.message);
        KeyForm(Record(id, "", 0, "", None, ""));
        SameIdKey(id, op.message.id);
        assert ops[|prev|] == op;
      }
    }
  }

  /** After any run of saves with unique ids, flushes and prunes, index and messages are in bijection. */
  lemma {:induction false} RunKeepsIndex(ops: seq<StoreOp>)
    requires UniqueSaves(ops)
    ensures IndexOk(View(RunBuffered(Store(map[], []), ops))) && IdsFrom(View(RunBuffered(Store(map[], []), ops)), ops)
  {
    BufferedRefinesPlain(Store(map[], []), ops);
    if ops != [] {
      var prev, op := ops[..|ops| - 1], ops[|ops| - 1];
      RunKeepsIndex(prev);
      BufferedRefinesPlain(Store(map[], []), prev);
      var d := RunPlain(map[], prev);
      StepIds(d, prev, op);
      assert prev + [op] == ops;
      if op.Save? {
        SaveKeepsIndexIff(d, op.message);
      } else if op.Prune? {
        PruneExact(d, op.cutoff, Record("", "", 0, "", None, ""));
      }
    }
  }

  // ---- Pruning ----

  /** The scan of all messages sees those whose topic does not start with '~' or a later character. */
  predicate ScannedByPrune(topic: Topic) { topic == "" || topic[0] < '~' }

  lemma ScanSees(m: Record)
    ensures InRange(Key(m), "msg:", "msg:~") <==> ScannedByPrune(m.topic)
  {
    KeyForm(m);
    LtSamePrefix("msg:", Rest(m), "");
    LtSamePrefix("msg:", "~", Rest(m));
    assert "msg:" + "" == "msg:" && "msg:" + "~" == "msg:~";
    var r := Rest(m);
    assert r[0] == if m.topic == "" then ':' else m.topic[0];
    PaddedDigits(m.lamportTimestamp);
    assert |r| > 1 && "~"[1..] == "";
    assert Lt("", r[1..]);
  }

  /** After pruning exactly the messages are left that are not older than the cutoff or that the scan
      misses, and the index stays in order. */
  lemma PruneExact(d: Data, cutoff: int, m: Record)
    requires IndexOk(d)
    ensures Holds(PrunedPlain(d, cutoff), m) <==>
            Holds(d, m) && !(m.createdAt.Some? && m.createdAt.value < cutoff && (m.topic == "" || m.topic[0] < '~'))
    ensures IndexOk(PrunedPlain(d, cutoff))
  {
    forall k | k in d && d[k].Body? ensures Pruned(d, cutoff, k) <==> OlderThan(d[k].message, cutoff) && ScannedByPrune(d[k].message.topic) {
      PrunedMessage(d, cutoff, k);
    }
    forall k | k in d && d[k].Ref? ensures Pruned(d, cutoff, k) <==> Pruned(d, cutoff, d[k].key) {
      PrunedIndex(d, cutoff, k);
    }
    forall k | k in d && d[k].Other? ensures !Pruned(d, cutoff, k) {
      forall mk | mk in d && d[mk].Body? ensures k != mk && k != IdKey(d[mk].message.id) { KeyForm(d[mk].message); }
    }
    KeptIndexOk(d, PrunedPlain(d, cutoff));
  }

  /** Removing messages together with their index entries keeps the index in order. */
  lemma KeptIndexOk(d: Data, e: Data)
    requires IndexOk(d)
    requires forall k :: k in e ==> k in d && e[k] == d[k]
    requires forall k :: k in d && d[k].Ref? ==> (k in e <==> d[k].key in e)
    ensures IndexOk(e)
  {
  }

  lemma PrunedMessage(d: Data, cutoff: int, k: string)
    requires IndexOk(d) && k in d && d[k].Body?
    ensures Pruned(d, cutoff, k) <==> OlderThan(d[k].message, cutoff) && ScannedByPrune(d[k].message.topic)
  {
    ScanSees(d[k].message);
    KeyForm(d[k].message);
    forall mk | mk in d && d[mk].Body? ensures k != IdKey(d[mk].message.id) { KeyForm(d[mk].message); }
  }

  lemma PrunedIndex(d: Data, cutoff: int, k: string)
    requires IndexOk(d) && k in d && d[k].Ref?
    ensures Pruned(d, cutoff, k) <==> Pruned(d, cutoff, d[k].key)
  {
    var mk := d[k].key;
    KeyForm(d[mk].message);
    PrunedMessage(d, cutoff, mk);
    ScanSees(d[mk].message);
    forall nk | nk in d && d[nk].Body? && k == IdKey(d[nk].message.id) ensures nk == mk {
      SameIdKey(d[nk].message.id, d[mk].message.id);
    }
    forall nk | nk in d && d[nk].Body? ensures k != nk { KeyForm(d[nk].message); KeyForm(d[mk].message); }
  }

  /** Pruning removes exactly the messages older than the cutoff if and only if the scan sees all of
      those: no old message has a topic that starts with '~' or a later character. */
  lemma PruneCompleteIff(d: Data, cutoff: int)
    requires IndexOk(d)
    ensures (forall m :: Holds(PrunedPlain(d, cutoff), m) <==> Holds(d, m) && !(m.createdAt.Some? && m.createdAt.value < cutoff))
            <==> (forall m :: Holds(d, m) && m.createdAt.Some? && m.createdAt.value < cutoff ==> m.topic == "" || m.topic[0] < '~')
  {
    forall m
      ensures Holds(PrunedPlain(d, cutoff), m) <==>
              Holds(d, m) && !(m.createdAt.Some? && m.createdAt.value < cutoff && (m.topic == "" || m.topic[0] < '~'))
    {
      PruneExact(d, cutoff, m);
    }
  }

  // ---- What is stored after a run ----

  /** The message was saved, and no later pruning was due to delete it. */
  ghost predicate Survives(ops: seq<StoreOp>, m: Record) {
    exists i :: 0 <= i < |ops| && ops[i] == Save(m) && forall j :: i < j < |ops| && ops[j].Prune? ==> !DueFor(m, ops[j].cutoff)
  }

  /** Pruning with this cutoff is to delete the message, and its scan reaches it. */
  predicate DueFor(m: Record, cutoff: int) {
    m.createdAt.Some? && m.createdAt.value < cutoff && (m.topic == "" || m.topic[0] < '~')
  }

  lemma SurvivesSnoc(ops: seq<StoreOp>, op: StoreOp, m: Record)
    ensures Survives(ops + [op], m) <==> op == Save(m) || (Survives(ops, m) && !(op.Prune? && DueFor(m, op.cutoff)))
  {
    var all := ops + [op];
    if op == Save(m) { assert all[|ops|] == op; }
    if Survives(ops, m) && !(op.Prune? && DueFor(m, op.cutoff)) {
      var i :| 0 <= i < |ops| && ops[i] == Save(m) && forall j :: i < j < |ops| && ops[j].Prune? ==> !DueFor(m, ops[j].cutoff);
      assert all[i] == Save(m);
    }
    if Survives(all, m) && op != Save(m) {
      var i :| 0 <= i < |all| && all[i] == Save(m) && forall j :: i < j < |all| && all[j].Prune? ==> !DueFor(m, all[j].cutoff);
      assert ops[i] == Save(m) && all[|ops|] == op;
      forall j | i < j < |ops| && ops[j].Prune? ensures !DueFor(m, ops[j].cutoff) { assert all[j] == ops[j]; }
    }
  }

  lemma SaveHolds(d: Data, n: Record, m: Record)
    requires IndexOk(d) && NoColon(n.id) && IdKey(n.id) !in d
    ensures Holds(SavedPlain(d, n), m) <==> m == n || Holds(d, m)
  {
    KeyForm(n);
    KeyForm(m);
    if Holds(d, m) { KeyInjective(m, n); }
  }

  /** Nothing is lost and nothing stays: after any run of saves with unique ids, flushes and prunes, reads see exactly
      the messages that were saved and that no later pruning was due to delete. */
  lemma {:induction false} RunHolds(ops: seq<StoreOp>, m: Record)
    requires UniqueSaves(ops)
    ensures Holds(View(RunBuffered(Store(map[], []), ops)), m) <==> Survives(ops, m)
  {
    BufferedRefinesPlain(Store(map[], []), ops);
    if ops != [] {
      var prev, op := ops[..|ops| - 1], ops[|ops| - 1];
      assert prev + [op] == ops;
      RunHolds(prev, m);
      RunKeepsIndex(prev);
      BufferedRefinesPlain(Store(map[], []), prev);
      SurvivesSnoc(prev, op, m);
      hide IndexOk, Survives, RunBuffered, View, Holds, IdsFrom;
      StepHolds(RunPlain(map[], prev), prev, op, m);
    }
  }

  lemma StepHolds(d: Data, prev: seq<StoreOp>, op: StoreOp, m: Record)
    requires IndexOk(d) && IdsFrom(d, prev) && UniqueSaves(prev + [op])
    ensures Holds(StepPlain(d, op), m) <==> op == Save(m) || (Holds(d, m) && !(op.Prune? && DueFor(m, op.cutoff)))
  {
    match op
    case Save(n) =>
      var ops := prev + [op];
      assert ops[|prev|] == op && forall i :: 0 <= i < |prev| ==> ops[i] == prev[i];
      assert IdKey(n.id) !in d;
      SaveHolds(d, n, m);
    case Flush =>
    case Prune(cutoff) => PruneExact(d, cutoff, m);
  }

  // ---- Scans by topic ----

  function TopicPrefix(topic: Topic): string { "msg:" + topic + ":" }

  /** The range scanned for a topic, from `low` on within the topic. */
  predicate InScan(k: string, topic: Topic, low: string) {
    InRange(k, TopicPrefix(topic) + low, TopicPrefix(topic) + "~")
  }

  function Since(since: nat): string { Padded(since) + ":" }

  /** The messages of the topic's scan that are newer than `since`. */
  predicate Returned(m: Record, topic: Topic, since: nat) {
    InScan(Key(m), topic, Since(since)) && m.lamportTimestamp > since
  }

  /** What scanning the contents for a topic yields. */
  ghost predicate IsScan(d: Data, topic: Topic, since: nat, ms: seq<Record>) {
    && AscendingRecords(ms)
    && forall m :: m in ms <==> Holds(d, m) && Returned(m, topic, since)
  }

  // ---- Recent messages ----

  predicate IsChat(m: Record) { m.kind == "CHAT" }

  /** What scanning a whole topic for chat messages yields. */
  ghost predicate IsChatScan(d: Data, topic: Topic, ms: seq<Record>) {
    && AscendingRecords(ms)
    && forall m :: m in ms <==> Holds(d, m) && InScan(Key(m), topic, "") && IsChat(m)
  }

  /** Array.prototype.slice(start) */
  function SliceFrom<T>(s: seq<T>, start: int): seq<T> {
    if start >= |s| then [] else if start >= 0 then s[start..] else if |s| + start > 0 then s[|s| + start..] else s
  }

  // ---- What the loops over an iterator compute ----

  function NewerThan(since: nat): Record -> bool { (m: Record) => m.lamportTimestamp > since }

  /** The messages under these keys that `keep` accepts. */
  function Collected(d: Data, ks: seq<string>, keep: Record -> bool): seq<Record> {
    if ks == [] then []
    else
      var k := ks[|ks| - 1];
      Collected(d, ks[..|ks| - 1], keep) + if k in d && d[k].Body? && keep(d[k].message) then [d[k].message] else []
  }

  ghost predicate MessageKeys(d: Data, ks: seq<string>) {
    Ascending(ks) && forall k :: k in ks ==> k in d && d[k].Body? && k == Key(d[k].message)
  }

  lemma {:induction false} CollectedMeaning(d: Data, ks: seq<string>, keep: Record -> bool)
    requires MessageKeys(d, ks)
    ensures AscendingRecords(Collected(d, ks, keep))
    ensures forall m :: m in Collected(d, ks, keep) <==> Holds(d, m) && Key(m) in ks && keep(m)
  {
    if ks != [] {
      var prev, last := ks[..|ks| - 1], ks[|ks| - 1];
      assert ks == prev + [last];
      CollectedMeaning(d, prev, keep);
      LastKeyIsLargest(prev, last);
      LastCollected(d, prev, last, Collected(d, prev, keep), keep);
    }
  }

  lemma LastKeyIsLargest(prev: seq<string>, last: string)
    requires Ascending(prev + [last])
    ensures last !in prev && forall k :: k in prev ==> Lt(k, last)
  {
    var ks := prev + [last];
    forall k | k in prev ensures Lt(k, last) {
      var i :| 0 <= i < |prev| && prev[i] == k;
      assert ks[i] == k && ks[|prev|] == last;
    }
    LtIrreflexive(last);
  }

  lemma LastCollected(d: Data, prev: seq<string>, last: string, init: seq<Record>, keep: Record -> bool)
    requires MessageKeys(d, prev + [last]) && AscendingRecords(init)
    requires forall k :: k in prev ==> Lt(k, last)
    requires forall m :: m in init <==> Holds(d, m) && Key(m) in prev && keep(m)
    ensures var more := init + if keep(d[last].message) then [d[last].message] else [];
            && AscendingRecords(more) && forall m :: m in more <==> Holds(d, m) && Key(m) in prev + [last] && keep(m)
  {
    assert last in prev + [last];
    hide Lt, Key;
  }

  /** Under an index in order everything that a scan of messages meets is a message. */
  lemma MessageKeyIsBody(d: Data, k: string)
    requires IndexOk(d) && k in d && k != "" && k[0] == 'm'
    ensures d[k].Body? && k == Key(d[k].message)
  {
    if d[k].Ref? { KeyForm(d[d[k].key].message); }
  }

  lemma ScanKeysAreMessages(d: Data, topic: Topic, low: string, ks: seq<string>)
    requires IndexOk(d) && Ascending(ks)
    requires forall k :: k in ks <==> k in d && InScan(k, topic, low)
    ensures MessageKeys(d, ks)
  {
    forall k | k in ks ensures k in d && d[k].Body? && k == Key(d[k].message) {
      BetweenHasPrefix(TopicPrefix(topic), low, "~", k);
      assert TopicPrefix(topic)[0] == 'm';
      MessageKeyIsBody(d, k);
    }
  }

  lemma CollectedScan(d: Data, topic: Topic, low: string, ks: seq<string>, keep: Record -> bool)
    requires MessageKeys(d, ks)
    requires forall k :: k in ks <==> k in d && InScan(k, topic, low)
    ensures AscendingRecords(Collected(d, ks, keep))
    ensures forall m :: m in Collected(d, ks, keep) <==> Holds(d, m) && InScan(Key(m), topic, low) && keep(m)
  {
    hide InScan, AscendingRecords, Key, Collected;
    CollectedMeaning(d, ks, keep);
  }

  /** The loop over a topic's entries, as `getByTopic` and `getRecentMessages` have it; it ends at an entry
      that is no message. */
  method CollectMessages(data: Data, keys: seq<string>, keep: Record -> bool) returns (messages: seq<Record>)
    requires forall k :: k in keys ==> k in data
    ensures (forall k :: k in keys ==> data[k].Body?) ==> messages == Collected(data, keys, keep)
  {
    messages := [];
    var i := 0;
    while i < |keys| && data[keys[i]].Body?
      invariant 0 <= i <= |keys| && messages == Collected(data, keys[..i], keep)
    {
      var msg := data[keys[i]].message;
      if keep(msg) {
        messages := messages + [msg];
      }
      assert keys[..i + 1][..i] == keys[..i];
      i := i + 1;
    }
    assert keys[..|keys|] == keys;
  }

  lemma AllScannedAreBodies(d: Data, ks: seq<string>)
    requires IndexOk(d) && forall k :: k in ks <==> k in d && InRange(k, "msg:", "msg:~")
    ensures forall k :: k in ks ==> d[k].Body?
  {
    assert "msg:" + "" == "msg:" && "msg:" + "~" == "msg:~";
    forall k | k in ks ensures k in d && d[k].Body? {
      BetweenHasPrefix("msg:", "", "~", k);
      MessageKeyIsBody(d, k);
    }
  }

  /** The deletions for the old messages under these keys. */
  function Deletions(d: Data, ks: seq<string>, cutoff: int): seq<Op> {
    if ks == [] then []
    else
      var k := ks[|ks| - 1];
      Deletions(d, ks[..|ks| - 1], cutoff)
      + if k in d && d[k].Body? && OlderThan(d[k].message, cutoff) then [Del(k), Del(IdKey(d[k].message.id))] else []
  }

  /** The keys deleted on behalf of the keys `ks`. */
  function DeletedKeys(d: Data, ks: seq<string>, cutoff: int): set<string> {
    if ks == [] then {}
    else
      var k := ks[|ks| - 1];
      DeletedKeys(d, ks[..|ks| - 1], cutoff)
      + if k in d && d[k].Body? && OlderThan(d[k].message, cutoff) then {k, IdKey(d[k].message.id)} else {}
  }

  lemma {:induction false} DeletedKeysMeaning(d: Data, ks: seq<string>, cutoff: int, k: string)
    ensures k in DeletedKeys(d, ks, cutoff) <==>
            exists mk :: mk in ks && mk in d && d[mk].Body? && OlderThan(d[mk].message, cutoff)
                         && (k == mk || k == IdKey(d[mk].message.id))
  {
    if ks != [] {
      var prev, last := ks[..|ks| - 1], ks[|ks| - 1];
      assert forall x :: x in ks <==> x in prev || x == last;
      DeletedKeysMeaning(d, prev, cutoff, k);
    }
  }

  lemma TwoDeletions(d: Data, k: string, l: string)
    ensures ApplyAll(d, [Del(k), Del(l)]) == d - {k, l}
  {
    var dels := [Del(k), Del(l)];
    assert dels[..1] == [Del(k)] && dels[..1][..0] == [];
    assert ApplyAll(d, dels[..1]) == d - {k};
  }

  lemma {:induction false} DeletionsMeaning(d: Data, ks: seq<string>, cutoff: int)
    ensures ApplyAll(d, Deletions(d, ks, cutoff)) == d - DeletedKeys(d, ks, cutoff)
  {
    if ks != [] {
      var prev, last := ks[..|ks| - 1], ks[|ks| - 1];
      DeletionsMeaning(d, prev, cutoff);
      if last in d && d[last].Body? && OlderThan(d[last].message, cutoff) {
        var id := IdKey(d[last].message.id);
        ApplyAppend(d, Deletions(d, prev, cutoff), [Del(last), Del(id)]);
        TwoDeletions(ApplyAll(d, Deletions(d, prev, cutoff)), last, id);
        assert Deletions(d, ks, cutoff) == Deletions(d, prev, cutoff) + [Del(last), Del(id)];
        assert DeletedKeys(d, ks, cutoff) == DeletedKeys(d, prev, cutoff) + {last, id};
        assert d - DeletedKeys(d, prev, cutoff) - {last, id} == d - DeletedKeys(d, ks, cutoff);
      } else {
        assert Deletions(d, prev, cutoff) + [] == Deletions(d, prev, cutoff);
        assert DeletedKeys(d, ks, cutoff) == DeletedKeys(d, prev, cutoff);
      }
    }
  }

  /** The loop of `prune` over all messages; an entry that is no message makes it give up altogether. */
  method CollectDeletions(data: Data, keys: seq<string>, cutoffTime: int) returns (batch: seq<Op>)
    requires forall k :: k in keys ==> k in data
    ensures batch == if forall k :: k in keys ==> data[k].Body? then Deletions(data, keys, cutoffTime) else []
  {
    batch := [];
    var i := 0;
    while i < |keys|
      invariant 0 <= i <= |keys| && batch == Deletions(data, keys[..i], cutoffTime)
      invariant forall k :: k in keys[..i] ==> data[k].Body?
    {
      if !data[keys[i]].Body? {
        return [];
      }
      var msg := data[keys[i]].message;
      ghost var before := batch;
      if msg.createdAt.Some? && msg.createdAt.value < cutoffTime {
        batch := batch + [Del(keys[i])];
        batch := batch + [Del(IdKey(msg.id))];
        assert batch == before + [Del(keys[i]), Del(IdKey(msg.id))];
      }
      assert keys[..i + 1] == keys[..i] + [keys[i]] && keys[..i + 1][..i] == keys[..i];
      i := i + 1;
    }
    assert keys[..|keys|] == keys;
  }

  lemma DeletionsPrune(d: Data, ks: seq<string>, cutoff: int)
    requires forall k :: k in ks <==> k in d && InRange(k, "msg:", "msg:~")
    ensures ApplyAll(d, Deletions(d, ks, cutoff)) == PrunedPlain(d, cutoff)
  {
    DeletionsMeaning(d, ks, cutoff);
    forall k ensures k in DeletedKeys(d, ks, cutoff) <==> Pruned(d, cutoff, k) {
      DeletedKeysMeaning(d, ks, cutoff, k);
      if Pruned(d, cutoff, k) {
        var mk :| mk in d && InRange(mk, "msg:", "msg:~") && d[mk].Body? && OlderThan(d[mk].message, cutoff)
                  && (k == mk || k == IdKey(d[mk].message.id));
        assert mk in ks;
      }
    }
  }

  lemma ScanMeaning(d: Data, topic: Topic, since: nat, ks: seq<string>, ms: seq<Record>)
    requires Ascending(ks) && forall k :: k in ks <==> k in d && InScan(k, topic, Since(since))
    requires (forall k :: k in ks ==> d[k].Body?) ==> ms == Collected(d, ks, NewerThan(since))
    ensures IndexOk(d) ==> IsScan(d, topic, since, ms)
  {
    if IndexOk(d) {
      ScanKeysAreMessages(d, topic, Since(since), ks);
      CollectedScan(d, topic, Since(since), ks, NewerThan(since));
    }
  }

  lemma ChatScanMeaning(d: Data, topic: Topic, ks: seq<string>, ms: seq<Record>)
    requires Ascending(ks) && forall k :: k in ks <==> k in d && InScan(k, topic, "")
    requires (forall k :: k in ks ==> d[k].Body?) ==> ms == Collected(d, ks, IsChat)
    ensures IndexOk(d) ==> IsChatScan(d, topic, ms)
  {
    if IndexOk(d) {
      ScanKeysAreMessages(d, topic, "", ks);
      CollectedScan(d, topic, "", ks, IsChat);
    }
  }

  lemma PruneMeaning(d: Data, ks: seq<string>, cutoff: int, batch: seq<Op>)
    requires forall k :: k in ks <==> k in d && InRange(k, "msg:", "msg:~")
    requires batch == if forall k :: k in ks ==> d[k].Body? then Deletions(d, ks, cutoff) else []
    ensures IndexOk(d) ==> ApplyAll(d, batch) == PrunedPlain(d, cutoff)
  {
    if IndexOk(d) {
      AllScannedAreBodies(d, ks);
      DeletionsPrune(d, ks, cutoff);
    }
  }

  lemma FoundById(d: Data, id: Id)
    requires IndexOk(d)
    ensures var found := if IdKey(id) in d && d[IdKey(id)].Ref? && d[IdKey(id)].key in d && d[d[IdKey(id)].key].Body?
                         then Some(d[d[IdKey(id)].key].message) else None;
            forall m :: found == Some(m) <==> Holds(d, m) && m.id == id
  {
    KeyForm(Record(id, "", 0, "", None, ""));
    forall m | Holds(d, m) && m.id == id ensures IdKey(id) in d && d[IdKey(id)] == Ref(Key(m)) {}
    if IdKey(id) in d && d[IdKey(id)].Ref? {
      SameIdKey(d[d[IdKey(id)].key].message.id, id);
    }
  }

  // ---- The store object ----

  class MessageStore {
    const db: Database
    var writeBuffer: seq<Op>
    var batchTimer: bool  // a flush is scheduled

    /** Every buffered write has a flush scheduled, and the buffer stays short. */
    ghost predicate Valid()
      reads this
    {
      |writeBuffer| < 50 && (batchTimer <==> writeBuffer != [])
    }

    ghost function Contents(): Store
      reads this, db
    {
      Store(db.data, writeBuffer)
    }

    constructor (db: Database)
      ensures Valid() && this.db == db && Contents() == Store(db.data, [])
    {
      this.db := db;
      writeBuffer := [];
      batchTimer := false;
    }

    method Flush()
      requires writeBuffer == [] ==> !batchTimer
      modifies this, db
      ensures Valid() && writeBuffer == [] && !batchTimer
      ensures Contents() == Flushed(old(Contents()))
    {
      if |writeBuffer| == 0 { return; }
      batchTimer := false;
      var batch := writeBuffer;
      writeBuffer := [];
      db.Batch(batch);
    }

    method Save(message: Record)
      requires Valid()
      modifies this, db
      ensures Valid()
      ensures Contents() == Saved(old(Contents()), message)
      ensures if old(|writeBuffer|) >= 48 then writeBuffer == [] && db.data == View(old(Contents()))[Key(message) := Body(message)][IdKey(message.id) := Ref(Key(message))]
              else db.data == old(db.data) && batchTimer
                   && writeBuffer == old(writeBuffer) + [Put(Key(message), Body(message)), Put(IdKey(message.id), Ref(Key(message)))]
    {
      SaveIsImmediate(Contents(), message);
      var key := Key(message);
      writeBuffer := writeBuffer + [Put(key, Body(message))];
      writeBuffer := writeBuffer + [Put(IdKey(message.id), Ref(key))];
      assert writeBuffer == old(writeBuffer) + SaveOps(message);
      if |writeBuffer| >= MAX_BUFFER_SIZE {
        Flush();
      } else if !batchTimer {
        batchTimer := true;
      }
    }

    method GetById(messageId: Id) returns (result: Option<Record>)
      requires Valid()
      modifies this, db
      ensures Valid() && Contents() == Flushed(old(Contents()))
      ensures IndexOk(View(old(Contents()))) ==>
                forall m :: result == Some(m) <==> Holds(View(old(Contents())), m) && m.id == messageId
    {
      Flush();
      var refKey := IdKey(messageId);
      KeyForm(Record(messageId, "", 0, "", None, ""));
      result := None;
      if refKey in db.data {
        var ref := db.data[refKey];
        if ref.Ref? && ref.key in db.data && db.data[ref.key].Body? {
          result := Some(db.data[ref.key].message);
        }
      }
      if IndexOk(db.data) { FoundById(db.data, messageId); }
    }

    method GetByTopic(topic: Topic, sinceTimestamp: nat) returns (messages: seq<Record>)
      requires Valid()
      modifies this, db
      ensures Valid() && Contents() == Flushed(old(Contents()))
      ensures IndexOk(View(old(Contents()))) ==> IsScan(View(old(Contents())), topic, sinceTimestamp, messages)
    {
      Flush();
      var keys := db.Iterator(TopicPrefix(topic) + Since(sinceTimestamp), TopicPrefix(topic) + "~");
      messages := CollectMessages(db.data, keys, NewerThan(sinceTimestamp));
      ScanMeaning(db.data, topic, sinceTimestamp, keys, messages);
    }

    /** Deletes the messages older than the cutoff, together with their index entries. */
    method Prune(olderThanMs: int, now: int)
      requires Valid()
      modifies this, db
      ensures Valid()
      ensures IndexOk(View(old(Contents()))) ==>
                Contents() == Store(PrunedPlain(View(old(Contents())), now - olderThanMs), [])
    {
      hide PrunedPlain, IndexOk, ApplyAll;
      Flush();
      var cutoffTime := now - olderThanMs;
      var keys := db.Iterator("msg:", "msg:~");
      var batch := CollectDeletions(db.data, keys, cutoffTime);
      PruneMeaning(db.data, keys, cutoffTime, batch);
      ApplyNone(db.data);
      if |batch| > 0 {
        db.Batch(batch);
      }
    }
  }
}
