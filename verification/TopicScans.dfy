/** What scanning a topic's key range returns, and exactly when that is the topic's log: keys are strings, so a
    range can catch messages of other topics. */
module TopicScans {
  import opened Common
  import opened Keys
  import opened MessageStorage

  // ---- Keys of other topics ----

  /** The key of `m` reads like one of `topic` followed by `tail`. */
  predicate LooksLike(m: Record, topic: Topic, tail: string) { Rest(m) == topic + ":" + tail }

  /** A message of another topic whose key falls into the slice of this one that is scanned from `low`. */
  ghost predicate Foreign(m: Record, topic: Topic, low: string) {
    m.topic != topic && exists tail :: LooksLike(m, topic, tail) && Leq(low, tail) && Leq(tail, "~")
  }

  lemma ScanBounds(m: Record, topic: Topic, low: string, tail: string)
    requires LooksLike(m, topic, tail)
    ensures InScan(Key(m), topic, low) <==> Leq(low, tail) && Leq(tail, "~")
  {
    KeyForm(m);
    var p := TopicPrefix(topic);
    assert Key(m) == p + tail;
    LtSamePrefix(p, tail, low);
    LtSamePrefix(p, "~", tail);
  }

  lemma ScannedLooksLike(m: Record, topic: Topic, low: string)
    requires InScan(Key(m), topic, low)
    ensures exists tail :: LooksLike(m, topic, tail)
  {
    KeyForm(m);
    var p := TopicPrefix(topic);
    BetweenHasPrefix(p, low, "~", Key(m));
    var tail := Key(m)[|p|..];
    assert Key(m) == p + tail;
    assert Rest(m) == Key(m)[4..] && p[4..] == topic + ":";
    assert (p + tail)[4..] == p[4..] + tail;
    assert LooksLike(m, topic, tail);
  }

  lemma OtherTopicScanned(m: Record, topic: Topic, low: string)
    requires m.topic != topic
    ensures InScan(Key(m), topic, low) <==> Foreign(m, topic, low)
  {
    forall tail | LooksLike(m, topic, tail) ensures InScan(Key(m), topic, low) <==> Leq(low, tail) && Leq(tail, "~") {
      ScanBounds(m, topic, low, tail);
    }
    if InScan(Key(m), topic, low) { ScannedLooksLike(m, topic, low); }
  }

  function OwnTail(m: Record): string { Padded(m.lamportTimestamp) + ":" + m.id }

  lemma OwnScanned(m: Record, low: string)
    ensures InScan(Key(m), m.topic, low) <==> Leq(low, OwnTail(m))
  {
    assert LooksLike(m, m.topic, OwnTail(m));
    ScanBounds(m, m.topic, low, OwnTail(m));
    PaddedDigits(m.lamportTimestamp);
    assert OwnTail(m)[0] == Padded(m.lamportTimestamp)[0] <= '9';
  }

  lemma ColonPrefix(a: string, x: string, b: string, y: string)
    requires a + ":" + x == b + ":" + y && |a| < |b|
    ensures a + ":" <= b
  {
    var s := a + ":" + x;
    assert s[..|a| + 1] == a + ":";
    assert s == b + ":" + y && s[..|b|] == b;
    assert b[..|a| + 1] == s[..|a| + 1];
  }

  /** What follows the topic and a colon in a longer topic. */
  function Continuation(u: Topic, topic: Topic): string
    requires topic + ":" <= u
  {
    u[|topic| + 1..]
  }

  /** Topic `u` continues `topic` after a colon, with something that sorts into the slice from `low` on. */
  predicate Continues(u: Topic, topic: Topic, low: string) {
    topic + ":" <= u &&
    var rest := Continuation(u, topic);
    Leq(low, rest + ":") && (rest == "" || rest[0] < '~')
  }

  /** The scanned topic reads like the topic and the timestamp of `m`, whose id sorts into the slice. */
  predicate Embeds(topic: Topic, m: Record, low: string) {
    topic == m.topic + ":" + Padded(m.lamportTimestamp) && Leq(low, m.id) && Leq(m.id, "~")
  }

  /** The message gets into the scan of a topic that is not its own. */
  predicate Intrudes(m: Record, topic: Topic, low: string) {
    Continues(m.topic, topic, low) || Embeds(topic, m, low)
  }

  /** The lower ends of scans: nothing, or a padded timestamp with its colon. */
  ghost predicate LowerEnd(low: string) { low == "" || exists since :: low == Since(since) }

  /** Compared with digits and a colon, nothing after a string's own colon matters. */
  lemma {:induction false} UpToColon(rest: string, x: string, d: string)
    requires NoColon(d)
    ensures Lt(rest + ":" + x, d + ":") <==> Lt(rest + ":", d + ":")
  {
    var a, b, c := rest + ":" + x, d + ":", rest + ":";
    if rest != "" && d != "" && rest[0] == d[0] {
      assert a[1..] == rest[1..] + ":" + x && b[1..] == d[1..] + ":" && c[1..] == rest[1..] + ":";
      UpToColon(rest[1..], x, d[1..]);
    } else if d == "" {
      assert b[1..] == "";
    }
  }

  lemma LowerEndUpToColon(rest: string, x: string, low: string)
    requires LowerEnd(low)
    ensures Leq(low, rest + ":" + x) <==> Leq(low, rest + ":")
  {
    if low != "" {
      var since :| low == Since(since);
      PaddedDigits(since);
      UpToColon(rest, x, Padded(since));
    }
  }

  lemma BelowTilde(rest: string, x: string)
    ensures Leq(rest + ":" + x, "~") <==> rest == "" || rest[0] < '~'
  {
    var tail := rest + ":" + x;
    assert "~"[1..] == "" && tail[0] == if rest == "" then ':' else rest[0];
    assert Lt("~", tail) <==> '~' < tail[0] || ('~' == tail[0] && Lt("~"[1..], tail[1..]));
    if rest != "" { assert tail[1..] == rest[1..] + ":" + x; }
  }

  /** A longer topic looks like `topic` exactly by continuing it after a colon. */
  lemma LongerLooksLike(m: Record, topic: Topic, tail: string)
    requires LooksLike(m, topic, tail) && |topic| < |m.topic|
    ensures topic + ":" <= m.topic && tail == Continuation(m.topic, topic) + ":" + OwnTail(m)
  {
    ColonPrefix(topic, tail, m.topic, OwnTail(m));
    assert tail == Rest(m)[|topic| + 1..];
    assert Rest(m)[|topic| + 1..] == m.topic[|topic| + 1..] + ":" + OwnTail(m);
  }

  /** A shorter topic looks like `topic` exactly if that spells its timestamp. */
  lemma ShorterLooksLike(m: Record, topic: Topic, tail: string)
    requires LooksLike(m, topic, tail) && |m.topic| < |topic| && NoColon(m.id)
    ensures topic == m.topic + ":" + Padded(m.lamportTimestamp) && tail == m.id
  {
    var p, whole := Padded(m.lamportTimestamp), Rest(m);
    var head := m.topic + ":" + p;
    PaddedDigits(m.lamportTimestamp);
    assert whole == head + ":" + m.id && whole == topic + ":" + tail;
    forall i | |m.topic| < i < |head| ensures whole[i] != ':' { assert whole[i] == p[i - |m.topic| - 1]; }
    forall i | |head| < i < |whole| ensures whole[i] != ':' { assert whole[i] == m.id[i - |head| - 1]; }
    assert whole[|topic|] == ':';
    assert topic == whole[..|topic|] && head == whole[..|head|];
    assert tail == whole[|topic| + 1..] && m.id == whole[|head| + 1..];
  }

  lemma SameLengthLooksLike(m: Record, topic: Topic, tail: string)
    requires LooksLike(m, topic, tail) && |m.topic| == |topic|
    ensures m.topic == topic
  {
    assert m.topic == Rest(m)[..|m.topic|] && topic == (topic + ":" + tail)[..|topic|];
  }

  /** Which messages of other topics a scan catches, told from topics, timestamps and ids. */
  lemma ForeignIff(m: Record, topic: Topic, low: string)
    requires NoColon(m.id) && LowerEnd(low)
    ensures Foreign(m, topic, low) <==> Intrudes(m, topic, low)
  {
    if Foreign(m, topic, low) {
      var tail :| LooksLike(m, topic, tail) && Leq(low, tail) && Leq(tail, "~");
      if |topic| < |m.topic| {
        LongerLooksLike(m, topic, tail);
        LowerEndUpToColon(Continuation(m.topic, topic), OwnTail(m), low);
        BelowTilde(Continuation(m.topic, topic), OwnTail(m));
      } else if |m.topic| < |topic| {
        ShorterLooksLike(m, topic, tail);
      } else {
        SameLengthLooksLike(m, topic, tail);
      }
    }
    if Continues(m.topic, topic, low) {
      var rest := Continuation(m.topic, topic);
      var tail := rest + ":" + OwnTail(m);
      assert m.topic == topic + ":" + rest;
      assert LooksLike(m, topic, tail);
      LowerEndUpToColon(rest, OwnTail(m), low);
      BelowTilde(rest, OwnTail(m));
    }
    if Embeds(topic, m, low) {
      assert LooksLike(m, topic, m.id);
    }
  }

  /** What a scan returns, for all timestamps that are exact in JavaScript: the newer messages of its topic,
      unless the padding overflows, and newer ones of topics that continue it or that it spells out. */
  lemma RangeScanReturns(m: Record, topic: Topic, since: nat)
    requires since < SAFE_LIMIT && m.lamportTimestamp < SAFE_LIMIT && NoColon(m.id)
    ensures Returned(m, topic, since) <==>
            && m.lamportTimestamp > since
            && if m.topic == topic then !Overflows(since, m.lamportTimestamp) else Intrudes(m, topic, Since(since))
  {
    if m.topic == topic {
      OwnScanned(m, Since(since));
      if m.lamportTimestamp > since { PaddedSince(since, m.lamportTimestamp, m.id); }
    } else {
      OtherTopicScanned(m, topic, Since(since));
      ForeignIff(m, topic, Since(since));
    }
  }

  lemma NoOneIntrudesOnItself(m: Record, low: string)
    ensures !Intrudes(m, m.topic, low)
  {
  }

  // ---- When a scan is the topic's log ----

  predicate Before(a: Record, b: Record) {
    a.lamportTimestamp < b.lamportTimestamp || (a.lamportTimestamp == b.lamportTimestamp && Lt(a.id, b.id))
  }

  /** The stored messages of the topic newer than `since`, in order of timestamp, then id. */
  ghost predicate IsTopicLog(d: Data, topic: Topic, since: nat, ms: seq<Record>) {
    && (forall i, j :: 0 <= i < j < |ms| ==> Before(ms[i], ms[j]))
    && forall m :: m in ms <==> Holds(d, m) && m.topic == topic && m.lamportTimestamp > since
  }

  lemma SameTopicOrder(a: Record, b: Record)
    requires a.topic == b.topic && a.lamportTimestamp < PAD_LIMIT && b.lamportTimestamp < PAD_LIMIT
    ensures Lt(Key(a), Key(b)) <==> Before(a, b)
  {
    var p := TopicPrefix(a.topic);
    assert Key(a) == p + OwnTail(a) && Key(b) == p + OwnTail(b);
    LtSamePrefix(p, OwnTail(a), OwnTail(b));
    PaddedOrder(a.lamportTimestamp, b.lamportTimestamp);
    var x, y := Padded(a.lamportTimestamp), Padded(b.lamportTimestamp);
    assert OwnTail(a) == x + (":" + a.id) && OwnTail(b) == y + (":" + b.id);
    LtAppend(x, y, ":" + a.id, ":" + b.id);
    LtSamePrefix(":", a.id, b.id);
  }

  /** For timestamps of up to 15 digits, a scan yields the log of its topic exactly if no stored newer message
      is foreign to it. */
  lemma NothingForeignIff(d: Data, topic: Topic, since: nat, ms: seq<Record>)
    requires IsScan(d, topic, since, ms) && since < PAD_LIMIT
    requires forall m :: Holds(d, m) ==> m.lamportTimestamp < PAD_LIMIT
    ensures IsTopicLog(d, topic, since, ms) <==>
            forall m :: Holds(d, m) && m.lamportTimestamp > since ==> !Foreign(m, topic, Since(since))
  {
    forall m | Holds(d, m)
      ensures Returned(m, topic, since) <==>
              m.lamportTimestamp > since && (m.topic == topic || Foreign(m, topic, Since(since)))
    {
      if m.topic == topic {
        OwnScanned(m, Since(since));
        PadLimit();
        if m.lamportTimestamp > since { PaddedSince(since, m.lamportTimestamp, m.id); }
      } else {
        OtherTopicScanned(m, topic, Since(since));
      }
    }
    if forall m :: Holds(d, m) && m.lamportTimestamp > since ==> !Foreign(m, topic, Since(since)) {
      forall i, j | 0 <= i < j < |ms| ensures Before(ms[i], ms[j]) {
        assert ms[i] in ms && ms[j] in ms;
        SameTopicOrder(ms[i], ms[j]);
      }
    }
  }

  /** Ids without colons, as UUIDs are, and timestamps of up to 15 digits. */
  ghost predicate Fits(d: Data) {
    IndexOk(d) && forall m :: Holds(d, m) ==> m.lamportTimestamp < PAD_LIMIT
  }

  lemma HeldIds(d: Data, m: Record)
    requires IndexOk(d) && Holds(d, m)
    ensures NoColon(m.id)
  {
  }

  /** No stored message newer than `since` intrudes on the topic. */
  ghost predicate NobodyIntrudes(d: Data, topic: Topic, since: nat) {
    forall m :: Holds(d, m) && m.lamportTimestamp > since ==> !Intrudes(m, topic, Since(since))
  }

  /** Range scan equals filter: a scan yields the log of its topic if and only if no stored newer message
      intrudes, which is decided by topics, timestamps and ids. */
  lemma ScanIsTopicLogIff(d: Data, topic: Topic, since: nat, ms: seq<Record>)
    requires IsScan(d, topic, since, ms) && since < PAD_LIMIT && Fits(d)
    ensures IsTopicLog(d, topic, since, ms) <==> NobodyIntrudes(d, topic, since)
  {
    forall m | Holds(d, m) ensures Foreign(m, topic, Since(since)) <==> Intrudes(m, topic, Since(since)) {
      HeldIds(d, m);
      ForeignIff(m, topic, Since(since));
    }
    NothingForeignIff(d, topic, since, ms);
    hide IndexOk, Intrudes, Foreign, IsTopicLog, IsScan;
  }

  /** From saves to reads: after any run of saves with unique ids, flushes and prunes, a scan yields exactly the
      messages of its topic newer than `since` that were saved and not due to be deleted since, in order of
      timestamp, then id, if and only if none of these messages of another topic intrudes. */
  lemma ScanOfRun(ops: seq<StoreOp>, topic: Topic, since: nat, ms: seq<Record>)
    requires UniqueSaves(ops) && since < 1_000_000_000_000_000
    requires forall i :: 0 <= i < |ops| && ops[i].Save? ==> ops[i].message.lamportTimestamp < 1_000_000_000_000_000
    requires IsScan(View(RunBuffered(Store(map[], []), ops)), topic, since, ms)
    ensures && (forall i, j :: 0 <= i < j < |ms| ==> Before(ms[i], ms[j]))
            && (forall m :: m in ms <==> Survives(ops, m) && m.topic == topic && m.lamportTimestamp > since)
            <==> forall m :: Survives(ops, m) && m.lamportTimestamp > since ==> !Intrudes(m, topic, Since(since))
  {
    var d := View(RunBuffered(Store(map[], []), ops));
    forall m ensures Holds(d, m) <==> Survives(ops, m) { RunHolds(ops, m); }
    RunKeepsIndex(ops);
    hide *;
    SurvivorsFit(ops);
    ScanOfSurvivors(d, ops, topic, since, ms);
  }

  lemma SurvivorsFit(ops: seq<StoreOp>)
    requires forall i :: 0 <= i < |ops| && ops[i].Save? ==> ops[i].message.lamportTimestamp < PAD_LIMIT
    ensures forall m :: Survives(ops, m) ==> m.lamportTimestamp < PAD_LIMIT
  {
  }

  lemma ScanOfSurvivors(d: Data, ops: seq<StoreOp>, topic: Topic, since: nat, ms: seq<Record>)
    requires IndexOk(d) && (forall m :: Holds(d, m) <==> Survives(ops, m)) && since < PAD_LIMIT
    requires IsScan(d, topic, since, ms) && forall m :: Survives(ops, m) ==> m.lamportTimestamp < PAD_LIMIT
    ensures && (forall i, j :: 0 <= i < j < |ms| ==> Before(ms[i], ms[j]))
            && (forall m :: m in ms <==> Survives(ops, m) && m.topic == topic && m.lamportTimestamp > since)
            <==> forall m :: Survives(ops, m) && m.lamportTimestamp > since ==> !Intrudes(m, topic, Since(since))
  {
    ScanIsTopicLogIff(d, topic, since, ms);
    hide IndexOk, Intrudes, IsScan, Holds, Survives, Before;
  }

  // ---- Sets of topics ----

  /** Some message under `u` gets into some scan of `topic`: `u` continues `topic` after a colon, or `topic` is
      `u` followed by a colon and a timestamp. */
  ghost predicate Confusable(u: Topic, topic: Topic) {
    Continues(u, topic, Since(0)) || exists ts :: 1 <= ts < PAD_LIMIT && topic == u + ":" + Padded(ts)
  }

  /** Scans of this topic are right in every store with messages under these topics. */
  ghost predicate ScansRight(topics: set<Topic>, topic: Topic) {
    forall d, since: nat, ms ::
      Fits(d) && (forall m :: Holds(d, m) ==> m.topic in topics) && since < PAD_LIMIT && IsScan(d, topic, since, ms)
      ==> IsTopicLog(d, topic, since, ms)
  }

  lemma SinceZeroIsLeast(since: nat, x: string)
    requires since < PAD_LIMIT && Leq(Since(since), x)
    ensures Leq(Since(0), x)
  {
    if since > 0 {
      PaddedSince(0, since, "");
      assert Padded(since) + ":" + "" == Since(since);
      if Lt(x, Since(0)) {
        LtTotal(Since(0), Since(since));
        if Lt(Since(0), Since(since)) { LtTransitive(x, Since(0), Since(since)); }
      }
    }
  }

  lemma IntruderIsConfusable(m: Record, topic: Topic, since: nat)
    requires since < m.lamportTimestamp < PAD_LIMIT && Intrudes(m, topic, Since(since))
    ensures Confusable(m.topic, topic)
  {
    if Continues(m.topic, topic, Since(since)) {
      SinceZeroIsLeast(since, Continuation(m.topic, topic) + ":");
    }
  }

  /** A message under the confusable topic that a scan since 0 returns. */
  lemma ConfusedMessage(u: Topic, topic: Topic) returns (m: Record)
    requires Confusable(u, topic)
    ensures m.topic == u && NoColon(m.id) && 0 < m.lamportTimestamp < PAD_LIMIT && Intrudes(m, topic, Since(0))
  {
    if Continues(u, topic, Since(0)) {
      m := Record("x", u, 1, "CHAT", None, "");
    } else {
      var ts :| 1 <= ts < PAD_LIMIT && topic == u + ":" + Padded(ts);
      m := Record("x", u, ts, "CHAT", None, "");
      PaddedDigits(0);
      assert Since(0)[0] == Padded(0)[0] <= '9';
    }
  }

  /** For every store and every `since`: scans of a topic are right if and only if it is confusable with none
      of the other topics in use. */
  lemma ScansRightIff(topics: set<Topic>, topic: Topic)
    ensures ScansRight(topics, topic) <==> forall u :: u in topics ==> !Confusable(u, topic)
  {
    if u :| u in topics && Confusable(u, topic) {
      var m := ConfusedMessage(u, topic);
      OneMessageStore(m, topic, topics);
    } else {
      forall d, since: nat, ms | Fits(d) && (forall m :: Holds(d, m) ==> m.topic in topics) && since < PAD_LIMIT && IsScan(d, topic, since, ms)
        ensures IsTopicLog(d, topic, since, ms)
      {
        forall m | Holds(d, m) && m.lamportTimestamp > since ensures !Intrudes(m, topic, Since(since)) {
          if Intrudes(m, topic, Since(since)) { IntruderIsConfusable(m, topic, since); }
        }
        ScanIsTopicLogIff(d, topic, since, ms);
      }
    }
  }

  /** The store with just this message. */
  lemma OneMessageStore(m: Record, topic: Topic, topics: set<Topic>)
    requires NoColon(m.id) && 0 < m.lamportTimestamp < PAD_LIMIT && Intrudes(m, topic, Since(0)) && m.topic in topics
    ensures !ScansRight(topics, topic)
  {
    var d := SavedPlain(map[], m);
    OnlyMessage(m);
    NoOneIntrudesOnItself(m, Since(0));
    PadLimit();
    RangeScanReturns(m, topic, 0);
    hide IndexOk, Intrudes, Returned, SavedPlain, Key, Holds;
    OneMessageScan(d, m, topic);
    assert m in [m] && !IsTopicLog(d, topic, 0, [m]);
  }

  lemma OnlyMessage(m: Record)
    requires NoColon(m.id) && m.lamportTimestamp < PAD_LIMIT
    ensures Fits(SavedPlain(map[], m)) && forall n :: Holds(SavedPlain(map[], m), n) <==> n == m
  {
    SaveKeepsIndexIff(map[], m);
    KeyForm(m);
    hide IndexOk;
    forall n | Holds(SavedPlain(map[], m), n) ensures n == m { KeyForm(n); }
  }

  lemma OneMessageScan(d: Data, m: Record, topic: Topic)
    requires (forall n :: Holds(d, n) <==> n == m) && Returned(m, topic, 0)
    ensures IsScan(d, topic, 0, [m])
  {
  }

  /** Neither topic is the other one followed by a colon. */
  predicate Separate(a: Topic, b: Topic) { !(a + ":" <= b) && !(b + ":" <= a) }

  lemma SeparateNotForeign(m: Record, topic: Topic, low: string)
    requires Separate(m.topic, topic)
    ensures !Foreign(m, topic, low)
  {
    forall tail | LooksLike(m, topic, tail) ensures m.topic == topic {
      if |m.topic| < |topic| {
        ColonPrefix(m.topic, OwnTail(m), topic, tail);
      } else if |topic| < |m.topic| {
        ColonPrefix(topic, tail, m.topic, OwnTail(m));
      } else {
        assert m.topic == Rest(m)[..|m.topic|] && topic == (topic + ":" + tail)[..|topic|];
      }
    }
  }

  /** With topics of which none continues another one after a colon, scans are filters. */
  lemma SeparateTopicsScan(d: Data, topic: Topic, since: nat, ms: seq<Record>)
    requires IsScan(d, topic, since, ms) && since < PAD_LIMIT
    requires forall m :: Holds(d, m) ==> m.lamportTimestamp < PAD_LIMIT && Separate(m.topic, topic)
    ensures IsTopicLog(d, topic, since, ms)
  {
    forall m | Holds(d, m) ensures !Foreign(m, topic, Since(since)) { SeparateNotForeign(m, topic, Since(since)); }
    NothingForeignIff(d, topic, since, ms);
  }

  /** Where the scan goes wrong: every newer message of a topic that continues the scanned one after a
      colon with a character between '9' and '~' is returned with it, whatever `since` is. */
  lemma ContinuedTopicIsReturned(m: Record, topic: Topic, c: char, more: string, since: nat)
    requires m.topic == topic + ":" + [c] + more && '9' < c < '~' && m.lamportTimestamp > since
    ensures Returned(m, topic, since) && m.topic != topic
  {
    var tail := [c] + more + ":" + OwnTail(m);
    assert Rest(m) == m.topic + ":" + OwnTail(m);
    assert LooksLike(m, topic, tail);
    PaddedDigits(since);
    assert Since(since)[0] == Padded(since)[0] < tail[0];
    ScanBounds(m, topic, Since(since), tail);
    assert |m.topic| > |topic|;
  }

  /** A concrete case: reading topic "dm" yields the direct messages to alice. */
  lemma DirectMessagesShowUpUnderDm()
    ensures Returned(Record("x", "dm:alice", 1, "CHAT", None, ""), "dm", 0)
  {
    assert "dm:alice" == "dm" + ":" + ['a'] + "lice";
    ContinuedTopicIsReturned(Record("x", "dm:alice", 1, "CHAT", None, ""), "dm", 'a', "lice", 0);
  }

  /** A shorter topic can get in as well: one that the scanned topic spells together with a timestamp. */
  lemma SpelledTimestamp()
    ensures Returned(Record("x", "a", 5, "CHAT", None, ""), "a:" + Padded(5), 0)
  {
    var m := Record("x", "a", 5, "CHAT", None, "");
    PaddedDigits(0);
    assert "a" + ":" + Padded(5) == "a:" + Padded(5);
    assert Since(0)[0] == Padded(0)[0] <= '9';
    RangeScanReturns(m, "a:" + Padded(5), 0);
  }

  /** And one where a newer message is missed, since its timestamp no longer fits the padding. */
  lemma SixteenDigitsAreMissed()
    ensures !Returned(Record("x", "t", 1_000_000_000_000_000, "CHAT", None, ""), "t", 999_999_999_999_999)
  {
    RangeScanReturns(Record("x", "t", 1_000_000_000_000_000, "CHAT", None, ""), "t", 999_999_999_999_999);
  }

  // ---- Recent messages ----

  ghost predicate IsChatLog(d: Data, topic: Topic, ms: seq<Record>) {
    && (forall i, j :: 0 <= i < j < |ms| ==> Before(ms[i], ms[j]))
    && forall m :: m in ms <==> Holds(d, m) && m.topic == topic && m.kind == "CHAT"
  }

  ghost predicate NoChatIntrudes(d: Data, topic: Topic) {
    forall m :: Holds(d, m) && m.kind == "CHAT" ==> !Intrudes(m, topic, "")
  }

  lemma ChatScanned(d: Data, topic: Topic, m: Record)
    requires IndexOk(d) && Holds(d, m)
    ensures InScan(Key(m), topic, "") <==> m.topic == topic || Intrudes(m, topic, "")
  {
    HeldIds(d, m);
    if m.topic == topic {
      OwnScanned(m, "");
    } else {
      OtherTopicScanned(m, topic, "");
      ForeignIff(m, topic, "");
    }
  }

  /** A scan for chat messages is the topic's chat log if and only if no stored chat message intrudes. */
  lemma ChatScanIsChatLogIff(d: Data, topic: Topic, ms: seq<Record>)
    requires IsChatScan(d, topic, ms) && Fits(d)
    ensures IsChatLog(d, topic, ms) <==> NoChatIntrudes(d, topic)
  {
    forall m | Holds(d, m) ensures InScan(Key(m), topic, "") <==> m.topic == topic || Intrudes(m, topic, "") {
      ChatScanned(d, topic, m);
    }
    forall m | Holds(d, m) ensures m.topic == topic ==> !Intrudes(m, topic, "") { NoOneIntrudesOnItself(m, ""); }
    if NoChatIntrudes(d, topic) {
      forall i, j | 0 <= i < j < |ms| ensures Before(ms[i], ms[j]) {
        assert ms[i] in ms && ms[j] in ms;
        SameTopicOrder(ms[i], ms[j]);
      }
    }
    hide IndexOk, Intrudes, InScan;
  }

  function LastOf<T>(s: seq<T>, n: nat): seq<T> { if n >= |s| then s else s[|s| - n..] }

  /** slice(-limit) is the last `limit` elements exactly if the limit is not zero or there are none. */
  lemma SliceIsLastIff<T>(s: seq<T>, limit: nat)
    ensures SliceFrom(s, 0 - limit) == LastOf(s, limit) <==> limit > 0 || s == []
  {
    if limit == 0 { assert |SliceFrom(s, 0 - limit)| == |s| && |LastOf(s, limit)| == 0; }
  }

  /** The messages of the topic among those of a scan. */
  function OwnOf(ms: seq<Record>, topic: Topic): seq<Record> {
    if ms == [] then []
    else
      var rest := OwnOf(ms[..|ms| - 1], topic);
      if ms[|ms| - 1].topic == topic then rest + [ms[|ms| - 1]] else rest
  }

  lemma {:induction false} OwnOfMeaning(ms: seq<Record>, topic: Topic)
    requires AscendingRecords(ms) && forall m :: m in ms ==> m.lamportTimestamp < PAD_LIMIT
    ensures forall m :: m in OwnOf(ms, topic) <==> m in ms && m.topic == topic
    ensures forall i, j :: 0 <= i < j < |OwnOf(ms, topic)| ==> Before(OwnOf(ms, topic)[i], OwnOf(ms, topic)[j])
  {
    if ms != [] {
      var n := |ms| - 1;
      var init, last := ms[..n], ms[n];
      assert ms == init + [last];
      OwnOfMeaning(init, topic);
      if last.topic == topic {
        var own := OwnOf(init, topic);
        forall i | 0 <= i < |own| ensures Before(own[i], last) {
          assert own[i] in own;
          BeforeLast(init, last, own[i]);
        }
      }
    }
  }

  lemma BeforeLast(init: seq<Record>, last: Record, m: Record)
    requires AscendingRecords(init + [last]) && m in init && m.topic == last.topic
    requires m.lamportTimestamp < PAD_LIMIT && last.lamportTimestamp < PAD_LIMIT
    ensures Before(m, last)
  {
    var ms := init + [last];
    var k :| 0 <= k < |init| && init[k] == m;
    assert Lt(Key(ms[k]), Key(ms[|init|]));
    SameTopicOrder(m, last);
  }

  lemma ChatLogOf(d: Data, topic: Topic, chats: seq<Record>)
    requires IsChatScan(d, topic, chats) && Fits(d)
    ensures IsChatLog(d, topic, OwnOf(chats, topic))
  {
    OwnOfMeaning(chats, topic);
    forall m | Holds(d, m) && m.topic == topic && IsChat(m) ensures m in chats { ChatScanned(d, topic, m); }
    hide IndexOk, InScan, Intrudes;
  }

  lemma {:induction false} AllOwn(ms: seq<Record>, topic: Topic)
    ensures OwnOf(ms, topic) == ms <==> forall m :: m in ms ==> m.topic == topic
    ensures |OwnOf(ms, topic)| <= |ms|
  {
    if ms != [] {
      var init, last := ms[..|ms| - 1], ms[|ms| - 1];
      assert ms == init + [last];
      AllOwn(init, topic);
    }
  }

  /** Recent messages, end to end: what is returned is, for every positive limit, the last `limit` messages of
      the topic's chat log, if and only if no stored chat message intrudes on the topic; and for limit 0 if and
      only if there is nothing to return. */
  lemma RecentAreLastIff(d: Data, topic: Topic, chats: seq<Record>)
    requires IsChatScan(d, topic, chats) && Fits(d)
    ensures (forall limit: nat :: limit > 0 ==> SliceFrom(chats, 0 - limit) == LastOf(OwnOf(chats, topic), limit)) <==> NoChatIntrudes(d, topic)
    ensures SliceFrom(chats, 0) == LastOf(OwnOf(chats, topic), 0) <==> chats == []
  {
    var log := OwnOf(chats, topic);
    ChatLogOf(d, topic, chats);
    ChatScanIsChatLogIff(d, topic, chats);
    AllOwn(chats, topic);
    if NoChatIntrudes(d, topic) {
      forall limit: nat | limit > 0 ensures SliceFrom(chats, 0 - limit) == LastOf(log, limit) { SliceIsLastIff(chats, limit); }
    }
    if forall limit: nat :: limit > 0 ==> SliceFrom(chats, 0 - limit) == LastOf(log, limit) {
      assert SliceFrom(chats, 0 - (|chats| + 1)) == LastOf(log, |chats| + 1);
      assert log == chats;
    }
  }

  /** The last `limit` chat messages of a topic. */
  method GetRecentMessages(store: MessageStore, topic: Topic, limit: int) returns (messages: seq<Record>)
    requires store.Valid()
    modifies store, store.db
    ensures store.Valid() && store.Contents() == Flushed(old(store.Contents()))
    ensures IndexOk(View(old(store.Contents()))) ==>
              exists chats :: IsChatScan(View(old(store.Contents())), topic, chats) && messages == SliceFrom(chats, 0 - limit)
                              && (limit == 0 ==> messages == chats)
                              && (limit > 0 ==> messages == LastOf(chats, limit))
                              && (limit < 0 ==> messages == if |chats| > 0 - limit then chats[0 - limit..] else [])
    ensures Fits(View(old(store.Contents()))) && NoChatIntrudes(View(old(store.Contents())), topic) && limit > 0 ==>
              exists log :: IsChatLog(View(old(store.Contents())), topic, log) && messages == LastOf(log, limit)
  {
    hide IndexOk, Fits, NoChatIntrudes, IsChatScan, IsChatLog;
    store.Flush();
    var keys := store.db.Iterator(TopicPrefix(topic) + "", TopicPrefix(topic) + "~");
    var chats := CollectMessages(store.db.data, keys, IsChat);
    ChatScanMeaning(store.db.data, topic, keys, chats);
    ChatsAreLog(store.db.data, topic, chats, limit);
    return SliceFrom(chats, 0 - limit);
  }

  lemma ChatsAreLog(d: Data, topic: Topic, chats: seq<Record>, limit: int)
    requires IndexOk(d) ==> IsChatScan(d, topic, chats)
    ensures Fits(d) ==> IndexOk(d)
    ensures Fits(d) && NoChatIntrudes(d, topic) && limit > 0 ==>
              IsChatLog(d, topic, chats) && SliceFrom(chats, 0 - limit) == LastOf(chats, limit)
  {
    if Fits(d) && NoChatIntrudes(d, topic) && limit > 0 {
      ChatScanIsChatLogIff(d, topic, chats);
      SliceIsLastIff(chats, limit);
    }
  }
}
