/** Token bucket with temporary bans, per peer. Tokens are exact reals and each call reads the clock once. */
module RateLimiting {
  import opened Common

  const BAN_THRESHOLD := 10
  const VIOLATION_WINDOW_MS := 60000
  const BAN_DURATION_MS := 300000

  datatype Rate = Rate(capacity: real, refillPerSec: real)

  ghost predicate ValidRate(rate: Rate) { rate.capacity >= 0.0 && rate.refillPerSec >= 0.0 }

  datatype Bucket = Bucket(tokens: real, lastRefill: int)

  /** All that the limiter knows about one peer. */
  datatype Account = Account(bucket: Option<Bucket>, violations: seq<int>, bannedUntil: Option<int>)

  datatype Verdict = Admitted | Blocked | Limited | Banning

  const FRESH := Account(None, [], None)

  // ---- One call ----

  /** Tokens accrued in `ms` milliseconds. */
  function Accrued(rate: Rate, ms: int): real { (ms as real / 1000.0) * rate.refillPerSec }

  function Min(a: real, b: real): real { if a <= b then a else b }

  function Refilled(rate: Rate, bucket: Option<Bucket>, now: int): Bucket {
    match bucket
    case None => Bucket(rate.capacity, now)
    case Some(b) =>
      if now > b.lastRefill then Bucket(Min(rate.capacity, b.tokens + Accrued(rate, now - b.lastRefill)), now) else b
  }

  /** The history without its leading entries older than the cutoff. */
  function Pruned(history: seq<int>, cutoff: int): seq<int> {
    if history != [] && history[0] < cutoff then Pruned(history[1..], cutoff) else history
  }

  predicate IsBanned(a: Account, now: int) { a.bannedUntil.Some? && now <= a.bannedUntil.value }

  function Refused(a: Account, b: Bucket, now: int): (Account, Verdict) {
    var history := Pruned(a.violations + [now], now - VIOLATION_WINDOW_MS);
    if |history| > BAN_THRESHOLD then (Account(Some(b), [], Some(now + BAN_DURATION_MS)), Banning)
    else (Account(Some(b), history, None), Limited)
  }

  function Check(rate: Rate, a: Account, now: int): (Account, Verdict) {
    if IsBanned(a, now) then (a, Blocked)
    else
      var b := Refilled(rate, a.bucket, now);
      if b.tokens >= 1.0 then (Account(Some(b.(tokens := b.tokens - 1.0)), a.violations, None), Admitted)
      else Refused(a, b, now)
  }

  // ---- Runs: the calls of one peer at the given clock readings ----

  ghost predicate Sorted(times: seq<int>) { forall i, j :: 0 <= i < j < |times| ==> times[i] <= times[j] }

  /** The account after the calls at these times. */
  function AfterFrom(rate: Rate, a: Account, times: seq<int>): Account {
    if times == [] then a
    else Check(rate, AfterFrom(rate, a, times[..|times| - 1]), times[|times| - 1]).0
  }

  function VerdictFrom(rate: Rate, a: Account, times: seq<int>, i: nat): Verdict
    requires i < |times|
  {
    Check(rate, AfterFrom(rate, a, times[..i]), times[i]).1
  }

  function After(rate: Rate, times: seq<int>): Account { AfterFrom(rate, FRESH, times) }

  function VerdictAt(rate: Rate, times: seq<int>, i: nat): Verdict
    requires i < |times|
  {
    Check(rate, After(rate, times[..i]), times[i]).1
  }

  /** The tokens that the bucket would hold at the given time. */
  function TokensAt(rate: Rate, a: Account, now: int): real { Refilled(rate, a.bucket, now).tokens }

  ghost predicate BucketOk(rate: Rate, a: Account, now: int) {
    a.bucket.Some? ==> 0.0 <= a.bucket.value.tokens <= rate.capacity && a.bucket.value.lastRefill <= now
  }

  lemma AccruedAdds(rate: Rate, a: int, b: int)
    ensures Accrued(rate, a + b) == Accrued(rate, a) + Accrued(rate, b)
    ensures Accrued(rate, 0) == 0.0
  {
    assert (a + b) as real / 1000.0 == a as real / 1000.0 + b as real / 1000.0;
  }

  lemma AccruedMonotone(rate: Rate, a: int, b: int)
    requires ValidRate(rate) && a <= b
    ensures Accrued(rate, a) <= Accrued(rate, b)
    ensures 0 <= a ==> Accrued(rate, a) >= 0.0
  {
    AccruedAdds(rate, a, b - a);
    assert Accrued(rate, b - a) >= 0.0;
  }

  /** The bucket fills no faster than the refill rate, and never over its capacity. */
  lemma RefillIsSlow(rate: Rate, a: Account, now: int, later: int)
    requires ValidRate(rate) && BucketOk(rate, a, now) && now <= later
    ensures TokensAt(rate, a, later) <= TokensAt(rate, a, now) + Accrued(rate, later - now)
    ensures 0.0 <= TokensAt(rate, a, later) <= rate.capacity
  {
    AccruedMonotone(rate, 0, later - now);
    if a.bucket.Some? {
      var last := a.bucket.value.lastRefill;
      AccruedAdds(rate, now - last, later - now);
      AccruedMonotone(rate, 0, now - last);
      AccruedMonotone(rate, 0, later - last);
    }
  }

  lemma CheckKeepsBucket(rate: Rate, a: Account, now: int, before: int)
    requires ValidRate(rate) && BucketOk(rate, a, before) && before <= now
    ensures BucketOk(rate, Check(rate, a, now).0, now)
    ensures TokensAt(rate, Check(rate, a, now).0, now)
            == TokensAt(rate, a, now) - if Check(rate, a, now).1.Admitted? then 1.0 else 0.0
  {
    RefillIsSlow(rate, a, before, now);
  }

  lemma {:induction false} RunKeepsBucket(rate: Rate, times: seq<int>)
    requires ValidRate(rate) && Sorted(times)
    ensures times != [] ==> BucketOk(rate, After(rate, times), times[|times| - 1])
    ensures times == [] ==> After(rate, times) == FRESH
  {
    if times != [] {
      var n := |times| - 1;
      RunKeepsBucket(rate, times[..n]);
      CheckKeepsBucket(rate, After(rate, times[..n]), times[n], if n == 0 then times[0] else times[n - 1]);
    }
  }

  // ---- The window bound ----

  /** The number of calls admitted at a time from `start` to `end`. */
  function AdmittedIn(rate: Rate, times: seq<int>, start: int, end: int): nat {
    if times == [] then 0
    else
      var n := |times| - 1;
      AdmittedIn(rate, times[..n], start, end)
      + if start <= times[n] <= end && VerdictAt(rate, times, n).Admitted? then 1 else 0
  }

  lemma {:induction false} NoneBefore(rate: Rate, times: seq<int>, start: int, end: int)
    requires forall i :: 0 <= i < |times| ==> times[i] < start
    ensures AdmittedIn(rate, times, start, end) == 0
  {
    if times != [] { NoneBefore(rate, times[..|times| - 1], start, end); }
  }

  /** What was admitted since `start`, plus what is left in the bucket, is covered by one full bucket and
      the tokens accrued since then. */
  lemma {:induction false} AdmittedPlusTokens(rate: Rate, times: seq<int>, start: int, end: int)
    requires ValidRate(rate) && Sorted(times) && times != [] && start <= times[|times| - 1] <= end
    ensures var last := times[|times| - 1];
            AdmittedIn(rate, times, start, end) as real + TokensAt(rate, After(rate, times), last)
            <= rate.capacity + Accrued(rate, last - start)
  {
    var n := |times| - 1;
    var prev, last := times[..n], times[n];
    RunKeepsBucket(rate, prev);
    AccruedMonotone(rate, 0, last - start);
    if n == 0 || times[n - 1] < start {
      NoneBefore(rate, prev, start, end);
      CheckKeepsBucket(rate, After(rate, prev), last, if n == 0 then last else times[n - 1]);
      RefillIsSlow(rate, After(rate, prev), if n == 0 then last else times[n - 1], last);
    } else {
      AdmittedPlusTokens(rate, prev, start, end);
      CheckKeepsBucket(rate, After(rate, prev), last, times[n - 1]);
      RefillIsSlow(rate, After(rate, prev), times[n - 1], last);
      AccruedAdds(rate, last - times[n - 1], times[n - 1] - start);
    }
  }

  lemma {:induction false} AdmittedInWindow(rate: Rate, times: seq<int>, start: int, end: int)
    requires ValidRate(rate) && Sorted(times) && start <= end
    ensures AdmittedIn(rate, times, start, end) as real <= rate.capacity + Accrued(rate, end - start)
  {
    AccruedMonotone(rate, 0, end - start);
    if times != [] {
      var n := |times| - 1;
      if times[n] > end {
        AdmittedInWindow(rate, times[..n], start, end);
      } else if times[n] < start {
        NoneBefore(rate, times, start, end);
      } else {
        AdmittedPlusTokens(rate, times, start, end);
        RunKeepsBucket(rate, times);
        RefillIsSlow(rate, After(rate, times), times[n], times[n]);
        AccruedMonotone(rate, times[n] - start, end - start);
      }
    }
  }

  /** Window bound: in every run and for all times start <= end, the calls admitted in [start, end] number
      at most capacity + refill rate * (end - start), bans included. */
  lemma WindowBound(rate: Rate, times: seq<int>, start: int, end: int)
    requires ValidRate(rate) && Sorted(times) && start <= end
    ensures AdmittedIn(rate, times, start, end) as real <= rate.capacity + (end - start) as real / 1000.0 * rate.refillPerSec
  {
    AdmittedInWindow(rate, times, start, end);
    hide AdmittedIn;
  }

  // ---- The exact balance, refusals included ----

  function Share(rate: Rate, times: seq<int>, i: int, j: int): real
    requires 0 <= i <= j < |times|
  {
    rate.capacity + Accrued(rate, times[j] - times[i])
  }

  /** How many of the calls from `i` up to but without `j` are admitted. */
  function AdmittedCount(rate: Rate, a: Account, times: seq<int>, i: int, j: int): nat
    requires 0 <= i <= j <= |times|
    decreases j
  {
    if i == j then 0 else AdmittedCount(rate, a, times, i, j - 1) + if VerdictFrom(rate, a, times, j - 1).Admitted? then 1 else 0
  }

  /** The bucket as the i-th call would see it at call j, had it been full then. */
  function Line(rate: Rate, a: Account, times: seq<int>, i: int, j: int): real
    requires 0 <= i <= j < |times|
  {
    Share(rate, times, i, j) - AdmittedCount(rate, a, times, i, j) as real
  }

  /** The same for the bucket as it was before the first call. */
  function FirstLine(rate: Rate, a: Account, times: seq<int>, j: int): real
    requires 0 <= j < |times|
  {
    TokensAt(rate, a, times[0]) + Accrued(rate, times[j] - times[0]) - AdmittedCount(rate, a, times, 0, j) as real
  }

  lemma PrefixVerdicts(rate: Rate, times: seq<int>, n: nat)
    requires n <= |times|
    ensures forall i :: 0 <= i < n ==> VerdictAt(rate, times[..n], i) == VerdictAt(rate, times, i)
  {
    forall i | 0 <= i < n ensures VerdictAt(rate, times[..n], i) == VerdictAt(rate, times, i) {
      assert times[..n][..i] == times[..i];
    }
  }

  /** What the j-th call finds. */
  function Found(rate: Rate, a: Account, times: seq<int>, j: int): real
    requires 0 <= j < |times|
  {
    TokensAt(rate, AfterFrom(rate, a, times[..j]), times[j])
  }

  /** The tokens found by the j-th call, after any calls, admitted, refused or turned away as banned, are the
      minimum of: what was in the bucket at first, refilled since, less the calls admitted since; and, over all
      later calls i up to j, a full bucket at i, refilled since, less the calls admitted since. In particular a
      refusal costs nothing, and a bucket goes on filling during a ban. */
  lemma {:induction false} ClosedFormFrom(rate: Rate, a: Account, times: seq<int>, j: nat)
    requires ValidRate(rate) && Sorted(times) && j < |times| && BucketOk(rate, a, times[0])
    ensures BucketOk(rate, AfterFrom(rate, a, times[..j]), times[j])
    ensures Found(rate, a, times, j) <= FirstLine(rate, a, times, j)
    ensures forall i :: 1 <= i <= j ==> Found(rate, a, times, j) <= Line(rate, a, times, i, j)
    ensures Found(rate, a, times, j) == FirstLine(rate, a, times, j)
            || exists i :: 1 <= i <= j && Found(rate, a, times, j) == Line(rate, a, times, i, j)
  {
    LineSteps(rate, a, times, j);
    if j == 0 {
      AccruedAdds(rate, 0, 0);
      assert times[..0] == [];
    } else {
      ClosedFormFrom(rate, a, times, j - 1);
      FirstLineSteps(rate, a, times, j);
      NextFound(rate, a, times, j);
      if Found(rate, a, times, j - 1) == FirstLine(rate, a, times, j - 1) {
        assert Found(rate, a, times, j) == FirstLine(rate, a, times, j) || Found(rate, a, times, j) == Line(rate, a, times, j, j);
      } else {
        var i :| 1 <= i <= j - 1 && Found(rate, a, times, j - 1) == Line(rate, a, times, i, j - 1);
        var k := if Line(rate, a, times, i, j) < rate.capacity then i else j;
        assert Found(rate, a, times, j) == Line(rate, a, times, k, j);
      }
    }
  }

  /** What the verdict of call `j` costs. */
  function Cost(rate: Rate, a: Account, times: seq<int>, j: nat): real
    requires j < |times|
  {
    if VerdictFrom(rate, a, times, j).Admitted? then 1.0 else 0.0
  }

  lemma FirstLineSteps(rate: Rate, a: Account, times: seq<int>, j: nat)
    requires 0 < j < |times|
    ensures FirstLine(rate, a, times, j)
            == FirstLine(rate, a, times, j - 1) - Cost(rate, a, times, j - 1) + Accrued(rate, times[j] - times[j - 1])
  {
    AccruedAdds(rate, times[j - 1] - times[0], times[j] - times[j - 1]);
  }

  lemma NextFound(rate: Rate, a: Account, times: seq<int>, j: nat)
    requires ValidRate(rate) && Sorted(times) && 0 < j < |times|
    requires BucketOk(rate, AfterFrom(rate, a, times[..j - 1]), times[j - 1])
    ensures BucketOk(rate, AfterFrom(rate, a, times[..j]), times[j])
    ensures Found(rate, a, times, j)
            == Min(rate.capacity, Found(rate, a, times, j - 1) - Cost(rate, a, times, j - 1) + Accrued(rate, times[j] - times[j - 1]))
  {
    var b, c := AfterFrom(rate, a, times[..j - 1]), AfterFrom(rate, a, times[..j]);
    assert times[..j][..j - 1] == times[..j - 1];
    CheckKeepsBucket(rate, b, times[j - 1], times[j - 1]);
    ExactRefill(rate, c, times[j - 1], times[j]);
  }

  lemma LineSteps(rate: Rate, a: Account, times: seq<int>, j: nat)
    requires j < |times|
    ensures Line(rate, a, times, j, j) == rate.capacity
    ensures forall i :: 0 <= i < j ==>
              Line(rate, a, times, i, j) == Line(rate, a, times, i, j - 1) - Cost(rate, a, times, j - 1) + Accrued(rate, times[j] - times[j - 1])
  {
    AccruedAdds(rate, 0, 0);
    hide Accrued, VerdictFrom;
    forall i | 0 <= i < j
      ensures Line(rate, a, times, i, j) == Line(rate, a, times, i, j - 1) - Cost(rate, a, times, j - 1) + Accrued(rate, times[j] - times[j - 1])
    {
      AccruedAdds(rate, times[j - 1] - times[i], times[j] - times[j - 1]);
    }
  }

  /** A bucket fills up at the refill rate, in one go or with calls in between. */
  lemma ExactRefill(rate: Rate, a: Account, now: int, later: int)
    requires ValidRate(rate) && BucketOk(rate, a, now) && now <= later
    ensures TokensAt(rate, a, later) == Min(rate.capacity, TokensAt(rate, a, now) + Accrued(rate, later - now))
  {
    AccruedAdds(rate, 0, 0);
    AccruedMonotone(rate, 0, later - now);
    if a.bucket.Some? {
      var last := a.bucket.value.lastRefill;
      AccruedAdds(rate, now - last, later - now);
      AccruedMonotone(rate, 0, now - last);
    }
  }

  /** For a new peer the bucket is full at first: whatever became of its calls, the tokens that call j finds are the
      minimum over all calls i up to j of a full bucket at i, refilled since, less the calls admitted since. */
  lemma ClosedForm(rate: Rate, times: seq<int>, j: nat)
    requires ValidRate(rate) && Sorted(times) && j < |times|
    ensures forall i :: 0 <= i <= j ==> TokensAt(rate, After(rate, times[..j]), times[j]) <= Line(rate, FRESH, times, i, j)
    ensures exists i :: 0 <= i <= j && TokensAt(rate, After(rate, times[..j]), times[j]) == Line(rate, FRESH, times, i, j)
  {
    ClosedFormFrom(rate, FRESH, times, j);
    hide Accrued, AdmittedCount;
    assert FirstLine(rate, FRESH, times, j) == Line(rate, FRESH, times, 0, j);
    assert Found(rate, FRESH, times, j) == TokensAt(rate, After(rate, times[..j]), times[j]);
  }

  // ---- Completeness ----

  ghost predicate AllAdmitted(rate: Rate, times: seq<int>) {
    forall i :: 0 <= i < |times| ==> VerdictAt(rate, times, i).Admitted?
  }

  /** In every window the calls keep to one bucket plus the refill. */
  ghost predicate Conforming(rate: Rate, times: seq<int>) {
    forall i, j :: 0 <= i <= j < |times| ==> (j - i + 1) as real <= Share(rate, times, i, j)
  }

  ghost predicate AdmittedFrom(rate: Rate, a: Account, times: seq<int>, n: int) {
    forall i :: 0 <= i < n && i < |times| ==> VerdictFrom(rate, a, times, i).Admitted?
  }

  lemma {:induction false} AllCounted(rate: Rate, a: Account, times: seq<int>, i: int, j: int)
    requires 0 <= i <= j <= |times| && AdmittedFrom(rate, a, times, j)
    ensures AdmittedCount(rate, a, times, i, j) == j - i
    decreases j
  {
    if i < j { AllCounted(rate, a, times, i, j - 1); }
  }

  /** A peer whose last call was admitted is not banned. */
  lemma AdmittedIsNotBanned(rate: Rate, a: Account, times: seq<int>, j: nat)
    requires j < |times| && !IsBanned(a, times[0]) && AdmittedFrom(rate, a, times, j)
    ensures !IsBanned(AfterFrom(rate, a, times[..j]), times[j])
  {
    if j == 0 {
      assert times[..0] == [];
    } else {
      assert times[..j][..j - 1] == times[..j - 1];
      assert VerdictFrom(rate, a, times, j - 1).Admitted?;
      CheckEffect(rate, AfterFrom(rate, a, times[..j - 1]), times[j - 1]);
    }
  }

  /** All calls are admitted exactly if the peer is not banned at first, the calls so far never exceed the first
      balance plus the refill, and the calls in no later window exceed the capacity plus the refill. */
  lemma AdmittedFromIff(rate: Rate, a: Account, times: seq<int>)
    requires ValidRate(rate) && Sorted(times) && times != [] && BucketOk(rate, a, times[0])
    ensures AdmittedFrom(rate, a, times, |times|) <==> !IsBanned(a, times[0]) && Affordable(rate, a, times)
  {
    if AdmittedFrom(rate, a, times, |times|) {
      assert times[..0] == [];
      assert VerdictFrom(rate, a, times, 0).Admitted?;
      forall j | 0 <= j < |times| ensures AffordableAt(rate, a, times, j) {
        ClosedFormFrom(rate, a, times, j);
        assert VerdictFrom(rate, a, times, j).Admitted?;
        assert 1.0 <= Found(rate, a, times, j);
        AllCounted(rate, a, times, 0, j);
        forall i | 1 <= i <= j ensures (j - i + 1) as real <= Share(rate, times, i, j) {
          AllCounted(rate, a, times, i, j);
          assert 1.0 <= Found(rate, a, times, j) <= Line(rate, a, times, i, j);
        }
      }
    }
    if !IsBanned(a, times[0]) && Affordable(rate, a, times) { AffordableAdmitted(rate, a, times, |times|); }
  }

  ghost predicate AffordableAt(rate: Rate, a: Account, times: seq<int>, j: int)
    requires 0 <= j < |times|
  {
    && (j + 1) as real <= TokensAt(rate, a, times[0]) + Accrued(rate, times[j] - times[0])
    && forall i :: 1 <= i <= j ==> (j - i + 1) as real <= Share(rate, times, i, j)
  }

  ghost predicate Affordable(rate: Rate, a: Account, times: seq<int>) {
    forall j :: 0 <= j < |times| ==> AffordableAt(rate, a, times, j)
  }

  lemma AffordableMeans(rate: Rate, a: Account, times: seq<int>)
    requires times != []
    ensures Affordable(rate, a, times) <==>
            && (forall k :: 0 <= k < |times| ==> (k + 1) as real <= TokensAt(rate, a, times[0]) + Accrued(rate, times[k] - times[0]))
            && (forall j, k :: 1 <= j <= k < |times| ==> (k - j + 1) as real <= rate.capacity + Accrued(rate, times[k] - times[j]))
  {
    hide TokensAt, Accrued;
    if Affordable(rate, a, times) {
      forall k | 0 <= k < |times| ensures (k + 1) as real <= TokensAt(rate, a, times[0]) + Accrued(rate, times[k] - times[0]) {
        assert AffordableAt(rate, a, times, k);
      }
      forall j, k | 1 <= j <= k < |times| ensures (k - j + 1) as real <= rate.capacity + Accrued(rate, times[k] - times[j]) {
        assert AffordableAt(rate, a, times, k);
        assert (k - j + 1) as real <= Share(rate, times, j, k);
      }
    }
  }

  lemma {:induction false} AffordableAdmitted(rate: Rate, a: Account, times: seq<int>, n: nat)
    requires ValidRate(rate) && Sorted(times) && times != [] && BucketOk(rate, a, times[0]) && n <= |times|
    requires !IsBanned(a, times[0]) && Affordable(rate, a, times)
    ensures AdmittedFrom(rate, a, times, n)
  {
    if n > 0 {
      var j := n - 1;
      AffordableAdmitted(rate, a, times, j);
      ClosedFormFrom(rate, a, times, j);
      AdmittedIsNotBanned(rate, a, times, j);
      assert AffordableAt(rate, a, times, j);
      AllCounted(rate, a, times, 0, j);
      if Found(rate, a, times, j) != FirstLine(rate, a, times, j) {
        var i :| 1 <= i <= j && Found(rate, a, times, j) == Line(rate, a, times, i, j);
        AllCounted(rate, a, times, i, j);
      }
      assert Found(rate, a, times, j) >= 1.0;
      assert VerdictFrom(rate, a, times, j).Admitted?;
    }
  }

  /** Completeness: a peer is never refused, and so never banned, exactly if its calls in every window
      number at most capacity + refill rate * window length. */
  lemma NeverRefusedIffConforming(rate: Rate, times: seq<int>)
    requires ValidRate(rate) && Sorted(times)
    ensures AllAdmitted(rate, times) <==> Conforming(rate, times)
  {
    if times != [] {
      AdmittedFromIff(rate, FRESH, times);
      AffordableMeans(rate, FRESH, times);
      FreshVerdicts(rate, times);
      assert Affordable(rate, FRESH, times) <==> Conforming(rate, times) by { FreshAffordable(rate, times); }
    }
  }

  lemma FreshVerdicts(rate: Rate, times: seq<int>)
    ensures AllAdmitted(rate, times) <==> AdmittedFrom(rate, FRESH, times, |times|)
  {
    assert forall i :: 0 <= i < |times| ==> VerdictAt(rate, times, i) == VerdictFrom(rate, FRESH, times, i);
  }

  lemma FreshAffordable(rate: Rate, times: seq<int>)
    requires times != []
    ensures Affordable(rate, FRESH, times) <==> Conforming(rate, times)
  {
    hide Accrued;
    assert TokensAt(rate, FRESH, times[0]) == rate.capacity;
    if Affordable(rate, FRESH, times) {
      forall i, j | 0 <= i <= j < |times| ensures (j - i + 1) as real <= Share(rate, times, i, j) {
        assert AffordableAt(rate, FRESH, times, j);
      }
    } else {
      var j :| 0 <= j < |times| && !AffordableAt(rate, FRESH, times, j);
      assert (j - 0 + 1) as real <= Share(rate, times, 0, j) ==> exists i :: 1 <= i <= j && (j - i + 1) as real > Share(rate, times, i, j);
    }
  }

  // ---- Bans ----

  /** The times of the refusals by the bucket since the last ban. */
  function RefusalsSinceBan(rate: Rate, times: seq<int>): seq<int> {
    if times == [] then []
    else
      var n := |times| - 1;
      match VerdictAt(rate, times, n)
      case Banning => []
      case Limited => RefusalsSinceBan(rate, times[..n]) + [times[n]]
      case _ => RefusalsSinceBan(rate, times[..n])
  }

  function Within(history: seq<int>, cutoff: int): seq<int> {
    if history == [] then []
    else (if history[0] >= cutoff then [history[0]] else []) + Within(history[1..], cutoff)
  }

  lemma {:induction false} PrunedIsWithin(h: seq<int>, cutoff: int)
    requires Sorted(h)
    ensures Pruned(h, cutoff) == Within(h, cutoff)
  {
    if h != [] {
      PrunedIsWithin(h[1..], cutoff);
      if h[0] >= cutoff { WithinAll(h, cutoff); }
    }
  }

  lemma {:induction false} WithinAll(h: seq<int>, cutoff: int)
    requires forall i :: 0 <= i < |h| ==> h[i] >= cutoff
    ensures Within(h, cutoff) == h
  {
    if h != [] { WithinAll(h[1..], cutoff); }
  }

  lemma {:induction false} WithinTwice(h: seq<int>, c1: int, c2: int)
    requires c1 <= c2
    ensures Within(Within(h, c1), c2) == Within(h, c2)
  {
    if h != [] {
      WithinTwice(h[1..], c1, c2);
      WithinAppend(if h[0] >= c1 then [h[0]] else [], Within(h[1..], c1), c2);
    }
  }

  lemma WithinStep(h: seq<int>, cutoff: int)
    requires h != []
    ensures Within(h, cutoff) == (if h[0] >= cutoff then [h[0]] else []) + Within(h[1..], cutoff)
  {
  }

  lemma {:induction false} WithinAppend(g: seq<int>, h: seq<int>, cutoff: int)
    ensures Within(g + h, cutoff) == Within(g, cutoff) + Within(h, cutoff)
  {
    if g == [] {
      assert g + h == h;
    } else {
      WithinAppend(g[1..], h, cutoff);
      assert (g + h)[1..] == g[1..] + h && (g + h)[0] == g[0];
      WithinStep(g, cutoff);
      WithinStep(g + h, cutoff);
      hide Within;
      var head := if g[0] >= cutoff then [g[0]] else [];
      assert head + (Within(g[1..], cutoff) + Within(h, cutoff)) == (head + Within(g[1..], cutoff)) + Within(h, cutoff);
    }
  }

  lemma {:induction false} WithinBounds(h: seq<int>, cutoff: int, hi: int)
    requires Sorted(h) && forall i :: 0 <= i < |h| ==> h[i] <= hi
    ensures Sorted(Within(h, cutoff)) && forall i :: 0 <= i < |Within(h, cutoff)| ==> cutoff <= Within(h, cutoff)[i] <= hi
    ensures |Within(h, cutoff)| <= |h|
  {
    if h != [] {
      WithinBounds(h[1..], cutoff, hi);
      if h[0] >= cutoff { WithinAll(h, cutoff); }
    }
  }

  /** The stored history is the refusals since the last ban, from some cutoff on that lies at least
      a window back. */
  ghost predicate HistoryOk(rate: Rate, times: seq<int>, cutoff: int) {
    var a, since := After(rate, times), RefusalsSinceBan(rate, times);
    && a.violations == Within(since, cutoff)
    && Sorted(since) && Sorted(a.violations) && |a.violations| <= BAN_THRESHOLD
    && (times == [] ==> since == [])
    && (times != [] ==>
          && cutoff <= times[|times| - 1] - VIOLATION_WINDOW_MS
          && forall i :: 0 <= i < |since| ==> since[i] <= times[|times| - 1])
  }

  lemma {:induction false} HistoryAlwaysOk(rate: Rate, times: seq<int>)
    requires Sorted(times)
    ensures exists cutoff :: HistoryOk(rate, times, cutoff)
  {
    if times == [] {
      assert HistoryOk(rate, times, 0);
    } else {
      var n := |times| - 1;
      HistoryAlwaysOk(rate, times[..n]);
      var c :| HistoryOk(rate, times[..n], c);
      if VerdictAt(rate, times, n).Limited? {
        RefusalKeepsHistory(rate, times, c);
      } else {
        OtherKeepsHistory(rate, times, c);
      }
    }
  }

  lemma RefusalKeepsHistory(rate: Rate, times: seq<int>, c: int)
    requires Sorted(times) && times != [] && HistoryOk(rate, times[..|times| - 1], c)
    requires VerdictAt(rate, times, |times| - 1).Limited?
    ensures HistoryOk(rate, times, times[|times| - 1] - VIOLATION_WINDOW_MS)
  {
    CheckEffect(rate, After(rate, times[..|times| - 1]), times[|times| - 1]);
    hide Check;
    RefusalHistory(rate, times, c);
  }

  lemma OtherKeepsHistory(rate: Rate, times: seq<int>, c: int)
    requires Sorted(times) && times != [] && HistoryOk(rate, times[..|times| - 1], c)
    requires !VerdictAt(rate, times, |times| - 1).Limited?
    ensures exists cutoff :: HistoryOk(rate, times, cutoff)
  {
    var n := |times| - 1;
    CheckEffect(rate, After(rate, times[..n]), times[n]);
    hide Check;
    if n == 0 || VerdictAt(rate, times, n).Banning? {
      assert HistoryOk(rate, times, times[n] - VIOLATION_WINDOW_MS);
    } else {
      assert HistoryOk(rate, times, c);
    }
  }

  /** What a call does to history and ban, by verdict. */
  lemma CheckEffect(rate: Rate, a: Account, now: int)
    ensures var (b, v) := Check(rate, a, now);
            match v
            case Admitted => b.violations == a.violations && b.bannedUntil.None? && !IsBanned(a, now)
            case Blocked => b == a && IsBanned(a, now)
            case Limited =>
              b.violations == Pruned(a.violations + [now], now - VIOLATION_WINDOW_MS) && |b.violations| <= BAN_THRESHOLD
              && b.bannedUntil.None? && !IsBanned(a, now)
            case Banning =>
              |Pruned(a.violations + [now], now - VIOLATION_WINDOW_MS)| > BAN_THRESHOLD
              && b.violations == [] && b.bannedUntil == Some(now + BAN_DURATION_MS) && !IsBanned(a, now)
  {
  }

  /** What pruning leaves at a refusal: the refusals since the last ban within the window. */
  lemma RefusalHistory(rate: Rate, times: seq<int>, c: int)
    requires Sorted(times) && times != [] && HistoryOk(rate, times[..|times| - 1], c)
    ensures var n := |times| - 1;
            var cutoff, since := times[n] - VIOLATION_WINDOW_MS, RefusalsSinceBan(rate, times[..n]);
            var h := Pruned(After(rate, times[..n]).violations + [times[n]], cutoff);
            && h == Within(since, cutoff) + [times[n]] && h == Within(since + [times[n]], cutoff)
            && Sorted(h) && Sorted(since + [times[n]])
  {
    var n := |times| - 1;
    var since, cutoff := RefusalsSinceBan(rate, times[..n]), times[n] - VIOLATION_WINDOW_MS;
    HistoryAtRefusal(since, c, cutoff, After(rate, times[..n]).violations, times[n]);
  }

  lemma HistoryAtRefusal(since: seq<int>, c: int, cutoff: int, v: seq<int>, now: int)
    requires v == Within(since, c) && Sorted(since) && Sorted(v) && cutoff <= now
    requires since != [] ==> c <= cutoff
    requires forall i :: 0 <= i < |since| ==> since[i] <= now
    ensures var h := Pruned(v + [now], cutoff);
            && h == Within(since, cutoff) + [now] && h == Within(since + [now], cutoff)
            && Sorted(h) && Sorted(since + [now])
  {
    if since != [] { WithinTwice(since, c, cutoff); }
    WithinBounds(since, c, now);
    WithinBounds(since, cutoff, now);
    SortedSnoc(v, now);
    SortedSnoc(since, now);
    SortedSnoc(Within(since, cutoff), now);
    PrunedIsWithin(v + [now], cutoff);
    WithinAppend(v, [now], cutoff);
    WithinAppend(since, [now], cutoff);
    assert Within([now], cutoff) == [now];
  }

  lemma SortedSnoc(h: seq<int>, now: int)
    requires Sorted(h) && forall i :: 0 <= i < |h| ==> h[i] <= now
    ensures Sorted(h + [now])
  {
  }

  /** Ban machine: a refusal bans exactly if it is the 11th within the last 60 seconds since the last
      ban; between calls at most 10 violations are stored, in order. A ban lasts five minutes. */
  lemma BanExactlyAtEleventh(rate: Rate, times: seq<int>, i: nat)
    requires Sorted(times) && i < |times|
    ensures VerdictAt(rate, times, i).Limited? || VerdictAt(rate, times, i).Banning? ==>
              (VerdictAt(rate, times, i).Banning? <==>
               |Within(RefusalsSinceBan(rate, times[..i]), times[i] - 60000)| >= 10)
    ensures |After(rate, times[..i]).violations| <= 10 && Sorted(After(rate, times[..i]).violations)
  {
    HistoryAlwaysOk(rate, times[..i]);
    var c :| HistoryOk(rate, times[..i], c);
    assert times[..i + 1][..i] == times[..i];
    RefusalHistory(rate, times[..i + 1], c);
    LengthDecides(rate, After(rate, times[..i]), times[i], Within(RefusalsSinceBan(rate, times[..i]), times[i] - 60000));
    hide Check, After, RefusalsSinceBan, Within, Pruned;
  }

  lemma LengthDecides(rate: Rate, a: Account, now: int, recent: seq<int>)
    requires Pruned(a.violations + [now], now - VIOLATION_WINDOW_MS) == recent + [now]
    ensures var v := Check(rate, a, now).1; v.Limited? || v.Banning? ==> (v.Banning? <==> |recent| >= 10)
  {
    CheckEffect(rate, a, now);
    hide Check;
  }

  /** The calls that banned the peer. */
  ghost function Bans(rate: Rate, times: seq<int>): set<int> {
    set i | 0 <= i < |times| && VerdictAt(rate, times, i).Banning?
  }

  /** A pending ban stems from a banning call, and outlasts every ban that is not over. */
  ghost predicate BanOk(times: seq<int>, bans: set<int>, bannedUntil: Option<int>) {
    && (forall k :: k in bans ==> 0 <= k < |times|)
    && (bannedUntil.Some? ==> exists i :: i in bans && bannedUntil.value == times[i] + BAN_DURATION_MS)
    && (forall k :: k in bans ==>
          (bannedUntil.Some? && bannedUntil.value >= times[k] + BAN_DURATION_MS)
          || times[|times| - 1] > times[k] + BAN_DURATION_MS)
  }

  lemma {:induction false} BanAlwaysOk(rate: Rate, times: seq<int>)
    requires Sorted(times)
    ensures BanOk(times, Bans(rate, times), After(rate, times).bannedUntil)
  {
    if times != [] {
      var n := |times| - 1;
      BanAlwaysOk(rate, times[..n]);
      PrefixVerdicts(rate, times, n);
      var v := VerdictAt(rate, times, n);
      assert Bans(rate, times) == Bans(rate, times[..n]) + if v.Banning? then {n} else {};
      CheckEffect(rate, After(rate, times[..n]), times[n]);
      NextBanOk(times, Bans(rate, times[..n]), After(rate, times[..n]).bannedUntil, v, After(rate, times).bannedUntil);
    }
  }

  lemma NextBanOk(times: seq<int>, bans: set<int>, before: Option<int>, v: Verdict, after: Option<int>)
    requires Sorted(times) && times != [] && BanOk(times[..|times| - 1], bans, before)
    requires var now := times[|times| - 1];
             match v
             case Banning => after == Some(now + BAN_DURATION_MS)
             case Blocked => after == before
             case _ => after.None? && !(before.Some? && now <= before.value)
    ensures BanOk(times, bans + if v.Banning? then {|times| - 1} else {}, after)
  {
    var n := |times| - 1;
    if v.Banning? {
      assert n in bans + {n};
    } else if after.Some? {
      var i :| i in bans && before.value == times[..n][i] + BAN_DURATION_MS;
      assert times[..n][i] == times[i];
    }
  }

  /** A call is turned away as banned exactly if some earlier call banned the peer and its five minutes
      are not over; in particular nothing is admitted until strictly after the expiry. */
  lemma BlockedExactlyWhileBanned(rate: Rate, times: seq<int>, j: nat)
    requires Sorted(times) && j < |times|
    ensures VerdictAt(rate, times, j).Blocked? <==>
            exists i :: 0 <= i < j && VerdictAt(rate, times, i).Banning? && times[j] <= times[i] + 300000
  {
    BanAlwaysOk(rate, times[..j]);
    PrefixVerdicts(rate, times, j);
    CheckEffect(rate, After(rate, times[..j]), times[j]);
    hide Check;
    assert forall i :: i in Bans(rate, times[..j]) <==> 0 <= i < j && VerdictAt(rate, times, i).Banning?;
  }

  // ---- Every verdict ----

  /** The refusals before call `j` since the last ban that are no more than 60 seconds old. */
  ghost function RecentRefusals(rate: Rate, times: seq<int>, n: nat, cutoff: int): set<int>
    requires n <= |times|
  {
    set k | 0 <= k < n && VerdictAt(rate, times, k).Limited? && times[k] >= cutoff
            && forall l :: k < l < n ==> !VerdictAt(rate, times, l).Banning?
  }

  lemma {:induction false} RefusalsCount(rate: Rate, times: seq<int>, n: nat, cutoff: int)
    requires n <= |times|
    ensures |Within(RefusalsSinceBan(rate, times[..n]), cutoff)| == |RecentRefusals(rate, times, n, cutoff)|
  {
    hide VerdictAt, Within;
    if n == 0 {
      assert RecentRefusals(rate, times, n, cutoff) == {} && Within([], cutoff) == [] by { WithinAll([], cutoff); }
    } else {
      RefusalsCount(rate, times, n - 1, cutoff);
      PrefixVerdicts(rate, times, n);
      assert times[..n][..n - 1] == times[..n - 1];
      OneMoreRefusal(rate, times, n, cutoff);
      if VerdictAt(rate, times, n - 1).Limited? {
        WithinAppend(RefusalsSinceBan(rate, times[..n - 1]), [times[n - 1]], cutoff);
        WithinOne(times[n - 1], cutoff);
      } else if VerdictAt(rate, times, n - 1).Banning? {
        WithinAll([], cutoff);
      }
    }
  }

  lemma WithinOne(t: int, cutoff: int)
    ensures Within([t], cutoff) == if t >= cutoff then [t] else []
  {
  }

  lemma OneMoreRefusal(rate: Rate, times: seq<int>, n: nat, cutoff: int)
    requires 0 < n <= |times|
    ensures RecentRefusals(rate, times, n, cutoff) ==
            match VerdictAt(rate, times, n - 1)
            case Banning => {}
            case Limited => RecentRefusals(rate, times, n - 1, cutoff) + if times[n - 1] >= cutoff then {n - 1} else {}
            case _ => RecentRefusals(rate, times, n - 1, cutoff)
    ensures n - 1 !in RecentRefusals(rate, times, n - 1, cutoff)
  {
    hide VerdictAt;
    if VerdictAt(rate, times, n - 1).Banning? {
      forall k | 0 <= k < n ensures k !in RecentRefusals(rate, times, n, cutoff) {
        if k < n - 1 { assert k < n - 1 < n; }
      }
    } else {
      forall k | 0 <= k < n - 1 ensures k in RecentRefusals(rate, times, n, cutoff) <==> k in RecentRefusals(rate, times, n - 1, cutoff) {
      }
    }
  }

  /** From call `i` on, the calls admitted and call `j` keep to the capacity and the refill. */
  predicate CoveredFrom(rate: Rate, times: seq<int>, i: int, j: int)
    requires 0 <= i <= j < |times|
  {
    AdmittedCount(rate, FRESH, times, i, j) as real + 1.0 <= rate.capacity + (times[j] - times[i]) as real / 1000.0 * rate.refillPerSec
  }

  ghost predicate Covered(rate: Rate, times: seq<int>, j: nat)
    requires j < |times|
  {
    forall i :: 0 <= i <= j ==> CoveredFrom(rate, times, i, j)
  }

  /** Some call of the last five minutes banned the peer. */
  ghost predicate BannedLately(rate: Rate, times: seq<int>, j: nat)
    requires j < |times|
  {
    exists i :: 0 <= i < j && VerdictAt(rate, times, i).Banning? && times[j] <= times[i] + 300000
  }

  /** Every verdict of every run, from the verdicts before it: a call is turned away as banned exactly while one of
      the last five minutes' calls banned the peer; any other is admitted exactly if, from every earlier call on, the
      calls admitted and itself keep to the capacity and the refill; and if it is not, it bans the peer exactly if
      there were ten refusals before it within 60 seconds since the last ban. */
  lemma VerdictExactly(rate: Rate, times: seq<int>, j: nat)
    requires ValidRate(rate) && Sorted(times) && j < |times|
    ensures var v := VerdictAt(rate, times, j);
            && (v.Blocked? <==> BannedLately(rate, times, j))
            && (v.Admitted? <==> !BannedLately(rate, times, j) && Covered(rate, times, j))
            && (v.Banning? <==> !BannedLately(rate, times, j) && !Covered(rate, times, j)
                                && |RecentRefusals(rate, times, j, times[j] - 60000)| >= 10)
  {
    BlockedExactlyWhileBanned(rate, times, j);
    BanExactlyAtEleventh(rate, times, j);
    RefusalsCount(rate, times, j, times[j] - 60000);
    CoveredIffTokens(rate, times, j);
    hide Covered, RecentRefusals, Within, RefusalsSinceBan, After, Refused, TokensAt;
  }

  lemma CoveredIffTokens(rate: Rate, times: seq<int>, j: nat)
    requires ValidRate(rate) && Sorted(times) && j < |times|
    ensures TokensAt(rate, After(rate, times[..j]), times[j]) >= 1.0 <==> Covered(rate, times, j)
  {
    ClosedForm(rate, times, j);
    var i :| 0 <= i <= j && TokensAt(rate, After(rate, times[..j]), times[j]) == Line(rate, FRESH, times, i, j);
    forall k | 0 <= k <= j ensures Line(rate, FRESH, times, k, j) >= 1.0 <==> CoveredFrom(rate, times, k, j) {
      CoveredIffLine(rate, times, k, j);
    }
    hide Line, TokensAt, CoveredFrom;
  }

  lemma CoveredIffLine(rate: Rate, times: seq<int>, i: int, j: int)
    requires 0 <= i <= j < |times|
    ensures Line(rate, FRESH, times, i, j) >= 1.0 <==> CoveredFrom(rate, times, i, j)
  {
    ShareIs(rate, times, i, j);
    hide Share, AdmittedCount, Accrued;
  }

  lemma ShareIs(rate: Rate, times: seq<int>, i: int, j: int)
    requires 0 <= i <= j < |times|
    ensures Share(rate, times, i, j) == rate.capacity + (times[j] - times[i]) as real / 1000.0 * rate.refillPerSec
  {
  }

  // ---- The limiter object ----

  class RateLimiter {
    const rate: Rate
    var buckets: map<Peer, Bucket>
    var violations: map<Peer, seq<int>>
    var bannedPeers: map<Peer, int>

    constructor (capacity: real, refillRate: real)
      ensures rate == Rate(capacity, refillRate)
      ensures forall p :: AccountOf(p) == FRESH
    {
      rate := Rate(capacity, refillRate);
      buckets, violations, bannedPeers := map[], map[], map[];
    }

    function AccountOf(peer: Peer): Account
      reads this
    {
      Account(if peer in buckets then Some(buckets[peer]) else None,
              if peer in violations then violations[peer] else [],
              if peer in bannedPeers then Some(bannedPeers[peer]) else None)
    }

    method Refill(peerId: Peer, now: int)
      modifies this`buckets
      ensures buckets == old(buckets)[peerId := Refilled(rate, old(AccountOf(peerId)).bucket, now)]
      ensures old(peerId !in buckets) ==> buckets[peerId] == Bucket(rate.capacity, now)
      ensures old(peerId in buckets && now <= buckets[peerId].lastRefill) ==> buckets == old(buckets)
    {
      if peerId !in buckets {
        buckets := buckets[peerId := Bucket(rate.capacity, now)];
        return;
      }
      var bucket := buckets[peerId];
      if now - bucket.lastRefill > 0 {
        var tokensToAdd := ((now - bucket.lastRefill) as real / 1000.0) * rate.refillPerSec;
        bucket := Bucket(Min(rate.capacity, bucket.tokens + tokensToAdd), now);
      }
      buckets := buckets[peerId := bucket];
    }

    /** Whether the peer may send a message now; no other peer is affected. */
    method CheckLimit(peerId: Peer, now: int) returns (allowed: bool)
      modifies this
      ensures AccountOf(peerId) == Check(rate, old(AccountOf(peerId)), now).0
      ensures allowed <==> Check(rate, old(AccountOf(peerId)), now).1.Admitted?
      ensures forall p :: p != peerId ==> AccountOf(p) == old(AccountOf(p))
      ensures var before, after := old(AccountOf(peerId)).bannedUntil, AccountOf(peerId).bannedUntil;
              && (before.Some? && now <= before.value ==> !allowed && AccountOf(peerId) == old(AccountOf(peerId)))
              && (after.Some? && after != before ==> !allowed && after == Some(now + 300000))
    {
      if peerId in bannedPeers {
        if now > bannedPeers[peerId] {
          bannedPeers := bannedPeers - {peerId};
        } else {
          return false;
        }
      }
      Refill(peerId, now);
      var bucket := buckets[peerId];
      if bucket.tokens >= 1.0 {
        buckets := buckets[peerId := bucket.(tokens := bucket.tokens - 1.0)];
        return true;
      }
      RecordViolation(peerId, now);
      return false;
    }

    method RecordViolation(peerId: Peer, timestamp: int)
      requires peerId in buckets && peerId !in bannedPeers
      modifies this`violations, this`bannedPeers
      ensures AccountOf(peerId) == Refused(old(AccountOf(peerId)), buckets[peerId], timestamp).0
      ensures forall p :: p != peerId ==> AccountOf(p) == old(AccountOf(p))
    {
      if peerId !in violations {
        violations := violations[peerId := []];
      }
      var history := violations[peerId] + [timestamp];
      var cutoff := timestamp - VIOLATION_WINDOW_MS;
      ghost var full := history;
      while |history| > 0 && history[0] < cutoff
        invariant Pruned(history, cutoff) == Pruned(full, cutoff)
      {
        history := history[1..];
      }
      violations := violations[peerId := history];
      var ban := ShouldBan(peerId);
      if ban {
        ApplyBan(peerId, timestamp);
      }
    }

    method ShouldBan(peerId: Peer) returns (ban: bool)
      ensures ban <==> |AccountOf(peerId).violations| > 10
    {
      if peerId !in violations { return false; }
      return |violations[peerId]| > BAN_THRESHOLD;
    }

    method ApplyBan(peerId: Peer, timestamp: int)
      modifies this`violations, this`bannedPeers
      ensures forall now :: IsBanned(AccountOf(peerId), now) <==> now <= timestamp + 300000
      ensures AccountOf(peerId) == Account(old(AccountOf(peerId)).bucket, [], Some(timestamp + 300000))
      ensures forall p :: p != peerId ==> AccountOf(p) == old(AccountOf(p))
    {
      bannedPeers := bannedPeers[peerId := timestamp + BAN_DURATION_MS];
      violations := violations - {peerId};
    }
  }
}
