/** Strings in code-point order, and the composite keys under which messages are stored. */
module Keys {

  // ---- Lexicographic order ----

  predicate Lt(a: string, b: string) {
    b != "" && (a == "" || a[0] < b[0] || (a[0] == b[0] && Lt(a[1..], b[1..])))
  }

  predicate Leq(a: string, b: string) { !Lt(b, a) }

  lemma {:induction false} LtTotal(a: string, b: string)
    ensures Lt(a, b) || Lt(b, a) || a == b
    ensures !(Lt(a, b) && Lt(b, a)) && !Lt(a, a)
  {
    if a != "" && b != "" && a[0] == b[0] {
      LtTotal(a[1..], b[1..]);
      assert a == [a[0]] + a[1..] && b == [b[0]] + b[1..];
    }
    if a != "" { LtIrreflexive(a); }
  }

  lemma {:induction false} LtIrreflexive(a: string)
    ensures !Lt(a, a)
  {
    if a != "" { LtIrreflexive(a[1..]); }
  }

  lemma {:induction false} LtTransitive(a: string, b: string, c: string)
    requires Lt(a, b) && Lt(b, c)
    ensures Lt(a, c)
  {
    if a != "" && a[0] == b[0] && b[0] == c[0] { LtTransitive(a[1..], b[1..], c[1..]); }
  }

  /** A common prefix does not matter. */
  lemma {:induction false} LtSamePrefix(p: string, a: string, b: string)
    ensures Lt(p + a, p + b) == Lt(a, b)
  {
    if p == "" {
      assert p + a == a && p + b == b;
    } else {
      LtSamePrefix(p[1..], a, b);
      assert (p + a)[1..] == p[1..] + a && (p + b)[1..] == p[1..] + b;
    }
  }

  /** Whatever lies between two strings with a prefix has that prefix. */
  lemma {:induction false} BetweenHasPrefix(p: string, a: string, b: string, k: string)
    requires Leq(p + a, k) && Leq(k, p + b)
    ensures p <= k
  {
    if p != "" {
      assert (p + a)[1..] == p[1..] + a && (p + b)[1..] == p[1..] + b;
      BetweenHasPrefix(p[1..], a, b, k[1..]);
      assert k == [k[0]] + k[1..] && p == [p[0]] + p[1..];
    }
  }

  /** Strings of equal length are decided by their first difference, wherever they are cut. */
  lemma {:induction false} LtAppend(a: string, b: string, x: string, y: string)
    requires |a| == |b|
    ensures Lt(a + x, b + y) == (Lt(a, b) || (a == b && Lt(x, y)))
  {
    if a == "" {
      assert a + x == x && b + y == y;
    } else {
      LtAppend(a[1..], b[1..], x, y);
      assert (a + x)[1..] == a[1..] + x && (b + y)[1..] == b[1..] + y;
      assert a == [a[0]] + a[1..] && b == [b[0]] + b[1..];
    }
  }

  // ---- Decimal numbers ----

  const WIDTH := 15
  const PAD_LIMIT := 1_000_000_000_000_000

  function Digit(d: nat): char
    requires d < 10
  {
    "0123456789"[d]
  }

  /** String(n) */
  function Decimal(n: nat): (s: string)
    ensures |s| >= 1
  {
    if n < 10 then [Digit(n)] else Decimal(n / 10) + [Digit(n % 10)]
  }

  function Zeros(n: nat): (s: string)
    ensures |s| == n
  {
    if n == 0 then "" else "0" + Zeros(n - 1)
  }

  /** padStart(15, '0'): longer numbers stay as they are. */
  function Padded(n: nat): string {
    var d := Decimal(n);
    if |d| >= WIDTH then d else Zeros(WIDTH - |d|) + d
  }

  /** Exactly `w` digits. */
  function Fixed(n: nat, w: nat): (s: string)
    ensures |s| == w
  {
    if w == 0 then "" else Fixed(n / 10, w - 1) + [Digit(n % 10)]
  }

  function Pow10(w: nat): (p: nat)
    ensures p >= 1
  {
    if w == 0 then 1 else 10 * Pow10(w - 1)
  }

  lemma DigitOrder(a: nat, b: nat)
    requires a < 10 && b < 10
    ensures (Digit(a) < Digit(b)) == (a < b) && (Digit(a) == Digit(b)) == (a == b)
    ensures '0' <= Digit(a) <= '9'
  {
  }

  /** Numbers of a fixed width compare as strings the way they compare as numbers. */
  lemma {:induction false} FixedOrder(a: nat, b: nat, w: nat)
    requires a < Pow10(w) && b < Pow10(w)
    ensures Lt(Fixed(a, w), Fixed(b, w)) == (a < b)
    ensures (Fixed(a, w) == Fixed(b, w)) == (a == b)
  {
    if w > 0 {
      FixedOrder(a / 10, b / 10, w - 1);
      LtAppend(Fixed(a / 10, w - 1), Fixed(b / 10, w - 1), [Digit(a % 10)], [Digit(b % 10)]);
      DigitOrder(a % 10, b % 10);
      assert a == 10 * (a / 10) + a % 10 && b == 10 * (b / 10) + b % 10;
      SnocEqual(Fixed(a / 10, w - 1), Fixed(b / 10, w - 1), Digit(a % 10), Digit(b % 10));
    }
  }

  lemma SnocEqual<T>(s: seq<T>, t: seq<T>, x: T, y: T)
    requires |s| == |t|
    ensures (s + [x] == t + [y]) == (s == t && x == y)
  {
    if s + [x] == t + [y] {
      assert s == (s + [x])[..|s|] && t == (t + [y])[..|t|];
      assert x == (s + [x])[|s|] && y == (t + [y])[|t|];
    }
  }

  lemma {:induction false} FixedZeros(w: nat)
    ensures Fixed(0, w) == Zeros(w)
  {
    if w > 0 {
      FixedZeros(w - 1);
      ZerosSnoc(w - 1);
    }
  }

  lemma {:induction false} ZerosSnoc(w: nat)
    ensures Zeros(w) + "0" == "0" + Zeros(w)
  {
    if w > 0 {
      ZerosSnoc(w - 1);
      assert ("0" + Zeros(w - 1)) + "0" == "0" + (Zeros(w - 1) + "0");
    }
  }

  lemma {:induction false} DecimalFixed(n: nat, w: nat)
    requires n < Pow10(w) && w >= 1
    ensures |Decimal(n)| <= w && Fixed(n, w) == Zeros(w - |Decimal(n)|) + Decimal(n)
  {
    if n < 10 {
      FixedZeros(w - 1);
    } else {
      assert w >= 2 by { assert Pow10(1) == 10; }
      DecimalFixed(n / 10, w - 1);
      var d := Decimal(n / 10);
      assert (Zeros(w - 1 - |d|) + d) + [Digit(n % 10)] == Zeros(w - 1 - |d|) + (d + [Digit(n % 10)]);
    }
  }

  lemma {:induction false} DecimalLength(n: nat, w: nat)
    ensures |Decimal(n)| > w <==> (w == 0 || n >= Pow10(w))
  {
    if w > 0 {
      if n < 10 {
        assert Pow10(w) >= 10;
      } else {
        DecimalLength(n / 10, w - 1);
        assert n >= Pow10(w) <==> n / 10 >= Pow10(w - 1);
      }
    }
  }

  /** The largest integers that a JavaScript number holds exactly have 16 digits. */
  const SAFE_LIMIT := 10_000_000_000_000_000

  lemma PadLimit()
    ensures Pow10(WIDTH) == PAD_LIMIT && Pow10(WIDTH + 1) == SAFE_LIMIT
  {
    assert Pow10(5) == 100_000;
    assert Pow10(10) == 10_000_000_000;
  }

  lemma PaddedIsFixed(n: nat, w: nat)
    requires w >= WIDTH && n < Pow10(w) && (w == WIDTH || n >= Pow10(w - 1))
    ensures Padded(n) == Fixed(n, w)
  {
    DecimalFixed(n, w);
    if w > WIDTH {
      DecimalLength(n, w - 1);
      assert Zeros(0) + Decimal(n) == Decimal(n);
    }
  }

  /** Different numbers have different padded forms. */
  lemma PaddedInjective(a: nat, b: nat)
    requires Padded(a) == Padded(b)
    ensures a == b
  {
    var w := PaddedWidth(a);
    var v := PaddedWidth(b);
    FixedOrder(a, b, w);
  }

  lemma PaddedWidth(n: nat) returns (w: nat)
    ensures Padded(n) == Fixed(n, w) && n < Pow10(w) && w == |Padded(n)|
  {
    w := if |Decimal(n)| > WIDTH then |Decimal(n)| else WIDTH;
    DecimalLength(n, w);
    DecimalLength(n, w - 1);
    PaddedIsFixed(n, w);
  }

  /** Below 10^15 the padded form is the fixed-width one, so it orders as numbers do. */
  lemma PaddedOrder(a: nat, b: nat)
    requires a < 1_000_000_000_000_000 && b < 1_000_000_000_000_000
    ensures |Padded(a)| == 15 && |Padded(b)| == 15
    ensures Lt(Padded(a), Padded(b)) == (a < b)
    ensures (Padded(a) == Padded(b)) == (a == b)
  {
    PadLimit();
    PaddedIsFixed(a, WIDTH);
    PaddedIsFixed(b, WIDTH);
    FixedOrder(a, b, WIDTH);
  }

  lemma PaddedFortyTwo()
    ensures Padded(42) == "000000000000042"
  {
    assert Decimal(42) == Decimal(4) + [Digit(2)];
    assert Zeros(13) == "0000000000000";
  }

  /** The one way in which a later timestamp can sort before an earlier one. */
  predicate Overflows(since: nat, ts: nat) { since < PAD_LIMIT <= ts && ts / 10 <= since }

  lemma PaddedForm(n: nat)
    requires n < SAFE_LIMIT
    ensures Padded(n) == Fixed(n, if n < PAD_LIMIT then WIDTH else WIDTH + 1)
  {
    PadLimit();
    PaddedIsFixed(n, if n < PAD_LIMIT then WIDTH else WIDTH + 1);
  }

  /** Padded numbers followed by ':' sort as numbers do, unless the padding overflows. */
  lemma PaddedSince(since: nat, ts: nat, tail: string)
    requires since < ts < SAFE_LIMIT
    ensures Leq(Padded(since) + ":", Padded(ts) + ":" + tail) <==> !Overflows(since, ts)
  {
    PadLimit();
    PaddedForm(since);
    PaddedForm(ts);
    assert Padded(ts) + ":" + tail == Padded(ts) + (":" + tail);
    if since < PAD_LIMIT <= ts {
      var lead := Fixed(ts / 10, WIDTH);
      assert Padded(ts) + (":" + tail) == lead + ([Digit(ts % 10)] + (":" + tail));
      FixedOrder(ts / 10, since, WIDTH);
      LtAppend(lead, Padded(since), [Digit(ts % 10)] + (":" + tail), ":");
      DigitOrder(ts % 10, 0);
    } else {
      FixedOrder(ts, since, if since < PAD_LIMIT then WIDTH else WIDTH + 1);
      LtAppend(Padded(ts), Padded(since), ":" + tail, ":");
    }
  }
}
