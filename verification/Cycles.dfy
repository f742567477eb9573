/** Simple cycles of links: two different simple paths with the same ends contain one. */
module Cycles {
  import opened Common
  import opened Network

  /** At least three different nodes, linked in a ring. */
  ghost predicate SimpleCycle(cfg: Config, p: seq<Peer>) {
    |p| >= 3 && NoDup(p) && Linked(cfg, p) && p[0] in Links(cfg, p[|p| - 1])
  }

  ghost predicate SimplePath(cfg: Config, p: seq<Peer>, a: Peer, b: Peer) {
    p != [] && p[0] == a && p[|p| - 1] == b && NoDup(p) && Linked(cfg, p)
  }

  /** A simple path does not go on after its end. */
  lemma NeitherEnds(cfg: Config, p: seq<Peer>, q: seq<Peer>, a: Peer, b: Peer, d: nat)
    requires SimplePath(cfg, p, a, b) && SimplePath(cfg, q, a, b) && p != q
    requires 1 <= d <= |p| && d <= |q| && p[..d] == q[..d]
    ensures d < |p| && d < |q|
  {
    assert p[..|p|] == p && q[..|q|] == q && p[..d][d - 1] == q[..d][d - 1];
  }

  /** The first position at which the paths differ. */
  lemma {:induction false} FirstDifference(cfg: Config, p: seq<Peer>, q: seq<Peer>, a: Peer, b: Peer, d: nat) returns (k: nat)
    requires SimplePath(cfg, p, a, b) && SimplePath(cfg, q, a, b) && p != q
    requires 1 <= d <= |p| && d <= |q| && p[..d] == q[..d]
    ensures 1 <= k < |p| && k < |q| && p[..k] == q[..k] && p[k] != q[k]
    decreases |p| - d
  {
    NeitherEnds(cfg, p, q, a, b, d);
    if p[d] != q[d] {
      k := d;
    } else {
      assert p[..d + 1] == p[..d] + [p[d]] && q[..d + 1] == q[..d] + [q[d]];
      k := FirstDifference(cfg, p, q, a, b, d + 1);
    }
  }

  /** The first position from `k` on at which `p` meets the rest of `q` again. */
  lemma {:induction false} FirstMeeting(p: seq<Peer>, q: seq<Peer>, d: nat, k: nat) returns (i: nat, j: nat)
    requires d <= k < |p| && d < |q| && p[|p| - 1] == q[|q| - 1]
    requires forall x :: d <= x < k ==> p[x] !in q[d..]
    ensures k <= i < |p| && d <= j < |q| && p[i] == q[j]
    ensures forall x :: d <= x < i ==> p[x] !in q[d..]
    decreases |p| - k
  {
    if p[k] in q[d..] {
      i := k;
      var y :| 0 <= y < |q[d..]| && q[d..][y] == p[k];
      j := d + y;
    } else {
      assert q[d..][|q| - 1 - d] == q[|q| - 1];
      i, j := FirstMeeting(p, q, d, k + 1);
    }
  }

  function Reversed<T>(s: seq<T>): (r: seq<T>)
    ensures |r| == |s| && forall i :: 0 <= i < |s| ==> r[i] == s[|s| - 1 - i]
  {
    seq(|s|, i requires 0 <= i < |s| => s[|s| - 1 - i])
  }

  lemma ReversedPath(cfg: Config, p: seq<Peer>)
    requires ValidConfig(cfg) && NoDup(p) && Linked(cfg, p)
    ensures NoDup(Reversed(p)) && Linked(cfg, Reversed(p))
  {
    var r := Reversed(p);
    forall i | 0 <= i < |r| - 1 ensures r[i + 1] in Links(cfg, r[i]) {
      assert p[|p| - 2 - i + 1] in Links(cfg, p[|p| - 2 - i]);
    }
  }

  lemma PartOfPath(cfg: Config, p: seq<Peer>, i: nat, j: nat)
    requires NoDup(p) && Linked(cfg, p) && i <= j <= |p|
    ensures NoDup(p[i..j]) && Linked(cfg, p[i..j])
  {
    var r := p[i..j];
    forall k | 0 <= k < |r| - 1 ensures r[k + 1] in Links(cfg, r[k]) { assert p[i + k + 1] in Links(cfg, p[i + k]); }
  }

  lemma JoinedPaths(cfg: Config, p: seq<Peer>, q: seq<Peer>)
    requires NoDup(p) && Linked(cfg, p) && NoDup(q) && Linked(cfg, q) && p != [] && q != []
    requires q[0] in Links(cfg, p[|p| - 1]) && forall i, j :: 0 <= i < |p| && 0 <= j < |q| ==> p[i] != q[j]
    ensures NoDup(p + q) && Linked(cfg, p + q)
  {
  }

  /** Two different simple paths with the same ends contain a cycle, two nodes shorter than both together. */
  lemma TwoPathsMakeCycle(cfg: Config, p: seq<Peer>, q: seq<Peer>, a: Peer, b: Peer) returns (c: seq<Peer>)
    requires ValidConfig(cfg) && SimplePath(cfg, p, a, b) && SimplePath(cfg, q, a, b) && p != q
    ensures SimpleCycle(cfg, c) && |c| <= |p| + |q| - 2
  {
    assert p[..1] == [a] == q[..1];
    var d := FirstDifference(cfg, p, q, a, b, 1);
    var i, j := FirstMeeting(p, q, d, d);
    assert p[d - 1] == p[..d][d - 1] == q[..d][d - 1] == q[d - 1];
    c := Rim(cfg, p, q, d, i, j);
  }

  /** Along `p` from the fork to the meeting point, and back along `q`. */
  lemma Rim(cfg: Config, p: seq<Peer>, q: seq<Peer>, d: nat, i: nat, j: nat) returns (c: seq<Peer>)
    requires ValidConfig(cfg) && NoDup(p) && Linked(cfg, p) && NoDup(q) && Linked(cfg, q)
    requires 1 <= d <= i < |p| && d <= j < |q| && p[d - 1] == q[d - 1] && p[i] == q[j] && p[d] != q[d]
    requires forall x :: d <= x < i ==> p[x] !in q[d..]
    ensures SimpleCycle(cfg, c) && |c| <= |p| + |q| - 2
  {
    var there, back := p[d - 1..i + 1], Reversed(q[d..j]);
    PartOfPath(cfg, p, d - 1, i + 1);
    PartOfPath(cfg, q, d, j);
    ReversedPath(cfg, q[d..j]);
    c := there + back;
    assert q[d] in Links(cfg, q[d - 1]) && q[d - 1] in Links(cfg, q[d]);
    if back == [] {
      assert c == there && p[d - 1] in Links(cfg, p[i]);
    } else {
      assert q[j] in Links(cfg, q[j - 1]) && q[j - 1] in Links(cfg, q[j]);
      forall x, y | 0 <= x < |there| && 0 <= y < |back| ensures there[x] != back[y] {
        var z := j - 1 - y;
        assert back[y] == q[z] && q[d..][z - d] == q[z];
        assert there[x] == p[d - 1 + x];
      }
      JoinedPaths(cfg, there, back);
      assert c[|c| - 1] == q[d] && c[0] == p[d - 1];
    }
  }
}
