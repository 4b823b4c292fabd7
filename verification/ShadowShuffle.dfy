/** The seeded shuffle of apps/worker/src/shadow-jev-v3-questions.ts and shadow-jev-v4-questions.ts. */
module ShadowShuffle {
  /** A SHA-256 digest: 32 bytes. */
  type Seed = s: seq<int> | |s| == 32 && forall i :: 0 <= i < |s| ==> 0 <= s[i] < 256
    witness seq(32, i => 0)

  /** The partner each position is swapped with, read off the digest from its first byte on (V3). */
  function DrawsV3(seed: Seed, n: nat): (r: seq<nat>)
    requires n <= 32
    ensures |r| == n && forall i :: 0 <= i < n ==> r[i] <= i
  {
    seq(n, i requires 0 <= i < n => if i == 0 then 0 else seed[n - 1 - i] % (i + 1))
  }

  /** The same with the byte at the position itself (V4). */
  function DrawsV4(seed: Seed, n: nat): (r: seq<nat>)
    requires n <= 32
    ensures |r| == n && forall i :: 0 <= i < n ==> r[i] <= i
  {
    seq(n, i requires 0 <= i < n => if i == 0 then 0 else seed[i] % (i + 1))
  }

  ghost predicate DrawsFor(draws: seq<nat>, n: nat) {
    |draws| == n && forall i :: 0 <= i < n ==> draws[i] <= i
  }

  function Swap<T>(s: seq<T>, i: nat, j: nat): (r: seq<T>)
    requires i < |s| && j < |s|
    ensures |r| == |s|
  {
    s[i := s[j]][j := s[i]]
  }

  /** The swaps of positions k, k - 1, ..., 1. */
  function Swaps<T>(s: seq<T>, draws: seq<nat>, k: nat): (r: seq<T>)
    requires DrawsFor(draws, |s|) && (k < |s| || k == 0)
    ensures |r| == |s|
    decreases k
  {
    if k == 0 then s else Swaps(Swap(s, k, draws[k]), draws, k - 1)
  }

  function Shuffled<T>(s: seq<T>, draws: seq<nat>): (r: seq<T>)
    requires DrawsFor(draws, |s|)
    ensures |r| == |s|
  {
    Swaps(s, draws, if |s| == 0 then 0 else |s| - 1)
  }

  /** The loop: in place, from the last position down to 1. */
  method Shuffle<T>(ordered: array<T>, draws: seq<nat>)
    requires DrawsFor(draws, ordered.Length)
    modifies ordered
    ensures ordered[..] == Shuffled(old(ordered[..]), draws)
  {
    if ordered.Length == 0 { return; }
    ghost var target := Shuffled(ordered[..], draws);
    var index := ordered.Length - 1;
    while index > 0
      invariant 0 <= index < ordered.Length
      invariant Swaps(ordered[..], draws, index) == target
    {
      var other := draws[index];
      ghost var before := ordered[..];
      ordered[index], ordered[other] := ordered[other], ordered[index];
      assert ordered[..] == Swap(before, index, other);
      index := index - 1;
    }
  }

  /** A permutation of 0..n-1. */
  ghost predicate IsPermutation(p: seq<nat>, n: nat) {
    && |p| == n && (forall i :: 0 <= i < n ==> p[i] < n)
    && (forall i, j :: 0 <= i < j < n ==> p[i] != p[j])
  }

  function Identity(n: nat): seq<nat> { seq(n, i => i) }

  /** s rearranged so that position i holds s[p[i]]. */
  function Pick<T>(s: seq<T>, p: seq<nat>): seq<T>
    requires forall i :: 0 <= i < |p| ==> p[i] < |s|
  {
    seq(|p|, i requires 0 <= i < |p| => s[p[i]])
  }

  lemma {:induction false} SwapsPermute<T>(s: seq<T>, p: seq<nat>, draws: seq<nat>, k: nat)
    requires DrawsFor(draws, |s|) && (k < |s| || k == 0) && IsPermutation(p, |s|)
    ensures IsPermutation(Swaps(p, draws, k), |s|)
    ensures Swaps(Pick(s, p), draws, k) == Pick(s, Swaps(p, draws, k))
    decreases k
  {
    if k > 0 {
      var q := Swap(p, k, draws[k]);
      assert Swap(Pick(s, p), k, draws[k]) == Pick(s, q);
      SwapsPermute(s, q, draws, k - 1);
    }
  }

  /** Whatever the digest, the shuffle rearranges: position i of the result holds the candidate at
      position Shuffled(Identity)[i], and that index map is a permutation. */
  lemma ShuffleIsPermutation<T>(s: seq<T>, draws: seq<nat>)
    requires DrawsFor(draws, |s|)
    ensures var p := Shuffled(Identity(|s|), draws); IsPermutation(p, |s|) && Shuffled(s, draws) == Pick(s, p)
  {
    assert Pick(s, Identity(|s|)) == s;
    if |s| > 0 {
      SwapsPermute(s, Identity(|s|), draws, |s| - 1);
    }
  }

  // ---------------------------------------------------------------- every order is reachable

  lemma {:induction false} ImageSize(p: seq<nat>, k: nat)
    requires k <= |p| && forall i, j :: 0 <= i < j < |p| ==> p[i] != p[j]
    ensures |set j | 0 <= j < k :: p[j]| == k
  {
    if k > 0 {
      ImageSize(p, k - 1);
      assert (set j | 0 <= j < k :: p[j]) == (set j | 0 <= j < k - 1 :: p[j]) + {p[k - 1]};
    }
  }

  lemma {:induction false} SubsetSize<T>(a: set<T>, b: set<T>)
    requires a <= b
    ensures |a| <= |b|
  {
    if a != {} {
      var x :| x in a;
      SubsetSize(a - {x}, b - {x});
    }
  }

  /** A permutation takes every value. */
  lemma Pigeonhole(p: seq<nat>, n: nat, x: nat)
    requires IsPermutation(p, n) && x < n
    ensures exists j :: 0 <= j < n && p[j] == x
  {
    if forall j :: 0 <= j < n ==> p[j] != x {
      var image := set j | 0 <= j < n :: p[j];
      var range := set j | 0 <= j < n :: Identity(n)[j];
      ImageSize(p, n);
      ImageSize(Identity(n), n);
      forall y | y in image ensures y in range - {x} {
        assert Identity(n)[y] == y;
      }
      assert Identity(n)[x] == x;
      SubsetSize(image, range - {x});
      assert false;
    }
  }

  lemma LaterDraws(draws: seq<nat>, later: seq<nat>, k: nat, j: nat)
    requires k < |later| == |draws| && draws[k..] == later[k := j][k..]
    ensures draws[k] == j && draws[k + 1..] == later[k + 1..]
  {
    assert draws[k..][0] == later[k := j][k..][0];
    assert draws[k + 1..] == draws[k..][1..] && later[k := j][k..][1..] == later[k + 1..];
  }

  /** Positions above k already hold their final values; find the draws that place the rest. */
  lemma {:induction false} FinishOrder(q: seq<nat>, p: seq<nat>, n: nat, k: nat, later: seq<nat>) returns (draws: seq<nat>)
    requires IsPermutation(q, n) && IsPermutation(p, n) && k < n && DrawsFor(later, n)
    requires forall i :: k < i < n ==> q[i] == p[i]
    ensures DrawsFor(draws, n) && Swaps(q, draws, k) == p && draws[k + 1..] == later[k + 1..]
    decreases k
  {
    Pigeonhole(q, n, p[k]);
    var j :| 0 <= j < n && q[j] == p[k];
    assert j <= k;
    if k == 0 {
      draws := later;
      assert q == p;
    } else {
      var next := later[k := j];
      draws := FinishOrder(Swap(q, k, j), p, n, k - 1, next);
      LaterDraws(draws, later, k, j);
    }
  }

  lemma SmallMod(x: int, m: int)
    requires 0 <= x < m
    ensures x % m == x
  {
  }

  /** Any draws come from some digest. */
  lemma SeedFor(draws: seq<nat>, n: nat) returns (seed: Seed)
    requires DrawsFor(draws, n) && n <= 32
    ensures forall i :: 0 < i < n ==> DrawsV3(seed, n)[i] == draws[i]
  {
    seed := seq(32, b requires 0 <= b < 32 => if b < n - 1 then draws[n - 1 - b] else 0);
    forall i | 0 < i < n ensures DrawsV3(seed, n)[i] == draws[i] {
      assert seed[n - 1 - i] == draws[i];
      SmallMod(draws[i], i + 1);
    }
  }

  /** Every order of the options is reachable: some digest shuffles the candidates into it, so no
      candidate is tied to a position. */
  lemma EveryOrderReachable(p: seq<nat>) returns (seed: Seed)
    requires IsPermutation(p, |p|) && 0 < |p| <= 32
    ensures Shuffled(Identity(|p|), DrawsV3(seed, |p|)) == p
  {
    hide DrawsV3;
    var n := |p|;
    var draws := FinishOrder(Identity(n), p, n, n - 1, Identity(n));
    seed := SeedFor(draws, n);
    assert DrawsV3(seed, n) == draws;
  }

  /** So it is for the exits, whose draws read the digest at the position itself. */
  lemma EveryExitOrderReachable(p: seq<nat>) returns (seed: Seed)
    requires IsPermutation(p, |p|) && 0 < |p| <= 32
    ensures Shuffled(Identity(|p|), DrawsV4(seed, |p|)) == p
  {
    var n := |p|;
    var draws := FinishOrder(Identity(n), p, n, n - 1, Identity(n));
    seed := seq(32, b requires 0 <= b < 32 => if b < n then draws[b] else 0);
    forall i | 0 <= i < n ensures DrawsV4(seed, n)[i] == draws[i] {
      SmallMod(draws[i], i + 1);
    }
    assert DrawsV4(seed, n) == draws;
  }

  /** V3 consumes the digest from its first byte on; the byte read after b swaps is reduced to the n - b positions
      that are left, and no byte past the first n - 1 matters. V4 never reads its first byte. */
  lemma DrawsReadDigest(a: Seed, b: Seed, n: nat)
    requires 0 < n <= 32
    ensures forall k :: 0 <= k < n - 1 ==> DrawsV3(a, n)[n - 1 - k] == a[k] % (n - k)
    ensures a[..n - 1] == b[..n - 1] ==> DrawsV3(a, n) == DrawsV3(b, n)
    ensures forall k :: 0 < k < n ==> DrawsV4(a, n)[k] == a[k] % (k + 1)
    ensures a[1..n] == b[1..n] ==> DrawsV4(a, n) == DrawsV4(b, n)
  {
    if a[..n - 1] == b[..n - 1] {
      forall i | 0 < i < n ensures DrawsV3(a, n)[i] == DrawsV3(b, n)[i] {
        assert a[..n - 1][n - 1 - i] == b[..n - 1][n - 1 - i];
      }
    }
    if a[1..n] == b[1..n] {
      forall i | 0 < i < n ensures DrawsV4(a, n)[i] == DrawsV4(b, n)[i] {
        assert a[1..n][i - 1] == b[1..n][i - 1];
      }
    }
  }
}
