/**
 * The seeded shuffle used to build client decks.
 *
 * The generator `mulberry32` is modelled exactly up to its first two statements
 * (`a |= 0`, then `a = (a + 0x6d2b79f5) | 0`); the bit mixing that follows and the
 * final division are an oracle `mix` from the 32-bit state to a number in [0, 1).
 */
module Random {

  /** A JavaScript number in [0, 1): what the generator and `Math.random()` return. */
  type Unit = r: real | 0.0 <= r < 1.0

  const TwoTo31: int := 0x8000_0000
  const TwoTo32: int := 0x1_0000_0000

  /** The constant mulberry32 adds to its state on every call. */
  const Increment: int := 0x6d2b79f5

  /** The inverse of Increment modulo 2^32 (Increment is odd). */
  const IncrementInverse: int := 3696798301

  /** `u * n`, written as repeated addition so that it stays linear arithmetic. */
  function Scaled(u: Unit, n: nat): (x: real)
    ensures 0.0 <= x <= n as real
    ensures n > 0 ==> x < n as real
  {
    if n == 0 then 0.0 else Scaled(u, n - 1) + u
  }

  lemma {:induction false} ScaledIsProduct(u: Unit, n: nat)
    ensures Scaled(u, n) == u * n as real
  {
    if n > 0 {
      ScaledIsProduct(u, n - 1);
    }
  }

  /** The floor of a non-negative x, searched for downward from m; it is m when x >= m. */
  function FloorUpTo(x: real, m: nat): (j: nat)
    ensures j <= m
  {
    if m == 0 || m as real <= x then m else FloorUpTo(x, m - 1)
  }

  lemma {:induction false} FloorUpToIsFloor(x: real, m: nat)
    requires 0.0 <= x < (m + 1) as real
    ensures FloorUpTo(x, m) == x.Floor
  {
    if m > 0 && x < m as real {
      FloorUpToIsFloor(x, m - 1);
    }
  }

  /** `Math.floor(u * n)`: an index that is always inside a list of length n. */
  function Index(u: Unit, n: nat): (j: nat)
    requires n > 0
    ensures j < n
  {
    FloorUpTo(Scaled(u, n), n - 1)
  }

  /** Index is JavaScript's `Math.floor(u * n)`. */
  lemma IndexIsFloor(u: Unit, n: nat)
    requires n > 0
    ensures Index(u, n) == (u * n as real).Floor
  {
    ScaledIsProduct(u, n);
    FloorUpToIsFloor(Scaled(u, n), n - 1);
  }

  /** Truncation toward zero, the first step of JavaScript's ToInt32. */
  function Trunc(x: real): int
  {
    if x >= 0.0 then x.Floor else -((-x).Floor)
  }

  /** Reduce an integer to the signed 32-bit range, as `| 0` does. */
  function Wrap32(t: int): (r: int)
    ensures -TwoTo31 <= r < TwoTo31
    ensures -TwoTo31 <= t < TwoTo31 ==> r == t
  {
    (t + TwoTo31) % TwoTo32 - TwoTo31
  }

  /** Wrapping an intermediate sum changes nothing: `((x | 0) + c) | 0 == (x + c) | 0`. */
  lemma WrapAddition(x: int, c: int)
    ensures Wrap32(Wrap32(x) + c) == Wrap32(x + c)
  {
    var q := (x + TwoTo31) / TwoTo32;
    assert Wrap32(x) == x - TwoTo32 * q;
    var a := x + c + TwoTo31;
    var p := a / TwoTo32;
    assert a == TwoTo32 * p + a % TwoTo32;
    assert a - TwoTo32 * q == TwoTo32 * (p - q) + a % TwoTo32;
  }

  /** Two integers wrap to the same 32-bit value only when they differ by a multiple of 2^32. */
  lemma WrapEqual(x: int, y: int)
    ensures Wrap32(x) == Wrap32(y) ==> (x - y) % TwoTo32 == 0
  {
    var p := (x + TwoTo31) / TwoTo32;
    var q := (y + TwoTo31) / TwoTo32;
    assert x + TwoTo31 == TwoTo32 * p + (x + TwoTo31) % TwoTo32;
    assert y + TwoTo31 == TwoTo32 * q + (y + TwoTo31) % TwoTo32;
    if Wrap32(x) == Wrap32(y) {
      assert x - y == TwoTo32 * (p - q);
    }
  }

  /**
   * JavaScript's ToInt32, applied by `a |= 0`: a signed 32-bit integer; an integer
   * already in range is kept, and a fraction in [0, 1) becomes 0.
   */
  function ToInt32(x: real): (r: int)
    ensures -TwoTo31 <= r < TwoTo31
    ensures x.Floor as real == x && -TwoTo31 <= x.Floor < TwoTo31 ==> r == x.Floor
    ensures 0.0 <= x < 1.0 ==> r == 0
  {
    Wrap32(Trunc(x))
  }

  /**
   * `mulberry32(a)()`: a fresh generator seeded with `a`, called once.
   * Its state becomes `(a | 0) + 0x6d2b79f5`, wrapped, and `mix` turns that state into the result.
   */
  function Mulberry32(a: real, mix: int -> Unit): (u: Unit)
    ensures 0.0 <= a < 1.0 ==> u == mix(Increment)
  {
    mix(Wrap32(ToInt32(a) + Increment))
  }

  /** The elements at positions i and j exchanged. */
  function Swap<T>(s: seq<T>, i: nat, j: nat): (r: seq<T>)
    requires i < |s| && j < |s|
    ensures |r| == |s| && r[i] == s[j] && r[j] == s[i]
  {
    s[i := s[j]][j := s[i]]
  }

  /** `[a[i], a[j]] = [a[j], a[i]]` on an array. */
  method SwapElements<T>(a: array<T>, i: nat, j: nat)
    requires i < a.Length && j < a.Length
    modifies a
    ensures a[..] == Swap(old(a[..]), i, j)
  {
    a[i], a[j] := a[j], a[i];
  }

  /** A swap neither adds nor loses an element. */
  lemma SwapPermutes<T>(s: seq<T>, i: nat, j: nat)
    requires i < |s| && j < |s|
    ensures multiset(Swap(s, i, j)) == multiset(s)
    ensures forall k :: 0 <= k < |s| && k != i && k != j ==> Swap(s, i, j)[k] == s[k]
  {
  }

  // ---------------------------------------------------------------------------
  // The shuffle as it is written: each round re-seeds a fresh generator with the
  // previous round's result.
  // ---------------------------------------------------------------------------

  /**
   * The rounds of the shuffle loop still to run: `ci` positions are unsettled and
   * `randomSeed` is the value the next round re-seeds from.
   */
  function SeededShuffle<T>(s: seq<T>, ci: nat, randomSeed: real, mix: int -> Unit): (r: seq<T>)
    requires ci <= |s|
    ensures |r| == |s|
    decreases ci
  {
    if ci == 0 then s
    else
      var u := Mulberry32(randomSeed, mix);
      SeededShuffle(Swap(s, ci - 1, Index(u, ci)), ci - 1, u, mix)
  }

  /**
   * `shuffle(list, seed)`: copies the list and runs exactly |list| rounds, each
   * swapping the last unsettled position with an index drawn below it. The result
   * is a permutation of the input and a function of the input and the seed alone.
   */
  method ShuffleAsWritten<T>(list: seq<T>, seed: real, mix: int -> Unit) returns (r: seq<T>)
    ensures r == SeededShuffle(list, |list|, seed, mix)
    ensures |r| == |list| && multiset(r) == multiset(list)
  {
    var copy := new T[|list|](i requires 0 <= i < |list| => list[i]);
    assert copy[..] == list;
    var currentIndex: nat := copy.Length;
    var randomSeed := seed;
    while currentIndex != 0
      invariant 0 <= currentIndex <= copy.Length == |list|
      invariant SeededShuffle(copy[..], currentIndex, randomSeed, mix) == SeededShuffle(list, |list|, seed, mix)
    {
      var u: Unit := Mulberry32(randomSeed, mix);
      var randomIndex := Index(u, currentIndex);
      SeededRound(copy[..], currentIndex, randomSeed, mix, u, randomIndex);
      SwapElements(copy, currentIndex - 1, randomIndex);
      currentIndex := currentIndex - 1;
      randomSeed := u;
    }
    assert copy[..] == SeededShuffle(copy[..], 0, randomSeed, mix);
    r := copy[..];
    SeededShufflePermutes(list, |list|, seed, mix);
  }

  /** Every round only swaps, so the written shuffle is a permutation. */
  lemma {:induction false} SeededShufflePermutes<T>(s: seq<T>, ci: nat, randomSeed: real, mix: int -> Unit)
    requires ci <= |s|
    ensures multiset(SeededShuffle(s, ci, randomSeed, mix)) == multiset(s)
    decreases ci
  {
    if ci > 0 {
      var u := Mulberry32(randomSeed, mix);
      var j := Index(u, ci);
      SeededRound(s, ci, randomSeed, mix, u, j);
      SwapPermutes(s, ci - 1, j);
      SeededShufflePermutes(Swap(s, ci - 1, j), ci - 1, u, mix);
    }
  }

  /**
   * One round of the written loop: re-seed to draw u, take index j below ci, settle
   * position rest = ci - 1.
   */
  lemma SeededRound<T>(s: seq<T>, ci: nat, randomSeed: real, mix: int -> Unit, u: Unit, j: nat)
    requires 0 < ci <= |s|
    requires u == Mulberry32(randomSeed, mix) && j == Index(u, ci)
    ensures SeededShuffle(s, ci, randomSeed, mix) == SeededShuffle(Swap(s, ci - 1, j), ci - 1, u, mix)
  {
  }

  /** The value the k-th round (counting from 0) of the written loop draws. */
  function SeededDraw(seed: real, mix: int -> Unit, k: nat): Unit
  {
    if k == 0 then Mulberry32(seed, mix) else Mulberry32(SeededDraw(seed, mix, k - 1), mix)
  }

  /** Re-seeding with a value in [0, 1) always starts the generator from state 0. */
  lemma ReseedFromUnit(u: Unit, mix: int -> Unit)
    ensures ToInt32(u) == 0
    ensures Mulberry32(u, mix) == mix(Increment)
  {
  }

  /**
   * As written, every round after the first draws the same number, whatever the seed:
   * `a |= 0` truncates the fed-back fraction to 0.
   */
  lemma {:induction false} SeededDrawsCollapse(seed: real, mix: int -> Unit, k: nat)
    requires k >= 1
    ensures SeededDraw(seed, mix, k) == mix(Increment)
  {
    ReseedFromUnit(SeededDraw(seed, mix, k - 1), mix);
  }

  /** Once one round has run, the remaining rounds no longer depend on the seed. */
  lemma {:induction false} SeededRoundsIgnoreSeed<T>(s: seq<T>, ci: nat, u1: Unit, u2: Unit, mix: int -> Unit)
    requires ci <= |s|
    ensures SeededShuffle(s, ci, u1, mix) == SeededShuffle(s, ci, u2, mix)
  {
    if ci > 0 {
      ReseedFromUnit(u1, mix);
      ReseedFromUnit(u2, mix);
    }
  }

  /**
   * So the written shuffle of a list of length n is decided by the first index alone:
   * over all seeds it yields at most n different orders.
   */
  lemma SeededShuffleDecidedByFirstIndex<T>(list: seq<T>, seed1: real, seed2: real, mix: int -> Unit)
    requires |list| > 0
    requires Index(Mulberry32(seed1, mix), |list|) == Index(Mulberry32(seed2, mix), |list|)
    ensures SeededShuffle(list, |list|, seed1, mix) == SeededShuffle(list, |list|, seed2, mix)
  {
    SameFirstIndexSameShuffle(list, |list|, seed1, seed2, mix);
  }

  /** Two seeds whose first draws pick the same index run the same rounds from there on. */
  lemma SameFirstIndexSameShuffle<T>(s: seq<T>, ci: nat, seed1: real, seed2: real, mix: int -> Unit)
    requires 0 < ci <= |s|
    requires Index(Mulberry32(seed1, mix), ci) == Index(Mulberry32(seed2, mix), ci)
    ensures SeededShuffle(s, ci, seed1, mix) == SeededShuffle(s, ci, seed2, mix)
  {
    var u1, u2 := Mulberry32(seed1, mix), Mulberry32(seed2, mix);
    var j := Index(u1, ci);
    SeededRound(s, ci, seed1, mix, u1, j);
    SeededRound(s, ci, seed2, mix, u2, j);
    ReseedFromUnit(u1, mix);
    ReseedFromUnit(u2, mix);
  }

  // ---------------------------------------------------------------------------
  // The shuffle as intended: one generator, created from the seed, whose state
  // advances on every call.
  // ---------------------------------------------------------------------------

  /** One call of a live mulberry32 generator moves its state forward by Increment. */
  function NextState(a: int): int
  {
    Wrap32(a + Increment)
  }

  /**
   * The generator state the k-th call (counting from 0) of `mulberry32(seed)` mixes,
   * for an integer seed such as `Date.now()`.
   */
  function GenState(seed: int, k: nat): int
  {
    if k == 0 then NextState(Wrap32(seed)) else NextState(GenState(seed, k - 1))
  }

  /** The rounds still to run of the intended shuffle; `state` is the generator's current state. */
  function StatefulShuffle<T>(s: seq<T>, ci: nat, state: int, mix: int -> Unit): (r: seq<T>)
    requires ci <= |s|
    ensures |r| == |s|
    decreases ci
  {
    if ci == 0 then s
    else
      var next := NextState(state);
      StatefulShuffle(Swap(s, ci - 1, Index(mix(next), ci)), ci - 1, next, mix)
  }

  /** One round of the intended loop. */
  lemma StatefulRound<T>(s: seq<T>, ci: nat, state: int, mix: int -> Unit, next: int, j: nat)
    requires 0 < ci <= |s|
    requires next == NextState(state) && j == Index(mix(next), ci)
    ensures StatefulShuffle(s, ci, state, mix) == StatefulShuffle(Swap(s, ci - 1, j), ci - 1, next, mix)
  {
  }

  /** The intended seeded shuffle of a whole list. */
  function Shuffled<T>(list: seq<T>, seed: int, mix: int -> Unit): (r: seq<T>)
    ensures |r| == |list|
  {
    StatefulShuffle(list, |list|, Wrap32(seed), mix)
  }

  /**
   * The shuffle with the generator created once: the same rounds as ShuffleAsWritten,
   * but the k-th round mixes generator state GenState(seed, k).
   */
  method Shuffle<T>(list: seq<T>, seed: int, mix: int -> Unit) returns (r: seq<T>)
    ensures r == Shuffled(list, seed, mix)
    ensures |r| == |list| && multiset(r) == multiset(list)
  {
    var copy := new T[|list|](i requires 0 <= i < |list| => list[i]);
    assert copy[..] == list;
    var currentIndex: nat := copy.Length;
    var state := Wrap32(seed);
    while currentIndex != 0
      invariant 0 <= currentIndex <= copy.Length == |list|
      invariant StatefulShuffle(copy[..], currentIndex, state, mix) == Shuffled(list, seed, mix)
    {
      var next := NextState(state);
      var randomIndex := Index(mix(next), currentIndex);
      StatefulRound(copy[..], currentIndex, state, mix, next, randomIndex);
      SwapElements(copy, currentIndex - 1, randomIndex);
      currentIndex := currentIndex - 1;
      state := next;
    }
    assert copy[..] == StatefulShuffle(copy[..], 0, state, mix);
    r := copy[..];
    ShuffledPermutes(list, seed, mix);
  }

  lemma {:induction false} StatefulShufflePermutes<T>(s: seq<T>, ci: nat, state: int, mix: int -> Unit)
    requires ci <= |s|
    ensures multiset(StatefulShuffle(s, ci, state, mix)) == multiset(s)
    decreases ci
  {
    if ci > 0 {
      var next := NextState(state);
      var j := Index(mix(next), ci);
      StatefulRound(s, ci, state, mix, next, j);
      SwapPermutes(s, ci - 1, j);
      StatefulShufflePermutes(Swap(s, ci - 1, j), ci - 1, next, mix);
    }
  }

  /** The intended shuffle is a permutation of its input. */
  lemma ShuffledPermutes<T>(list: seq<T>, seed: int, mix: int -> Unit)
    ensures multiset(Shuffled(list, seed, mix)) == multiset(list)
  {
    StatefulShufflePermutes(list, |list|, Wrap32(seed), mix);
  }

  /** The k-th state is the seed's 32-bit value advanced by k + 1 increments, wrapped once. */
  lemma {:induction false} GenStateLift(seed: int, k: nat)
    ensures GenState(seed, k) == Wrap32(Wrap32(seed) + (k + 1) * Increment)
  {
    if k > 0 {
      GenStateLift(seed, k - 1);
      WrapAddition(Wrap32(seed) + k * Increment, Increment);
    }
  }

  /** Because Increment is odd, a multiple of it is a multiple of 2^32 only when its factor is. */
  lemma OddFactorCancels(d: int)
    ensures (d * Increment) % TwoTo32 == 0 ==> d % TwoTo32 == 0
  {
    if (d * Increment) % TwoTo32 == 0 {
      var q := (d * Increment) / TwoTo32;
      assert d * Increment == TwoTo32 * q;
      assert Increment * IncrementInverse == 1 + TwoTo32 * 1576479847;
      assert d * Increment * IncrementInverse == d + TwoTo32 * (d * 1576479847);
      assert d == TwoTo32 * (q * IncrementInverse - d * 1576479847);
    }
  }

  /**
   * With the generator created once, the state it mixes never repeats within 2^32 calls,
   * whereas as written it is the same from the second round on.
   */
  lemma GenStatesDistinct(seed: int, j: nat, k: nat)
    requires j < k < TwoTo32
    ensures GenState(seed, j) != GenState(seed, k)
  {
    var t := Wrap32(seed);
    var d := k - j;
    GenStateLift(seed, j);
    GenStateLift(seed, k);
    WrapEqual(t + (k + 1) * Increment, t + (j + 1) * Increment);
    assert (t + (k + 1) * Increment) - (t + (j + 1) * Increment) == d * Increment;
    OddFactorCancels(d);
    assert d % TwoTo32 == d;
  }
}
