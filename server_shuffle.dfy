/**
 * The server copy's deck shuffle: an unseeded Fisher–Yates loop over a copy of the
 * list, drawing from `Math.random()`.
 *
 * `Math.random()` is modelled as a stream `random` of numbers in [0, 1); `k` is how
 * many of them earlier shuffles have already consumed.
 */
module ServerShuffle {
  import opened Random

  /**
   * The rounds still to run while the first n positions are unsettled: the round swaps
   * position n - 1 with the index `floor(random(k) * n)` and consumes one number; a
   * single unsettled position ends the loop.
   */
  function FisherYatesRounds<T>(s: seq<T>, n: nat, random: nat -> Unit, k: nat): (r: seq<T>)
    requires n <= |s|
    ensures |r| == |s|
    decreases n
  {
    if n <= 1 then s
    else FisherYatesRounds(Swap(s, n - 1, Index(random(k), n)), n - 1, random, k + 1)
  }

  /** The whole shuffle: every position starts unsettled. */
  function FisherYates<T>(list: seq<T>, random: nat -> Unit, k: nat): (r: seq<T>)
    ensures |r| == |list|
  {
    FisherYatesRounds(list, |list|, random, k)
  }

  /** How many numbers a shuffle of n elements draws: one per round, n - 1 rounds. */
  function DrawsUsed(n: nat): nat
  {
    if n == 0 then 0 else n - 1
  }

  /** One round of the loop, with its drawn index named. */
  lemma FisherYatesRound<T>(s: seq<T>, n: nat, random: nat -> Unit, k: nat, j: nat)
    requires 1 < n <= |s| && j == Index(random(k), n)
    ensures FisherYatesRounds(s, n, random, k) == FisherYatesRounds(Swap(s, n - 1, j), n - 1, random, k + 1)
  {
  }

  /**
   * `shuffle(list)`: copies the list, then for i from |list| - 1 down to 1 swaps
   * `copy[i]` with an index in [0, i]; here n = i + 1. Returns the shuffled copy and
   * the position of the stream after it.
   */
  method Shuffle<T>(list: seq<T>, random: nat -> Unit, k: nat) returns (r: seq<T>, next: nat)
    ensures r == FisherYates(list, random, k)
    ensures |r| == |list| && multiset(r) == multiset(list)
    ensures next == k + DrawsUsed(|list|)
  {
    var copy := new T[|list|](n requires 0 <= n < |list| => list[n]);
    assert copy[..] == list;
    var n: nat := copy.Length;
    next := k;
    while n > 1
      invariant n <= copy.Length == |list|
      invariant FisherYatesRounds(copy[..], n, random, next) == FisherYates(list, random, k)
      invariant next + DrawsUsed(n) == k + DrawsUsed(|list|)
    {
      var j := Index(random(next), n);
      FisherYatesRound(copy[..], n, random, next, j);
      SwapElements(copy, n - 1, j);
      n := n - 1;
      next := next + 1;
    }
    assert copy[..] == FisherYatesRounds(copy[..], n, random, next);
    r := copy[..];
    FisherYatesPermutes(list, random, k);
  }

  lemma {:induction false} FisherYatesRoundsPermute<T>(s: seq<T>, n: nat, random: nat -> Unit, k: nat)
    requires n <= |s|
    ensures multiset(FisherYatesRounds(s, n, random, k)) == multiset(s)
    decreases n
  {
    if n > 1 {
      var j := Index(random(k), n);
      FisherYatesRound(s, n, random, k, j);
      SwapPermutes(s, n - 1, j);
      FisherYatesRoundsPermute(Swap(s, n - 1, j), n - 1, random, k + 1);
    }
  }

  /** The server shuffle is a permutation of its input. */
  lemma FisherYatesPermutes<T>(list: seq<T>, random: nat -> Unit, k: nat)
    ensures multiset(FisherYates(list, random, k)) == multiset(list)
  {
    FisherYatesRoundsPermute(list, |list|, random, k);
  }
}
