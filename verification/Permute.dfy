/** The LCG-driven Fisher-Yates shuffle behind `permute_indices` and `shuffle_order`. */
module Permute {
  const WORD: nat := 0x1_0000_0000

  function Lcg(state: nat): (next: nat)
    ensures next < WORD
  {
    (1103515245 * state + 12345) % WORD
  }

  function Swap<T>(s: seq<T>, i: nat, j: nat): (t: seq<T>)
    requires i < |s| && j < |s|
    ensures |t| == |s|
  {
    s[i := s[j]][j := s[i]]
  }

  /** Rounds i, i-1, ..., 1 of the shuffle. */
  function Rounds<T>(s: seq<T>, i: nat, state: nat): (t: seq<T>)
    requires i == 0 || i < |s|
    ensures |t| == |s|
    decreases i
  {
    if i == 0 then s
    else
      var next := Lcg(state);
      Rounds(Swap(s, i, next % (i + 1)), i - 1, next)
  }

  function Shuffled<T>(s: seq<T>, state: nat): (t: seq<T>)
    ensures |t| == |s|
  {
    if s == [] then s else Rounds(s, |s| - 1, state)
  }

  function Indices(n: int): (s: seq<nat>)
    ensures |s| == if n < 0 then 0 else n
    ensures forall k :: 0 <= k < |s| ==> s[k] == k
  {
    seq(if n < 0 then 0 else n, k => k)
  }

  /** `seed & 0xFFFFFFFF or 1`. */
  function IndexState(seed: int): nat {
    if seed % WORD == 0 then 1 else seed % WORD
  }

  function PermuteIndices(n: int, seed: int): seq<nat> {
    Shuffled(Indices(n), IndexState(seed))
  }

  /** Unlike `permute_indices`, the name shuffle lets the state start at zero. */
  function ShuffleOrder<T>(seed: int, base: seq<T>): seq<T> {
    Shuffled(base, seed % WORD)
  }

  /** The swap loop both functions share, on the list they work in place on. */
  method ShuffleInPlace<T>(order: array<T>, seedState: nat)
    modifies order
    ensures order[..] == Shuffled(old(order[..]), seedState)
  {
    var state: nat := seedState;
    var i := order.Length - 1;
    while i > 0
      invariant order.Length > 0 ==> 0 <= i < order.Length
      invariant order.Length > 0 ==>
        Shuffled(old(order[..]), seedState) == Rounds(order[..], i, state)
    {
      ghost var before := order[..];
      state := Lcg(state);
      var j := state % (i + 1);
      order[i], order[j] := order[j], order[i];
      assert order[..] == Swap(before, i, j);
      i := i - 1;
    }
  }

  method PermutedIndices(n: int, seed: int) returns (order: array<nat>)
    ensures fresh(order) && order[..] == PermuteIndices(n, seed)
  {
    order := new nat[if n < 0 then 0 else n](k => k);
    assert order[..] == Indices(n);
    if order.Length <= 1 {
      return;
    }
    ShuffleInPlace(order, IndexState(seed));
  }

  // ---- what the shuffle does ----

  lemma {:induction false} RoundsKeepElements<T>(s: seq<T>, i: nat, state: nat)
    requires i == 0 || i < |s|
    ensures multiset(Rounds(s, i, state)) == multiset(s)
    decreases i
  {
    if i > 0 {
      var next := Lcg(state);
      RoundsKeepElements(Swap(s, i, next % (i + 1)), i - 1, next);
    }
  }

  /** Shuffling preserves the multiset of its elements, for every seed. */
  lemma ShuffleKeepsElements<T>(s: seq<T>, state: nat)
    ensures multiset(Shuffled(s, state)) == multiset(s)
  {
    if s != [] {
      RoundsKeepElements(s, |s| - 1, state);
    }
  }

  predicate Distinct<T(==)>(s: seq<T>) {
    forall i, j :: 0 <= i < j < |s| ==> s[i] != s[j]
  }

  predicate InRange(order: seq<nat>, n: nat) {
    forall k :: 0 <= k < |order| ==> order[k] < n
  }

  predicate IsPermutation(order: seq<nat>) {
    && InRange(order, |order|)
    && Distinct(order)
  }

  lemma {:induction false} RoundsKeepDistinct<T>(s: seq<T>, i: nat, state: nat)
    requires i == 0 || i < |s|
    requires Distinct(s)
    ensures Distinct(Rounds(s, i, state))
    decreases i
  {
    if i > 0 {
      var next := Lcg(state);
      RoundsKeepDistinct(Swap(s, i, next % (i + 1)), i - 1, next);
    }
  }

  /** `permute_indices(n, seed)` is a permutation of 0..n-1 for every n and every seed. */
  lemma PermuteIsPermutation(n: int, seed: int)
    ensures |PermuteIndices(n, seed)| == if n < 0 then 0 else n
    ensures IsPermutation(PermuteIndices(n, seed))
    ensures multiset(PermuteIndices(n, seed)) == multiset(Indices(n))
  {
    var ids := Indices(n);
    var order := PermuteIndices(n, seed);
    ShuffleKeepsElements(ids, IndexState(seed));
    if ids != [] {
      RoundsKeepDistinct(ids, |ids| - 1, IndexState(seed));
    }
    forall k | 0 <= k < |order|
      ensures order[k] < |order|
    {
      assert order[k] in multiset(ids);
      assert order[k] in ids;
    }
  }

  /** The list read through a list of positions. */
  function Pick<T>(order: seq<nat>, items: seq<T>): (r: seq<T>)
    requires InRange(order, |items|)
    ensures |r| == |order|
  {
    seq(|order|, k requires 0 <= k < |order| => items[order[k]])
  }

  lemma {:induction false} RoundsRename<T>(order: seq<nat>, items: seq<T>, i: nat, state: nat)
    requires i == 0 || i < |order|
    requires InRange(order, |items|)
    ensures InRange(Rounds(order, i, state), |items|)
    ensures Rounds(Pick(order, items), i, state) == Pick(Rounds(order, i, state), items)
    decreases i
  {
    if i > 0 {
      var next := Lcg(state);
      var j := next % (i + 1);
      assert Swap(Pick(order, items), i, j) == Pick(Swap(order, i, j), items);
      RoundsRename(Swap(order, i, j), items, i - 1, next);
    }
  }

  /** The shuffle never looks at what it moves: shuffling a list is indexing it through the
      shuffled positions. */
  lemma ShuffleIsIndexing<T>(base: seq<T>, state: nat)
    ensures InRange(Shuffled(Indices(|base|), state), |base|)
    ensures Shuffled(base, state) == Pick(Shuffled(Indices(|base|), state), base)
  {
    if base != [] {
      RoundsRename(Indices(|base|), base, |base| - 1, state);
      assert Pick(Indices(|base|), base) == base;
    }
  }

  // ---- the two seedings ----

  lemma {:induction false} RoundsSettle<T>(s: seq<T>, i: nat, state: nat, k: nat)
    requires i == 0 || i < |s|
    requires i < k < |s|
    ensures Rounds(s, i, state)[k] == s[k]
    decreases i
  {
    if i > 0 {
      var next := Lcg(state);
      RoundsSettle(Swap(s, i, next % (i + 1)), i - 1, next, k);
    }
  }

  lemma LcgFlipsParity(state: nat)
    ensures Lcg(state) % 2 != state % 2
  {
    var h, b := state / 2, state % 2;
    var x := 1103515245 * state + 12345;
    var q, r := x / WORD, x % WORD;
    var k := 1103515245 * h + 551757622 * b + 6172 - 0x8000_0000 * q;
    assert r == x - WORD * q;
    assert r == 2 * k + (b + 1);
    EvenPlus(k, b + 1);
  }

  lemma EvenPlus(k: int, c: int)
    ensures (2 * k + c) % 2 == c % 2
  {
  }

  /** What round i leaves at position i is final. */
  lemma RoundFixes<T>(s: seq<T>, i: nat, state: nat)
    requires 1 <= i < |s|
    ensures Rounds(s, i, state)[i] == s[Lcg(state) % (i + 1)]
  {
    var next := Lcg(state);
    var j := next % (i + 1);
    RoundsSettle(Swap(s, i, j), i - 1, next, i);
  }

  lemma SwapKeepsDistinct<T>(s: seq<T>, i: nat, j: nat)
    requires i < |s| && j < |s| && Distinct(s)
    ensures Distinct(Swap(s, i, j))
  {
  }

  /** Generator states of different parity never produce the same arrangement. */
  lemma {:induction false} ParityShows<T>(s: seq<T>, i: nat, a: nat, b: nat)
    requires 1 <= i < |s|
    requires Distinct(s)
    requires a % 2 != b % 2
    ensures Rounds(s, i, a) != Rounds(s, i, b)
    decreases i
  {
    var na, nb := Lcg(a), Lcg(b);
    LcgFlipsParity(a);
    LcgFlipsParity(b);
    var ja, jb := na % (i + 1), nb % (i + 1);
    if ja == jb {
      SwapKeepsDistinct(s, i, ja);
      ParityShows(Swap(s, i, ja), i - 1, na, nb);
    } else {
      RoundFixes(s, i, a);
      RoundFixes(s, i, b);
      assert s[ja] != s[jb];
    }
  }

  /** The index shuffle and the name shuffle agree exactly when the low 32 bits of the seed are not
      all zero, or there is nothing to move. */
  lemma SeedingsAgree<T>(seed: int, base: seq<T>)
    requires Distinct(base)
    ensures IsPermutation(PermuteIndices(|base|, seed))
    ensures ShuffleOrder(seed, base) == Pick(PermuteIndices(|base|, seed), base)
       <==> seed % WORD != 0 || |base| <= 1
  {
    PermuteIsPermutation(|base|, seed);
    ShuffleIsIndexing(base, IndexState(seed));
    if seed % WORD == 0 && |base| > 1 {
      ParityShows(base, |base| - 1, 0, 1);
    }
  }

  // ---- undoing a permutation ----

  /** Where `k` sits in the order. */
  function PositionOf(order: seq<nat>, k: nat): (p: nat)
    requires k in order
    ensures p < |order| && order[p] == k
  {
    if order[0] == k then 0 else 1 + PositionOf(order[1..], k)
  }

  lemma PermutationCovers(n: int, seed: int, k: nat)
    requires k < n
    ensures k in PermuteIndices(n, seed)
  {
    PermuteIsPermutation(n, seed);
    assert Indices(n)[k] == k;
    assert k in multiset(Indices(n));
    assert k in multiset(PermuteIndices(n, seed));
  }

  /** A receiver who knows n and the seed can put permuted items back in order. */
  function Unpermuted<T>(items: seq<T>, seed: int): (r: seq<T>)
    ensures |r| == |items|
  {
    PermuteIsPermutation(|items|, seed);
    seq(|items|, k requires 0 <= k < |items| =>
      PermutationCovers(|items|, seed, k);
      items[PositionOf(PermuteIndices(|items|, seed), k)])
  }

  lemma PermutedUndone<T>(items: seq<T>, seed: int)
    ensures IsPermutation(PermuteIndices(|items|, seed)) && |PermuteIndices(|items|, seed)| == |items|
    ensures Unpermuted(Pick(PermuteIndices(|items|, seed), items), seed) == items
  {
    PermuteIsPermutation(|items|, seed);
    var order := PermuteIndices(|items|, seed);
    var r := Unpermuted(Pick(order, items), seed);
    forall k | 0 <= k < |items|
      ensures r[k] == items[k]
    {
      PermutationCovers(|items|, seed, k);
    }
  }
}
