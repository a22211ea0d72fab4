/** `split_dataset`: the annotation list is shuffled in place with a seeded
    generator, then cut into train, validation and test slices at truncated
    cut points. */
module Split {

  /** Python's `int(x)` on a float: truncation toward zero. */
  function Trunc(x: real): (n: int)
    ensures 0.0 <= x ==> 0 <= n && n as real <= x < n as real + 1.0
    ensures x < 0.0 ==> n <= 0 && n as real - 1.0 < x <= n as real
  {
    if x >= 0.0 then x.Floor else -((-x).Floor)
  }

  /** How Python reads a slice bound `i` on a list of length n: a negative
      bound counts from the end, and the result is clamped to [0, n]. */
  function SliceBound(i: int, n: nat): (k: nat)
    ensures k <= n
  {
    if i < 0 then (if i + n < 0 then 0 else i + n)
    else if i < n then i
    else n
  }

  /** Python's `xs[lo:hi]`; an empty slice when the bounds cross. */
  function PySlice<T>(xs: seq<T>, lo: int, hi: int): (r: seq<T>)
    ensures |r| <= |xs|
    ensures 0 <= lo <= hi <= |xs| ==> r == xs[lo..hi]
    ensures SliceBound(hi, |xs|) <= SliceBound(lo, |xs|) ==> r == []
    ensures lo == 0 ==> r <= xs
    ensures hi == |xs| ==> r == xs[|xs| - |r|..]
  {
    var a, b := SliceBound(lo, |xs|), SliceBound(hi, |xs|);
    if a <= b then xs[a..b] else []
  }

  function Min(a: int, b: int): int
  {
    if a <= b then a else b
  }

  datatype Parts<T> = Parts(train: seq<T>, valid: seq<T>, test: seq<T>)

  /** `ratio * len(json_list)`: a ratio scaled to the list length. */
  function Scaled(ratio: real, n: nat): (r: real)
    ensures 0.0 <= ratio ==> 0.0 <= r
  {
    MulNonNegativeIf(ratio, n as real);
    ratio * n as real
  }

  /** `int(train_ratio * len(json_list))`. */
  function TrainCut(trainRatio: real, n: nat): int
  {
    Trunc(Scaled(trainRatio, n))
  }

  /** `int(train_ratio * len(json_list) + valid_ratio * len(json_list))`: the
      truncation of the sum, not the sum of two truncations. */
  function ValidCut(trainRatio: real, validRatio: real, n: nat): int
  {
    Trunc(Scaled(trainRatio, n) + Scaled(validRatio, n))
  }

  /** The three slices of the (already shuffled) list. */
  function Slices<T>(xs: seq<T>, trainRatio: real, validRatio: real): (p: Parts<T>)
    ensures |p.train| <= |xs| && |p.valid| <= |xs| && |p.test| <= |xs|
    ensures p.train <= xs && p.test == xs[|xs| - |p.test|..]
  {
    var n := |xs|;
    var trainCut, validCut := TrainCut(trainRatio, n), ValidCut(trainRatio, validRatio, n);
    Parts(PySlice(xs, 0, trainCut), PySlice(xs, trainCut, validCut), PySlice(xs, validCut, n))
  }

  /** The slices put back together give the list exactly when the first cut
      does not lie beyond the second, once both are read as slice bounds. */
  lemma SlicesCoverIff<T>(xs: seq<T>, trainRatio: real, validRatio: real)
    ensures var p := Slices(xs, trainRatio, validRatio);
      var n := |xs|;
      p.train + p.valid + p.test == xs
      <==> SliceBound(TrainCut(trainRatio, n), n) <= SliceBound(ValidCut(trainRatio, validRatio, n), n)
  {
  }

  /** With ratios that are not negative the cuts are ordered, so the slices
      cover the list, each element in exactly one of them. */
  lemma SlicesPartition<T>(xs: seq<T>, trainRatio: real, validRatio: real)
    requires 0.0 <= trainRatio && 0.0 <= validRatio
    ensures var p := Slices(xs, trainRatio, validRatio);
      && p.train + p.valid + p.test == xs
      && multiset(p.train) + multiset(p.valid) + multiset(p.test) == multiset(xs)
  {
    var n := |xs|;
    CutsOrdered(trainRatio, validRatio, n);
    ThreeSlices(xs, TrainCut(trainRatio, n), ValidCut(trainRatio, validRatio, n));
  }

  /** With ratios that are not negative, 0 <= first cut <= second cut. */
  lemma CutsOrdered(trainRatio: real, validRatio: real, n: nat)
    requires 0.0 <= trainRatio && 0.0 <= validRatio
    ensures 0 <= TrainCut(trainRatio, n) <= ValidCut(trainRatio, validRatio, n)
  {
    var x, y := Scaled(trainRatio, n), Scaled(trainRatio, n) + Scaled(validRatio, n);
    TruncMonotone(x, y);
  }

  /** Slicing at two ordered, non-negative cut points covers the list. */
  lemma ThreeSlices<T>(xs: seq<T>, c1: int, c2: int)
    requires 0 <= c1 <= c2
    ensures var p := Parts(PySlice(xs, 0, c1), PySlice(xs, c1, c2), PySlice(xs, c2, |xs|));
      && p.train + p.valid + p.test == xs
      && multiset(p.train) + multiset(p.valid) + multiset(p.test) == multiset(xs)
      && |p.train| == Min(|xs|, c1)
      && |p.train| + |p.valid| == Min(|xs|, c2)
      && |p.test| == |xs| - Min(|xs|, c2)
  {
    var a, b := SliceBound(c1, |xs|), SliceBound(c2, |xs|);
    assert xs[..a] + xs[a..b] + xs[b..] == xs;
    var p := Parts(PySlice(xs, 0, c1), PySlice(xs, c1, c2), PySlice(xs, c2, |xs|));
    assert multiset(p.train + p.valid + p.test) == multiset(p.train) + multiset(p.valid) + multiset(p.test);
  }

  lemma TruncMonotone(x: real, y: real)
    requires 0.0 <= x <= y
    ensures 0 <= Trunc(x) <= Trunc(y)
  {
  }

  /** With ratios that are not negative, train holds the first
      min(N, int(tr * N)) elements, train and valid together the first
      min(N, int(tr * N + vr * N)), and test the rest. */
  lemma SliceSizes<T>(xs: seq<T>, trainRatio: real, validRatio: real)
    requires 0.0 <= trainRatio && 0.0 <= validRatio
    ensures var p := Slices(xs, trainRatio, validRatio);
      var n := |xs|;
      && |p.train| == Min(n, TrainCut(trainRatio, n))
      && |p.train| + |p.valid| == Min(n, ValidCut(trainRatio, validRatio, n))
      && |p.test| == n - Min(n, ValidCut(trainRatio, validRatio, n))
  {
    var n := |xs|;
    CutsOrdered(trainRatio, validRatio, n);
    ThreeSlices(xs, TrainCut(trainRatio, n), ValidCut(trainRatio, validRatio, n));
  }

  /** Both ratios 0: train and valid are empty and test is the whole list. */
  lemma ZeroRatios<T>(xs: seq<T>)
    ensures Slices(xs, 0.0, 0.0) == Parts([], [], xs)
  {
  }

  /** An empty list gives three empty slices, whatever the ratios. */
  lemma EmptyList<T>(trainRatio: real, validRatio: real)
    ensures Slices<T>([], trainRatio, validRatio) == Parts([], [], [])
  {
  }

  /** Ratios (not negative) that add up to 1 or more leave the test slice
      empty; validation takes whatever the first cut left. */
  lemma RatiosReachingOne<T>(xs: seq<T>, trainRatio: real, validRatio: real)
    requires 0.0 <= trainRatio && 0.0 <= validRatio && 1.0 <= trainRatio + validRatio
    ensures var p := Slices(xs, trainRatio, validRatio);
      p.test == [] && p.train + p.valid == xs
  {
    SecondCutReachesEnd(trainRatio, validRatio, |xs|);
    TestEmptyPastEnd(xs, trainRatio, validRatio);
  }

  /** Ratios (not negative) adding up to 1 or more put the second cut at or
      past the end of an n-element list. */
  lemma SecondCutReachesEnd(trainRatio: real, validRatio: real, n: nat)
    requires 0.0 <= trainRatio && 0.0 <= validRatio && 1.0 <= trainRatio + validRatio
    ensures n <= ValidCut(trainRatio, validRatio, n)
  {
    ScaledSumAtLeast(trainRatio, validRatio, n);
    TruncAtLeast(Scaled(trainRatio, n) + Scaled(validRatio, n), n);
  }

  lemma TestEmptyPastEnd<T>(xs: seq<T>, trainRatio: real, validRatio: real)
    requires 0.0 <= trainRatio && 0.0 <= validRatio
    requires |xs| <= ValidCut(trainRatio, validRatio, |xs|)
    ensures var p := Slices(xs, trainRatio, validRatio);
      p.test == [] && p.train + p.valid == xs
  {
    SlicesPartition(xs, trainRatio, validRatio);
    var p := Slices(xs, trainRatio, validRatio);
    assert p.test == [];
    assert p.train + p.valid + p.test == p.train + p.valid;
  }

  lemma TruncAtLeast(x: real, k: nat)
    requires k as real <= x
    ensures k <= Trunc(x)
  {
  }

  lemma ScaledSumAtLeast(a: real, b: real, n: nat)
    requires 1.0 <= a + b
    ensures n as real <= Scaled(a, n) + Scaled(b, n)
  {
    var m := n as real;
    assert Scaled(a, n) + Scaled(b, n) == (a + b) * m;
    MulNonNegative(a + b - 1.0, m);
  }

  lemma MulNonNegativeIf(x: real, y: real)
    requires 0.0 <= y
    ensures 0.0 <= x ==> 0.0 <= x * y
  {
    if 0.0 <= x {
      MulNonNegative(x, y);
    }
  }

  lemma MulNonNegative(x: real, y: real)
    requires 0.0 <= x && 0.0 <= y
    ensures 0.0 <= x * y
  {
  }

  /** On three elements with both ratios 0.5 the second cut is int(3.0) = 3,
      not int(1.5) + int(1.5) = 2: validation gets two elements, test none. */
  lemma SecondCutTruncatesTheSum<T>(a: T, b: T, c: T)
    ensures TrainCut(0.5, 3) + Trunc(0.5 * 3.0) == 2
    ensures Slices([a, b, c], 0.5, 0.5) == Parts([a], [b, c], [])
  {
  }

  /** The seeded generator, which this model takes as given:
      `draw(seed, n, i)` is the answer of `randbelow(i + 1)` when, after
      `random.seed(seed)`, `random.shuffle` reaches position i of an n-element
      list. Every answer lies in [0, i]. */
  ghost predicate DrawsInRange(seed: int, draw: (int, nat, nat) -> nat)
  {
    forall n: nat, i: nat :: i < n ==> draw(seed, n, i) <= i
  }

  function Swap<T>(xs: seq<T>, i: nat, j: nat): (r: seq<T>)
    requires i < |xs| && j < |xs|
    ensures |r| == |xs| && r[i] == xs[j] && r[j] == xs[i]
    ensures forall k :: 0 <= k < |xs| && k != i && k != j ==> r[k] == xs[k]
  {
    xs[i := xs[j]][j := xs[i]]
  }

  /** The rest of `random.shuffle` from position i down to 1: position i is
      swapped with the drawn position, then the positions below it follow. */
  function ShuffleFrom<T>(xs: seq<T>, i: nat, seed: int, draw: (int, nat, nat) -> nat): (r: seq<T>)
    requires i < |xs| && DrawsInRange(seed, draw)
    ensures |r| == |xs|
    ensures r[i + 1..] == xs[i + 1..]
    decreases i
  {
    if i == 0 then xs
    else ShuffleFrom(Swap(xs, i, draw(seed, |xs|, i)), i - 1, seed, draw)
  }

  /** `random.shuffle(xs)` after `random.seed(seed)`: a function of the seed
      and the list alone. */
  function Shuffled<T>(xs: seq<T>, seed: int, draw: (int, nat, nat) -> nat): (r: seq<T>)
    requires DrawsInRange(seed, draw)
    ensures |r| == |xs|
    ensures |xs| == 1 ==> r == xs
  {
    if |xs| == 0 then xs else ShuffleFrom(xs, |xs| - 1, seed, draw)
  }

  lemma SwapPermutes<T>(xs: seq<T>, i: nat, j: nat)
    requires i < |xs| && j < |xs|
    ensures multiset(Swap(xs, i, j)) == multiset(xs)
  {
  }

  /** The shuffle only reorders: the same elements, each as often. */
  lemma {:induction false} ShuffleFromPermutes<T>(xs: seq<T>, i: nat, seed: int, draw: (int, nat, nat) -> nat)
    requires i < |xs| && DrawsInRange(seed, draw)
    ensures |ShuffleFrom(xs, i, seed, draw)| == |xs|
    ensures multiset(ShuffleFrom(xs, i, seed, draw)) == multiset(xs)
    decreases i
  {
    if i > 0 {
      var j := draw(seed, |xs|, i);
      SwapPermutes(xs, i, j);
      ShuffleFromPermutes(Swap(xs, i, j), i - 1, seed, draw);
    }
  }

  /** The shuffled list is a permutation of the input. */
  lemma ShuffledPermutes<T>(xs: seq<T>, seed: int, draw: (int, nat, nat) -> nat)
    requires DrawsInRange(seed, draw)
    ensures |Shuffled(xs, seed, draw)| == |xs|
    ensures multiset(Shuffled(xs, seed, draw)) == multiset(xs)
  {
    if |xs| > 0 {
      ShuffleFromPermutes(xs, |xs| - 1, seed, draw);
    }
  }

  /** What `split_dataset` returns is a partition of the list it was given:
      with ratios that are not negative, every annotation ends up in exactly
      one slice, as often as it was in the input. */
  lemma SplitIsPartition<T>(xs: seq<T>, trainRatio: real, validRatio: real, seed: int, draw: (int, nat, nat) -> nat)
    requires 0.0 <= trainRatio && 0.0 <= validRatio && DrawsInRange(seed, draw)
    ensures var p := Slices(Shuffled(xs, seed, draw), trainRatio, validRatio);
      && |p.train| + |p.valid| + |p.test| == |xs|
      && multiset(p.train) + multiset(p.valid) + multiset(p.test) == multiset(xs)
  {
    var s := Shuffled(xs, seed, draw);
    ShuffledPermutes(xs, seed, draw);
    SlicesPartition(s, trainRatio, validRatio);
    var p := Slices(s, trainRatio, validRatio);
    assert |p.train + p.valid + p.test| == |s|;
  }

  /** `random.shuffle` on the list itself: positions N-1 down to 1 are each
      swapped with a position the generator draws at or below them. */
  method Shuffle<T>(a: array<T>, seed: int, draw: (int, nat, nat) -> nat)
    requires DrawsInRange(seed, draw)
    modifies a
    ensures a[..] == Shuffled(old(a[..]), seed, draw)
  {
    if a.Length == 0 {
      return;
    }
    var i := a.Length - 1;
    while i > 0
      invariant 0 <= i < a.Length
      invariant ShuffleFrom(a[..], i, seed, draw) == Shuffled(old(a[..]), seed, draw)
    {
      var j := draw(seed, a.Length, i);
      ghost var before := a[..];
      var t := a[i];
      a[i] := a[j];
      a[j] := t;
      assert a[..] == Swap(before, i, j);
      i := i - 1;
    }
  }

  /** `split_dataset(train_ratio, valid_ratio, json_list, seed)`: reorders
      the caller's list in place and returns its three slices. */
  method SplitDataset<T>(trainRatio: real, validRatio: real, jsonList: array<T>, seed: int, draw: (int, nat, nat) -> nat)
    returns (train: seq<T>, valid: seq<T>, test: seq<T>)
    requires DrawsInRange(seed, draw)
    modifies jsonList
    ensures jsonList[..] == Shuffled(old(jsonList[..]), seed, draw)
    ensures Parts(train, valid, test) == Slices(jsonList[..], trainRatio, validRatio)
    ensures 0.0 <= trainRatio && 0.0 <= validRatio ==>
      multiset(train) + multiset(valid) + multiset(test) == multiset(old(jsonList[..]))
  {
    Shuffle(jsonList, seed, draw);
    var parts := Slices(jsonList[..], trainRatio, validRatio);
    train, valid, test := parts.train, parts.valid, parts.test;
    if 0.0 <= trainRatio && 0.0 <= validRatio {
      SplitIsPartition(old(jsonList[..]), trainRatio, validRatio, seed, draw);
    }
  }
}
