/** The random helpers of scripts/utils/random.ts, with every call of Math.random()
    replaced by an explicit draw. A double of Math.random() is a multiple of 2^-53 in
    [0, 1), so the draw is the integer `u` with Math.random() == u / 2^53; floors of
    products with it are then computed exactly (rounding of the float product is not modelled). */
module Random {
  import opened Wrappers
  import opened Config
  import opened Model

  const RandomScale: nat := 0x20_0000_0000_0000

  /** One value of Math.random(), as `u / RandomScale`. */
  type Unit = u: nat | u < RandomScale

  /** `Math.floor(Math.random() * n)`. */
  function Scaled(u: Unit, n: int): int {
    (u * n) / RandomScale
  }

  lemma ScaledNonNegative(u: Unit, n: int)
    requires n >= 0
    ensures 0 <= Scaled(u, n)
    ensures n > 0 ==> Scaled(u, n) < n
    ensures n == 0 ==> Scaled(u, n) == 0
  {
    var x := u * n;
    var q := x / RandomScale;
    assert x == RandomScale * q + x % RandomScale;
    if n > 0 {
      assert (RandomScale - u) * n > 0;
      assert RandomScale * q <= x < RandomScale * n;
      LessMultiple(RandomScale, q, n);
    }
  }

  lemma ScaledNegative(u: Unit, n: int)
    requires n < 0
    ensures n <= Scaled(u, n) <= 0
  {
    var x := u * n;
    var q := x / RandomScale;
    assert x == RandomScale * q + x % RandomScale;
    assert (RandomScale - u) * n <= 0;
    assert RandomScale * n <= x < RandomScale * (q + 1);
    LessMultiple(RandomScale, n, q + 1);
    assert RandomScale * q <= x <= 0 < RandomScale * 1;
    LessMultiple(RandomScale, q, 1);
  }

  /** Cancelling a positive factor from a strict inequality. */
  lemma LessMultiple(k: int, a: int, b: int)
    requires k > 0 && k * a < k * b
    ensures a < b
  {
    assert k * (b - a) > 0;
  }

  lemma ScaledRange(u: Unit, n: int)
    ensures n > 0 ==> 0 <= Scaled(u, n) < n
    ensures n == 0 ==> Scaled(u, n) == 0
    ensures n < 0 ==> n <= Scaled(u, n) <= 0
  {
    if n >= 0 {
      ScaledNonNegative(u, n);
    } else {
      ScaledNegative(u, n);
    }
  }

  /** The draw compared against the cumulative weights: `Math.random() * total` is below an
      integer `c` exactly when its floor is, so the floor is an exact stand-in for the real draw. */
  lemma DrawComparison(u: Unit, total: nat, c: int)
    ensures Scaled(u, total) < c <==> u * total < c * RandomScale
  {
    var x := u * total;
    var q := x / RandomScale;
    var r := x % RandomScale;
    assert x == RandomScale * q + r && 0 <= r < RandomScale;
    if q < c {
      assert q <= c - 1;
      assert RandomScale * q <= RandomScale * (c - 1);
      assert x < c * RandomScale;
    } else {
      assert RandomScale * q >= RandomScale * c;
      assert x >= c * RandomScale;
    }
  }

  /** `randomDelay`: `min + floor(Math.random() * (max - min))`. */
  function RandomDelay(d: Delay, u: Unit): (r: int)
    ensures d.min < d.max ==> d.min <= r < d.max
    ensures d.min == d.max ==> r == d.min
    ensures d.max < d.min ==> d.max <= r <= d.min
  {
    ScaledRange(u, d.max - d.min);
    Scaled(u, d.max - d.min) + d.min
  }

  /** `randomDescribe`: a uniformly drawn element; the callers only pass non-empty arrays. */
  function RandomDescribe(ds: seq<string>, u: Unit): (r: string)
    requires |ds| > 0
    ensures r in ds
  {
    ScaledNonNegative(u, |ds|);
    ds[Scaled(u, |ds|)]
  }

  /** The index the cumulative scan of `randomTransitionKey` stops at, scanning from `i`:
      the first index whose running weight sum through it exceeds the draw `r`. */
  function PickFrom(edges: seq<Edge>, r: int, i: nat): (p: Option<nat>)
    requires i <= |edges|
    ensures p.Some? ==> i <= p.value < |edges| && r < Cumulative(edges, p.value)
    ensures p.Some? ==> forall j :: i <= j < p.value ==> Cumulative(edges, j) <= r
    ensures p.None? ==> forall j :: i <= j < |edges| ==> Cumulative(edges, j) <= r
    decreases |edges| - i
  {
    if i == |edges| then None
    else if r < Cumulative(edges, i) then Some(i)
    else PickFrom(edges, r, i + 1)
  }

  /** The index of the edge that the draw `r` selects, if any. */
  function Pick(edges: seq<Edge>, r: int): Option<nat> {
    PickFrom(edges, r, 0)
  }

  /** What `randomTransitionKey` returns for the draw `u`. */
  function TransitionKey(edges: seq<Edge>, u: Unit): string {
    match Pick(edges, Scaled(u, TotalWeight(edges)))
    case Some(i) => edges[i].target
    case None => DefaultWeatherKeyword
  }

  /** `randomTransitionKey`: sum the weights, draw, then scan the cumulative weights in
      insertion order; the weights are u32 in the source, hence the bound on their total. */
  method RandomTransitionKey(edges: seq<Edge>, u: Unit) returns (k: string)
    requires TotalWeight(edges) < U32Limit
    ensures k == TransitionKey(edges, u)
  {
    var totalWeight := 0;
    for i := 0 to |edges|
      invariant totalWeight == Prefix(edges, i)
    {
      totalWeight := totalWeight + edges[i].transition.weight;
    }
    var random := Scaled(u, totalWeight);
    var cumulativeWeight := 0;
    for i := 0 to |edges|
      invariant cumulativeWeight == Prefix(edges, i)
      invariant PickFrom(edges, random, i) == Pick(edges, random)
    {
      cumulativeWeight := cumulativeWeight + edges[i].transition.weight;
      if random < cumulativeWeight {
        return edges[i].target;
      }
    }
    return DefaultWeatherKeyword;
  }

  lemma {:induction false} PrefixMonotone(edges: seq<Edge>, i: nat, j: nat)
    requires i <= j <= |edges|
    ensures Prefix(edges, i) <= Prefix(edges, j)
    decreases j - i
  {
    if i < j {
      PrefixMonotone(edges, i, j - 1);
    }
  }

  /** The draws that select edge `i` are exactly `[Prefix(i), Prefix(i) + weight_i)`. */
  lemma PickBucket(edges: seq<Edge>, r: int, i: nat)
    requires 0 <= r && i < |edges|
    ensures Pick(edges, r) == Some(i) <==> Prefix(edges, i) <= r < Cumulative(edges, i)
  {
    if i > 0 {
      assert Cumulative(edges, i - 1) == Prefix(edges, i);
    }
    forall j | 0 <= j < i
      ensures Cumulative(edges, j) <= Prefix(edges, i)
    {
      PrefixMonotone(edges, j + 1, i);
    }
  }

  /** Every draw in `[0, total)` selects some edge. */
  lemma PickInRange(edges: seq<Edge>, r: int)
    requires 0 <= r < TotalWeight(edges)
    ensures Pick(edges, r).Some?
  {
    assert r < Cumulative(edges, |edges| - 1);
  }

  /** No draw selects an edge of weight 0. */
  lemma PickHasPositiveWeight(edges: seq<Edge>, r: int, i: nat)
    requires 0 <= r && Pick(edges, r) == Some(i)
    ensures i < |edges| && edges[i].transition.weight > 0
  {
    PickBucket(edges, r, i);
  }

  predicate Between(a: int, r: int, b: int) {
    a <= r < b
  }

  lemma {:induction false} IntervalSize(a: int, b: int)
    requires a <= b
    ensures |set r: int | a <= r < b && Between(a, r, b)| == b - a
    decreases b - a
  {
    if a < b {
      var c := b - 1;
      IntervalSize(a, c);
      assert (set r: int | a <= r < b && Between(a, r, b)) == (set r: int | a <= r < c && Between(a, r, c)) + {c};
    } else {
      assert (set r: int | a <= r < b && Between(a, r, b)) == {};
    }
  }

  /** Of the `total` equally likely draws, exactly `weight_i` select edge `i`, so each edge is
      chosen with probability proportional to its weight. */
  lemma PickCount(edges: seq<Edge>, i: nat)
    requires i < |edges|
    ensures |set r: int | 0 <= r < TotalWeight(edges) && Pick(edges, r) == Some(i)|
            == edges[i].transition.weight
  {
    PrefixMonotone(edges, i + 1, |edges|);
    var lo, hi := Prefix(edges, i), Cumulative(edges, i);
    var bucket := set r: int | lo <= r < hi && Between(lo, r, hi);
    var chosen := set r: int | 0 <= r < TotalWeight(edges) && Pick(edges, r) == Some(i);
    forall r | 0 <= r
      ensures Pick(edges, r) == Some(i) <==> lo <= r < hi
    {
      PickBucket(edges, r, i);
    }
    assert chosen == bucket;
    IntervalSize(lo, hi);
  }

  /** With weights summing to a positive total, the result is the target of an edge of
      positive weight. */
  lemma TransitionKeyIsTarget(edges: seq<Edge>, u: Unit)
    requires TotalWeight(edges) > 0
    ensures exists i :: 0 <= i < |edges| && edges[i].target == TransitionKey(edges, u)
                        && edges[i].transition.weight > 0
  {
    var r := Scaled(u, TotalWeight(edges));
    ScaledNonNegative(u, TotalWeight(edges));
    PickInRange(edges, r);
    var i := Pick(edges, r).value;
    PickHasPositiveWeight(edges, r, i);
  }

  /** A table whose keys are distinct never yields the key of a weight-0 edge. */
  lemma ZeroWeightNeverChosen(edges: seq<Edge>, u: Unit, j: nat)
    requires DistinctTargets(edges) && TotalWeight(edges) > 0
    requires j < |edges| && edges[j].transition.weight == 0
    ensures TransitionKey(edges, u) != edges[j].target
  {
    var r := Scaled(u, TotalWeight(edges));
    ScaledNonNegative(u, TotalWeight(edges));
    PickInRange(edges, r);
    var i := Pick(edges, r).value;
    PickHasPositiveWeight(edges, r, i);
    assert i != j;
  }

  /** An empty table, or one whose weights are all 0, yields the default keyword. */
  lemma NoWeightYieldsDefault(edges: seq<Edge>, u: Unit)
    requires TotalWeight(edges) == 0
    ensures TransitionKey(edges, u) == DefaultWeatherKeyword
  {
    ScaledNonNegative(u, 0);
    if p :| Pick(edges, 0) == Some(p) {
      PrefixMonotone(edges, p + 1, |edges|);
    }
  }

  /** A single edge of positive weight is always the result. */
  lemma SingleEdgeAlwaysChosen(edges: seq<Edge>, u: Unit)
    requires |edges| == 1 && edges[0].transition.weight > 0
    ensures TransitionKey(edges, u) == edges[0].target
  {
    var r := Scaled(u, TotalWeight(edges));
    ScaledNonNegative(u, TotalWeight(edges));
    PickInRange(edges, r);
  }

  /** Both outcomes of `randomTransitionKey` at once: the target of a positive-weight edge
      when the total is positive, the default keyword when it is 0. */
  lemma TransitionKeyOutcome(edges: seq<Edge>, u: Unit)
    ensures TotalWeight(edges) > 0 ==>
      exists i :: 0 <= i < |edges| && edges[i].target == TransitionKey(edges, u)
                  && edges[i].transition.weight > 0
    ensures TotalWeight(edges) == 0 ==> TransitionKey(edges, u) == DefaultWeatherKeyword
  {
    if TotalWeight(edges) > 0 {
      TransitionKeyIsTarget(edges, u);
    } else {
      NoWeightYieldsDefault(edges, u);
    }
  }
}
