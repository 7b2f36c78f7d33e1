/**
 * Latency figures: the nearest-rank percentile of sorted samples, and the histogram of 100 us
 * buckets that answers the same question without keeping the samples. Times are in microseconds.
 */
module Latency {

  const BUCKET: nat := 100
  const MAX: nat := 120_000_000
  const BUCKETS: nat := MAX / BUCKET + 1
  const UNSET: nat := 0xffff_ffff_ffff_ffff

  /** `ceil(p * n)` */
  function Want(p: real, n: nat): int {
    -((-(p * n as real)).Floor)
  }

  /** The number of samples below `edge`. */
  function Below(samples: seq<int>, edge: int): (n: nat)
    ensures n <= |samples|
  {
    if samples == [] then 0
    else Below(samples[..|samples| - 1], edge) + (if samples[|samples| - 1] < edge then 1 else 0)
  }

  ghost predicate IsSorted(s: seq<int>) {
    forall j, k :: 0 <= j < k < |s| ==> s[j] <= s[k]
  }

  function Insert(s: seq<int>, x: int): seq<int> {
    if s == [] || s[|s| - 1] <= x then s + [x]
    else Insert(s[..|s| - 1], x) + [s[|s| - 1]]
  }

  function Sorted(s: seq<int>): seq<int> {
    if s == [] then [] else Insert(Sorted(s[..|s| - 1]), s[|s| - 1])
  }

  lemma {:induction false} InsertBounded(s: seq<int>, x: int, most: int)
    requires x <= most && forall k :: 0 <= k < |s| ==> s[k] <= most
    ensures forall k :: 0 <= k < |Insert(s, x)| ==> Insert(s, x)[k] <= most
  {
    if s != [] && s[|s| - 1] > x {
      InsertBounded(s[..|s| - 1], x, most);
    }
  }

  lemma {:induction false} InsertKeeps(s: seq<int>, x: int)
    requires IsSorted(s)
    ensures IsSorted(Insert(s, x)) && |Insert(s, x)| == |s| + 1
  {
    if s != [] && s[|s| - 1] > x {
      InsertKeeps(s[..|s| - 1], x);
      InsertBounded(s[..|s| - 1], x, s[|s| - 1]);
    }
  }

  lemma {:induction false} InsertAdds(s: seq<int>, x: int)
    ensures multiset(Insert(s, x)) == multiset(s) + multiset{x}
  {
    if s != [] && s[|s| - 1] > x {
      InsertAdds(s[..|s| - 1], x);
      assert s == s[..|s| - 1] + [s[|s| - 1]];
    }
  }

  lemma {:induction false} SortedIsSorting(s: seq<int>)
    ensures IsSorted(Sorted(s)) && multiset(Sorted(s)) == multiset(s) && |Sorted(s)| == |s|
  {
    if s != [] {
      SortedIsSorting(s[..|s| - 1]);
      InsertKeeps(Sorted(s[..|s| - 1]), s[|s| - 1]);
      InsertAdds(Sorted(s[..|s| - 1]), s[|s| - 1]);
      assert s == s[..|s| - 1] + [s[|s| - 1]];
    }
  }

  lemma BelowAppend(s: seq<int>, x: int, edge: int)
    ensures Below(s + [x], edge) == Below(s, edge) + (if x < edge then 1 else 0)
  {
    assert (s + [x])[..|s|] == s;
  }

  lemma {:induction false} BelowInsert(s: seq<int>, x: int, edge: int)
    ensures Below(Insert(s, x), edge) == Below(s, edge) + (if x < edge then 1 else 0)
  {
    if s == [] || s[|s| - 1] <= x {
      BelowAppend(s, x, edge);
    } else {
      BelowInsert(s[..|s| - 1], x, edge);
      BelowAppend(Insert(s[..|s| - 1], x), s[|s| - 1], edge);
    }
  }

  lemma {:induction false} BelowSorted(s: seq<int>, edge: int)
    ensures Below(Sorted(s), edge) == Below(s, edge)
  {
    if s != [] {
      BelowSorted(s[..|s| - 1], edge);
      BelowInsert(Sorted(s[..|s| - 1]), s[|s| - 1], edge);
    }
  }

  /** In a sorted sequence exactly the first `Below(s, edge)` places hold smaller values. */
  lemma {:induction false} SortedPlaces(s: seq<int>, edge: int)
    requires IsSorted(s)
    ensures Below(s, edge) <= |s|
    ensures forall k :: 0 <= k < |s| ==> (s[k] < edge <==> k < Below(s, edge))
  {
    if s != [] {
      var n := |s| - 1;
      SortedPlaces(s[..n], edge);
      forall k | 0 <= k < |s|
        ensures s[k] < edge <==> k < Below(s, edge)
      {
        assert k < n ==> s[..n][k] == s[k];
        assert n > 0 ==> s[..n][n - 1] == s[n - 1] <= s[n];
      }
    }
  }

  /** Nearest rank: the value at place `ceil(p * n)`, counted from one and kept within the sequence. */
  function Percentile(sorted: seq<int>, p: real): int {
    if sorted == [] then 0
    else
      var rank := Want(p, |sorted|);
      var index := if rank > 1 then rank - 1 else 0;
      sorted[if index >= |sorted| then |sorted| - 1 else index]
  }

  /** The rank a percentile asks for. */
  function Rank(p: real, n: nat): nat
    requires n > 0
  {
    var rank := Want(p, n);
    if rank < 1 then 1 else if rank > n then n else rank
  }

  /** Whole numbers below the rank asked for are those below `p * n`. */
  lemma WantIsCeiling(p: real, n: nat, k: int)
    ensures k < Want(p, n) <==> k as real < p * n as real
  {
    var x := -(p * n as real);
    assert x.Floor as real <= x < x.Floor as real + 1.0;
  }

  /** `v` stands at the fraction `p` of the samples: fewer lie below it, and as many not above it. */
  ghost predicate AtFraction(samples: seq<int>, p: real, v: int) {
    Below(samples, v) as real < p * |samples| as real <= Below(samples, v + 1) as real
  }

  /**
   * The percentile is the one value that stands at the fraction asked for, whatever order the
   * samples came in; up to zero it is the least sample, and beyond one the greatest.
   */
  lemma PercentileIsNearestRank(samples: seq<int>, p: real, v: int)
    requires samples != []
    ensures 0.0 < p <= 1.0 ==> (AtFraction(samples, p, v) <==> v == Percentile(Sorted(samples), p))
    ensures p <= 0.0 ==> (Below(samples, v) == 0 < Below(samples, v + 1) <==> v == Percentile(Sorted(samples), p))
    ensures p > 1.0 ==>
      (Below(samples, v) < |samples| == Below(samples, v + 1) <==> v == Percentile(Sorted(samples), p))
  {
    hide Below, Sorted, Percentile, Want;
    PercentileIsRanked(samples, p, v);
    RankInRange(p, |samples|);
    WantIsCeiling(p, |samples|, Below(samples, v));
    WantIsCeiling(p, |samples|, Below(samples, v + 1));
  }

  lemma PercentileIsRanked(samples: seq<int>, p: real, v: int)
    requires samples != []
    ensures Below(samples, v) < Rank(p, |samples|) <= Below(samples, v + 1) <==> v == Percentile(Sorted(samples), p)
  {
    hide Below, Sorted, Percentile, Want;
    SortedIsSorting(samples);
    BelowSorted(samples, v);
    BelowSorted(samples, v + 1);
    RankPlaces(Sorted(samples), p);
    SortedPlaces(Sorted(samples), v);
    SortedPlaces(Sorted(samples), v + 1);
  }

  lemma RankPlaces(s: seq<int>, p: real)
    requires s != []
    ensures Percentile(s, p) == s[Rank(p, |s|) - 1]
  {
    hide Want;
  }

  datatype Summary = Summary(p50: int, p95: int, p99: int, max: int)

  /** The quartet that is reported: in order, and all of them samples. */
  function Summarize(samples: seq<int>): Summary {
    if samples == [] then Summary(0, 0, 0, 0)
    else
      var s := Sorted(samples);
      Summary(Percentile(s, 0.50), Percentile(s, 0.95), Percentile(s, 0.99),
              if s == [] then 0 else s[|s| - 1])
  }

  lemma PercentilesRise(s: seq<int>, p: real, q: real)
    requires s != [] && IsSorted(s) && p <= q
    ensures Percentile(s, p) <= Percentile(s, q) <= s[|s| - 1]
    ensures Percentile(s, p) in s
  {
    hide Want;
    RanksRise(p, q, |s|);
  }

  lemma RanksRise(p: real, q: real, n: nat)
    requires p <= q
    ensures Want(p, n) <= Want(q, n)
  {
    assert p * n as real <= q * n as real;
  }

  lemma SameMembers(s: seq<int>, t: seq<int>)
    requires multiset(s) == multiset(t)
    ensures forall x :: x in s <==> x in t
  {
    assert forall x :: x in s <==> x in multiset(s);
    assert forall x :: x in t <==> x in multiset(t);
  }

  lemma SummaryInOrder(samples: seq<int>)
    requires samples != []
    ensures var r := Summarize(samples);
            && r.p50 <= r.p95 <= r.p99 <= r.max
            && r.p50 in samples && r.p95 in samples && r.p99 in samples && r.max in samples
            && (forall x :: x in samples ==> x <= r.max)
            && AtFraction(samples, 0.50, r.p50) && AtFraction(samples, 0.95, r.p95) && AtFraction(samples, 0.99, r.p99)
  {
    hide Percentile, Sorted, AtFraction;
    var s := Sorted(samples);
    PercentileIsNearestRank(samples, 0.50, Percentile(s, 0.50));
    PercentileIsNearestRank(samples, 0.95, Percentile(s, 0.95));
    PercentileIsNearestRank(samples, 0.99, Percentile(s, 0.99));
    SortedIsSorting(samples);
    SameMembers(s, samples);
    PercentilesRise(s, 0.50, 0.95);
    PercentilesRise(s, 0.95, 0.99);
    PercentilesRise(s, 0.99, 0.99);
  }

  // ---- the histogram -------------------------------------------------------------------------

  function Clamp(elapsed: int): nat {
    if elapsed < 0 then 0 else if elapsed > MAX then MAX else elapsed
  }

  /** The number of samples in bucket `b`. */
  function InBucket(samples: seq<int>, b: int): nat {
    if samples == [] then 0
    else InBucket(samples[..|samples| - 1], b) + (if samples[|samples| - 1] / BUCKET == b then 1 else 0)
  }

  function Sum(samples: seq<int>): int {
    if samples == [] then 0 else Sum(samples[..|samples| - 1]) + samples[|samples| - 1]
  }

  lemma {:induction false} NextBucket(samples: seq<int>, b: int)
    ensures Below(samples, BUCKET * (b + 1)) == Below(samples, BUCKET * b) + InBucket(samples, b) <= |samples|
  {
    if samples != [] {
      NextBucket(samples[..|samples| - 1], b);
    }
  }

  lemma {:induction false} AllBelow(samples: seq<int>, edge: int)
    ensures (forall k :: 0 <= k < |samples| ==> samples[k] < edge) ==> Below(samples, edge) == |samples|
    ensures (forall k :: 0 <= k < |samples| ==> samples[k] >= edge) ==> Below(samples, edge) == 0
  {
    if samples != [] {
      var front := samples[..|samples| - 1];
      AllBelow(front, edge);
      assert forall k :: 0 <= k < |front| ==> front[k] == samples[k];
    }
  }

  lemma PlaceOfPercentile(sorted: seq<int>, p: real)
    requires sorted != [] && 0.0 < p <= 1.0
    ensures var want := Want(p, |sorted|);
            1 <= want <= |sorted| && Percentile(sorted, p) == sorted[want - 1]
  {
    hide Want;
    RankInRange(p, |sorted|);
  }

  lemma SortedBetween(s: seq<int>, want: int, low: int, high: int)
    requires IsSorted(s) && 1 <= want <= |s|
    requires Below(s, low) < want <= Below(s, high)
    ensures low <= s[want - 1] < high
  {
    hide Below;
    SortedPlaces(s, low);
    SortedPlaces(s, high);
  }

  /** The nearest-rank sample lies in the bucket where the running count reaches its rank. */
  lemma BucketHoldsRank(samples: seq<int>, p: real, b: nat)
    requires samples != [] && 0.0 < p <= 1.0
    requires Below(samples, BUCKET * b) < Want(p, |samples|) <= Below(samples, BUCKET * (b + 1))
    ensures BUCKET * b <= Percentile(Sorted(samples), p) < BUCKET * b + BUCKET
  {
    hide Below, Sorted, Percentile, Want, IsSorted;
    SortedIsSorting(samples);
    var s, want := Sorted(samples), Want(p, |samples|);
    RankInRange(p, |samples|);
    BelowSorted(samples, BUCKET * b);
    BelowSorted(samples, BUCKET * (b + 1));
    PlaceOfPercentile(s, p);
    SortedBetween(s, want, BUCKET * b, BUCKET * (b + 1));
  }

  lemma RankInRange(p: real, n: nat)
    requires n > 0
    ensures Want(p, n) <= n <==> p <= 1.0
    ensures 1 <= Want(p, n) <==> 0.0 < p
  {
    var x := p * n as real;
    if p <= 1.0 {
      assert p * n as real <= 1.0 * n as real;
    } else {
      assert p * n as real > 1.0 * n as real;
    }
    if p > 0.0 {
      assert p * n as real > 0.0;
    } else {
      assert p * n as real <= 0.0;
    }
  }

  function BucketOf(us: nat): (b: nat)
    ensures us <= MAX ==> b < BUCKETS
  {
    us / BUCKET
  }

  /** Each counter holds the number of samples in its bucket. */
  ghost predicate Tallied(counts: seq<nat>, samples: seq<int>) {
    |counts| == BUCKETS && forall b :: 0 <= b < BUCKETS ==> counts[b] == InBucket(samples, b)
  }

  lemma TallyAppended(counts: seq<nat>, samples: seq<int>, us: nat)
    requires Tallied(counts, samples) && us <= MAX
    ensures Tallied(counts[BucketOf(us) := counts[BucketOf(us)] + 1], samples + [us])
  {
    assert (samples + [us])[..|samples|] == samples;
  }

  lemma InRangeAppended(samples: seq<int>, us: nat)
    requires InRange(samples) && us <= MAX
    ensures InRange(samples + [us])
  {
  }

  lemma SumAppended(samples: seq<int>, us: nat)
    ensures Sum(samples + [us]) == Sum(samples) + us
  {
    assert (samples + [us])[..|samples|] == samples;
  }

  ghost predicate InRange(samples: seq<int>) {
    forall k :: 0 <= k < |samples| ==> 0 <= samples[k] <= MAX
  }

  /** The least and the greatest sample; without samples, the values every sample replaces. */
  ghost predicate Extremes(samples: seq<int>, min: nat, max: nat) {
    if samples == [] then min == UNSET && max == 0
    else
      && (forall k :: 0 <= k < |samples| ==> min <= samples[k] <= max)
      && (exists k :: 0 <= k < |samples| && samples[k] == min)
      && (exists k :: 0 <= k < |samples| && samples[k] == max)
  }

  lemma ExtremesAppended(samples: seq<int>, min: nat, max: nat, us: nat)
    requires Extremes(samples, min, max) && us <= MAX
    ensures Extremes(samples + [us], if us < min then us else min, if us > max then us else max)
  {
    var more := samples + [us];
    assert more[|samples|] == us;
    if samples != [] {
      var j :| 0 <= j < |samples| && samples[j] == min;
      var k :| 0 <= k < |samples| && samples[k] == max;
      assert more[j] == min && more[k] == max;
    }
  }

  class Histogram {
    const buckets: array<nat>
    var count: nat
    var sum: int
    var min: nat
    var max: nat
    ghost var samples: seq<int>

    /** The fields hold what the samples, cut to the range of the histogram, amount to. */
    ghost predicate Valid()
      reads this, buckets
    {
      && buckets.Length == BUCKETS
      && count == |samples| && sum == Sum(samples)
      && Tallied(buckets[..], samples)
      && InRange(samples) && Extremes(samples, min, max)
    }

    constructor ()
      ensures Valid() && samples == [] && fresh(buckets)
    {
      buckets := new nat[BUCKETS](_ => 0);
      count, sum, min, max := 0, 0, UNSET, 0;
      samples := [];
    }

    method Record(elapsed: int)
      requires Valid()
      modifies this, buckets
      ensures Valid() && samples == old(samples) + [Clamp(elapsed)]
    {
      hide Sum, Extremes, BucketOf, Tallied, InRange;
      var us: nat := if elapsed < 0 then 0 else elapsed;
      us := if us < MAX then us else MAX;
      assert us == Clamp(elapsed);
      ghost var more := samples + [us];
      TallyAppended(buckets[..], samples, us);
      SumAppended(samples, us);
      ExtremesAppended(samples, min, max, us);
      assert InRange(more) by { InRangeAppended(samples, us); }
      var b := BucketOf(us);
      buckets[b] := buckets[b] + 1;
      assert buckets[..] == old(buckets[..])[b := old(buckets[..])[b] + 1];
      count := count + 1;
      sum := sum + us;
      min := if us < min then us else min;
      max := if us > max then us else max;
      samples := more;
    }

    /**
     * The lower edge of the bucket that holds the nearest-rank sample, for every percentile above
     * zero up to one; the search never runs off the end unless more than all samples are asked for.
     */
    method P(p: real) returns (us: nat, ghost ranOff: bool)
      requires Valid() && p >= 0.0
      ensures count == 0 ==> us == 0
      ensures count > 0 && 0.0 < p <= 1.0 ==>
        && us % BUCKET == 0
        && Below(samples, us) as real < p * count as real <= Below(samples, us + BUCKET) as real
        && us <= Percentile(Sorted(samples), p) < us + BUCKET
      ensures ranOff <==> count > 0 && p > 1.0
      ensures ranOff ==> us == MAX
      ensures p == 0.0 ==> us == 0
    {
      hide Below, InBucket, Want, Percentile, Sorted;
      if count == 0 { return 0, false; }
      var want := Want(p, count);
      RankInRange(p, count);
      var seen, i := 0, 0;
      AllBelow(samples, 0);
      while i < buckets.Length
        invariant 0 <= i <= BUCKETS && seen == Below(samples, BUCKET * i) && (i == 0 || seen < want)
      {
        NextBucket(samples, i);
        seen := seen + buckets[i];
        if seen >= want {
          if 0.0 < p <= 1.0 {
            BucketHoldsRank(samples, p, i);
            WantIsCeiling(p, count, Below(samples, BUCKET * i));
            WantIsCeiling(p, count, Below(samples, BUCKET * (i + 1)));
          }
          return i * BUCKET, false;
        }
        i := i + 1;
      }
      AllBelow(samples, BUCKET * BUCKETS);
      return MAX, true;
    }
  }
}
