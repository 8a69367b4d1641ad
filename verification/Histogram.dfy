/** Latency histograms and nearest-rank percentiles in unsigned 64-bit arithmetic. */
module Histogram {
  import opened Wrappers
  import opened Sequences

  const BUCKETS := 17
  const MAX_UINT64 := 0xFFFF_FFFF_FFFF_FFFF
  const BOUNDS := [50, 100, 250, 500, 1000, 2000, 3000, 5000, 8000, 10000, 15000, 30000, 60000, 120000, 300000, 600000]

  /** Counts per bucket, each a 64-bit word. */
  type Counts = c: seq<nat> | |c| == BUCKETS && forall i :: 0 <= i < BUCKETS ==> c[i] <= MAX_UINT64
    witness [0, 0, 0, 0, 0, 0, 0, 0, 0, 0, 0, 0, 0, 0, 0, 0, 0]

  /** What a 64-bit register keeps. */
  function Word(n: nat): nat { n % (MAX_UINT64 + 1) }

  datatype HistogramError = InvalidHistogram | InvalidMetric | NoSamples

  /** The bucket that holds the percentile, and the rank that was looked for. */
  datatype Percentile = Percentile(percent: nat, rank: nat, samples: nat, bucket: nat)

  // ---------- counting ----------

  function Sum(c: seq<nat>): nat { if c == [] then 0 else Sum(c[..|c| - 1]) + c[|c| - 1] }

  lemma {:induction false} SumPrefix(c: seq<nat>, n: nat)
    requires n <= |c|
    ensures Sum(c[..n]) <= Sum(c)
    decreases |c|
  {
    if n < |c| {
      SumPrefix(c[..|c| - 1], n);
      assert c[..|c| - 1][..n] == c[..n];
    } else {
      assert c[..n] == c;
    }
  }

  lemma SumOrder(c: seq<nat>, a: nat, b: nat)
    requires a <= |c| && b <= |c|
    ensures a <= b ==> Sum(c[..a]) <= Sum(c[..b])
  {
    if a <= b {
      SumPrefix(c[..b], a);
      assert c[..b][..a] == c[..a];
    }
  }

  /** The total, unless it does not fit a word; the guard never lets the sum wrap. */
  method SampleCount(c: Counts) returns (r: Result<nat, HistogramError>)
    ensures r == if Sum(c) <= MAX_UINT64 then Success(Sum(c)) else Failure(InvalidHistogram)
  {
    var total, i := 0, 0;
    while i < BUCKETS
      invariant i <= BUCKETS && total == Sum(c[..i]) <= MAX_UINT64
    {
      assert c[..i + 1][..i] == c[..i];
      SumPrefix(c, i + 1);
      if MAX_UINT64 - total < c[i] { return Failure(InvalidHistogram); }
      total := Word(total + c[i]);
      i := i + 1;
    }
    assert c[..i] == c;
    r := Success(total);
  }

  // ---------- the rank ----------

  function RankOf(samples: nat, percent: nat): nat { samples / 100 * percent + (samples % 100 * percent + 99) / 100 }

  lemma Split(q: nat, m: nat, percent: nat)
    ensures (100 * q + m) * percent == 100 * (q * percent) + m * percent
  {
  }

  lemma AtMostHundredfold(x: nat, percent: nat)
    requires percent <= 100
    ensures 0 <= x * percent <= 100 * x
    ensures x >= 1 && percent >= 1 ==> x * percent >= 1
  {
  }

  lemma RoundedUp(a: nat, b: nat)
    ensures 100 * a + b <= 100 * (a + (b + 99) / 100) < 100 * a + b + 100
  {
  }

  /** The rank is the exact quotient rounded up: split into hundreds so that no product is large. */
  lemma RankIsCeiling(samples: nat, percent: nat)
    requires percent <= 100
    ensures samples * percent <= 100 * RankOf(samples, percent) < samples * percent + 100
    ensures RankOf(samples, percent) <= samples
    ensures samples >= 1 && percent >= 1 ==> RankOf(samples, percent) >= 1
  {
    var q, m := samples / 100, samples % 100;
    assert samples == 100 * q + m;
    Split(q, m, percent);
    RoundedUp(q * percent, m * percent);
    AtMostHundredfold(samples, percent);
  }

  lemma RankMonotone(samples: nat, p: nat, q: nat)
    requires p <= q <= 100
    ensures RankOf(samples, p) <= RankOf(samples, q)
  {
    RankIsCeiling(samples, p);
    RankIsCeiling(samples, q);
    Ordered(samples, p, q);
  }

  lemma Ordered(samples: nat, p: nat, q: nat)
    requires p <= q
    ensures samples * p <= samples * q
  {
  }

  lemma WordKeeps(n: nat)
    requires n <= MAX_UINT64
    ensures Word(n) == n
  {
  }

  /** As computed in words: every intermediate value fits, so nothing wraps. */
  method PercentileRank(samples: nat, percent: nat) returns (rank: nat)
    requires samples <= MAX_UINT64 && percent <= 100
    ensures rank == RankOf(samples, percent) <= samples
  {
    var q, m := samples / 100, samples % 100;
    RankIsCeiling(samples, percent);
    AtMostHundredfold(q, percent);
    AtMostHundredfold(m, percent);
    WordKeeps(q * percent);
    WordKeeps(m * percent);
    var whole := Word(q * percent);
    var remainder := Word(m * percent);
    WordKeeps(remainder + 99);
    WordKeeps(RankOf(samples, percent));
    rank := Word(whole + Word(remainder + 99) / 100);
  }

  // ---------- the bucket of a rank ----------

  /** The first bucket at which the running total reaches the rank. */
  function FirstReaching(c: seq<nat>, rank: nat): (k: nat)
    requires rank <= Sum(c) && 1 <= rank
    ensures k < |c| && Sum(c[..k]) < rank <= Sum(c[..k + 1])
  {
    var n := |c| - 1;
    if rank > Sum(c[..n]) then
      assert c[..n + 1] == c;
      n
    else
      var k := FirstReaching(c[..n], rank);
      assert c[..n][..k] == c[..k] && c[..n][..k + 1] == c[..k + 1];
      k
  }

  lemma ReachedOnce(c: seq<nat>, rank: nat, k: nat)
    requires 1 <= rank <= Sum(c) && k < |c| && Sum(c[..k]) < rank <= Sum(c[..k + 1])
    ensures FirstReaching(c, rank) == k
  {
    var f := FirstReaching(c, rank);
    SumOrder(c, f + 1, k);
    SumOrder(c, k + 1, f);
  }

  function PercentileOf(c: Counts, percent: nat): Result<Percentile, HistogramError> {
    if percent == 0 || percent > 100 then Failure(InvalidMetric)
    else if Sum(c) > MAX_UINT64 then Failure(InvalidHistogram)
    else if Sum(c) == 0 then Failure(NoSamples)
    else
      RankIsCeiling(Sum(c), percent);
      var rank := RankOf(Sum(c), percent);
      Success(Percentile(percent, rank, Sum(c), FirstReaching(c, rank)))
  }

  /**
   Adds the counts up until they reach the rank. The running total is not guarded; it
   cannot wrap because the total was checked, and the loop always finds its bucket.
   */
  method FindPercentile(c: Counts, percent: nat) returns (r: Result<Percentile, HistogramError>)
    ensures r == PercentileOf(c, percent)
    ensures r.Success? <==> 1 <= percent <= 100 && 1 <= Sum(c) <= MAX_UINT64
    ensures r.Success? ==>
              && r.value.percent == percent && r.value.samples == Sum(c) && RoundedUpTo(r.value.rank, Sum(c), percent)
              && r.value.bucket < BUCKETS && Sum(c[..r.value.bucket]) < r.value.rank <= Sum(c[..r.value.bucket + 1])
    ensures r.Failure? ==>
              r.error == if percent == 0 || percent > 100 then InvalidMetric else if Sum(c) == 0 then NoSamples else InvalidHistogram
  {
    if 1 <= percent <= 100 && Sum(c) >= 1 { RankRounded(Sum(c), percent); }
    if percent == 0 || percent > 100 { return Failure(InvalidMetric); }
    var samples := SampleCount(c);
    if samples.Failure? { return Failure(samples.error); }
    if samples.value == 0 { return Failure(NoSamples); }
    RankIsCeiling(samples.value, percent);
    var rank := PercentileRank(samples.value, percent);
    var cumulative, i := 0, 0;
    assert c[..BUCKETS] == c;
    while i < BUCKETS
      invariant i <= BUCKETS && cumulative == Sum(c[..i]) < rank
    {
      assert c[..i + 1][..i] == c[..i];
      SumPrefix(c, i + 1);
      cumulative := Word(cumulative + c[i]);
      if cumulative >= rank {
        ReachedOnce(c, rank, i);
        return Success(Percentile(percent, rank, samples.value, i));
      }
      i := i + 1;
    }
    assert false;
    r := Failure(InvalidHistogram);
  }

  // ---------- samples and their buckets ----------

  function BucketOf(x: int): (k: nat)
    ensures k < BUCKETS
    ensures k < 16 ==> x <= BOUNDS[k]
    ensures k > 0 ==> x > BOUNDS[k - 1]
  {
    BucketFrom(x, 0)
  }

  function BucketFrom(x: int, k: nat): (b: nat)
    requires k <= 16 && (k > 0 ==> x > BOUNDS[k - 1])
    ensures k <= b <= 16 && (b < 16 ==> x <= BOUNDS[b]) && (b > 0 ==> x > BOUNDS[b - 1])
    decreases 16 - k
  {
    if k == 16 || x <= BOUNDS[k] then k else BucketFrom(x, k + 1)
  }

  /** The buckets by their bounds in milliseconds. */
  lemma BucketTable(x: int)
    ensures BucketOf(x) ==
            if x <= 50 then 0 else if x <= 100 then 1 else if x <= 250 then 2 else if x <= 500 then 3
            else if x <= 1000 then 4 else if x <= 2000 then 5 else if x <= 3000 then 6 else if x <= 5000 then 7
            else if x <= 8000 then 8 else if x <= 10000 then 9 else if x <= 15000 then 10 else if x <= 30000 then 11
            else if x <= 60000 then 12 else if x <= 120000 then 13 else if x <= 300000 then 14 else if x <= 600000 then 15
            else 16
  {
    var k := BucketOf(x);
    assert BOUNDS[0] == 50 && BOUNDS[1] == 100 && BOUNDS[2] == 250 && BOUNDS[3] == 500;
    assert BOUNDS[4] == 1000 && BOUNDS[5] == 2000 && BOUNDS[6] == 3000 && BOUNDS[7] == 5000;
    assert BOUNDS[8] == 8000 && BOUNDS[9] == 10000 && BOUNDS[10] == 15000 && BOUNDS[11] == 30000;
    assert BOUNDS[12] == 60000 && BOUNDS[13] == 120000 && BOUNDS[14] == 300000 && BOUNDS[15] == 600000;
  }

  lemma BoundsIncrease(i: nat, j: nat)
    requires i <= j < 16
    ensures BOUNDS[i] <= BOUNDS[j]
    decreases j - i
  {
    if i < j {
      BoundsIncrease(i, j - 1);
      assert BOUNDS[j - 1] <= BOUNDS[j];
    }
  }

  lemma BucketMonotone(x: int, y: int)
    requires x <= y
    ensures BucketOf(x) <= BucketOf(y)
  {
    if BucketOf(x) > BucketOf(y) { BoundsIncrease(BucketOf(y), BucketOf(x) - 1); }
  }

  function Below(k: nat): int -> bool { (x: int) => BucketOf(x) < k }

  function InBucket(k: nat): int -> bool { (x: int) => BucketOf(x) == k }

  function CountIn(xs: seq<int>, k: nat): nat { |Filter(InBucket(k), xs)| }

  function Tally(xs: seq<int>): (c: seq<nat>)
    ensures |c| == BUCKETS && forall k: nat :: k < BUCKETS ==> c[k] == CountIn(xs, k)
  {
    seq(BUCKETS, k requires 0 <= k => CountIn(xs, k))
  }

  /** A list of samples short enough to be counted in words. */
  predicate Countable(xs: seq<int>) { |xs| <= MAX_UINT64 }

  function Binned(xs: seq<int>): Counts
    requires Countable(xs)
  {
    Tally(xs)
  }

  lemma {:induction false} BelowSplits(xs: seq<int>, k: nat)
    ensures |Filter(Below(k + 1), xs)| == |Filter(Below(k), xs)| + CountIn(xs, k)
  {
    if xs != [] { BelowSplits(xs[..|xs| - 1], k); }
  }

  lemma {:induction false} CumulativeCounts(xs: seq<int>, k: nat)
    requires k <= BUCKETS
    ensures Sum(Tally(xs)[..k]) == |Filter(Below(k), xs)|
  {
    if k == 0 {
      FilterNone(Below(0), xs);
    } else {
      CumulativeCounts(xs, k - 1);
      BelowSplits(xs, k - 1);
      assert Tally(xs)[..k][..k - 1] == Tally(xs)[..k - 1];
    }
  }

  lemma TallyTotal(xs: seq<int>)
    ensures Sum(Tally(xs)) == |xs|
  {
    CumulativeCounts(xs, BUCKETS);
    FilterAll(Below(BUCKETS), xs);
    assert Tally(xs)[..BUCKETS] == Tally(xs);
  }

  predicate Ascending(xs: seq<int>) { forall i, j :: 0 <= i < j < |xs| ==> xs[i] <= xs[j] }

  ghost predicate DownClosed(p: int -> bool) { forall x, y :: x <= y && p(y) ==> p(x) }

  lemma {:induction false} AllBefore(p: int -> bool, xs: seq<int>)
    requires DownClosed(p) && xs != [] && Ascending(xs) && p(xs[|xs| - 1])
    ensures Filter(p, xs[..|xs| - 1]) == xs[..|xs| - 1]
  {
    var n := |xs| - 1;
    forall j | 0 <= j < n ensures p(xs[..n][j]) { assert xs[j] <= xs[n]; }
    FilterAll(p, xs[..n]);
  }

  /** In sorted samples the small ones come first. */
  lemma {:induction false} SmallOnesFirst(p: int -> bool, xs: seq<int>, i: nat)
    requires DownClosed(p) && Ascending(xs) && i < |xs|
    ensures p(xs[i]) <==> i < |Filter(p, xs)|
  {
    var n := |xs| - 1;
    assert xs == xs[..n] + [xs[n]];
    FilterSnoc(p, xs[..n], xs[n]);
    if i < n { SmallOnesFirst(p, xs[..n], i); }
    if p(xs[n]) { AllBefore(p, xs); }
  }

  lemma BelowDownClosed(k: nat)
    ensures DownClosed(Below(k))
  {
    forall x, y | x <= y && Below(k)(y) ensures Below(k)(x) { BucketMonotone(x, y); }
  }

  lemma Between(p: int -> bool, q: int -> bool, xs: seq<int>, i: nat)
    requires DownClosed(p) && DownClosed(q) && Ascending(xs) && i < |xs|
    requires |Filter(p, xs)| <= i < |Filter(q, xs)|
    ensures !p(xs[i]) && q(xs[i])
  {
    SmallOnesFirst(p, xs, i);
    SmallOnesFirst(q, xs, i);
  }

  /** The sample at a rank lies in the first bucket whose running total reaches the rank. */
  lemma RankBucket(xs: seq<int>, rank: nat)
    requires Ascending(xs) && 1 <= rank <= |xs|
    ensures Sum(Tally(xs)) == |xs| && BucketOf(xs[rank - 1]) == FirstReaching(Tally(xs), rank)
  {
    TallyTotal(xs);
    var k := FirstReaching(Tally(xs), rank);
    CumulativeCounts(xs, k);
    CumulativeCounts(xs, k + 1);
    BucketAt(xs, rank, k);
  }

  lemma BucketAt(xs: seq<int>, rank: nat, k: nat)
    requires Ascending(xs) && 1 <= rank <= |xs|
    requires |Filter(Below(k), xs)| < rank <= |Filter(Below(k + 1), xs)|
    ensures BucketOf(xs[rank - 1]) == k
  {
    assert !Below(k)(xs[rank - 1]) && Below(k + 1)(xs[rank - 1]) by {
      BelowDownClosed(k);
      BelowDownClosed(k + 1);
      Between(Below(k), Below(k + 1), xs, rank - 1);
    }
  }

  lemma CountRemoved(p: int -> bool, left: seq<int>, x: int, right: seq<int>)
    ensures |Filter(p, left + [x] + right)| == |Filter(p, left + right)| + if p(x) then 1 else 0
  {
    FilterConcat(p, left + [x], right);
    FilterSnoc(p, left, x);
    FilterConcat(p, left, right);
  }

  /** How many samples meet a condition does not depend on their order. */
  lemma {:induction false} CountPermuted(p: int -> bool, xs: seq<int>, ys: seq<int>)
    requires multiset(xs) == multiset(ys)
    ensures |Filter(p, xs)| == |Filter(p, ys)|
    decreases |xs|
  {
    if xs == [] {
      assert ys == [] by { assert |multiset(ys)| == |ys|; }
    } else {
      var k := RemoveOne(xs, ys);
      CountPermuted(p, xs[..|xs| - 1], ys[..k] + ys[k + 1..]);
      assert |Filter(p, ys)| == |Filter(p, ys[..k] + ys[k + 1..])| + if p(ys[k]) then 1 else 0 by {
        CountRemoved(p, ys[..k], ys[k], ys[k + 1..]);
        assert ys == ys[..k] + [ys[k]] + ys[k + 1..];
      }
    }
  }

  lemma TallyPermuted(xs: seq<int>, ys: seq<int>)
    requires multiset(xs) == multiset(ys)
    ensures Tally(xs) == Tally(ys) && |xs| == |ys|
  {
    forall k | 0 <= k < BUCKETS ensures Tally(xs)[k] == Tally(ys)[k] { CountPermuted(InBucket(k), xs, ys); }
    TallyTotal(xs);
    TallyTotal(ys);
  }

  /** The same samples, smallest first. */
  ghost predicate InOrder(sorted: seq<int>, xs: seq<int>) { multiset(sorted) == multiset(xs) && Ascending(sorted) }

  /** The exact position rounded up. */
  predicate RoundedUpTo(rank: nat, samples: nat, percent: nat) {
    samples * percent <= 100 * rank < samples * percent + 100 && 1 <= rank <= samples
  }

  predicate HeldIn(bucket: nat, x: int) {
    bucket < BUCKETS && (bucket > 0 ==> BOUNDS[bucket - 1] < x) && (bucket < 16 ==> x <= BOUNDS[bucket])
  }

  /** The sample at the rounded-up position of the ordered samples lies in the bucket. */
  ghost predicate NearestRank(p: Result<Percentile, HistogramError>, sorted: seq<int>, percent: nat) {
    && p.Success? && p.value.samples == |sorted|
    && RoundedUpTo(p.value.rank, |sorted|, percent)
    && HeldIn(p.value.bucket, sorted[p.value.rank - 1])
  }

  lemma RankRounded(samples: nat, percent: nat)
    requires 1 <= samples && 1 <= percent <= 100
    ensures RoundedUpTo(RankOf(samples, percent), samples, percent)
  {
    RankIsCeiling(samples, percent);
  }

  lemma HeldInItsBucket(x: int)
    ensures HeldIn(BucketOf(x), x)
  {
  }

  lemma RankAndBucket(sorted: seq<int>, rank: nat, samples: nat, percent: nat, bucket: nat)
    requires samples == |sorted| && RoundedUpTo(rank, samples, percent) && BucketOf(sorted[rank - 1]) == bucket
    ensures NearestRank(Success(Percentile(percent, rank, samples, bucket)), sorted, percent)
  {
    HeldInItsBucket(sorted[rank - 1]);
  }

  lemma OrderedNearestRank(sorted: seq<int>, percent: nat)
    requires Ascending(sorted) && sorted != [] && Countable(sorted) && 1 <= percent <= 100
    ensures NearestRank(PercentileOf(Binned(sorted), percent), sorted, percent)
  {
    var rank := RankOf(|sorted|, percent);
    RankRounded(|sorted|, percent);
    RankBucket(sorted, rank);
    RankAndBucket(sorted, rank, |sorted|, percent, FirstReaching(Binned(sorted), rank));
  }

  /**
   The percentile of binned samples refines the nearest-rank definition, in whatever order
   they came: of the samples put in order, the one at the rounded-up position lies in the
   returned bucket.
   */
  lemma PercentileIsNearestRank(xs: seq<int>, sorted: seq<int>, percent: nat)
    requires InOrder(sorted, xs) && xs != [] && Countable(xs) && 1 <= percent <= 100
    ensures NearestRank(PercentileOf(Binned(xs), percent), sorted, percent)
  {
    TallyPermuted(sorted, xs);
    OrderedNearestRank(sorted, percent);
  }

  lemma LaterBucket(c: seq<nat>, a: nat, b: nat)
    requires 1 <= a <= b <= Sum(c)
    ensures FirstReaching(c, a) <= FirstReaching(c, b)
  {
    SumOrder(c, FirstReaching(c, b) + 1, FirstReaching(c, a));
  }

  /** Higher percentiles lie in the same bucket or a later one, for any histogram. */
  lemma PercentilesOrdered(c: Counts, p: nat, q: nat)
    requires 1 <= p <= q <= 100 && PercentileOf(c, p).Success?
    ensures PercentileOf(c, q).Success?
    ensures PercentileOf(c, p).value.bucket <= PercentileOf(c, q).value.bucket
  {
    RankIsCeiling(Sum(c), p);
    RankIsCeiling(Sum(c), q);
    RankMonotone(Sum(c), p, q);
    LaterBucket(c, RankOf(Sum(c), p), RankOf(Sum(c), q));
  }

  // ---------- merging ----------

  function AddCounts(a: seq<nat>, b: seq<nat>): (c: seq<nat>)
    requires |a| == |b| == BUCKETS
    ensures |c| == BUCKETS && forall i :: 0 <= i < BUCKETS ==> c[i] == a[i] + b[i]
  {
    seq(BUCKETS, i requires 0 <= i < BUCKETS => a[i] + b[i])
  }

  const EMPTY: Counts := [0, 0, 0, 0, 0, 0, 0, 0, 0, 0, 0, 0, 0, 0, 0, 0, 0]

  /** The exact totals per bucket. */
  function Totals(hs: seq<Counts>): (c: seq<nat>)
    ensures |c| == BUCKETS
  {
    if hs == [] then EMPTY else AddCounts(Totals(hs[..|hs| - 1]), hs[|hs| - 1])
  }

  predicate Fits(c: seq<nat>) { forall i :: 0 <= i < |c| ==> c[i] <= MAX_UINT64 }

  lemma {:induction false} TotalsGrow(hs: seq<Counts>, n: nat, i: nat)
    requires n <= |hs| && i < BUCKETS
    ensures Totals(hs[..n])[i] <= Totals(hs)[i]
    decreases |hs|
  {
    if n < |hs| {
      TotalsGrow(hs[..|hs| - 1], n, i);
      assert hs[..|hs| - 1][..n] == hs[..n];
    } else {
      assert hs[..n] == hs;
    }
  }

  /** Adds one histogram in words, or reports that some bucket would wrap. */
  method AddInto(merged: Counts, h: Counts) returns (r: Option<Counts>)
    ensures r.Some? <==> Fits(AddCounts(merged, h))
    ensures r.Some? ==> r.value == AddCounts(merged, h)
  {
    var sums, i := [], 0;
    while i < BUCKETS
      invariant i == |sums| <= BUCKETS
      invariant forall k :: 0 <= k < i ==> sums[k] == merged[k] + h[k] <= MAX_UINT64
    {
      if MAX_UINT64 - merged[i] < h[i] {
        assert AddCounts(merged, h)[i] > MAX_UINT64;
        return None;
      }
      sums := sums + [Word(merged[i] + h[i])];
      i := i + 1;
    }
    r := Some(sums);
  }

  /** Merging succeeds exactly when there is something to merge and no bucket and no total wraps. */
  method Merge(hs: seq<Counts>) returns (r: Result<Counts, HistogramError>)
    ensures r.Success? <==> hs != [] && Fits(Totals(hs)) && Sum(Totals(hs)) <= MAX_UINT64
    ensures r.Success? ==> r.value == Totals(hs)
    ensures r.Failure? ==> r.error == InvalidHistogram
  {
    if hs == [] { return Failure(InvalidHistogram); }
    var merged: Counts, n := EMPTY, 0;
    while n < |hs|
      invariant n <= |hs| && merged == Totals(hs[..n])
    {
      assert hs[..n + 1][..n] == hs[..n];
      var next := AddInto(merged, hs[n]);
      if next.None? {
        var i :| 0 <= i < BUCKETS && AddCounts(merged, hs[n])[i] > MAX_UINT64;
        TotalsGrow(hs, n + 1, i);
        return Failure(InvalidHistogram);
      }
      merged := next.value;
      n := n + 1;
    }
    assert hs[..n] == hs;
    var total := SampleCount(merged);
    r := if total.Failure? then Failure(InvalidHistogram) else Success(merged);
  }

  function Flatten(xss: seq<seq<int>>): seq<int> {
    if xss == [] then [] else Flatten(xss[..|xss| - 1]) + xss[|xss| - 1]
  }

  lemma CountConcat(xs: seq<int>, ys: seq<int>, k: nat)
    ensures CountIn(xs + ys, k) == CountIn(xs, k) + CountIn(ys, k)
  {
    FilterConcat(InBucket(k), xs, ys);
  }

  lemma TallyConcat(xs: seq<int>, ys: seq<int>)
    ensures Tally(xs + ys) == AddCounts(Tally(xs), Tally(ys))
  {
    forall k | 0 <= k < BUCKETS ensures Tally(xs + ys)[k] == Tally(xs)[k] + Tally(ys)[k] {
      CountConcat(xs, ys, k);
    }
  }

  function BinnedAll(xss: seq<seq<int>>): (hs: seq<Counts>)
    requires forall i :: 0 <= i < |xss| ==> Countable(xss[i])
    ensures |hs| == |xss|
  {
    seq(|xss|, i requires 0 <= i < |xss| => Binned(xss[i]))
  }

  /** Merging histograms of sample lists gives the histogram of the concatenated list. */
  lemma {:induction false} MergeIsConcatenation(xss: seq<seq<int>>)
    requires forall i :: 0 <= i < |xss| ==> Countable(xss[i])
    ensures Totals(BinnedAll(xss)) == Tally(Flatten(xss))
  {
    if xss == [] {
      assert Tally([]) == EMPTY;
    } else {
      var n := |xss| - 1;
      MergeIsConcatenation(xss[..n]);
      assert BinnedAll(xss)[..n] == BinnedAll(xss[..n]);
      TallyConcat(Flatten(xss[..n]), xss[n]);
    }
  }

  datatype Summary = Summary(counts: Counts, samples: nat, p50: Percentile, p90: Percentile, p95: Percentile)

  /** Merges before ranking, so that the percentiles are those of all samples together. */
  method Summarize(hs: seq<Counts>) returns (r: Result<Summary, HistogramError>)
    ensures r.Success? <==> hs != [] && Fits(Totals(hs)) && 1 <= Sum(Totals(hs)) <= MAX_UINT64
    ensures r.Success? ==>
              && r.value.counts == Totals(hs) && r.value.samples == Sum(Totals(hs))
              && Success(r.value.p50) == PercentileOf(r.value.counts, 50)
              && Success(r.value.p90) == PercentileOf(r.value.counts, 90)
              && Success(r.value.p95) == PercentileOf(r.value.counts, 95)
              && r.value.p50.bucket <= r.value.p90.bucket <= r.value.p95.bucket
  {
    var merged := Merge(hs);
    if merged.Failure? { return Failure(merged.error); }
    var p50 := FindPercentile(merged.value, 50);
    if p50.Failure? { return Failure(p50.error); }
    PercentilesOrdered(merged.value, 50, 90);
    PercentilesOrdered(merged.value, 90, 95);
    var p90 := FindPercentile(merged.value, 90);
    var p95 := FindPercentile(merged.value, 95);
    r := Success(Summary(merged.value, p50.value.samples, p50.value, p90.value, p95.value));
  }

  /** Summarizing the histograms of several lists is summarizing the histogram of all their samples. */
  lemma SummaryOfConcatenation(xss: seq<seq<int>>, percent: nat)
    requires forall i :: 0 <= i < |xss| ==> Countable(xss[i])
    requires Countable(Flatten(xss))
    ensures Fits(Totals(BinnedAll(xss)))
    ensures PercentileOf(Totals(BinnedAll(xss)), percent) == PercentileOf(Binned(Flatten(xss)), percent)
  {
    MergeIsConcatenation(xss);
    assert Totals(BinnedAll(xss)) == Binned(Flatten(xss));
  }

  /** So a percentile of merged histograms is the nearest rank among all their samples together. */
  lemma MergedIsNearestRank(xss: seq<seq<int>>, sorted: seq<int>, percent: nat)
    requires forall i :: 0 <= i < |xss| ==> Countable(xss[i])
    requires InOrder(sorted, Flatten(xss)) && sorted != [] && Countable(sorted) && 1 <= percent <= 100
    ensures Fits(Totals(BinnedAll(xss)))
    ensures NearestRank(PercentileOf(Totals(BinnedAll(xss)), percent), sorted, percent)
  {
    TallyPermuted(sorted, Flatten(xss));
    assert Flatten(xss) != [];
    SummaryOfConcatenation(xss, percent);
    PercentileIsNearestRank(Flatten(xss), sorted, percent);
  }
}
