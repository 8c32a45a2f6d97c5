/**
 The load generator's latency histogram: 1 us bins to 10 ms, 10 us bins to
 100 ms, 100 us bins to 1 s, and one overflow bin.
 */
module Histogram {
  import opened Machine

  const OVERFLOW: nat := 28000
  const BUCKETS: nat := 28001

  function Bucket(us: nat): (b: nat)
    ensures b < BUCKETS
  {
    if us < 10000 then us
    else if us < 100000 then 10000 + (us - 10000) / 10
    else if us < 1000000 then 19000 + (us - 100000) / 100
    else OVERFLOW
  }

  function UpperEdge(bucket: nat): nat {
    if bucket < 10000 then bucket + 1
    else if bucket < 19000 then 10000 + (bucket - 10000 + 1) * 10
    else if bucket < OVERFLOW then 100000 + (bucket - 19000 + 1) * 100
    else 1000000
  }

  function BinWidth(us: nat): nat {
    if us < 10000 then 1 else if us < 100000 then 10 else 100
  }

  lemma BucketMonotone(a: nat, b: nat)
    requires a <= b
    ensures Bucket(a) <= Bucket(b)
  {
  }

  /** Below one second the edge is above the sample, by at most one bin. */
  lemma EdgeIsTight(us: nat)
    ensures us < 1000000 ==> us < UpperEdge(Bucket(us)) <= us + BinWidth(us)
    ensures us >= 1000000 ==> UpperEdge(Bucket(us)) == 1000000
  {
  }

  // ---------- counting ----------

  function Count(samples: seq<nat>, bucket: nat): nat {
    if samples == [] then 0
    else Count(samples[..|samples| - 1], bucket) + if Bucket(samples[|samples| - 1]) == bucket then 1 else 0
  }

  function Sum(hist: seq<nat>): nat {
    if hist == [] then 0 else Sum(hist[..|hist| - 1]) + hist[|hist| - 1]
  }

  /** `hist` is what recording each sample in its bucket produces. */
  predicate Records(hist: seq<nat>, samples: seq<nat>) {
    |hist| == BUCKETS && forall b :: 0 <= b < BUCKETS ==> hist[b] == Count(samples, b)
  }

  predicate Ascending(s: seq<nat>) {
    forall i, j :: 0 <= i < j < |s| ==> s[i] <= s[j]
  }

  /** Samples that fall in the first n buckets. */
  function Below(samples: seq<nat>, n: nat): nat {
    if samples == [] then 0
    else Below(samples[..|samples| - 1], n) + if Bucket(samples[|samples| - 1]) < n then 1 else 0
  }

  lemma {:induction false} BelowGrows(samples: seq<nat>, n: nat)
    ensures Below(samples, n + 1) == Below(samples, n) + Count(samples, n)
  {
    if samples != [] {
      BelowGrows(samples[..|samples| - 1], n);
    }
  }

  lemma {:induction false} BelowNone(samples: seq<nat>)
    ensures Below(samples, 0) == 0
  {
    if samples != [] {
      BelowNone(samples[..|samples| - 1]);
    }
  }

  lemma {:induction false} BelowAll(samples: seq<nat>)
    ensures Below(samples, BUCKETS) == |samples|
  {
    if samples != [] {
      BelowAll(samples[..|samples| - 1]);
    }
  }

  /** Running totals of the histogram are cumulative sample counts. */
  lemma {:induction false} SumIsBelow(hist: seq<nat>, samples: seq<nat>, n: nat)
    requires Records(hist, samples) && n <= BUCKETS
    ensures Sum(hist[..n]) == Below(samples, n)
  {
    if n == 0 {
      BelowNone(samples);
    } else {
      SumIsBelow(hist, samples, n - 1);
      BelowGrows(samples, n - 1);
      assert hist[..n][..n - 1] == hist[..n - 1];
    }
  }

  /** In ascending samples, the k-th falls in the first n buckets iff more than k samples do. */
  lemma {:induction false} BelowRank(sorted: seq<nat>, n: nat, k: nat)
    requires Ascending(sorted) && k < |sorted|
    ensures Bucket(sorted[k]) < n <==> Below(sorted, n) > k
  {
    var last := |sorted| - 1;
    var front := sorted[..last];
    BelowAtMost(front, n);
    if k < last {
      BelowRank(front, n, k);
      BucketMonotone(sorted[k], sorted[last]);
    } else if Bucket(sorted[last]) < n {
      BelowFull(front, n, sorted[last]);
    }
  }

  lemma {:induction false} BelowAtMost(samples: seq<nat>, n: nat)
    ensures Below(samples, n) <= |samples|
  {
    if samples != [] {
      BelowAtMost(samples[..|samples| - 1], n);
    }
  }

  lemma {:induction false} BelowFull(samples: seq<nat>, n: nat, top: nat)
    requires Bucket(top) < n && forall i :: 0 <= i < |samples| ==> samples[i] <= top
    ensures Below(samples, n) == |samples|
  {
    if samples != [] {
      BelowFull(samples[..|samples| - 1], n, top);
      BucketMonotone(samples[|samples| - 1], top);
    }
  }

  /** 1-based rank of the p-th percentile among `total` samples. */
  function Rank(total: nat, percentile: nat): (r: nat)
    ensures total > 0 && 0 < percentile <= 100 ==> 1 <= r <= total
    ensures (r - 1) * 100 < total * percentile <= r * 100
  {
    assert total > 0 && percentile > 0 ==> total * percentile >= 1;
    assert percentile <= 100 ==> total * percentile <= total * 100;
    (total * percentile + 99) / 100
  }

  // ---------- the percentile ----------

  /** The first bucket at which the running total reaches `rank`. */
  ghost predicate Reaches(hist: seq<nat>, rank: nat, bucket: nat) {
    && |hist| == BUCKETS && bucket < BUCKETS
    && Sum(hist[..bucket]) < rank <= Sum(hist[..bucket + 1])
  }

  /** The upper edge of that bucket, or 0 when the histogram is short of the rank. */
  ghost predicate EdgeAtRank(hist: seq<nat>, rank: nat, edge: nat) {
    || (exists b :: Reaches(hist, rank, b) && edge == UpperEdge(b))
    || (Sum(hist) < rank && edge == 0)
  }

  method PercentileUpperEdge(hist: array<nat>, total: nat, percentile: nat) returns (edge: nat)
    requires hist.Length == BUCKETS && total <= U64_MAX && Sum(hist[..]) <= U64_MAX
    ensures total == 0 || percentile == 0 || percentile > 100 ==> edge == 0
    ensures total > 0 && 0 < percentile <= 100 ==> EdgeAtRank(hist[..], Rank(total, percentile), edge)
  {
    if total == 0 || percentile == 0 || percentile > 100 {
      return 0;
    }
    var rank := (total * percentile + 99) / 100;
    assert rank == Rank(total, percentile);
    var seen := 0;
    var bucket := 0;
    while bucket < BUCKETS
      invariant bucket <= BUCKETS && seen == Sum(hist[..bucket]) && seen < rank
    {
      assert hist[..bucket + 1][..bucket] == hist[..bucket];
      seen := seen + hist[bucket];
      if seen >= rank {
        assert hist[..][..bucket] == hist[..bucket] && hist[..][..bucket + 1] == hist[..bucket + 1];
        assert Reaches(hist[..], rank, bucket);
        return UpperEdge(bucket);
      }
      bucket := bucket + 1;
    }
    assert hist[..BUCKETS] == hist[..];
    return 0;
  }

  /** When the histogram records the samples, the bucket found is that of the rank-th smallest one. */
  lemma ReachedIsRanked(hist: seq<nat>, samples: seq<nat>, sorted: seq<nat>, rank: nat, bucket: nat)
    requires Records(hist, samples) && Ascending(sorted) && multiset(sorted) == multiset(samples)
    requires 1 <= rank <= |samples| && Reaches(hist, rank, bucket)
    ensures |sorted| == |samples| && bucket == Bucket(sorted[rank - 1])
  {
    assert |multiset(sorted)| == |multiset(samples)|;
    SumIsBelow(hist, samples, bucket);
    SumIsBelow(hist, samples, bucket + 1);
    BelowPermuted(samples, sorted, bucket);
    BelowPermuted(samples, sorted, bucket + 1);
    BelowRank(sorted, bucket, rank - 1);
    BelowRank(sorted, bucket + 1, rank - 1);
  }

  lemma RemoveFront(s: seq<nat>, k: nat)
    requires k < |s| - 1
    ensures var last, rest := |s| - 1, s[..k] + s[k + 1..];
      && |rest| == last
      && rest[..last - 1] == s[..last][..k] + s[..last][k + 1..]
      && rest[last - 1] == s[last]
      && s[..last][k] == s[k]
  {
  }

  lemma {:induction false} BelowRemove(s: seq<nat>, k: nat, n: nat)
    requires k < |s|
    ensures Below(s, n) == Below(s[..k] + s[k + 1..], n) + if Bucket(s[k]) < n then 1 else 0
  {
    var last := |s| - 1;
    var rest := s[..k] + s[k + 1..];
    if k < last {
      BelowRemove(s[..last], k, n);
      RemoveFront(s, k);
    } else {
      assert rest == s[..last];
    }
  }

  /** Counting does not depend on the order of the samples. */
  lemma {:induction false} BelowPermuted(a: seq<nat>, b: seq<nat>, n: nat)
    requires multiset(a) == multiset(b)
    ensures Below(a, n) == Below(b, n)
    decreases |a|
  {
    if a == [] {
      assert |multiset(b)| == 0;
    } else {
      var last := |a| - 1;
      assert a[last] in multiset(b);
      var k :| 0 <= k < |b| && b[k] == a[last];
      var rest := b[..k] + b[k + 1..];
      assert b == b[..k] + [b[k]] + b[k + 1..];
      assert a == a[..last] + [a[last]];
      assert multiset(rest) == multiset(b) - multiset{b[k]};
      assert multiset(a[..last]) == multiset(a) - multiset{a[last]};
      BelowPermuted(a[..last], rest, n);
      BelowRemove(b, k, n);
    }
  }

  /** A recorded histogram reaches every rank up to the number of samples. */
  lemma RecordsSum(hist: seq<nat>, samples: seq<nat>)
    requires Records(hist, samples)
    ensures Sum(hist) == |samples|
  {
    SumIsBelow(hist, samples, BUCKETS);
    BelowAll(samples);
    assert hist[..BUCKETS] == hist;
  }

  /**
   The percentile of a recorded histogram is the upper edge of the bucket of the
   ceil(p * total / 100)-th smallest sample; below one second that is above the
   sample by at most one bin. The loop never runs off its end.
   */
  lemma PercentileRanks(hist: seq<nat>, samples: seq<nat>, sorted: seq<nat>, percentile: nat, edge: nat)
    requires Records(hist, samples) && samples != [] && 0 < percentile <= 100
    requires Ascending(sorted) && multiset(sorted) == multiset(samples)
    requires EdgeAtRank(hist, Rank(|samples|, percentile), edge)
    ensures |sorted| == |samples|
    ensures
      var r := Rank(|samples|, percentile);
      var s := sorted[r - 1];
      && (r - 1) * 100 < |samples| * percentile <= r * 100
      && edge == UpperEdge(Bucket(s))
      && (s < 1000000 ==> s < edge <= s + BinWidth(s))
      && (s >= 1000000 ==> edge == 1000000)
  {
    RecordsSum(hist, samples);
    var rank := Rank(|samples|, percentile);
    var b :| Reaches(hist, rank, b) && edge == UpperEdge(b);
    ReachedIsRanked(hist, samples, sorted, rank, b);
    EdgeIsTight(sorted[rank - 1]);
  }
}
