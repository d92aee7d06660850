/**
 * Adaptive QP selection statistics: the quantised coefficients of the luma
 * blocks of inter CUs are histogrammed by level (xTuCollectARLStats), per
 * CTU into local arrays that are then added to the slice's running
 * statistics (xCtuCollectARLStats). Bucket u < LEVEL_RANGE counts the
 * coefficients of level u; bucket LEVEL_RANGE collects every level from
 * LEVEL_RANGE on.
 */
module ArlStats {
  import opened CuTypes

  const LEVEL_RANGE: nat := 30
  /** ARL_C_PRECISION: the fixed-point precision of the adaptive rounding level. */
  const ARL_C_PRECISION: nat := 7

  /** The bucket of a non-zero level u: u itself below LEVEL_RANGE, LEVEL_RANGE from there on. */
  function Bucket(u: nat): nat
  {
    if u < LEVEL_RANGE then u else LEVEL_RANGE
  }

  /**
   * What one non-zero coefficient of level u adds to the sum of its bucket:
   * its ARL coefficient, less u << ARL_C_PRECISION in the last bucket.
   */
  function Contribution(u: nat, absc: int): int
  {
    if u < LEVEL_RANGE then absc else absc - u * Pow2(ARL_C_PRECISION)
  }

  /** How many of the first n coefficients are non-zero with a level that falls in bucket b. */
  function BucketCount(coeff: seq<int>, n: nat, b: nat): nat
    requires n <= |coeff|
  {
    if n == 0 then 0
    else BucketCount(coeff, n - 1, b) + (if coeff[n - 1] != 0 && Bucket(Abs(coeff[n - 1])) == b then 1 else 0)
  }

  /** The sum of the contributions of the first n coefficients to bucket b. */
  function BucketSum(coeff: seq<int>, arl: seq<int>, n: nat, b: nat): int
    requires n <= |coeff| && n <= |arl|
  {
    if n == 0 then 0
    else
      var u := Abs(coeff[n - 1]);
      BucketSum(coeff, arl, n - 1, b) + (if u != 0 && Bucket(u) == b then Contribution(u, arl[n - 1]) else 0)
  }

  /** How many of the first n coefficients are non-zero. */
  function NonZeroCount(coeff: seq<int>, n: nat): nat
    requires n <= |coeff|
  {
    if n == 0 then 0 else NonZeroCount(coeff, n - 1) + (if coeff[n - 1] != 0 then 1 else 0)
  }

  /** The counts of buckets 0 .. m - 1 added up. */
  function BucketsTotal(coeff: seq<int>, n: nat, m: nat): nat
    requires n <= |coeff|
  {
    if m == 0 then 0 else BucketsTotal(coeff, n, m - 1) + BucketCount(coeff, n, m - 1)
  }

  /**
   * xTuCollectARLStats: every non-zero coefficient of the block adds one to
   * the count and its contribution to the sum of its bucket; zero
   * coefficients are skipped.
   */
  method TuCollectArlStats(coeff: seq<int>, arlCoeff: seq<int>, numCoeffInCu: nat,
                           cSum: array<int>, numSamples: array<nat>) returns (r: int)
    requires numCoeffInCu <= |coeff| && numCoeffInCu <= |arlCoeff|
    requires cSum.Length == LEVEL_RANGE + 1 && numSamples.Length == LEVEL_RANGE + 1
    modifies cSum, numSamples
    ensures r == 0
    ensures forall b :: 0 <= b <= LEVEL_RANGE ==>
      numSamples[b] == old(numSamples[b]) + BucketCount(coeff, numCoeffInCu, b) &&
      cSum[b] == old(cSum[b]) + BucketSum(coeff, arlCoeff, numCoeffInCu, b)
  {
    var n := 0;
    while n < numCoeffInCu
      invariant n <= numCoeffInCu
      invariant forall b :: 0 <= b <= LEVEL_RANGE ==>
        numSamples[b] == old(numSamples[b]) + BucketCount(coeff, n, b) &&
        cSum[b] == old(cSum[b]) + BucketSum(coeff, arlCoeff, n, b)
    {
      var u := Abs(coeff[n]);
      var absc := arlCoeff[n];
      if u != 0 {
        if u < LEVEL_RANGE {
          cSum[u] := cSum[u] + absc;
          numSamples[u] := numSamples[u] + 1;
        } else {
          cSum[LEVEL_RANGE] := cSum[LEVEL_RANGE] + absc - u * Pow2(ARL_C_PRECISION);
          numSamples[LEVEL_RANGE] := numSamples[LEVEL_RANGE] + 1;
        }
      }
      n := n + 1;
    }
    r := 0;
  }

  /** Bucket 0 and the buckets above LEVEL_RANGE never receive anything. */
  lemma {:induction false} UnusedBuckets(coeff: seq<int>, arl: seq<int>, n: nat, b: nat)
    requires n <= |coeff| && n <= |arl|
    requires b == 0 || b > LEVEL_RANGE
    ensures BucketCount(coeff, n, b) == 0 && BucketSum(coeff, arl, n, b) == 0
    decreases n
  {
    if n > 0 {
      UnusedBuckets(coeff, arl, n - 1, b);
    }
  }

  lemma {:induction false} BucketsTotalStep(coeff: seq<int>, n: nat, m: nat)
    requires 0 < n <= |coeff|
    ensures BucketsTotal(coeff, n, m) == BucketsTotal(coeff, n - 1, m) +
      (if coeff[n - 1] != 0 && Bucket(Abs(coeff[n - 1])) < m then 1 else 0)
    decreases m
  {
    if m > 0 {
      BucketsTotalStep(coeff, n, m - 1);
    }
  }

  lemma {:induction false} BucketsTotalOfNothing(coeff: seq<int>, m: nat)
    ensures BucketsTotal(coeff, 0, m) == 0
    decreases m
  {
    if m > 0 {
      BucketsTotalOfNothing(coeff, m - 1);
    }
  }

  /**
   * Each non-zero coefficient lands in exactly one bucket: the counts of all
   * LEVEL_RANGE + 1 buckets grow by the number of non-zero coefficients.
   */
  lemma {:induction false} CountsGrowByNonZeroCoefficients(coeff: seq<int>, n: nat)
    requires n <= |coeff|
    ensures BucketsTotal(coeff, n, LEVEL_RANGE + 1) == NonZeroCount(coeff, n)
    decreases n
  {
    if n > 0 {
      CountsGrowByNonZeroCoefficients(coeff, n - 1);
      BucketsTotalStep(coeff, n, LEVEL_RANGE + 1);
    } else {
      BucketsTotalOfNothing(coeff, LEVEL_RANGE + 1);
    }
  }

  /** A non-zero coefficient of level u is counted in bucket min(u, LEVEL_RANGE) and in no other. */
  lemma OneCoefficientOneBucket(c: int, b: nat)
    ensures BucketCount([c], 1, b) == (if c != 0 && b == (if Abs(c) < LEVEL_RANGE then Abs(c) else LEVEL_RANGE) then 1 else 0)
  {
  }

  // ---------------------------------------------------------------------
  // xCtuCollectARLStats
  // ---------------------------------------------------------------------

  /**
   * uiMinNumCoeffInCU: 1 << (maxCUWidth >> maxTotalCUDepth), the number of
   * coefficients the CTU buffer holds per minimum partition.
   */
  function MinNumCoeffInCu(maxCuWidth: nat, maxTotalCuDepth: nat): nat
  {
    Pow2(ShiftRight(maxCuWidth, maxTotalCuDepth))
  }

  /**
   * The count that bucket b gathers over the first `parts` partitions of
   * the CTU: only partitions that are inter with a luma coded-block flag
   * (`collected`) contribute their m coefficients.
   */
  function CtuCount(coeffs: seq<seq<int>>, collected: seq<bool>, m: nat, parts: nat, b: nat): nat
    requires parts <= |coeffs| && parts <= |collected|
    requires forall i :: 0 <= i < |coeffs| ==> m <= |coeffs[i]|
  {
    if parts == 0 then 0
    else
      var part := if collected[parts - 1] then BucketCount(coeffs[parts - 1], m, b) else 0;
      CtuCount(coeffs, collected, m, parts - 1, b) + part
  }

  function CtuSum(coeffs: seq<seq<int>>, arls: seq<seq<int>>, collected: seq<bool>, m: nat, parts: nat, b: nat): int
    requires parts <= |coeffs| && parts <= |arls| && parts <= |collected|
    requires forall i :: 0 <= i < |coeffs| ==> m <= |coeffs[i]|
    requires forall i :: 0 <= i < |arls| ==> m <= |arls[i]|
  {
    if parts == 0 then 0
    else
      var part := if collected[parts - 1] then BucketSum(coeffs[parts - 1], arls[parts - 1], m, b) else 0;
      CtuSum(coeffs, arls, collected, m, parts - 1, b) + part
  }

  /**
   * xCtuCollectARLStats: the statistics of the CTU are gathered into
   * zeroed local arrays, partition by partition (`coeffs[i]` and `arls[i]`
   * are the m coefficients of partition i), and then added into the
   * slice's arrays for buckets 1 .. LEVEL_RANGE; slice bucket 0 is left as
   * it was.
   */
  method CtuCollectArlStats(coeffs: seq<seq<int>>, arls: seq<seq<int>>, collected: seq<bool>, m: nat,
                            sliceSumC: array<int>, sliceNSamples: array<nat>)
    requires |coeffs| == |arls| == |collected|
    requires forall i :: 0 <= i < |coeffs| ==> m <= |coeffs[i]|
    requires forall i :: 0 <= i < |arls| ==> m <= |arls[i]|
    requires sliceSumC.Length == LEVEL_RANGE + 1 && sliceNSamples.Length == LEVEL_RANGE + 1
    modifies sliceSumC, sliceNSamples
    ensures sliceSumC[0] == old(sliceSumC[0]) && sliceNSamples[0] == old(sliceNSamples[0])
    ensures forall b :: 1 <= b <= LEVEL_RANGE ==>
      sliceNSamples[b] == old(sliceNSamples[b]) + CtuCount(coeffs, collected, m, |coeffs|, b) &&
      sliceSumC[b] == old(sliceSumC[b]) + CtuSum(coeffs, arls, collected, m, |coeffs|, b)
  {
    var cSum, numSamples := GatherCtuStats(coeffs, arls, collected, m);
    AddToSlice(cSum, numSamples, sliceSumC, sliceNSamples);
  }

  /** The first half of xCtuCollectARLStats: the CTU's statistics in zeroed local arrays. */
  method GatherCtuStats(coeffs: seq<seq<int>>, arls: seq<seq<int>>, collected: seq<bool>, m: nat)
    returns (cSum: array<int>, numSamples: array<nat>)
    requires |coeffs| == |arls| == |collected|
    requires forall i :: 0 <= i < |coeffs| ==> m <= |coeffs[i]|
    requires forall i :: 0 <= i < |arls| ==> m <= |arls[i]|
    ensures fresh(cSum) && fresh(numSamples)
    ensures cSum.Length == LEVEL_RANGE + 1 && numSamples.Length == LEVEL_RANGE + 1
    ensures forall b :: 0 <= b <= LEVEL_RANGE ==>
      numSamples[b] == CtuCount(coeffs, collected, m, |coeffs|, b) &&
      cSum[b] == CtuSum(coeffs, arls, collected, m, |coeffs|, b)
  {
    cSum := new int[LEVEL_RANGE + 1](_ => 0);
    numSamples := new nat[LEVEL_RANGE + 1](_ => 0);
    var i := 0;
    while i < |coeffs|
      invariant i <= |coeffs|
      invariant forall b :: 0 <= b <= LEVEL_RANGE ==>
        numSamples[b] == CtuCount(coeffs, collected, m, i, b) &&
        cSum[b] == CtuSum(coeffs, arls, collected, m, i, b)
    {
      if collected[i] {
        var _ := TuCollectArlStats(coeffs[i], arls[i], m, cSum, numSamples);
      }
      i := i + 1;
    }
  }

  /** The second half of xCtuCollectARLStats: buckets 1 .. LEVEL_RANGE are added to the slice. */
  method AddToSlice(cSum: array<int>, numSamples: array<nat>, sliceSumC: array<int>, sliceNSamples: array<nat>)
    requires cSum.Length == LEVEL_RANGE + 1 && numSamples.Length == LEVEL_RANGE + 1
    requires sliceSumC.Length == LEVEL_RANGE + 1 && sliceNSamples.Length == LEVEL_RANGE + 1
    requires sliceSumC != cSum && sliceNSamples != numSamples
    modifies sliceSumC, sliceNSamples
    ensures sliceSumC[0] == old(sliceSumC[0]) && sliceNSamples[0] == old(sliceNSamples[0])
    ensures forall b :: 1 <= b <= LEVEL_RANGE ==>
      sliceNSamples[b] == old(sliceNSamples[b]) + numSamples[b] &&
      sliceSumC[b] == old(sliceSumC[b]) + cSum[b]
  {
    var u := 1;
    while u < LEVEL_RANGE
      invariant 1 <= u <= LEVEL_RANGE
      invariant forall b :: 1 <= b < u ==>
        sliceNSamples[b] == old(sliceNSamples[b]) + numSamples[b] &&
        sliceSumC[b] == old(sliceSumC[b]) + cSum[b]
      invariant forall b :: 0 <= b <= LEVEL_RANGE && !(1 <= b < u) ==>
        sliceNSamples[b] == old(sliceNSamples[b]) && sliceSumC[b] == old(sliceSumC[b])
    {
      sliceSumC[u] := sliceSumC[u] + cSum[u];
      sliceNSamples[u] := sliceNSamples[u] + numSamples[u];
      u := u + 1;
    }
    sliceSumC[LEVEL_RANGE] := sliceSumC[LEVEL_RANGE] + cSum[LEVEL_RANGE];
    sliceNSamples[LEVEL_RANGE] := sliceNSamples[LEVEL_RANGE] + numSamples[LEVEL_RANGE];
  }

  /**
   * Over the CTU, the slice counts grow in total by the number of non-zero
   * coefficients of the collected partitions.
   */
  function CtuNonZero(coeffs: seq<seq<int>>, collected: seq<bool>, m: nat, parts: nat): nat
    requires parts <= |coeffs| && parts <= |collected|
    requires forall i :: 0 <= i < |coeffs| ==> m <= |coeffs[i]|
  {
    if parts == 0 then 0
    else CtuNonZero(coeffs, collected, m, parts - 1) + (if collected[parts - 1] then NonZeroCount(coeffs[parts - 1], m) else 0)
  }

  function CtuBucketsTotal(coeffs: seq<seq<int>>, collected: seq<bool>, m: nat, parts: nat, k: nat): nat
    requires parts <= |coeffs| && parts <= |collected|
    requires forall i :: 0 <= i < |coeffs| ==> m <= |coeffs[i]|
  {
    if k == 0 then 0 else CtuBucketsTotal(coeffs, collected, m, parts, k - 1) + CtuCount(coeffs, collected, m, parts, k - 1)
  }

  lemma {:induction false} CtuBucketsTotalStep(coeffs: seq<seq<int>>, collected: seq<bool>, m: nat, parts: nat, k: nat)
    requires 0 < parts <= |coeffs| && parts <= |collected|
    requires forall i :: 0 <= i < |coeffs| ==> m <= |coeffs[i]|
    ensures CtuBucketsTotal(coeffs, collected, m, parts, k) == CtuBucketsTotal(coeffs, collected, m, parts - 1, k) +
      (if collected[parts - 1] then BucketsTotal(coeffs[parts - 1], m, k) else 0)
    decreases k
  {
    if k > 0 {
      CtuBucketsTotalStep(coeffs, collected, m, parts, k - 1);
    }
  }

  lemma {:induction false} CtuBucketsTotalOfNothing(coeffs: seq<seq<int>>, collected: seq<bool>, m: nat, k: nat)
    requires forall i :: 0 <= i < |coeffs| ==> m <= |coeffs[i]|
    ensures CtuBucketsTotal(coeffs, collected, m, 0, k) == 0
    decreases k
  {
    if k > 0 {
      CtuBucketsTotalOfNothing(coeffs, collected, m, k - 1);
    }
  }

  /** The slice counts of buckets 0 .. LEVEL_RANGE grow in total by the CTU's collected non-zero coefficients. */
  lemma {:induction false} CtuCountsGrowByNonZeroCoefficients(coeffs: seq<seq<int>>, collected: seq<bool>, m: nat, parts: nat)
    requires parts <= |coeffs| && parts <= |collected|
    requires forall i :: 0 <= i < |coeffs| ==> m <= |coeffs[i]|
    ensures CtuBucketsTotal(coeffs, collected, m, parts, LEVEL_RANGE + 1) == CtuNonZero(coeffs, collected, m, parts)
    decreases parts
  {
    if parts > 0 {
      CtuCountsGrowByNonZeroCoefficients(coeffs, collected, m, parts - 1);
      CtuBucketsTotalStep(coeffs, collected, m, parts, LEVEL_RANGE + 1);
      CountsGrowByNonZeroCoefficients(coeffs[parts - 1], m);
    } else {
      CtuBucketsTotalOfNothing(coeffs, collected, m, LEVEL_RANGE + 1);
    }
  }
}
