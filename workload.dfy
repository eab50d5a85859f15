/**
 * The deterministic part of generateWorkloadCDF (src/Server.cpp): inverse
 * transform lookup in a BigHouse CDF, the calibration batch that fixes the
 * inter-arrival scale for the minute's utilization, and the filling of one
 * minute with jobs. The uniform draws are an input: `uniform(k)` is the k-th
 * draw and a cursor says how many were used.
 */
module Workload {
  import opened Constants
  import opened JobLog
  import opened Wrappers

  /** A CDF as readBigHouseCDF loads it: sample values and their cumulative probabilities. */
  datatype Cdf = Cdf(sample: seq<real>, prob: seq<real>)

  /** As many probabilities as samples, and at least one of each. */
  predicate Proper(c: Cdf) {
    |c.sample| == |c.prob| >= 1
  }

  /** Every value lies in [lo, hi]. */
  predicate Within(s: seq<real>, lo: real, hi: real) {
    forall k :: 0 <= k < |s| ==> lo <= s[k] <= hi
  }

  /** The drawing inputs: two proper CDFs and a stream of draws in [0, 1). */
  ghost predicate Sources(ser: Cdf, arr: Cdf, uniform: nat -> real) {
    Proper(ser) && Proper(arr) && forall k: nat :: 0.0 <= uniform(k) < 1.0
  }

  /** Bounds of the two CDFs' samples, which are times and so not negative. */
  predicate Samples(ser: Cdf, arr: Cdf, sLo: real, sHi: real, aLo: real, aHi: real) {
    Within(ser.sample, sLo, sHi) && Within(arr.sample, aLo, aHi) && sLo >= 0.0 && aLo >= 0.0
  }

  /** `min(i + 1, size - 1)`: the upper index of bucket i, clamped by a sample count `m`. */
  function Clamp(i: int, m: int): int {
    if i + 1 < m - 1 then i + 1 else m - 1
  }

  /** The midpoint of two samples. */
  function Mid(s: seq<real>, i: int, j: int): real
    requires 0 <= i < |s| && 0 <= j < |s|
  {
    (s[i] + s[j]) / 2.0
  }

  /**
   * The lookup loop reads only existing samples: equal lengths, a clamp count
   * of at least 1, and either a clamp inside the samples or a draw that stops
   * the scan before the last bucket.
   */
  predicate ScanSafe(prob: seq<real>, sample: seq<real>, m: int, u: real) {
    |prob| == |sample| && m >= 1 && (|prob| == 0 || m <= |sample| || LeadingRun(prob, u) < |prob|)
  }

  /**
   * Outside ScanSafe, with equal lengths and a clamp count of at least 1, the
   * scan passes every bucket and the clamped index of the last one lies past
   * the samples: `at` throws out_of_range.
   */
  lemma ScanUnsafeReadsPastEnd(prob: seq<real>, sample: seq<real>, m: int, u: real)
    requires |prob| == |sample| && m >= 1 && !ScanSafe(prob, sample, m, u)
    ensures |prob| >= 1 && forall k :: 0 <= k < |prob| ==> prob[k] < u
    ensures Clamp(|prob| - 1, m) >= |sample|
  {
  }

  /** A CDF that reaches probability 1 keeps every draw in [0, 1) inside its samples, whatever the clamp count. */
  lemma EndingAtOneInRange(prob: seq<real>, sample: seq<real>, m: int, u: real)
    requires |prob| == |sample| >= 1 && prob[|prob| - 1] >= 1.0 && m >= 1 && u < 1.0
    ensures ScanSafe(prob, sample, m, u)
  {
  }

  /** A CDF whose last probability is below 1 is scanned past its end: a draw above it takes the last sample. */
  lemma ShortCdfTakesLastSample()
    ensures ScanSafe([0.5, 0.9], [10.0, 20.0], 2, 0.95)
    ensures Lookup([0.5, 0.9], [10.0, 20.0], 2, 0.95, 0.0) == 20.0
  {
    assert LeadingRun([0.5, 0.9], 0.95) == 2 by {
      assert [0.5, 0.9][1..] == [0.9] && [0.9][1..] == [];
    }
    LookupIsLastOfLeadingRun([0.5, 0.9], [10.0, 20.0], 2, 0.95, 0.0);
  }

  /** The same draw, clamped with a count of three as for a longer service CDF, reads past the two samples. */
  lemma LongerClampReadsPastEnd()
    ensures !ScanSafe([0.5, 0.9], [10.0, 20.0], 3, 0.95)
  {
    assert LeadingRun([0.5, 0.9], 0.95) == 2 by {
      assert [0.5, 0.9][1..] == [0.9] && [0.9][1..] == [];
    }
  }

  /** The lookup loop from index i with current value v: while prob[i] < u it overwrites v with bucket i's midpoint. */
  function ScanFrom(prob: seq<real>, sample: seq<real>, m: int, u: real, i: nat, v: real): real
    requires ScanSafe(prob, sample, m, u) && i <= LeadingRun(prob, u)
    decreases |prob| - i
  {
    if i < |prob| && prob[i] < u then ScanFrom(prob, sample, m, u, i + 1, Mid(sample, i, Clamp(i, m))) else v
  }

  /** One lookup of draw u, keeping `prior` when no bucket is passed. */
  function Lookup(prob: seq<real>, sample: seq<real>, m: int, u: real, prior: real): real
    requires ScanSafe(prob, sample, m, u)
  {
    ScanFrom(prob, sample, m, u, 0, prior)
  }

  /** The length of the leading run of probabilities below u. */
  function LeadingRun(prob: seq<real>, u: real): (n: nat)
    ensures n <= |prob|
    ensures forall k :: 0 <= k < n ==> prob[k] < u
    ensures n < |prob| ==> prob[n] >= u
    decreases |prob|
  {
    if prob == [] || prob[0] >= u then 0
    else
      var n := LeadingRun(prob[1..], u);
      assert forall k :: 1 <= k < n + 1 ==> prob[k] == prob[1..][k - 1];
      1 + n
  }

  lemma {:induction false} ScanFromResult(prob: seq<real>, sample: seq<real>, m: int, u: real, i: nat, v: real)
    requires ScanSafe(prob, sample, m, u) && i <= LeadingRun(prob, u)
    ensures var n := LeadingRun(prob, u);
      ScanFrom(prob, sample, m, u, i, v) == if i == n then v else Mid(sample, n - 1, Clamp(n - 1, m))
    decreases |prob| - i
  {
    var n := LeadingRun(prob, u);
    if i < n {
      ScanFromResult(prob, sample, m, u, i + 1, Mid(sample, i, Clamp(i, m)));
    }
  }

  /**
   * A lookup returns the midpoint of sample[i] and sample[min(i + 1, m - 1)]
   * for the last i of the leading run of probabilities below u, and the prior
   * value when prob[0] >= u.
   */
  lemma LookupIsLastOfLeadingRun(prob: seq<real>, sample: seq<real>, m: int, u: real, prior: real)
    requires ScanSafe(prob, sample, m, u)
    ensures var n := LeadingRun(prob, u);
      Lookup(prob, sample, m, u, prior) == if n == 0 then prior else Mid(sample, n - 1, Clamp(n - 1, m))
    ensures LeadingRun(prob, u) == 0 <==> |prob| == 0 || prob[0] >= u
  {
    ScanFromResult(prob, sample, m, u, 0, prior);
  }

  /** A lookup stays within the bounds of the samples and the prior value. */
  lemma LookupWithin(prob: seq<real>, sample: seq<real>, m: int, u: real, prior: real, lo: real, hi: real)
    requires ScanSafe(prob, sample, m, u)
    requires Within(sample, lo, hi) && lo <= prior <= hi
    ensures lo <= Lookup(prob, sample, m, u, prior) <= hi
  {
    LookupIsLastOfLeadingRun(prob, sample, m, u, prior);
  }

  /** The lookup loop. */
  method LookupScan(prob: seq<real>, sample: seq<real>, m: int, u: real, prior: real) returns (v: real)
    requires ScanSafe(prob, sample, m, u)
    ensures v == Lookup(prob, sample, m, u, prior)
  {
    v := prior;
    var i := 0;
    while i < |prob| && prob[i] < u
      invariant 0 <= i <= LeadingRun(prob, u)
      invariant ScanFrom(prob, sample, m, u, i, v) == Lookup(prob, sample, m, u, prior)
      decreases |prob| - i
    {
      v := Mid(sample, i, Clamp(i, m));
      i := i + 1;
    }
  }

  /**
   * The first calibration draw as written: `newService` and `newInterArrival`
   * are declared without a value, so a first draw that passes no bucket reads
   * an indeterminate double, shown here as None.
   */
  function FirstLookupAsWritten(prob: seq<real>, sample: seq<real>, m: int, u: real): (r: Option<real>)
    requires ScanSafe(prob, sample, m, u)
    ensures r.None? <==> LeadingRun(prob, u) == 0
    ensures r.Some? ==> r.value == Lookup(prob, sample, m, u, 0.0)
  {
    LookupIsLastOfLeadingRun(prob, sample, m, u, 0.0);
    if |prob| == 0 || prob[0] >= u then None else Some(Lookup(prob, sample, m, u, 0.0))
  }

  /** A draw of 0.25 on a CDF whose first probability is 0.5 reads the uninitialised value. */
  lemma FirstLookupUninitialised()
    ensures FirstLookupAsWritten([0.5, 1.0], [100.0, 200.0], 2, 0.25).None?
  {
    assert LeadingRun([0.5, 1.0], 0.25) == 0;
  }

  /**
   * The first draw with the value the lookup evidently intends for a draw in
   * the first bucket, the first sample. It is the as-written result whenever
   * that one is defined, and otherwise sample[0].
   */
  function FirstLookup(c: Cdf, m: int, u: real): (r: real)
    requires Proper(c) && ScanSafe(c.prob, c.sample, m, u)
    ensures FirstLookupAsWritten(c.prob, c.sample, m, u).Some? ==> FirstLookupAsWritten(c.prob, c.sample, m, u).value == r
    ensures FirstLookupAsWritten(c.prob, c.sample, m, u).None? ==> r == c.sample[0]
    ensures forall lo, hi :: Within(c.sample, lo, hi) ==> lo <= r <= hi
  {
    LookupIsLastOfLeadingRun(c.prob, c.sample, m, u, c.sample[0]);
    LookupIsLastOfLeadingRun(c.prob, c.sample, m, u, 0.0);
    forall lo, hi | Within(c.sample, lo, hi)
      ensures lo <= Lookup(c.prob, c.sample, m, u, c.sample[0]) <= hi
    {
      LookupWithin(c.prob, c.sample, m, u, c.sample[0], lo, hi);
    }
    Lookup(c.prob, c.sample, m, u, c.sample[0])
  }

  /** Job k arrives at `base` plus the summed gaps up to and including its own, and that sum stays below one minute. */
  predicate PlacedAt(jobs: seq<Job>, k: int, base: real)
    requires 0 <= k < |jobs|
  {
    jobs[k].arrival == base + GapSum(jobs[..k + 1]) && GapSum(jobs[..k + 1]) < MinuteMs
  }

  /** A job as drawn: its gap and service in the given ranges, generated for utilization rho. */
  predicate Drawn(j: Job, rho: real, gLo: real, gHi: real, sLo: real, sHi: real) {
    gLo <= j.gapFromPrevious <= gHi && sLo <= j.service <= sHi && j.whatRho == rho
  }

  /** The jobs of a minute so far: every one placed inside the minute and drawn from the given ranges. */
  predicate MinuteSoFar(jobs: seq<Job>, base: real, rho: real, gLo: real, gHi: real, sLo: real, sHi: real) {
    (forall k :: 0 <= k < |jobs| ==> PlacedAt(jobs, k, base))
    && (forall k :: 0 <= k < |jobs| ==> Drawn(jobs[k], rho, gLo, gHi, sLo, sHi))
  }

  lemma PlacedSnoc(jobs: seq<Job>, j: Job, base: real)
    requires forall k :: 0 <= k < |jobs| ==> PlacedAt(jobs, k, base)
    requires j.arrival == base + GapSum(jobs) + j.gapFromPrevious && GapSum(jobs) + j.gapFromPrevious < MinuteMs
    ensures forall k :: 0 <= k < |jobs + [j]| ==> PlacedAt(jobs + [j], k, base)
    ensures GapSum(jobs + [j]) == GapSum(jobs) + j.gapFromPrevious
  {
    var t := jobs + [j];
    assert t[..|t| - 1] == jobs;
    forall k | 0 <= k < |t|
      ensures PlacedAt(t, k, base)
    {
      if k < |jobs| {
        assert t[..k + 1] == jobs[..k + 1];
        assert PlacedAt(jobs, k, base);
      } else {
        assert t[..k + 1] == t;
      }
    }
  }

  lemma MinuteSoFarSnoc(jobs: seq<Job>, j: Job, base: real, rho: real, gLo: real, gHi: real, sLo: real, sHi: real)
    requires MinuteSoFar(jobs, base, rho, gLo, gHi, sLo, sHi)
    requires j.arrival == base + GapSum(jobs) + j.gapFromPrevious && GapSum(jobs) + j.gapFromPrevious < MinuteMs
    requires Drawn(j, rho, gLo, gHi, sLo, sHi)
    ensures MinuteSoFar(jobs + [j], base, rho, gLo, gHi, sLo, sHi)
    ensures GapSum(jobs + [j]) == GapSum(jobs) + j.gapFromPrevious
  {
    PlacedSnoc(jobs, j, base);
    var t := jobs + [j];
    assert forall k :: 0 <= k < |jobs| ==> t[k] == jobs[k];
  }

  lemma ScaledWithin(x: real, lo: real, hi: real, scale: real, gLo: real, gHi: real, y: real)
    requires lo <= x <= hi && scale >= 0.0 && gLo == lo * scale && gHi == hi * scale && y == x * scale
    ensures gLo <= y <= gHi
  {
    assert (x - lo) * scale >= 0.0 && (hi - x) * scale >= 0.0;
  }

  /** The gaps of the calibration batch, each multiplied by the scale. */
  function ScaledGaps(s: seq<real>, scale: real): (r: seq<real>)
    ensures |r| == |s| && forall k :: 0 <= k < |s| ==> r[k] == s[k] * scale
  {
    seq(|s|, k requires 0 <= k < |s| => s[k] * scale)
  }

  lemma ScaledGapsWithin(s: seq<real>, lo: real, hi: real, scale: real, gLo: real, gHi: real)
    requires Within(s, lo, hi) && scale >= 0.0 && gLo == lo * scale && gHi == hi * scale
    ensures Within(ScaledGaps(s, scale), gLo, gHi)
  {
    forall k | 0 <= k < |s|
      ensures gLo <= ScaledGaps(s, scale)[k] <= gHi
    {
      ScaledWithin(s[k], lo, hi, scale, gLo, gHi, ScaledGaps(s, scale)[k]);
    }
  }

  /** x added to itself n times, the lower bound of n summed gaps of at least x. */
  function Times(n: nat, x: real): real
    decreases n
  {
    if n == 0 then 0.0 else Times(n - 1, x) + x
  }

  lemma {:induction false} TimesIsProduct(n: nat, x: real)
    ensures Times(n, x) == n as real * x
    decreases n
  {
    if n > 0 {
      TimesIsProduct(n - 1, x);
      assert n as real * x == (n - 1) as real * x + x;
    }
  }

  /** k gaps of at least delta each fit below one minute only when k is at most minute / delta. */
  lemma CountBound(k: nat, delta: real, total: real)
    requires delta > 0.0 && Times(k, delta) <= total < MinuteMs
    ensures k <= (MinuteMs / delta).Floor
  {
    TimesIsProduct(k, delta);
    var q := MinuteMs / delta;
    assert q * delta == MinuteMs;
    assert (q - k as real) * delta > 0.0;
  }

  /**
   * The calibration draws: the first pair by FirstLookup, every later draw
   * by a lookup whose prior is the previous draw of the same kind. The
   * inter-arrival lookups clamp their upper index with the service CDF's
   * sample count, as the batch loop does.
   */
  predicate BatchDraws(ser: Cdf, arr: Cdf, uniform: nat -> real, cursor: nat, serVec: seq<real>, arrVec: seq<real>)
    requires Sources(ser, arr, uniform)
    decreases |serVec|
  {
    var n := |serVec|;
    n == |arrVec| >= 1
    && ArrivalInRange(ser, arr, uniform, cursor, n - 1)
    && if n == 1 then
         serVec[0] == FirstLookup(ser, |ser.sample|, uniform(cursor))
         && arrVec[0] == FirstLookup(arr, |ser.sample|, uniform(cursor + 1))
       else
         BatchDraws(ser, arr, uniform, cursor, serVec[..n - 1], arrVec[..n - 1])
         && serVec[n - 1] == Lookup(ser.prob, ser.sample, |ser.sample|, uniform(cursor + 2 * (n - 1)), serVec[n - 2])
         && arrVec[n - 1] == Lookup(arr.prob, arr.sample, |ser.sample|, uniform(cursor + 2 * (n - 1) + 1), arrVec[n - 2])
  }

  /**
   * The inter-arrival lookup of calibration pair k, whose upper index is
   * clamped with the service CDF's sample count, reads only existing
   * inter-arrival samples.
   */
  predicate ArrivalInRange(ser: Cdf, arr: Cdf, uniform: nat -> real, cursor: nat, k: nat) {
    ScanSafe(arr.prob, arr.sample, |ser.sample|, uniform(cursor + 2 * k + 1))
  }

  /** Every inter-arrival lookup of the calibration batch reads only existing samples. */
  predicate BatchInRange(ser: Cdf, arr: Cdf, uniform: nat -> real, cursor: nat) {
    forall k: nat :: k < CalibrationBatch ==> ArrivalInRange(ser, arr, uniform, cursor, k)
  }

  /** A batch of n pairs drew n inter-arrival lookups that all stayed inside the samples. */
  lemma {:induction false} BatchDrawsInRange(ser: Cdf, arr: Cdf, uniform: nat -> real, cursor: nat, serVec: seq<real>, arrVec: seq<real>)
    requires Sources(ser, arr, uniform) && BatchDraws(ser, arr, uniform, cursor, serVec, arrVec)
    ensures forall k: nat :: k < |serVec| ==> ArrivalInRange(ser, arr, uniform, cursor, k)
    decreases |serVec|
  {
    var n := |serVec|;
    if n > 1 {
      BatchDrawsInRange(ser, arr, uniform, cursor, serVec[..n - 1], arrVec[..n - 1]);
    }
  }

  /** A lookup that reads past the samples at pair n, after n that did not, leaves the batch out of range there. */
  lemma BatchThrowsAt(ser: Cdf, arr: Cdf, uniform: nat -> real, cursor: nat, n: nat, c: nat)
    requires n < CalibrationBatch && c == cursor + 2 * n
    requires !ScanSafe(arr.prob, arr.sample, |ser.sample|, uniform(c + 1))
    ensures !ArrivalInRange(ser, arr, uniform, cursor, n)
    ensures !BatchInRange(ser, arr, uniform, cursor)
  {
  }

  /** A full calibration batch is in range. */
  lemma FullBatchInRange(ser: Cdf, arr: Cdf, uniform: nat -> real, cursor: nat, serVec: seq<real>, arrVec: seq<real>)
    requires Sources(ser, arr, uniform) && BatchDraws(ser, arr, uniform, cursor, serVec, arrVec)
    requires |serVec| == CalibrationBatch
    ensures BatchInRange(ser, arr, uniform, cursor)
  {
    BatchDrawsInRange(ser, arr, uniform, cursor, serVec, arrVec);
  }

  /** The draws fix the calibration vectors: two batches of the same length drawn from the same stream are equal. */
  lemma {:induction false} BatchDrawsUnique(ser: Cdf, arr: Cdf, uniform: nat -> real, cursor: nat,
                                            s1: seq<real>, a1: seq<real>, s2: seq<real>, a2: seq<real>)
    requires Sources(ser, arr, uniform)
    requires BatchDraws(ser, arr, uniform, cursor, s1, a1) && BatchDraws(ser, arr, uniform, cursor, s2, a2)
    requires |s1| == |s2|
    ensures s1 == s2 && a1 == a2
    decreases |s1|
  {
    var n := |s1|;
    if n > 1 {
      BatchDrawsUnique(ser, arr, uniform, cursor, s1[..n - 1], a1[..n - 1], s2[..n - 1], a2[..n - 1]);
      assert s1 == s1[..n - 1] + [s1[n - 1]] && s2 == s2[..n - 1] + [s2[n - 1]];
      assert a1 == a1[..n - 1] + [a1[n - 1]] && a2 == a2[..n - 1] + [a2[n - 1]];
    } else {
      assert s1 == [s1[0]] && s2 == [s2[0]] && a1 == [a1[0]] && a2 == [a2[0]];
    }
  }

  /** One more pair of lookups extends a calibration batch. */
  lemma BatchDrawsSnoc(ser: Cdf, arr: Cdf, uniform: nat -> real, cursor: nat, serVec: seq<real>, arrVec: seq<real>,
                       c: nat, sv: real, av: real, serVec': seq<real>, arrVec': seq<real>)
    requires Sources(ser, arr, uniform) && BatchDraws(ser, arr, uniform, cursor, serVec, arrVec)
    requires c == cursor + 2 * |serVec| && ScanSafe(arr.prob, arr.sample, |ser.sample|, uniform(c + 1))
    requires sv == Lookup(ser.prob, ser.sample, |ser.sample|, uniform(c), serVec[|serVec| - 1])
    requires av == Lookup(arr.prob, arr.sample, |ser.sample|, uniform(c + 1), arrVec[|arrVec| - 1])
    requires serVec' == serVec + [sv] && arrVec' == arrVec + [av]
    ensures BatchDraws(ser, arr, uniform, cursor, serVec', arrVec')
  {
    assert serVec'[..|serVec|] == serVec;
    assert arrVec'[..|arrVec|] == arrVec;
  }

  lemma SumSnoc(s: seq<real>, x: real)
    ensures Sum(s + [x]) == Sum(s) + x
  {
    assert (s + [x])[..|s|] == s;
  }

  /** One pass of the batch loop: the lookups of the next pair at `c`, each with the previous draw as prior. */
  method NextPair(ser: Cdf, arr: Cdf, uniform: nat -> real, cursor: nat, c: nat, serVec: seq<real>, arrVec: seq<real>,
                  ghost sLo: real, ghost sHi: real, ghost aLo: real, ghost aHi: real)
    returns (sv: real, av: real)
    requires Sources(ser, arr, uniform) && BatchDraws(ser, arr, uniform, cursor, serVec, arrVec)
    requires c == cursor + 2 * |serVec| && ScanSafe(arr.prob, arr.sample, |ser.sample|, uniform(c + 1))
    requires Within(ser.sample, sLo, sHi) && Within(arr.sample, aLo, aHi)
    requires Within(serVec, sLo, sHi) && Within(arrVec, aLo, aHi)
    ensures BatchDraws(ser, arr, uniform, cursor, serVec + [sv], arrVec + [av])
    ensures Within(serVec + [sv], sLo, sHi) && Within(arrVec + [av], aLo, aHi)
  {
    var ps, pa := serVec[|serVec| - 1], arrVec[|arrVec| - 1];
    LookupWithin(ser.prob, ser.sample, |ser.sample|, uniform(c), ps, sLo, sHi);
    LookupWithin(arr.prob, arr.sample, |ser.sample|, uniform(c + 1), pa, aLo, aHi);
    sv := LookupScan(ser.prob, ser.sample, |ser.sample|, uniform(c), ps);
    av := LookupScan(arr.prob, arr.sample, |ser.sample|, uniform(c + 1), pa);
    BatchDrawsSnoc(ser, arr, uniform, cursor, serVec, arrVec, c, sv, av, serVec + [sv], arrVec + [av]);
  }

  /**
   * The first loop of generateWorkloadCDF: CalibrationBatch pairs of draws.
   * It stops with `inRange` false at the first inter-arrival lookup that
   * reads past the samples, where `at` throws; otherwise every draw lies
   * within any bounds of its CDF's samples, and with samples that are not
   * negative neither sum is negative.
   */
  method Calibrate(ser: Cdf, arr: Cdf, uniform: nat -> real, cursor: nat, ghost sLo: real, ghost sHi: real, ghost aLo: real, ghost aHi: real)
    returns (inRange: bool, serVec: seq<real>, arrVec: seq<real>, sumSer: real, sumArr: real)
    requires Sources(ser, arr, uniform)
    requires Within(ser.sample, sLo, sHi) && Within(arr.sample, aLo, aHi)
    ensures inRange <==> BatchInRange(ser, arr, uniform, cursor)
    ensures !inRange ==>
      |arrVec| < CalibrationBatch && !ArrivalInRange(ser, arr, uniform, cursor, |arrVec|)
      && forall k: nat :: k < |arrVec| ==> ArrivalInRange(ser, arr, uniform, cursor, k)
    ensures inRange ==> |serVec| == CalibrationBatch && BatchDraws(ser, arr, uniform, cursor, serVec, arrVec)
    ensures inRange ==> Within(serVec, sLo, sHi) && Within(arrVec, aLo, aHi)
    ensures inRange ==> sumSer == Sum(serVec) && sumArr == Sum(arrVec)
    ensures inRange ==> (sLo >= 0.0 ==> sumSer >= 0.0) && (aLo >= 0.0 ==> sumArr >= 0.0)
  {
    var c := cursor;
    inRange, serVec, arrVec, sumSer, sumArr := ScanSafe(arr.prob, arr.sample, |ser.sample|, uniform(c + 1)), [], [], 0.0, 0.0;
    if !inRange {
      BatchThrowsAt(ser, arr, uniform, cursor, 0, c);
      return;
    }
    var newService := FirstLookup(ser, |ser.sample|, uniform(c));
    var newInterArrival := FirstLookup(arr, |ser.sample|, uniform(c + 1));
    serVec, arrVec := [newService], [newInterArrival];
    sumSer, sumArr := newService, newInterArrival;
    SumSnoc([], newService);
    SumSnoc([], newInterArrival);
    c := c + 2;
    while |serVec| < CalibrationBatch
      invariant |serVec| <= CalibrationBatch
      invariant c == cursor + 2 * |serVec|
      invariant BatchDraws(ser, arr, uniform, cursor, serVec, arrVec)
      invariant newService == serVec[|serVec| - 1] && newInterArrival == arrVec[|arrVec| - 1]
      invariant Within(serVec, sLo, sHi) && Within(arrVec, aLo, aHi)
      invariant sumSer == Sum(serVec) && sumArr == Sum(arrVec)
      invariant (sLo >= 0.0 ==> sumSer >= 0.0) && (aLo >= 0.0 ==> sumArr >= 0.0)
    {
      if !ScanSafe(arr.prob, arr.sample, |ser.sample|, uniform(c + 1)) {
        BatchDrawsInRange(ser, arr, uniform, cursor, serVec, arrVec);
        BatchThrowsAt(ser, arr, uniform, cursor, |serVec|, c);
        inRange := false;
        return;
      }
      newService, newInterArrival := NextPair(ser, arr, uniform, cursor, c, serVec, arrVec, sLo, sHi, aLo, aHi);
      SumSnoc(serVec, newService);
      SumSnoc(arrVec, newInterArrival);
      sumSer := sumSer + newService;
      sumArr := sumArr + newInterArrival;
      serVec, arrVec := serVec + [newService], arrVec + [newInterArrival];
      c := c + 2;
    }
    FullBatchInRange(ser, arr, uniform, cursor, serVec, arrVec);
  }

  /**
   * The accept phase of a minute: jobs[..n] are the first n calibration
   * jobs, in order, each with the k-th service time and the k-th scaled
   * gap, and the phase stops at the first gap that would take the summed
   * gaps to a minute or more.
   */
  predicate TakesBatch(jobs: seq<Job>, n: nat, serVec: seq<real>, gaps: seq<real>) {
    n <= |jobs| && n <= |gaps| <= |serVec|
    && (forall k :: 0 <= k < n ==> jobs[k].service == serVec[k] && jobs[k].gapFromPrevious == gaps[k])
    && (n < |gaps| ==> GapSum(jobs[..n]) + gaps[n] >= MinuteMs)
  }

  /** Appending job |jobs| of the batch keeps the jobs equal to the batch's leading entries. */
  lemma TakenSnoc(jobs: seq<Job>, j: Job, serVec: seq<real>, gaps: seq<real>)
    requires |jobs| < |serVec| && |jobs| < |gaps|
    requires forall k :: 0 <= k < |jobs| ==> jobs[k].service == serVec[k] && jobs[k].gapFromPrevious == gaps[k]
    requires j.service == serVec[|jobs|] && j.gapFromPrevious == gaps[|jobs|]
    ensures forall k :: 0 <= k < |jobs + [j]| ==> (jobs + [j])[k].service == serVec[k] && (jobs + [j])[k].gapFromPrevious == gaps[k]
  {
  }

  /**
   * The second loop: the calibration jobs are taken in order, with their
   * gaps multiplied by the scale, while the summed gaps stay inside the
   * minute.
   */
  method AcceptBatch(serVec: seq<real>, gaps: seq<real>, base: real, rho: real,
                     ghost gLo: real, ghost gHi: real, ghost sLo: real, ghost sHi: real)
    returns (jobs: seq<Job>)
    requires |serVec| == |gaps| && gLo >= 0.0
    requires Within(serVec, sLo, sHi) && Within(gaps, gLo, gHi)
    ensures TakesBatch(jobs, |jobs|, serVec, gaps)
    ensures 0.0 <= GapSum(jobs) < MinuteMs
    ensures MinuteSoFar(jobs, base, rho, gLo, gHi, sLo, sHi)
  {
    jobs := [];
    var sumGap := 0.0;
    var i := 0;
    while i < |gaps| && sumGap + gaps[i] < MinuteMs
      invariant i == |jobs| <= |gaps|
      invariant sumGap == GapSum(jobs) && 0.0 <= sumGap < MinuteMs
      invariant MinuteSoFar(jobs, base, rho, gLo, gHi, sLo, sHi)
      invariant forall k :: 0 <= k < |jobs| ==> jobs[k].service == serVec[k] && jobs[k].gapFromPrevious == gaps[k]
    {
      var job := Job(base + sumGap + gaps[i], serVec[i], gaps[i], rho);
      assert gLo <= gaps[i] <= gHi && sLo <= serVec[i] <= sHi;
      MinuteSoFarSnoc(jobs, job, base, rho, gLo, gHi, sLo, sHi);
      TakenSnoc(jobs, job, serVec, gaps);
      jobs := jobs + [job];
      sumGap := sumGap + gaps[i];
      i := i + 1;
    }
    assert jobs[..|jobs|] == jobs;
  }

  /** A pair of draws: a service time and an inter-arrival time. */
  datatype Draw = Draw(service: real, interArrival: real)

  /**
   * The pair of draws at `c` and `c + 1`, with the previous pair `p` as the
   * values kept when a lookup passes no bucket. These lookups clamp with
   * each CDF's own sample count.
   */
  function NextDraw(ser: Cdf, arr: Cdf, uniform: nat -> real, c: nat, p: Draw): Draw
    requires Sources(ser, arr, uniform)
  {
    Draw(Lookup(ser.prob, ser.sample, |ser.sample|, uniform(c), p.service),
         Lookup(arr.prob, arr.sample, |arr.sample|, uniform(c + 1), p.interArrival))
  }

  /**
   * Pair k of the fill phase's draws, taken at `cursor + 2k` after the
   * previous pair (for k = 0, `prior`: the last calibration pair).
   */
  function FillDraw(ser: Cdf, arr: Cdf, uniform: nat -> real, cursor: nat, prior: Draw, k: nat): Draw
    requires Sources(ser, arr, uniform)
    decreases k
  {
    NextDraw(ser, arr, uniform, cursor + 2 * k, if k == 0 then prior else FillDraw(ser, arr, uniform, cursor, prior, k - 1))
  }

  /** Every fill draw lies within any bounds of the samples that also hold the prior pair. */
  lemma {:induction false} FillDrawWithin(ser: Cdf, arr: Cdf, uniform: nat -> real, cursor: nat, prior: Draw, k: nat,
                                          sLo: real, sHi: real, aLo: real, aHi: real)
    requires Sources(ser, arr, uniform)
    requires Within(ser.sample, sLo, sHi) && Within(arr.sample, aLo, aHi)
    requires sLo <= prior.service <= sHi && aLo <= prior.interArrival <= aHi
    ensures var d := FillDraw(ser, arr, uniform, cursor, prior, k);
      sLo <= d.service <= sHi && aLo <= d.interArrival <= aHi
    decreases k
  {
    var p := if k == 0 then prior else FillDraw(ser, arr, uniform, cursor, prior, k - 1);
    if k > 0 {
      FillDrawWithin(ser, arr, uniform, cursor, prior, k - 1, sLo, sHi, aLo, aHi);
    }
    LookupWithin(ser.prob, ser.sample, |ser.sample|, uniform(cursor + 2 * k), p.service, sLo, sHi);
    LookupWithin(arr.prob, arr.sample, |arr.sample|, uniform(cursor + 2 * k + 1), p.interArrival, aLo, aHi);
  }

  /** The stream of fill draws after `cursor`, pair k being FillDraw k. */
  function FillDraws(ser: Cdf, arr: Cdf, uniform: nat -> real, cursor: nat, prior: Draw): nat -> Draw
    requires Sources(ser, arr, uniform)
  {
    (k: nat) => FillDraw(ser, arr, uniform, cursor, prior, k)
  }

  /** Each fill draw is the next pair after the one before it. */
  lemma FillDrawsNext(ser: Cdf, arr: Cdf, uniform: nat -> real, cursor: nat, prior: Draw, k: nat, c: nat)
    requires Sources(ser, arr, uniform) && c == cursor + 2 * (k + 1)
    ensures FillDraws(ser, arr, uniform, cursor, prior)(k + 1)
         == NextDraw(ser, arr, uniform, c, FillDraws(ser, arr, uniform, cursor, prior)(k))
  {
  }

  /** Every draw of a stream lies within the sample bounds. */
  ghost predicate DrawsWithin(draws: nat -> Draw, sLo: real, sHi: real, aLo: real, aHi: real) {
    forall k: nat :: sLo <= draws(k).service <= sHi && aLo <= draws(k).interArrival <= aHi
  }

  /** The fill draws lie within any bounds of the samples that also hold the prior pair. */
  lemma FillDrawsWithin(ser: Cdf, arr: Cdf, uniform: nat -> real, cursor: nat, prior: Draw,
                        sLo: real, sHi: real, aLo: real, aHi: real)
    requires Sources(ser, arr, uniform)
    requires Within(ser.sample, sLo, sHi) && Within(arr.sample, aLo, aHi)
    requires sLo <= prior.service <= sHi && aLo <= prior.interArrival <= aHi
    ensures DrawsWithin(FillDraws(ser, arr, uniform, cursor, prior), sLo, sHi, aLo, aHi)
  {
    forall k: nat
      ensures sLo <= FillDraws(ser, arr, uniform, cursor, prior)(k).service <= sHi
        && aLo <= FillDraws(ser, arr, uniform, cursor, prior)(k).interArrival <= aHi
    {
      FillDrawWithin(ser, arr, uniform, cursor, prior, k, sLo, sHi, aLo, aHi);
    }
  }

  /** Multiplication by the scale, as a function of the unscaled gap. */
  function ScaleBy(scale: real): real -> real {
    x => x * scale
  }

  lemma ScaleByApply(scale: real, x: real, y: real)
    requires y == x * scale
    ensures ScaleBy(scale)(x) == y
  {
  }

  /** A gap function maps every inter-arrival sample value in [aLo, aHi] into [gLo, gHi]. */
  ghost predicate ScalesWithin(scaled: real -> real, aLo: real, aHi: real, gLo: real, gHi: real) {
    forall x :: aLo <= x <= aHi ==> gLo <= scaled(x) <= gHi
  }

  /** A scale that is not negative maps the sample bounds to the scaled bounds. */
  lemma ScaleByWithin(scale: real, aLo: real, aHi: real, gLo: real, gHi: real)
    requires scale >= 0.0 && gLo == aLo * scale && gHi == aHi * scale
    ensures ScalesWithin(ScaleBy(scale), aLo, aHi, gLo, gHi)
  {
    forall x | aLo <= x <= aHi
      ensures gLo <= ScaleBy(scale)(x) <= gHi
    {
      ScaledWithin(x, aLo, aHi, scale, gLo, gHi, x * scale);
    }
  }

  /**
   * The fill phase of a minute over the stream of fill draws taken from
   * `cursor`: job n + k carries draw k, its gap scaled. The phase is
   * complete exactly when the pending draw's scaled gap would take the
   * summed gaps to a minute or more; otherwise it has reached `fuel` jobs.
   * `next` is the cursor after the draws used, the pending pair included.
   */
  predicate FilledFrom(draws: nat -> Draw, cursor: nat, scaled: real -> real,
                       jobs: seq<Job>, n: nat, fuel: nat, complete: bool, next: nat)
  {
    n <= |jobs| <= n + fuel
    && (forall k :: n <= k < |jobs| ==>
          jobs[k].service == draws(k - n).service && jobs[k].gapFromPrevious == scaled(draws(k - n).interArrival))
    && next == cursor + 2 * (|jobs| - n + 1)
    && (complete <==> GapSum(jobs) + scaled(draws(|jobs| - n).interArrival) >= MinuteMs)
    && (!complete ==> |jobs| == n + fuel)
  }

  /** The fill after k jobs: they extend `jobs0` and carry the first k draws. */
  predicate FillState(draws: nat -> Draw, scaled: real -> real, jobs0: seq<Job>, jobs: seq<Job>, k: nat) {
    |jobs| == |jobs0| + k && jobs[..|jobs0|] == jobs0
    && forall i :: |jobs0| <= i < |jobs| ==>
         jobs[i].service == draws(i - |jobs0|).service && jobs[i].gapFromPrevious == scaled(draws(i - |jobs0|).interArrival)
  }

  /** Taking draw k as a job keeps the fill state. */
  lemma FillStateStep(draws: nat -> Draw, scaled: real -> real, jobs0: seq<Job>, jobs: seq<Job>, k: nat, j: Job)
    requires FillState(draws, scaled, jobs0, jobs, k)
    requires j.service == draws(k).service && j.gapFromPrevious == scaled(draws(k).interArrival)
    ensures FillState(draws, scaled, jobs0, jobs + [j], k + 1)
  {
    var t := jobs + [j];
    assert t[..|jobs0|] == jobs[..|jobs0|];
    forall i | |jobs0| <= i < |t|
      ensures t[i].service == draws(i - |jobs0|).service && t[i].gapFromPrevious == scaled(draws(i - |jobs0|).interArrival)
    {
      if i < |jobs| {
        assert t[i] == jobs[i];
      }
    }
  }

  /** The running bound of the fill: each gap of at least gLo adds gLo to the lower bound of the summed gaps. */
  lemma GapCount(start: real, filled: nat, gLo: real, sumGap: real, g: real)
    requires start + Times(filled, gLo) <= sumGap && gLo <= g
    ensures start + Times(filled + 1, gLo) <= sumGap + g
  {
  }

  /** Where the fill leaves off: its state, with draw k's gap leaving the minute or the fuel reached, is the fill phase. */
  lemma FillStateDone(draws: nat -> Draw, cursor: nat, scaled: real -> real, jobs0: seq<Job>, jobs: seq<Job>,
                      k: nat, fuel: nat, complete: bool)
    requires FillState(draws, scaled, jobs0, jobs, k) && k <= fuel
    requires complete <==> GapSum(jobs) + scaled(draws(k).interArrival) >= MinuteMs
    requires !complete ==> k == fuel
    ensures FilledFrom(draws, cursor, scaled, jobs, |jobs0|, fuel, complete, cursor + 2 * (k + 1))
  {
  }

  /** The summed gaps of the fill after `filled` jobs, grown from `start` by at least `gLo` per job and inside the minute. */
  predicate FillSums(jobs: seq<Job>, filled: nat, sumGap: real, start: real, base: real, rho: real,
                     sLo: real, sHi: real, gLo: real, gHi: real)
  {
    sumGap == GapSum(jobs) && 0.0 <= start <= sumGap < MinuteMs
    && start + Times(filled, gLo) <= sumGap
    && MinuteSoFar(jobs, base, rho, gLo, gHi, sLo, sHi)
  }

  /** A job with a gap in range that stays inside the minute keeps the sums. */
  lemma FillSumsStep(jobs: seq<Job>, filled: nat, sumGap: real, start: real, base: real, rho: real,
                     sLo: real, sHi: real, gLo: real, gHi: real, j: Job, g: real)
    requires FillSums(jobs, filled, sumGap, start, base, rho, sLo, sHi, gLo, gHi)
    requires sumGap + g < MinuteMs && 0.0 <= gLo <= g <= gHi && sLo <= j.service <= sHi
    requires j == Job(base + sumGap + g, j.service, g, rho)
    ensures FillSums(jobs + [j], filled + 1, sumGap + g, start, base, rho, sLo, sHi, gLo, gHi)
  {
    MinuteSoFarSnoc(jobs, j, base, rho, gLo, gHi, sLo, sHi);
    GapCount(start, filled, gLo, sumGap, g);
  }

  /** What the third loop leaves: the jobs, the cursor after the draws used and whether the pending gap left the minute. */
  datatype Fill = Fill(jobs: seq<Job>, next: nat, complete: bool)

  /**
   * The third loop from the jobs so far, with draw k of the stream taken
   * from `cursor` pending and the summed gaps `sumGap`: the pending pair
   * becomes a job after the summed gaps, its gap scaled, until that gap
   * would take the sum to a minute or more, or `fuel` more jobs are taken.
   */
  function FillFrom(draws: nat -> Draw, cursor: nat, scaled: real -> real, base: real, rho: real,
                    jobs: seq<Job>, k: nat, sumGap: real, fuel: nat): Fill
    decreases fuel
  {
    var g := scaled(draws(k).interArrival);
    if sumGap + g >= MinuteMs then Fill(jobs, cursor + 2 * (k + 1), true)
    else if fuel == 0 then Fill(jobs, cursor + 2 * (k + 1), false)
    else FillFrom(draws, cursor, scaled, base, rho, jobs + [Job(base + sumGap + g, draws(k).service, g, rho)],
                  k + 1, sumGap + g, fuel - 1)
  }

  /** One step of the third loop: draw k becomes a job. */
  lemma FillFromStep(draws: nat -> Draw, cursor: nat, scaled: real -> real, base: real, rho: real,
                     jobs: seq<Job>, k: nat, sumGap: real, fuel: nat, g: real, j: Job)
    requires g == scaled(draws(k).interArrival) && j == Job(base + sumGap + g, draws(k).service, g, rho)
    requires sumGap + g < MinuteMs && fuel > 0
    ensures FillFrom(draws, cursor, scaled, base, rho, jobs, k, sumGap, fuel)
         == FillFrom(draws, cursor, scaled, base, rho, jobs + [j], k + 1, sumGap + g, fuel - 1)
  {
  }

  /** A state of the third loop that leads to `total` leads there after one more step. */
  lemma FillFromAdvance(draws: nat -> Draw, cursor: nat, scaled: real -> real, base: real, rho: real,
                        jobs: seq<Job>, k: nat, sumGap: real, fuel: nat, total: Fill, d: Draw, g: real, j: Job,
                        jobs': seq<Job>, k': nat, sumGap': real, fuel': nat)
    requires FillFrom(draws, cursor, scaled, base, rho, jobs, k, sumGap, fuel) == total
    requires d == draws(k) && g == scaled(d.interArrival) && j == Job(base + sumGap + g, d.service, g, rho)
    requires sumGap + g < MinuteMs && fuel > 0
    requires jobs' == jobs + [j] && k' == k + 1 && sumGap' == sumGap + g && fuel' == fuel - 1
    ensures FillFrom(draws, cursor, scaled, base, rho, jobs', k', sumGap', fuel') == total
  {
    FillFromStep(draws, cursor, scaled, base, rho, jobs, k, sumGap, fuel, g, j);
  }

  /**
   * The third loop from a state of it stops exactly when the pending gap
   * leaves the minute or the fuel is spent, keeps the jobs so far and
   * reports the cursor after the draws used.
   */
  lemma {:induction false} FillFromShape(draws: nat -> Draw, cursor: nat, scaled: real -> real, base: real, rho: real,
                                         jobs0: seq<Job>, jobs: seq<Job>, k: nat, sumGap: real, fuel: nat,
                                         total: nat, f: Fill)
    requires |jobs| == |jobs0| + k && jobs[..|jobs0|] == jobs0 && sumGap == GapSum(jobs)
    requires total == k + fuel && f == FillFrom(draws, cursor, scaled, base, rho, jobs, k, sumGap, fuel)
    ensures |jobs| <= |f.jobs| <= |jobs0| + total && f.jobs[..|jobs0|] == jobs0
    ensures f.next == cursor + 2 * (|f.jobs| - |jobs0| + 1)
    ensures f.complete <==> GapSum(f.jobs) + scaled(draws(|f.jobs| - |jobs0|).interArrival) >= MinuteMs
    ensures !f.complete ==> |f.jobs| == |jobs0| + total
    decreases fuel
  {
    var g := scaled(draws(k).interArrival);
    if sumGap + g < MinuteMs && fuel > 0 {
      var j := Job(base + sumGap + g, draws(k).service, g, rho);
      var t := jobs + [j];
      assert t[..|jobs|] == jobs && t[..|jobs0|] == jobs0;
      FillFromStep(draws, cursor, scaled, base, rho, jobs, k, sumGap, fuel, g, j);
      FillFromShape(draws, cursor, scaled, base, rho, jobs0, t, k + 1, sumGap + g, fuel - 1, total, f);
    }
  }

  /** The jobs the third loop takes from a state of it carry the draws in order. */
  lemma {:induction false} FillFromCarries(draws: nat -> Draw, cursor: nat, scaled: real -> real, base: real, rho: real,
                                           jobs0: seq<Job>, jobs: seq<Job>, k: nat, sumGap: real, fuel: nat, f: Fill)
    requires FillState(draws, scaled, jobs0, jobs, k)
    requires f == FillFrom(draws, cursor, scaled, base, rho, jobs, k, sumGap, fuel)
    ensures |jobs0| <= |f.jobs| && FillState(draws, scaled, jobs0, f.jobs, |f.jobs| - |jobs0|)
    decreases fuel
  {
    var g := scaled(draws(k).interArrival);
    if sumGap + g < MinuteMs && fuel > 0 {
      var j := Job(base + sumGap + g, draws(k).service, g, rho);
      FillStateStep(draws, scaled, jobs0, jobs, k, j);
      FillFromStep(draws, cursor, scaled, base, rho, jobs, k, sumGap, fuel, g, j);
      FillFromCarries(draws, cursor, scaled, base, rho, jobs0, jobs + [j], k + 1, sumGap + g, fuel - 1, f);
    }
  }

  /** The third loop from the jobs of the accept phase is the fill phase. */
  lemma FillFromFilled(draws: nat -> Draw, cursor: nat, scaled: real -> real, base: real, rho: real,
                       jobs0: seq<Job>, fuel: nat)
    ensures var f := FillFrom(draws, cursor, scaled, base, rho, jobs0, 0, GapSum(jobs0), fuel);
      FilledFrom(draws, cursor, scaled, f.jobs, |jobs0|, fuel, f.complete, f.next) && f.jobs[..|jobs0|] == jobs0
  {
    var f := FillFrom(draws, cursor, scaled, base, rho, jobs0, 0, GapSum(jobs0), fuel);
    assert jobs0[..|jobs0|] == jobs0;
    FillFromShape(draws, cursor, scaled, base, rho, jobs0, jobs0, 0, GapSum(jobs0), fuel, fuel, f);
    FillFromCarries(draws, cursor, scaled, base, rho, jobs0, jobs0, 0, GapSum(jobs0), fuel, f);
    FillStateDone(draws, cursor, scaled, jobs0, f.jobs, |f.jobs| - |jobs0|, fuel, f.complete);
  }

  /** The third loop from a state of it keeps every job inside the minute and drawn within the sample bounds, and a positive lower gap bound with enough fuel completes it. */
  lemma {:induction false} FillFromSums(draws: nat -> Draw, cursor: nat, scaled: real -> real, base: real, rho: real,
                                        jobs: seq<Job>, k: nat, sumGap: real, start: real,
                                        sLo: real, sHi: real, aLo: real, aHi: real, gLo: real, gHi: real,
                                        fuel: nat, total: nat, f: Fill)
    requires DrawsWithin(draws, sLo, sHi, aLo, aHi) && 0.0 <= gLo && ScalesWithin(scaled, aLo, aHi, gLo, gHi)
    requires FillSums(jobs, k, sumGap, start, base, rho, sLo, sHi, gLo, gHi)
    requires total == k + fuel && f == FillFrom(draws, cursor, scaled, base, rho, jobs, k, sumGap, fuel)
    ensures MinuteSoFar(f.jobs, base, rho, gLo, gHi, sLo, sHi)
    ensures gLo > 0.0 && total > (MinuteMs / gLo).Floor ==> f.complete
    decreases fuel
  {
    var g := scaled(draws(k).interArrival);
    if sumGap + g < MinuteMs && fuel > 0 {
      var j := Job(base + sumGap + g, draws(k).service, g, rho);
      FillSumsStep(jobs, k, sumGap, start, base, rho, sLo, sHi, gLo, gHi, j, g);
      FillFromStep(draws, cursor, scaled, base, rho, jobs, k, sumGap, fuel, g, j);
      FillFromSums(draws, cursor, scaled, base, rho, jobs + [j], k + 1, sumGap + g, start,
                   sLo, sHi, aLo, aHi, gLo, gHi, fuel - 1, total, f);
    } else if sumGap + g < MinuteMs && gLo > 0.0 {
      CountBound(k, gLo, sumGap - start);
    }
  }

  /** The first pair of the third loop's draws and its scaled gap. */
  method FillStart(ser: Cdf, arr: Cdf, uniform: nat -> real, cursor: nat, prior: Draw, scaled: real -> real)
    returns (d: Draw, g: real)
    requires Sources(ser, arr, uniform)
    ensures d == FillDraws(ser, arr, uniform, cursor, prior)(0) && g == scaled(d.interArrival)
  {
    var s0 := LookupScan(ser.prob, ser.sample, |ser.sample|, uniform(cursor), prior.service);
    var a0 := LookupScan(arr.prob, arr.sample, |arr.sample|, uniform(cursor + 1), prior.interArrival);
    d := Draw(s0, a0);
    g := scaled(d.interArrival);
  }

  /** The pair of draws that follows draw k of the third loop, from the uniforms at `c`. */
  method FillNext(ser: Cdf, arr: Cdf, uniform: nat -> real, cursor: nat, prior: Draw, k: nat, c: nat, d: Draw)
    returns (d': Draw)
    requires Sources(ser, arr, uniform) && c == cursor + 2 * (k + 1)
    requires d == FillDraws(ser, arr, uniform, cursor, prior)(k)
    ensures d' == FillDraws(ser, arr, uniform, cursor, prior)(k + 1)
  {
    var s' := LookupScan(ser.prob, ser.sample, |ser.sample|, uniform(c), d.service);
    var a' := LookupScan(arr.prob, arr.sample, |arr.sample|, uniform(c + 1), d.interArrival);
    FillDrawsNext(ser, arr, uniform, cursor, prior, k, c);
    d' := Draw(s', a');
  }

  /**
   * The fill phase from the jobs of the accept phase, with draws and scaled
   * gaps in range: it keeps those jobs, places every job inside the minute
   * and draws it from the ranges, and with a positive lower gap bound a
   * fuel above one minute over that bound always completes it.
   */
  lemma FillPhase(draws: nat -> Draw, cursor: nat, scaled: real -> real, base: real, rho: real,
                  jobs0: seq<Job>, fuel: nat, sLo: real, sHi: real, aLo: real, aHi: real, gLo: real, gHi: real)
    requires DrawsWithin(draws, sLo, sHi, aLo, aHi) && 0.0 <= gLo && ScalesWithin(scaled, aLo, aHi, gLo, gHi)
    requires 0.0 <= GapSum(jobs0) < MinuteMs && MinuteSoFar(jobs0, base, rho, gLo, gHi, sLo, sHi)
    ensures var f := FillFrom(draws, cursor, scaled, base, rho, jobs0, 0, GapSum(jobs0), fuel);
      |jobs0| <= |f.jobs| && f.jobs[..|jobs0|] == jobs0
      && MinuteSoFar(f.jobs, base, rho, gLo, gHi, sLo, sHi)
      && (gLo > 0.0 && fuel > (MinuteMs / gLo).Floor ==> f.complete)
  {
    var f := FillFrom(draws, cursor, scaled, base, rho, jobs0, 0, GapSum(jobs0), fuel);
    assert jobs0[..|jobs0|] == jobs0;
    FillFromShape(draws, cursor, scaled, base, rho, jobs0, jobs0, 0, GapSum(jobs0), fuel, fuel, f);
    FillFromSums(draws, cursor, scaled, base, rho, jobs0, 0, GapSum(jobs0), GapSum(jobs0),
                 sLo, sHi, aLo, aHi, gLo, gHi, fuel, fuel, f);
  }

  /**
   * The third loop: starting from the summed gaps of `jobs0`, fresh pairs of
   * draws become jobs until the pending draw's scaled gap would leave the
   * minute. The source's loop has no other bound; with zero-valued gaps it
   * need not end, so the model stops after `fuel` jobs and reports the
   * phase incomplete.
   */
  method FillMinute(ser: Cdf, arr: Cdf, uniform: nat -> real, cursor: nat, jobs0: seq<Job>,
                    prior: Draw, scaled: real -> real, base: real, rho: real, fuel: nat)
    returns (jobs: seq<Job>, next: nat, complete: bool)
    requires Sources(ser, arr, uniform)
    ensures Fill(jobs, next, complete)
      == FillFrom(FillDraws(ser, arr, uniform, cursor, prior), cursor, scaled, base, rho, jobs0, 0, GapSum(jobs0), fuel)
  {
    ghost var draws := FillDraws(ser, arr, uniform, cursor, prior);
    var d, _ := FillStart(ser, arr, uniform, cursor, prior, scaled);
    jobs := jobs0;
    var sumGap := GapSum(jobs0);
    ghost var total := FillFrom(draws, cursor, scaled, base, rho, jobs0, 0, sumGap, fuel);
    var filled: nat := 0;
    ghost var left: nat := fuel;
    var c: nat := cursor + 2;
    complete := true;
    while sumGap + scaled(d.interArrival) < MinuteMs
      invariant filled + left == fuel && complete && c == cursor + 2 * (filled + 1) && d == draws(filled)
      invariant FillFrom(draws, cursor, scaled, base, rho, jobs, filled, sumGap, left) == total
      decreases left
    {
      if filled == fuel {
        complete := false;
        break;
      }
      var g := scaled(d.interArrival);
      var job := Job(base + sumGap + g, d.service, g, rho);
      ghost var jobs', filled', sumGap', left', d' := jobs, filled, sumGap, left, d;
      jobs, sumGap := jobs + [job], sumGap + g;
      d := FillNext(ser, arr, uniform, cursor, prior, filled, c, d);
      filled, c, left := filled + 1, c + 2, left - 1;
      FillFromAdvance(draws, cursor, scaled, base, rho, jobs', filled', sumGap', left', total, d', g, job,
                      jobs, filled, sumGap, left);
    }
    next := c;
  }

  /** The jobs of a minute so far are placed and generated for utilization rho. */
  predicate Placed(jobs: seq<Job>, base: real, rho: real) {
    forall k :: 0 <= k < |jobs| ==> PlacedAt(jobs, k, base) && jobs[k].whatRho == rho
  }

  lemma MinuteSoFarPlaced(jobs: seq<Job>, base: real, rho: real, gLo: real, gHi: real, sLo: real, sHi: real)
    requires MinuteSoFar(jobs, base, rho, gLo, gHi, sLo, sHi)
    ensures Placed(jobs, base, rho)
  {
    assert forall k :: 0 <= k < |jobs| ==> Drawn(jobs[k], rho, gLo, gHi, sLo, sHi);
  }

  /**
   * The second and third loops for a calibration batch and its scale: the
   * accept phase, then the fill phase from the draws after the batch.
   */
  method PlaceJobs(ser: Cdf, arr: Cdf, uniform: nat -> real, cursor: nat, fuel: nat,
                   serVec: seq<real>, arrVec: seq<real>, scale: real, base: real, rho: real,
                   ghost sLo: real, ghost sHi: real, ghost aLo: real, ghost aHi: real, ghost gLo: real, ghost gHi: real)
    returns (g: Generation)
    requires Sources(ser, arr, uniform) && Samples(ser, arr, sLo, sHi, aLo, aHi)
    requires |serVec| == |arrVec| == CalibrationBatch && Within(serVec, sLo, sHi) && Within(arrVec, aLo, aHi)
    requires scale >= 0.0 && gLo >= 0.0 && gLo == aLo * scale && gHi == aHi * scale
    ensures g.Generation? && g.scale == scale
    ensures TakesBatch(g.jobs, g.accepted, serVec, ScaledGaps(arrVec, scale))
    ensures g.accepted <= |g.jobs|
    ensures Fill(g.jobs, g.next, g.complete)
      == FillFrom(FillDraws(ser, arr, uniform, cursor + 2 * CalibrationBatch,
                            Draw(serVec[CalibrationBatch - 1], arrVec[CalibrationBatch - 1])),
                  cursor + 2 * CalibrationBatch, ScaleBy(scale), base, rho,
                  g.jobs[..g.accepted], 0, GapSum(g.jobs[..g.accepted]), fuel)
    ensures MinuteSoFar(g.jobs, base, rho, gLo, gHi, sLo, sHi) && Placed(g.jobs, base, rho)
    ensures gLo > 0.0 && fuel > (MinuteMs / gLo).Floor ==> g.complete
  {
    var gaps := ScaledGaps(arrVec, scale);
    ScaledGapsWithin(arrVec, aLo, aHi, scale, gLo, gHi);
    var taken := AcceptBatch(serVec, gaps, base, rho, gLo, gHi, sLo, sHi);
    var prior := Draw(serVec[|serVec| - 1], arrVec[|arrVec| - 1]);
    var jobs, next, complete := FillMinute(ser, arr, uniform, cursor + 2 * CalibrationBatch, taken,
                                           prior, ScaleBy(scale), base, rho, fuel);
    FillDrawsWithin(ser, arr, uniform, cursor + 2 * CalibrationBatch, prior, sLo, sHi, aLo, aHi);
    ScaleByWithin(scale, aLo, aHi, gLo, gHi);
    FillPhase(FillDraws(ser, arr, uniform, cursor + 2 * CalibrationBatch, prior), cursor + 2 * CalibrationBatch,
              ScaleBy(scale), base, rho, taken, fuel, sLo, sHi, aLo, aHi, gLo, gHi);
    TakesBatchPrefix(taken, jobs, serVec, gaps);
    MinuteSoFarPlaced(jobs, base, rho, gLo, gHi, sLo, sHi);
    g := Generation(jobs, scale, |taken|, next, complete);
  }

  /** The accept phase of `taken` is the accept phase of any extension of it. */
  lemma TakesBatchPrefix(taken: seq<Job>, jobs: seq<Job>, serVec: seq<real>, gaps: seq<real>)
    requires TakesBatch(taken, |taken|, serVec, gaps)
    requires |taken| <= |jobs| && jobs[..|taken|] == taken
    ensures TakesBatch(jobs, |taken|, serVec, gaps)
  {
    assert taken[..|taken|] == taken;
    forall k | 0 <= k < |taken| ensures jobs[k] == taken[k] {
      assert jobs[..|taken|][k] == jobs[k];
    }
  }

  /** The inter-arrival scale that makes the calibration batch run at utilization rho. */
  function Scale(sumSer: real, sumArr: real, rho: real): (r: real)
    requires sumArr != 0.0 && rho != 0.0
    ensures sumSer >= 0.0 && sumArr > 0.0 && rho > 0.0 ==> r >= 0.0
  {
    (sumSer / sumArr) / rho
  }

  /** Scaled by Scale, the batch's inter-arrival sum times rho is its service sum: the batch runs at utilization rho. */
  lemma ScaleRunsAtRho(sumSer: real, sumArr: real, rho: real)
    requires sumArr != 0.0 && rho != 0.0
    ensures Scale(sumSer, sumArr, rho) * rho * sumArr == sumSer
  {
    var q := sumSer / sumArr;
    assert q * sumArr == sumSer;
    assert (q / rho) * rho == q;
  }

  /**
   * What generateWorkloadCDF makes of one minute: the jobs, the scale, the
   * number of calibration jobs taken, the cursor after the draws and whether
   * the fill phase completed; or a division by zero in the scale; or the
   * calibration pair whose inter-arrival lookup throws out_of_range.
   */
  datatype Generation =
    | Generation(jobs: seq<Job>, scale: real, accepted: nat, next: nat, complete: bool)
    | ZeroDivision
    | LookupOutOfRange(pair: nat)

  /**
   * generateWorkloadCDF for minute `offset` at utilization `rho`: it throws
   * at the first calibration pair whose inter-arrival lookup reads past the
   * samples; otherwise the batch is the calibration draws from `cursor`; a
   * zero inter-arrival sum or a zero utilization divides by zero; otherwise the scale makes the batch
   * run at `rho`, every job arrives inside the minute at the summed gaps,
   * the leading jobs are the batch's accept phase and the rest its fill
   * phase from the draws that follow the batch.
   */
  predicate Generates(ser: Cdf, arr: Cdf, offset: nat, rho: real, uniform: nat -> real, cursor: nat, fuel: nat,
                      serVec: seq<real>, arrVec: seq<real>, g: Generation)
    requires Sources(ser, arr, uniform)
  {
    if !BatchInRange(ser, arr, uniform, cursor) then
      g.LookupOutOfRange? && g.pair < CalibrationBatch && !ArrivalInRange(ser, arr, uniform, cursor, g.pair)
      && forall k: nat :: k < g.pair ==> ArrivalInRange(ser, arr, uniform, cursor, k)
    else
      |serVec| == CalibrationBatch && BatchDraws(ser, arr, uniform, cursor, serVec, arrVec)
      && if Sum(arrVec) == 0.0 || rho == 0.0 then g.ZeroDivision?
         else
           g.Generation?
           && g.scale == Scale(Sum(serVec), Sum(arrVec), rho)
           && Placed(g.jobs, offset as real * MinuteMs, rho)
           && TakesBatch(g.jobs, g.accepted, serVec, ScaledGaps(arrVec, g.scale))
           && Fill(g.jobs, g.next, g.complete)
              == FillFrom(FillDraws(ser, arr, uniform, cursor + 2 * CalibrationBatch,
                                    Draw(serVec[CalibrationBatch - 1], arrVec[CalibrationBatch - 1])),
                          cursor + 2 * CalibrationBatch, ScaleBy(g.scale), offset as real * MinuteMs, rho,
                          g.jobs[..g.accepted], 0, GapSum(g.jobs[..g.accepted]), fuel)
  }

  /**
   * generateWorkloadCDF's three loops for minute `offset` at utilization
   * `newRho`. For samples that are not negative the scale is not negative,
   * and every generated job's service and gap lie within the sample bounds,
   * the gap's scaled.
   */
  method GenerateMinute(ser: Cdf, arr: Cdf, offset: nat, newRho: real, uniform: nat -> real, cursor: nat, fuel: nat,
                        ghost sLo: real, ghost sHi: real, ghost aLo: real, ghost aHi: real)
    returns (serVec: seq<real>, arrVec: seq<real>, g: Generation, ghost gLo: real, ghost gHi: real)
    requires Sources(ser, arr, uniform)
    requires Samples(ser, arr, sLo, sHi, aLo, aHi)
    requires newRho >= 0.0
    ensures Generates(ser, arr, offset, newRho, uniform, cursor, fuel, serVec, arrVec, g)
    ensures g.Generation? ==>
      g.scale >= 0.0 && 0.0 <= gLo && gLo == ScaleBy(g.scale)(aLo) && gHi == ScaleBy(g.scale)(aHi)
      && MinuteSoFar(g.jobs, offset as real * MinuteMs, newRho, gLo, gHi, sLo, sHi)
    ensures g.Generation? && gLo > 0.0 && fuel > (MinuteMs / gLo).Floor ==> g.complete
  {
    var inRange, sumSer, sumArr;
    inRange, serVec, arrVec, sumSer, sumArr := Calibrate(ser, arr, uniform, cursor, sLo, sHi, aLo, aHi);
    if !inRange {
      return serVec, arrVec, LookupOutOfRange(|arrVec|), 0.0, 0.0;
    }
    if sumArr == 0.0 || newRho == 0.0 {
      return serVec, arrVec, ZeroDivision, 0.0, 0.0;
    }
    var scale := Scale(sumSer, sumArr, newRho);
    gLo, gHi := aLo * scale, aHi * scale;
    MulNonnegative(aLo, scale);
    g := PlaceJobs(ser, arr, uniform, cursor, fuel, serVec, arrVec, scale, offset as real * MinuteMs, newRho,
                   sLo, sHi, aLo, aHi, gLo, gHi);
    ScaleByApply(scale, aLo, gLo);
    ScaleByApply(scale, aHi, gHi);
  }
}
