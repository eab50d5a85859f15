/**
 * The compile-time constants of src/const.h and the numbers of the active
 * configuration of src/config.h (DO_SLEEPSCALE, useImmediatePastHist, DO_OVER_PROV,
 * CUT_THE_FIRST_120_MINS, BASE_USE_R2H_C3), with the small arithmetic helpers
 * the modules share.
 */
module Constants {
  /** How often, in minutes, the policy is re-selected. */
  const UpdateInterval: int := 1
  /** Length K of the estimator's window. */
  const EstLookback: int := 10
  /** Allowed slow-down relative to the nominal service time. */
  const SleepScaleSlowdown: int := 5
  /** Nominal service time of the workload, in ms. */
  const SerTime: int := 194
  /** Capacity of the job log; policy search runs only when the log holds this many jobs. */
  const JobLogLength: nat := 10000
  /** Start value of the running best power in the policy search. */
  const MaxNum: real := 1000000000.0
  /** Number of frequency levels in the catalog. */
  const NoFreq: nat := 100

  const CoreActMaxPwr: real := 130.0
  const PlatIdlePwr: real := 60.0
  const PlatActMaxPwr: real := 120.0

  /** Wake-up latencies in ms. */
  const WakeupC0i: real := 0.0
  const WakeupC1: real := 0.01
  const WakeupC3: real := 0.1
  const WakeupC6: real := 1.0
  const WakeupDvfsOnly: real := 0.0

  /** DO_OVER_PROV is defined: the managed server runs 35% faster than the chosen policy, capped at 1. */
  const OverProvAmount: real := 0.35
  /** CUT_THE_FIRST_120_MINS is defined: statistics are kept only after this minute. */
  const CutMinutes: int := 120

  /** One minute in ms (60 * 1000). */
  const MinuteMs: real := 60000.0
  /** Number of (service, inter-arrival) pairs drawn to calibrate a minute's utilization. */
  const CalibrationBatch: nat := 200

  /** The response-time bound of the policy search, SER_TIME * SLEEPSCALE_SLOWDOWN, as a double. */
  const ResponseBound: real := (SerTime * SleepScaleSlowdown) as real

  function Min(a: real, b: real): real { if a <= b then a else b }
  function Max(a: real, b: real): real { if a >= b then a else b }

  /** Sum in index order, as the accumulation loops add up doubles. */
  function Sum(s: seq<real>): real {
    if s == [] then 0.0 else Sum(s[..|s| - 1]) + s[|s| - 1]
  }

  lemma MulNonnegative(a: real, b: real)
    requires a >= 0.0 && b >= 0.0
    ensures a * b >= 0.0
  {
  }
}
