/**
 * The SleepScale server (src/Server.cpp): the two server lines that run the
 * generated jobs (the policy SleepScale picked, and the race-to-halt
 * baseline), the catalog of candidate policies, workload generation into the
 * job queue and the job log, and the minute loop of `run`.
 */
module ServerSim {
  import opened Constants
  import opened Wrappers
  import opened JobLog
  import opened PowerModel
  import opened QueueSim
  import opened PolicySearch
  import W = Workload
  import E = UtilEstimator

  // ---------------------------------------------------------------- server lines

  /**
   * The run-wide state of one server line: the last departure (-1 before the
   * first job), the summed response times ER, the energy EP, the total run,
   * busy and idle times, the number of jobs counted, and the
   * over-provisioning flag.
   */
  datatype Line = Line(prevDepart: real, er: real, ep: real, totalRunTime: real,
                       opLength: real, offLength: real, totalNoOfJobs: nat, overProvision: bool)

  /** A line that has not run any job. */
  const Fresh: Line := Line(-1.0, 0.0, 0.0, 0.0, 0.0, 0.0, 0, false)

  /** A line is fresh until it runs its first job, and its accumulators are never negative. */
  predicate LineOk(l: Line) {
    if l.prevDepart < 0.0 then l == Fresh
    else l.er >= 0.0 && l.ep >= 0.0 && l.totalRunTime >= 0.0 && l.opLength >= 0.0 && l.offLength >= 0.0
  }

  /**
   * The frequency doQueue runs at. The condition `overProvision = true`
   * assigns, so over-provisioning always applies: 35% above the policy's
   * frequency, capped at full speed.
   */
  function OverProvFreq(f: real): (r: real)
    requires 0.0 < f <= 1.0
    ensures f <= r <= 1.0
    ensures r == 1.0 <==> f * (1.0 + OverProvAmount) >= 1.0
    ensures forall s: IdleState :: Admissible(f, s) ==> Admissible(r, s)
  {
    Min(f * (1.0 + OverProvAmount), 1.0)
  }

  /**
   * One doQueue or doQueueBaseline call on line `l`: the jobs run at
   * frequency `f` with wake-up latency `w`, continuing from the stored
   * departure or cold-starting on a fresh line. Response times of jobs after
   * the first of a cold start count only after minute CUT_MINUTES, and so do
   * the run time, the energy at `act` busy and `idle` idle, and the job
   * count; the over-provisioning flag records whether this call's counted
   * response times stayed below SER_TIME * SLEEPSCALE_SLOWDOWN.
   */
  function Served(l: Line, jobs: seq<Job>, f: real, act: real, idle: real, w: real, minute: int): Line
    requires f > 0.0 && (l.prevDepart >= 0.0 || |jobs| >= 1)
  {
    var counted := minute > CutMinutes;
    Account(l, Replay(l.prevDepart, jobs, f, w, counted), |jobs|, act, idle, counted)
  }

  /** The bookkeeping after the job loop: what a replay `q` of `n` jobs adds to line `l`. */
  function Account(l: Line, q: QState, n: nat, act: real, idle: real, counted: bool): Line {
    var l' := l.(prevDepart := q.prevDepart,
                 er := if l.prevDepart < 0.0 then q.respSum else l.er + q.respSum,
                 overProvision := q.respSum < ResponseBound);
    if counted then
      l'.(totalRunTime := l.totalRunTime + q.opLength + q.offLength,
          ep := l.ep + (q.opLength * act + q.offLength * idle),
          opLength := l.opLength + q.opLength,
          offLength := l.offLength + q.offLength,
          totalNoOfJobs := l.totalNoOfJobs + n)
    else l'
  }

  /** The queue state doQueue starts from: the stored departure with nothing accumulated, or the first job's cold start. */
  function Start(l: Line, jobs: seq<Job>, f: real): (q: QState)
    requires f > 0.0 && (l.prevDepart >= 0.0 || |jobs| >= 1)
  {
    if l.prevDepart < 0.0 then ColdStart(jobs[0], f) else QState(l.prevDepart, 0.0, 0.0, 0.0)
  }

  lemma ReplayFromStart(l: Line, jobs: seq<Job>, f: real, w: real, counted: bool)
    requires f > 0.0 && (l.prevDepart >= 0.0 || |jobs| >= 1)
    ensures Replay(l.prevDepart, jobs, f, w, counted)
      == Run(Start(l, jobs, f), if l.prevDepart < 0.0 then jobs[1..] else jobs, f, w, counted)
  {
  }

  /** The queue loop from a line's starting point: the departure does not move back, and the sums are not negative. */
  lemma ReplayGrows(l: Line, jobs: seq<Job>, f: real, w: real, counted: bool)
    requires f > 0.0 && (l.prevDepart >= 0.0 || |jobs| >= 1)
    requires AllWellformed(jobs) && w >= 0.0
    ensures var q := Replay(l.prevDepart, jobs, f, w, counted);
      q.prevDepart >= 0.0 && q.prevDepart >= l.prevDepart
      && q.opLength >= 0.0 && q.offLength >= 0.0 && q.respSum >= 0.0
  {
    var rest := if l.prevDepart < 0.0 then jobs[1..] else jobs;
    var s := Start(l, jobs, f);
    assert AllWellformed(rest) by {
      if l.prevDepart < 0.0 {
        forall k | 0 <= k < |rest| ensures Wellformed(rest[k]) {
          assert rest[k] == jobs[k + 1];
        }
      }
    }
    if l.prevDepart < 0.0 {
      assert Wellformed(jobs[0]);
      assert jobs[0].service / f >= 0.0;
    }
    ReplayFromStart(l, jobs, f, w, counted);
    RunMonotone(s, rest, f, w, counted);
    ServiceTimeNonnegative(rest, f);
  }

  /**
   * A served line is no longer fresh, its departure never moves back, and
   * its accumulators never decrease. Before minute CUT_MINUTES only the
   * departure, ER and the flag change.
   */
  lemma ServedGrows(l: Line, jobs: seq<Job>, f: real, act: real, idle: real, w: real, minute: int)
    requires f > 0.0 && (l.prevDepart >= 0.0 || |jobs| >= 1)
    requires LineOk(l) && AllWellformed(jobs) && w >= 0.0 && 0.0 <= idle <= act
    ensures var r := Served(l, jobs, f, act, idle, w, minute);
      r.prevDepart >= 0.0 && r.prevDepart >= l.prevDepart && LineOk(r)
      && (l.prevDepart >= 0.0 ==> r.er >= l.er)
      && r.ep >= l.ep && r.totalRunTime >= l.totalRunTime
      && r.opLength >= l.opLength && r.offLength >= l.offLength && r.totalNoOfJobs >= l.totalNoOfJobs
      && (minute <= CutMinutes ==>
            r.ep == l.ep && r.totalRunTime == l.totalRunTime && r.opLength == l.opLength
            && r.offLength == l.offLength && r.totalNoOfJobs == l.totalNoOfJobs)
  {
    var counted := minute > CutMinutes;
    ReplayGrows(l, jobs, f, w, counted);
    AccountGrows(l, Replay(l.prevDepart, jobs, f, w, counted), |jobs|, act, idle, counted);
  }

  /** The bookkeeping half of ServedGrows: adding a replay that only moves forward keeps the line valid and growing. */
  lemma AccountGrows(l: Line, q: QState, n: nat, act: real, idle: real, counted: bool)
    requires LineOk(l) && 0.0 <= idle <= act
    requires q.prevDepart >= 0.0 && q.prevDepart >= l.prevDepart
    requires q.opLength >= 0.0 && q.offLength >= 0.0 && q.respSum >= 0.0
    ensures var r := Account(l, q, n, act, idle, counted);
      r.prevDepart >= 0.0 && r.prevDepart >= l.prevDepart && LineOk(r)
      && (l.prevDepart >= 0.0 ==> r.er >= l.er)
      && r.ep >= l.ep && r.totalRunTime >= l.totalRunTime
      && r.opLength >= l.opLength && r.offLength >= l.offLength && r.totalNoOfJobs >= l.totalNoOfJobs
      && (!counted ==>
            r.ep == l.ep && r.totalRunTime == l.totalRunTime && r.opLength == l.opLength
            && r.offLength == l.offLength && r.totalNoOfJobs == l.totalNoOfJobs)
  {
    var r := Account(l, q, n, act, idle, counted);
    MulNonnegative(q.opLength, act);
    MulNonnegative(q.offLength, idle);
    var energy := q.opLength * act + q.offLength * idle;
    assert energy >= 0.0;
    if l.prevDepart < 0.0 {
      assert l == Fresh;
      assert r.er == q.respSum;
    } else {
      assert r.er == l.er + q.respSum;
    }
    if counted {
      assert r.ep == l.ep + energy;
      assert r.totalRunTime == l.totalRunTime + q.opLength + q.offLength;
    } else {
      assert r.ep == l.ep && r.totalRunTime == l.totalRunTime;
    }
  }

  /**
   * After minute CUT_MINUTES a call adds its jobs to the count, and its busy
   * plus idle time is the span from the previous departure (time 0 on a
   * fresh line) to the new one.
   */
  lemma ServedSpan(l: Line, jobs: seq<Job>, f: real, act: real, idle: real, w: real, minute: int)
    requires f > 0.0 && (l.prevDepart >= 0.0 || |jobs| >= 1) && minute > CutMinutes
    ensures var r := Served(l, jobs, f, act, idle, w, minute);
      r.totalRunTime == l.totalRunTime + r.prevDepart - (if l.prevDepart < 0.0 then 0.0 else l.prevDepart)
      && r.totalRunTime - l.totalRunTime == (r.opLength - l.opLength) + (r.offLength - l.offLength)
      && r.totalNoOfJobs == l.totalNoOfJobs + |jobs|
  {
    var rest := if l.prevDepart < 0.0 then jobs[1..] else jobs;
    ReplayFromStart(l, jobs, f, w, true);
    RunConservesTotal(Start(l, jobs, f), rest, f, w, true);
  }

  /**
   * After minute CUT_MINUTES the energy a call adds lies between the idle
   * and the active power times the run time it adds.
   */
  lemma ServedEnergyBetween(l: Line, jobs: seq<Job>, f: real, act: real, idle: real, w: real, minute: int)
    requires f > 0.0 && (l.prevDepart >= 0.0 || |jobs| >= 1) && minute > CutMinutes
    requires AllWellformed(jobs) && w >= 0.0 && idle <= act
    ensures var r := Served(l, jobs, f, act, idle, w, minute);
      idle * (r.totalRunTime - l.totalRunTime) <= r.ep - l.ep <= act * (r.totalRunTime - l.totalRunTime)
  {
    ReplayGrows(l, jobs, f, w, true);
    var q := Replay(l.prevDepart, jobs, f, w, true);
    var r := Served(l, jobs, f, act, idle, w, minute);
    var op, off := q.opLength, q.offLength;
    var dt, de := r.totalRunTime - l.totalRunTime, r.ep - l.ep;
    assert dt == op + off && de == op * act + off * idle;
    WeightedBetween(op, off, act, idle, dt, de);
  }

  /** A busy/idle split of a span, weighted by two powers, lies between the span at either power. */
  lemma WeightedBetween(op: real, off: real, act: real, idle: real, span: real, energy: real)
    requires op >= 0.0 && off >= 0.0 && idle <= act
    requires span == op + off && energy == op * act + off * idle
    ensures idle * span <= energy <= act * span
  {
    MulNonnegative(op, act - idle);
    MulNonnegative(off, act - idle);
    assert op * act - op * idle == op * (act - idle);
    assert off * act - off * idle == off * (act - idle);
  }

  /** Recording simulation outputs in er and ep keeps a catalog entry a table row. */
  lemma TableEntryIgnoresOutputs(p: PowerState, er: real, ep: real)
    requires TableEntry(p)
    ensures TableEntry(p.(er := er, ep := ep))
  {
    assert p.(er := er, ep := ep).(er := 0.0, ep := 0.0) == p.(er := 0.0, ep := 0.0);
  }

  // ---------------------------------------------------------------- the run loop

  /** Whether a minute of the run loop runs the servers and SleepScale: after minute 0, every UPDATE_INTERVAL minutes, with a full job log. */
  function Decides(minute: int, logFull: bool): (b: bool)
    ensures b <==> minute > 0 && logFull
  {
    minute > 0 && minute % UpdateInterval == 0 && logFull
  }

  /** How one iteration of the run loop ends. */
  datatype Outcome =
    | Running       // the loop goes on while the observer has not reached the end of the trace
    | Finished      // the loop ended: the observer reached the end of the trace
    | Aborted       // doQueue on an empty queue: `jobStream.at(0)` throws in the cold branch and in the warm one
    | Unmodelled    // a division by zero the source leaves to IEEE arithmetic
    | OutOfFuel     // the fill loop of generateWorkloadCDF did not end within the model's fuel
    | OutOfRange    // a calibration lookup of generateWorkloadCDF clamps with the service CDF's count and `arr_sample.at` throws

  /** How a generated minute ends the iteration: only a completed fill goes on. */
  function GenerationOutcome(g: W.Generation): (o: Outcome)
    ensures o == Running <==> g.Generation? && g.complete
  {
    match g
    case LookupOutOfRange(_) => OutOfRange
    case ZeroDivision => Unmodelled
    case Generation(_, _, _, _, complete) => if complete then Running else OutOfFuel
  }

  /** The workload inputs: CDFs over samples that are not negative, and draws in [0, 1). */
  ghost predicate Inputs(ser: W.Cdf, arr: W.Cdf, uniform: nat -> real, sLo: real, sHi: real, aLo: real, aHi: real) {
    W.Sources(ser, arr, uniform) && W.Samples(ser, arr, sLo, sHi, aLo, aHi)
  }

  /** The jobs generateWorkloadCDF produces: positive utilization, and gap, service and arrival not negative. */
  predicate AllLogged(js: seq<Job>) {
    forall k :: 0 <= k < |js| ==> LoggedJob(js[k])
  }

  lemma AllLoggedWellformed(js: seq<Job>)
    requires AllLogged(js)
    ensures AllWellformed(js)
  {
    assert forall k :: 0 <= k < |js| ==> LoggedJob(js[k]) ==> Wellformed(js[k]);
  }

  /** What the observer's line yields: the utilization read, or -1 at the end of the trace. */
  function Observed(next: Option<real>): real {
    if next.Some? then next.value else -1.0
  }

  /** The two server lines with the record of the frequencies and idle states the SleepScale line used. */
  datatype Lines = Lines(line: Line, baseline: Line, bestFreqUsed: seq<real>, bestLowpowerUsed: seq<IdleState>)

  /**
   * doQueue with `policy` followed by doQueueBaseline with the baseline
   * entry `base`, on the same jobs at minute `minute`: the SleepScale line
   * runs at the over-provisioned frequency with that frequency's power and
   * records the frequency and idle state; the baseline line runs with the
   * baseline's own power figures.
   */
  function ServeBoth(x: Lines, jobs: seq<Job>, policy: PowerState, base: PowerState, minute: int): (r: Lines)
    requires TableEntry(policy) && TableEntry(base) && |jobs| >= 1
    ensures |r.bestFreqUsed| == |x.bestFreqUsed| + 1 && |r.bestLowpowerUsed| == |x.bestLowpowerUsed| + 1
  {
    var f := OverProvFreq(policy.freq);
    var pw := MakePowerState(f, policy.idle);
    Lines(Served(x.line, jobs, f, pw.actPwr, pw.idlePwr, policy.wakeUp, minute),
          Served(x.baseline, jobs, OverProvFreq(base.freq), base.actPwr, base.idlePwr, base.wakeUp, minute),
          x.bestFreqUsed + [f], x.bestLowpowerUsed + [policy.idle])
  }

  /** The end-of-trace run: both lines as in ServeBoth, and the policy's own frequency and state recorded once more. */
  function ServeAtEnd(x: Lines, jobs: seq<Job>, policy: PowerState, base: PowerState, minute: int): (r: Lines)
    requires TableEntry(policy) && TableEntry(base) && |jobs| >= 1
    ensures |r.bestFreqUsed| == |x.bestFreqUsed| + 2 && |r.bestLowpowerUsed| == |x.bestLowpowerUsed| + 2
  {
    var y := ServeBoth(x, jobs, policy, base, minute);
    y.(bestFreqUsed := y.bestFreqUsed + [policy.freq], bestLowpowerUsed := y.bestLowpowerUsed + [policy.idle])
  }

  /**
   * The queue, the job log's insertions and the cursor of uniform draws
   * after a generation `gen` from (`queue0`, `log0`, `draws0`): a generated
   * minute's jobs are appended to both in order and the cursor moves past
   * its draws; a division by zero adds nothing.
   */
  predicate Appended(queue0: seq<Job>, log0: seq<Job>, draws0: nat, queue: seq<Job>, log: seq<Job>, draws: nat,
                     gen: W.Generation) {
    if gen.Generation? then queue == queue0 + gen.jobs && log == log0 + gen.jobs && draws == gen.next
    else queue == queue0 && log == log0 && draws == draws0
  }

  class Server {
    /** N_FREQ: the number of frequency levels. */
    const nFreq: nat
    /** The idle states of the configuration. */
    const lowPowerState: seq<IdleState>
    /** The catalog: the baseline at 0, then each state at each level; ER and EP hold the last simulation. */
    var allPolicy: seq<PowerState>
    /** The frequency and idle state each run of the server used. */
    var bestFreqUsed: seq<real>
    var bestLowpowerUsed: seq<IdleState>
    var minute: int
    /** The jobs generated since the server last ran. */
    var jobQueue: seq<Job>
    const jobLog: JobHistory
    /** The SleepScale line (ER, EP, totalRunTime, ..., prevDepart, overProvision) and the baseline line. */
    var line: Line
    var baseline: Line
    /** Created at the start of `run`. */
    var estimator: E.Estimator?
    /** run's local lastBestPolicy, as an index into allPolicy. */
    var lastBest: nat
    /** Position in the stream of uniform draws. */
    var draws: nat

    /** What the constructor establishes and every step keeps, apart from the estimator. */
    ghost predicate Built()
      reads this, jobLog
    {
      && nFreq == NoFreq
      && jobLog.Valid() && jobLog.size == JobLogLength
      && SimCatalog(allPolicy) && allPolicy[0] == MakePowerState(1.0, Baseline)
      && lastBest < |allPolicy|
      && minute >= 0
      && LineOk(line) && LineOk(baseline)
      && AllLogged(jobLog.jobStream) && AllLogged(jobQueue)
      && |bestFreqUsed| == |bestLowpowerUsed|
    }

    /** Built, with the estimator of the active configuration: lookback EST_LOOKBACK, immediate past history, no CUSUM. */
    ghost predicate Valid()
      reads this, jobLog, estimator
    {
      && Built()
      && estimator != null && estimator.Valid()
      && estimator.historySize == EstLookback && estimator.useImmediatePastHist && !estimator.doCusum
    }

    /**
     * Server::Server: the catalog of the configuration. A name that is not a
     * state, or the baseline below full speed, makes the source terminate.
     */
    constructor (config: string)
      requires StatesFor(config, NoFreq).Some?
      ensures Built() && estimator == null && fresh(jobLog)
      ensures lowPowerState == StatesFor(config, NoFreq).value
      ensures allPolicy == Catalog(lowPowerState, NoFreq)
      ensures |allPolicy| == 1 + |lowPowerState| * NoFreq
      ensures minute == 0 && jobQueue == [] && jobLog.inserted == []
      ensures line == Fresh && baseline == Fresh && lastBest == 0
      ensures bestFreqUsed == [] && bestLowpowerUsed == [] && draws == 0
    {
      var states := StatesFor(config, NoFreq).value;
      var catalog := BuildCatalog(config, NoFreq);
      CatalogShape(states, NoFreq);
      nFreq := NoFreq;
      lowPowerState := states;
      allPolicy := catalog.value;
      bestFreqUsed := [];
      bestLowpowerUsed := [];
      minute := 0;
      jobQueue := [];
      jobLog := new JobHistory();
      line := Fresh;
      baseline := Fresh;
      estimator := null;
      lastBest := 0;
      draws := 0;
    }


    /** The two lines and the record of policies used, as one value. */
    ghost function LinesOf(): Lines
      reads this
    {
      Lines(line, baseline, bestFreqUsed, bestLowpowerUsed)
    }

    /**
     * doQueue: run the jobs on the SleepScale line with `policy`'s idle state,
     * at the over-provisioned frequency, with the power of that frequency,
     * and record the frequency and state used. Both branches read the first
     * job, so the queue must not be empty.
     */
    method DoQueue(policy: PowerState, jobs: seq<Job>)
      requires Built() && TableEntry(policy) && AllWellformed(jobs) && |jobs| >= 1
      modifies this
      ensures Built()
      ensures var f := OverProvFreq(policy.freq);
        line == Served(old(line), jobs, f, MakePowerState(f, policy.idle).actPwr,
                       MakePowerState(f, policy.idle).idlePwr, policy.wakeUp, minute)
        && bestFreqUsed == old(bestFreqUsed) + [f] && bestLowpowerUsed == old(bestLowpowerUsed) + [policy.idle]
      ensures allPolicy == old(allPolicy) && minute == old(minute) && jobQueue == old(jobQueue)
      ensures baseline == old(baseline) && estimator == old(estimator) && lastBest == old(lastBest) && draws == old(draws)
    {
      var f := OverProvFreq(policy.freq);
      bestFreqUsed := bestFreqUsed + [f];
      bestLowpowerUsed := bestLowpowerUsed + [policy.idle];
      var pw := MakePowerState(f, policy.idle);
      line := RunLine(line, jobs, f, pw.actPwr, pw.idlePwr, policy.wakeUp);
    }

    /**
     * doQueueBaseline: run the jobs on the baseline line with the policy's
     * own power figures. Over-provisioning applies too, but at full speed it
     * leaves the frequency at 1. Only the cold start reads the first job.
     */
    method DoQueueBaseline(policy: PowerState, jobs: seq<Job>)
      requires Built() && TableEntry(policy) && AllWellformed(jobs)
      requires baseline.prevDepart >= 0.0 || |jobs| >= 1
      modifies this
      ensures Built()
      ensures baseline == Served(old(baseline), jobs, OverProvFreq(policy.freq), policy.actPwr, policy.idlePwr, policy.wakeUp, minute)
      ensures policy.freq == 1.0 ==> OverProvFreq(policy.freq) == 1.0
      ensures allPolicy == old(allPolicy) && minute == old(minute) && jobQueue == old(jobQueue) && line == old(line)
      ensures bestFreqUsed == old(bestFreqUsed) && bestLowpowerUsed == old(bestLowpowerUsed)
      ensures estimator == old(estimator) && lastBest == old(lastBest) && draws == old(draws)
    {
      var f := OverProvFreq(policy.freq);
      baseline := RunLine(baseline, jobs, f, policy.actPwr, policy.idlePwr, policy.wakeUp);
    }

    /** The job loop and bookkeeping shared by doQueue and doQueueBaseline, at the current minute. */
    method RunLine(l: Line, jobs: seq<Job>, f: real, act: real, idle: real, w: real) returns (r: Line)
      requires LineOk(l) && AllWellformed(jobs) && f > 0.0 && w >= 0.0 && 0.0 <= idle <= act
      requires l.prevDepart >= 0.0 || |jobs| >= 1
      ensures r == Served(l, jobs, f, act, idle, w, minute) && LineOk(r)
    {
      var counted := minute > CutMinutes;
      var q: QState;
      if l.prevDepart < 0.0 {
        q := RunQueue(ColdStart(jobs[0], f), jobs[1..], f, w, counted);
      } else {
        q := RunQueue(QState(l.prevDepart, 0.0, 0.0, 0.0), jobs, f, w, counted);
      }
      assert q == Replay(l.prevDepart, jobs, f, w, counted);
      r := Account(l, q, |jobs|, act, idle, counted);
      ServedGrows(l, jobs, f, act, idle, w, minute);
    }

    /**
     * doSleepScale: rescale the full job log to the forecast, simulate every
     * candidate on it (their ER and EP are written back into the catalog),
     * and return the selected index. None when a candidate's replay spans
     * zero time, where simQueue divides by zero.
     */
    method DoSleepScale() returns (best: Option<nat>)
      requires Valid() && jobLog.ReadyForSleepScale() && estimator.est > 0.0
      modifies this
      ensures Valid() && estimator == old(estimator) && estimator.est == old(estimator.est)
      ensures var js := Rescale(jobLog.jobStream, estimator.est);
        (best.None? <==> !SimDefined(old(allPolicy), js))
        && (best.None? ==> allPolicy == old(allPolicy))
        && (best.Some? ==> allPolicy == SimulateAll(old(allPolicy), js)
                           && best.value == Scan(allPolicy, |allPolicy|).best && IsSelection(allPolicy, best.value))
      ensures minute == old(minute) && jobQueue == old(jobQueue) && line == old(line) && baseline == old(baseline)
      ensures bestFreqUsed == old(bestFreqUsed) && bestLowpowerUsed == old(bestLowpowerUsed)
      ensures lastBest == old(lastBest) && draws == old(draws)
    {
      var est := estimator.est;
      var js := RescaleJobLog(jobLog, est);
      var catalog := allPolicy;
      if !SimDefined(catalog, js) {
        return None;
      }
      var sims, b := SimulateCatalog(catalog, js);
      forall i | 0 <= i < |sims| ensures TableEntry(sims[i]) {
        if i >= 1 {
          TableEntryIgnoresOutputs(catalog[i], sims[i].er, sims[i].ep);
        }
      }
      allPolicy := sims;
      best := Some(b);
    }

    /**
     * generateWorkloadCDF for the current minute at utilization `newRho`:
     * the minute the workload model generates from the draws at the cursor;
     * its jobs are appended to the job queue and inserted into the job log,
     * in order.
     */
    method GenerateWorkloadCDF(ser: W.Cdf, arr: W.Cdf, newRho: real, uniform: nat -> real, fuel: nat,
                               ghost sLo: real, ghost sHi: real, ghost aLo: real, ghost aHi: real)
      returns (serVec: seq<real>, arrVec: seq<real>, gen: W.Generation)
      requires Built() && Inputs(ser, arr, uniform, sLo, sHi, aLo, aHi) && newRho >= 0.0
      modifies this, jobLog
      ensures Built()
      ensures W.Generates(ser, arr, minute, newRho, uniform, old(draws), fuel, serVec, arrVec, gen)
      ensures Appended(old(jobQueue), old(jobLog.inserted), old(draws), jobQueue, jobLog.inserted, draws, gen)
      ensures allPolicy == old(allPolicy) && minute == old(minute) && line == old(line) && baseline == old(baseline)
      ensures bestFreqUsed == old(bestFreqUsed) && bestLowpowerUsed == old(bestLowpowerUsed)
      ensures estimator == old(estimator) && lastBest == old(lastBest)
    {
      var base := minute as real * MinuteMs;
      ghost var gLo, gHi;
      serVec, arrVec, gen, gLo, gHi := W.GenerateMinute(ser, arr, minute, newRho, uniform, draws, fuel, sLo, sHi, aLo, aHi);
      if gen.Generation? {
        MinuteLogged(gen.jobs, base, newRho, gLo, gHi, sLo, sHi);
        Enqueue(gen.jobs);
        draws := gen.next;
      }
    }

    /** The pushes of generateWorkloadCDF's loops: each job goes into the job queue and into the job log, in order. */
    method Enqueue(js: seq<Job>)
      requires Built() && AllLogged(js)
      modifies this, jobLog
      ensures Built()
      ensures jobQueue == old(jobQueue) + js && jobLog.inserted == old(jobLog.inserted) + js
      ensures allPolicy == old(allPolicy) && minute == old(minute) && line == old(line) && baseline == old(baseline)
      ensures bestFreqUsed == old(bestFreqUsed) && bestLowpowerUsed == old(bestLowpowerUsed)
      ensures estimator == old(estimator) && lastBest == old(lastBest) && draws == old(draws)
    {
      var i := 0;
      while i < |js|
        invariant 0 <= i <= |js|
        invariant jobQueue == old(jobQueue) + js[..i]
        invariant jobLog.Valid() && jobLog.size == JobLogLength && jobLog.inserted == old(jobLog.inserted) + js[..i]
        invariant AllLogged(jobQueue) && AllLogged(jobLog.jobStream)
        invariant allPolicy == old(allPolicy) && minute == old(minute) && line == old(line) && baseline == old(baseline)
        invariant bestFreqUsed == old(bestFreqUsed) && bestLowpowerUsed == old(bestLowpowerUsed)
        invariant estimator == old(estimator) && lastBest == old(lastBest) && draws == old(draws)
      {
        var j := js[i];
        assert js[..i + 1] == js[..i] + [j];
        jobQueue := jobQueue + [j];
        ghost var before := jobLog.jobStream;
        jobLog.InsertNewJob(j);
        assert forall k :: 0 <= k < |jobLog.jobStream| ==> jobLog.jobStream[k] in before + [j];
        i := i + 1;
      }
      assert js[..i] == js;
    }

    /**
     * observeRho on `next`; on a utilization that is not negative,
     * generateWorkloadCDF for the current minute and on to the next minute.
     * A calibration lookup past the samples throws; a zero utilization or
     * inter-arrival sum divides by zero in the workload scale; a fill loop
     * that runs out of fuel stops the model.
     */
    method ObserveAndGenerate(next: Option<real>, ser: W.Cdf, arr: W.Cdf, uniform: nat -> real, fuel: nat,
                              ghost sLo: real, ghost sHi: real, ghost aLo: real, ghost aHi: real)
      returns (outcome: Outcome, r: real, ghost serVec: seq<real>, ghost arrVec: seq<real>, ghost gen: W.Generation)
      requires Valid() && Inputs(ser, arr, uniform, sLo, sHi, aLo, aHi)
      modifies this, jobLog, estimator
      ensures Valid() && estimator == old(estimator)
      ensures estimator.estimatorStatus == old(estimator.estimatorStatus) && estimator.est == old(estimator.est)
      ensures r == Observed(next)
      ensures next.None? ==> !estimator.observorStatus
      ensures r < 0.0 ==>
        outcome == Running && minute == old(minute)
        && jobQueue == old(jobQueue) && jobLog.inserted == old(jobLog.inserted) && draws == old(draws)
      ensures r >= 0.0 ==>
        W.Generates(ser, arr, old(minute), r, uniform, old(draws), fuel, serVec, arrVec, gen)
        && Appended(old(jobQueue), old(jobLog.inserted), old(draws), jobQueue, jobLog.inserted, draws, gen)
        && outcome == GenerationOutcome(gen)
        && minute == old(minute) + (if outcome == Running then 1 else 0)
      ensures allPolicy == old(allPolicy) && lastBest == old(lastBest) && LinesOf() == old(LinesOf())
    {
      outcome, serVec, arrVec, gen := Running, [], [], W.ZeroDivision;
      r := estimator.ObserveRho(next);
      if r >= 0.0 {
        var sv, av, g := GenerateWorkloadCDF(ser, arr, r, uniform, fuel, sLo, sHi, aLo, aHi);
        serVec, arrVec, gen := sv, av, g;
        outcome := GenerationOutcome(g);
        if outcome == Running {
          minute := minute + 1;
        }
      }
    }

    /**
     * The decision branch of the run loop before the observation: run the
     * queued jobs on both lines, clear the queue, and let SleepScale select
     * the next policy. doQueue reads the first job, so an empty queue
     * aborts; a forecast that is not positive would divide by zero in the
     * rescaling, and a replay spanning zero time in the simulation.
     */
    method RunAndDecide() returns (outcome: Outcome)
      requires Valid() && jobLog.ReadyForSleepScale()
      modifies this
      ensures Valid() && estimator == old(estimator)
      ensures outcome == Running || outcome == Aborted || outcome == Unmodelled
      ensures minute == old(minute) && jobLog.jobStream == old(jobLog.jobStream) && draws == old(draws)
      ensures outcome == Aborted <==> old(jobQueue) == []
      ensures outcome == Aborted ==>
        LinesOf() == old(LinesOf()) && jobQueue == old(jobQueue) && allPolicy == old(allPolicy) && lastBest == old(lastBest)
      ensures old(jobQueue) != [] ==>
        LinesOf() == ServeBoth(old(LinesOf()), old(jobQueue), old(allPolicy)[old(lastBest)], old(allPolicy)[0], minute)
        && jobQueue == []
      ensures outcome == Unmodelled <==>
        old(jobQueue) != []
        && (estimator.est <= 0.0 || !SimDefined(old(allPolicy), Rescale(jobLog.jobStream, estimator.est)))
      ensures outcome == Running ==>
        estimator.est > 0.0 && SimDefined(old(allPolicy), Rescale(jobLog.jobStream, estimator.est))
        && allPolicy == SimulateAll(old(allPolicy), Rescale(jobLog.jobStream, estimator.est))
        && 1 <= lastBest && lastBest == Scan(allPolicy, |allPolicy|).best
    {
      if jobQueue == [] {
        outcome := Aborted;
      } else {
        ServeQueue();
        outcome := Decide();
      }
    }

    /** The decision branch's doQueue and doQueueBaseline on the queue, which is then cleared. */
    method ServeQueue()
      requires Valid() && jobQueue != []
      modifies this
      ensures Valid() && estimator == old(estimator)
      ensures LinesOf() == ServeBoth(old(LinesOf()), old(jobQueue), old(allPolicy)[old(lastBest)], old(allPolicy)[0], minute)
      ensures jobQueue == [] && allPolicy == old(allPolicy) && lastBest == old(lastBest)
      ensures minute == old(minute) && draws == old(draws)
    {
      AllLoggedWellformed(jobQueue);
      DoQueue(allPolicy[lastBest], jobQueue);
      DoQueueBaseline(allPolicy[0], jobQueue);
      jobQueue := [];
    }

    /**
     * SleepScale's selection: with a positive forecast and a catalog that can
     * be simulated on the rescaled log, the selected index becomes the last
     * best policy.
     */
    method Decide() returns (outcome: Outcome)
      requires Valid() && jobLog.ReadyForSleepScale()
      modifies this
      ensures Valid() && estimator == old(estimator)
      ensures outcome == Running || outcome == Unmodelled
      ensures LinesOf() == old(LinesOf()) && jobQueue == old(jobQueue) && minute == old(minute) && draws == old(draws)
      ensures outcome == Unmodelled <==>
        estimator.est <= 0.0 || !SimDefined(old(allPolicy), Rescale(jobLog.jobStream, estimator.est))
      ensures outcome == Unmodelled ==> allPolicy == old(allPolicy) && lastBest == old(lastBest)
      ensures outcome == Running ==>
        estimator.est > 0.0 && SimDefined(old(allPolicy), Rescale(jobLog.jobStream, estimator.est))
        && allPolicy == SimulateAll(old(allPolicy), Rescale(jobLog.jobStream, estimator.est))
        && 1 <= lastBest && lastBest == Scan(allPolicy, |allPolicy|).best && IsSelection(allPolicy, lastBest)
    {
      outcome := Unmodelled;
      if estimator.est > 0.0 {
        var best := DoSleepScale();
        if best.Some? {
          lastBest := best.value;
          outcome := Running;
        }
      }
    }

    /**
     * The end-of-trace branch outside a decision minute: run the queue on the
     * SleepScale line with the last selected policy, record that policy once
     * more, and run the queue on the baseline line. An empty queue aborts in
     * doQueue.
     */
    method RunAtEnd() returns (outcome: Outcome)
      requires Valid()
      modifies this
      ensures Valid() && estimator == old(estimator)
      ensures outcome == Running || outcome == Aborted
      ensures outcome == Aborted <==> old(jobQueue) == []
      ensures outcome == Aborted ==> LinesOf() == old(LinesOf())
      ensures old(jobQueue) != [] ==>
        LinesOf() == ServeAtEnd(old(LinesOf()), old(jobQueue), old(allPolicy)[old(lastBest)], old(allPolicy)[0], minute)
      ensures allPolicy == old(allPolicy) && lastBest == old(lastBest) && minute == old(minute)
      ensures jobQueue == old(jobQueue) && draws == old(draws)
    {
      if jobQueue == [] {
        outcome := Aborted;
      } else {
        AllLoggedWellformed(jobQueue);
        var policy := allPolicy[lastBest];
        DoQueue(policy, jobQueue);
        bestFreqUsed := bestFreqUsed + [policy.freq];
        bestLowpowerUsed := bestLowpowerUsed + [policy.idle];
        DoQueueBaseline(allPolicy[0], jobQueue);
        outcome := Running;
      }
    }

    /**
     * A decision minute of the run loop after the estimate: the lines run
     * the queue and SleepScale selects; then the observation and, for a
     * utilization that is not negative, the next minute's workload from an
     * empty queue. `generated` says whether a workload was generated.
     */
    method DecisionMinute(next: Option<real>, ser: W.Cdf, arr: W.Cdf, uniform: nat -> real, fuel: nat,
                          ghost sLo: real, ghost sHi: real, ghost aLo: real, ghost aHi: real)
      returns (outcome: Outcome, ghost generated: bool, ghost serVec: seq<real>, ghost arrVec: seq<real>,
               ghost gen: W.Generation)
      requires Valid() && Inputs(ser, arr, uniform, sLo, sHi, aLo, aHi) && jobLog.ReadyForSleepScale()
      modifies this, jobLog, estimator
      ensures Valid() && estimator == old(estimator) && outcome != Finished
      ensures estimator.estimatorStatus == old(estimator.estimatorStatus) && estimator.est == old(estimator.est)
      ensures outcome == Running && next.None? ==> !estimator.observorStatus
      ensures outcome == Aborted <==> old(jobQueue) == []
      ensures old(jobQueue) != [] ==>
        LinesOf() == ServeBoth(old(LinesOf()), old(jobQueue), old(allPolicy)[old(lastBest)], old(allPolicy)[0], old(minute))
      ensures generated <==>
        Observed(next) >= 0.0 && old(jobQueue) != [] && estimator.est > 0.0
        && SimDefined(old(allPolicy), Rescale(old(jobLog.jobStream), estimator.est))
      ensures generated ==>
        allPolicy == SimulateAll(old(allPolicy), Rescale(old(jobLog.jobStream), estimator.est))
        && 1 <= lastBest && lastBest == Scan(allPolicy, |allPolicy|).best
      ensures generated ==>
        W.Generates(ser, arr, old(minute), Observed(next), uniform, old(draws), fuel, serVec, arrVec, gen)
        && Appended([], old(jobLog.inserted), old(draws), jobQueue, jobLog.inserted, draws, gen)
        && outcome == GenerationOutcome(gen)
        && minute == old(minute) + (if outcome == Running then 1 else 0)
      ensures !generated ==>
        jobQueue == (if old(jobQueue) != [] then [] else old(jobQueue))
        && jobLog.inserted == old(jobLog.inserted) && draws == old(draws) && minute == old(minute)
    {
      generated, serVec, arrVec, gen := false, [], [], W.ZeroDivision;
      outcome := RunAndDecide();
      if outcome == Running {
        var r;
        outcome, r, serVec, arrVec, gen := ObserveAndGenerate(next, ser, arr, uniform, fuel, sLo, sHi, aLo, aHi);
        generated := r >= 0.0;
      }
    }

    /**
     * A minute of the run loop that is not a decision minute, after the
     * estimate: the observation and, for a utilization that is not negative,
     * the next minute's workload appended to the queue; at the end of the
     * trace the lines run the queue.
     */
    method PlainMinute(next: Option<real>, ser: W.Cdf, arr: W.Cdf, uniform: nat -> real, fuel: nat,
                       ghost sLo: real, ghost sHi: real, ghost aLo: real, ghost aHi: real)
      returns (outcome: Outcome, ghost generated: bool, ghost serVec: seq<real>, ghost arrVec: seq<real>,
               ghost gen: W.Generation)
      requires Valid() && Inputs(ser, arr, uniform, sLo, sHi, aLo, aHi)
      modifies this, jobLog, estimator
      ensures Valid() && estimator == old(estimator) && outcome != Finished
      ensures estimator.estimatorStatus == old(estimator.estimatorStatus) && estimator.est == old(estimator.est)
      ensures outcome == Running && next.None? ==> !estimator.observorStatus
      ensures allPolicy == old(allPolicy) && lastBest == old(lastBest)
      ensures generated <==> Observed(next) >= 0.0
      ensures !generated ==> (outcome == Aborted <==> old(jobQueue) == [])
      ensures !generated && old(jobQueue) != [] ==>
        LinesOf() == ServeAtEnd(old(LinesOf()), old(jobQueue), old(allPolicy)[old(lastBest)], old(allPolicy)[0], old(minute))
      ensures !generated ==>
        jobQueue == old(jobQueue) && jobLog.inserted == old(jobLog.inserted) && draws == old(draws) && minute == old(minute)
      ensures generated ==>
        LinesOf() == old(LinesOf())
        && W.Generates(ser, arr, old(minute), Observed(next), uniform, old(draws), fuel, serVec, arrVec, gen)
        && Appended(old(jobQueue), old(jobLog.inserted), old(draws), jobQueue, jobLog.inserted, draws, gen)
        && outcome == GenerationOutcome(gen)
        && minute == old(minute) + (if outcome == Running then 1 else 0)
    {
      var r;
      outcome, r, serVec, arrVec, gen := ObserveAndGenerate(next, ser, arr, uniform, fuel, sLo, sHi, aLo, aHi);
      generated := r >= 0.0;
      if r < 0.0 {
        outcome := RunAtEnd();
      }
    }

    /**
     * One iteration of the run loop, with `next` the trace line the observer
     * reads (None at the end of the file): SleepScale's estimate, then a
     * decision minute (after minute 0, every UPDATE_INTERVAL minutes, with a
     * full job log) or a plain one.
     */
    method Tick(next: Option<real>, ser: W.Cdf, arr: W.Cdf, uniform: nat -> real, fuel: nat,
                ghost sLo: real, ghost sHi: real, ghost aLo: real, ghost aHi: real)
      returns (outcome: Outcome, decides: bool, ghost generated: bool, ghost serVec: seq<real>,
               ghost arrVec: seq<real>, ghost gen: W.Generation)
      requires Valid() && Inputs(ser, arr, uniform, sLo, sHi, aLo, aHi)
      modifies this, jobLog, estimator
      ensures Valid() && estimator == old(estimator) && outcome != Finished
      ensures estimator.estimatorStatus == old(estimator.estimatorStatus)
      ensures outcome == Running && next.None? ==> !estimator.observorStatus
      ensures decides == old(Decides(minute, jobLog.ReadyForSleepScale()))
      ensures decides || !generated ==> (outcome == Aborted <==> old(jobQueue) == [])
      ensures decides && old(jobQueue) != [] ==>
        LinesOf() == ServeBoth(old(LinesOf()), old(jobQueue), old(allPolicy)[old(lastBest)], old(allPolicy)[0], old(minute))
      ensures decides && generated ==>
        estimator.est > 0.0 && SimDefined(old(allPolicy), Rescale(old(jobLog.jobStream), estimator.est))
        && allPolicy == SimulateAll(old(allPolicy), Rescale(old(jobLog.jobStream), estimator.est))
        && 1 <= lastBest && lastBest == Scan(allPolicy, |allPolicy|).best
      ensures !decides ==> allPolicy == old(allPolicy) && lastBest == old(lastBest)
      ensures !decides && !generated && old(jobQueue) != [] ==>
        LinesOf() == ServeAtEnd(old(LinesOf()), old(jobQueue), old(allPolicy)[old(lastBest)], old(allPolicy)[0], old(minute))
      ensures !decides && generated ==> LinesOf() == old(LinesOf())
      ensures generated ==>
        Observed(next) >= 0.0
        && W.Generates(ser, arr, old(minute), Observed(next), uniform, old(draws), fuel, serVec, arrVec, gen)
        && Appended(if decides then [] else old(jobQueue), old(jobLog.inserted), old(draws),
                    jobQueue, jobLog.inserted, draws, gen)
        && outcome == GenerationOutcome(gen)
        && minute == old(minute) + (if outcome == Running then 1 else 0)
      ensures !generated ==>
        jobQueue == (if decides && old(jobQueue) != [] then [] else old(jobQueue))
        && jobLog.inserted == old(jobLog.inserted) && draws == old(draws) && minute == old(minute)
    {
      estimator.EstimateRho();
      decides := Decides(minute, jobLog.ReadyForSleepScale());
      if decides {
        outcome, generated, serVec, arrVec, gen := DecisionMinute(next, ser, arr, uniform, fuel, sLo, sHi, aLo, aHi);
      } else {
        outcome, generated, serVec, arrVec, gen := PlainMinute(next, ser, arr, uniform, fuel, sLo, sHi, aLo, aHi);
      }
    }

    /**
     * run: the minute loop over the utilization trace, until the observer
     * reaches its end or a step leaves the model.
     */
    method Run(trace: seq<real>, ser: W.Cdf, arr: W.Cdf, uniform: nat -> real, fuel: nat,
               ghost sLo: real, ghost sHi: real, ghost aLo: real, ghost aHi: real)
      returns (outcome: Outcome)
      requires Built() && minute == 0 && Inputs(ser, arr, uniform, sLo, sHi, aLo, aHi)
      modifies this, jobLog
      ensures Valid() && fresh(estimator)
      ensures outcome != Running
      ensures outcome == Finished ==> !estimator.observorStatus && minute <= |trace|
    {
      estimator := new E.Estimator(EstLookback, true, false);
      lastBest := 0;
      var pos := 0;
      while estimator.estimatorStatus && estimator.observorStatus
        invariant Valid() && fresh(estimator) && estimator.estimatorStatus
        invariant 0 <= pos <= |trace| + 1
        invariant pos == |trace| + 1 ==> !estimator.observorStatus
        invariant 0 <= minute <= pos && minute <= |trace|
        decreases |trace| + 1 - pos
      {
        var next := if pos < |trace| then Some(trace[pos]) else None;
        var o, _, _, _, _, _ := Tick(next, ser, arr, uniform, fuel, sLo, sHi, aLo, aHi);
        pos := pos + 1;
        if o != Running {
          return o;
        }
      }
      return Finished;
    }
  }

  /** The jobs of a generated minute, placed at a non-negative base with gap and service bounds not negative, are logged jobs. */
  lemma MinuteLogged(jobs: seq<Job>, base: real, rho: real, gLo: real, gHi: real, sLo: real, sHi: real)
    requires W.MinuteSoFar(jobs, base, rho, gLo, gHi, sLo, sHi)
    requires base >= 0.0 && rho > 0.0 && gLo >= 0.0 && sLo >= 0.0
    ensures AllLogged(jobs)
  {
    forall k | 0 <= k < |jobs| ensures LoggedJob(jobs[k]) {
      assert W.PlacedAt(jobs, k, base) && W.Drawn(jobs[k], rho, gLo, gHi, sLo, sHi);
      var prefix := jobs[..k + 1];
      forall i | 0 <= i < |prefix| ensures prefix[i].gapFromPrevious >= 0.0 {
        assert W.Drawn(jobs[i], rho, gLo, gHi, sLo, sHi);
      }
      GapSumNonnegative(prefix);
    }
  }
}
