# SleepScale in Dafny

SleepScale is a minute-by-minute server simulator with a power-management decision rule. Each minute it does the following:

- It forecasts the utilization of the next minute from a window of past utilizations.
- It rescales a log of the last 10000 jobs to that forecast.
- It replays the rescaled log, as a FCFS queue with wake-up penalties, under every candidate policy. A policy is a frequency level together with a low-power idle state.
- It picks the policy of least mean power whose mean response time stays within five times the nominal service time of 194 ms.
- It runs the jobs actually generated for the minute on the chosen policy, and on a race-to-halt baseline beside it.

This project models that engine and proves properties of the model. The modules follow the source files.

| module | file | models |
|---|---|---|
| `Constants` | constants.dfy | the numbers of src/const.h and the active configuration of src/config.h |
| `Wrappers` | wrappers.dfy | `Option` |
| `PowerModel` | power_state.dfy | the operating-point table of the `PowerState` constructor |
| `JobLog` | job_history.dfy | the bounded FIFO job log `JobHistory`, as a class over a `seq` |
| `UtilEstimator` | estimator.dfy | the `Estimator` class: sliding window, L2 norm, normalised LMS weights, CUSUM |
| `QueueSim` | queue_sim.dfy | the FCFS departure recurrence and `simQueue` |
| `Workload` | workload.dfy | the CDF bucket lookup and the minute fill of `generateWorkloadCDF` |
| `PolicySearch` | policy_search.dfy | the catalog built by the `Server` constructor, the rescaling and selection of `doSleepScale` |
| `ServerSim` | server.dfy | the `Server` class: `doQueue`, `doQueueBaseline`, `doSleepScale`, workload generation into the queue and log, the `run` loop |

Modelling choices:

- `double` is `real`.
- Divisions carry their divisor as a precondition:
  - the frequency;
  - the forecast `est`;
  - `op + off` in `simQueue`;
  - the observed utilization when CUSUM is on.
- The active configuration is hard-wired:
  - `DO_SLEEPSCALE` and `DO_OVER_PROV` are on;
  - `CUT_THE_FIRST_120_MINS` is on, and so is `BASE_USE_R2H_C3`;
  - the estimator uses `useImmediatePastHist`, which turns `doCUSUM` off.
- The estimator keeps the two CUSUM switches as constructor flags, so both the CUSUM and the LMS paths are modelled.
- The estimator's static `mu`, `g1` and `g2` are fields: only one estimator ever exists.
- Policies are values (`PowerState`). `lastBestPolicy` is an index `lastBest` into `allPolicy`.
- `simQueue` writes ER and EP into the shared catalog objects. The model replaces the catalog by its simulated copy instead.
- Uniform random draws are a function `uniform: nat -> real`, read at a cursor that only moves forward.
- The job log and the utilization trace are inputs: the trace is a `seq<real>`, and its end of file is `None`.

Behaviour of the source that the model reproduces:

- `if (this->overProvision = true)` (src/Server.cpp:463) assigns rather than compares. `doQueue` therefore always runs at min(1.35·f, 1) (`OverProvFreq`). The baseline line does too, where the result is always 1.
- The `<=` at src/Server.cpp:974 breaks ties towards the LAST feasible candidate of least power (`IsSelection`).
- The CDF scan keeps overwriting its result while `prob[i] < u` (`Lookup`, `LookupIsLastOfLeadingRun`).
- The calibration-batch inter-arrival lookup clamps its upper index with the SERVICE CDF's sample count (src/Server.cpp:256; `BatchDraws`). When the service CDF has more points than the inter-arrival CDF and a draw passes every inter-arrival bucket, which a CDF whose last probability is below 1 allows, `arr_sample.at` reads past the samples and throws out_of_range. `ScanSafe` is exactly the condition under which a lookup stays inside the samples (`ScanUnsafeReadsPastEnd`). `Calibrate` stops at the first pair outside it, and the run ends with the `OutOfRange` outcome.
- `insertNewJobVector` never pops its argument, so on a nonempty argument its loop does not end (`InsertNewJobVector` with a fuel bound).
- `doQueue` reads `jobStream.at(0)` in both of its branches: in the cold start (src/Server.cpp:486) and in the log line of the warm one (src/Server.cpp:531). Running the lines on an empty queue therefore throws, on a decision minute and at the end of the trace alike. That is the `Aborted` outcome, and `DoQueue` requires at least one job.
- Busy time and frequency: with wake-up latency zero, a higher frequency never lengthens the busy time (`NoWakeupBusyTimeAntitone`). With a wake-up latency it can: a faster server idles more often and pays more wake-ups (`WakeupBusyTimeNotMonotone`). So "busy time falls as frequency rises" holds only without wake-ups.

## Model

| member | source | states |
|---|---|---|
| PowerModel.MakePowerState | src/PowerState.cpp:37-96 | for 0 < f ≤ 1 (f = 1 for Baseline): freq and idle as given, ER = EP = 0, active power 130·f³+120, platform idle power 60 ≤ idle power ≤ active power, wake-up between the C0i and C6 latencies |
| PowerModel.ParseIdle | src/PowerState.cpp:48-95 | the name chain: a recognised name is exactly the name of the returned state, and every state with that name is the one returned; None is the "Invalid power state!" exit |
| PowerModel.PowerStateOf | src/PowerState.cpp:92-95 | the constructor on a name fails exactly for unknown names, and otherwise keeps the frequency and the name |
| PowerModel.OperatingPointTable | src/PowerState.cpp:46-67 | per state: C0i idle 75f³+60 wake-up 0; C1 47f²+60 and 0.01; C3 82 and 0.1; C6 75 and 1; DVFS_only idle = active, wake-up 0 |
| PowerModel.BaselineIsRaceToHaltC3 | src/PowerState.cpp:68-82 | the baseline is full speed, active 250, idle 82 and wake-up 0.1 (race to halt in C3) |
| PowerModel.WakeupOrdered | src/PowerState.cpp:48-63 | wake-up latencies C0i ≤ C1 ≤ C3 ≤ C6, and C6 idles at no more power than C3 |
| PowerModel.ActivePowerStrictlyIncreasing | src/PowerState.cpp:46 | active power is strictly increasing in the frequency on (0, 1] |
| JobLog.PushEvictIsLastN | src/JobHistory.cpp:65-72 | one push-and-evict on the last `cap` jobs gives the last `cap` jobs of the extended history, and never more than `cap` |
| JobLog.InsertAllIsLastN | src/JobHistory.cpp:65-72 | after any sequence of inserts the log is exactly the last `cap` jobs inserted, in insertion order |
| JobLog.InsertAllFromEmptySize | src/JobHistory.cpp:65-72 | from an empty log, N inserts leave min(N, cap) jobs |
| JobLog.JobHistory.constructor | src/JobHistory.h:46-51 | an empty log of capacity JOB_LOG_LENGTH |
| JobLog.JobHistory.InsertNewJob | src/JobHistory.cpp:65-72 | the job is appended to the history, the retained jobs are the last `size` of it, a log within capacity stays within it |
| JobLog.JobHistory.InsertNewJobVector | src/JobHistory.cpp:74-86 | an empty argument changes nothing and the loop exits; on a nonempty one the loop never exits and every step inserts the argument's front again |
| JobLog.JobHistory.GetSize | src/JobHistory.cpp:88-90 | the retained count is min(number ever inserted, size) |
| JobLog.JobHistory.ReadyForSleepScale | src/JobHistory.cpp:55-62 | true exactly when the log is full, that is when at least `size` jobs were ever inserted; a read |
| JobLog.JobHistory.GetArrAt | src/JobHistory.cpp:37-39 | the arrival of the i-th oldest retained job, for 0 ≤ i < getSize() |
| JobLog.JobHistory.GetInterArrAt | src/JobHistory.cpp:41-43 | the gap of the i-th oldest retained job |
| JobLog.JobHistory.GetUtilizationAt | src/JobHistory.cpp:45-47 | the utilization the i-th oldest retained job was generated for |
| JobLog.JobHistory.GetSerAt | src/JobHistory.cpp:49-51 | the service time of the i-th oldest retained job |
| UtilEstimator.Estimator.constructor | src/Estimator.cpp:43-64 | K weights of 1/K each, empty window, norm 0, est 0, lookback K, nothing observed, both status flags up |
| UtilEstimator.Estimator.EstimateRho | src/Estimator.cpp:96-127 | with a window not yet full nothing changes; once full mu = 0.01/(norm + 10) and est = min(Σ wᵢhᵢ, 1) ≤ 1, or the immediate past utilization when that switch is on; nothing else changes |
| UtilEstimator.Estimator.ObserveRho | src/Estimator.cpp:130-231 | end of file: returns −1, clears observorStatus, window, norm and weights untouched; while filling: appends ρ, adds ρ² to the norm, returns ρ; once full: one training step on the window before the slide, then the window slides by one and the count rises by one; the window stays of length K and the norm equals Σ hᵢ² |
| UtilEstimator.CusumStep | src/Estimator.cpp:170-217 | g1, g2 stay in [0, 0.15]; an alarm resets both to 0 and the lookback to 1; otherwise g1, g2 follow the CUSUM update and the lookback rises by 2 up to 10 while below K |
| UtilEstimator.CusumLookbackInWindow | src/Estimator.cpp:197-200 | with K ≥ 10 the lookback stays within 1..K |
| UtilEstimator.TrainStep | src/Estimator.cpp:159-217 | without CUSUM the weights take the normalised LMS step wᵢ + mu·err·hᵢ; with CUSUM the LMS weights are then redistributed over the current lookback |
| UtilEstimator.TrainStepKeepsLmsSum | src/Estimator.cpp:184-215 | the CUSUM redistribution preserves the sum of the LMS weights |
| UtilEstimator.RedistributePreservesSum | src/Estimator.cpp:202-215 | zeroing the first K−L weights and setting the last L to Σw/L keeps Σw |
| UtilEstimator.WeightedSum | src/Estimator.cpp:112-114 | the estimation loop computes the dot product of weights and window |
| UtilEstimator.UpdateWeights | src/Estimator.cpp:165-167 | the weight loop computes the LMS update |
| UtilEstimator.RedistributeWeights | src/Estimator.cpp:202-215 | the two redistribution loops give the spread of Σw/L over the last L weights, and keep Σw |
| UtilEstimator.SumSqSlide | src/Estimator.cpp:221-224 | the incremental norm update equals the sum of squares of the slid window |
| QueueSim.Step | src/Server.cpp:431-443 | one job: a departure at least s/f after arrival, departures and busy and idle times never decrease, and busy + idle − departure is invariant |
| QueueSim.ColdStart | src/Server.cpp:426-429 | job 0 departs at a₀ + s₀/f with idle time a₀, busy time s₀/f and no wake-up |
| QueueSim.RunMonotone | src/Server.cpp:431-443 | over any jobs, departure, busy, idle and summed response times never decrease, and each counted job adds at least s/f |
| QueueSim.RunConservesTotal | src/Server.cpp:431-443 | busy + idle − last departure is invariant along the recurrence |
| QueueSim.ColdRunTotal | src/Server.cpp:426-445 | from a cold start busy + idle time equals the last departure |
| QueueSim.SimulatedBounds | src/Server.cpp:445-447 | on every well-formed log whose replay spans some time, the exact condition under which simQueue's divisions are defined, EP lies between idle and active power and ER is at least the mean of s/f |
| QueueSim.MeanPowerBetween | src/Server.cpp:446 | the time-weighted mean of two powers lies between them |
| QueueSim.NoWakeupBusyTimeAntitone | src/Server.cpp:431-443 | without wake-ups the busy time is the total service time and a higher frequency never lengthens it |
| QueueSim.WakeupBusyTimeNotMonotone | src/Server.cpp:437-441 | two jobs with the C6 wake-up: busy time 1.2 at f = 0.5 but 1.6 at f = 1 |
| QueueSim.RunQueue | src/Server.cpp:431-443 | the job loop computes the recurrence |
| QueueSim.SimQueue | src/Server.cpp:411-450 | the policy's ER and EP become those of the cold replay of the log, its frequency and state unchanged |
| Workload.LookupIsLastOfLeadingRun | src/Server.cpp:247-250 | a lookup is the midpoint of sample[i] and sample[min(i+1, m−1)] for the last i of the leading run of prob[i] < u, and keeps the prior exactly when prob[0] ≥ u |
| Workload.LookupWithin | src/Server.cpp:247-250 | a lookup lies within any bounds of the samples that contain the prior |
| Workload.LookupScan | src/Server.cpp:287-295 | the scan loop computes the lookup |
| Workload.ScanUnsafeReadsPastEnd | src/Server.cpp:247-257 | outside ScanSafe the scan passes every bucket and the clamped upper index of the last one lies past the samples, so `at` throws |
| Workload.EndingAtOneInRange | src/Server.cpp:247-257 | on a CDF that reaches probability 1, every draw in [0, 1) stays inside the samples, whatever the clamp count |
| Workload.ShortCdfTakesLastSample | src/Server.cpp:247-250 | on a CDF ending at 0.9, a draw of 0.95 passes both buckets and takes the last sample |
| Workload.LongerClampReadsPastEnd | src/Server.cpp:255-257 | the same draw, clamped with a longer service CDF's count of 3, reads past the two inter-arrival samples |
| Workload.BatchDrawsInRange | src/Server.cpp:239-262 | a batch of n drawn pairs had all n inter-arrival lookups inside the samples |
| Workload.FirstLookupAsWritten | src/Server.cpp:228-250 | the first calibration draw is indeterminate exactly when prob[0] ≥ u, else it is the lookup |
| Workload.FirstLookupUninitialised | src/Server.cpp:228-250 | a concrete CDF and draw for which the first service time is read uninitialised |
| Workload.FirstLookup | src/Server.cpp:228-250 | the first draw agrees with the source wherever that is defined, is sample[0] otherwise, and lies within any bounds of the samples |
| Workload.NextPair | src/Server.cpp:239-257 | one pass of the batch loop extends the calibration draws by the next service and inter-arrival lookups, within the samples' bounds |
| Workload.Calibrate | src/Server.cpp:239-262 | `inRange` is false exactly when some inter-arrival lookup of the batch reads past the samples, and then the batch stops at the first such pair; otherwise 200 pairs of draws, the first from FirstLookup and each later lookup with the previous draw as prior, the inter-arrival lookups clamped with the service CDF's count; all within the samples' bounds; the sums are the vectors' sums, not negative for samples that are not negative |
| Workload.BatchDrawsUnique | src/Server.cpp:239-262 | the draws fix the calibration vectors: two batches of the same length drawn from the same stream are equal |
| Workload.Scale | src/Server.cpp:265 | for a service sum that is not negative and a positive inter-arrival sum and utilization the scale is not negative |
| Workload.ScaleRunsAtRho | src/Server.cpp:265 | with the scale, ρ times the scaled inter-arrival sum equals the service sum: the batch runs at utilization ρ |
| Workload.AcceptBatch | src/Server.cpp:268-280 | the jobs taken are the leading calibration jobs in order, each with its service time and scaled gap, and taking stops exactly at the first gap that would take the summed gaps to a minute or more; every taken job arrives inside the minute at the summed gaps, within the bounds |
| Workload.FillMinute | src/Server.cpp:283-320 | the third loop computes the fill function FillFrom from the accepted jobs, the draws after the batch and the fuel |
| Workload.FillFromFilled | src/Server.cpp:283-320 | the fill keeps the accepted jobs; fill job k carries draw k's service time and scaled gap; the cursor is past the draws used and the pending pair; the phase completes exactly when the pending scaled gap would take the summed gaps to a minute or more, and otherwise stops after `fuel` jobs |
| Workload.FillPhase | src/Server.cpp:283-320 | from accepted jobs inside the minute, the fill keeps them, places every job inside the minute at its summed gaps with service and scaled gap within the bounds, and completes whenever the fuel exceeds a minute over a positive least scaled gap |
| Workload.PlaceJobs | src/Server.cpp:265-320 | the accepted jobs are the batch's accept phase and the remaining jobs its fill phase from the draws after the batch, at the given scale; every job lies inside the minute within the scaled bounds; enough fuel completes the minute |
| Workload.GenerateMinute | src/Server.cpp:218-327 | the three loops satisfy Generates: an inter-arrival lookup of the batch past the samples is LookupOutOfRange at its pair, with every earlier pair in range; otherwise the batch is the calibration draws from the cursor; a zero inter-arrival sum or utilization is the division by zero; otherwise the scale is Scale's, the leading jobs are the accept phase and the rest the fill phase; the scale is not negative and every job arrives at offset·60000 plus its summed gap, below the end of the minute, with service and gap within the bounds, generated for ρ; enough fuel completes the minute |
| PolicySearch.StatesFor | src/Server.cpp:1013-1024 | "DVFS_only" and "SleepScale" name their states; another name is a single state, refused where unknown or where the baseline would run below full speed |
| PolicySearch.FreqLevel | src/Server.cpp:1007-1010 | the level `freqIncrement·i` is i/n in (0, 1] |
| PolicySearch.FreqLevelIncreasing | src/Server.cpp:1009-1010 | levels increase with i and the top level is full speed |
| PolicySearch.Row | src/Server.cpp:1032-1034 | one state at levels n, n−1, …, 1 |
| PolicySearch.CatalogShape | src/Server.cpp:1027-1035 | the catalog has 1 + (number of states)·n entries, the baseline at 0, state s at indices 1 + s·n onward in descending frequency, every entry a table entry |
| PolicySearch.BuildCatalog | src/Server.cpp:1006-1035 | the constructor's loops build exactly that catalog, or fail where the constructor stops |
| PolicySearch.BuildRow | src/Server.cpp:1032-1034 | the inner loop builds one power state for the given idle state at every frequency level, from the highest down |
| PolicySearch.RescaleFields | src/Server.cpp:938-957 | each gap becomes gap·whatRho/est, whatRho becomes est, service kept, arrivals the running sums of the new gaps from 0 |
| PolicySearch.RescaleArrivalsIncrease | src/Server.cpp:938-957 | for logged jobs and a positive forecast the rescaled jobs are well formed, arrivals never decrease, and each arrival is later than the one before (the first: later than 0) exactly when its logged gap is positive |
| PolicySearch.NewGapSign | src/Server.cpp:944-948 | a rescaled gap is not negative, and positive exactly when the logged gap is |
| PolicySearch.RescaleJobLog | src/Server.cpp:938-959 | the rescaling loop over a full log computes the rescaled log, of length JOB_LOG_LENGTH |
| PolicySearch.ScanInvariant | src/Server.cpp:966-979 | after the first n candidates the running best is feasible of least EP among the feasible ones so far and after it no feasible one ties, or index 1 with MAX_NUM when none is feasible |
| PolicySearch.ScanIsSelection | src/Server.cpp:966-979 | the scan returns a non-baseline index: allPolicy[1] when no candidate has ER ≤ 970, else a feasible one of least EP, the last among ties |
| PolicySearch.SimulateCatalog | src/Server.cpp:966-979 | the policy loop leaves the catalog's simulation on the rescaled log (the baseline entry as it was), and the returned index is the scan's, which is the selection |
| PolicySearch.ScanPrefix | src/Server.cpp:971-979 | the running best after n candidates depends only on the first n |
| PolicySearch.SimulateAll | src/Server.cpp:966-979 | the simulated catalog has the catalog's size, keeps the baseline entry, and keeps every candidate's frequency and idle state |
| PolicySearch.SimReadyDefined | src/Server.cpp:411-450 | on a full, well formed log whose first arrival is after time 0, no candidate's replay spans zero time |
| ServerSim.OverProvFreq | src/Server.cpp:462-466 | the frequency is min(1.35·f, 1): at least f, at most 1, exactly 1 when 1.35·f ≥ 1 |
| ServerSim.ServedGrows | src/Server.cpp:482-629 | a served line has a departure and stays valid; its accumulators never decrease; up to minute 120 only departure, ER and the flag change |
| ServerSim.ServedSpan | src/Server.cpp:570-629 | after minute 120 the run time grows by the span from the stored departure (or 0) to the last departure, equal to the added busy plus idle time, and all jobs are counted |
| ServerSim.ServedEnergyBetween | src/Server.cpp:570-629 | the added energy lies between idle power and active power times the added run time |
| ServerSim.GenerationOutcome | src/Server.cpp:148-152 | the loop goes on after a generation exactly when it produced a minute whose fill completed |
| ServerSim.Decides | src/Server.cpp:99 | SleepScale runs exactly when minute > 0 and the log is full (UPDATE_INTERVAL is 1) |
| ServerSim.Server.constructor | src/Server.cpp:1000-1040 | N_FREQ = 100; allPolicy is the catalog of the configuration, with 1 + (number of states)·100 entries; both lines fresh, queue and log empty |
| ServerSim.Server.DoQueue | src/Server.cpp:457-699 | on a nonempty queue (doQueue reads jobStream.at(0) in both branches) the policy line is served at the over-provisioned frequency with the table powers at that frequency; that frequency and the idle state are recorded; nothing else changes |
| ServerSim.Server.DoQueueBaseline | src/Server.cpp:706-834 | the baseline line is served with the baseline's own powers, at full speed; nothing else changes |
| ServerSim.Server.RunLine | src/Server.cpp:482-566 | the job loops compute the served line, which stays valid |
| ServerSim.Server.DoSleepScale | src/Server.cpp:925-987 | None exactly when some candidate's replay of the rescaled log spans zero time, and the catalog is then unchanged; otherwise the catalog becomes its simulation on the log rescaled to est, and the returned index is the scan's constrained minimum-power selection; nothing else changes |
| ServerSim.Server.GenerateWorkloadCDF | src/Server.cpp:218-327 | the minute is what Generates describes from the current cursor; a generated minute's jobs are appended to the job queue and inserted into the job log in order and the cursor moves past its draws; on a lookup out of range or a division by zero nothing is added; lines, catalog and last best unchanged |
| ServerSim.Server.Enqueue | src/Server.cpp:275-276 | each job is appended to the job queue and inserted into the job log, in order; nothing else changes |
| ServerSim.Server.ObserveAndGenerate | src/Server.cpp:144-154 | the result is the observed utilization, or −1 at end of file; below 0 neither queue, log, cursor nor minute changes; otherwise the minute is generated as GenerateWorkloadCDF states, with OutOfRange on a lookup past the samples, Unmodelled on a division by zero and OutOfFuel on an unfinished fill, and the minute advances exactly on a completed generation; lines, catalog and last best unchanged |
| ServerSim.Server.RunAndDecide | src/Server.cpp:99-124 | aborts exactly when the queue is empty, changing nothing; otherwise both lines serve the queue (ServeBoth) and the queue is cleared, and with a positive forecast and a catalog that can be simulated on the rescaled log the catalog becomes that simulation and the last best policy the scan's selection; Unmodelled exactly otherwise |
| ServerSim.Server.ServeQueue | src/Server.cpp:110-117 | the SleepScale line serves the queue with the last best policy, the baseline line with entry 0, the frequency and idle state are recorded, and the queue is cleared |
| ServerSim.Server.Decide | src/Server.cpp:124 | Running exactly when the forecast is positive and no candidate's replay spans zero time; then the catalog is the simulation on the rescaled log and the last best policy is a selection of it, not the baseline; otherwise nothing changes |
| ServerSim.Server.RunAtEnd | src/Server.cpp:155-169 | aborts exactly when the queue is empty, changing nothing; otherwise both lines serve the queue and the last best policy's frequency and idle state are recorded a second time (ServeAtEnd); queue, catalog, last best and cursor unchanged |
| ServerSim.Server.DecisionMinute | src/Server.cpp:99-139 | aborts exactly on an empty queue; otherwise the lines serve it and the queue is cleared; a workload is generated exactly when the observation is not negative after a successful selection, and then the catalog and last best policy are the selection's and the jobs are appended to the empty queue and the log |
| ServerSim.Server.PlainMinute | src/Server.cpp:141-169 | a workload is generated exactly when the observation is not negative, appended to the queue and the log with the lines unchanged; on a negative observation (−1 at end of file) the minute aborts exactly on an empty queue and otherwise runs the lines as RunAtEnd; catalog and last best unchanged |
| ServerSim.Server.Tick | src/Server.cpp:82-172 | one loop iteration: sleepscale runs exactly when Decides held before the step; a decision minute serves the queue and selects, a plain one keeps the policy; an empty queue aborts exactly when the lines must run on it; the minute advances only on a completed generation |
| ServerSim.Server.Run | src/Server.cpp:41-172 | the loop runs until an exit; when it finishes the trace is exhausted and at most as many minutes as the trace has entries were generated |
| ServerSim.MinuteLogged | src/Server.cpp:272-304 | every generated job has a positive utilization and a gap, arrival and service that are not negative, as the rescaling needs |

## Left out

- File and stream I/O (`openInputFile`, `openOutputFile`, `readBigHouseCDF`, `stod`): the CDFs and the utilization trace are parameters.
- Logging, `showReport` and src/main.cpp: output only.
- Random number generation: the uniform draws are the supplied function `uniform`.
- The `DO_SLEEPSCALE_ADV` variants and the M/M/1 generator: compiled out by the configuration.
- The offline `estimateRho(ofstream&, ifstream&)`: file reading under the disabled `DO_OFFLINE`.
- `estErrorAbs` and `estErrorPerc`: reporting statistics only.
- IEEE-754 rounding and overflow: reals are exact; `offset * 60 * 1000` is not wrapped at 32 bits.
- A forecast `est` that is not positive at a decision, an observed utilization of 0 or a calibration batch whose inter-arrival draws sum to 0: the source divides by zero (or rescales to negative gaps) and carries on with inf/NaN. The model stops with the `Unmodelled` outcome; a division by zero in the workload scale leaves the queue, the log and the cursor of draws as they were.
- A candidate whose replay of the rescaled log spans zero time: `simQueue` divides by zero and gives NaN. `DoSleepScale` returns None and the model stops with `Unmodelled`.
- Workload.FillMinute: the source's fill loop has no bound and need not end when the scaled gaps are zero, so the model stops after `fuel` jobs and reports the `OutOfFuel` outcome; with a positive least scaled gap, a fuel above one minute over that gap always completes the minute (`FillPhase`).
- Negative CDF samples: the samples are times, so `Samples` asks for bounds that are not negative; zero samples are allowed, and with them zero gaps, which is why the fill needs its fuel.
- Workload.FirstLookup: in the source the first draw is indeterminate when it passes no bucket; the model takes sample[0], which keeps every draw within the samples' bounds.
- Workload.Proper: a CDF with no points is excluded. readBigHouseCDF would load an empty file, but then every draw from it reads an uninitialised double, which the model has no value for; BigHouse CDF files are never empty. A CDF whose last probability is below 1 is modelled, including the out-of-range read it can cause in the calibration batch.
- ServerSim.Server.RunAndDecide, ServerSim.Server.DecisionMinute and ServerSim.Server.Tick: state the new last best policy as the scan's result; that it is the constrained minimum-power selection is stated by `Decide` and `DoSleepScale` and follows from `ScanIsSelection`.
- The program's `terminate()` and failed `assert`s: the corresponding preconditions, or `None`.
- The over-provisioning power recomputation (src/Server.cpp:579-623): reused as the `PowerState` table at the new frequency.
- JobLog.JobHistory.InsertNewJobVector: does not terminate on a nonempty argument, so a `fuel` bound counts the iterations observed.
- ServerSim.Server.GenerateWorkloadCDF: builds each minute's jobs as a sequence first, then pushes them to the queue and the log in order; the source interleaves those pushes with its draws, which is observably the same.
- ServerSim.Server.Run: states invariants and exits, not the sequence of minutes. The per-minute content is in `Tick` and its callees.
- The estimator is created at the start of `run`, as in the source, so the `Server` constructor leaves it null.
- ServerSim.Server.Tick: on an end of file during a decision minute, the source calls `showReport` and leaves the loop; that is the `Running` outcome with `observorStatus` cleared.

## Findings

| source | as written | input that shows it | evidently intended | confidence | as-written member | corrected member |
|---|---|---|---|---|---|---|
| src/Server.cpp:228-250 | `newService` and `newInterArrival` are uninitialised; on the first calibration draw, the lookup loop assigns nothing when prob[0] ≥ u, so the value read is indeterminate | CDF prob [0.5, 1.0], sample [100, 200], u = 0.25 | a defined first draw; the source gives it no value, and the model uses sample[0], which keeps every draw within the samples' range | not executed | Workload.FirstLookupAsWritten (exhibited by Workload.FirstLookupUninitialised) | Workload.FirstLookup |
