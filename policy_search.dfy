/**
 * The decision half of SleepScale (src/Server.cpp): the catalog of candidate
 * policies built by the Server constructor, the rescaling of the job log to
 * the forecast utilization, and the constrained minimum-power search of
 * doSleepScale.
 */
module PolicySearch {
  import opened Constants
  import opened Wrappers
  import opened JobLog
  import opened PowerModel
  import opened QueueSim

  // ---------------------------------------------------------------- catalog

  /** The idle states a configuration name stands for, or None where the constructor would stop. */
  function StatesFor(config: string, n: nat): (r: Option<seq<IdleState>>)
    ensures config == "DVFS_only" ==> r == Some([DvfsOnly])
    ensures config == "SleepScale" ==> r == Some([C0i, C1, C3, C6])
    ensures r.None? <==> config != "DVFS_only" && config != "SleepScale"
                         && (ParseIdle(config).None? || (ParseIdle(config) == Some(Baseline) && n > 1))
    ensures r.Some? ==> |r.value| >= 1 && forall k :: 0 <= k < |r.value| ==> r.value[k] != Baseline || n <= 1
  {
    if config == "DVFS_only" then Some([DvfsOnly])
    else if config == "SleepScale" then Some([C0i, C1, C3, C6])
    else match ParseIdle(config)
      case None => None
      case Some(s) => if s == Baseline && n > 1 then None else Some([s])
  }

  /** The i-th frequency level `freqIncrement * i` with `freqIncrement = 1/n`, that is i/n. */
  function FreqLevel(n: nat, i: nat): (f: real)
    requires 1 <= i <= n
    ensures f == i as real / n as real
    ensures 0.0 < f <= 1.0
  {
    assert (1.0 / n as real) * i as real == i as real / n as real;
    (1.0 / n as real) * i as real
  }

  /** Higher levels are faster, and the top level is full speed. */
  lemma FreqLevelIncreasing(n: nat, i: nat, j: nat)
    requires 1 <= i < j <= n
    ensures FreqLevel(n, i) < FreqLevel(n, j)
    ensures FreqLevel(n, n) == 1.0
  {
    var nr := n as real;
    assert FreqLevel(n, j) - FreqLevel(n, i) == (j - i) as real / nr;
    assert (j - i) as real / nr > 0.0;
  }

  /** States a catalog row may use: the baseline only with a single frequency level. */
  predicate RowAdmissible(s: IdleState, n: nat) {
    s != Baseline || n == 1
  }

  /** One state at the levels n, n-1, ..., 1, the order of the `frequency` vector. */
  function Row(s: IdleState, n: nat): (r: seq<PowerState>)
    requires RowAdmissible(s, n)
    ensures |r| == n
    ensures forall k :: 0 <= k < n ==> r[k] == MakePowerState(FreqLevel(n, n - k), s)
  {
    seq(n, k requires 0 <= k < n => MakePowerState(FreqLevel(n, n - k), s))
  }

  /** The rows of all states, in the order of the state list. */
  function Rows(states: seq<IdleState>, n: nat): seq<PowerState>
    requires forall k :: 0 <= k < |states| ==> RowAdmissible(states[k], n)
    decreases |states|
  {
    if states == [] then [] else Rows(states[..|states| - 1], n) + Row(states[|states| - 1], n)
  }

  /** allPolicy as the constructor leaves it: the baseline, then every state at every level. */
  function Catalog(states: seq<IdleState>, n: nat): seq<PowerState>
    requires forall k :: 0 <= k < |states| ==> RowAdmissible(states[k], n)
  {
    [MakePowerState(1.0, Baseline)] + Rows(states, n)
  }

  /** Where row s starts in the rows: s * n, written as a sum so that index reasoning stays linear. */
  function RowStart(s: nat, n: nat): nat {
    if s == 0 then 0 else RowStart(s - 1, n) + n
  }

  lemma {:induction false} RowStartIsProduct(s: nat, n: nat)
    ensures RowStart(s, n) == s * n
  {
    if s > 0 {
      RowStartIsProduct(s - 1, n);
      assert (s - 1) * n + n == s * n;
    }
  }

  /** Row s ends no later than row t starts when s < t. */
  lemma {:induction false} RowStartMonotone(s: nat, t: nat, n: nat)
    requires s < t
    ensures RowStart(s, n) + n <= RowStart(t, n)
    decreases t
  {
    if s + 1 < t {
      RowStartMonotone(s, t - 1, n);
    }
  }

  /** A window inside the left operand of a concatenation is the same window of that operand. */
  lemma SliceLeft<T>(a: seq<T>, b: seq<T>, i: nat, j: nat)
    requires i <= j <= |a|
    ensures (a + b)[i..j] == a[i..j]
  {
    assert forall k :: 0 <= k < j - i ==> (a + b)[i..j][k] == a[i..j][k];
  }

  /** The right operand of a concatenation is the window that follows the left one. */
  lemma SliceRight<T>(a: seq<T>, b: seq<T>)
    ensures (a + b)[|a|..|a| + |b|] == b
  {
    assert forall k :: 0 <= k < |b| ==> (a + b)[|a|..|a| + |b|][k] == b[k];
  }

  /** Dropping a one-element head shifts every window by one. */
  lemma SliceAfterHead<T>(x: T, r: seq<T>, i: nat, j: nat)
    requires i <= j <= |r|
    ensures ([x] + r)[1 + i..1 + j] == r[i..j]
  {
    assert forall k :: 0 <= k < j - i ==> ([x] + r)[1 + i..1 + j][k] == r[i..j][k];
  }

  /** The rows hold RowStart(|states|, n) = |states| * n entries. */
  lemma {:induction false} RowsLength(states: seq<IdleState>, n: nat)
    requires forall k :: 0 <= k < |states| ==> RowAdmissible(states[k], n)
    ensures |Rows(states, n)| == RowStart(|states|, n)
    decreases |states|
  {
    if states != [] {
      RowsLength(states[..|states| - 1], n);
    }
  }

  /** Row s occupies the entries RowStart(s, n) up to RowStart(s, n) + n of the rows. */
  lemma {:induction false} RowsWindow(states: seq<IdleState>, n: nat, s: nat)
    requires forall k :: 0 <= k < |states| ==> RowAdmissible(states[k], n)
    requires s < |states|
    ensures RowStart(s, n) + n <= |Rows(states, n)|
    ensures Rows(states, n)[RowStart(s, n)..RowStart(s, n) + n] == Row(states[s], n)
    decreases |states|
  {
    var init := states[..|states| - 1];
    var last := |states| - 1;
    var ri, row := Rows(init, n), Row(states[last], n);
    assert Rows(states, n) == ri + row;
    RowsLength(init, n);
    if s < last {
      RowsWindow(init, n, s);
      SliceLeft(ri, row, RowStart(s, n), RowStart(s, n) + n);
      assert states[s] == init[s];
    } else {
      SliceRight(ri, row);
    }
  }

  /** The rows hold |states| * n entries; entry k of row s sits at RowStart(s, n) + k. */
  lemma RowsShape(states: seq<IdleState>, n: nat)
    requires forall k :: 0 <= k < |states| ==> RowAdmissible(states[k], n)
    ensures |Rows(states, n)| == RowStart(|states|, n)
    ensures forall s :: 0 <= s < |states| ==>
      RowStart(s, n) + n <= |Rows(states, n)|
      && Rows(states, n)[RowStart(s, n)..RowStart(s, n) + n] == Row(states[s], n)
  {
    RowsLength(states, n);
    forall s | 0 <= s < |states|
      ensures RowStart(s, n) + n <= |Rows(states, n)|
        && Rows(states, n)[RowStart(s, n)..RowStart(s, n) + n] == Row(states[s], n)
    {
      RowsWindow(states, n, s);
    }
  }

  /** Every entry of the rows is a row of the operating-point table. */
  lemma {:induction false} RowsAreTableEntries(states: seq<IdleState>, n: nat)
    requires forall k :: 0 <= k < |states| ==> RowAdmissible(states[k], n)
    ensures forall i :: 0 <= i < |Rows(states, n)| ==> TableEntry(Rows(states, n)[i])
    decreases |states|
  {
    if states != [] {
      var init := states[..|states| - 1];
      RowsAreTableEntries(init, n);
      var row := Row(states[|states| - 1], n);
      assert forall k :: 0 <= k < |row| ==> TableEntry(row[k]);
    }
  }

  /**
   * The catalog holds 1 + |states| * n entries: the race-to-halt baseline at
   * index 0, and from index 1 + s*n on the row of state s, whose entry k is
   * level n - k. Every entry is a row of the operating-point table.
   */
  lemma CatalogShape(states: seq<IdleState>, n: nat)
    requires forall k :: 0 <= k < |states| ==> RowAdmissible(states[k], n)
    ensures |Catalog(states, n)| == 1 + |states| * n
    ensures Catalog(states, n)[0] == MakePowerState(1.0, Baseline)
    ensures forall s :: 0 <= s < |states| ==>
      RowStart(s, n) == s * n && 1 + s * n + n <= |Catalog(states, n)|
      && Catalog(states, n)[1 + s * n..1 + s * n + n] == Row(states[s], n)
    ensures forall i :: 0 <= i < |Catalog(states, n)| ==> TableEntry(Catalog(states, n)[i])
  {
    CatalogEntries(states, n);
    forall s | 0 <= s < |states|
      ensures RowStart(s, n) == s * n && 1 + s * n + n <= |Catalog(states, n)|
        && Catalog(states, n)[1 + s * n..1 + s * n + n] == Row(states[s], n)
    {
      CatalogWindow(states, n, s);
    }
  }

  /** The catalog's length, its head, and that every entry is a row of the operating-point table. */
  lemma CatalogEntries(states: seq<IdleState>, n: nat)
    requires forall k :: 0 <= k < |states| ==> RowAdmissible(states[k], n)
    ensures |Catalog(states, n)| == 1 + |states| * n
    ensures Catalog(states, n)[0] == MakePowerState(1.0, Baseline)
    ensures forall i :: 0 <= i < |Catalog(states, n)| ==> TableEntry(Catalog(states, n)[i])
  {
    RowsLength(states, n);
    RowStartIsProduct(|states|, n);
    RowsAreTableEntries(states, n);
  }

  /** Row s of the catalog starts at index 1 + s * n. */
  lemma CatalogWindow(states: seq<IdleState>, n: nat, s: nat)
    requires forall k :: 0 <= k < |states| ==> RowAdmissible(states[k], n)
    requires s < |states|
    ensures RowStart(s, n) == s * n && 1 + s * n + n <= |Catalog(states, n)|
    ensures Catalog(states, n)[1 + s * n..1 + s * n + n] == Row(states[s], n)
  {
    RowsWindow(states, n, s);
    RowStartIsProduct(s, n);
    var r := Rows(states, n);
    var head := MakePowerState(1.0, Baseline);
    assert Catalog(states, n) == [head] + r;
    SliceAfterHead(head, r, RowStart(s, n), RowStart(s, n) + n);
  }

  /** Appending the rows of state s extends a catalog built from the states before it. */
  lemma RowsAdvance(ss: seq<IdleState>, n: nat, head: seq<PowerState>, all: seq<PowerState>, s: nat,
                    row: seq<PowerState>, all': seq<PowerState>, s': nat)
    requires forall k :: 0 <= k < |ss| ==> RowAdmissible(ss[k], n)
    requires s < |ss| && all == head + Rows(ss[..s], n) && row == Row(ss[s], n)
    requires all' == all + row && s' == s + 1
    ensures all' == head + Rows(ss[..s'], n)
  {
    assert ss[..s + 1][..s] == ss[..s] && ss[..s + 1][s] == ss[s];
    assert Rows(ss[..s + 1], n) == Rows(ss[..s], n) + row;
  }

  /** The constructor's inner loop: one state at every entry of the `frequency` vector. */
  method BuildRow(state: IdleState, frequency: seq<real>, n: nat) returns (row: seq<PowerState>)
    requires RowAdmissible(state, n)
    requires |frequency| == n && forall k :: 0 <= k < n ==> frequency[k] == FreqLevel(n, n - k)
    ensures row == Row(state, n)
  {
    ghost var full := Row(state, n);
    row := [];
    var k := 0;
    while k < |frequency|
      invariant 0 <= k <= n
      invariant row == full[..k]
    {
      assert full[..k + 1] == full[..k] + [full[k]];
      row := row + [MakePowerState(frequency[k], state)];
      k := k + 1;
    }
  }

  /**
   * Server::Server on the table part: every state of the configuration at
   * every level, in the constructor's nested loop order. None where a state
   * name is unknown or the baseline would be built below full speed.
   */
  method BuildCatalog(config: string, n: nat) returns (catalog: Option<seq<PowerState>>)
    requires n >= 1
    ensures catalog.None? <==> StatesFor(config, n).None?
    ensures catalog.Some? ==> catalog.value == Catalog(StatesFor(config, n).value, n)
  {
    var states := StatesFor(config, n);
    if states.None? {
      return None;
    }
    var ss := states.value;
    var frequency: seq<real> := [];
    var i := n;
    while i >= 1
      invariant 0 <= i <= n
      invariant |frequency| == n - i
      invariant forall k :: 0 <= k < |frequency| ==> frequency[k] == FreqLevel(n, n - k)
    {
      frequency := frequency + [FreqLevel(n, i)];
      i := i - 1;
    }
    var all := [MakePowerState(1.0, Baseline)];
    var s := 0;
    while s < |ss|
      invariant 0 <= s <= |ss|
      invariant all == [MakePowerState(1.0, Baseline)] + Rows(ss[..s], n)
    {
      var row := BuildRow(ss[s], frequency, n);
      ghost var all0, s0 := all, s;
      all := all + row;
      s := s + 1;
      RowsAdvance(ss, n, [MakePowerState(1.0, Baseline)], all0, s0, row, all, s);
    }
    assert ss[..|ss|] == ss;
    return Some(all);
  }

  // ---------------------------------------------------------------- rescaling

  /** The gap of a logged job rescaled from the utilization it was generated for to `est`. */
  function NewGap(j: Job, est: real): real
    requires est != 0.0
  {
    j.gapFromPrevious * (j.whatRho / est)
  }

  function LastArrival(js: seq<Job>): real {
    if js == [] then 0.0 else js[|js| - 1].arrival
  }

  /** doSleepScale's adjusted job stream: rescaled gaps whose running sums, from time 0, are the arrivals. */
  function Rescale(log: seq<Job>, est: real): (r: seq<Job>)
    requires est != 0.0
    ensures |r| == |log|
    decreases |log|
  {
    if log == [] then []
    else
      var init := Rescale(log[..|log| - 1], est);
      var g := NewGap(log[|log| - 1], est);
      init + [Job(LastArrival(init) + g, log[|log| - 1].service, g, est)]
  }

  /**
   * Job k of the rescaled stream keeps its service time, has the rescaled
   * gap, is marked with utilization `est`, and arrives at the sum of the
   * rescaled gaps up to and including its own.
   */
  lemma {:induction false} RescaleFields(log: seq<Job>, est: real)
    requires est != 0.0
    ensures var r := Rescale(log, est);
      forall k :: 0 <= k < |log| ==>
        r[k].service == log[k].service && r[k].gapFromPrevious == NewGap(log[k], est)
        && r[k].whatRho == est && r[k].arrival == GapSum(r[..k + 1])
    decreases |log|
  {
    if log != [] {
      var init := log[..|log| - 1];
      RescaleFields(init, est);
      var r := Rescale(log, est);
      var ri := Rescale(init, est);
      assert r[..|r| - 1] == ri;
      forall k | 0 <= k < |log|
        ensures r[k].service == log[k].service && r[k].gapFromPrevious == NewGap(log[k], est)
          && r[k].whatRho == est && r[k].arrival == GapSum(r[..k + 1])
      {
        if k < |init| {
          assert r[..k + 1] == ri[..k + 1];
          assert log[k] == init[k];
        } else {
          assert r[..k + 1] == r;
          if ri != [] {
            assert ri[..|ri|] == ri;
          }
        }
      }
    }
  }

  /** The jobs generateWorkloadCDF logs: positive utilization, and gap, arrival and service not negative. */
  predicate LoggedJob(j: Job) {
    j.gapFromPrevious >= 0.0 && j.whatRho > 0.0 && j.arrival >= 0.0 && j.service >= 0.0
  }

  /**
   * With logged jobs and a positive forecast the rescaled stream is well
   * formed and its arrivals never decrease; each arrival is later than the
   * one before exactly when its logged gap is positive.
   */
  lemma {:induction false} RescaleArrivalsIncrease(log: seq<Job>, est: real)
    requires est > 0.0 && forall k :: 0 <= k < |log| ==> LoggedJob(log[k])
    ensures var r := Rescale(log, est);
      AllWellformed(r) && (|r| >= 1 ==> (r[0].arrival > 0.0 <==> log[0].gapFromPrevious > 0.0))
      && forall k :: 0 <= k < |r| - 1 ==>
           r[k].arrival <= r[k + 1].arrival && (r[k].arrival < r[k + 1].arrival <==> log[k + 1].gapFromPrevious > 0.0)
    decreases |log|
  {
    if log != [] {
      var init := log[..|log| - 1];
      assert forall k :: 0 <= k < |init| ==> init[k] == log[k];
      RescaleArrivalsIncrease(init, est);
      var last := log[|log| - 1];
      assert LoggedJob(last);
      assert last.whatRho / est > 0.0;
      NewGapSign(last, est);
      assert log == init + [last];
      ArrivalsSnoc(Rescale(init, est), init, last, NewGap(last, est), est, Rescale(log, est), log);
    }
  }

  /**
   * A stream whose arrivals follow its log's gaps still does after one more
   * job, arriving a non-negative gap after the last one.
   */
  lemma ArrivalsSnoc(r: seq<Job>, log: seq<Job>, last: Job, g: real, est: real, r': seq<Job>, log': seq<Job>)
    requires |r| == |log| && AllWellformed(r) && (|r| >= 1 ==> (r[0].arrival > 0.0 <==> log[0].gapFromPrevious > 0.0))
    requires forall k :: 0 <= k < |r| - 1 ==>
      r[k].arrival <= r[k + 1].arrival && (r[k].arrival < r[k + 1].arrival <==> log[k + 1].gapFromPrevious > 0.0)
    requires g >= 0.0 && (g > 0.0 <==> last.gapFromPrevious > 0.0) && last.service >= 0.0
    requires r' == r + [Job(LastArrival(r) + g, last.service, g, est)] && log' == log + [last]
    ensures AllWellformed(r') && (|r'| >= 1 ==> (r'[0].arrival > 0.0 <==> log'[0].gapFromPrevious > 0.0))
      && forall k :: 0 <= k < |r'| - 1 ==>
           r'[k].arrival <= r'[k + 1].arrival && (r'[k].arrival < r'[k + 1].arrival <==> log'[k + 1].gapFromPrevious > 0.0)
  {
    assert LastArrival(r) >= 0.0;
  }

  /** A rescaled gap is not negative, and positive exactly when the logged gap is. */
  lemma NewGapSign(j: Job, est: real)
    requires est > 0.0 && LoggedJob(j)
    ensures NewGap(j, est) >= 0.0 && (NewGap(j, est) > 0.0 <==> j.gapFromPrevious > 0.0)
  {
    var q := j.whatRho / est;
    assert q > 0.0;
    if j.gapFromPrevious > 0.0 {
      assert j.gapFromPrevious * q > 0.0;
    } else {
      assert j.gapFromPrevious == 0.0;
    }
  }

  /** Reading the full job log through the getters into the adjusted stream, as the rescaling loop does. */
  method RescaleJobLog(log: JobHistory, est: real) returns (js: seq<Job>)
    requires log.Valid() && log.ReadyForSleepScale() && log.size >= 1 && est != 0.0
    ensures js == Rescale(log.jobStream, est)
    ensures |js| == log.size
  {
    var interArrNew := log.GetInterArrAt(0) * (log.GetUtilizationAt(0) / est);
    var arrTimeNew := 0.0 + interArrNew;
    js := [Job(arrTimeNew, log.GetSerAt(0), interArrNew, est)];
    ghost var first := log.jobStream[..1];
    assert first[..0] == [] && first[0] == log.jobStream[0];
    assert interArrNew == NewGap(first[0], est);
    assert Rescale(first[..0], est) == [];
    assert Rescale(first, est) == [Job(interArrNew, first[0].service, interArrNew, est)];
    var i := 1;
    while i < log.GetSize()
      invariant 1 <= i <= |log.jobStream|
      invariant js == Rescale(log.jobStream[..i], est)
      invariant arrTimeNew == LastArrival(js)
    {
      ghost var prefix := log.jobStream[..i + 1];
      assert prefix[..i] == log.jobStream[..i] && prefix[i] == log.jobStream[i];
      interArrNew := log.GetInterArrAt(i) * (log.GetUtilizationAt(i) / est);
      assert interArrNew == NewGap(prefix[i], est);
      arrTimeNew := arrTimeNew + interArrNew;
      js := js + [Job(arrTimeNew, log.GetSerAt(i), interArrNew, est)];
      assert js == Rescale(prefix, est);
      i := i + 1;
    }
    assert log.jobStream[..i] == log.jobStream;
  }

  // ---------------------------------------------------------------- selection

  /** A simulated policy the search may pick: mean power below MAX_NUM and mean response within SER_TIME * SLEEPSCALE_SLOWDOWN. */
  predicate Feasible(p: PowerState) {
    p.ep <= MaxNum && p.er <= ResponseBound
  }

  /** The running choice after candidates 1 .. n-1: best index and the mean power it is compared against. */
  datatype Choice = Choice(best: nat, cur: real)

  /** The search loop: a candidate replaces the best one when its power is at most the current one and it meets the bound. */
  function Scan(sims: seq<PowerState>, n: nat): Choice
    requires 1 <= n <= |sims|
    decreases n
  {
    if n == 1 then Choice(1, MaxNum)
    else
      var c := Scan(sims, n - 1);
      var p := sims[n - 1];
      if p.ep <= c.cur && p.er <= ResponseBound then Choice(n - 1, p.ep) else c
  }

  /**
   * What doSleepScale's answer is, independently of the loop: never the
   * baseline; candidate 1 when no candidate is feasible; otherwise a
   * feasible candidate of least mean power, and the last such one in
   * catalog order.
   */
  ghost predicate IsSelection(sims: seq<PowerState>, b: nat) {
    1 <= b < |sims|
    && if exists k :: 1 <= k < |sims| && Feasible(sims[k]) then
         Feasible(sims[b])
         && (forall k :: 1 <= k < |sims| && Feasible(sims[k]) ==> sims[b].ep <= sims[k].ep)
         && (forall k :: b < k < |sims| && Feasible(sims[k]) ==> sims[b].ep < sims[k].ep)
       else b == 1
  }

  lemma {:induction false} ScanInvariant(sims: seq<PowerState>, n: nat)
    requires 2 <= |sims| && 1 <= n <= |sims|
    ensures var c := Scan(sims, n);
      1 <= c.best < |sims| && c.cur <= MaxNum
      && if exists k :: 1 <= k < n && Feasible(sims[k]) then
           c.best < n && Feasible(sims[c.best]) && c.cur == sims[c.best].ep
           && (forall k :: 1 <= k < n && Feasible(sims[k]) ==> c.cur <= sims[k].ep)
           && (forall k :: c.best < k < n && Feasible(sims[k]) ==> c.cur < sims[k].ep)
         else c == Choice(1, MaxNum)
    decreases n
  {
    if n > 1 {
      ScanInvariant(sims, n - 1);
      var c := Scan(sims, n - 1);
      var p := sims[n - 1];
      if p.ep <= c.cur && p.er <= ResponseBound {
        assert Feasible(p);
      } else if exists k :: 1 <= k < n - 1 && Feasible(sims[k]) {
      } else {
        assert !Feasible(p);
      }
    }
  }

  /** The loop computes the selection. */
  lemma ScanIsSelection(sims: seq<PowerState>)
    requires |sims| >= 2
    ensures IsSelection(sims, Scan(sims, |sims|).best)
  {
    ScanInvariant(sims, |sims|);
  }

  /** The selection is determined by the simulated catalog. */
  lemma SelectionUnique(sims: seq<PowerState>, b1: nat, b2: nat)
    requires IsSelection(sims, b1) && IsSelection(sims, b2)
    ensures b1 == b2
  {
  }

  /** Stream requirements for simQueue: well formed, first arrival after time 0, JOB_LOG_LENGTH jobs. */
  predicate SimReady(js: seq<Job>) {
    |js| == JobLogLength && AllWellformed(js) && js[0].arrival > 0.0
  }

  /** Catalog requirements: entries valid for simulation, including a baseline slot and at least one candidate. */
  predicate SimCatalog(catalog: seq<PowerState>) {
    |catalog| >= 2 && forall i :: 0 <= i < |catalog| ==> TableEntry(catalog[i])
  }

  /** simQueue's precondition holds for a table entry on a ready stream. */
  predicate SimulatedOk(p: PowerState, js: seq<Job>) {
    p.freq > 0.0 && |js| >= 1
    && ColdRun(js, p.freq, p.wakeUp, true).opLength + ColdRun(js, p.freq, p.wakeUp, true).offLength != 0.0
  }

  /** Every candidate after the baseline can be simulated on `js`: none of its replays spans zero time. */
  predicate SimDefined(catalog: seq<PowerState>, js: seq<Job>) {
    forall i :: 1 <= i < |catalog| ==> SimulatedOk(catalog[i], js)
  }

  /** The catalog after the policy loop: the baseline entry as it was, every candidate simulated on `js`. */
  function SimulateAll(catalog: seq<PowerState>, js: seq<Job>): (r: seq<PowerState>)
    requires |catalog| >= 1 && SimDefined(catalog, js)
    ensures |r| == |catalog| && r[0] == catalog[0]
    ensures forall i :: 1 <= i < |r| ==> r[i].freq == catalog[i].freq && r[i].idle == catalog[i].idle
  {
    seq(|catalog|, i requires 0 <= i < |catalog| => if i == 0 then catalog[0] else Simulated(catalog[i], js))
  }

  lemma SimulatedReady(p: PowerState, js: seq<Job>)
    requires TableEntry(p) && SimReady(js)
    ensures SimulatedOk(p, js)
  {
    ColdRunTotalPositive(js, p.freq, p.wakeUp, true);
  }

  /** A ready stream with a first arrival after time 0 can be simulated for every table entry. */
  lemma SimReadyDefined(catalog: seq<PowerState>, js: seq<Job>)
    requires SimCatalog(catalog) && SimReady(js)
    ensures SimDefined(catalog, js)
  {
    forall i | 1 <= i < |catalog| ensures SimulatedOk(catalog[i], js) {
      SimulatedReady(catalog[i], js);
    }
  }

  /**
   * The policy loop of doSleepScale: every candidate from index 1 is
   * simulated on the adjusted stream and its ER and EP written back; the
   * baseline entry is left as it was. Returns the selected index.
   */
  method SimulateCatalog(catalog: seq<PowerState>, js: seq<Job>) returns (sims: seq<PowerState>, best: nat)
    requires SimCatalog(catalog) && |js| == JobLogLength && SimDefined(catalog, js)
    ensures sims == SimulateAll(catalog, js)
    ensures best == Scan(sims, |sims|).best
    ensures IsSelection(sims, best)
  {
    sims := catalog;
    var curEP := MaxNum;
    best := 1;
    var i := 1;
    while i != |catalog|
      invariant 1 <= i <= |catalog| && |sims| == |catalog|
      invariant forall k :: 0 <= k < |sims| ==> sims[k] == (if 1 <= k < i then Simulated(catalog[k], js) else catalog[k])
      invariant Choice(best, curEP) == Scan(sims, i)
    {
      assert SimulatedOk(catalog[i], js);
      var p := SimQueue(catalog[i], js);
      ghost var sims0, i0, c0 := sims, i, Choice(best, curEP);
      sims := sims[i := p];
      if p.ep <= curEP && p.er <= ResponseBound {
        best := i;
        curEP := p.ep;
      }
      i := i + 1;
      ScanAdvance(sims0, i0, c0, p, sims, i, Choice(best, curEP));
    }
    ghost var all := SimulateAll(catalog, js);
    assert forall k :: 0 <= k < |sims| ==> sims[k] == all[k];
    ScanIsSelection(sims);
  }

  /** Writing entry i and taking it into the scan advances the scan by one. */
  lemma ScanAdvance(a: seq<PowerState>, i: nat, c: Choice, p: PowerState, b: seq<PowerState>, i': nat, c': Choice)
    requires 1 <= i < |a| && c == Scan(a, i) && b == a[i := p] && i' == i + 1
    requires c' == (if p.ep <= c.cur && p.er <= ResponseBound then Choice(i, p.ep) else c)
    ensures c' == Scan(b, i')
  {
    assert a[..i] == b[..i];
    ScanPrefix(a, b, i);
  }

  /** Scan over the first n entries reads only those entries. */
  lemma {:induction false} ScanPrefix(a: seq<PowerState>, b: seq<PowerState>, n: nat)
    requires 1 <= n <= |a| && n <= |b| && a[..n] == b[..n]
    ensures Scan(a, n) == Scan(b, n)
    decreases n
  {
    if n > 1 {
      assert a[..n - 1] == b[..n - 1] by {
        assert a[..n - 1] == a[..n][..n - 1];
        assert b[..n - 1] == b[..n][..n - 1];
      }
      ScanPrefix(a, b, n - 1);
      assert a[n - 1] == a[..n][n - 1];
      assert b[n - 1] == b[..n][n - 1];
    }
  }
}
