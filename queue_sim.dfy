/**
 * The FCFS single-server queue with a wake-up penalty that simQueue, doQueue
 * and doQueueBaseline run (src/Server.cpp): a job that arrives while the
 * server is busy waits for the previous departure; a job that arrives to an
 * idle server pays the policy's wake-up latency, and the gap counts as idle
 * time.
 */
module QueueSim {
  import opened Constants
  import opened JobLog
  import opened PowerModel

  /** The state the loops carry: last departure, busy time, idle time, and the summed response times. */
  datatype QState = QState(prevDepart: real, opLength: real, offLength: real, respSum: real)

  /** Arrival and service times are not negative. */
  predicate Wellformed(j: Job) {
    j.arrival >= 0.0 && j.service >= 0.0
  }

  predicate AllWellformed(js: seq<Job>) {
    forall k :: 0 <= k < |js| ==> Wellformed(js[k])
  }

  /**
   * One iteration of the job loop at frequency `f` with wake-up latency `w`.
   * `count` says whether the response time is added (doQueue only adds it
   * after minute 120).
   */
  function Step(q: QState, j: Job, f: real, w: real, count: bool): (r: QState)
    requires f > 0.0
    ensures w >= 0.0 && j.service >= 0.0 ==>
      r.prevDepart - j.arrival >= j.service / f
      && r.prevDepart >= q.prevDepart
      && r.opLength >= q.opLength && r.offLength >= q.offLength
      && r.respSum >= q.respSum + (if count then j.service / f else 0.0)
    ensures r.opLength + r.offLength - r.prevDepart == q.opLength + q.offLength - q.prevDepart
  {
    if j.arrival <= q.prevDepart then
      var d := q.prevDepart + j.service / f;
      QState(d, q.opLength + j.service / f, q.offLength, if count then q.respSum + d - j.arrival else q.respSum)
    else
      var d := j.arrival + j.service / f + w;
      QState(d, q.opLength + j.service / f + w, q.offLength + j.arrival - q.prevDepart,
             if count then q.respSum + d - j.arrival else q.respSum)
  }

  /** The job loop over `js`, in order. */
  function Run(q: QState, js: seq<Job>, f: real, w: real, count: bool): QState
    requires f > 0.0
    decreases |js|
  {
    if js == [] then q else Step(Run(q, js[..|js| - 1], f, w, count), js[|js| - 1], f, w, count)
  }

  /** The first job on a server that has not run anything: it starts at its arrival, with no wake-up. */
  function ColdStart(j: Job, f: real): (r: QState)
    requires f > 0.0
    ensures r.prevDepart == j.arrival + j.service / f
    ensures r.opLength == j.service / f && r.offLength == j.arrival
    ensures r.respSum == j.service / f
    ensures r.opLength + r.offLength == r.prevDepart
  {
    var d := j.arrival + j.service / f;
    QState(d, d - j.arrival, j.arrival, d - j.arrival)
  }

  /** The job loops of simQueue and of the cold-start branch of doQueue. */
  function ColdRun(js: seq<Job>, f: real, w: real, count: bool): QState
    requires f > 0.0 && |js| >= 1
  {
    Run(ColdStart(js[0], f), js[1..], f, w, count)
  }

  /**
   * Where doQueue continues from: the stored departure time, or a cold start
   * when it still holds the -1 sentinel.
   */
  function Replay(prevDepart: real, js: seq<Job>, f: real, w: real, count: bool): QState
    requires f > 0.0
    requires prevDepart >= 0.0 || |js| >= 1
  {
    if prevDepart < 0.0 then ColdRun(js, f, w, count) else Run(QState(prevDepart, 0.0, 0.0, 0.0), js, f, w, count)
  }

  /** Summed service times at frequency `f`. */
  function ServiceTime(js: seq<Job>, f: real): real
    requires f > 0.0
    decreases |js|
  {
    if js == [] then 0.0 else ServiceTime(js[..|js| - 1], f) + js[|js| - 1].service / f
  }

  lemma {:induction false} ServiceTimeNonnegative(js: seq<Job>, f: real)
    requires f > 0.0 && AllWellformed(js)
    ensures ServiceTime(js, f) >= 0.0
    decreases |js|
  {
    if js != [] {
      var init := js[..|js| - 1];
      assert forall k :: 0 <= k < |init| ==> init[k] == js[k];
      ServiceTimeNonnegative(init, f);
      assert Wellformed(js[|js| - 1]);
      assert js[|js| - 1].service / f >= 0.0;
    }
  }

  /** Time-weighted mean power over busy time `op` at `act` and idle time `off` at `idle`. */
  function MeanPower(op: real, off: real, act: real, idle: real): real
    requires op + off != 0.0
  {
    (op * act + off * idle) / (op + off)
  }

  /** simQueue's result: the policy with ER the mean response time and EP the mean power. */
  function Simulated(p: PowerState, js: seq<Job>): PowerState
    requires p.freq > 0.0 && |js| >= 1
    requires ColdRun(js, p.freq, p.wakeUp, true).opLength + ColdRun(js, p.freq, p.wakeUp, true).offLength != 0.0
  {
    var q := ColdRun(js, p.freq, p.wakeUp, true);
    p.(er := q.respSum / |js| as real, ep := MeanPower(q.opLength, q.offLength, p.actPwr, p.idlePwr))
  }

  /** Busy and idle time never decrease, and every counted job adds at least its service time to the response sum. */
  lemma {:induction false} RunMonotone(q: QState, js: seq<Job>, f: real, w: real, count: bool)
    requires f > 0.0 && w >= 0.0 && AllWellformed(js)
    ensures var r := Run(q, js, f, w, count);
      r.prevDepart >= q.prevDepart
      && r.opLength >= q.opLength && r.offLength >= q.offLength
      && r.respSum >= q.respSum + (if count then ServiceTime(js, f) else 0.0)
    decreases |js|
  {
    if js != [] {
      var init := js[..|js| - 1];
      assert AllWellformed(init) by {
        forall k | 0 <= k < |init| ensures Wellformed(init[k]) {
          assert init[k] == js[k];
        }
      }
      RunMonotone(q, init, f, w, count);
      assert Wellformed(js[|js| - 1]);
    }
  }

  /** Busy plus idle time minus the last departure is conserved by the job loop. */
  lemma {:induction false} RunConservesTotal(q: QState, js: seq<Job>, f: real, w: real, count: bool)
    requires f > 0.0
    ensures var r := Run(q, js, f, w, count);
      r.opLength + r.offLength - r.prevDepart == q.opLength + q.offLength - q.prevDepart
    decreases |js|
  {
    if js != [] {
      RunConservesTotal(q, js[..|js| - 1], f, w, count);
    }
  }

  /** From a cold start, busy plus idle time is the last departure time, which is at least the first departure. */
  lemma ColdRunTotal(js: seq<Job>, f: real, w: real, count: bool)
    requires f > 0.0 && |js| >= 1 && w >= 0.0 && AllWellformed(js[1..])
    ensures var r := ColdRun(js, f, w, count);
      r.opLength + r.offLength == r.prevDepart
      && r.prevDepart >= js[0].arrival + js[0].service / f
  {
    RunConservesTotal(ColdStart(js[0], f), js[1..], f, w, count);
    RunMonotone(ColdStart(js[0], f), js[1..], f, w, count);
  }

  /** A first job that arrives after time 0 makes the divisor of simQueue's mean power nonzero. */
  lemma ColdRunTotalPositive(js: seq<Job>, f: real, w: real, count: bool)
    requires f > 0.0 && |js| >= 1 && w >= 0.0 && AllWellformed(js)
    requires js[0].arrival > 0.0
    ensures ColdRun(js, f, w, count).opLength + ColdRun(js, f, w, count).offLength > 0.0
  {
    assert AllWellformed(js[1..]) by {
      forall k | 0 <= k < |js[1..]| ensures Wellformed(js[1..][k]) {
        assert js[1..][k] == js[k + 1];
      }
    }
    ColdRunTotal(js, f, w, count);
    assert Wellformed(js[0]);
    assert js[0].service / f >= 0.0;
  }

  /** A time-weighted mean of two powers lies between them. */
  lemma MeanPowerBetween(op: real, off: real, act: real, idle: real)
    requires op >= 0.0 && off >= 0.0 && op + off > 0.0 && idle <= act
    ensures idle <= MeanPower(op, off, act, idle) <= act
  {
    var t := op + off;
    assert op * act + off * idle >= op * idle + off * idle by {
      assert op * act >= op * idle;
    }
    assert op * act + off * idle <= op * act + off * act by {
      assert off * idle <= off * act;
    }
    assert op * idle + off * idle == t * idle;
    assert op * act + off * act == t * act;
    QuotientBetween(op * act + off * idle, t, idle, act);
  }

  lemma QuotientBetween(x: real, t: real, lo: real, hi: real)
    requires t > 0.0 && t * lo <= x <= t * hi
    ensures lo <= x / t <= hi
  {
    var q := x / t;
    assert q * t == x;
    assert (q - lo) * t >= 0.0;
    assert (hi - q) * t >= 0.0;
  }

  /** A cold run accumulates busy and idle time that are not negative, and a response sum of at least the summed service times. */
  lemma ColdRunAccounts(js: seq<Job>, f: real, w: real)
    requires f > 0.0 && w >= 0.0 && |js| >= 1 && AllWellformed(js)
    ensures var q := ColdRun(js, f, w, true);
      q.opLength >= 0.0 && q.offLength >= 0.0 && q.respSum >= ServiceTime(js, f)
  {
    assert AllWellformed(js[1..]) by {
      forall k | 0 <= k < |js[1..]| ensures Wellformed(js[1..][k]) {
        assert js[1..][k] == js[k + 1];
      }
    }
    assert Wellformed(js[0]);
    assert js[0].service / f >= 0.0;
    RunMonotone(ColdStart(js[0], f), js[1..], f, w, true);
    ServiceTimeFront(js, f);
  }

  /**
   * Wherever simQueue is defined, that is on every replay that spans some
   * time, its mean power lies between the policy's idle and active power,
   * and its response time is at least the mean service time.
   */
  lemma SimulatedBounds(p: PowerState, js: seq<Job>)
    requires p.freq > 0.0 && p.wakeUp >= 0.0 && p.idlePwr <= p.actPwr
    requires |js| >= 1 && AllWellformed(js)
    requires ColdRun(js, p.freq, p.wakeUp, true).opLength + ColdRun(js, p.freq, p.wakeUp, true).offLength != 0.0
    ensures p.idlePwr <= Simulated(p, js).ep <= p.actPwr
    ensures Simulated(p, js).er >= ServiceTime(js, p.freq) / |js| as real
  {
    var q := ColdRun(js, p.freq, p.wakeUp, true);
    ColdRunAccounts(js, p.freq, p.wakeUp);
    MeanPowerBetween(q.opLength, q.offLength, p.actPwr, p.idlePwr);
    DivideMonotone(ServiceTime(js, p.freq), q.respSum, |js| as real);
  }

  lemma DivideMonotone(a: real, b: real, n: real)
    requires a <= b && n > 0.0
    ensures a / n <= b / n
  {
  }

  lemma {:induction false} ServiceTimeFront(js: seq<Job>, f: real)
    requires f > 0.0 && |js| >= 1
    ensures ServiceTime(js, f) == js[0].service / f + ServiceTime(js[1..], f)
    decreases |js|
  {
    if |js| > 1 {
      var init := js[..|js| - 1];
      ServiceTimeFront(init, f);
      assert init[1..] == js[1..][..|js[1..]| - 1];
    } else {
      assert js[1..] == [];
      assert js[..0] == [];
    }
  }

  /** Without a wake-up latency, busy time grows by exactly the summed service times. */
  lemma {:induction false} NoWakeupBusyTime(q: QState, js: seq<Job>, f: real, count: bool)
    requires f > 0.0
    ensures Run(q, js, f, 0.0, count).opLength == q.opLength + ServiceTime(js, f)
    decreases |js|
  {
    if js != [] {
      NoWakeupBusyTime(q, js[..|js| - 1], f, count);
    }
  }

  /** Summed service time does not grow with the frequency. */
  lemma {:induction false} ServiceTimeAntitone(js: seq<Job>, f1: real, f2: real)
    requires 0.0 < f1 <= f2 && AllWellformed(js)
    ensures ServiceTime(js, f2) <= ServiceTime(js, f1)
    decreases |js|
  {
    if js != [] {
      var init := js[..|js| - 1];
      assert AllWellformed(init) by {
        forall k | 0 <= k < |init| ensures Wellformed(init[k]) {
          assert init[k] == js[k];
        }
      }
      ServiceTimeAntitone(init, f1, f2);
      var s := js[|js| - 1].service;
      assert Wellformed(js[|js| - 1]);
      assert s / f2 <= s / f1 by {
        assert s / f2 * f2 == s;
        assert s / f1 * f1 == s;
        assert s / f2 * f1 <= s / f2 * f2;
      }
    }
  }

  /** Without a wake-up latency a cold run is busy for the summed service time, which a higher frequency does not increase. */
  lemma NoWakeupBusyTimeAntitone(js: seq<Job>, f1: real, f2: real, count: bool)
    requires 0.0 < f1 <= f2 && |js| >= 1 && AllWellformed(js)
    ensures ColdRun(js, f1, 0.0, count).opLength == ServiceTime(js, f1)
    ensures ColdRun(js, f2, 0.0, count).opLength <= ColdRun(js, f1, 0.0, count).opLength
  {
    NoWakeupBusyTime(ColdStart(js[0], f1), js[1..], f1, count);
    NoWakeupBusyTime(ColdStart(js[0], f2), js[1..], f2, count);
    ServiceTimeFront(js, f1);
    ServiceTimeFront(js, f2);
    ServiceTimeAntitone(js, f1, f2);
  }

  /**
   * With a nonzero wake-up latency, busy time is not monotone in the
   * frequency: in C6, running two jobs faster lets the server fall idle
   * between them and pay the 1 ms wake-up.
   */
  lemma WakeupBusyTimeNotMonotone()
    ensures var js := [Job(0.0, 0.5, 0.0, 0.5), Job(0.75, 0.1, 0.75, 0.5)];
      ColdRun(js, 0.5, WakeupC6, true).opLength == 1.2
      && ColdRun(js, 1.0, WakeupC6, true).opLength == 1.6
  {
    var js := [Job(0.0, 0.5, 0.0, 0.5), Job(0.75, 0.1, 0.75, 0.5)];
    assert js[1..] == [js[1]];
    assert [js[1]][..0] == [];
  }

  /** The job loop, as the three loops of the source run it. */
  method RunQueue(q0: QState, js: seq<Job>, f: real, w: real, count: bool) returns (q: QState)
    requires f > 0.0
    ensures q == Run(q0, js, f, w, count)
  {
    q := q0;
    var i := 0;
    while i < |js|
      invariant 0 <= i <= |js|
      invariant q == Run(q0, js[..i], f, w, count)
    {
      assert js[..i + 1][..i] == js[..i];
      var j := js[i];
      if j.arrival <= q.prevDepart {
        var d := q.prevDepart + j.service / f;
        q := QState(d, q.opLength + j.service / f, q.offLength, if count then q.respSum + d - j.arrival else q.respSum);
      } else {
        var d := j.arrival + j.service / f + w;
        q := QState(d, q.opLength + j.service / f + w, q.offLength + j.arrival - q.prevDepart,
                    if count then q.respSum + d - j.arrival else q.respSum);
      }
      i := i + 1;
    }
    assert js[..i] == js;
  }

  /** simQueue on a job log of JOB_LOG_LENGTH jobs. */
  method SimQueue(policy: PowerState, js: seq<Job>) returns (p: PowerState)
    requires policy.freq > 0.0 && |js| == JobLogLength
    requires ColdRun(js, policy.freq, policy.wakeUp, true).opLength + ColdRun(js, policy.freq, policy.wakeUp, true).offLength != 0.0
    ensures p == Simulated(policy, js)
    ensures p.freq == policy.freq && p.idle == policy.idle
  {
    var q := ColdStart(js[0], policy.freq);
    q := RunQueue(q, js[1..], policy.freq, policy.wakeUp, true);
    assert q == ColdRun(js, policy.freq, policy.wakeUp, true);
    var total := q.opLength + q.offLength;
    var ep := (q.opLength * policy.actPwr + q.offLength * policy.idlePwr) / total;
    assert ep == MeanPower(q.opLength, q.offLength, policy.actPwr, policy.idlePwr);
    p := policy.(er := q.respSum / |js| as real, ep := ep);
  }
}
