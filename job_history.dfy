/**
 * The bounded job log (src/JobHistory.cpp): a FIFO of the most recent jobs
 * that evicts the oldest one once the capacity JOB_LOG_LENGTH is exceeded.
 */
module JobLog {
  import opened Constants

  /** One job: absolute arrival (ms), service time at full speed (ms), gap to the previous arrival, and the utilization it was generated for. */
  datatype Job = Job(arrival: real, service: real, gapFromPrevious: real, whatRho: real)

  /** The last `n` elements of `s`, or all of it when it is shorter. */
  function LastN<T>(s: seq<T>, n: nat): seq<T> {
    if |s| <= n then s else s[|s| - n..]
  }

  /** One insertNewJob step on a plain sequence: push at the back, then drop the front if over capacity. */
  function PushEvict(s: seq<Job>, j: Job, cap: nat): seq<Job> {
    var t := s + [j];
    if |t| > cap then t[1..] else t
  }

  /** Successive insertNewJob steps, in order. */
  function InsertAll(s: seq<Job>, js: seq<Job>, cap: nat): seq<Job>
    decreases |js|
  {
    if js == [] then s else InsertAll(PushEvict(s, js[0], cap), js[1..], cap)
  }

  /** Summed gaps: the offset of the last arrival from the start of the sequence. */
  function GapSum(js: seq<Job>): real {
    if js == [] then 0.0 else GapSum(js[..|js| - 1]) + js[|js| - 1].gapFromPrevious
  }

  /** With gaps that are not negative, the summed gaps are not negative. */
  lemma {:induction false} GapSumNonnegative(js: seq<Job>)
    requires forall k :: 0 <= k < |js| ==> js[k].gapFromPrevious >= 0.0
    ensures GapSum(js) >= 0.0
    decreases |js|
  {
    if js != [] {
      var init := js[..|js| - 1];
      assert forall k :: 0 <= k < |init| ==> init[k] == js[k];
      GapSumNonnegative(init);
    }
  }

  /** `n` copies of `j`. */
  function Repeat(j: Job, n: nat): (r: seq<Job>)
    ensures |r| == n && forall k :: 0 <= k < n ==> r[k] == j
  {
    if n == 0 then [] else Repeat(j, n - 1) + [j]
  }

  /** One push-and-evict keeps the retained suffix of the history equal to the last `cap` jobs inserted. */
  lemma PushEvictIsLastN(h: seq<Job>, j: Job, cap: nat)
    ensures PushEvict(LastN(h, cap), j, cap) == LastN(h + [j], cap)
    ensures |PushEvict(LastN(h, cap), j, cap)| <= cap
  {
    var s := LastN(h, cap);
    var t := s + [j];
    if |h| < cap {
      assert t == h + [j];
    } else if |h| == cap {
      assert t[1..] == (h + [j])[|h + [j]| - cap..];
    } else {
      assert t[1..] == (h + [j])[|h + [j]| - cap..];
    }
  }

  /** After any sequence of inserts the log holds exactly the last `cap` jobs, in insertion order. */
  lemma {:induction false} InsertAllIsLastN(h: seq<Job>, js: seq<Job>, cap: nat)
    ensures InsertAll(LastN(h, cap), js, cap) == LastN(h + js, cap)
    decreases |js|
  {
    if js != [] {
      PushEvictIsLastN(h, js[0], cap);
      assert (h + [js[0]]) + js[1..] == h + js;
      InsertAllIsLastN(h + [js[0]], js[1..], cap);
    }
  }

  /** Starting from an empty log, N inserts leave min(N, cap) jobs. */
  lemma InsertAllFromEmptySize(js: seq<Job>, cap: nat)
    ensures |InsertAll([], js, cap)| == if |js| <= cap then |js| else cap
  {
    InsertAllIsLastN([], js, cap);
    assert [] + js == js;
  }

  class JobHistory {
    /** The retained jobs, oldest first. */
    var jobStream: seq<Job>
    /** The capacity. */
    const size: nat
    /** Every job ever inserted, oldest first. */
    ghost var inserted: seq<Job>

    ghost predicate Valid()
      reads this
    {
      jobStream == LastN(inserted, size)
    }

    constructor ()
      ensures Valid()
      ensures size == JobLogLength
      ensures jobStream == [] && inserted == []
    {
      jobStream := [];
      size := JobLogLength;
      inserted := [];
    }

    /** insertNewJob: append, evicting the oldest when over capacity. */
    method InsertNewJob(j: Job)
      requires Valid()
      modifies this
      ensures Valid()
      ensures inserted == old(inserted) + [j]
      ensures jobStream == PushEvict(old(jobStream), j, size)
      ensures |old(jobStream)| <= size ==> |jobStream| <= size
    {
      PushEvictIsLastN(inserted, j, size);
      jobStream := jobStream + [j];
      if |jobStream| > size {
        jobStream := jobStream[1..];
      }
      inserted := inserted + [j];
    }

    /**
     * insertNewJobVector. Its loop pushes the front of the argument but never
     * pops it, so on a nonempty argument it runs forever; `fuel` bounds the
     * number of iterations observed. `exited` says whether the loop ended.
     */
    method InsertNewJobVector(v: seq<Job>, fuel: nat) returns (exited: bool)
      requires Valid()
      modifies this
      ensures Valid()
      ensures exited <==> |v| == 0
      ensures |v| == 0 ==> jobStream == old(jobStream) && inserted == old(inserted)
      ensures |v| > 0 ==> inserted == old(inserted) + Repeat(v[0], fuel)
      ensures |v| > 0 ==> jobStream == InsertAll(old(jobStream), Repeat(v[0], fuel), size)
    {
      if |v| == 0 {
        return true;
      }
      ghost var start := jobStream;
      ghost var startInserted := inserted;
      var steps := 0;
      while steps < fuel
        invariant 0 <= steps <= fuel
        invariant Valid()
        invariant inserted == startInserted + Repeat(v[0], steps)
        invariant jobStream == InsertAll(start, Repeat(v[0], steps), size)
      {
        InsertAllIsLastN(startInserted, Repeat(v[0], steps + 1), size);
        InsertAllIsLastN(startInserted, Repeat(v[0], steps), size);
        PushEvictIsLastN(inserted, v[0], size);
        assert startInserted + Repeat(v[0], steps + 1) == inserted + [v[0]];
        jobStream := jobStream + [v[0]];
        if |jobStream| > size {
          jobStream := jobStream[1..];
        }
        inserted := inserted + [v[0]];
        steps := steps + 1;
      }
      return false;
    }

    /** getSize: the number of retained jobs, min(number inserted, capacity). */
    function GetSize(): (n: nat)
      reads this
      requires Valid()
      ensures n <= size
      ensures n == if |inserted| <= size then |inserted| else size
    {
      |jobStream|
    }

    /** readyForSleepScale: the log is full, that is, at least `size` jobs were ever inserted. */
    function ReadyForSleepScale(): (b: bool)
      reads this
      requires Valid()
      ensures b <==> GetSize() == size
      ensures b <==> |inserted| >= size
    {
      |jobStream| == size
    }

    /** getArrAt: arrival time of the i-th oldest retained job. */
    function GetArrAt(i: int): (r: real)
      reads this
      requires Valid()
      requires 0 <= i < GetSize()
      ensures r == inserted[|inserted| - GetSize() + i].arrival
    {
      jobStream[i].arrival
    }

    /** getInterArrAt: gap before the i-th oldest retained job. */
    function GetInterArrAt(i: int): (r: real)
      reads this
      requires Valid()
      requires 0 <= i < GetSize()
      ensures r == inserted[|inserted| - GetSize() + i].gapFromPrevious
    {
      jobStream[i].gapFromPrevious
    }

    /** getUtilizationAt: utilization the i-th oldest retained job was generated for. */
    function GetUtilizationAt(i: int): (r: real)
      reads this
      requires Valid()
      requires 0 <= i < GetSize()
      ensures r == inserted[|inserted| - GetSize() + i].whatRho
    {
      jobStream[i].whatRho
    }

    /** getSerAt: service time of the i-th oldest retained job. */
    function GetSerAt(i: int): (r: real)
      reads this
      requires Valid()
      requires 0 <= i < GetSize()
      ensures r == inserted[|inserted| - GetSize() + i].service
    {
      jobStream[i].service
    }
  }
}
