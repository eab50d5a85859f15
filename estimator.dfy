/**
 * The utilization estimator (src/Estimator.cpp): a sliding window of the last
 * K observed utilizations with an incrementally maintained sum of squares, a
 * weight vector trained by normalised LMS, and optional CUSUM change
 * detection that redistributes the weights onto a shorter lookback.
 */
module UtilEstimator {
  import opened Constants
  import opened Wrappers

  /** The LMS regulariser `a`. */
  const A: real := 10.0
  /** The CUSUM alarm threshold `h`. */
  const H: real := 0.15
  /** The CUSUM drift `v`. */
  const V: real := 0.03
  /** The numerator of the LMS step size. */
  const StepBase: real := 0.01
  /** The cap on the CUSUM lookback after a step without alarm. */
  const MaxCusumLookback: int := 10

  /** Sum of squares in index order; never negative. */
  function SumSq(s: seq<real>): (r: real)
    ensures r >= 0.0
  {
    if s == [] then 0.0 else SumSq(s[..|s| - 1]) + s[|s| - 1] * s[|s| - 1]
  }

  /** The weighted sum of the window, in index order. */
  function Dot(w: seq<real>, h: seq<real>): real
    requires |w| == |h|
  {
    if w == [] then 0.0 else Dot(w[..|w| - 1], h[..|h| - 1]) + w[|w| - 1] * h[|h| - 1]
  }

  /** Sum of w[i] / l in index order: the accumulator of the redistribution loop. */
  function ShareSum(w: seq<real>, l: int): real
    requires l != 0
  {
    if w == [] then 0.0 else ShareSum(w[..|w| - 1], l) + w[|w| - 1] / l as real
  }

  /** The normalised LMS update: every weight moves by mu * err times its window entry. */
  function LmsUpdate(w: seq<real>, h: seq<real>, mu: real, err: real): (r: seq<real>)
    requires |w| == |h|
    ensures |r| == |w|
  {
    seq(|w|, i requires 0 <= i < |w| => w[i] + mu * err * h[i])
  }

  /** The redistribution onto lookback `l`: the first n - l weights become 0 and the rest become `t`. */
  function Spread(n: nat, l: int, t: real): (r: seq<real>)
    ensures |r| == n
  {
    seq(n, i requires 0 <= i < n => if i < n - l then 0.0 else t)
  }

  /** The static CUSUM statistics g1, g2 and the current lookback. */
  datatype Cusum = Cusum(g1: real, g2: real, lookback: int)

  /** Whether one CUSUM step with error `err` at utilization `rho` raises an alarm. */
  predicate Alarm(c: Cusum, err: real, rho: real)
    requires rho != 0.0
  {
    Max(c.g1 + err / rho - V, 0.0) > H || Max(c.g2 - err / rho - V, 0.0) > H
  }

  /** One CUSUM step with window size `k`. */
  function CusumStep(c: Cusum, err: real, rho: real, k: int): (r: Cusum)
    requires rho != 0.0
    ensures 0.0 <= r.g1 <= H && 0.0 <= r.g2 <= H
    ensures c.lookback >= 1 ==> r.lookback >= 1
    ensures Alarm(c, err, rho) ==> r == Cusum(0.0, 0.0, 1)
    ensures !Alarm(c, err, rho) ==>
      r.g1 == Max(c.g1 + err / rho - V, 0.0) && r.g2 == Max(c.g2 - err / rho - V, 0.0)
    ensures !Alarm(c, err, rho) && c.lookback < k ==> r.lookback == (if c.lookback + 2 < MaxCusumLookback then c.lookback + 2 else MaxCusumLookback)
    ensures !Alarm(c, err, rho) && c.lookback >= k ==> r.lookback == c.lookback
  {
    var n1 := Max(c.g1 + err / rho - V, 0.0);
    var n2 := Max(c.g2 - err / rho - V, 0.0);
    if n1 > H || n2 > H then Cusum(0.0, 0.0, 1)
    else if c.lookback < k then Cusum(n1, n2, if c.lookback + 2 < MaxCusumLookback then c.lookback + 2 else MaxCusumLookback)
    else Cusum(n1, n2, c.lookback)
  }

  /** With a window of at least 10, the lookback stays between 1 and the window size. */
  lemma CusumLookbackInWindow(c: Cusum, err: real, rho: real, k: int)
    requires rho != 0.0
    requires k >= MaxCusumLookback
    requires 1 <= c.lookback <= k
    ensures 1 <= CusumStep(c, err, rho, k).lookback <= k
  {
  }

  lemma {:induction false} SumSqFront(s: seq<real>)
    requires |s| > 0
    ensures SumSq(s) == s[0] * s[0] + SumSq(s[1..])
    decreases |s|
  {
    if |s| > 1 {
      var init := s[..|s| - 1];
      SumSqFront(init);
      assert init[1..] == s[1..][..|s[1..]| - 1];
    } else {
      assert s[1..] == [];
      assert s[..0] == [];
    }
  }

  lemma SumSqSnoc(s: seq<real>, x: real)
    ensures SumSq(s + [x]) == SumSq(s) + x * x
  {
    var t := s + [x];
    assert t[..|t| - 1] == s;
  }

  /** Evicting the oldest entry and appending `x` changes the sum of squares by x^2 - h[0]^2. */
  lemma SumSqSlide(h: seq<real>, norm: real, x: real)
    requires |h| > 0 && norm == SumSq(h)
    ensures SumSq(h[1..] + [x]) == norm - h[0] * h[0] + x * x
  {
    SumSqFront(h);
    SumSqSnoc(h[1..], x);
  }

  /** The redistribution accumulator is the sum divided by the lookback. */
  lemma {:induction false} ShareSumIsSumOver(w: seq<real>, l: int)
    requires l != 0
    ensures ShareSum(w, l) == Sum(w) / l as real
    decreases |w|
  {
    if w != [] {
      ShareSumIsSumOver(w[..|w| - 1], l);
      var a, b, d := Sum(w[..|w| - 1]), w[|w| - 1], l as real;
      assert a / d + b / d == (a + b) / d;
    }
  }

  lemma {:induction false} SumSpread(n: nat, l: int, t: real)
    requires 0 <= l <= n
    ensures Sum(Spread(n, l, t)) == l as real * t
    decreases n
  {
    var s := Spread(n, l, t);
    if n > 0 {
      if l > 0 {
        SumSpread(n - 1, l - 1, t);
        assert s[..n - 1] == Spread(n - 1, l - 1, t);
      } else {
        SumSpread(n - 1, 0, t);
        assert s[..n - 1] == Spread(n - 1, 0, t);
      }
    }
  }

  /** For 1 <= l <= |w| the redistribution keeps the sum of the weights. */
  lemma RedistributePreservesSum(w: seq<real>, l: int)
    requires 1 <= l <= |w|
    ensures Sum(Spread(|w|, l, ShareSum(w, l))) == Sum(w)
  {
    ShareSumIsSumOver(w, l);
    SumSpread(|w|, l, ShareSum(w, l));
    assert l as real * (Sum(w) / l as real) == Sum(w);
  }

  /** The estimation loop of estimateRho. */
  method WeightedSum(w: seq<real>, h: seq<real>) returns (s: real)
    requires |w| == |h|
    ensures s == Dot(w, h)
  {
    s := 0.0;
    var i := 0;
    while i < |w|
      invariant 0 <= i <= |w|
      invariant s == Dot(w[..i], h[..i])
    {
      assert w[..i + 1][..i] == w[..i] && h[..i + 1][..i] == h[..i];
      s := s + w[i] * h[i];
      i := i + 1;
    }
    assert w[..i] == w && h[..i] == h;
  }

  /** The weight-update loop of observeRho. */
  method UpdateWeights(w: seq<real>, h: seq<real>, mu: real, err: real) returns (r: seq<real>)
    requires |w| == |h|
    ensures r == LmsUpdate(w, h, mu, err)
  {
    r := w;
    var i := 0;
    while i < |w|
      invariant 0 <= i <= |w| && |r| == |w|
      invariant forall k :: 0 <= k < i ==> r[k] == w[k] + mu * err * h[k]
      invariant forall k :: i <= k < |w| ==> r[k] == w[k]
    {
      r := r[i := r[i] + mu * err * h[i]];
      i := i + 1;
    }
    assert forall k :: 0 <= k < |r| ==> r[k] == LmsUpdate(w, h, mu, err)[k];
  }

  /** The two redistribution loops of the CUSUM branch, onto lookback `l`. */
  method RedistributeWeights(w: seq<real>, l: int) returns (r: seq<real>)
    requires l != 0
    ensures r == Spread(|w|, l, ShareSum(w, l))
    ensures 1 <= l <= |w| ==> Sum(r) == Sum(w)
  {
    var tmp := 0.0;
    var i := 0;
    while i < |w|
      invariant 0 <= i <= |w|
      invariant tmp == ShareSum(w[..i], l)
    {
      assert w[..i + 1][..i] == w[..i];
      tmp := tmp + w[i] / l as real;
      i := i + 1;
    }
    assert w[..i] == w;
    r := w;
    i := 0;
    while i < |w|
      invariant 0 <= i <= |w| && |r| == |w|
      invariant forall k :: 0 <= k < i ==> r[k] == (if k < |w| - l then 0.0 else tmp)
    {
      if i < |w| - l {
        r := r[i := 0.0];
      } else {
        r := r[i := tmp];
      }
      i := i + 1;
    }
    if 1 <= l <= |w| {
      RedistributePreservesSum(w, l);
    }
  }

  /** The weights and CUSUM state after one training step. */
  datatype Trained = Trained(weight: seq<real>, cusum: Cusum)

  /**
   * The training step of observeRho on a full window `h`: the LMS update with
   * step size `mu` and error `err`, then, with CUSUM enabled, one CUSUM step on `err` and the
   * redistribution of the trained weights onto the new lookback.
   */
  function TrainStep(w: seq<real>, h: seq<real>, mu: real, c: Cusum, err: real, rho: real, cusum: bool): (r: Trained)
    requires |w| == |h|
    requires cusum ==> rho != 0.0
    requires c.lookback >= 1
    ensures |r.weight| == |w| && r.cusum.lookback >= 1
    ensures !cusum ==> r == Trained(LmsUpdate(w, h, mu, err), c)
    ensures cusum ==> r.cusum == CusumStep(c, err, rho, |w|)
    ensures cusum ==> r.weight == Spread(|w|, r.cusum.lookback, ShareSum(LmsUpdate(w, h, mu, err), r.cusum.lookback))
  {
    var trained := LmsUpdate(w, h, mu, err);
    if cusum then
      var c' := CusumStep(c, err, rho, |w|);
      Trained(Spread(|w|, c'.lookback, ShareSum(trained, c'.lookback)), c')
    else
      Trained(trained, c)
  }

  /** With CUSUM on and the new lookback inside the window, training changes the weights' sum only through LMS. */
  lemma TrainStepKeepsLmsSum(w: seq<real>, h: seq<real>, mu: real, c: Cusum, err: real, rho: real)
    requires |w| == |h| && rho != 0.0 && c.lookback >= 1
    requires TrainStep(w, h, mu, c, err, rho, true).cusum.lookback <= |w|
    ensures Sum(TrainStep(w, h, mu, c, err, rho, true).weight) == Sum(LmsUpdate(w, h, mu, err))
  {
    RedistributePreservesSum(LmsUpdate(w, h, mu, err), TrainStep(w, h, mu, c, err, rho, true).cusum.lookback);
  }

  class Estimator {
    /** The window size K (maximum lookback). */
    const historySize: nat
    /** useImmediatePastHist: the estimate is overridden by the last observation. */
    const useImmediatePastHist: bool
    /** doCUSUM: change detection after each weight update. */
    const doCusum: bool

    var weight: seq<real>
    var curHistory: seq<real>
    var historyL2Norm: real
    var curLookback: int
    var est: real
    var noOfObserved: int
    var immediatePastUtil: real
    var estimatorStatus: bool
    var observorStatus: bool
    /** Static in the source; there is only one estimator. */
    var g1: real
    var g2: real
    var mu: real

    ghost predicate Valid()
      reads this
    {
      && historySize >= 1
      && |weight| == historySize
      && |curHistory| <= historySize
      && historyL2Norm == SumSq(curHistory)
      && g1 >= 0.0 && g2 >= 0.0
      && 1 <= curLookback
      && (historySize >= MaxCusumLookback as nat ==> curLookback <= historySize)
      && noOfObserved >= 0
      && mu >= 0.0
    }

    /** Equal weights 1/K, empty window, zero estimate and norm, lookback K. */
    constructor (maxLookback: nat, immediatePast: bool, cusum: bool)
      requires maxLookback >= 1
      ensures Valid()
      ensures historySize == maxLookback
      ensures useImmediatePastHist == immediatePast && doCusum == cusum
      ensures |weight| == maxLookback && forall i :: 0 <= i < maxLookback ==> weight[i] == 1.0 / maxLookback as real
      ensures curHistory == [] && historyL2Norm == 0.0 && est == 0.0
      ensures curLookback == maxLookback && noOfObserved == 0 && immediatePastUtil == 0.0
      ensures estimatorStatus && observorStatus
      ensures g1 == 0.0 && g2 == 0.0 && mu == 0.0
    {
      historySize := maxLookback;
      useImmediatePastHist := immediatePast;
      doCusum := cusum;
      curLookback := maxLookback;
      est := 0.0;
      var w: seq<real> := [];
      var i := 0;
      while i < maxLookback
        invariant 0 <= i <= maxLookback && |w| == i
        invariant forall k :: 0 <= k < i ==> w[k] == 1.0 / maxLookback as real
      {
        w := w + [1.0 / maxLookback as real];
        i := i + 1;
      }
      weight := w;
      curHistory := [];
      historyL2Norm := 0.0;
      immediatePastUtil := 0.0;
      noOfObserved := 0;
      estimatorStatus := true;
      observorStatus := true;
      g1 := 0.0;
      g2 := 0.0;
      mu := 0.0;
    }

    /** Whether the window holds K observations. */
    predicate Full()
      reads this
    {
      |curHistory| == historySize
    }

    /** estimateRho (online): does nothing until the window is full. */
    method EstimateRho()
      requires Valid()
      modifies this
      ensures Valid()
      ensures !old(Full()) ==> unchanged(this)
      ensures weight == old(weight) && curHistory == old(curHistory) && historyL2Norm == old(historyL2Norm)
      ensures curLookback == old(curLookback) && noOfObserved == old(noOfObserved)
      ensures immediatePastUtil == old(immediatePastUtil) && g1 == old(g1) && g2 == old(g2)
      ensures estimatorStatus == old(estimatorStatus) && observorStatus == old(observorStatus)
      ensures old(Full()) ==> mu == StepBase / (historyL2Norm + A) && 0.0 < mu <= StepBase / A
      ensures old(Full()) ==> est == if useImmediatePastHist then immediatePastUtil else Min(Dot(weight, curHistory), 1.0)
      ensures old(Full()) && !useImmediatePastHist ==> est <= 1.0
    {
      if |curHistory| < historySize {
        return;
      }
      var estimated := WeightedSum(weight, curHistory);
      mu := StepBase / (historyL2Norm + A);
      est := Min(estimated, 1.0);
      if useImmediatePastHist {
        est := immediatePastUtil;
      }
    }

    /**
     * observeRho on the next line of the trace: None is the end of file.
     * Once the window is full the weights are trained with the window before
     * the slide, then the oldest entry is evicted.
     */
    method ObserveRho(next: Option<real>) returns (r: real)
      requires Valid()
      requires next.Some? && doCusum && Full() ==> next.value != 0.0
      modifies this
      ensures Valid()
      ensures est == old(est) && mu == old(mu) && estimatorStatus == old(estimatorStatus)
      ensures next.None? ==> r == -1.0 && !observorStatus
      ensures next.None? ==> weight == old(weight) && curHistory == old(curHistory) && historyL2Norm == old(historyL2Norm)
      ensures next.None? ==> noOfObserved == old(noOfObserved) && immediatePastUtil == old(immediatePastUtil)
      ensures next.None? ==> g1 == old(g1) && g2 == old(g2) && curLookback == old(curLookback)
      ensures next.Some? ==> r == next.value && immediatePastUtil == next.value && observorStatus == old(observorStatus)
      ensures next.Some? && !old(Full()) ==>
        curHistory == old(curHistory) + [next.value] && historyL2Norm == old(historyL2Norm) + next.value * next.value
        && weight == old(weight) && noOfObserved == old(noOfObserved)
        && g1 == old(g1) && g2 == old(g2) && curLookback == old(curLookback)
      ensures next.Some? && old(Full()) ==>
        curHistory == old(curHistory)[1..] + [next.value] && Full() && noOfObserved == old(noOfObserved) + 1
      ensures next.Some? && old(Full()) ==>
        Trained(weight, Cusum(g1, g2, curLookback))
        == TrainStep(old(weight), old(curHistory), old(mu),
                     Cusum(old(g1), old(g2), old(curLookback)), next.value - old(est), next.value, doCusum)
    {
      if next.None? {
        observorStatus := false;
        return -1.0;
      }
      var rho := next.value;
      immediatePastUtil := rho;
      if |curHistory| < historySize {
        Append(rho);
        return rho;
      }
      Train(rho);
      Slide(rho);
      r := rho;
    }

    /** The filling branch: push at the back and add the square to the norm. */
    method Append(rho: real)
      requires Valid() && !Full()
      modifies this`curHistory, this`historyL2Norm
      ensures Valid()
      ensures curHistory == old(curHistory) + [rho]
      ensures historyL2Norm == old(historyL2Norm) + rho * rho
    {
      SumSqSnoc(curHistory, rho);
      curHistory := curHistory + [rho];
      historyL2Norm := historyL2Norm + rho * rho;
    }

    /** The LMS weight update with the current window, then CUSUM and redistribution if enabled. */
    method Train(rho: real)
      requires Valid() && Full()
      requires doCusum ==> rho != 0.0
      modifies this`weight, this`g1, this`g2, this`curLookback
      ensures Valid()
      ensures Trained(weight, Cusum(g1, g2, curLookback))
        == TrainStep(old(weight), curHistory, mu, Cusum(old(g1), old(g2), old(curLookback)), rho - est, rho, doCusum)
    {
      var err, w0, h0, m := rho - est, weight, curHistory, mu;
      var c0 := Cusum(g1, g2, curLookback);
      var trained := UpdateWeights(w0, h0, m, err);
      if doCusum {
        var c := CusumStep(c0, err, rho, historySize);
        if historySize >= MaxCusumLookback as nat {
          CusumLookbackInWindow(c0, err, rho, historySize);
        }
        var spread := RedistributeWeights(trained, c.lookback);
        g1, g2, curLookback := c.g1, c.g2, c.lookback;
        weight := spread;
      } else {
        weight := trained;
      }
      assert w0 == old(weight) && h0 == curHistory && m == mu;
    }

    /** Evict the oldest observation, append `rho`, and keep the norm equal to the sum of squares. */
    method Slide(rho: real)
      requires Valid() && Full()
      modifies this`curHistory, this`historyL2Norm, this`noOfObserved
      ensures Valid() && Full()
      ensures curHistory == old(curHistory)[1..] + [rho]
      ensures noOfObserved == old(noOfObserved) + 1
    {
      var window := curHistory[1..] + [rho];
      SumSqSlide(curHistory, historyL2Norm, rho);
      historyL2Norm := historyL2Norm - curHistory[0] * curHistory[0] + rho * rho;
      curHistory := window;
      noOfObserved := noOfObserved + 1;
    }
  }
}
