/**
 * The shift-based batch-normalisation layer: its running mean and running
 * inverse standard deviation, its construction, and its forward pass in
 * deterministic (inference) and training mode.
 *
 * The numerics of the power-of-two estimator stay outside the model: the
 * unquantised inverse standard deviation of a batch is an input, and the
 * rounding to the nearest power of two is a function parameter.
 */
module ShiftBatchNorm {
  import opened Wrappers
  import opened AxesConfig
  import opened BatchStats

  /** The nonlinearity applied to the normalised output; `Identity` is the library's identity. */
  datatype Nonlinearity = Identity | Function(f: Batch -> Batch)

  function Apply(nl: Nonlinearity, y: Batch): Batch
  {
    match nl
    case Identity => y
    case Function(f) => f(y)
  }

  /** The persistent, non-trainable statistics of a layer. */
  datatype RunningState = RunningState(mean: seq<real>, std: seq<real>)

  /** What one forward pass yields: the output and the running state left behind. */
  datatype Step = Step(output: Batch, state: RunningState)

  function Filled(n: nat, v: real): (s: seq<real>)
    ensures |s| == n && forall p | 0 <= p < n :: s[p] == v
  {
    seq(n, _ => v)
  }

  /** `(input - mean) * std`, both broadcast over the reduced axes; `std` already holds the reciprocal. */
  function Normalize(x: Batch, mean: seq<real>, std: seq<real>): (y: Batch)
    requires |mean| == |std| && WellShaped(x, |mean|)
    ensures |y| == |x| && WellShaped(y, |mean|)
  {
    seq(|x|, j requires 0 <= j < |x| =>
      seq(|mean|, p requires 0 <= p < |mean| => (x[j][p] - mean[p]) * std[p]))
  }

  /** Element-wise power-of-two rounding of the batch's inverse standard deviation. */
  function Quantise(invStd: seq<real>, roundPow2: real -> real): (q: seq<real>)
    ensures |q| == |invStd|
  {
    seq(|invStd|, p requires 0 <= p < |invStd| => roundPow2(invStd[p]))
  }

  predicate ForwardReady(s: RunningState, x: Batch, deterministic: bool, invStd: seq<real>)
  {
    |s.std| == |s.mean| && WellShaped(x, |s.mean|) &&
    (!deterministic ==> |x| > 0 && |invStd| == |s.mean|)
  }

  /**
   * One forward pass as the layer computes it. In deterministic mode the
   * stored statistics are read. In training mode the batch mean and the
   * batch's unquantised inverse std `invStd` feed the moving averages, while
   * the output uses the batch mean and the quantised inverse std, with the
   * pre-update running values added in with weight 0.
   */
  function Forward(s: RunningState, x: Batch, deterministic: bool, alpha: real,
                   nl: Nonlinearity, invStd: seq<real>, roundPow2: real -> real): Step
    requires ForwardReady(s, x, deterministic, invStd)
  {
    var n := |s.mean|;
    if deterministic then
      Step(Apply(nl, Normalize(x, s.mean, s.std)), s)
    else
      var batchMean := BatchMean(x, n);
      var newMean := Ema(s.mean, batchMean, alpha);
      var newStd := Ema(s.std, invStd, alpha);
      var q := Quantise(invStd, roundPow2);
      var mean := seq(n, p requires 0 <= p < n => batchMean[p] + 0.0 * s.mean[p]);
      var std := seq(n, p requires 0 <= p < n => q[p] + 0.0 * s.std[p]);
      Step(Apply(nl, Normalize(x, mean, std)), RunningState(newMean, newStd))
  }

  /** In deterministic mode the stored statistics normalise the input and are left unchanged. */
  lemma DeterministicReadsStoredState(s: RunningState, x: Batch, alpha: real, nl: Nonlinearity,
                                      invStd: seq<real>, roundPow2: real -> real)
    requires ForwardReady(s, x, true, invStd)
    ensures Forward(s, x, true, alpha, nl, invStd, roundPow2).state == s
    ensures Forward(s, x, true, alpha, nl, invStd, roundPow2).output == Apply(nl, Normalize(x, s.mean, s.std))
  {
  }

  /** Two deterministic passes in a row over the same input give the same output. */
  lemma DeterministicRepeatable(s: RunningState, x: Batch, alpha: real, nl: Nonlinearity,
                                invStd: seq<real>, roundPow2: real -> real)
    requires ForwardReady(s, x, true, invStd)
    ensures var first := Forward(s, x, true, alpha, nl, invStd, roundPow2);
      ForwardReady(first.state, x, true, invStd) &&
      Forward(first.state, x, true, alpha, nl, invStd, roundPow2) == first
  {
  }

  /**
   * In training mode the running mean and std move towards the batch mean
   * and the batch's UNQUANTISED inverse std by an exponential moving average.
   */
  lemma TrainingUpdatesByEma(s: RunningState, x: Batch, alpha: real, nl: Nonlinearity,
                             invStd: seq<real>, roundPow2: real -> real)
    requires ForwardReady(s, x, false, invStd)
    ensures var st := Forward(s, x, false, alpha, nl, invStd, roundPow2).state;
      |st.mean| == |s.mean| && |st.std| == |s.mean| &&
      forall p | 0 <= p < |s.mean| ::
        st.mean[p] == (1.0 - alpha) * s.mean[p] + alpha * BatchMean(x, |s.mean|)[p] &&
        st.std[p] == (1.0 - alpha) * s.std[p] + alpha * invStd[p]
  {
  }

  /**
   * In training mode the output is the input normalised by the batch mean and
   * the quantised batch inverse std: the zero-weighted running terms add
   * nothing, so the output does not depend on the running state at all.
   */
  lemma TrainingOutputUsesBatchStatistics(s: RunningState, x: Batch, alpha: real, nl: Nonlinearity,
                                          invStd: seq<real>, roundPow2: real -> real)
    requires ForwardReady(s, x, false, invStd)
    ensures Forward(s, x, false, alpha, nl, invStd, roundPow2).output ==
      Apply(nl, Normalize(x, BatchMean(x, |s.mean|), Quantise(invStd, roundPow2)))
  {
    var n := |s.mean|;
    var batchMean := BatchMean(x, n);
    var q := Quantise(invStd, roundPow2);
    assert seq(n, p requires 0 <= p < n => batchMean[p] + 0.0 * s.mean[p]) == batchMean;
    assert seq(n, p requires 0 <= p < n => q[p] + 0.0 * s.std[p]) == q;
  }

  /** Two training passes over the same batch from different running states return the same output. */
  lemma TrainingOutputIgnoresRunningState(s1: RunningState, s2: RunningState, x: Batch, alpha: real,
                                          nl: Nonlinearity, invStd: seq<real>, roundPow2: real -> real)
    requires ForwardReady(s1, x, false, invStd) && ForwardReady(s2, x, false, invStd)
    ensures Forward(s1, x, false, alpha, nl, invStd, roundPow2).output ==
            Forward(s2, x, false, alpha, nl, invStd, roundPow2).output
  {
    TrainingOutputUsesBatchStatistics(s1, x, alpha, nl, invStd, roundPow2);
    TrainingOutputUsesBatchStatistics(s2, x, alpha, nl, invStd, roundPow2);
  }

  /** The running state after `k` training passes over the same batch. */
  function TrainRepeatedly(s: RunningState, x: Batch, alpha: real, invStd: seq<real>,
                           roundPow2: real -> real, k: nat): (r: RunningState)
    requires ForwardReady(s, x, false, invStd)
    ensures |r.mean| == |s.mean| && |r.std| == |s.std|
  {
    if k == 0 then s
    else
      var prev := TrainRepeatedly(s, x, alpha, invStd, roundPow2, k - 1);
      Forward(prev, x, false, alpha, Identity, invStd, roundPow2).state
  }

  /**
   * After `k` training passes over the same batch, each running mean entry has
   * closed `1 - (1 - alpha)^k` of its distance to the batch mean, and each
   * running std entry the same share of its distance to the unquantised
   * inverse std.
   */
  lemma {:induction false} TrainRepeatedlyClosedForm(s: RunningState, x: Batch, alpha: real, invStd: seq<real>,
                                                     roundPow2: real -> real, k: nat, p: nat)
    requires ForwardReady(s, x, false, invStd) && p < |s.mean|
    ensures var r := TrainRepeatedly(s, x, alpha, invStd, roundPow2, k);
      var m := BatchMean(x, |s.mean|)[p];
      r.mean[p] == m + Pow(1.0 - alpha, k) * (s.mean[p] - m) &&
      r.std[p] == invStd[p] + Pow(1.0 - alpha, k) * (s.std[p] - invStd[p])
  {
    var m := BatchMean(x, |s.mean|)[p];
    TrainRepeatedlyIsEmaRepeat(s, x, alpha, invStd, roundPow2, k, p);
    EmaRepeatClosedForm(s.mean[p], m, alpha, k);
    EmaRepeatClosedForm(s.std[p], invStd[p], alpha, k);
  }

  lemma {:induction false} TrainRepeatedlyIsEmaRepeat(s: RunningState, x: Batch, alpha: real, invStd: seq<real>,
                                                      roundPow2: real -> real, k: nat, p: nat)
    requires ForwardReady(s, x, false, invStd) && p < |s.mean|
    ensures var r := TrainRepeatedly(s, x, alpha, invStd, roundPow2, k);
      r.mean[p] == EmaRepeat(s.mean[p], BatchMean(x, |s.mean|)[p], alpha, k) &&
      r.std[p] == EmaRepeat(s.std[p], invStd[p], alpha, k)
  {
    if k > 0 {
      TrainRepeatedlyIsEmaRepeat(s, x, alpha, invStd, roundPow2, k - 1, p);
      var prev := TrainRepeatedly(s, x, alpha, invStd, roundPow2, k - 1);
      TrainingUpdatesByEma(prev, x, alpha, Identity, invStd, roundPow2);
    }
  }

  /**
   * The worked example: the batch `[[1,2,3],[1,2,3],[1,2,3],[5,2,3]]` over axis 0,
   * `alpha = 0.125`, from the initial state. The running mean becomes
   * `0.125 * [2,2,3]`; the output is the centred batch `[[-1,0,0],...,[3,0,0]]`
   * times the quantised inverse std, so its last two columns are exactly 0.
   */
  lemma WorkedExample(invStd: seq<real>, roundPow2: real -> real)
    requires |invStd| == 3
    ensures var x: Batch := [[1.0, 2.0, 3.0], [1.0, 2.0, 3.0], [1.0, 2.0, 3.0], [5.0, 2.0, 3.0]];
      var q := roundPow2(invStd[0]);
      var st := Forward(RunningState(Filled(3, 0.0), Filled(3, 1.0)), x, false, 0.125, Identity, invStd, roundPow2);
      st.state.mean == [0.25, 0.25, 0.375] &&
      st.state.std == [0.875 + 0.125 * invStd[0], 0.875 + 0.125 * invStd[1], 0.875 + 0.125 * invStd[2]] &&
      st.output == [[-q, 0.0, 0.0], [-q, 0.0, 0.0], [-q, 0.0, 0.0], [3.0 * q, 0.0, 0.0]]
  {
    var x: Batch := [[1.0, 2.0, 3.0], [1.0, 2.0, 3.0], [1.0, 2.0, 3.0], [5.0, 2.0, 3.0]];
    var s := RunningState(Filled(3, 0.0), Filled(3, 1.0));
    WorkedExampleMean();
    TrainingOutputUsesBatchStatistics(s, x, 0.125, Identity, invStd, roundPow2);
    var q := Quantise(invStd, roundPow2);
    var y := Normalize(x, [2.0, 2.0, 3.0], q);
    assert q[0] == roundPow2(invStd[0]);
    assert y[0][0] == -q[0] && y[0][1] == 0.0 && y[0][2] == 0.0;
    assert y[3][0] == 3.0 * q[0] && y[3][1] == 0.0 && y[3][2] == 0.0;
    assert y[0] == y[1] == y[2] == [-q[0], 0.0, 0.0];
    assert y[3] == [3.0 * q[0], 0.0, 0.0];
  }

  class BatchNormShiftPow2Layer {
    const inputShape: Shape
    const axes: seq<int>
    const epsilon: real
    const alpha: real
    const nonlinearity: Nonlinearity
    const stateShape: seq<nat>
    var mean: seq<real>
    var std: seq<real>

    /** Both running statistics hold one entry per element of the state shape. */
    ghost predicate Valid()
      reads this
    {
      |mean| == Size(stateShape) && |std| == Size(stateShape)
    }

    function State(): RunningState
      reads this
    {
      RunningState(mean, std)
    }

    /**
     * Stores a derived configuration; the running mean starts at 0 and the
     * running std at 1. The broadcast flags of the configuration are not kept.
     */
    constructor (inputShape: Shape, config: Config, epsilon: real, alpha: real, nonlinearity: Option<Nonlinearity>)
      ensures Valid()
      ensures this.inputShape == inputShape && axes == config.axes
      ensures stateShape == config.stateShape
      ensures this.epsilon == epsilon && this.alpha == alpha
      ensures this.nonlinearity == (if nonlinearity.Some? then nonlinearity.value else Identity)
      ensures mean == Filled(Size(config.stateShape), 0.0) && std == Filled(Size(config.stateShape), 1.0)
    {
      this.inputShape := inputShape;
      axes := config.axes;
      this.epsilon := epsilon;
      this.alpha := alpha;
      this.nonlinearity := if nonlinearity.None? then Identity else nonlinearity.value;
      stateShape := config.stateShape;
      mean := Filled(Size(config.stateShape), 0.0);
      std := Filled(Size(config.stateShape), 1.0);
    }

    /**
     * The forward pass. `invStd` is the batch's unquantised inverse standard
     * deviation and `roundPow2` the rounding to the nearest power of two; both
     * are only used in training mode.
     */
    method GetOutputFor(input: Batch, deterministic: bool, invStd: seq<real>, roundPow2: real -> real)
      returns (out: Batch)
      requires Valid()
      requires ForwardReady(State(), input, deterministic, invStd)
      modifies this
      ensures Valid()
      ensures Step(out, State()) ==
        Forward(old(State()), input, deterministic, alpha, nonlinearity, invStd, roundPow2)
      ensures deterministic ==> mean == old(mean) && std == old(std)
    {
      var n := |mean|;
      if deterministic {
        out := Apply(nonlinearity, Normalize(input, mean, std));
      } else {
        var batchMean := BatchMean(input, n);
        var runningMean := mean;
        var runningStd := std;
        var q := Quantise(invStd, roundPow2);
        var m := seq(n, p requires 0 <= p < n => batchMean[p] + 0.0 * runningMean[p]);
        var s := seq(n, p requires 0 <= p < n => q[p] + 0.0 * runningStd[p]);
        out := Apply(nonlinearity, Normalize(input, m, s));
        mean := Ema(runningMean, batchMean, alpha);
        std := Ema(runningStd, invStd, alpha);
      }
    }
  }

  /**
   * The constructor: derive the configuration, raising the error `ConfigOf`
   * names, and otherwise allocate a layer with zero mean and unit std.
   */
  method Create(inputShape: Shape, axesArg: AxesArg, epsilon: real, alpha: real,
                nonlinearity: Option<Nonlinearity>)
    returns (r: Result<BatchNormShiftPow2Layer, ConfigError>)
    ensures r.Ok? <==> ConfigOf(inputShape, axesArg).Ok?
    ensures r.Err? ==> r.error == ConfigOf(inputShape, axesArg).error
    ensures r.Ok? ==> var c := ConfigOf(inputShape, axesArg).value;
      fresh(r.value) && r.value.Valid() &&
      r.value.inputShape == inputShape && r.value.axes == c.axes &&
      r.value.stateShape == c.stateShape &&
      r.value.epsilon == epsilon && r.value.alpha == alpha &&
      r.value.nonlinearity == (if nonlinearity.Some? then nonlinearity.value else Identity) &&
      r.value.mean == Filled(Size(c.stateShape), 0.0) && r.value.std == Filled(Size(c.stateShape), 1.0)
  {
    var config := Configure(inputShape, axesArg);
    if config.Err? {
      return Err(config.error);
    }
    var layer := new BatchNormShiftPow2Layer(inputShape, config.value, epsilon, alpha, nonlinearity);
    r := Ok(layer);
  }
}
