/**
 * The batch statistics and the running-average arithmetic of the layer, over
 * a flattened layout: a batch is a sequence of rows, one row per combination
 * of indices on the reduced axes, and each row has one entry per element of
 * the running state (the positions that survive the reduction). Averaging a
 * column is then the reduction over the normalised axes.
 */
module BatchStats {

  type Batch = seq<seq<real>>

  /** Every row has one entry per element of an `n`-element running state. */
  predicate WellShaped(x: Batch, n: nat)
  {
    forall j | 0 <= j < |x| :: |x[j]| == n
  }

  function ColumnSum(x: Batch, p: nat): real
    requires forall j | 0 <= j < |x| :: p < |x[j]|
  {
    if |x| == 0 then 0.0 else x[0][p] + ColumnSum(x[1..], p)
  }

  /** The batch mean over the reduced axes, kept in the running state's layout. */
  function BatchMean(x: Batch, n: nat): (m: seq<real>)
    requires |x| > 0 && WellShaped(x, n)
    ensures |m| == n
  {
    seq(n, p requires 0 <= p < n => ColumnSum(x, p) / (|x| as real))
  }

  /** `input - mean`, the mean broadcast over the reduced axes. */
  function Centered(x: Batch, m: seq<real>): (c: Batch)
    requires WellShaped(x, |m|)
    ensures |c| == |x| && WellShaped(c, |m|)
  {
    seq(|x|, j requires 0 <= j < |x| => seq(|m|, p requires 0 <= p < |m| => x[j][p] - m[p]))
  }

  lemma {:induction false} ColumnSumCentered(x: Batch, m: seq<real>, p: nat)
    requires WellShaped(x, |m|) && p < |m|
    ensures ColumnSum(Centered(x, m), p) == ColumnSum(x, p) - (|x| as real) * m[p]
  {
    if |x| > 0 {
      assert Centered(x, m)[1..] == Centered(x[1..], m);
      ColumnSumCentered(x[1..], m, p);
    }
  }

  /** Centering on the batch mean leaves every column summing to zero. */
  lemma CenteredColumnsSumToZero(x: Batch, n: nat, p: nat)
    requires |x| > 0 && WellShaped(x, n) && p < n
    ensures ColumnSum(Centered(x, BatchMean(x, n)), p) == 0.0
  {
    ColumnSumCentered(x, BatchMean(x, n), p);
  }

  lemma {:induction false} ColumnSumOfRepeatedRow(row: seq<real>, k: nat, p: nat)
    requires p < |row|
    ensures ColumnSum(seq(k, _ => row), p) == (k as real) * row[p]
  {
    if k > 0 {
      assert seq(k, _ => row)[1..] == seq(k - 1, _ => row);
      ColumnSumOfRepeatedRow(row, k - 1, p);
    }
  }

  /** A batch whose rows are all the same row has that row as its mean. */
  lemma BatchMeanOfRepeatedRow(row: seq<real>, k: nat)
    requires k > 0
    ensures BatchMean(seq(k, _ => row), |row|) == row
  {
    forall p | 0 <= p < |row| ensures BatchMean(seq(k, _ => row), |row|)[p] == row[p] {
      ColumnSumOfRepeatedRow(row, k, p);
    }
  }

  /** One exponential-moving-average step with weight `alpha` on the new sample. */
  function EmaStep(running: real, sample: real, alpha: real): real
  {
    (1.0 - alpha) * running + alpha * sample
  }

  /** The element-wise moving-average update of a running statistic. */
  function Ema(running: seq<real>, sample: seq<real>, alpha: real): (r: seq<real>)
    requires |running| == |sample|
    ensures |r| == |running|
  {
    seq(|running|, p requires 0 <= p < |running| => EmaStep(running[p], sample[p], alpha))
  }

  lemma ScaledBetween(a: real, d: real)
    requires 0.0 <= a <= 1.0 && 0.0 <= d
    ensures 0.0 <= a * d <= d && 0.0 <= (1.0 - a) * d
  {
    assert a * d + (1.0 - a) * d == d;
  }

  /** With a weight in [0, 1], each updated entry lies between the old value and the sample. */
  lemma EmaBetween(running: seq<real>, sample: seq<real>, alpha: real, p: nat)
    requires |running| == |sample| && p < |running| && 0.0 <= alpha <= 1.0
    ensures running[p] <= sample[p] ==> running[p] <= Ema(running, sample, alpha)[p] <= sample[p]
    ensures sample[p] <= running[p] ==> sample[p] <= Ema(running, sample, alpha)[p] <= running[p]
  {
    var r := Ema(running, sample, alpha)[p];
    assert r == running[p] + alpha * (sample[p] - running[p]);
    assert r == sample[p] + (1.0 - alpha) * (running[p] - sample[p]);
    if running[p] <= sample[p] {
      ScaledBetween(alpha, sample[p] - running[p]);
      assert alpha * (sample[p] - running[p]) == -(alpha * (running[p] - sample[p]));
      assert (1.0 - alpha) * (running[p] - sample[p]) == -((1.0 - alpha) * (sample[p] - running[p]));
    } else {
      ScaledBetween(alpha, running[p] - sample[p]);
      assert alpha * (sample[p] - running[p]) == -(alpha * (running[p] - sample[p]));
      assert (1.0 - alpha) * (running[p] - sample[p]) == -((1.0 - alpha) * (sample[p] - running[p]));
    }
  }

  /** A running statistic that already equals the sample is left as it is. */
  lemma EmaFixedPoint(s: seq<real>, alpha: real)
    ensures Ema(s, s, alpha) == s
  {
  }

  function Pow(c: real, k: nat): real
  {
    if k == 0 then 1.0 else c * Pow(c, k - 1)
  }

  /** The running value after `k` updates with the same sample. */
  function EmaRepeat(running: real, sample: real, alpha: real, k: nat): real
  {
    if k == 0 then running else EmaStep(EmaRepeat(running, sample, alpha, k - 1), sample, alpha)
  }

  lemma EmaStepAlgebra(alpha: real, sample: real, pk: real, d: real)
    ensures (1.0 - alpha) * (sample + pk * d) + alpha * sample == sample + ((1.0 - alpha) * pk) * d
  {
    var c := 1.0 - alpha;
    assert c * (sample + pk * d) == c * sample + c * (pk * d);
    assert c * sample + alpha * sample == sample;
    assert c * (pk * d) == (c * pk) * d;
  }

  /** After `k` updates with the same sample, the distance to it has shrunk by the factor `(1 - alpha)^k`. */
  lemma {:induction false} EmaRepeatClosedForm(running: real, sample: real, alpha: real, k: nat)
    ensures EmaRepeat(running, sample, alpha, k) == sample + Pow(1.0 - alpha, k) * (running - sample)
  {
    if k > 0 {
      EmaRepeatClosedForm(running, sample, alpha, k - 1);
      EmaStepAlgebra(alpha, sample, Pow(1.0 - alpha, k - 1), running - sample);
    }
  }

  /** The batch `[[1,2,3],[1,2,3],[1,2,3],[5,2,3]]` reduced over axis 0 has mean `[2,2,3]`. */
  lemma WorkedExampleMean()
    ensures BatchMean([[1.0, 2.0, 3.0], [1.0, 2.0, 3.0], [1.0, 2.0, 3.0], [5.0, 2.0, 3.0]], 3) == [2.0, 2.0, 3.0]
  {
    var x: Batch := [[1.0, 2.0, 3.0], [1.0, 2.0, 3.0], [1.0, 2.0, 3.0], [5.0, 2.0, 3.0]];
    assert x[1..][1..][1..][1..] == [];
    assert ColumnSum(x, 0) == 8.0;
    assert ColumnSum(x, 1) == 8.0;
    assert ColumnSum(x, 2) == 12.0;
  }
}
