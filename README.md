# Shift-based batch normalisation layer — Dafny model

This project models `BatchNormSfhitPow2Layer`, a Lasagne layer that performs
batch normalisation with power-of-two ("shift-based") scaling, and its wiring
helper `batch_norm_pow_2`, both in `Train-time/shift_batch_norm.py`. Three
parts of that file are modelled and proved:

1. **Construction** (`AxesConfig`, `ShiftBatchNorm.Create`). The `axes`
   argument is normalised: omitted means every axis but axis 1, and an int is
   wrapped in a one-element tuple. A loop (`AxesConfig.Configure`) then sets
   size 1 and the broadcast flag at each reduced axis. The constructor raises
   when a kept axis has unknown size. The running mean starts at 0 and the
   running std at 1.
2. **The forward pass** (`ShiftBatchNorm.Forward`, the class method
   `BatchNormShiftPow2Layer.GetOutputFor`). Deterministic mode reads the
   stored statistics and changes nothing. Training mode normalises with the
   batch mean and the quantised batch inverse std. It also replaces the
   running mean and std by exponential moving averages with weight `alpha`.
   The running std is fed the unquantised inverse std.
3. **The wiring helper** (`Wiring`). It moves the nonlinearity from the old
   layer to the new one and deletes the old layer's bias parameter.

Layout. A batch is a sequence of rows (`BatchStats.Batch`). There is one row
per combination of indices on the reduced axes. Each row has one entry per
element of the running state. The running state is a flat sequence of
`Size(stateShape)` reals. Reducing over the normalised axes is then averaging
a column, and broadcasting the state is indexing a row by column. Values are
mathematical reals.

The estimator's numerics (`log2`, `round`, `pow`, `sqrt`, `inv`) are not
modelled. The batch's unquantised inverse std (the value at line 89) is an
input `invStd`. The rounding to a power of two (line 99) is a function
parameter `roundPow2`. The batch mean is computed exactly as sum over count.

Modules: `Wrappers` (Option, Result), `AxesConfig`, `BatchStats`,
`ShiftBatchNorm` (the layer class, `Forward`, `Create`), `Wiring`.

Two points of the code that the model keeps as written:
- The running std is averaged with the unquantised inverse std. The default
  update at line 94 reads `std` before line 99 rebinds it, so the output and
  the running std use different values.
- Besides the `ValueError` of lines 51-53, `shape[axis] = 1` raises
  `IndexError` for an axis the input does not have, before that check runs.
  This is `ConfigError.AxisOutOfRange`; negative axes count from the end as
  in Python.

The broadcast flags are part of `AxesConfig.Config`, where
`ConfiguredShape` states them. The constructor builds them in a local list
(lines 47 and 50) and never stores or reads them, so the layer class does
not hold them.

## Model

| member | source | states |
|---|---|---|
| `AxesConfig.ResolveAxis` | Train-time/shift_batch_norm.py:48-49 | An axis indexes the shape list iff `-rank <= axis < rank`; a negative axis names position `axis + rank` |
| `AxesConfig.Configure` | Train-time/shift_batch_norm.py:35-53 | The constructor's loop over the axes, then the unknown-size check, yields exactly `ConfigOf`: the index error for a missing axis first, then the configuration error, otherwise the state shape and broadcast flags |
| `AxesConfig.DefaultAxesReduceAllButSecond` | Train-time/shift_batch_norm.py:35-37 | With `axes` omitted, for any rank ≥ 1 all axes are in range and axis `i` is reduced iff `i != 1` |
| `AxesConfig.DefaultAxesOnScalarInput` | Train-time/shift_batch_norm.py:35-49 | A rank-0 input with omitted `axes` raises the index error, since the default axes contain 0 |
| `AxesConfig.SingleAxisReducesOnlyIt` | Train-time/shift_batch_norm.py:38-39 | An int `axes` reduces exactly the one axis it names |
| `AxesConfig.ConfigFailsIffKeptAxisUnknown` | Train-time/shift_batch_norm.py:46-53 | With all axes in range, construction fails iff some non-reduced axis has unknown size, and then the error is the configuration error; unknown reduced axes are accepted |
| `AxesConfig.ConfiguredShape` | Train-time/shift_batch_norm.py:46-50 | A successful configuration keeps the rank, has size 1 at reduced axes and the input's known size elsewhere, and is broadcastable exactly at the reduced axes |
| `AxesConfig.DenseInputExample` | Train-time/shift_batch_norm.py:35-53 | Input `(None, 10)` with default axes gives axes `[0]`, state shape `[1, 10]`, flags `[true, false]` |
| `AxesConfig.UnknownKeptAxisExample` | Train-time/shift_batch_norm.py:46-53 | Input `(None, None)` with `axes=(0,)` raises the configuration error |
| `AxesConfig.ConvInputExample` | Train-time/shift_batch_norm.py:35-53 | Input `(None, 16, None, None)` with default axes gives axes `[0, 2, 3]`, state shape `[1, 16, 1, 1]` |
| `BatchStats.CenteredColumnsSumToZero` | Train-time/shift_batch_norm.py:73-80 | Centring the input on the batch mean leaves every state position's column summing to 0 |
| `BatchStats.BatchMeanOfRepeatedRow` | Train-time/shift_batch_norm.py:73 | The batch mean of identical rows is that row |
| `BatchStats.WorkedExampleMean` | Train-time/shift_batch_norm.py:73 | The batch `[[1,2,3],[1,2,3],[1,2,3],[5,2,3]]` over axis 0 has mean `[2,2,3]` |
| `BatchStats.EmaBetween` | Train-time/shift_batch_norm.py:77-78 | With `0 <= alpha <= 1`, each updated running value lies between its old value and the sample |
| `BatchStats.EmaFixedPoint` | Train-time/shift_batch_norm.py:77-78 | A running statistic equal to the sample is not changed by the update |
| `BatchStats.EmaRepeatClosedForm` | Train-time/shift_batch_norm.py:77-78 | After `k` updates with the same sample, the running value is `sample + (1-alpha)^k * (old - sample)` |
| `ShiftBatchNorm.DeterministicReadsStoredState` | Train-time/shift_batch_norm.py:67-70 | Deterministic mode returns `nonlinearity((input - mean) * std)` over the stored statistics and leaves them unchanged |
| `ShiftBatchNorm.DeterministicRepeatable` | Train-time/shift_batch_norm.py:103-107 | Two deterministic passes over the same input return the same output and the same state |
| `ShiftBatchNorm.TrainingUpdatesByEma` | Train-time/shift_batch_norm.py:76-95 | Training mode sets running mean to `(1-alpha)*old + alpha*batch_mean` and running std to `(1-alpha)*old + alpha*invStd`, with the unquantised `invStd` |
| `ShiftBatchNorm.TrainingOutputUsesBatchStatistics` | Train-time/shift_batch_norm.py:99-107 | Training mode returns `nonlinearity((input - batch_mean) * roundPow2(invStd))`; the `0 * running` terms add nothing |
| `ShiftBatchNorm.TrainingOutputIgnoresRunningState` | Train-time/shift_batch_norm.py:100-101 | The training-mode output is the same whatever the running state was |
| `ShiftBatchNorm.TrainRepeatedlyClosedForm` | Train-time/shift_batch_norm.py:76-95 | After `k` training passes over one batch, each running mean and std entry has closed `1-(1-alpha)^k` of its distance to the batch mean and the unquantised inverse std |
| `ShiftBatchNorm.WorkedExample` | Train-time/shift_batch_norm.py:66-107 | From the initial state, with `alpha = 0.125`, the worked batch gives running mean `[0.25, 0.25, 0.375]`, running std `0.875 + 0.125*invStd`, and output `[[-q,0,0],[-q,0,0],[-q,0,0],[3q,0,0]]` with `q` the quantised first inverse std |
| `ShiftBatchNorm.BatchNormShiftPow2Layer.constructor` | Train-time/shift_batch_norm.py:40-60 | Stores axes, epsilon, alpha and state shape; a missing nonlinearity becomes the identity; running mean all 0 and running std all 1 |
| `ShiftBatchNorm.BatchNormShiftPow2Layer.GetOutputFor` | Train-time/shift_batch_norm.py:66-107 | The returned output and the new running state are exactly `Forward` of the old state; deterministic mode changes neither field |
| `ShiftBatchNorm.Create` | Train-time/shift_batch_norm.py:17-60 | Construction succeeds iff `ConfigOf` does, raises its error otherwise, and yields a fresh layer with the derived configuration, zero mean and unit std |
| `Wiring.DropBiasAsWrittenRaisesOnNoneBias` | Train-time/shift_batch_norm.py:123-125 | Deleting the bias as written raises `KeyError` when the attribute `b` exists but is None |
| `Wiring.DropBiasAsWrittenRaisesOnSecondUse` | Train-time/shift_batch_norm.py:123-125 | Removing the bias as written succeeds once and raises `KeyError` when applied again to the same layer |
| `Wiring.DropBias` | Train-time/shift_batch_norm.py:123-125 | With attribute `b` present the bias becomes None and its parameter leaves the parameter set; other parameters keep their tags; without `b` nothing changes |
| `Wiring.DropBiasAgreesWithAsWritten` | Train-time/shift_batch_norm.py:123-125 | The removal as written raises iff `b` exists and is None; wherever it succeeds it agrees with the intended removal |
| `Wiring.DropBiasIdempotent` | Train-time/shift_batch_norm.py:123-125 | The intended removal applied twice equals applying it once |
| `Wiring.BatchNormPow2AsWritten` | Train-time/shift_batch_norm.py:109-126 | A non-None nonlinearity slot becomes the identity; on a None bias it raises `KeyError` after that, with the bias untouched; otherwise it removes the bias and returns the constructor's error or a new layer with the taken nonlinearity (identity if none), default axes, `epsilon = 1e-5`, `alpha = 0.125`, zero mean and unit std |
| `Wiring.BatchNormPow2` | Train-time/shift_batch_norm.py:109-126 | The old layer's nonlinearity slot becomes the identity and the new layer applies the stolen nonlinearity (identity if there was none); the bias is removed; the new layer has default axes, `epsilon = 1e-5`, `alpha = 0.125`, or the constructor's error is returned |

## Left out

- The power-of-two estimator of lines 80-89 and the rounding of line 99 (`log2`, `round`, `pow`, `sqrt`, `inv`). These are floating-point numerics. The unquantised inverse std is an input and the rounding is a function parameter, so the quantisation error bound is not stated.
- The zero guard on `log2(0)` at line 84. It only matters inside the estimator.
- Floating point. All values are reals, so `0 * running` is exactly 0. In floats it would turn an infinite or NaN running value into NaN.
- Theano's graph machinery: `theano.clone`, `default_update`, `T.addbroadcast`, lazy evaluation. The update is a direct field assignment at the end of the training branch.
- Multi-dimensional tensors and broadcasting. Batches use the flat row-by-state-position layout described above. An input whose kept axes do not match the state is excluded by a precondition (`ForwardReady`) rather than by a run-time shape error.
- `ShiftBatchNorm.BatchNormShiftPow2Layer.GetOutputFor`: in training mode it requires a non-empty batch, because Theano's mean over zero rows is NaN, which reals cannot express.
- The `centered` parameter (lines 55-56). It is created and never read or written.
- `add_param` registration and the tags of the layer's own running statistics. Parameter dictionaries are maps, so their insertion order is not modelled.
- The `incoming` argument as a layer object. `Create` takes the incoming layer's output shape, which is all the constructor reads from it. `**kwargs` such as a name are not modelled.
- Concurrent forward passes on one layer. The code has no concurrency logic.

## Findings

| source | as written | input that shows it | evidently intended | confidence | as-written member | corrected member |
|---|---|---|---|---|---|---|
| Train-time/shift_batch_norm.py:123-125 | `del layer.params[layer.b]` runs whenever the attribute `b` exists, even when it is None | applying `batch_norm_pow_2` twice to the same layer: the first call leaves `b = None`, the second deletes the key None and raises `KeyError`; likewise any layer built without a bias that still has `b = None` | remove the bias only when the layer holds one, as the docstring says ("will remove the layer's bias if there is one") | not executed | `Wiring.DropBiasAsWrittenRaisesOnSecondUse` | `Wiring.DropBias` |
