/**
 * The convenience helper that stacks a shift-based batch-normalisation layer
 * on an existing layer: the new layer takes over the old layer's
 * nonlinearity, and the old layer loses its bias parameter.
 */
module Wiring {
  import opened Wrappers
  import opened AxesConfig
  import opened BatchStats
  import opened ShiftBatchNorm

  type ParamId = nat

  /** The tags a parameter is registered with. */
  datatype Tag = Trainable | Regularizable

  /** A bias attribute and the parameter dictionary it is registered in. */
  datatype BiasSlot = BiasSlot(b: Option<ParamId>, params: map<ParamId, set<Tag>>)

  datatype WiringError =
    | KeyError                     // `del params[key]` with a key that is not there
    | ConstructionError(error: ConfigError)// the new layer's constructor raised

  /**
   * An existing layer, as far as the helper looks at it: its nonlinearity
   * (`None` when the attribute is missing or None), whether it has an
   * attribute `b`, the bias parameter it holds, and its parameters.
   */
  class Layer {
    var nonlinearity: Option<Nonlinearity>
    var hasBias: bool
    var b: Option<ParamId>
    var params: map<ParamId, set<Tag>>
    const outputShape: Shape

    /** A bias the layer holds is one of its registered parameters, and only a layer with the attribute `b` holds one. */
    ghost predicate Valid()
      reads this
    {
      (b.Some? ==> b.value in params) && (!hasBias ==> b.None?)
    }

    function Bias(): BiasSlot
      reads this
    {
      BiasSlot(b, params)
    }

    constructor (outputShape: Shape, nonlinearity: Option<Nonlinearity>, hasBias: bool,
                 b: Option<ParamId>, params: map<ParamId, set<Tag>>)
      requires b.Some? ==> b.value in params
      requires !hasBias ==> b.None?
      ensures Valid()
      ensures this.outputShape == outputShape && this.nonlinearity == nonlinearity
      ensures this.hasBias == hasBias && this.b == b && this.params == params
    {
      this.outputShape := outputShape;
      this.nonlinearity := nonlinearity;
      this.hasBias := hasBias;
      this.b := b;
      this.params := params;
    }
  }

  /**
   * The bias removal as written: whenever the attribute `b` exists, delete
   * `params[b]` and set `b` to None. Deleting a key that is not in the
   * dictionary (in particular the key None) raises.
   */
  function DropBiasAsWritten(hasBias: bool, slot: BiasSlot): Result<BiasSlot, WiringError>
  {
    if !hasBias then Ok(slot)
    else if slot.b.None? || slot.b.value !in slot.params then Err(KeyError)
    else Ok(BiasSlot(None, slot.params - {slot.b.value}))
  }

  /** A layer whose attribute `b` exists but is None makes the removal as written raise. */
  lemma DropBiasAsWrittenRaisesOnNoneBias(params: map<ParamId, set<Tag>>)
    ensures DropBiasAsWritten(true, BiasSlot(None, params)) == Err(KeyError)
  {
  }

  /** Applying the removal as written twice to the same layer raises the second time. */
  lemma DropBiasAsWrittenRaisesOnSecondUse(slot: BiasSlot)
    requires slot.b.Some? && slot.b.value in slot.params
    ensures DropBiasAsWritten(true, slot).Ok?
    ensures DropBiasAsWritten(true, DropBiasAsWritten(true, slot).value) == Err(KeyError)
  {
  }

  /**
   * The bias removal as intended: remove the bias parameter if the layer holds
   * one, leave a layer without a bias as it is.
   */
  function DropBias(hasBias: bool, slot: BiasSlot): (r: BiasSlot)
    requires slot.b.Some? ==> slot.b.value in slot.params
    ensures r.b.Some? ==> r.b.value in r.params
    ensures hasBias ==> r.b.None?
    ensures hasBias && slot.b.Some? ==> r.params.Keys == slot.params.Keys - {slot.b.value}
    ensures !(hasBias && slot.b.Some?) ==> r == slot
    ensures forall q | q in r.params :: q in slot.params && r.params[q] == slot.params[q]
  {
    if hasBias && slot.b.Some? then BiasSlot(None, slot.params - {slot.b.value}) else slot
  }

  /** Wherever the removal as written succeeds, the intended removal gives the same result. */
  lemma DropBiasAgreesWithAsWritten(hasBias: bool, slot: BiasSlot)
    requires slot.b.Some? ==> slot.b.value in slot.params
    ensures DropBiasAsWritten(hasBias, slot).Ok? ==> DropBiasAsWritten(hasBias, slot).value == DropBias(hasBias, slot)
    ensures DropBiasAsWritten(hasBias, slot).Err? <==> hasBias && slot.b.None?
  {
  }

  /** The intended removal can be applied to a layer any number of times. */
  lemma DropBiasIdempotent(hasBias: bool, slot: BiasSlot)
    requires slot.b.Some? ==> slot.b.value in slot.params
    ensures DropBias(hasBias, DropBias(hasBias, slot)) == DropBias(hasBias, slot)
  {
  }

  /**
   * The helper as written: steal the nonlinearity, delete the bias whenever the
   * attribute `b` exists (raising on a None bias, after the nonlinearity has
   * already been taken), then construct the new layer with the default axes.
   */
  method BatchNormPow2AsWritten(layer: Layer) returns (r: Result<BatchNormShiftPow2Layer, WiringError>)
    requires layer.Valid()
    modifies layer
    ensures layer.Valid()
    ensures layer.nonlinearity == (if old(layer.nonlinearity).Some? then Some(Identity) else None)
    ensures layer.hasBias == old(layer.hasBias)
    ensures DropBiasAsWritten(layer.hasBias, old(layer.Bias())).Err? ==>
      r == Err(KeyError) && layer.Bias() == old(layer.Bias())
    ensures DropBiasAsWritten(layer.hasBias, old(layer.Bias())).Ok? ==>
      layer.Bias() == DropBiasAsWritten(layer.hasBias, old(layer.Bias())).value &&
      (r.Ok? <==> ConfigOf(layer.outputShape, Default).Ok?) &&
      (r.Err? ==> r.error == ConstructionError(ConfigOf(layer.outputShape, Default).error))
    ensures DropBiasAsWritten(layer.hasBias, old(layer.Bias())).Ok? && r.Ok? ==>
      var c := ConfigOf(layer.outputShape, Default).value;
      fresh(r.value) && r.value.Valid() &&
      r.value.inputShape == layer.outputShape && r.value.axes == c.axes &&
      r.value.stateShape == c.stateShape &&
      r.value.nonlinearity == (if old(layer.nonlinearity).Some? then old(layer.nonlinearity).value else Identity) &&
      r.value.epsilon == 0.00001 && r.value.alpha == 0.125 &&
      r.value.mean == Filled(Size(c.stateShape), 0.0) && r.value.std == Filled(Size(c.stateShape), 1.0)
  {
    var nonlinearity := layer.nonlinearity;
    if nonlinearity.Some? {
      layer.nonlinearity := Some(Identity);
    }
    if layer.hasBias {
      if layer.b.None? || layer.b.value !in layer.params {
        return Err(KeyError);
      }
      layer.params := layer.params - {layer.b.value};
      layer.b := None;
    }
    var created := Create(layer.outputShape, Default, 0.00001, 0.125, nonlinearity);
    r := if created.Ok? then Ok(created.value) else Err(ConstructionError(created.error));
  }

  /**
   * The helper with the intended bias removal. The old layer's nonlinearity
   * slot becomes the identity and the new layer applies the stolen
   * nonlinearity (the identity when there was none); the old layer's bias is
   * removed from its parameters; the new layer has the default axes,
   * `epsilon = 1e-5` and `alpha = 0.125`, and its construction can still
   * raise a configuration error on the old layer's output shape.
   */
  method BatchNormPow2(layer: Layer) returns (r: Result<BatchNormShiftPow2Layer, WiringError>)
    requires layer.Valid()
    modifies layer
    ensures layer.Valid()
    ensures layer.nonlinearity == (if old(layer.nonlinearity).Some? then Some(Identity) else None)
    ensures layer.hasBias == old(layer.hasBias)
    ensures layer.Bias() == DropBias(layer.hasBias, old(layer.Bias()))
    ensures r.Ok? <==> ConfigOf(layer.outputShape, Default).Ok?
    ensures r.Err? ==> r.error == ConstructionError(ConfigOf(layer.outputShape, Default).error)
    ensures r.Ok? ==> var c := ConfigOf(layer.outputShape, Default).value;
      fresh(r.value) && r.value.Valid() &&
      r.value.inputShape == layer.outputShape && r.value.axes == c.axes &&
      r.value.stateShape == c.stateShape &&
      r.value.nonlinearity == (if old(layer.nonlinearity).Some? then old(layer.nonlinearity).value else Identity) &&
      r.value.epsilon == 0.00001 && r.value.alpha == 0.125 &&
      r.value.mean == Filled(Size(c.stateShape), 0.0) && r.value.std == Filled(Size(c.stateShape), 1.0)
  {
    var nonlinearity := layer.nonlinearity;
    if nonlinearity.Some? {
      layer.nonlinearity := Some(Identity);
    }
    if layer.hasBias && layer.b.Some? {
      layer.params := layer.params - {layer.b.value};
      layer.b := None;
    }
    var created := Create(layer.outputShape, Default, 0.00001, 0.125, nonlinearity);
    r := if created.Ok? then Ok(created.value) else Err(ConstructionError(created.error));
  }

  /**
   * A dense layer with a relu-like nonlinearity and a bias, output shape
   * `(None, 10)`: after the helper the dense layer applies the identity and
   * has no bias, and the new layer applies the stolen nonlinearity.
   */
  method DenseLayerExample(relu: Batch -> Batch, w: ParamId, bias: ParamId)
    requires w != bias
  {
    var dense := new Layer([None, Some(10)], Some(Function(relu)), true, Some(bias),
                           map[w := {Trainable, Regularizable}, bias := {Trainable}]);
    DenseInputExample();
    var r := BatchNormPow2(dense);
    assert r.Ok?;
    assert r.value.nonlinearity == Function(relu);
    assert dense.nonlinearity == Some(Identity);
    assert bias !in dense.params && w in dense.params && dense.b.None?;
    var again := BatchNormPow2AsWritten(dense);
    assert again == Err(KeyError);
  }
}
