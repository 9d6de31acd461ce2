/**
 * Configuration of a shift-based batch-normalisation layer at construction
 * time: which axes are reduced, the shape of the running statistics, and the
 * broadcast pattern, together with the one configuration error the layer
 * raises (and the index error Python raises for an axis that does not exist).
 */
module AxesConfig {
  import opened Wrappers

  /** A static input shape; `None` is a size that is not known until run time. */
  type Shape = seq<Option<nat>>

  /** The `axes` argument as a caller passes it: omitted, one int, or a tuple of ints. */
  datatype AxesArg = Default | Single(axis: int) | Several(axes: seq<int>)

  datatype ConfigError =
    | AxisOutOfRange   // `shape[axis] = 1` on an axis the input does not have (IndexError)
    | UnspecifiedSize  // a kept axis has unknown size (ValueError)

  /** What a successful construction derives from the input shape and the axes. */
  datatype Config = Config(axes: seq<int>, stateShape: seq<nat>, broadcast: seq<bool>)

  /** `(0,) + tuple(range(2, rank))`: every axis except the second. */
  function DefaultAxes(rank: nat): seq<int>
  {
    [0] + seq(if rank < 2 then 0 else rank - 2, k => k + 2)
  }

  /** Normalises the `axes` argument: default when omitted, an int wrapped in a one-element tuple. */
  function NormaliseAxes(arg: AxesArg, rank: nat): seq<int>
  {
    match arg
    case Default => DefaultAxes(rank)
    case Single(a) => [a]
    case Several(axes) => axes
  }

  /** Python list indexing: a negative axis counts from the end; anything else is out of range. */
  function ResolveAxis(rank: nat, axis: int): (i: Option<nat>)
    ensures i.Some? <==> -(rank as int) <= axis < rank
    ensures i.Some? ==> i.value < rank && (i.value == axis || i.value == axis + rank)
  {
    if 0 <= axis < rank then Some(axis)
    else if -(rank as int) <= axis < 0 then Some(axis + rank)
    else None
  }

  predicate AxesInRange(rank: nat, axes: seq<int>)
  {
    forall a | a in axes :: -(rank as int) <= a < rank
  }

  /** Position `i` of a rank-`rank` shape is one of the axes normalised over. */
  predicate Reduces(rank: nat, axes: seq<int>, i: nat)
  {
    exists a | a in axes :: ResolveAxis(rank, a) == Some(i)
  }

  /** The input shape with every reduced axis set to 1. */
  function StateShape(input: Shape, axes: seq<int>): (shape: Shape)
    ensures |shape| == |input|
  {
    seq(|input|, i requires 0 <= i < |input| =>
      if Reduces(|input|, axes, i) then Some(1) else input[i])
  }

  /** True exactly at the reduced axes. */
  function BroadcastFlags(rank: nat, axes: seq<int>): (flags: seq<bool>)
    ensures |flags| == rank
  {
    seq(rank, i requires 0 <= i < rank => Reduces(rank, axes, i))
  }

  predicate AllKnown(shape: Shape)
  {
    forall i | 0 <= i < |shape| :: shape[i].Some?
  }

  function Known(shape: Shape): (sizes: seq<nat>)
    requires AllKnown(shape)
    ensures |sizes| == |shape|
  {
    seq(|shape|, i requires 0 <= i < |shape| => shape[i].value)
  }

  /** Number of elements of a tensor of the given shape. */
  function Size(shape: seq<nat>): nat
  {
    if shape == [] then 1 else shape[0] * Size(shape[1..])
  }

  /** What the constructor derives, or the exception it raises. */
  function ConfigOf(input: Shape, arg: AxesArg): Result<Config, ConfigError>
  {
    var axes := NormaliseAxes(arg, |input|);
    if !AxesInRange(|input|, axes) then Err(AxisOutOfRange)
    else if !AllKnown(StateShape(input, axes)) then Err(UnspecifiedSize)
    else Ok(Config(axes, Known(StateShape(input, axes)), BroadcastFlags(|input|, axes)))
  }

  /**
   * The constructor's shape derivation: copy the input shape, then set the
   * size to 1 and the broadcast flag to true at each axis in turn, and finally
   * reject a shape with a size that is still unknown.
   */
  method Configure(input: Shape, arg: AxesArg) returns (r: Result<Config, ConfigError>)
    ensures r == ConfigOf(input, arg)
  {
    var rank := |input|;
    var axes := NormaliseAxes(arg, rank);
    var shape := input;
    var broadcast := seq(rank, _ => false);
    var k := 0;
    while k < |axes|
      invariant 0 <= k <= |axes|
      invariant AxesInRange(rank, axes[..k])
      invariant |shape| == rank && |broadcast| == rank
      invariant forall i | 0 <= i < rank ::
        shape[i] == (if Reduces(rank, axes[..k], i) then Some(1) else input[i])
      invariant forall i | 0 <= i < rank :: broadcast[i] == Reduces(rank, axes[..k], i)
    {
      var i := ResolveAxis(rank, axes[k]);
      if i.None? {
        assert axes[k] in axes && !(-(rank as int) <= axes[k] < rank);
        return Err(AxisOutOfRange);
      }
      assert axes[..k + 1] == axes[..k] + [axes[k]];
      shape := shape[i.value := Some(1)];
      broadcast := broadcast[i.value := true];
      k := k + 1;
    }
    assert axes[..k] == axes;
    assert shape == StateShape(input, axes);
    assert AxesInRange(rank, axes);
    if exists i | 0 <= i < rank :: shape[i].None? {
      return Err(UnspecifiedSize);
    }
    assert broadcast == BroadcastFlags(rank, axes);
    r := Ok(Config(axes, Known(shape), broadcast));
  }

  /** Omitted `axes` reduce exactly the axes 0, 2, 3, ..., rank - 1: every axis but the second. */
  lemma DefaultAxesReduceAllButSecond(rank: nat)
    requires rank >= 1
    ensures AxesInRange(rank, NormaliseAxes(Default, rank))
    ensures forall i | 0 <= i < rank :: Reduces(rank, NormaliseAxes(Default, rank), i) <==> i != 1
  {
    var axes := NormaliseAxes(Default, rank);
    forall a | a in axes ensures a == 0 || 2 <= a < rank {
      var k :| 0 <= k < |axes| && axes[k] == a;
    }
    forall i | 0 <= i < rank ensures Reduces(rank, axes, i) <==> i != 1 {
      if i == 0 {
        assert axes[0] == 0 && ResolveAxis(rank, 0) == Some(0);
      } else if i >= 2 {
        assert axes[i - 1] == i && ResolveAxis(rank, i) == Some(i);
      }
    }
  }

  /** A rank-0 input has no axis 0, so the default axes make the constructor raise an index error. */
  lemma DefaultAxesOnScalarInput()
    ensures ConfigOf([], Default) == Err(AxisOutOfRange)
  {
    assert 0 in NormaliseAxes(Default, 0);
  }

  /** An int `axes` behaves as the one-element tuple holding it: it reduces that axis and no other. */
  lemma SingleAxisReducesOnlyIt(rank: nat, a: int, i: nat)
    ensures Reduces(rank, NormaliseAxes(Single(a), rank), i) <==> ResolveAxis(rank, a) == Some(i)
  {
    if ResolveAxis(rank, a) == Some(i) {
      assert a in NormaliseAxes(Single(a), rank);
    }
  }

  /**
   * With every axis in range, construction fails with the configuration error
   * if and only if some axis that is not reduced has unknown size; an unknown
   * size on a reduced axis is accepted because it is overwritten with 1.
   */
  lemma ConfigFailsIffKeptAxisUnknown(input: Shape, arg: AxesArg)
    requires AxesInRange(|input|, NormaliseAxes(arg, |input|))
    ensures ConfigOf(input, arg).Err? <==>
      exists i | 0 <= i < |input| :: !Reduces(|input|, NormaliseAxes(arg, |input|), i) && input[i].None?
    ensures ConfigOf(input, arg).Err? ==> ConfigOf(input, arg).error == UnspecifiedSize
  {
    var axes := NormaliseAxes(arg, |input|);
    var shape := StateShape(input, axes);
    if !AllKnown(shape) {
      var i :| 0 <= i < |input| && shape[i].None?;
      assert !Reduces(|input|, axes, i) && input[i].None?;
    } else {
      forall i | 0 <= i < |input| && !Reduces(|input|, axes, i) ensures input[i].Some? {
        assert shape[i].Some?;
      }
    }
  }

  /**
   * A successful configuration keeps the input's rank, has size 1 at every
   * reduced axis and the input's size at every other axis, and is broadcastable
   * exactly at the reduced axes.
   */
  lemma ConfiguredShape(input: Shape, arg: AxesArg)
    requires ConfigOf(input, arg).Ok?
    ensures var c := ConfigOf(input, arg).value;
      c.axes == NormaliseAxes(arg, |input|) &&
      |c.stateShape| == |input| && |c.broadcast| == |input| &&
      forall i | 0 <= i < |input| ::
        (c.broadcast[i] <==> Reduces(|input|, c.axes, i)) &&
        (c.broadcast[i] ==> c.stateShape[i] == 1) &&
        (!c.broadcast[i] ==> input[i].Some? && c.stateShape[i] == input[i].value)
  {
    var axes := NormaliseAxes(arg, |input|);
    var shape := StateShape(input, axes);
    forall i | 0 <= i < |input| && !Reduces(|input|, axes, i) ensures input[i].Some? {
      assert shape[i] == input[i];
    }
  }

  /** A dense layer's output `(None, 10)` with the default axes: the batch axis is reduced and may be unknown. */
  lemma DenseInputExample()
    ensures ConfigOf([None, Some(10)], Default) == Ok(Config([0], [1, 10], [true, false]))
  {
    var input: Shape := [None, Some(10)];
    var axes := NormaliseAxes(Default, 2);
    assert axes == [0];
    assert Reduces(2, axes, 0) by { assert ResolveAxis(2, 0) == Some(0); }
    assert !Reduces(2, axes, 1);
    assert StateShape(input, axes) == [Some(1), Some(10)];
    assert Known(StateShape(input, axes)) == [1, 10];
    assert BroadcastFlags(2, axes) == [true, false];
  }

  /** Input `(None, None)` reduced over axis 0 only: the kept axis 1 is unknown, so construction raises. */
  lemma UnknownKeptAxisExample()
    ensures ConfigOf([None, None], Several([0])) == Err(UnspecifiedSize)
  {
    var input: Shape := [None, None];
    assert !Reduces(2, [0], 1);
    assert StateShape(input, [0])[1].None?;
  }

  /** A convolutional input `(None, 16, None, None)`: axes 0, 2, 3 are reduced; their unknown sizes are allowed. */
  lemma ConvInputExample()
    ensures ConfigOf([None, Some(16), None, None], Default) == Ok(Config([0, 2, 3], [1, 16, 1, 1], [true, false, true, true]))
  {
    var input: Shape := [None, Some(16), None, None];
    DefaultAxesReduceAllButSecond(4);
    var axes := NormaliseAxes(Default, 4);
    assert axes == [0, 2, 3];
    assert StateShape(input, axes) == [Some(1), Some(16), Some(1), Some(1)];
    assert Known(StateShape(input, axes)) == [1, 16, 1, 1];
    assert BroadcastFlags(4, axes) == [true, false, true, true];
  }
}
