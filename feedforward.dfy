/**
 * The untrained feed-forward network of src/PhpMachinist/NeuralNetworks/FeedForward: a list
 * of layers of neurons whose sizes are given up front, and a forward pass that feeds each
 * layer's outputs to the next.
 */
module FeedForward {
  import opened Numerics

  /** The parameters of one neuron, as a value. The bias is a PHP `int` property. */
  datatype Unit = Unit(weights: seq<real>, bias: int)

  /**
   * The bias a neuron starts with: `rand(-100, 100) / 100` stored in an `int` property,
   * so truncated toward zero. It is 1 or -1 only for the extreme draws, 0 otherwise.
   */
  function InitialBias(r: Draw): (b: int)
    ensures -1 <= b <= 1
    ensures b == 1 <==> r == 100
    ensures b == -1 <==> r == -100
  {
    TruncateToInt(Scaled(r))
  }

  /** How often a `for ($i = 0; $i < $n; $i++)` loop runs: n times, or never when n < 0. */
  function Count(n: int): nat
  {
    if n < 0 then 0 else n
  }

  /** The number of weights asked of a neuron in layer x: the size of layer 0 for layer 0,
      one more than the size of the previous layer after it. */
  function NumInputs(sizes: seq<int>, x: nat): int
    requires x < |sizes|
  {
    if x == 0 then sizes[0] else sizes[x - 1] + 1
  }

  /** The layers have the sizes given and each neuron the number of weights NumInputs asks
      for, a negative size giving an empty layer or a neuron without weights. */
  predicate Shaped(layers: seq<seq<Unit>>, sizes: seq<int>)
  {
    && |layers| == |sizes|
    && (forall x :: 0 <= x < |layers| ==> |layers[x]| == Count(sizes[x]))
    && (forall x, y :: 0 <= x < |layers| && 0 <= y < |layers[x]| ==>
          |layers[x][y].weights| == Count(NumInputs(sizes, x)))
  }

  /** The length of the list layer x receives: the network's input for layer 0, the previous
      layer's outputs after it. */
  function Width(layers: seq<seq<Unit>>, width: nat, x: nat): nat
    requires x < |layers|
  {
    if x == 0 then width else |layers[x - 1]|
  }

  /** Every neuron has a weight for each value its layer receives. */
  predicate Accepts(layers: seq<seq<Unit>>, width: nat)
  {
    forall x, y :: 0 <= x < |layers| && 0 <= y < |layers[x]| ==>
      Width(layers, width, x) <= |layers[x][y].weights|
  }

  /** sigmoid(bias + sum of inputs[i] * weights[i] over the inputs). */
  function Activation(exp: ExpFn, u: Unit, inputs: seq<real>): real
    requires IsExp(exp) && |inputs| <= |u.weights|
  {
    Sigmoid(exp, u.bias as real + Dot(inputs, u.weights))
  }

  function LayerOutput(exp: ExpFn, layer: seq<Unit>, inputs: seq<real>): (out: seq<real>)
    requires IsExp(exp) && forall y :: 0 <= y < |layer| ==> |inputs| <= |layer[y].weights|
    ensures |out| == |layer|
    ensures forall y :: 0 <= y < |out| ==> 0.0 < out[y] < 1.0
  {
    seq(|layer|, y requires 0 <= y < |layer| => Activation(exp, layer[y], inputs))
  }

  /** The outputs after the first `count` layers. */
  function Propagate(exp: ExpFn, layers: seq<seq<Unit>>, inputs: seq<real>, count: nat): (out: seq<real>)
    requires IsExp(exp) && count <= |layers| && Accepts(layers, |inputs|)
    ensures |out| == if count == 0 then |inputs| else |layers[count - 1]|
  {
    if count == 0 then inputs
    else
      var previous := Propagate(exp, layers, inputs, count - 1);
      assert |previous| == Width(layers, |inputs|, count - 1);
      LayerOutput(exp, layers[count - 1], previous)
  }

  /** Two networks whose neurons agree on the biases and on every weight the forward pass reads. */
  predicate SameReadParameters(layers: seq<seq<Unit>>, other: seq<seq<Unit>>, width: nat)
  {
    && |layers| == |other|
    && (forall x :: 0 <= x < |layers| ==> |layers[x]| == |other[x]|)
    && (forall x, y :: 0 <= x < |layers| && 0 <= y < |layers[x]| ==>
          var w := Width(layers, width, x);
          && layers[x][y].bias == other[x][y].bias
          && w <= |layers[x][y].weights| && w <= |other[x][y].weights|
          && layers[x][y].weights[..w] == other[x][y].weights[..w])
  }

  // ---------------------------------------------------------------------------
  // Properties

  /** The inputs a network of these sizes can take: no more values than the first layer's
      neurons have weights, unless that layer is empty. */
  predicate Fits(sizes: seq<int>, inputs: seq<real>)
  {
    |sizes| > 0 && sizes[0] > 0 ==> |inputs| <= sizes[0]
  }

  /**
   * A network built from layer sizes accepts any input that fits; its output has one value
   * per neuron of the last layer (none when that size is negative, the input itself when
   * there are no layers), each strictly between 0 and 1.
   */
  lemma ForwardShape(exp: ExpFn, layers: seq<seq<Unit>>, sizes: seq<int>, inputs: seq<real>)
    requires IsExp(exp) && Shaped(layers, sizes) && Fits(sizes, inputs)
    ensures Accepts(layers, |inputs|)
    ensures var out := Propagate(exp, layers, inputs, |layers|);
            && (|sizes| == 0 ==> out == inputs)
            && (|sizes| > 0 ==> |out| == Count(sizes[|sizes| - 1]) && forall k :: 0 <= k < |out| ==> 0.0 < out[k] < 1.0)
  {
    assert Accepts(layers, |inputs|) by {
      forall x, y | 0 <= x < |layers| && 0 <= y < |layers[x]|
        ensures Width(layers, |inputs|, x) <= |layers[x][y].weights|
      {
        assert |layers[x][y].weights| == Count(NumInputs(sizes, x));
      }
    }
  }

  /** A neuron reads only as many weights as it receives values. */
  lemma ActivationReadsPrefix(exp: ExpFn, u: Unit, v: Unit, inputs: seq<real>)
    requires IsExp(exp) && |inputs| <= |u.weights| && |inputs| <= |v.weights|
    requires u.bias == v.bias && u.weights[..|inputs|] == v.weights[..|inputs|]
    ensures Activation(exp, u, inputs) == Activation(exp, v, inputs)
  {
    DotOnlyReadsPrefix(inputs, u.weights, v.weights);
  }

  /**
   * The forward pass reads, of each neuron after layer 0, only the weights for the
   * previous layer's outputs: the extra weight NumInputs adds is never used.
   */
  lemma {:induction false} PropagateReadsPrefix(exp: ExpFn, layers: seq<seq<Unit>>, other: seq<seq<Unit>>,
                                                inputs: seq<real>, count: nat)
    requires IsExp(exp) && count <= |layers| && SameReadParameters(layers, other, |inputs|)
    ensures Accepts(layers, |inputs|) && Accepts(other, |inputs|)
    ensures Propagate(exp, layers, inputs, count) == Propagate(exp, other, inputs, count)
  {
    assert Accepts(other, |inputs|) by {
      forall x, y | 0 <= x < |other| && 0 <= y < |other[x]|
        ensures Width(other, |inputs|, x) <= |other[x][y].weights|
      {
        assert Width(other, |inputs|, x) == Width(layers, |inputs|, x);
      }
    }
    if count > 0 {
      PropagateReadsPrefix(exp, layers, other, inputs, count - 1);
      var previous := Propagate(exp, layers, inputs, count - 1);
      var a := LayerOutput(exp, layers[count - 1], previous);
      var b := LayerOutput(exp, other[count - 1], previous);
      forall y | 0 <= y < |a|
        ensures a[y] == b[y]
      {
        ActivationReadsPrefix(exp, layers[count - 1][y], other[count - 1][y], previous);
      }
    }
  }

  /** Changing the last weight of a neuron after layer 0 does not change the network's output. */
  lemma LastWeightUnused(exp: ExpFn, layers: seq<seq<Unit>>, sizes: seq<int>, inputs: seq<real>,
                         x: nat, y: nat, w: real)
    requires IsExp(exp) && Shaped(layers, sizes) && Fits(sizes, inputs)
    requires 0 < x < |layers| && y < |layers[x]| && layers[x][y].weights != []
    ensures var u := layers[x][y];
            var changed := layers[x := layers[x][y := u.(weights := u.weights[|u.weights| - 1 := w])]];
            && Shaped(changed, sizes)
            && Propagate(exp, layers, inputs, |layers|) == Propagate(exp, changed, inputs, |layers|)
  {
    var u := layers[x][y];
    var u' := u.(weights := u.weights[|u.weights| - 1 := w]);
    var changed := layers[x := layers[x][y := u']];
    assert |u.weights| == sizes[x - 1] + 1;
    assert u.weights[..sizes[x - 1]] == u'.weights[..sizes[x - 1]];
    ForwardShape(exp, layers, sizes, inputs);
    PropagateReadsPrefix(exp, layers, changed, inputs, |layers|);
  }

  // ---------------------------------------------------------------------------
  // The classes

  /** A neuron. Its weights and bias are set by the constructor and never change. */
  class Neuron {
    const weights: seq<real>
    const bias: int
    /** The exponential used by the sigmoid. */
    const exp: ExpFn

    /** `rand` gives the k-th draw of `rand(-100, 100)`: one per weight, then one for the bias. */
    constructor (numInputs: int, rand: nat -> Draw, exp: ExpFn)
      ensures weights == seq(Count(numInputs), i requires 0 <= i => Scaled(rand(i)))
      ensures bias == InitialBias(rand(Count(numInputs))) && this.exp == exp
    {
      var w: seq<real> := [];
      var i: nat := 0;
      while i < numInputs
        invariant i <= Count(numInputs)
        invariant w == seq(i, k requires 0 <= k => Scaled(rand(k)))
      {
        w := w + [Scaled(rand(i))];
        i := i + 1;
      }
      weights := w;
      bias := InitialBias(rand(i));
      this.exp := exp;
    }

    function AsUnit(): Unit
    {
      Unit(weights, bias)
    }

    method Activate(inputs: seq<real>) returns (r: real)
      requires IsExp(exp) && |inputs| <= |weights|
      ensures r == Activation(exp, AsUnit(), inputs)
    {
      var sum: real := bias as real;
      for i := 0 to |inputs|
        invariant sum == bias as real + Dot(inputs[..i], weights)
      {
        assert inputs[..i + 1][..i] == inputs[..i];
        sum := sum + inputs[i] * weights[i];
      }
      assert inputs[..|inputs|] == inputs;
      r := Sigmoid(exp, sum);
    }
  }

  /** The parameters of every neuron, as values. */
  function Cells(layers: seq<seq<Neuron>>): (cs: seq<seq<Unit>>)
    ensures |cs| == |layers|
    ensures forall x :: 0 <= x < |layers| ==> |cs[x]| == |layers[x]|
    ensures forall x, y :: 0 <= x < |layers| && 0 <= y < |layers[x]| ==> cs[x][y] == layers[x][y].AsUnit()
  {
    seq(|layers|, x requires 0 <= x < |layers| =>
      seq(|layers[x]|, y requires 0 <= y < |layers[x]| => layers[x][y].AsUnit()))
  }

  class NeuralNetwork {
    const layers: seq<seq<Neuron>>
    /** The layer sizes the network was built from. */
    ghost const layerSizes: seq<int>
    /** The exponential every neuron's sigmoid uses. */
    const exp: ExpFn

    ghost predicate Valid()
    {
      && IsExp(exp)
      && Shaped(Cells(layers), layerSizes)
      && (forall x, y :: 0 <= x < |layers| && 0 <= y < |layers[x]| ==> layers[x][y].exp == exp)
    }

    /** `rand(x, y)` gives the draws of neuron y of layer x. */
    constructor (layerSizes: seq<int>, rand: (nat, nat) -> (nat -> Draw), exp: ExpFn)
      requires IsExp(exp)
      ensures Valid() && this.layerSizes == layerSizes && this.exp == exp
      ensures |layers| == |layerSizes|
      ensures forall x :: 0 <= x < |layers| ==> |layers[x]| == Count(layerSizes[x])
      ensures forall x, y :: 0 <= x < |layers| && 0 <= y < |layers[x]| ==>
                var numInputs := Count(NumInputs(layerSizes, x));
                && layers[x][y].weights == seq(numInputs, i requires 0 <= i => Scaled(rand(x, y)(i)))
                && layers[x][y].bias == InitialBias(rand(x, y)(numInputs))
    {
      var built: seq<seq<Neuron>> := [];
      for x := 0 to |layerSizes|
        invariant |built| == x
        invariant forall x', y :: 0 <= x' < x && 0 <= y < |built[x']| ==>
                    built[x'][y].weights == seq(Count(NumInputs(layerSizes, x')), i requires 0 <= i => Scaled(rand(x', y)(i)))
                    && built[x'][y].bias == InitialBias(rand(x', y)(Count(NumInputs(layerSizes, x'))))
                    && built[x'][y].exp == exp
        invariant forall x' :: 0 <= x' < x ==> |built[x']| == Count(layerSizes[x'])
      {
        var numInputs := if x == 0 then layerSizes[x] else layerSizes[x - 1] + 1;
        var numNeurons := layerSizes[x];
        var layer: seq<Neuron> := [];
        var y: nat := 0;
        while y < numNeurons
          invariant y <= Count(numNeurons)
          invariant |layer| == y
          invariant forall y' :: 0 <= y' < y ==>
                      layer[y'].weights == seq(Count(numInputs), i requires 0 <= i => Scaled(rand(x, y')(i)))
                      && layer[y'].bias == InitialBias(rand(x, y')(Count(numInputs)))
                      && layer[y'].exp == exp
        {
          var n := new Neuron(numInputs, rand(x, y), exp);
          layer := layer + [n];
          y := y + 1;
        }
        built := built + [layer];
      }
      layers := built;
      this.layerSizes := layerSizes;
      this.exp := exp;
    }

    /** The inner loop of `forward`: the outputs of layer x for the given values. */
    method ForwardLayer(x: nat, values: seq<real>) returns (out: seq<real>)
      requires Valid() && x < |layers|
      requires forall y :: 0 <= y < |layers[x]| ==> |values| <= |layers[x][y].weights|
      ensures out == LayerOutput(exp, Cells(layers)[x], values)
    {
      ghost var layer := Cells(layers)[x];
      out := [];
      for y := 0 to |layers[x]|
        invariant |out| == y
        invariant forall k :: 0 <= k < y ==> out[k] == Activation(exp, layer[k], values)
      {
        var v := layers[x][y].Activate(values);
        out := out + [v];
      }
    }

    method Forward(inputs: seq<real>) returns (outputs: seq<real>)
      requires Valid() && Fits(layerSizes, inputs)
      ensures Accepts(Cells(layers), |inputs|) && outputs == Propagate(exp, Cells(layers), inputs, |layers|)
    {
      ghost var cells := Cells(layers);
      ForwardShape(exp, cells, layerSizes, inputs);
      outputs := inputs;
      for x := 0 to |layers|
        invariant outputs == Propagate(exp, cells, inputs, x)
      {
        assert |outputs| == Width(cells, |inputs|, x);
        outputs := ForwardLayer(x, outputs);
      }
    }
  }
}
