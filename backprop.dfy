/**
 * The two-layer network trained by backpropagation in
 * src/PhpMachinist/NeuralNetworks/BackpropagationFeedForward: a neuron class holding a
 * weight list and a bias, and a network of hidden and output neurons whose training step
 * computes every delta from the weights as they were before any of them is changed.
 */
module Backpropagation {
  import opened Numerics

  /** The parameters of one neuron, as a value. */
  datatype Unit = Unit(weights: seq<real>, bias: real)

  /** The parameters of the network: hidden layer, then output layer. */
  datatype Net = Net(hidden: seq<Unit>, output: seq<Unit>)

  /** Every neuron of the layer has `width` weights. */
  predicate Fits(layer: seq<Unit>, width: nat)
  {
    forall i :: 0 <= i < |layer| ==> |layer[i].weights| == width
  }

  /** Every neuron of the layer has a weight for each of `width` inputs. */
  predicate Covers(layer: seq<Unit>, width: nat)
  {
    forall i :: 0 <= i < |layer| ==> width <= |layer[i].weights|
  }

  /** sigmoid(sum of input[i] * weights[i] over the input, plus the bias). */
  function Activation(exp: ExpFn, u: Unit, input: seq<real>): real
    requires IsExp(exp) && |input| <= |u.weights|
  {
    Sigmoid(exp, Dot(input, u.weights) + u.bias)
  }

  /** The outputs of a layer, one per neuron, each strictly between 0 and 1. */
  function LayerOutput(exp: ExpFn, layer: seq<Unit>, input: seq<real>): (out: seq<real>)
    requires IsExp(exp) && forall i :: 0 <= i < |layer| ==> |input| <= |layer[i].weights|
    ensures |out| == |layer|
    ensures forall i :: 0 <= i < |out| ==> 0.0 < out[i] < 1.0
  {
    seq(|layer|, i requires 0 <= i < |layer| => Activation(exp, layer[i], input))
  }

  /** The prediction: the output layer applied to the hidden layer's outputs. */
  function Forward(exp: ExpFn, net: Net, input: seq<real>): seq<real>
    requires IsExp(exp) && Covers(net.hidden, |input|) && Fits(net.output, |net.hidden|)
  {
    LayerOutput(exp, net.output, LayerOutput(exp, net.hidden, input))
  }

  /** error * sigmoidDerivative(activation), the form of every delta. */
  function Delta(error: real, activation: real): real
  {
    error * SigmoidDerivative(activation)
  }

  function OutputDeltas(target: seq<real>, output: seq<real>): seq<real>
    requires |target| >= |output|
  {
    seq(|output|, i requires 0 <= i < |output| => Delta(target[i] - output[i], output[i]))
  }

  /** The error fed back to hidden neuron i: the sum over j < count of deltas[j] * layer[j].weights[i]. */
  function BackError(deltas: seq<real>, layer: seq<Unit>, i: nat, count: nat): real
    requires count <= |deltas| && count <= |layer|
    requires forall j :: 0 <= j < count ==> i < |layer[j].weights|
  {
    if count == 0 then 0.0
    else BackError(deltas, layer, i, count - 1) + deltas[count - 1] * layer[count - 1].weights[i]
  }

  function HiddenDeltas(deltas: seq<real>, output: seq<Unit>, hidden: seq<real>): seq<real>
    requires |deltas| == |output| && Fits(output, |hidden|)
  {
    seq(|hidden|, i requires 0 <= i < |hidden| => Delta(BackError(deltas, output, i, |deltas|), hidden[i]))
  }

  /** `$w += learningRate * delta * x`. */
  function Nudge(w: real, lr: real, delta: real, x: real): real
  {
    w + lr * delta * x
  }

  /** `$bias += learningRate * delta`. */
  function Shift(b: real, lr: real, delta: real): real
  {
    b + lr * delta
  }

  /** A neuron after its update: weight j by lr * delta * x[j], the bias by lr * delta. */
  function Moved(u: Unit, lr: real, delta: real, x: seq<real>): Unit
    requires |u.weights| <= |x|
  {
    Unit(seq(|u.weights|, j requires 0 <= j < |u.weights| => Nudge(u.weights[j], lr, delta, x[j])),
         Shift(u.bias, lr, delta))
  }

  function UpdateLayer(layer: seq<Unit>, deltas: seq<real>, x: seq<real>, lr: real): seq<Unit>
    requires |deltas| == |layer| && forall i :: 0 <= i < |layer| ==> |layer[i].weights| <= |x|
  {
    seq(|layer|, i requires 0 <= i < |layer| => Moved(layer[i], lr, deltas[i], x))
  }

  /**
   * One `backPropagation` call on the parameters: both delta lists come from the
   * parameters before the call, and only then is every neuron moved.
   */
  function Step(exp: ExpFn, net: Net, lr: real, input: seq<real>, target: seq<real>): Net
    requires IsExp(exp) && Fits(net.hidden, |input|) && Fits(net.output, |net.hidden|)
    requires |target| >= |net.output|
  {
    var h := LayerOutput(exp, net.hidden, input);
    var o := LayerOutput(exp, net.output, h);
    var od := OutputDeltas(target, o);
    var hd := HiddenDeltas(od, net.output, h);
    Net(UpdateLayer(net.hidden, hd, input, lr), UpdateLayer(net.output, od, h, lr))
  }

  // ---------------------------------------------------------------------------
  // Properties

  /** The prediction has one value per output neuron, each strictly between 0 and 1, for
      any input no longer than the hidden neurons' weight lists. */
  lemma ForwardShape(exp: ExpFn, net: Net, input: seq<real>)
    requires IsExp(exp) && Covers(net.hidden, |input|) && Fits(net.output, |net.hidden|)
    ensures |Forward(exp, net, input)| == |net.output|
    ensures forall k :: 0 <= k < |net.output| ==> 0.0 < Forward(exp, net, input)[k] < 1.0
  {
  }

  /**
   * An output delta (t - o) * o * (1 - o) for an activation o in (0, 1) has the sign of
   * the error t - o and at most a quarter of its size.
   */
  lemma DeltaSign(error: real, o: real)
    requires 0.0 < o < 1.0
    ensures error > 0.0 ==> 0.0 < Delta(error, o) <= error / 4.0
    ensures error < 0.0 ==> error / 4.0 <= Delta(error, o) < 0.0
    ensures error == 0.0 <==> Delta(error, o) == 0.0
  {
    var d := SigmoidDerivative(o);
    assert 0.0 < d <= 0.25;
    if error > 0.0 {
      assert error * d <= error * 0.25;
    } else if error < 0.0 {
      assert error * d >= error * 0.25;
    }
  }

  /** A step keeps the number of neurons in each layer and the number of weights of each. */
  lemma StepKeepsShape(exp: ExpFn, net: Net, lr: real, input: seq<real>, target: seq<real>)
    requires IsExp(exp) && Fits(net.hidden, |input|) && Fits(net.output, |net.hidden|)
    requires |target| >= |net.output|
    ensures var r := Step(exp, net, lr, input, target);
            && |r.hidden| == |net.hidden| && |r.output| == |net.output|
            && Fits(r.hidden, |input|) && Fits(r.output, |net.hidden|)
  {
  }

  /** With learning rate 0 a step changes no parameter. */
  lemma StepWithoutLearning(exp: ExpFn, net: Net, input: seq<real>, target: seq<real>)
    requires IsExp(exp) && Fits(net.hidden, |input|) && Fits(net.output, |net.hidden|)
    requires |target| >= |net.output|
    ensures Step(exp, net, 0.0, input, target) == net
  {
    var r := Step(exp, net, 0.0, input, target);
    forall i | 0 <= i < |net.hidden|
      ensures r.hidden[i] == net.hidden[i]
    {
      assert r.hidden[i].weights == net.hidden[i].weights;
    }
    forall i | 0 <= i < |net.output|
      ensures r.output[i] == net.output[i]
    {
      assert r.output[i].weights == net.output[i].weights;
    }
    assert r.hidden == net.hidden;
    assert r.output == net.output;
  }


  /**
   * How far each output parameter moves: weight j of output neuron i by
   * lr * outDelta_i * h_j and its bias by lr * outDelta_i, with h the hidden outputs and
   * outDelta_i = (target_i - o_i) * o_i * (1 - o_i) for the output o before the step.
   */
  lemma StepMovesOutput(exp: ExpFn, net: Net, lr: real, input: seq<real>, target: seq<real>, i: nat, j: nat)
    requires IsExp(exp) && Fits(net.hidden, |input|) && Fits(net.output, |net.hidden|)
    requires |target| >= |net.output|
    requires i < |net.output|
    ensures var h := LayerOutput(exp, net.hidden, input);
            var o := LayerOutput(exp, net.output, h);
            var od := Delta(target[i] - o[i], o[i]);
            var r := Step(exp, net, lr, input, target).output[i];
            && r.bias == Shift(net.output[i].bias, lr, od)
            && (j < |net.hidden| ==> r.weights[j] == Nudge(net.output[i].weights[j], lr, od, h[j]))
  {
    var h := LayerOutput(exp, net.hidden, input);
    var o := LayerOutput(exp, net.output, h);
    var od := OutputDeltas(target, o);
    var d := od[i];
    assert d == Delta(target[i] - o[i], o[i]);
    assert Step(exp, net, lr, input, target).output[i] == Moved(net.output[i], lr, d, h);
  }

  /**
   * How far each hidden parameter moves: weight j of hidden neuron i by
   * lr * hidDelta_i * input_j and its bias by lr * hidDelta_i, where hidDelta_i feeds the
   * output deltas back through the output weights as they were before the step.
   */
  lemma StepMovesHidden(exp: ExpFn, net: Net, lr: real, input: seq<real>, target: seq<real>, i: nat, j: nat)
    requires IsExp(exp) && Fits(net.hidden, |input|) && Fits(net.output, |net.hidden|)
    requires |target| >= |net.output|
    requires i < |net.hidden|
    ensures var h := LayerOutput(exp, net.hidden, input);
            var o := LayerOutput(exp, net.output, h);
            var hd := Delta(BackError(OutputDeltas(target, o), net.output, i, |net.output|), h[i]);
            var r := Step(exp, net, lr, input, target).hidden[i];
            && r.bias == Shift(net.hidden[i].bias, lr, hd)
            && (j < |input| ==> r.weights[j] == Nudge(net.hidden[i].weights[j], lr, hd, input[j]))
  {
    var h := LayerOutput(exp, net.hidden, input);
    var o := LayerOutput(exp, net.output, h);
    var hd := HiddenDeltas(OutputDeltas(target, o), net.output, h);
    var d := hd[i];
    assert d == Delta(BackError(OutputDeltas(target, o), net.output, i, |net.output|), h[i]);
    assert Step(exp, net, lr, input, target).hidden[i] == Moved(net.hidden[i], lr, d, input);
  }

  /** Step, given its intermediate values. */
  lemma StepFromParts(exp: ExpFn, net: Net, lr: real, input: seq<real>, target: seq<real>,
                      h: seq<real>, o: seq<real>, od: seq<real>, hd: seq<real>)
    requires IsExp(exp) && Fits(net.hidden, |input|) && Fits(net.output, |net.hidden|)
    requires |target| >= |net.output|
    requires h == LayerOutput(exp, net.hidden, input) && o == LayerOutput(exp, net.output, h)
    requires od == OutputDeltas(target, o) && hd == HiddenDeltas(od, net.output, h)
    ensures Step(exp, net, lr, input, target) == Net(UpdateLayer(net.hidden, hd, input, lr), UpdateLayer(net.output, od, h, lr))
  {
  }

  // ---------------------------------------------------------------------------
  // The classes

  class Neuron {
    var weights: seq<real>
    var bias: real
    /** The exponential used by the sigmoid. */
    const exp: ExpFn

    /** The parameters as a value. */
    ghost function AsUnit(): Unit
      reads this
    {
      Unit(weights, bias)
    }

    /** `rand` gives the k-th draw of `rand(-100, 100)`: one per weight, then one for the bias. */
    constructor (inputSize: nat, rand: nat -> Draw, exp: ExpFn)
      ensures weights == seq(inputSize, i requires 0 <= i => Scaled(rand(i))) && bias == Scaled(rand(inputSize))
      ensures |weights| == inputSize
      ensures forall i :: 0 <= i < inputSize ==> -1.0 <= weights[i] <= 1.0
      ensures -1.0 <= bias <= 1.0
      ensures this.exp == exp
    {
      var w: seq<real> := [];
      for i := 0 to inputSize
        invariant w == seq(i, k requires 0 <= k => Scaled(rand(k)))
      {
        w := w + [Scaled(rand(i))];
      }
      forall i | 0 <= i < inputSize
        ensures -1.0 <= w[i] <= 1.0
      {
        assert w[i] == Scaled(rand(i));
      }
      weights := w;
      bias := Scaled(rand(inputSize));
      this.exp := exp;
    }

    method Compute(inputs: seq<real>) returns (out: real)
      requires IsExp(exp) && |inputs| <= |weights|
      ensures out == Activation(exp, AsUnit(), inputs)
      ensures 0.0 < out < 1.0
    {
      var weightedSum: real := 0.0;
      for i := 0 to |inputs|
        invariant weightedSum == Dot(inputs[..i], weights)
      {
        assert inputs[..i + 1][..i] == inputs[..i];
        weightedSum := weightedSum + inputs[i] * weights[i];
      }
      assert inputs[..|inputs|] == inputs;
      weightedSum := weightedSum + bias;
      out := Sigmoid(exp, weightedSum);
    }

    method GetWeights() returns (w: seq<real>)
      ensures w == weights
    {
      w := weights;
    }

    method SetWeights(w: seq<real>)
      modifies this
      ensures weights == w && bias == old(bias)
    {
      weights := w;
    }

    method GetBias() returns (b: real)
      ensures b == bias
    {
      b := bias;
    }

    method SetBias(b: real)
      modifies this
      ensures bias == b && weights == old(weights)
    {
      bias := b;
    }
  }

  /** The parameters of a list of neurons, as values. */
  ghost function Units(layer: seq<Neuron>): (us: seq<Unit>)
    reads set n | n in layer
    ensures |us| == |layer|
    ensures forall i :: 0 <= i < |layer| ==> us[i] == layer[i].AsUnit()
  {
    if |layer| == 0 then [] else Units(layer[..|layer| - 1]) + [layer[|layer| - 1].AsUnit()]
  }

  class NeuralNetwork {
    var outputLayer: seq<Neuron>
    var hiddenLayer: seq<Neuron>
    const inputLayerSize: nat
    const hiddenLayerSize: nat
    const outputLayerSize: nat
    const learningRate: real
    /** The exponential every neuron's sigmoid uses. */
    const exp: ExpFn

    ghost function Neurons(): set<Neuron>
      reads this
    {
      (set n | n in hiddenLayer) + (set n | n in outputLayer)
    }

    ghost predicate Valid()
      reads this, Neurons()
    {
      && IsExp(exp)
      && |hiddenLayer| == hiddenLayerSize && |outputLayer| == outputLayerSize
      && (forall i :: 0 <= i < hiddenLayerSize ==>
            |hiddenLayer[i].weights| == inputLayerSize && hiddenLayer[i].exp == exp)
      && (forall i :: 0 <= i < outputLayerSize ==>
            |outputLayer[i].weights| == hiddenLayerSize && outputLayer[i].exp == exp)
      && (forall a, b :: 0 <= a < b < hiddenLayerSize ==> hiddenLayer[a] != hiddenLayer[b])
      && (forall a, b :: 0 <= a < b < outputLayerSize ==> outputLayer[a] != outputLayer[b])
      && (forall a, b :: 0 <= a < hiddenLayerSize && 0 <= b < outputLayerSize ==> hiddenLayer[a] != outputLayer[b])
    }

    /** The parameters of the whole network, as a value. */
    ghost function Parameters(): Net
      reads this, Neurons()
    {
      Net(Units(hiddenLayer), Units(outputLayer))
    }

    /**
     * `rand` gives the draws of `rand(-100, 100)` in the order the neuron constructors make
     * them: each hidden neuron, then each output neuron, weights before bias.
     */
    constructor (inputLayerSize: nat, hiddenLayerSize: nat, outputLayerSize: nat, learningRate: real,
                 rand: nat -> Draw, exp: ExpFn)
      requires IsExp(exp)
      ensures Valid() && fresh(Neurons())
      ensures this.inputLayerSize == inputLayerSize && this.hiddenLayerSize == hiddenLayerSize
      ensures this.outputLayerSize == outputLayerSize && this.learningRate == learningRate && this.exp == exp
      ensures forall i, j :: 0 <= i < hiddenLayerSize && 0 <= j < inputLayerSize ==>
                -1.0 <= hiddenLayer[i].weights[j] <= 1.0
      ensures forall i, j :: 0 <= i < outputLayerSize && 0 <= j < hiddenLayerSize ==>
                -1.0 <= outputLayer[i].weights[j] <= 1.0
      ensures forall i :: 0 <= i < hiddenLayerSize ==> -1.0 <= hiddenLayer[i].bias <= 1.0
      ensures forall i :: 0 <= i < outputLayerSize ==> -1.0 <= outputLayer[i].bias <= 1.0
    {
      var hidden := NewLayer(hiddenLayerSize, inputLayerSize, rand, 0, exp);
      var output := NewLayer(outputLayerSize, hiddenLayerSize, rand, hiddenLayerSize * (inputLayerSize + 1), exp);
      this.inputLayerSize := inputLayerSize;
      this.hiddenLayerSize := hiddenLayerSize;
      this.outputLayerSize := outputLayerSize;
      this.learningRate := learningRate;
      this.exp := exp;
      hiddenLayer := hidden;
      outputLayer := output;
    }

    /**
     * `size` new neurons with `numInputs` weights each; neuron i takes its draws from
     * `rand` starting at `start + i * (numInputs + 1)`.
     */
    static method NewLayer(size: nat, numInputs: nat, rand: nat -> Draw, start: nat, exp: ExpFn)
      returns (layer: seq<Neuron>)
      ensures |layer| == size && fresh(set n | n in layer)
      ensures forall k :: 0 <= k < size ==> |layer[k].weights| == numInputs && layer[k].exp == exp
      ensures forall k, j :: 0 <= k < size && 0 <= j < numInputs ==> -1.0 <= layer[k].weights[j] <= 1.0
      ensures forall k :: 0 <= k < size ==> -1.0 <= layer[k].bias <= 1.0
      ensures forall a, b :: 0 <= a < b < size ==> layer[a] != layer[b]
    {
      layer := [];
      for i := 0 to size
        invariant |layer| == i && fresh(set n | n in layer)
        invariant forall k :: 0 <= k < i ==> |layer[k].weights| == numInputs && layer[k].exp == exp
        invariant forall k, j :: 0 <= k < i && 0 <= j < numInputs ==> -1.0 <= layer[k].weights[j] <= 1.0
        invariant forall k :: 0 <= k < i ==> -1.0 <= layer[k].bias <= 1.0
        invariant forall a, b :: 0 <= a < b < i ==> layer[a] != layer[b]
      {
        var offset := start + i * (numInputs + 1);
        var n := new Neuron(numInputs, (d: nat) => rand(offset + d), exp);
        layer := layer + [n];
      }
    }

    method CalculateHiddenOutput(input: seq<real>) returns (hiddenOutput: seq<real>)
      requires Valid() && |input| <= inputLayerSize
      ensures hiddenOutput == LayerOutput(exp, Units(hiddenLayer), input)
    {
      hiddenOutput := [];
      for i := 0 to hiddenLayerSize
        invariant |hiddenOutput| == i
        invariant forall k :: 0 <= k < i ==> hiddenOutput[k] == Activation(exp, hiddenLayer[k].AsUnit(), input)
      {
        var v := hiddenLayer[i].Compute(input);
        hiddenOutput := hiddenOutput + [v];
      }
    }

    method CalculateOutput(hiddenOutput: seq<real>) returns (output: seq<real>)
      requires Valid() && |hiddenOutput| <= hiddenLayerSize
      ensures output == LayerOutput(exp, Units(outputLayer), hiddenOutput)
    {
      output := [];
      for i := 0 to outputLayerSize
        invariant |output| == i
        invariant forall k :: 0 <= k < i ==> output[k] == Activation(exp, outputLayer[k].AsUnit(), hiddenOutput)
      {
        var v := outputLayer[i].Compute(hiddenOutput);
        output := output + [v];
      }
    }

    method ForwardPropagation(input: seq<real>) returns (output: seq<real>)
      requires Valid() && |input| <= inputLayerSize
      ensures output == Forward(exp, Parameters(), input)
      ensures |output| == outputLayerSize
    {
      var hiddenOutput := CalculateHiddenOutput(input);
      output := CalculateOutput(hiddenOutput);
    }

    /**
     * The delta loops of NeuralNetwork.php:82-95. Every weight read here is a weight from
     * before the update loops run.
     */
    method Deltas(hiddenOutput: seq<real>, output: seq<real>, target: seq<real>)
      returns (outputDeltas: seq<real>, hiddenDeltas: seq<real>)
      requires Valid() && |hiddenOutput| == hiddenLayerSize && |output| == outputLayerSize
      requires |target| >= outputLayerSize
      ensures outputDeltas == OutputDeltas(target, output)
      ensures hiddenDeltas == HiddenDeltas(outputDeltas, Units(outputLayer), hiddenOutput)
    {
      outputDeltas := [];
      for i := 0 to outputLayerSize
        invariant |outputDeltas| == i
        invariant forall k :: 0 <= k < i ==> outputDeltas[k] == Delta(target[k] - output[k], output[k])
      {
        var error := target[i] - output[i];
        outputDeltas := outputDeltas + [Delta(error, output[i])];
      }
      ghost var units := Units(outputLayer);
      hiddenDeltas := [];
      for i := 0 to hiddenLayerSize
        invariant |hiddenDeltas| == i
        invariant forall k :: 0 <= k < i ==>
                    hiddenDeltas[k] == Delta(BackError(outputDeltas, units, k, outputLayerSize), hiddenOutput[k])
      {
        var error: real := 0.0;
        for j := 0 to outputLayerSize
          invariant error == BackError(outputDeltas, units, i, j)
        {
          var weights := outputLayer[j].GetWeights();
          error := error + outputDeltas[j] * weights[i];
        }
        hiddenDeltas := hiddenDeltas + [Delta(error, hiddenOutput[i])];
      }
    }

    /** The update of one neuron (NeuralNetwork.php:98-106 and 110-120). */
    method Update(neuron: Neuron, delta: real, x: seq<real>)
      requires |neuron.weights| <= |x|
      modifies neuron
      ensures neuron.AsUnit() == Moved(old(neuron.AsUnit()), learningRate, delta, x)
    {
      var weights := neuron.GetWeights();
      for j := 0 to |weights|
        invariant |weights| == |old(neuron.weights)| && neuron.weights == old(neuron.weights)
        invariant forall m :: 0 <= m < j ==> weights[m] == Nudge(old(neuron.weights)[m], learningRate, delta, x[m])
        invariant forall m :: j <= m < |weights| ==> weights[m] == old(neuron.weights)[m]
      {
        weights := weights[j := Nudge(weights[j], learningRate, delta, x[j])];
      }
      neuron.SetWeights(weights);
      var bias := neuron.GetBias();
      bias := Shift(bias, learningRate, delta);
      neuron.SetBias(bias);
    }

    /**
     * NeuralNetwork.php:78-95: the forward pass and both delta lists, all from the
     * parameters before any update; the step is then fixed by them.
     */
    method Signals(input: seq<real>, target: seq<real>)
      returns (hiddenOutput: seq<real>, outputDeltas: seq<real>, hiddenDeltas: seq<real>)
      requires Valid() && |input| == inputLayerSize && |target| >= outputLayerSize
      ensures |hiddenOutput| == hiddenLayerSize && |outputDeltas| == outputLayerSize
      ensures |hiddenDeltas| == hiddenLayerSize
      ensures Step(exp, Parameters(), learningRate, input, target)
           == Net(UpdateLayer(Units(hiddenLayer), hiddenDeltas, input, learningRate),
                  UpdateLayer(Units(outputLayer), outputDeltas, hiddenOutput, learningRate))
    {
      hiddenOutput := CalculateHiddenOutput(input);
      var output := CalculateOutput(hiddenOutput);
      outputDeltas, hiddenDeltas := Deltas(hiddenOutput, output, target);
      StepFromParts(exp, Parameters(), learningRate, input, target, hiddenOutput, output, outputDeltas, hiddenDeltas);
    }

    /** The update loop over one layer: every neuron moved by its delta and the values it received. */
    method UpdateNeurons(layer: seq<Neuron>, deltas: seq<real>, x: seq<real>)
      requires |deltas| == |layer| && forall i :: 0 <= i < |layer| ==> |layer[i].weights| <= |x|
      requires forall a, b :: 0 <= a < b < |layer| ==> layer[a] != layer[b]
      modifies set n | n in layer
      ensures Units(layer) == UpdateLayer(old(Units(layer)), deltas, x, learningRate)
    {
      ghost var u0 := Units(layer);
      for i := 0 to |layer|
        invariant forall k :: 0 <= k < i ==> layer[k].AsUnit() == Moved(u0[k], learningRate, deltas[k], x)
        invariant forall k :: i <= k < |layer| ==> layer[k].AsUnit() == u0[k]
      {
        Update(layer[i], deltas[i], x);
      }
    }

    /** NeuralNetwork.php:97-107: every output neuron moved by its delta and the hidden outputs. */
    method UpdateOutputLayer(deltas: seq<real>, hiddenOutput: seq<real>)
      requires Valid() && |deltas| == outputLayerSize && |hiddenOutput| == hiddenLayerSize
      modifies Neurons()
      ensures Valid() && hiddenLayer == old(hiddenLayer) && outputLayer == old(outputLayer)
      ensures Units(hiddenLayer) == old(Units(hiddenLayer))
      ensures Units(outputLayer) == UpdateLayer(old(Units(outputLayer)), deltas, hiddenOutput, learningRate)
    {
      ghost var h0 := Units(hiddenLayer);
      UpdateNeurons(outputLayer, deltas, hiddenOutput);
      assert forall k :: 0 <= k < hiddenLayerSize ==> hiddenLayer[k].AsUnit() == h0[k];
      assert Units(hiddenLayer) == h0;
    }

    /** NeuralNetwork.php:109-121: every hidden neuron moved by its delta and the input. */
    method UpdateHiddenLayer(deltas: seq<real>, input: seq<real>)
      requires Valid() && |deltas| == hiddenLayerSize && |input| == inputLayerSize
      modifies Neurons()
      ensures Valid() && hiddenLayer == old(hiddenLayer) && outputLayer == old(outputLayer)
      ensures Units(outputLayer) == old(Units(outputLayer))
      ensures Units(hiddenLayer) == UpdateLayer(old(Units(hiddenLayer)), deltas, input, learningRate)
    {
      ghost var o0 := Units(outputLayer);
      UpdateNeurons(hiddenLayer, deltas, input);
      assert forall k :: 0 <= k < outputLayerSize ==> outputLayer[k].AsUnit() == o0[k];
      assert Units(outputLayer) == o0;
    }

    method BackPropagation(input: seq<real>, target: seq<real>)
      requires Valid() && |input| == inputLayerSize && |target| >= outputLayerSize
      modifies Neurons()
      ensures Valid() && hiddenLayer == old(hiddenLayer) && outputLayer == old(outputLayer)
      ensures Parameters() == Step(exp, old(Parameters()), learningRate, input, target)
    {
      ghost var h0, o0 := Units(hiddenLayer), Units(outputLayer);
      var hiddenOutput, outputDeltas, hiddenDeltas := Signals(input, target);
      UpdateOutputLayer(outputDeltas, hiddenOutput);
      UpdateHiddenLayer(hiddenDeltas, input);
      assert Units(hiddenLayer) == UpdateLayer(h0, hiddenDeltas, input, learningRate);
      assert Units(outputLayer) == UpdateLayer(o0, outputDeltas, hiddenOutput, learningRate);
    }
  }
}
