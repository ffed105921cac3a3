/**
 * Binary logistic regression trained by batch gradient descent
 * (src/PhpMachinist/Models/LogisticRegression.php): a weight per feature and an intercept,
 * a probability per sample through the sigmoid, and `numIterations` simultaneous updates of
 * all parameters from one error vector per iteration.
 */
module Logistic {
  import opened Wrappers
  import opened Numerics

  /**
   * `train` on no samples fails reading `$x[0]` (count of null throws); any read of the
   * typed properties before the first successful `train` throws.
   */
  datatype Error = NoSamples | Uninitialised

  /** The model's parameters as a value. */
  datatype Params = Params(weights: seq<real>, intercept: real)

  /** `array_fill(0, $n, 0)`. */
  function Zeros(n: nat): (r: seq<real>)
    ensures |r| == n && forall i :: 0 <= i < n ==> r[i] == 0.0
  {
    seq(n, _ => 0.0)
  }

  /**
   * The sum of weights[i] * sample[i] over the indices of the sample, as the inner loop of
   * `predictProbability` adds it up; a weight past the end reads as null, that is 0.
   */
  function WeightedSum(weights: seq<real>, sample: seq<real>): real
  {
    if |sample| == 0 then 0.0
    else WeightedSum(weights, sample[..|sample| - 1]) + At(weights, |sample| - 1) * sample[|sample| - 1]
  }

  /** The log-odds of one sample: the intercept plus the weighted sum. */
  function Logit(p: Params, sample: seq<real>): real
  {
    p.intercept + WeightedSum(p.weights, sample)
  }

  /** `predictProbability`: sigmoid of the logit of every sample, in order. */
  function Probabilities(exp: ExpFn, p: Params, x: seq<seq<real>>): (r: seq<real>)
    requires IsExp(exp)
    ensures |r| == |x|
    ensures forall s :: 0 <= s < |r| ==> 0.0 < r[s] < 1.0
  {
    seq(|x|, s requires 0 <= s < |x| => Sigmoid(exp, Logit(p, x[s])))
  }

  /**
   * `array_map(fn ($y, $yPred) => $yPred - $y, $y, $yPred)`: as long as the longer list, a
   * missing entry of the shorter one reading as 0.
   */
  function Errors(probs: seq<real>, y: seq<real>): (r: seq<real>)
    ensures |r| >= |probs| && |r| >= |y|
  {
    var n := if |probs| >= |y| then |probs| else |y|;
    seq(n, s requires 0 <= s < n => At(probs, s) - At(y, s))
  }

  /** `$x[$s][$i]` inside the gradient's `array_map`: 0 where the sample or its entry is missing. */
  function Feature(x: seq<seq<real>>, s: nat, i: nat): real
  {
    if s < |x| then At(x[s], i) else 0.0
  }

  /** `array_map(fn ($error, $x) => $error * $x[$i], $error, $x)` for feature i. */
  function Gradient(errors: seq<real>, x: seq<seq<real>>, i: nat): (r: seq<real>)
    requires |errors| >= |x|
    ensures |r| == |errors|
  {
    seq(|errors|, s requires 0 <= s < |errors| => errors[s] * Feature(x, s, i))
  }

  /** `$v -= $learningRate * ($total / $numSamples)`. */
  function Descend(v: real, learningRate: real, total: real, numSamples: nat): real
    requires numSamples > 0
  {
    v - learningRate * (total / numSamples as real)
  }

  /** The `for ($i ...)` loop of `train`: every weight moved by the mean of its gradient. */
  function Descended(weights: seq<real>, errors: seq<real>, x: seq<seq<real>>, learningRate: real): (r: seq<real>)
    requires |x| > 0 && |errors| >= |x|
    ensures |r| == |weights|
  {
    seq(|weights|, i requires 0 <= i < |weights| => Descend(weights[i], learningRate, Sum(Gradient(errors, x, i)), |x|))
  }

  /**
   * One iteration of the `for ($iteration ...)` loop: the errors of the current predictions,
   * then the intercept and every weight moved against the mean of their gradients, all from
   * that one error vector.
   */
  function Step(exp: ExpFn, p: Params, x: seq<seq<real>>, y: seq<real>, learningRate: real): (r: Params)
    requires IsExp(exp) && |x| > 0
    ensures |r.weights| == |p.weights|
  {
    var errors := Errors(Probabilities(exp, p, x), y);
    Params(Descended(p.weights, errors, x, learningRate), Descend(p.intercept, learningRate, Sum(errors), |x|))
  }

  /** k iterations from p. */
  function Iterate(exp: ExpFn, p: Params, x: seq<seq<real>>, y: seq<real>, learningRate: real, k: nat): (r: Params)
    requires IsExp(exp) && |x| > 0
    ensures |r.weights| == |p.weights|
    decreases k
  {
    if k == 0 then p else Iterate(exp, Step(exp, p, x, y, learningRate), x, y, learningRate, k - 1)
  }

  /** The parameters `train` leaves: zero weights, one per feature of the first sample, then the iterations. */
  function Fit(exp: ExpFn, x: seq<seq<real>>, y: seq<real>, learningRate: real, numIterations: int): Result<Params, Error>
    requires IsExp(exp)
  {
    if |x| == 0 then Failure(NoSamples)
    else Success(Iterate(exp, Params(Zeros(|x[0]|), 0.0), x, y, learningRate,
                         if numIterations > 0 then numIterations else 0))
  }

  /** `predict`: 1 where the probability reaches the threshold, else 0. */
  function Labels(probs: seq<real>, threshold: real): (r: seq<int>)
    ensures |r| == |probs|
    ensures forall s :: 0 <= s < |r| ==> (r[s] == 0 || r[s] == 1)
  {
    seq(|probs|, s requires 0 <= s < |probs| => if probs[s] >= threshold then 1 else 0)
  }

  // ---------------------------------------------------------------------------
  // Properties

  /** Training keeps one weight per feature of the first sample, and fails exactly without samples. */
  lemma FitShape(exp: ExpFn, x: seq<seq<real>>, y: seq<real>, learningRate: real, numIterations: int)
    requires IsExp(exp)
    ensures Fit(exp, x, y, learningRate, numIterations).Failure? <==> |x| == 0
    ensures |x| > 0 ==> |Fit(exp, x, y, learningRate, numIterations).value.weights| == |x[0]|
  {
  }

  /** With no iterations the parameters stay at their zero start. */
  lemma FitWithoutIterations(exp: ExpFn, x: seq<seq<real>>, y: seq<real>, learningRate: real, numIterations: int)
    requires IsExp(exp) && |x| > 0 && numIterations <= 0
    ensures Fit(exp, x, y, learningRate, numIterations) == Success(Params(Zeros(|x[0]|), 0.0))
  {
  }

  /** With zero weights and intercept every logit is 0, so the first predictions are all 0.5. */
  lemma {:induction false} ZeroWeightedSum(n: nat, sample: seq<real>)
    ensures WeightedSum(Zeros(n), sample) == 0.0
  {
    if |sample| > 0 {
      ZeroWeightedSum(n, sample[..|sample| - 1]);
    }
  }

  lemma FirstProbabilities(exp: ExpFn, n: nat, x: seq<seq<real>>)
    requires IsExp(exp)
    ensures forall s :: 0 <= s < |x| ==> Probabilities(exp, Params(Zeros(n), 0.0), x)[s] == 0.5
  {
    forall s | 0 <= s < |x|
      ensures Probabilities(exp, Params(Zeros(n), 0.0), x)[s] == 0.5
    {
      ZeroWeightedSum(n, x[s]);
    }
  }

  lemma DescendWithoutLearning(v: real, total: real, numSamples: nat)
    requires numSamples > 0
    ensures Descend(v, 0.0, total, numSamples) == v
  {
  }

  /** A learning rate of 0 leaves the parameters as they are. */
  lemma StepWithoutLearning(exp: ExpFn, p: Params, x: seq<seq<real>>, y: seq<real>)
    requires IsExp(exp) && |x| > 0
    ensures Step(exp, p, x, y, 0.0) == p
  {
    var r := Step(exp, p, x, y, 0.0);
    var errors := Errors(Probabilities(exp, p, x), y);
    forall i | 0 <= i < |p.weights|
      ensures r.weights[i] == p.weights[i]
    {
      DescendWithoutLearning(p.weights[i], Sum(Gradient(errors, x, i)), |x|);
    }
    DescendWithoutLearning(p.intercept, Sum(errors), |x|);
  }

  lemma {:induction false} SumOfZeros(s: seq<real>)
    requires forall k :: 0 <= k < |s| ==> s[k] == 0.0
    ensures Sum(s) == 0.0
  {
    if |s| > 0 {
      SumOfZeros(s[..|s| - 1]);
    }
  }

  /** Where every prediction equals its label there is nothing to correct: a step is the identity. */
  lemma StepAtPerfectFit(exp: ExpFn, p: Params, x: seq<seq<real>>, y: seq<real>, learningRate: real)
    requires IsExp(exp) && |x| > 0
    requires forall s :: 0 <= s < |Errors(Probabilities(exp, p, x), y)| ==> Errors(Probabilities(exp, p, x), y)[s] == 0.0
    ensures Step(exp, p, x, y, learningRate) == p
  {
    var errors := Errors(Probabilities(exp, p, x), y);
    var r := Step(exp, p, x, y, learningRate);
    SumOfZeros(errors);
    forall i | 0 <= i < |p.weights|
      ensures r.weights[i] == p.weights[i]
    {
      var g := Gradient(errors, x, i);
      forall s | 0 <= s < |g|
        ensures g[s] == 0.0
      {
        assert errors[s] == 0.0;
      }
      SumOfZeros(g);
    }
  }

  /** A fixed point of the step stays put over any number of iterations. */
  lemma {:induction false} IterateFixedPoint(exp: ExpFn, p: Params, x: seq<seq<real>>, y: seq<real>,
                                             learningRate: real, k: nat)
    requires IsExp(exp) && |x| > 0
    requires Step(exp, p, x, y, learningRate) == p
    ensures Iterate(exp, p, x, y, learningRate, k) == p
  {
    if k > 0 {
      IterateFixedPoint(exp, p, x, y, learningRate, k - 1);
    }
  }

  /** With a positive rate a parameter moves opposite to the sign of its summed gradient. */
  lemma DescendDirection(v: real, learningRate: real, total: real, numSamples: nat)
    requires numSamples > 0 && learningRate > 0.0
    ensures total > 0.0 ==> Descend(v, learningRate, total, numSamples) < v
    ensures total < 0.0 ==> Descend(v, learningRate, total, numSamples) > v
    ensures total == 0.0 ==> Descend(v, learningRate, total, numSamples) == v
  {
    var mean := total / numSamples as real;
    if total > 0.0 {
      ProductPositive(learningRate * mean, learningRate, mean);
    } else if total < 0.0 {
      ProductNegative(learningRate * mean, learningRate, mean);
    }
  }

  /**
   * Gradient descent on the intercept: when every prediction lies above its label the
   * intercept goes down, and when every one lies below it goes up.
   */
  lemma {:induction false} SumOfPositive(s: seq<real>)
    requires |s| > 0 && forall k :: 0 <= k < |s| ==> s[k] > 0.0
    ensures Sum(s) > 0.0
  {
    if |s| > 1 {
      SumOfPositive(s[..|s| - 1]);
    }
  }

  lemma {:induction false} SumOfNegative(s: seq<real>)
    requires |s| > 0 && forall k :: 0 <= k < |s| ==> s[k] < 0.0
    ensures Sum(s) < 0.0
  {
    if |s| > 1 {
      SumOfNegative(s[..|s| - 1]);
    }
  }

  lemma InterceptDirection(exp: ExpFn, p: Params, x: seq<seq<real>>, y: seq<real>, learningRate: real)
    requires IsExp(exp) && |x| > 0 && learningRate > 0.0
    ensures (forall s :: 0 <= s < |Errors(Probabilities(exp, p, x), y)| ==> Errors(Probabilities(exp, p, x), y)[s] > 0.0)
            ==> Step(exp, p, x, y, learningRate).intercept < p.intercept
    ensures (forall s :: 0 <= s < |Errors(Probabilities(exp, p, x), y)| ==> Errors(Probabilities(exp, p, x), y)[s] < 0.0)
            ==> Step(exp, p, x, y, learningRate).intercept > p.intercept
  {
    var errors := Errors(Probabilities(exp, p, x), y);
    DescendDirection(p.intercept, learningRate, Sum(errors), |x|);
    if forall s :: 0 <= s < |errors| ==> errors[s] > 0.0 {
      SumOfPositive(errors);
    }
    if forall s :: 0 <= s < |errors| ==> errors[s] < 0.0 {
      SumOfNegative(errors);
    }
  }

  /** Weight i moves against the sum of its gradient entries. */
  lemma WeightDirection(exp: ExpFn, p: Params, x: seq<seq<real>>, y: seq<real>, learningRate: real, i: nat)
    requires IsExp(exp) && |x| > 0 && learningRate > 0.0 && i < |p.weights|
    ensures var g := Sum(Gradient(Errors(Probabilities(exp, p, x), y), x, i));
            var w := Step(exp, p, x, y, learningRate).weights[i];
            && (g > 0.0 ==> w < p.weights[i])
            && (g < 0.0 ==> w > p.weights[i])
            && (g == 0.0 ==> w == p.weights[i])
  {
    DescendDirection(p.weights[i], learningRate, Sum(Gradient(Errors(Probabilities(exp, p, x), y), x, i)), |x|);
  }

  /** A higher threshold never turns a 0 label into a 1. */
  lemma LabelsMonotone(probs: seq<real>, threshold: real, threshold': real, s: nat)
    requires threshold <= threshold' && s < |probs|
    ensures Labels(probs, threshold')[s] <= Labels(probs, threshold)[s]
    ensures Labels(probs, threshold)[s] == 1 <==> probs[s] >= threshold
  {
  }

  /** An exponential that also increases strictly, as the real one does. */
  ghost predicate Increasing(exp: ExpFn)
  {
    forall a: real, b: real :: a < b ==> exp(a) < exp(b)
  }

  lemma ReciprocalHalf(r: real, d: real)
    requires d > 0.0 && r * d == 1.0
    ensures r >= 0.5 <==> d <= 2.0
  {
    if d <= 2.0 {
      ProductBound(r, d);
    } else {
      ProductAbove(r, d);
    }
  }

  lemma ProductBound(r: real, d: real)
    requires 0.0 < d <= 2.0 && r * d == 1.0
    ensures r >= 0.5
  {
  }

  lemma ProductAbove(r: real, d: real)
    requires d > 2.0 && r * d == 1.0
    ensures r < 0.5
  {
  }

  /** With threshold 0.5 (the default of `predict`) a sample is labelled 1 exactly when its logit is non-negative. */
  lemma DecisionBoundary(exp: ExpFn, p: Params, x: seq<seq<real>>, s: nat)
    requires IsExp(exp) && Increasing(exp) && s < |x|
    ensures Labels(Probabilities(exp, p, x), 0.5)[s] == 1 <==> Logit(p, x[s]) >= 0.0
  {
    var z := Logit(p, x[s]);
    var e := exp(-z);
    var r := Sigmoid(exp, z);
    assert r == 1.0 / (1.0 + e);
    ReciprocalHalf(r, 1.0 + e);
    if z > 0.0 {
      assert exp(-z) < exp(0.0);
    } else if z < 0.0 {
      assert exp(0.0) < exp(-z);
    }
  }

  // ---------------------------------------------------------------------------
  // The class

  class LogisticRegression {
    var weights: seq<real>
    var intercept: real
    /** Whether the typed properties have been assigned by a `train` that did not throw. */
    var trained: bool
    /** PHP's `exp`, which the class calls through the sigmoid. */
    const exp: ExpFn

    ghost predicate Valid()
      reads this
    {
      IsExp(exp)
    }

    constructor (exp: ExpFn)
      requires IsExp(exp)
      ensures Valid() && !trained && this.exp == exp
    {
      this.exp := exp;
      trained := false;
    }

    function Current(): Params
      reads this
    {
      Params(weights, intercept)
    }

    /** The inner `for ($i ...)` loop of `predictProbability`: the logit of one sample. */
    method SampleLogit(sample: seq<real>) returns (logits: real)
      ensures logits == Logit(Current(), sample)
    {
      logits := intercept;
      for i := 0 to |sample|
        invariant logits == intercept + WeightedSum(weights, sample[..i])
      {
        var term := At(weights, i) * sample[i];
        WeightedSumStep(weights, sample, i, term);
        logits := logits + term;
      }
      assert sample[..|sample|] == sample;
    }

    /** `predictProbability($x)`: one probability per sample; nothing changes. */
    method PredictProbability(x: seq<seq<real>>) returns (r: Result<seq<real>, Error>)
      requires Valid()
      ensures r == if |x| > 0 && !trained then Failure(Uninitialised)
                   else Success(Probabilities(exp, Current(), x))
    {
      if |x| > 0 && !trained {
        return Failure(Uninitialised);
      }
      var yPred: seq<real> := [];
      for s := 0 to |x|
        invariant |yPred| == s
        invariant forall k :: 0 <= k < s ==> yPred[k] == Sigmoid(exp, Logit(Current(), x[k]))
      {
        var logits := SampleLogit(x[s]);
        var sigmoid := 1.0 / (1.0 + exp(-logits));
        yPred := yPred + [sigmoid];
      }
      assert yPred == Probabilities(exp, Current(), x);
      r := Success(yPred);
    }

    /** `predict($x, $threshold)`: the probabilities mapped to 0 and 1 labels. */
    method Predict(x: seq<seq<real>>, threshold: real) returns (r: Result<seq<int>, Error>)
      requires Valid()
      ensures r == if |x| > 0 && !trained then Failure(Uninitialised)
                   else Success(Labels(Probabilities(exp, Current(), x), threshold))
    {
      var yPred := PredictProbability(x);
      if yPred.Failure? {
        return Failure(yPred.error);
      }
      r := Success(Labels(yPred.value, threshold));
    }

    /** The `for ($i ...)` loop of `train`: every weight moved by its own gradient of the one error vector. */
    method UpdateWeights(error: seq<real>, x: seq<seq<real>>, learningRate: real)
      requires |x| > 0 && |error| >= |x|
      modifies this
      ensures weights == Descended(old(weights), error, x, learningRate)
      ensures intercept == old(intercept) && trained == old(trained)
    {
      ghost var before := weights;
      var numFeatures := |weights|;
      for i := 0 to numFeatures
        invariant |weights| == numFeatures && intercept == old(intercept) && trained == old(trained)
        invariant forall k :: 0 <= k < i ==> weights[k] == Descend(before[k], learningRate, Sum(Gradient(error, x, k)), |x|)
        invariant forall k :: i <= k < numFeatures ==> weights[k] == before[k]
      {
        var gradient := Gradient(error, x, i);
        weights := weights[i := weights[i] - learningRate * (Sum(gradient) / |x| as real)];
      }
      assert weights == Descended(before, error, x, learningRate);
    }

    /**
     * The body of the `for ($iteration ...)` loop of `train`: the predictions and the error
     * vector once, then the intercept and the weights moved by that one vector.
     */
    method Iteration(x: seq<seq<real>>, y: seq<real>, learningRate: real)
      requires Valid() && trained && |x| > 0
      modifies this
      ensures trained && Current() == Step(exp, old(Current()), x, y, learningRate)
    {
      var yPred := PredictProbability(x);
      var error := Errors(yPred.value, y);
      intercept := intercept - learningRate * (Sum(error) / |x| as real);
      UpdateWeights(error, x, learningRate);
    }

    /**
     * `train($x, $y, $learningRate, $numIterations)`: on no samples it throws before
     * assigning anything; otherwise the parameters are those of `Fit`.
     */
    method Train(x: seq<seq<real>>, y: seq<real>, learningRate: real, numIterations: int) returns (err: Option<Error>)
      requires Valid()
      modifies this
      ensures Valid()
      ensures Fit(exp, x, y, learningRate, numIterations).Failure? ==> err == Some(NoSamples) && unchanged(this)
      ensures Fit(exp, x, y, learningRate, numIterations).Success? ==>
                err.None? && trained && Current() == Fit(exp, x, y, learningRate, numIterations).value
    {
      var numSamples := |x|;
      if numSamples == 0 {
        return Some(NoSamples);
      }
      var numFeatures := |x[0]|;
      weights := Zeros(numFeatures);
      intercept := 0.0;
      trained := true;
      ghost var total: nat := if numIterations > 0 then numIterations else 0;
      ghost var final := Iterate(exp, Current(), x, y, learningRate, total);
      var iteration := 0;
      while iteration < numIterations
        invariant 0 <= iteration <= total
        invariant trained && Iterate(exp, Current(), x, y, learningRate, total - iteration) == final
      {
        Iteration(x, y, learningRate);
        iteration := iteration + 1;
      }
      err := None;
    }

    /** `getWeights()`: reading the unset property throws. */
    method GetWeights() returns (r: Result<seq<real>, Error>)
      ensures r == if trained then Success(weights) else Failure(Uninitialised)
    {
      if !trained {
        return Failure(Uninitialised);
      }
      r := Success(weights);
    }

    /** `getIntercept()`: reading the unset property throws. */
    method GetIntercept() returns (r: Result<real, Error>)
      ensures r == if trained then Success(intercept) else Failure(Uninitialised)
    {
      if !trained {
        return Failure(Uninitialised);
      }
      r := Success(intercept);
    }
  }

  /** One more term of the weighted sum. */
  lemma WeightedSumStep(weights: seq<real>, sample: seq<real>, i: nat, term: real)
    requires i < |sample| && term == At(weights, i) * sample[i]
    ensures WeightedSum(weights, sample[..i + 1]) == WeightedSum(weights, sample[..i]) + term
  {
    assert sample[..i + 1][..i] == sample[..i];
  }
}
