/**
 * The support vector machine of src/PhpMachinist/Models/SVM.php: kernel evaluation,
 * the decision function, SMO training over an in-place array of multipliers, and the
 * extraction of the support vectors into the model's fields.
 */
module SupportVectorMachine {
  import opened Wrappers
  import opened Numerics
  import opened Smo

  /** The three kernel policies the PHP code dispatches to by name. */
  datatype Kernel = Linear | Polynomial(degree: int) | Rbf(gamma: real)

  /** The exception `kernelFunction` throws for any other name. */
  datatype SvmError = UnsupportedKernel(name: string)

  function ParseKernel(name: string, degree: int, gamma: real): Option<Kernel>
  {
    if name == "linear" then Some(Linear)
    else if name == "polynomial" then Some(Polynomial(degree))
    else if name == "rbf" then Some(Rbf(gamma))
    else None
  }

  /** The value of a kernel on x and y; the loops read y at the indices of x only. */
  function Apply(k: Kernel, exp: ExpFn, x: seq<real>, y: seq<real>): real
    requires |x| <= |y|
  {
    match k
    case Linear => Dot(x, y)
    case Polynomial(d) => IntPower(Dot(x, y) + 1.0, d)
    case Rbf(g) => RbfValue(exp, g, DistanceSquared(x, y))
  }

  /** exp(-gamma * d) for a squared distance d. */
  function RbfValue(exp: ExpFn, gamma: real, d: real): real
  {
    exp(-gamma * d)
  }

  /** What `kernelFunction` returns or throws. */
  function KernelResult(name: string, degree: int, gamma: real, exp: ExpFn, x: seq<real>, y: seq<real>): Result<real, SvmError>
    requires |x| <= |y|
  {
    match ParseKernel(name, degree, gamma)
    case Some(k) => Success(Apply(k, exp, x, y))
    case None => Failure(UnsupportedKernel(name))
  }

  /** bias + the sum over the first `count` support vectors of weight * K(sv, x). */
  function PartialDecision(k: Kernel, exp: ExpFn, svs: seq<seq<real>>, ws: seq<real>, bias: int, x: seq<real>, count: nat): real
    requires count <= |svs| <= |ws|
    requires forall m :: 0 <= m < |svs| ==> |svs[m]| <= |x|
  {
    if count == 0 then bias as real
    else PartialDecision(k, exp, svs, ws, bias, x, count - 1) + ws[count - 1] * Apply(k, exp, svs[count - 1], x)
  }

  /** The decision value bias + sum of weight * K(sv, x) over all support vectors. */
  function Decision(k: Kernel, exp: ExpFn, svs: seq<seq<real>>, ws: seq<real>, bias: int, x: seq<real>): real
    requires |svs| <= |ws|
    requires forall m :: 0 <= m < |svs| ==> |svs[m]| <= |x|
  {
    PartialDecision(k, exp, svs, ws, bias, x, |svs|)
  }

  function Classify(score: real): int
  {
    if score >= 0.0 then 1 else -1
  }

  /** What `predict` returns or throws: the kernel is consulted only if there is a support vector. */
  function PredictResult(name: string, degree: int, gamma: real, exp: ExpFn,
                         svs: seq<seq<real>>, ws: seq<real>, bias: int, x: seq<real>): Result<int, SvmError>
    requires |svs| <= |ws|
    requires forall m :: 0 <= m < |svs| ==> |svs[m]| <= |x|
  {
    var k := ParseKernel(name, degree, gamma);
    if svs != [] && k.None? then Failure(UnsupportedKernel(name))
    else Success(Classify(Decision(k.GetOr(Linear), exp, svs, ws, bias, x)))
  }

  predicate SameDimension(features: seq<seq<real>>)
  {
    forall i, j :: 0 <= i < |features| && 0 <= j < |features| ==> |features[i]| == |features[j]|
  }

  /** The Gram matrix of SVM.php:73-79. */
  function Gram(k: Kernel, exp: ExpFn, features: seq<seq<real>>): (g: seq<seq<real>>)
    requires SameDimension(features)
    ensures |g| == |features| && forall i :: 0 <= i < |g| ==> |g[i]| == |features|
  {
    seq(|features|, i requires 0 <= i < |features| =>
      seq(|features|, j requires 0 <= j < |features| => Apply(k, exp, features[i], features[j])))
  }

  /** predict(features[i]) - labels[i] for every instance, under the stored model. */
  function TrainingErrors(k: Kernel, exp: ExpFn, svs: seq<seq<real>>, ws: seq<real>, bias: int,
                          features: seq<seq<real>>, labels: seq<int>): (e: seq<int>)
    requires |svs| <= |ws| && |labels| == |features|
    requires forall i, m :: 0 <= i < |features| && 0 <= m < |svs| ==> |svs[m]| <= |features[i]|
    ensures |e| == |features|
  {
    seq(|features|, i requires 0 <= i < |features| =>
      Classify(Decision(k, exp, svs, ws, bias, features[i])) - labels[i])
  }

  /** Indices of the multipliers that are strictly positive, in increasing order. */
  function SupportIndices(alphas: seq<real>): seq<nat>
  {
    if |alphas| == 0 then []
    else SupportIndices(alphas[..|alphas| - 1]) + (if alphas[|alphas| - 1] > 0.0 then [|alphas| - 1] else [])
  }

  /** The weight alpha * label a support vector is stored with. */
  function Weight(alpha: real, y: int): real
  {
    alpha * y as real
  }

  /** The support vectors the loop of SVM.php:216-221 appends. */
  function SupportVectors(features: seq<seq<real>>, alphas: seq<real>): seq<seq<real>>
    requires |features| == |alphas|
  {
    if |alphas| == 0 then []
    else SupportVectors(features[..|features| - 1], alphas[..|alphas| - 1])
         + (if alphas[|alphas| - 1] > 0.0 then [features[|features| - 1]] else [])
  }

  /** The weights alpha * label the same loop appends. */
  function SupportWeights(labels: seq<int>, alphas: seq<real>): seq<real>
    requires |labels| == |alphas|
  {
    if |alphas| == 0 then []
    else SupportWeights(labels[..|labels| - 1], alphas[..|alphas| - 1])
         + (if alphas[|alphas| - 1] > 0.0 then [Weight(alphas[|alphas| - 1], labels[|labels| - 1])] else [])
  }

  // ---------------------------------------------------------------------------
  // Properties

  /** All three kernels are symmetric on vectors of equal length. */
  lemma ApplySymmetric(k: Kernel, exp: ExpFn, x: seq<real>, y: seq<real>)
    requires |x| == |y|
    ensures Apply(k, exp, x, y) == Apply(k, exp, y, x)
  {
    match k
    case Linear =>
      DotSymmetric(x, y);
    case Polynomial(d) =>
      DotSymmetric(x, y);
    case Rbf(g) =>
      DistanceSquaredProperties(x, y);
  }

  /** The RBF kernel of a vector with itself is exp(0) = 1. */
  lemma RbfOfSelf(gamma: real, exp: ExpFn, x: seq<real>)
    requires IsExp(exp)
    ensures Apply(Rbf(gamma), exp, x, x) == 1.0
  {
    DistanceSquaredProperties(x, x);
    assert -gamma * 0.0 == 0.0;
  }

  /** The Gram matrix is symmetric. */
  lemma GramSymmetric(k: Kernel, exp: ExpFn, features: seq<seq<real>>, i: nat, j: nat)
    requires SameDimension(features) && i < |features| && j < |features|
    ensures Gram(k, exp, features)[i][j] == Gram(k, exp, features)[j][i]
  {
    ApplySymmetric(k, exp, features[i], features[j]);
  }

  /** A model with no support vector predicts the sign of its bias; a fresh one (bias 0) predicts 1. */
  lemma PredictWithoutSupportVectors(name: string, degree: int, gamma: real, exp: ExpFn, bias: int, x: seq<real>)
    ensures PredictResult(name, degree, gamma, exp, [], [], bias, x) == Success(if bias >= 0 then 1 else -1)
    ensures PredictResult(name, degree, gamma, exp, [], [], 0, x) == Success(1)
  {
  }

  /** Every prediction is 1 or -1, so with labels in {-1, +1} every training error is -2, 0 or 2. */
  lemma TrainingErrorsRange(k: Kernel, exp: ExpFn, svs: seq<seq<real>>, ws: seq<real>, bias: int,
                            features: seq<seq<real>>, labels: seq<int>)
    requires |svs| <= |ws| && |labels| == |features| && SignLabels(labels)
    requires forall i, m :: 0 <= i < |features| && 0 <= m < |svs| ==> |svs[m]| <= |features[i]|
    ensures forall i :: 0 <= i < |features| ==>
              var e := TrainingErrors(k, exp, svs, ws, bias, features, labels)[i];
              e == -2 || e == 0 || e == 2
  {
  }

  /**
   * The extracted support vectors are exactly the instances with a positive multiplier,
   * in index order, each paired with the weight alpha * label.
   */
  lemma {:induction false} SupportExtraction(features: seq<seq<real>>, labels: seq<int>, alphas: seq<real>)
    requires |features| == |alphas| && |labels| == |alphas|
    ensures var idx := SupportIndices(alphas);
            && |SupportVectors(features, alphas)| == |idx|
            && |SupportWeights(labels, alphas)| == |idx|
            && (forall m :: 0 <= m < |idx| ==>
                  (&& idx[m] < |alphas|
                   && SupportVectors(features, alphas)[m] == features[idx[m]]
                   && SupportWeights(labels, alphas)[m] == Weight(alphas[idx[m]], labels[idx[m]])))
            && (forall m, m' :: 0 <= m < m' < |idx| ==> idx[m] < idx[m'])
            && (forall k :: 0 <= k < |alphas| ==> (k in idx <==> alphas[k] > 0.0))
  {
    SupportIndicesOrdered(alphas);
    SupportVectorsAt(features, alphas);
    SupportWeightsAt(labels, alphas);
  }

  /** The support indices are increasing and are exactly the positions of positive multipliers. */
  lemma {:induction false} SupportIndicesOrdered(alphas: seq<real>)
    ensures var idx := SupportIndices(alphas);
            && (forall m :: 0 <= m < |idx| ==> idx[m] < |alphas|)
            && (forall m, m' :: 0 <= m < m' < |idx| ==> idx[m] < idx[m'])
            && (forall k :: 0 <= k < |alphas| ==> (k in idx <==> alphas[k] > 0.0))
  {
    var n := |alphas|;
    if n > 0 {
      var a' := alphas[..n - 1];
      SupportIndicesOrdered(a');
      assert forall k :: 0 <= k < n - 1 ==> a'[k] == alphas[k];
    }
  }

  /** The m-th support vector is the instance at the m-th support index. */
  lemma {:induction false} SupportVectorsAt(features: seq<seq<real>>, alphas: seq<real>)
    requires |features| == |alphas|
    ensures var idx := SupportIndices(alphas);
            && |SupportVectors(features, alphas)| == |idx|
            && forall m :: 0 <= m < |idx| ==> idx[m] < |features| && SupportVectors(features, alphas)[m] == features[idx[m]]
  {
    var n := |alphas|;
    if n > 0 {
      var f', a' := features[..n - 1], alphas[..n - 1];
      SupportVectorsAt(f', a');
      SupportIndicesOrdered(a');
    }
  }

  /** The m-th weight is alpha * label of the instance at the m-th support index. */
  lemma {:induction false} SupportWeightsAt(labels: seq<int>, alphas: seq<real>)
    requires |labels| == |alphas|
    ensures var idx := SupportIndices(alphas);
            && |SupportWeights(labels, alphas)| == |idx|
            && forall m :: 0 <= m < |idx| ==>
                 idx[m] < |alphas| && SupportWeights(labels, alphas)[m] == Weight(alphas[idx[m]], labels[idx[m]])
  {
    var n := |alphas|;
    if n > 0 {
      var l', a' := labels[..n - 1], alphas[..n - 1];
      SupportWeightsAt(l', a');
      SupportIndicesOrdered(a');
    }
  }

  /** Summing the weights gives the signed sum of all multipliers, since the ones left out are 0. */
  lemma {:induction false} SupportWeightsSum(labels: seq<int>, alphas: seq<real>, c: real)
    requires |labels| == |alphas| && InBox(alphas, c)
    ensures Sum(SupportWeights(labels, alphas)) == SignedSum(labels, alphas)
  {
    var n := |alphas|;
    if n > 0 {
      var l', a' := labels[..n - 1], alphas[..n - 1];
      assert InBox(a', c);
      SupportWeightsSum(l', a', c);
      var w' := SupportWeights(l', a');
      if alphas[n - 1] > 0.0 {
        var w := w' + [Weight(alphas[n - 1], labels[n - 1])];
        assert w[..|w| - 1] == w';
        assert Weight(alphas[n - 1], labels[n - 1]) == labels[n - 1] as real * alphas[n - 1];
      } else {
        assert alphas[n - 1] == 0.0;
        assert SupportWeights(labels, alphas) == w';
        assert labels[n - 1] as real * alphas[n - 1] == 0.0;
      }
    }
  }

  /** The training problem one `train` call solves, given the stored model it predicts with. */
  function TrainingProblem(k: Kernel, exp: ExpFn, svs: seq<seq<real>>, ws: seq<real>, bias: int,
                           features: seq<seq<real>>, labels: seq<int>, c: real, tol: real,
                           maxIterations: int, pick: (nat, nat) -> nat): (p: Problem)
    requires |svs| <= |ws| && |labels| >= |features| && SameDimension(features)
    requires forall i, m :: 0 <= i < |features| && 0 <= m < |svs| ==> |svs[m]| <= |features[i]|
    requires PickOracle(pick, |features|)
    ensures WellFormed(p) && p.labels == labels[..|features|]
  {
    Problem(Gram(k, exp, features), labels[..|features|],
            TrainingErrors(k, exp, svs, ws, bias, features, labels[..|features|]),
            c, tol, maxIterations, pick)
  }

  /**
   * For labels in {-1, +1} and multipliers in [0, C]: as many weights as support vectors,
   * and every weight non-zero and at most C in size.
   */
  lemma {:induction false} SupportWeightsBounds(features: seq<seq<real>>, labels: seq<int>, alphas: seq<real>, c: real)
    requires |features| == |alphas| && |labels| == |alphas|
    requires SignLabels(labels) && InBox(alphas, c)
    ensures |SupportVectors(features, alphas)| == |SupportWeights(labels, alphas)|
    ensures forall m :: 0 <= m < |SupportWeights(labels, alphas)| ==>
              SupportWeights(labels, alphas)[m] != 0.0 && -c <= SupportWeights(labels, alphas)[m] <= c
  {
    var n := |alphas|;
    if n > 0 {
      var f', l', a' := features[..n - 1], labels[..n - 1], alphas[..n - 1];
      assert SignLabels(l') && InBox(a', c);
      SupportWeightsBounds(f', l', a', c);
      if alphas[n - 1] > 0.0 {
        WeightInRange(alphas[n - 1], labels[n - 1], c);
      }
    }
  }

  /**
   * What training stores, for labels in {-1, +1} and C >= 0, whatever the pick oracle and
   * the fuel: as many weights as support vectors, every weight non-zero and at most C in
   * size, and the weights summing to 0.
   */
  lemma TrainedWeights(p: Problem, fuel: nat, features: seq<seq<real>>)
    requires WellFormed(p) && SignLabels(p.labels) && p.c >= 0.0 && |features| == |p.labels|
    ensures var a := Optimise(p, fuel).state.alphas;
            var w := SupportWeights(p.labels, a);
            && |SupportVectors(features, a)| == |w|
            && (forall m :: 0 <= m < |w| ==> w[m] != 0.0 && -p.c <= w[m] <= p.c)
            && Sum(w) == 0.0
  {
    var a := Optimise(p, fuel).state.alphas;
    OptimiseInvariant(p, fuel);
    SupportWeightsBounds(features, p.labels, a, p.c);
    SupportWeightsSum(p.labels, a, p.c);
  }

  lemma WeightInRange(alpha: real, sign: int, c: real)
    requires 0.0 < alpha <= c && (sign == 1 || sign == -1)
    ensures Weight(alpha, sign) != 0.0 && -c <= Weight(alpha, sign) <= c
  {
  }

  /** The loop of SVM.php:213-221 keeping the instances whose multiplier is positive. */
  method CollectSupportVectors(features: seq<seq<real>>, labels: seq<int>, alphas: seq<real>)
    returns (svs: seq<seq<real>>, ws: seq<real>)
    requires |features| == |alphas| && |labels| == |alphas|
    ensures svs == SupportVectors(features, alphas) && ws == SupportWeights(labels, alphas)
  {
    svs, ws := [], [];
    for i := 0 to |alphas|
      invariant svs == SupportVectors(features[..i], alphas[..i])
      invariant ws == SupportWeights(labels[..i], alphas[..i])
    {
      assert features[..i + 1][..i] == features[..i];
      assert alphas[..i + 1][..i] == alphas[..i];
      assert labels[..i + 1][..i] == labels[..i];
      if alphas[i] > 0.0 {
        svs := svs + [features[i]];
        ws := ws + [Weight(alphas[i], labels[i])];
      }
    }
    assert features[..|alphas|] == features && alphas[..|alphas|] == alphas && labels[..|alphas|] == labels;
  }

  // ---------------------------------------------------------------------------
  // The class

  class SVM {
    var supportVectors: seq<seq<real>>
    var weights: seq<real>
    /** Declared `int` in PHP, so a trained bias is truncated when stored. */
    var bias: int
    const kernel: string
    const degree: int
    const gamma: real
    /** The exponential used by the RBF kernel. */
    const exp: ExpFn

    ghost predicate Valid()
      reads this
    {
      |supportVectors| == |weights|
    }

    constructor (kernel: string, degree: int, gamma: real, exp: ExpFn)
      ensures Valid()
      ensures supportVectors == [] && weights == [] && bias == 0
      ensures this.kernel == kernel && this.degree == degree && this.gamma == gamma && this.exp == exp
    {
      supportVectors := [];
      weights := [];
      bias := 0;
      this.kernel := kernel;
      this.degree := degree;
      this.gamma := gamma;
      this.exp := exp;
    }

    method DotProduct(x: seq<real>, y: seq<real>) returns (product: real)
      requires |x| <= |y|
      ensures product == Dot(x, y)
    {
      product := 0.0;
      for i := 0 to |x|
        invariant product == Dot(x[..i], y)
      {
        assert x[..i + 1][..i] == x[..i];
        product := product + x[i] * y[i];
      }
      assert x[..|x|] == x;
    }

    method EuclideanDistanceSquared(x: seq<real>, y: seq<real>) returns (distanceSquared: real)
      requires |x| <= |y|
      ensures distanceSquared == DistanceSquared(x, y)
    {
      distanceSquared := 0.0;
      for i := 0 to |x|
        invariant distanceSquared == DistanceSquared(x[..i], y)
      {
        assert x[..i + 1][..i] == x[..i];
        distanceSquared := distanceSquared + (x[i] - y[i]) * (x[i] - y[i]);
      }
      assert x[..|x|] == x;
    }

    method LinearKernel(x: seq<real>, y: seq<real>) returns (r: real)
      requires |x| <= |y|
      ensures r == Apply(Linear, exp, x, y)
    {
      r := DotProduct(x, y);
    }

    method PolynomialKernel(x: seq<real>, y: seq<real>) returns (r: real)
      requires |x| <= |y|
      ensures r == Apply(Polynomial(degree), exp, x, y)
    {
      var d := DotProduct(x, y);
      r := IntPower(d + 1.0, degree);
    }

    method RbfKernel(x: seq<real>, y: seq<real>) returns (r: real)
      requires |x| <= |y|
      ensures r == Apply(Rbf(gamma), exp, x, y)
    {
      var d := EuclideanDistanceSquared(x, y);
      r := RbfValue(exp, gamma, d);
    }

    method KernelFunction(x: seq<real>, y: seq<real>) returns (r: Result<real, SvmError>)
      requires |x| <= |y|
      ensures r == KernelResult(kernel, degree, gamma, exp, x, y)
    {
      if kernel == "linear" {
        var v := LinearKernel(x, y);
        r := Success(v);
      } else if kernel == "polynomial" {
        var v := PolynomialKernel(x, y);
        r := Success(v);
      } else if kernel == "rbf" {
        var v := RbfKernel(x, y);
        r := Success(v);
      } else {
        r := Failure(UnsupportedKernel(kernel));
      }
    }

    method Predict(features: seq<real>) returns (r: Result<int, SvmError>)
      requires Valid()
      requires forall m :: 0 <= m < |supportVectors| ==> |supportVectors[m]| <= |features|
      ensures r == PredictResult(kernel, degree, gamma, exp, supportVectors, weights, bias, features)
    {
      ghost var k := ParseKernel(kernel, degree, gamma).GetOr(Linear);
      var svs, ws := supportVectors, weights;
      var prediction: real := bias as real;
      for index := 0 to |svs|
        invariant index > 0 ==> ParseKernel(kernel, degree, gamma) == Some(k)
        invariant prediction == PartialDecision(k, exp, svs, ws, bias, features, index)
      {
        var kv := KernelFunction(svs[index], features);
        if kv.Failure? {
          return Failure(kv.error);
        }
        var term := ws[index] * kv.value;
        assert PartialDecision(k, exp, svs, ws, bias, features, index + 1) == prediction + term;
        prediction := prediction + term;
      }
      r := Success(if prediction >= 0.0 then 1 else -1);
    }

    /** The nested loops of SVM.php:73-79; the first kernel call throws for an unknown kernel. */
    method GramMatrix(features: seq<seq<real>>) returns (r: Result<seq<seq<real>>, SvmError>)
      requires SameDimension(features)
      ensures r.Failure? <==> |features| > 0 && ParseKernel(kernel, degree, gamma).None?
      ensures r.Failure? ==> r.error == UnsupportedKernel(kernel)
      ensures r.Success? ==> r.value == Gram(ParseKernel(kernel, degree, gamma).GetOr(Linear), exp, features)
    {
      ghost var k := ParseKernel(kernel, degree, gamma).GetOr(Linear);
      var n := |features|;
      var gramMatrix: seq<seq<real>> := [];
      for i := 0 to n
        invariant |gramMatrix| == i
        invariant i > 0 ==> ParseKernel(kernel, degree, gamma) == Some(k)
        invariant forall a :: 0 <= a < i ==> gramMatrix[a] == Gram(k, exp, features)[a]
      {
        var row: seq<real> := [];
        for j := 0 to n
          invariant |row| == j
          invariant j > 0 ==> ParseKernel(kernel, degree, gamma) == Some(k)
          invariant forall b :: 0 <= b < j ==> row[b] == Apply(k, exp, features[i], features[b])
        {
          var v := KernelFunction(features[i], features[j]);
          if v.Failure? {
            return Failure(v.error);
          }
          row := row + [v.value];
        }
        assert row == Gram(k, exp, features)[i];
        gramMatrix := gramMatrix + [row];
      }
      assert gramMatrix == Gram(k, exp, features);
      r := Success(gramMatrix);
    }

    /** The problem `Optimise` solves: the stored model gives the errors. */
    ghost predicate Solves(p: Problem, features: seq<seq<real>>, labels: seq<int>, gramMatrix: seq<seq<real>>,
                           regularization: real, tolerance: real, maxIterations: int, pick: (nat, nat) -> nat)
      reads this
    {
      && Valid() && |labels| >= |features| && SameDimension(features)
      && (forall i, m :: 0 <= i < |features| && 0 <= m < |supportVectors| ==> |supportVectors[m]| <= |features[i]|)
      && PickOracle(pick, |features|)
      && (|features| > 0 ==> ParseKernel(kernel, degree, gamma).Some?)
      && gramMatrix == Gram(ParseKernel(kernel, degree, gamma).GetOr(Linear), exp, features)
      && p == TrainingProblem(ParseKernel(kernel, degree, gamma).GetOr(Linear), exp,
                              supportVectors, weights, bias, features, labels,
                              regularization, tolerance, maxIterations, pick)
    }

    /**
     * The body of the `for ($i ...)` loop (SVM.php:133-201) for instance i: the KKT test,
     * the draw of j, and the pair update written into the multipliers and their PHP types
     * in place. The errors come from `Predict`, which reads only the stored fields. With a
     * single instance the `do { } while ($j === $i)` loop never ends; the method reports
     * that through `hung` instead.
     */
    method VisitInstance(ghost p: Problem, features: seq<seq<real>>, labels: seq<int>, gramMatrix: seq<seq<real>>,
                         regularization: real, tolerance: real, maxIterations: int, pick: (nat, nat) -> nat,
                         alphas: array<real>, floats: array<bool>, i: nat,
                         b0: real, changed0: nat, draws0: nat, hung0: bool)
      returns (b: real, numChangedAlphas: nat, draws: nat, hung: bool)
      requires Solves(p, features, labels, gramMatrix, regularization, tolerance, maxIterations, pick)
      requires alphas.Length == floats.Length == |features| && i < |features|
      modifies alphas, floats
      ensures State(alphas[..], floats[..], b, numChangedAlphas, draws, hung)
              == Visit(p, State(old(alphas[..]), old(floats[..]), b0, changed0, draws0, hung0), i)
    {
      ghost var before := State(alphas[..], floats[..], b0, changed0, draws0, hung0);
      b, numChangedAlphas, draws, hung := b0, changed0, draws0, hung0;
      var predictionI := Predict(features[i]);
      var errorI := predictionI.value - labels[i];
      assert errorI == p.errors[i];
      var alphaI := alphas[i];
      assert p.labels[i] == labels[i] && p.c == regularization && p.tol == tolerance;
      if ((labels[i] * errorI) as real < -tolerance && alphaI < regularization)
         || ((labels[i] * errorI) as real > tolerance && alphaI > 0.0)
      {
        if |features| == 1 {
          hung := true;
          return;
        }
        var j := pick(draws, i);
        draws := draws + 1;
        var predictionJ := Predict(features[j]);
        var errorJ := predictionJ.value - labels[j];
        assert errorJ == p.errors[j];
        // SVM.php:148-197: bounds, eta, clipped alpha_j, alpha_i and bias, or a skip
        var step := PairStep(labels[i], labels[j], errorI, errorJ, alphaI, alphas[j], floats[i], floats[j],
                             gramMatrix[i][i], gramMatrix[i][j], gramMatrix[j][j], b,
                             regularization, tolerance);
        assert Visit(p, before, i)
            == if step.None? then before.(draws := draws)
               else State(before.alphas[i := step.value.alphaI][j := step.value.alphaJ],
                          before.floats[i := step.value.floatI][j := step.value.floatJ],
                          step.value.bias, numChangedAlphas + 1, draws, hung);
        if step.None? {
          return;
        }
        alphas[i] := step.value.alphaI;
        alphas[j] := step.value.alphaJ;
        floats[i] := step.value.floatI;
        floats[j] := step.value.floatJ;
        b := step.value.bias;
        numChangedAlphas := numChangedAlphas + 1;
        assert alphas[..] == before.alphas[i := step.value.alphaI][j := step.value.alphaJ];
        assert floats[..] == before.floats[i := step.value.floatI][j := step.value.floatJ];
      } else {
        assert !Violates(p.labels[i], p.errors[i], before.alphas[i], p.c, p.tol);
      }
    }

    /** One pass of the `for ($i ...)` loop (SVM.php:132-202) over all instances. */
    method Pass(ghost p: Problem, features: seq<seq<real>>, labels: seq<int>, gramMatrix: seq<seq<real>>,
                regularization: real, tolerance: real, maxIterations: int, pick: (nat, nat) -> nat,
                alphas: array<real>, floats: array<bool>, b0: real, draws0: nat)
      returns (b: real, numChangedAlphas: nat, draws: nat, hung: bool)
      requires Solves(p, features, labels, gramMatrix, regularization, tolerance, maxIterations, pick)
      requires alphas.Length == floats.Length == |features|
      modifies alphas, floats
      ensures State(alphas[..], floats[..], b, numChangedAlphas, draws, hung)
              == Sweep(p, State(old(alphas[..]), old(floats[..]), b0, 0, draws0, false), |features|)
    {
      ghost var start := State(alphas[..], floats[..], b0, 0, draws0, false);
      b, numChangedAlphas, draws, hung := b0, 0, draws0, false;
      for i := 0 to |features|
        invariant State(alphas[..], floats[..], b, numChangedAlphas, draws, hung) == Sweep(p, start, i)
      {
        b, numChangedAlphas, draws, hung :=
          VisitInstance(p, features, labels, gramMatrix, regularization, tolerance, maxIterations, pick,
                        alphas, floats, i, b, numChangedAlphas, draws, hung);
      }
    }

    /**
     * One turn of the `while` loop of SVM.php:129-210: a pass, then the patience counter of
     * SVM.php:205-209 reset on a change or advanced on none.
     */
    method Round(ghost p: Problem, features: seq<seq<real>>, labels: seq<int>, gramMatrix: seq<seq<real>>,
                 regularization: real, tolerance: real, maxIterations: int, pick: (nat, nat) -> nat,
                 alphas: array<real>, floats: array<bool>, b0: real, draws0: nat, iterations0: int,
                 ghost current: State, ghost history: seq<nat>, ghost remaining: nat)
      returns (b: real, numChangedAlphas: nat, draws: nat, iterations: int, hung: bool,
               ghost next: State, ghost history': seq<nat>)
      requires Solves(p, features, labels, gramMatrix, regularization, tolerance, maxIterations, pick)
      requires WellFormed(p) && |p.labels| == |features|
      requires alphas.Length == floats.Length == |features|
      requires current == State(alphas[..], floats[..], b0, current.changed, draws0, false)
      requires remaining > 0 && iterations0 < maxIterations
      modifies alphas, floats
      ensures next == State(alphas[..], floats[..], b, next.changed, draws, hung)
      ensures Run(p, next, iterations, history', remaining - 1) == Run(p, current, iterations0, history, remaining)
    {
      b, numChangedAlphas, draws, hung := Pass(p, features, labels, gramMatrix, regularization, tolerance,
                                               maxIterations, pick, alphas, floats, b0, draws0);
      next := State(alphas[..], floats[..], b, numChangedAlphas, draws, hung);
      RunPass(p, current, iterations0, history, remaining, next);
      if hung {
        iterations, history' := iterations0, history;
      } else {
        history' := history + [numChangedAlphas];
        if numChangedAlphas == 0 {
          iterations := iterations0 + 1;
        } else {
          iterations := 0;
        }
      }
    }

    /** The `while` loop of SVM.php:129-210 from the initial multipliers, cut off after `fuel`
        passes or when a pass hangs. */
    method Passes(ghost p: Problem, features: seq<seq<real>>, labels: seq<int>, gramMatrix: seq<seq<real>>,
                  regularization: real, tolerance: real, maxIterations: int, pick: (nat, nat) -> nat,
                  fuel: nat, alphas: array<real>, floats: array<bool>)
      returns (b: real, iterations: int, hung: bool)
      requires Solves(p, features, labels, gramMatrix, regularization, tolerance, maxIterations, pick)
      requires WellFormed(p) && |p.labels| == |features|
      requires alphas.Length == floats.Length == |features|
      requires alphas[..] == Initial(|features|).alphas && floats[..] == Initial(|features|).floats
      modifies alphas, floats
      ensures var o := Smo.Optimise(p, fuel);
              && alphas[..] == o.state.alphas && floats[..] == o.state.floats && b == o.state.bias
              && iterations == o.iterations && hung == o.state.hung
    {
      var n := |features|;
      b := 0.0;
      iterations := 0;
      hung := false;
      var passes: nat := 0;
      var draws: nat := 0;
      ghost var history: seq<nat> := [];
      ghost var current := State(alphas[..], floats[..], b, 0, draws, hung);
      ghost var outcome := Smo.Optimise(p, fuel);
      while iterations < maxIterations && passes < fuel && !hung
        invariant alphas.Length == floats.Length == n && passes <= fuel
        invariant current == State(alphas[..], floats[..], b, current.changed, draws, hung)
        invariant Run(p, current, iterations, history, fuel - passes) == outcome
        decreases fuel - passes
      {
        var numChangedAlphas: nat;
        b, numChangedAlphas, draws, iterations, hung, current, history :=
          Round(p, features, labels, gramMatrix, regularization, tolerance, maxIterations, pick,
                alphas, floats, b, draws, iterations, current, history, fuel - passes);
        passes := passes + 1;
      }
      RunStops(p, current, iterations, history, fuel - passes);
    }

    /**
     * The pass loop of SVM.php:90-210 over an in-place array of multipliers (and their PHP
     * types), cut off after `fuel` passes, with the patience counter of SVM.php:205-209.
     */
    method Optimise(features: seq<seq<real>>, labels: seq<int>, gramMatrix: seq<seq<real>>,
                    regularization: real, tolerance: real, maxIterations: int,
                    pick: (nat, nat) -> nat, fuel: nat)
      returns (alphaValues: seq<real>, finalBias: real, iterations: int, hung: bool)
      requires Valid() && |labels| >= |features| && SameDimension(features)
      requires forall i, m :: 0 <= i < |features| && 0 <= m < |supportVectors| ==> |supportVectors[m]| <= |features[i]|
      requires PickOracle(pick, |features|)
      requires |features| > 0 ==> ParseKernel(kernel, degree, gamma).Some?
      requires gramMatrix == Gram(ParseKernel(kernel, degree, gamma).GetOr(Linear), exp, features)
      ensures var o := Smo.Optimise(TrainingProblem(ParseKernel(kernel, degree, gamma).GetOr(Linear), exp,
                                                    supportVectors, weights, bias, features, labels,
                                                    regularization, tolerance, maxIterations, pick), fuel);
              && alphaValues == o.state.alphas && finalBias == o.state.bias
              && iterations == o.iterations && hung == o.state.hung
    {
      var n := |features|;
      ghost var p := TrainingProblem(ParseKernel(kernel, degree, gamma).GetOr(Linear), exp,
                                     supportVectors, weights, bias, features, labels,
                                     regularization, tolerance, maxIterations, pick);
      var alphas := new real[n](_ => 0.0);
      var floats := new bool[n](_ => false);
      assert alphas[..] == Initial(n).alphas && floats[..] == Initial(n).floats;
      var b;
      b, iterations, hung := Passes(p, features, labels, gramMatrix, regularization, tolerance, maxIterations,
                                    pick, fuel, alphas, floats);
      alphaValues, finalBias := alphas[..], b;
    }

    /**
     * `train` (SVM.php:82-232). `finished` says whether the `while` loop reached its exit
     * test within `fuel` passes, i.e. whether the fields now hold what PHP's call leaves;
     * a run that hangs on a single instance never finishes.
     */
    method Train(features: seq<seq<real>>, labels: seq<int>, regularization: real, tolerance: real,
                 maxIterations: int, pick: (nat, nat) -> nat, fuel: nat)
      returns (r: Result<bool, SvmError>, finished: bool)
      requires Valid() && |labels| >= |features| && SameDimension(features)
      requires forall i, m :: 0 <= i < |features| && 0 <= m < |supportVectors| ==> |supportVectors[m]| <= |features[i]|
      requires PickOracle(pick, |features|)
      modifies this
      ensures Valid()
      ensures r.Failure? <==> |features| > 0 && ParseKernel(kernel, degree, gamma).None?
      ensures r.Failure? ==> r.error == UnsupportedKernel(kernel)
                             && supportVectors == old(supportVectors) && weights == old(weights) && bias == old(bias)
      ensures r.Success? ==>
                var p := TrainingProblem(ParseKernel(kernel, degree, gamma).GetOr(Linear), exp,
                                         old(supportVectors), old(weights), old(bias), features, labels,
                                         regularization, tolerance, maxIterations, pick);
                var o := Smo.Optimise(p, fuel);
                && r.value
                && (finished <==> o.iterations >= maxIterations)
                && (o.state.hung ==> !finished)
                && supportVectors == SupportVectors(features, o.state.alphas)
                && weights == SupportWeights(p.labels, o.state.alphas)
                && bias == (if supportVectors == [] then old(bias) else TruncateToInt(o.state.bias))
    {
      var gram := GramMatrix(features);
      if gram.Failure? {
        return Failure(gram.error), false;
      }
      var n := |features|;
      ghost var o := Smo.Optimise(TrainingProblem(ParseKernel(kernel, degree, gamma).GetOr(Linear), exp,
                                                  supportVectors, weights, bias, features, labels,
                                                  regularization, tolerance, maxIterations, pick), fuel);
      var alphas, b, iterations, hung := Optimise(features, labels, gram.value, regularization, tolerance,
                                                  maxIterations, pick, fuel);
      assert alphas == o.state.alphas && b == o.state.bias;
      OptimiseHangsEarly(TrainingProblem(ParseKernel(kernel, degree, gamma).GetOr(Linear), exp,
                                         supportVectors, weights, bias, features, labels,
                                         regularization, tolerance, maxIterations, pick), fuel);
      finished := iterations >= maxIterations;
      assert o == Smo.Optimise(TrainingProblem(ParseKernel(kernel, degree, gamma).GetOr(Linear), exp,
                                               old(supportVectors), old(weights), old(bias), features, labels,
                                               regularization, tolerance, maxIterations, pick), fuel);
      supportVectors, weights := CollectSupportVectors(features, labels[..n], alphas);
      SupportExtraction(features, labels[..n], alphas);
      if supportVectors != [] {
        bias := TruncateToInt(b);
      }
      r := Success(true);
    }
  }
}
