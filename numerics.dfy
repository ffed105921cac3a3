/** Option and Result, for the places where the PHP code returns null or throws. */
module Wrappers {
  datatype Option<+T> = None | Some(value: T) {
    function GetOr(default: T): T {
      match this
      case Some(v) => v
      case None => default
    }
  }

  datatype Result<+T, +E> = Success(value: T) | Failure(error: E)
}

/**
 * Exact arithmetic shared by the models: the caller-supplied exponential and
 * the logistic sigmoid built from it, PHP's float-to-int truncation, integer
 * powers, the dot product over a prefix and a few sums.
 */
module Numerics {

  /** The exponential `exp` is not modelled; the caller supplies it as a function value. */
  type ExpFn = real -> real

  /** What the models rely on about the exponential: positive everywhere, 1 at 0. */
  ghost predicate IsExp(exp: ExpFn)
  {
    (forall x: real :: exp(x) > 0.0) && exp(0.0) == 1.0
  }

  /** The logistic function 1 / (1 + exp(-x)) every PHP class writes out. */
  function Sigmoid(exp: ExpFn, x: real): (r: real)
    requires IsExp(exp)
    ensures 0.0 < r < 1.0
    ensures x == 0.0 ==> r == 0.5
  {
    var e := exp(-x);
    assert e > 0.0;
    1.0 / (1.0 + e)
  }

  /** The derivative of the sigmoid written in terms of its own output a. */
  function SigmoidDerivative(a: real): (r: real)
    ensures 0.0 < a < 1.0 ==> 0.0 < r <= 0.25
    ensures a == 0.0 || a == 1.0 ==> r == 0.0
  {
    a * (1.0 - a)
  }

  /** Entry i of a PHP list of numbers; a missing entry reads as null, which arithmetic takes as 0. */
  function At(s: seq<real>, i: nat): (r: real)
    ensures i < |s| ==> r == s[i]
    ensures i >= |s| ==> r == 0.0
  {
    if i < |s| then s[i] else 0.0
  }

  function Abs(x: real): (r: real)
    ensures r >= 0.0 && (r == x || r == -x)
  {
    if x < 0.0 then -x else x
  }

  function Max(a: real, b: real): (r: real)
    ensures r >= a && r >= b && (r == a || r == b)
  {
    if a >= b then a else b
  }

  function Min(a: real, b: real): (r: real)
    ensures r <= a && r <= b && (r == a || r == b)
  {
    if a <= b then a else b
  }

  /** PHP's conversion of a float to an `int` property: truncation toward zero. */
  function TruncateToInt(x: real): (n: int)
    ensures x >= 0.0 ==> 0 <= n && n as real <= x < n as real + 1.0
    ensures x < 0.0 ==> n <= 0 && n as real - 1.0 < x <= n as real
  {
    if x >= 0.0 then x.Floor else -((-x).Floor)
  }

  /** A value of `rand(-100, 100)`. */
  type Draw = r: int | -100 <= r <= 100

  /** `rand(-100, 100) / 100.0`: a starting weight or bias. */
  function Scaled(r: Draw): (w: real)
    ensures -1.0 <= w <= 1.0
    ensures 100.0 * w == r as real
  {
    r as real / 100.0
  }

  /** `pow(b, e)` for a non-negative integer exponent. */
  function Power(b: real, e: nat): real
  {
    if e == 0 then 1.0 else b * Power(b, e - 1)
  }

  /**
   * `pow(b, e)` for any integer exponent: 1 / b^(-e) when e is negative. PHP gives INF for
   * b = 0 and e < 0; reals have no infinity, and that one case is 0 here.
   */
  function IntPower(b: real, e: int): real
  {
    if e >= 0 then Power(b, e)
    else if b == 0.0 then 0.0
    else PowerNonZero(b, -e); 1.0 / Power(b, -e)
  }

  // Signs of products, over distinct names so that the solver sees no square

  lemma ProductPositive(p: real, a: real, b: real)
    requires p == a * b && a > 0.0 && b > 0.0
    ensures p > 0.0
  {
  }

  lemma ProductNegative(p: real, a: real, b: real)
    requires p == a * b && a > 0.0 && b < 0.0
    ensures p < 0.0
  {
  }

  lemma ProductOfNegatives(p: real, a: real, b: real)
    requires p == a * b && a < 0.0 && b < 0.0
    ensures p > 0.0
  {
  }

  /** A non-zero base has non-zero powers. */
  lemma {:induction false} PowerNonZero(b: real, e: nat)
    requires b != 0.0
    ensures Power(b, e) != 0.0
  {
    if e > 0 {
      PowerNonZero(b, e - 1);
      var q := Power(b, e - 1);
      if b > 0.0 && q > 0.0 {
        ProductPositive(Power(b, e), b, q);
      } else if b > 0.0 && q < 0.0 {
        ProductNegative(Power(b, e), b, q);
      } else if b < 0.0 && q > 0.0 {
        ProductNegative(Power(b, e), q, b);
      } else {
        ProductOfNegatives(Power(b, e), b, q);
      }
    }
  }

  /** For a non-zero base, the powers with exponents e and -e are reciprocal. */
  lemma IntPowerReciprocal(b: real, e: int)
    requires b != 0.0
    ensures IntPower(b, e) * IntPower(b, -e) == 1.0
  {
    var n: nat := if e >= 0 then e else -e;
    PowerNonZero(b, n);
  }

  /** Sum of x[i] * y[i] over the indices of x; the loops read y only that far. */
  function Dot(x: seq<real>, y: seq<real>): real
    requires |x| <= |y|
  {
    if |x| == 0 then 0.0 else Dot(x[..|x| - 1], y) + x[|x| - 1] * y[|x| - 1]
  }

  /** Sum of (x[i] - y[i])^2 over the indices of x. */
  function DistanceSquared(x: seq<real>, y: seq<real>): real
    requires |x| <= |y|
  {
    if |x| == 0 then 0.0
    else DistanceSquared(x[..|x| - 1], y) + (x[|x| - 1] - y[|x| - 1]) * (x[|x| - 1] - y[|x| - 1])
  }

  /** `array_sum` of a list of reals. */
  function Sum(s: seq<real>): real
  {
    if |s| == 0 then 0.0 else Sum(s[..|s| - 1]) + s[|s| - 1]
  }

  lemma {:induction false} DotSymmetric(x: seq<real>, y: seq<real>)
    requires |x| == |y|
    ensures Dot(x, y) == Dot(y, x)
  {
    if |x| > 0 {
      DotSymmetric(x[..|x| - 1], y[..|y| - 1]);
      DotOnlyReadsPrefix(x[..|x| - 1], y, y[..|y| - 1]);
      DotOnlyReadsPrefix(y[..|y| - 1], x, x[..|x| - 1]);
    }
  }

  /** The dot product reads the second vector only at the indices of the first:
      entries of y beyond |x| never matter. */
  lemma {:induction false} DotOnlyReadsPrefix(x: seq<real>, y: seq<real>, z: seq<real>)
    requires |x| <= |y| && |x| <= |z|
    requires y[..|x|] == z[..|x|]
    ensures Dot(x, y) == Dot(x, z)
  {
    if |x| > 0 {
      var x' := x[..|x| - 1];
      assert y[..|x'|] == y[..|x|][..|x'|];
      assert z[..|x'|] == z[..|x|][..|x'|];
      assert y[|x| - 1] == y[..|x|][|x| - 1];
      assert z[|x| - 1] == z[..|x|][|x| - 1];
      DotOnlyReadsPrefix(x', y, z);
    }
  }

  lemma {:induction false} DistanceSquaredProperties(x: seq<real>, y: seq<real>)
    requires |x| == |y|
    ensures DistanceSquared(x, y) >= 0.0
    ensures DistanceSquared(x, y) == DistanceSquared(y, x)
    ensures DistanceSquared(x, x) == 0.0
  {
    if |x| > 0 {
      var x', y' := x[..|x| - 1], y[..|y| - 1];
      DistanceSquaredProperties(x', y');
      DistanceSquaredOnlyReadsPrefix(x', y, y');
      DistanceSquaredOnlyReadsPrefix(y', x, x');
      DistanceSquaredOnlyReadsPrefix(x', x, x');
      var d := x[|x| - 1] - y[|x| - 1];
      assert d * d >= 0.0;
      assert (y[|x| - 1] - x[|x| - 1]) * (y[|x| - 1] - x[|x| - 1]) == d * d;
    }
  }

  lemma {:induction false} DistanceSquaredOnlyReadsPrefix(x: seq<real>, y: seq<real>, z: seq<real>)
    requires |x| <= |y| && |x| <= |z|
    requires y[..|x|] == z[..|x|]
    ensures DistanceSquared(x, y) == DistanceSquared(x, z)
  {
    if |x| > 0 {
      var x' := x[..|x| - 1];
      assert y[..|x'|] == y[..|x|][..|x'|];
      assert z[..|x'|] == z[..|x|][..|x'|];
      assert y[|x| - 1] == y[..|x|][|x| - 1];
      assert z[|x| - 1] == z[..|x|][|x| - 1];
      DistanceSquaredOnlyReadsPrefix(x', y, z);
    }
  }
}

/** Counting: occurrences in a list and the sum of the values of a counter map. */
module Tally {

  /** Number of occurrences of x in s. */
  function Count<T(==)>(s: seq<T>, x: T): (n: nat)
    ensures n <= |s|
  {
    if |s| == 0 then 0 else Count(s[..|s| - 1], x) + (if s[|s| - 1] == x then 1 else 0)
  }

  /** The count stored under k, or 0 if k is absent (PHP's `$m[$k] ?? 0`). */
  function Get<K>(m: map<K, nat>, k: K): nat
  {
    if k in m then m[k] else 0
  }

  /** `$m[$k] = ($m[$k] ?? 0) + 1`. */
  function Increment<K>(m: map<K, nat>, k: K): map<K, nat>
  {
    m[k := Get(m, k) + 1]
  }

  /** `array_sum` of a counter map. */
  ghost function MapSum<K>(m: map<K, nat>): nat
    decreases |m|
  {
    if |m| == 0 then 0
    else
      var k :| k in m;
      m[k] + MapSum(m - {k})
  }

  /** Taking one key out of a map leaves one key fewer. */
  lemma RemoveKeyCard<K>(m: map<K, nat>, k: K)
    requires k in m
    ensures |m - {k}| == |m| - 1
  {
    assert (m - {k}).Keys == m.Keys - {k};
    assert |m.Keys - {k}| == |m.Keys| - 1;
  }

  /** Some key is the one MapSum takes out first. */
  lemma MapSumUnfold<K>(m: map<K, nat>) returns (k': K)
    requires |m| != 0
    ensures k' in m && MapSum(m) == m[k'] + MapSum(m - {k'})
  {
    k' :| k' in m && MapSum(m) == m[k'] + MapSum(m - {k'});
  }

  /** The sum does not depend on which key is taken out first. */
  lemma {:induction false} MapSumRemove<K>(m: map<K, nat>, k: K)
    requires k in m
    ensures MapSum(m) == m[k] + MapSum(m - {k})
    decreases |m|
  {
    var k' := MapSumUnfold(m);
    if k' != k {
      var m1 := m - {k'};
      var m2 := m - {k};
      RemoveKeyCard(m, k');
      RemoveKeyCard(m, k);
      assert k in m1 && k' in m2;
      MapSumRemove(m1, k);
      MapSumRemove(m2, k');
      RemoveBoth(m, k, k');
    }
  }

  /** Taking out two keys in either order gives the same map. */
  lemma RemoveBoth<K>(m: map<K, nat>, k: K, k': K)
    ensures m - {k'} - {k} == m - {k} - {k'}
  {
  }

  /** The counter map after one increment for each element of keys, in order. */
  function IncrementAll<K>(m: map<K, nat>, keys: seq<K>): map<K, nat>
  {
    if |keys| == 0 then m else Increment(IncrementAll(m, keys[..|keys| - 1]), keys[|keys| - 1])
  }

  /** Each count grows by the number of occurrences of its key. */
  lemma {:induction false} IncrementAllCounts<K>(m: map<K, nat>, keys: seq<K>, k: K)
    ensures Get(IncrementAll(m, keys), k) == Get(m, k) + Count(keys, k)
  {
    if |keys| > 0 {
      IncrementAllCounts(m, keys[..|keys| - 1], k);
    }
  }

  /** The sum grows by the number of keys. */
  lemma {:induction false} IncrementAllTotal<K>(m: map<K, nat>, keys: seq<K>)
    ensures MapSum(IncrementAll(m, keys)) == MapSum(m) + |keys|
  {
    if |keys| > 0 {
      IncrementAllTotal(m, keys[..|keys| - 1]);
      MapSumIncrement(IncrementAll(m, keys[..|keys| - 1]), keys[|keys| - 1]);
    }
  }

  /** Adding one to the count of k adds one to the sum. */
  lemma MapSumIncrement<K>(m: map<K, nat>, k: K)
    ensures MapSum(Increment(m, k)) == MapSum(m) + 1
  {
    var m' := Increment(m, k);
    MapSumRemove(m', k);
    IncrementRemove(m, k);
    if k in m {
      MapSumRemove(m, k);
    }
  }

  /** Apart from k's own count, an increment of k changes nothing. */
  lemma IncrementRemove<K>(m: map<K, nat>, k: K)
    ensures Increment(m, k) - {k} == m - {k}
    ensures k !in m ==> m - {k} == m
  {
  }
}
