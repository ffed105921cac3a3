/**
 * The sequential minimal optimisation (SMO) pass loop of SVM::train, as pure state
 * transitions: one pair step, the visit of one instance, one pass over all instances,
 * and the patience-counted sequence of passes. The SVM class's training method proves
 * that its in-place loops compute exactly these functions.
 */
module Smo {
  import opened Wrappers
  import opened Numerics

  /** Everything that stays fixed for one `train` call. `errors[i]` is
      predict(features[i]) - labels[i], computed from the model's stored fields,
      which `train` does not write until its loop is over. `pick(c, i)` is the index
      the `mt_rand` loop settles on for the c-th draw of the call, made while visiting i. */
  datatype Problem = Problem(
    gram: seq<seq<real>>,
    labels: seq<int>,
    errors: seq<int>,
    c: real,
    tol: real,
    maxIterations: int,
    pick: (nat, nat) -> nat)

  /**
   * The multipliers, the running bias, changed pairs in the current pass and draws so far.
   * `floats[k]` is the PHP runtime type of `$alphas[k]`: false for the int 0 that
   * `array_fill` puts there, true once a float has been stored. `hung` records that the
   * `do { } while ($j === $i)` loop was entered with a single instance, where it never ends.
   */
  datatype State = State(alphas: seq<real>, floats: seq<bool>, bias: real, changed: nat, draws: nat, hung: bool)

  /** The new alpha_i, alpha_j, their PHP types and the bias of a pair step that is applied. */
  datatype Step = Step(alphaI: real, alphaJ: real, floatI: bool, floatJ: bool, bias: real)

  /** The state after the loop, the patience counter, and the changed-pair count of every pass. */
  datatype Outcome = Outcome(state: State, iterations: int, history: seq<nat>)

  /** With two instances or more, the j-selection loop settles every time on an index
      below n that differs from i. With one it never settles, and the oracle is not asked. */
  ghost predicate PickOracle(pick: (nat, nat) -> nat, n: nat)
  {
    n >= 2 ==> forall c: nat, i: nat :: i < n ==> pick(c, i) < n && pick(c, i) != i
  }

  ghost predicate WellFormed(p: Problem)
  {
    var n := |p.labels|;
    && |p.errors| == n
    && |p.gram| == n
    && (forall i :: 0 <= i < n ==> |p.gram[i]| == n)
    && PickOracle(p.pick, n)
  }

  predicate SignLabels(labels: seq<int>)
  {
    forall k :: 0 <= k < |labels| ==> labels[k] == 1 || labels[k] == -1
  }

  predicate InBox(alphas: seq<real>, c: real)
  {
    forall k :: 0 <= k < |alphas| ==> 0.0 <= alphas[k] <= c
  }

  /** Sum of labels[k] * alphas[k]. */
  function SignedSum(labels: seq<int>, alphas: seq<real>): real
    requires |labels| == |alphas|
  {
    if |alphas| == 0 then 0.0
    else SignedSum(labels[..|labels| - 1], alphas[..|alphas| - 1])
         + labels[|labels| - 1] as real * alphas[|alphas| - 1]
  }

  /** The interval [L, H] for alpha_j (SVM.php:148-154). `max` and `min` return their first
      argument on a tie, as Max and Min do. */
  function Bounds(yi: int, yj: int, ai: real, aj: real, c: real): (real, real)
  {
    if yi == yj then (Max(0.0, ai + aj - c), Min(c, ai + aj))
    else (Max(0.0, aj - ai), Min(c, c + aj - ai))
  }

  /**
   * Whether L and H are PHP floats. C is a float (a `float` parameter) and 0 an int; a sum
   * or difference of two multipliers is a float iff one of them is. So L is the float
   * argument of `max` when that one exceeds 0 and the int 0 otherwise; H is always a float
   * for different labels, and for equal labels is the float C unless alpha_i + alpha_j < C.
   */
  function BoundKinds(yi: int, yj: int, ai: real, aj: real, fi: bool, fj: bool, c: real): (bool, bool)
  {
    if yi == yj then (ai + aj - c > 0.0, if ai + aj < c then fi || fj else true)
    else (aj - ai > 0.0 && (fi || fj), true)
  }

  function Clip(a: real, lo: real, hi: real): real
  {
    if a > hi then hi else if a < lo then lo else a
  }

  /** The PHP type of the clipped alpha_j: the unclipped value is a float (eta is one). */
  function ClipKind(a: real, lo: real, hi: real, loFloat: bool, hiFloat: bool): bool
  {
    if a > hi then hiFloat else if a < lo then loFloat else true
  }

  /** The two bias candidates b1 and b2 (SVM.php:183-189). */
  function BiasCandidates(yi: int, yj: int, ei: int, ej: int, ai: real, aj: real, ai': real, aj': real,
                          kii: real, kij: real, kjj: real, b: real): (real, real)
  {
    (b - ei as real - yi as real * (ai' - ai) * kii - yj as real * (aj' - aj) * kij,
     b - ej as real - yi as real * (ai' - ai) * kij - yj as real * (aj' - aj) * kjj)
  }

  /** alpha_i moves against alpha_j so that y_i * alpha_i + y_j * alpha_j is kept (SVM.php:180). */
  function Compensate(yi: int, yj: int, ai: real, aj: real, aj': real): real
  {
    ai + (yi * yj) as real * (aj - aj')
  }

  /** The bias rule of SVM.php:191-197. */
  function ChooseBias(ai': real, aj': real, c: real, b1: real, b2: real): real
  {
    if 0.0 < ai' < c then b1 else if 0.0 < aj' < c then b2 else (b1 + b2) / 2.0
  }

  /**
   * One pair step (SVM.php:148-197) on alpha_i and alpha_j of PHP types fi and fj (true for
   * float): None when the pair is skipped, otherwise the new multipliers, their types and
   * the bias. The `===` test at SVM.php:156 holds only when L and H are equal numbers of
   * the same type.
   */
  function PairStep(yi: int, yj: int, ei: int, ej: int, ai: real, aj: real, fi: bool, fj: bool,
                    kii: real, kij: real, kjj: real, b: real, c: real, tol: real): Option<Step>
  {
    var (lo, hi) := Bounds(yi, yj, ai, aj, c);
    var (loFloat, hiFloat) := BoundKinds(yi, yj, ai, aj, fi, fj, c);
    if lo == hi && loFloat == hiFloat then None
    else
      var eta := 2.0 * kij - kii - kjj;
      if eta >= 0.0 then None
      else
        var raw := aj - (yj * (ei - ej)) as real / eta;
        var aj' := Clip(raw, lo, hi);
        var fj' := ClipKind(raw, lo, hi, loFloat, hiFloat);
        if Abs(aj' - aj) < tol then None
        else
          var ai' := Compensate(yi, yj, ai, aj, aj');
          var (b1, b2) := BiasCandidates(yi, yj, ei, ej, ai, aj, ai', aj', kii, kij, kjj, b);
          Some(Step(ai', aj', fi || fj || fj', fj', ChooseBias(ai', aj', c, b1, b2)))
  }

  /** The KKT test of SVM.php:136-137. */
  predicate Violates(yi: int, ei: int, ai: real, c: real, tol: real)
  {
    ((yi * ei) as real < -tol && ai < c) || ((yi * ei) as real > tol && ai > 0.0)
  }

  /** The body of the `for ($i ...)` loop (SVM.php:133-202). A violator that is the only
      instance enters a j-selection loop that never ends: the state is marked hung. */
  function Visit(p: Problem, s: State, i: nat): (r: State)
    requires WellFormed(p) && |s.alphas| == |s.floats| == |p.labels| && i < |p.labels|
    ensures |r.alphas| == |r.floats| == |s.alphas|
  {
    var yi := p.labels[i];
    var ei := p.errors[i];
    var ai := s.alphas[i];
    if Violates(yi, ei, ai, p.c, p.tol) then
      if |p.labels| == 1 then s.(hung := true)
      else
        var j := p.pick(s.draws, i);
        var t := s.(draws := s.draws + 1);
        match PairStep(yi, p.labels[j], ei, p.errors[j], ai, s.alphas[j], s.floats[i], s.floats[j],
                       p.gram[i][i], p.gram[i][j], p.gram[j][j], s.bias, p.c, p.tol)
        case None => t
        case Some(st) =>
          t.(alphas := s.alphas[i := st.alphaI][j := st.alphaJ],
             floats := s.floats[i := st.floatI][j := st.floatJ],
             bias := st.bias, changed := s.changed + 1)
    else s
  }

  /** The state after visiting the instances 0 .. k-1 in order. */
  function Sweep(p: Problem, s: State, k: nat): (r: State)
    requires WellFormed(p) && |s.alphas| == |s.floats| == |p.labels| && k <= |p.labels|
    ensures |r.alphas| == |r.floats| == |s.alphas|
  {
    if k == 0 then s else Visit(p, Sweep(p, s, k - 1), k - 1)
  }

  /** The `while ($iterations < $maxIterations)` loop (SVM.php:129-210), cut off after
      `fuel` passes because the PHP loop need not terminate. A pass that hangs ends it. */
  function Run(p: Problem, s: State, iterations: int, history: seq<nat>, fuel: nat): (o: Outcome)
    requires WellFormed(p) && |s.alphas| == |s.floats| == |p.labels|
    ensures |o.state.alphas| == |o.state.floats| == |s.alphas|
    decreases fuel
  {
    if fuel == 0 || iterations >= p.maxIterations || s.hung then Outcome(s, iterations, history)
    else
      var s' := Sweep(p, s.(changed := 0), |p.labels|);
      if s'.hung then Outcome(s', iterations, history)
      else Run(p, s', if s'.changed == 0 then iterations + 1 else 0, history + [s'.changed], fuel - 1)
  }

  /** One pass of the `while` loop, when the loop goes on. */
  lemma RunPass(p: Problem, s: State, iterations: int, history: seq<nat>, fuel: nat, s': State)
    requires WellFormed(p) && |s.alphas| == |s.floats| == |p.labels|
    requires fuel > 0 && iterations < p.maxIterations && !s.hung
    requires s' == Sweep(p, s.(changed := 0), |p.labels|)
    ensures Run(p, s, iterations, history, fuel)
            == if s'.hung then Outcome(s', iterations, history)
               else Run(p, s', if s'.changed == 0 then iterations + 1 else 0, history + [s'.changed], fuel - 1)
  {
  }

  /** The loop stops when the iterations reach the maximum, the fuel runs out or a pass hung. */
  lemma RunStops(p: Problem, s: State, iterations: int, history: seq<nat>, fuel: nat)
    requires WellFormed(p) && |s.alphas| == |s.floats| == |p.labels|
    requires fuel == 0 || iterations >= p.maxIterations || s.hung
    ensures Run(p, s, iterations, history, fuel) == Outcome(s, iterations, history)
  {
  }

  /** The initial state of SVM.php:90-101: `array_fill(0, n, 0)` gives n int zeros, the bias
      is 0, and nothing has been drawn or changed. */
  function Initial(n: nat): (s: State)
    ensures |s.alphas| == |s.floats| == n
    ensures forall k :: 0 <= k < n ==> s.alphas[k] == 0.0 && !s.floats[k]
    ensures s.bias == 0.0 && s.changed == 0 && s.draws == 0 && !s.hung
  {
    State(seq(n, _ => 0.0), seq(n, _ => false), 0.0, 0, 0, false)
  }

  /** The whole optimisation of one `train` call. */
  function Optimise(p: Problem, fuel: nat): (o: Outcome)
    requires WellFormed(p)
    ensures |o.state.alphas| == |p.labels|
  {
    Run(p, Initial(|p.labels|), 0, [], fuel)
  }

  /** Number of trailing passes with no change: what the patience counter counts. */
  function TrailingZeros(h: seq<nat>): nat
  {
    if |h| == 0 || h[|h| - 1] != 0 then 0 else TrailingZeros(h[..|h| - 1]) + 1
  }

  // ---------------------------------------------------------------------------
  // The pair step

  /** With the multipliers in the box, L <= alpha_j <= H and [L, H] lies in [0, C]. */
  lemma BoundsInBox(yi: int, yj: int, ai: real, aj: real, c: real)
    requires 0.0 <= ai <= c && 0.0 <= aj <= c
    ensures var (lo, hi) := Bounds(yi, yj, ai, aj, c); 0.0 <= lo <= aj <= hi <= c
  {
  }

  /** An applied step keeps both multipliers in [0, C]. */
  lemma PairStepInBox(yi: int, yj: int, ei: int, ej: int, ai: real, aj: real, fi: bool, fj: bool,
                      kii: real, kij: real, kjj: real, b: real, c: real, tol: real)
    requires yi == 1 || yi == -1
    requires yj == 1 || yj == -1
    requires 0.0 <= ai <= c && 0.0 <= aj <= c
    ensures match PairStep(yi, yj, ei, ej, ai, aj, fi, fj, kii, kij, kjj, b, c, tol)
            case None => true
            case Some(st) => 0.0 <= st.alphaI <= c && 0.0 <= st.alphaJ <= c
  {
    BoundsInBox(yi, yj, ai, aj, c);
    var (lo, hi) := Bounds(yi, yj, ai, aj, c);
    var r := PairStep(yi, yj, ei, ej, ai, aj, fi, fj, kii, kij, kjj, b, c, tol);
    if r.Some? {
      var aj' := r.value.alphaJ;
      assert lo <= aj' <= hi;
      assert r.value.alphaI == Compensate(yi, yj, ai, aj, aj');
      if yi == yj {
        assert Compensate(yi, yj, ai, aj, aj') == ai + aj - aj';
      } else {
        assert Compensate(yi, yj, ai, aj, aj') == ai - aj + aj';
      }
    }
  }

  lemma CompensateConserves(yi: int, yj: int, ai: real, aj: real, aj': real)
    requires yi == 1 || yi == -1
    requires yj == 1 || yj == -1
    ensures yi as real * Compensate(yi, yj, ai, aj, aj') + yj as real * aj' == yi as real * ai + yj as real * aj
  {
    if yi == yj {
      assert (yi * yj) as real == 1.0;
    } else {
      assert (yi * yj) as real == -1.0;
    }
  }

  /** An applied step keeps y_i * alpha_i + y_j * alpha_j. */
  lemma PairStepConserves(yi: int, yj: int, ei: int, ej: int, ai: real, aj: real, fi: bool, fj: bool,
                          kii: real, kij: real, kjj: real, b: real, c: real, tol: real)
    requires yi == 1 || yi == -1
    requires yj == 1 || yj == -1
    ensures match PairStep(yi, yj, ei, ej, ai, aj, fi, fj, kii, kij, kjj, b, c, tol)
            case None => true
            case Some(st) => yi as real * st.alphaI + yj as real * st.alphaJ == yi as real * ai + yj as real * aj
  {
    var r := PairStep(yi, yj, ei, ej, ai, aj, fi, fj, kii, kij, kjj, b, c, tol);
    if r.Some? {
      assert r.value.alphaI == Compensate(yi, yj, ai, aj, r.value.alphaJ);
      CompensateConserves(yi, yj, ai, aj, r.value.alphaJ);
    }
  }

  /**
   * For multipliers in [0, C] and a positive tolerance, whatever their PHP types: a pair
   * is skipped exactly when L = H, when eta >= 0, or when the clipped alpha_j moves by less
   * than the tolerance; an applied step moves alpha_j by at least the tolerance and takes
   * the bias b1 if alpha_i is interior, else b2 if alpha_j is interior, else their mean.
   */
  lemma PairStepCases(yi: int, yj: int, ei: int, ej: int, ai: real, aj: real, fi: bool, fj: bool,
                      kii: real, kij: real, kjj: real, b: real, c: real, tol: real)
    requires 0.0 <= ai <= c && 0.0 <= aj <= c && tol > 0.0
    ensures var (lo, hi) := Bounds(yi, yj, ai, aj, c);
            var eta := 2.0 * kij - kii - kjj;
            var r := PairStep(yi, yj, ei, ej, ai, aj, fi, fj, kii, kij, kjj, b, c, tol);
            && (r.None? <==>
                 (lo == hi || eta >= 0.0 || Abs(Clip(aj - (yj * (ei - ej)) as real / eta, lo, hi) - aj) < tol))
            && (r.Some? ==>
                 var (b1, b2) := BiasCandidates(yi, yj, ei, ej, ai, aj, r.value.alphaI, r.value.alphaJ, kii, kij, kjj, b);
                 && Abs(r.value.alphaJ - aj) >= tol
                 && lo <= r.value.alphaJ <= hi
                 && (0.0 < r.value.alphaI < c ==> r.value.bias == b1)
                 && (!(0.0 < r.value.alphaI < c) && 0.0 < r.value.alphaJ < c ==> r.value.bias == b2)
                 && (!(0.0 < r.value.alphaI < c) && !(0.0 < r.value.alphaJ < c) ==> r.value.bias == (b1 + b2) / 2.0))
  {
    BoundsInBox(yi, yj, ai, aj, c);
    var (lo, hi) := Bounds(yi, yj, ai, aj, c);
    var eta := 2.0 * kij - kii - kjj;
    if lo == hi && eta < 0.0 {
      assert Clip(aj - (yj * (ei - ej)) as real / eta, lo, hi) == aj;
    }
  }

  /** PHP's `$L === $H` is false when L and H are equal numbers of different types (int 0
      and float 0.0); for multipliers in [0, C] and a positive tolerance the clip then pins
      alpha_j to its old value and the tolerance test skips the pair anyway, so the types
      change no number. */
  lemma StrictEqualityHarmless(yi: int, yj: int, ei: int, ej: int, ai: real, aj: real,
                               fi: bool, fj: bool, fi': bool, fj': bool,
                               kii: real, kij: real, kjj: real, b: real, c: real, tol: real)
    requires 0.0 <= ai <= c && 0.0 <= aj <= c && tol > 0.0
    ensures var r := PairStep(yi, yj, ei, ej, ai, aj, fi, fj, kii, kij, kjj, b, c, tol);
            var r' := PairStep(yi, yj, ei, ej, ai, aj, fi', fj', kii, kij, kjj, b, c, tol);
            && r.None? == r'.None?
            && (r.Some? ==> r.value.alphaI == r'.value.alphaI && r.value.alphaJ == r'.value.alphaJ
                            && r.value.bias == r'.value.bias)
  {
    PairStepCases(yi, yj, ei, ej, ai, aj, fi, fj, kii, kij, kjj, b, c, tol);
    PairStepCases(yi, yj, ei, ej, ai, aj, fi', fj', kii, kij, kjj, b, c, tol);
  }

  /** With tolerance 0 the types do matter: for equal labels, C = 1, a float alpha_i = 0.0
      and an int alpha_j = 0, L is the int 0 and H the float 0.0, the pair is not skipped,
      and a step that moves nothing is counted as a change. */
  lemma StrictEqualityMatters()
    ensures var r := PairStep(1, 1, 1, 1, 0.0, 0.0, true, false, 1.0, 0.0, 1.0, 0.0, 1.0, 0.0);
            && Bounds(1, 1, 0.0, 0.0, 1.0) == (0.0, 0.0)
            && BoundKinds(1, 1, 0.0, 0.0, true, false, 1.0) == (false, true)
            && r == Some(Step(0.0, 0.0, true, true, -1.0))
    ensures PairStep(1, 1, 1, 1, 0.0, 0.0, false, false, 1.0, 0.0, 1.0, 0.0, 1.0, 0.0).None?
  {
  }

  /** A multiplier of PHP type int is 0 before a step and stays 0 after it: the int L is
      the 0 of `max`, the int H a sum of int zeros, and an int alpha_i a sum of int zeros. */
  lemma PairStepKinds(yi: int, yj: int, ei: int, ej: int, ai: real, aj: real, fi: bool, fj: bool,
                      kii: real, kij: real, kjj: real, b: real, c: real, tol: real)
    requires (!fi ==> ai == 0.0) && (!fj ==> aj == 0.0)
    ensures match PairStep(yi, yj, ei, ej, ai, aj, fi, fj, kii, kij, kjj, b, c, tol)
            case None => true
            case Some(st) => (!st.floatI ==> st.alphaI == 0.0) && (!st.floatJ ==> st.alphaJ == 0.0)
  {
    var (lo, hi) := Bounds(yi, yj, ai, aj, c);
    var (loFloat, hiFloat) := BoundKinds(yi, yj, ai, aj, fi, fj, c);
    assert !loFloat ==> lo == 0.0;
    assert !hiFloat ==> hi == 0.0;
    var r := PairStep(yi, yj, ei, ej, ai, aj, fi, fj, kii, kij, kjj, b, c, tol);
    if r.Some? && !r.value.floatI {
      assert r.value.alphaI == Compensate(yi, yj, ai, aj, r.value.alphaJ);
    }
  }

  // ---------------------------------------------------------------------------
  // Visits, passes and the run

  lemma {:induction false} SignedSumUpdate(labels: seq<int>, alphas: seq<real>, i: nat, x: real)
    requires |labels| == |alphas| && i < |alphas|
    ensures SignedSum(labels, alphas[i := x]) == SignedSum(labels, alphas) + labels[i] as real * (x - alphas[i])
  {
    var n := |alphas|;
    var a' := alphas[i := x];
    if i < n - 1 {
      assert a'[..n - 1] == alphas[..n - 1][i := x];
      SignedSumUpdate(labels[..n - 1], alphas[..n - 1], i, x);
    } else {
      assert a'[..n - 1] == alphas[..n - 1];
    }
  }

  lemma SignedSumZero(labels: seq<int>, n: nat)
    requires |labels| == n
    ensures SignedSum(labels, seq(n, _ => 0.0)) == 0.0
    decreases n
  {
    if n > 0 {
      assert seq(n, _ => 0.0)[..n - 1] == seq(n - 1, _ => 0.0);
      SignedSumZero(labels[..n - 1], n - 1);
    }
  }

  /** A visit that does not apply a pair step leaves the multipliers, their types, the bias
      and the changed count as they were; one that applies it counts one more changed pair.
      A violator hangs exactly when it is the only instance. */
  lemma VisitSkipDiscipline(p: Problem, s: State, i: nat)
    requires WellFormed(p) && |s.alphas| == |s.floats| == |p.labels| && i < |p.labels|
    ensures var r := Visit(p, s, i);
            (r.alphas == s.alphas && r.floats == s.floats && r.bias == s.bias && r.changed == s.changed)
            || r.changed == s.changed + 1
    ensures var r := Visit(p, s, i);
            (!Violates(p.labels[i], p.errors[i], s.alphas[i], p.c, p.tol) ==> r == s)
    ensures var r := Visit(p, s, i);
            Violates(p.labels[i], p.errors[i], s.alphas[i], p.c, p.tol) && |p.labels| == 1 ==> r == s.(hung := true)
    ensures var r := Visit(p, s, i);
            var j := p.pick(s.draws, i);
            Violates(p.labels[i], p.errors[i], s.alphas[i], p.c, p.tol) && |p.labels| >= 2 ==>
              var st := PairStep(p.labels[i], p.labels[j], p.errors[i], p.errors[j], s.alphas[i], s.alphas[j],
                                 s.floats[i], s.floats[j], p.gram[i][i], p.gram[i][j], p.gram[j][j], s.bias, p.c, p.tol);
              && r.draws == s.draws + 1 && r.hung == s.hung
              && (st.None? ==> r.alphas == s.alphas && r.floats == s.floats && r.bias == s.bias && r.changed == s.changed)
              && (st.Some? ==>
                    && r.changed == s.changed + 1 && r.bias == st.value.bias
                    && r.alphas == s.alphas[i := st.value.alphaI][j := st.value.alphaJ]
                    && r.floats == s.floats[i := st.value.floatI][j := st.value.floatJ])
  {
  }

  /** Writing new values for alpha_i and alpha_j (i != j) changes the signed sum by
      y_i * (change of alpha_i) + y_j * (change of alpha_j). */
  lemma SignedSumUpdatePair(labels: seq<int>, alphas: seq<real>, i: nat, j: nat, x: real, y: real)
    requires |labels| == |alphas| && i < |alphas| && j < |alphas| && i != j
    ensures SignedSum(labels, alphas[i := x][j := y])
         == SignedSum(labels, alphas) + labels[i] as real * (x - alphas[i]) + labels[j] as real * (y - alphas[j])
  {
    var a1 := alphas[i := x];
    SignedSumUpdate(labels, alphas, i, x);
    SignedSumUpdate(labels, a1, j, y);
  }

  /** Moving two multipliers along the constraint line keeps the signed sum. */
  lemma PairUpdateKeepsSum(labels: seq<int>, alphas: seq<real>, i: nat, j: nat, x: real, y: real)
    requires |labels| == |alphas| && i < |alphas| && j < |alphas| && i != j
    requires labels[i] as real * x + labels[j] as real * y == labels[i] as real * alphas[i] + labels[j] as real * alphas[j]
    ensures SignedSum(labels, alphas[i := x][j := y]) == SignedSum(labels, alphas)
  {
    SignedSumUpdatePair(labels, alphas, i, j, x, y);
    var yi, yj := labels[i] as real, labels[j] as real;
    assert yi * (x - alphas[i]) + yj * (y - alphas[j]) == (yi * x + yj * y) - (yi * alphas[i] + yj * alphas[j]);
  }

  lemma InBoxUpdatePair(alphas: seq<real>, c: real, i: nat, j: nat, x: real, y: real)
    requires InBox(alphas, c) && i < |alphas| && j < |alphas|
    requires 0.0 <= x <= c && 0.0 <= y <= c
    ensures InBox(alphas[i := x][j := y], c)
  {
  }

  /** An applied pair step on two distinct instances keeps every multiplier in [0, C] and
      keeps the signed sum. */
  lemma PairStepKeepsInvariant(labels: seq<int>, alphas: seq<real>, i: nat, j: nat, ei: int, ej: int,
                               fi: bool, fj: bool, kii: real, kij: real, kjj: real, b: real, c: real, tol: real)
    requires |labels| == |alphas| && i < |alphas| && j < |alphas| && i != j
    requires SignLabels(labels) && InBox(alphas, c)
    ensures match PairStep(labels[i], labels[j], ei, ej, alphas[i], alphas[j], fi, fj, kii, kij, kjj, b, c, tol)
            case None => true
            case Some(st) =>
              && InBox(alphas[i := st.alphaI][j := st.alphaJ], c)
              && SignedSum(labels, alphas[i := st.alphaI][j := st.alphaJ]) == SignedSum(labels, alphas)
  {
    var r := PairStep(labels[i], labels[j], ei, ej, alphas[i], alphas[j], fi, fj, kii, kij, kjj, b, c, tol);
    if r.Some? {
      PairStepInBox(labels[i], labels[j], ei, ej, alphas[i], alphas[j], fi, fj, kii, kij, kjj, b, c, tol);
      PairStepConserves(labels[i], labels[j], ei, ej, alphas[i], alphas[j], fi, fj, kii, kij, kjj, b, c, tol);
      InBoxUpdatePair(alphas, c, i, j, r.value.alphaI, r.value.alphaJ);
      PairUpdateKeepsSum(labels, alphas, i, j, r.value.alphaI, r.value.alphaJ);
    }
  }

  /** A visit keeps the multipliers in [0, C] and keeps the signed sum. */
  lemma VisitInvariant(p: Problem, s: State, i: nat)
    requires WellFormed(p) && |s.alphas| == |s.floats| == |p.labels| && i < |p.labels|
    requires SignLabels(p.labels) && InBox(s.alphas, p.c)
    ensures InBox(Visit(p, s, i).alphas, p.c)
    ensures SignedSum(p.labels, Visit(p, s, i).alphas) == SignedSum(p.labels, s.alphas)
  {
    VisitSkipDiscipline(p, s, i);
    if Violates(p.labels[i], p.errors[i], s.alphas[i], p.c, p.tol) && |p.labels| >= 2 {
      var j := p.pick(s.draws, i);
      PairStepKeepsInvariant(p.labels, s.alphas, i, j, p.errors[i], p.errors[j], s.floats[i], s.floats[j],
                             p.gram[i][i], p.gram[i][j], p.gram[j][j], s.bias, p.c, p.tol);
    }
  }

  lemma {:induction false} SweepInvariant(p: Problem, s: State, k: nat)
    requires WellFormed(p) && |s.alphas| == |s.floats| == |p.labels| && k <= |p.labels|
    requires SignLabels(p.labels) && InBox(s.alphas, p.c)
    ensures InBox(Sweep(p, s, k).alphas, p.c)
    ensures SignedSum(p.labels, Sweep(p, s, k).alphas) == SignedSum(p.labels, s.alphas)
  {
    if k > 0 {
      var previous := Sweep(p, s, k - 1);
      SweepInvariant(p, s, k - 1);
      VisitInvariant(p, previous, k - 1);
      assert Sweep(p, s, k) == Visit(p, previous, k - 1);
    }
  }

  lemma {:induction false} RunInvariant(p: Problem, s: State, iterations: int, history: seq<nat>, fuel: nat)
    requires WellFormed(p) && |s.alphas| == |s.floats| == |p.labels|
    requires SignLabels(p.labels) && InBox(s.alphas, p.c)
    ensures InBox(Run(p, s, iterations, history, fuel).state.alphas, p.c)
    ensures SignedSum(p.labels, Run(p, s, iterations, history, fuel).state.alphas) == SignedSum(p.labels, s.alphas)
    decreases fuel
  {
    if !(fuel == 0 || iterations >= p.maxIterations) {
      var s0 := s.(changed := 0);
      SweepInvariant(p, s0, |p.labels|);
      var s' := Sweep(p, s0, |p.labels|);
      if !s'.hung {
        RunInvariant(p, s', if s'.changed == 0 then iterations + 1 else 0, history + [s'.changed], fuel - 1);
      }
    }
  }

  /** With labels in {-1, +1} and C >= 0, every multiplier ends in [0, C] and
      the sum of y_k * alpha_k stays 0, its value at the all-zero start. */
  lemma OptimiseInvariant(p: Problem, fuel: nat)
    requires WellFormed(p) && SignLabels(p.labels) && p.c >= 0.0
    ensures InBox(Optimise(p, fuel).state.alphas, p.c)
    ensures SignedSum(p.labels, Optimise(p, fuel).state.alphas) == 0.0
  {
    var s := Initial(|p.labels|);
    SignedSumZero(p.labels, |p.labels|);
    RunInvariant(p, s, 0, [], fuel);
  }

  // ---------------------------------------------------------------------------
  // PHP types and the hang

  /** What every state of the run keeps, for any labels, C and tolerance: a multiplier of
      PHP type int is 0, and only a one-instance problem hangs. */
  ghost predicate Disciplined(p: Problem, s: State)
  {
    && (forall k :: 0 <= k < |s.alphas| && k < |s.floats| ==> (!s.floats[k] ==> s.alphas[k] == 0.0))
    && (s.hung ==> |p.labels| == 1)
  }

  lemma VisitDisciplined(p: Problem, s: State, i: nat)
    requires WellFormed(p) && |s.alphas| == |s.floats| == |p.labels| && i < |p.labels|
    requires Disciplined(p, s)
    ensures Disciplined(p, Visit(p, s, i))
  {
    VisitSkipDiscipline(p, s, i);
    if Violates(p.labels[i], p.errors[i], s.alphas[i], p.c, p.tol) && |p.labels| >= 2 {
      var j := p.pick(s.draws, i);
      PairStepKinds(p.labels[i], p.labels[j], p.errors[i], p.errors[j], s.alphas[i], s.alphas[j],
                    s.floats[i], s.floats[j], p.gram[i][i], p.gram[i][j], p.gram[j][j], s.bias, p.c, p.tol);
    }
  }

  lemma {:induction false} SweepDisciplined(p: Problem, s: State, k: nat)
    requires WellFormed(p) && |s.alphas| == |s.floats| == |p.labels| && k <= |p.labels|
    requires Disciplined(p, s)
    ensures Disciplined(p, Sweep(p, s, k))
  {
    if k > 0 {
      SweepDisciplined(p, s, k - 1);
      VisitDisciplined(p, Sweep(p, s, k - 1), k - 1);
    }
  }

  lemma {:induction false} RunDisciplined(p: Problem, s: State, iterations: int, history: seq<nat>, fuel: nat)
    requires WellFormed(p) && |s.alphas| == |s.floats| == |p.labels|
    requires Disciplined(p, s)
    ensures Disciplined(p, Run(p, s, iterations, history, fuel).state)
    decreases fuel
  {
    if !(fuel == 0 || iterations >= p.maxIterations) {
      var s0 := s.(changed := 0);
      SweepDisciplined(p, s0, |p.labels|);
      var s' := Sweep(p, s0, |p.labels|);
      if !s'.hung {
        RunDisciplined(p, s', if s'.changed == 0 then iterations + 1 else 0, history + [s'.changed], fuel - 1);
      }
    }
  }

  /** For any labels, C and tolerance, training ends with every int-typed multiplier 0 (so
      the only type split `===` can meet is int 0 against float 0.0), and it hangs only
      with a single instance. */
  lemma OptimiseDisciplined(p: Problem, fuel: nat)
    requires WellFormed(p)
    ensures var s := Optimise(p, fuel).state;
            forall k :: 0 <= k < |s.alphas| ==> (!s.floats[k] ==> s.alphas[k] == 0.0)
    ensures Optimise(p, fuel).state.hung ==> |p.labels| == 1
  {
    RunDisciplined(p, Initial(|p.labels|), 0, [], fuel);
  }

  /** With one instance nothing is drawn and nothing moves: a non-violator leaves every
      pass unchanged, and the counter reaches maxIterations after that many passes. */
  lemma {:induction false} RunAlone(p: Problem, iterations: int, history: seq<nat>, fuel: nat)
    requires WellFormed(p) && |p.labels| == 1
    requires !Violates(p.labels[0], p.errors[0], 0.0, p.c, p.tol)
    ensures var o := Run(p, Initial(1), iterations, history, fuel);
            && o.state == Initial(1)
            && o.iterations == (if iterations >= p.maxIterations then iterations
                                else if fuel >= p.maxIterations - iterations then p.maxIterations
                                else iterations + fuel)
    decreases fuel
  {
    if !(fuel == 0 || iterations >= p.maxIterations) {
      var s := Initial(1);
      assert Sweep(p, s.(changed := 0), 1) == Visit(p, s, 0) == s;
      RunAlone(p, iterations + 1, history + [0], fuel - 1);
    }
  }

  /**
   * Training on one instance (SVM.php:136-142): if that instance violates the KKT test on
   * the first pass, the j-selection loop never ends; otherwise every pass changes nothing
   * and, with enough fuel, the loop ends after maxIterations passes. The multiplier stays 0.
   */
  lemma OptimiseAlone(p: Problem, fuel: nat)
    requires WellFormed(p) && |p.labels| == 1
    ensures var o := Optimise(p, fuel);
            var violates := Violates(p.labels[0], p.errors[0], 0.0, p.c, p.tol);
            && o.state.alphas == [0.0]
            && (o.state.hung <==> violates && fuel > 0 && p.maxIterations > 0)
            && (!violates && fuel >= p.maxIterations > 0 ==> o.iterations == p.maxIterations)
  {
    var s := Initial(1);
    assert s.alphas == [0.0];
    if Violates(p.labels[0], p.errors[0], 0.0, p.c, p.tol) {
      if fuel > 0 && p.maxIterations > 0 {
        assert Sweep(p, s.(changed := 0), 1) == Visit(p, s, 0) == s.(hung := true);
      }
    } else {
      RunAlone(p, 0, [], fuel);
    }
  }

  /**
   * The same visit with the guard SVM.php:140-142 lacks: with fewer than two instances
   * there is no partner j, and the instance is passed over instead of hanging.
   */
  function GuardedVisit(p: Problem, s: State, i: nat): (r: State)
    requires WellFormed(p) && |s.alphas| == |s.floats| == |p.labels| && i < |p.labels|
    ensures |r.alphas| == |r.floats| == |s.alphas|
  {
    if |p.labels| < 2 then s else Visit(p, s, i)
  }

  /** The guarded visit never hangs, and differs from the code's visit only where that one hangs. */
  lemma GuardedVisitNeverHangs(p: Problem, s: State, i: nat)
    requires WellFormed(p) && |s.alphas| == |s.floats| == |p.labels| && i < |p.labels|
    ensures !s.hung ==> !GuardedVisit(p, s, i).hung
    ensures !Visit(p, s, i).hung || s.hung ==> GuardedVisit(p, s, i) == Visit(p, s, i)
  {
    VisitSkipDiscipline(p, s, i);
  }

  // ---------------------------------------------------------------------------
  // The patience counter

  /**
   * The patience counter: the run records one changed-pair count per pass, the counter
   * is the number of trailing passes with no change, a pass is run only while that
   * number is below maxIterations, and the loop stops only once it reaches
   * maxIterations (or the fuel is spent).
   */
  lemma {:induction false} RunPatience(p: Problem, s: State, iterations: int, history: seq<nat>, fuel: nat)
    requires WellFormed(p) && |s.alphas| == |s.floats| == |p.labels|
    requires iterations == TrailingZeros(history)
    requires forall m :: 0 <= m < |history| ==> TrailingZeros(history[..m]) < p.maxIterations
    ensures var o := Run(p, s, iterations, history, fuel);
            && o.iterations == TrailingZeros(o.history)
            && |history| <= |o.history| <= |history| + fuel
            && o.history[..|history|] == history
            && (o.iterations >= p.maxIterations || o.state.hung || |o.history| == |history| + fuel)
            && (forall m :: 0 <= m < |o.history| ==> TrailingZeros(o.history[..m]) < p.maxIterations)
    decreases fuel
  {
    var s' := Sweep(p, s.(changed := 0), |p.labels|);
    if !(fuel == 0 || iterations >= p.maxIterations || s.hung || s'.hung) {
      var h' := history + [s'.changed];
      assert h'[..|history|] == history;
      assert TrailingZeros(h') == if s'.changed == 0 then iterations + 1 else 0;
      forall m | 0 <= m < |h'|
        ensures TrailingZeros(h'[..m]) < p.maxIterations
      {
        if m < |history| {
          assert h'[..m] == history[..m];
        } else {
          assert h'[..m] == history;
        }
      }
      RunPatience(p, s', if s'.changed == 0 then iterations + 1 else 0, h', fuel - 1);
      var o := Run(p, s', if s'.changed == 0 then iterations + 1 else 0, h', fuel - 1);
      assert o.history[..|history|] == o.history[..|h'|][..|history|];
    }
  }

  /** The loop of one `train` call stops after maxIterations consecutive passes without
      a changed pair, unless a pass hangs or the fuel runs out; with maxIterations <= 0 it
      runs no pass. */
  lemma OptimisePatience(p: Problem, fuel: nat)
    requires WellFormed(p)
    ensures var o := Optimise(p, fuel);
            && o.iterations == TrailingZeros(o.history)
            && |o.history| <= fuel
            && (o.iterations >= p.maxIterations || o.state.hung || |o.history| == fuel)
            && (forall m :: 0 <= m < |o.history| ==> TrailingZeros(o.history[..m]) < p.maxIterations)
            && (p.maxIterations <= 0 ==> o.history == [] && o.state == Initial(|p.labels|))
  {
    RunPatience(p, Initial(|p.labels|), 0, [], fuel);
  }

  /** A run that hangs does so before its counter reaches maxIterations, so a hung run
      never looks finished. */
  lemma {:induction false} RunHangsEarly(p: Problem, s: State, iterations: int, history: seq<nat>, fuel: nat)
    requires WellFormed(p) && |s.alphas| == |s.floats| == |p.labels| && !s.hung
    ensures var o := Run(p, s, iterations, history, fuel);
            o.state.hung ==> o.iterations < p.maxIterations
    decreases fuel
  {
    if !(fuel == 0 || iterations >= p.maxIterations) {
      var s' := Sweep(p, s.(changed := 0), |p.labels|);
      if !s'.hung {
        RunHangsEarly(p, s', if s'.changed == 0 then iterations + 1 else 0, history + [s'.changed], fuel - 1);
      }
    }
  }

  lemma OptimiseHangsEarly(p: Problem, fuel: nat)
    requires WellFormed(p)
    ensures Optimise(p, fuel).state.hung ==> Optimise(p, fuel).iterations < p.maxIterations
  {
    RunHangsEarly(p, Initial(|p.labels|), 0, [], fuel);
  }
}
