/**
 * The multinomial naive Bayes classifier of src/PhpMachinist/Models/MultinomialNaiveBayes.php:
 * training counts labels and (label, feature key, feature value) triples into nested maps;
 * prediction scores each class by the log of its frequency plus the logs of Laplace-smoothed
 * feature ratios and returns the first class with the strictly greatest score.
 */
module NaiveBayes {
  import opened Wrappers
  import opened Tally

  type Label = string
  type Value = string

  /** Counts of the values seen under one feature key for one class. */
  type Column = map<Value, nat>

  /** `featureCounts[class][featureKey][feature]`, keyed by the pair (class, featureKey). */
  type FeatureCounts = map<(Label, nat), Column>

  /** PHP_INT_MIN, the score every class must beat. */
  const PhpIntMin: int := -9223372036854775808

  /** The three tables of the classifier, as a value. `classes` holds the keys of the PHP
      `classes` array in insertion order. */
  datatype Model = Model(classes: seq<Label>, classCounts: map<Label, nat>, featureCounts: FeatureCounts)

  /** `featureCounts[(c, k)]`, or an empty column when PHP would find nothing there. */
  function ColumnOf(fc: FeatureCounts, c: Label, k: nat): Column
  {
    if (c, k) in fc then fc[(c, k)] else map[]
  }

  /** `featureCounts[(c, k)][v] = n`, creating the inner arrays as PHP does. */
  function Set(fc: FeatureCounts, c: Label, k: nat, v: Value, n: nat): (r: FeatureCounts)
    ensures ColumnOf(r, c, k) == ColumnOf(fc, c, k)[v := n]
  {
    fc[(c, k) := ColumnOf(fc, c, k)[v := n]]
  }

  /** Setting one count leaves every other column as it was. */
  lemma SetLeavesOthers(fc: FeatureCounts, c: Label, k: nat, v: Value, n: nat, c': Label, k': nat)
    requires c' != c || k' != k
    ensures ColumnOf(Set(fc, c, k, v, n), c', k') == ColumnOf(fc, c', k')
  {
  }

  /** A second write to the same count overrides the first. */
  lemma SetTwice(fc: FeatureCounts, c: Label, k: nat, v: Value, a: nat, b: nat)
    ensures Set(Set(fc, c, k, v, a), c, k, v, b) == Set(fc, c, k, v, b)
  {
    var column := ColumnOf(fc, c, k);
    var first: Column := column[v := a];
    assert first[v := b] == column[v := b];
  }

  /** One more count of v in a column. */
  function BumpColumn(column: Column, v: Value): Column
  {
    column[v := Get(column, v) + 1]
  }

  /** One increment of `featureCounts[(c, k)][v]`. */
  function Bump(fc: FeatureCounts, c: Label, k: nat, v: Value): FeatureCounts
  {
    Set(fc, c, k, v, Get(ColumnOf(fc, c, k), v) + 1)
  }

  /** The feature counts after the first `count` features of one sample of class c. */
  function CountFeatures(fc: FeatureCounts, c: Label, features: seq<Value>, count: nat): FeatureCounts
    requires count <= |features|
  {
    if count == 0 then fc else Bump(CountFeatures(fc, c, features, count - 1), c, count - 1, features[count - 1])
  }

  /** `classes[$class] = []` the first time a label is seen. */
  function AddClass(classes: seq<Label>, c: Label): seq<Label>
  {
    if c in classes then classes else classes + [c]
  }

  /** The classes after the first `count` samples. */
  function ClassesAfter(classes: seq<Label>, labels: seq<Label>, count: nat): seq<Label>
    requires count <= |labels|
  {
    if count == 0 then classes else AddClass(ClassesAfter(classes, labels, count - 1), labels[count - 1])
  }

  /** The class counts after the first `count` samples. */
  function CountsAfter(counts: map<Label, nat>, labels: seq<Label>, count: nat): map<Label, nat>
    requires count <= |labels|
  {
    IncrementAll(counts, labels[..count])
  }

  /** The feature counts after the first `count` samples. */
  function FeaturesAfter(fc: FeatureCounts, dataset: seq<seq<Value>>, labels: seq<Label>, count: nat): FeatureCounts
    requires count <= |dataset| <= |labels|
  {
    if count == 0 then fc
    else
      var features := dataset[count - 1];
      CountFeatures(FeaturesAfter(fc, dataset, labels, count - 1), labels[count - 1], features, |features|)
  }

  /** The tables after `train(dataset, labels)`. */
  function TrainAll(m: Model, dataset: seq<seq<Value>>, labels: seq<Label>): Model
    requires |dataset| <= |labels|
  {
    Model(ClassesAfter(m.classes, labels, |dataset|), CountsAfter(m.classCounts, labels, |dataset|),
          FeaturesAfter(m.featureCounts, dataset, labels, |dataset|))
  }

  /** No label is listed twice. */
  predicate Distinct(s: seq<Label>)
  {
    forall p, q :: 0 <= p < q < |s| ==> s[p] != s[q]
  }

  /** What the tables always satisfy: the listed classes are exactly the counted ones, each
      listed once and counted at least once. */
  ghost predicate Coherent(m: Model)
  {
    Listed(m.classes, m.classCounts)
  }

  ghost predicate Listed(classes: seq<Label>, counts: map<Label, nat>)
  {
    && Distinct(classes)
    && (forall c :: c in counts <==> c in classes)
    && (forall c :: c in counts ==> counts[c] >= 1)
  }

  /** Every class has a column for every key of the sample (otherwise PHP's `array_sum` gets null). */
  predicate Answerable(m: Model, features: seq<Value>)
  {
    forall c :: c in m.classes ==>
      forall k :: 0 <= k < |features| ==> (c, k) in m.featureCounts
  }

  // ---------------------------------------------------------------------------
  // Counting over the samples

  /** The number of the first `count` samples labelled c whose feature k equals v. */
  function Matching(dataset: seq<seq<Value>>, labels: seq<Label>, c: Label, k: nat, v: Value, count: nat): nat
    requires count <= |dataset| <= |labels|
  {
    if count == 0 then 0
    else Matching(dataset, labels, c, k, v, count - 1)
         + (if labels[count - 1] == c && k < |dataset[count - 1]| && dataset[count - 1][k] == v then 1 else 0)
  }

  /** The number of the first `count` samples labelled c that have feature key k. */
  function WithKey(dataset: seq<seq<Value>>, labels: seq<Label>, c: Label, k: nat, count: nat): nat
    requires count <= |dataset| <= |labels|
  {
    if count == 0 then 0
    else WithKey(dataset, labels, c, k, count - 1) + (if labels[count - 1] == c && k < |dataset[count - 1]| then 1 else 0)
  }

  /** The index of the first occurrence of x in s. */
  function FirstIndex(s: seq<Label>, x: Label): (i: nat)
    requires x in s
    ensures i < |s| && s[i] == x && x !in s[..i]
  {
    if s[0] == x then 0 else 1 + FirstIndex(s[1..], x)
  }

  // ---------------------------------------------------------------------------
  // Scoring

  /** count(class) / sum(counts). */
  function ClassRatio(count: nat, total: nat): (r: real)
    requires 0 < count <= total
    ensures 0.0 < r <= 1.0
  {
    count as real / total as real
  }

  /** (count(x, c) + 1) / (sum of the column + number of distinct values in it). */
  function SeenRatio(count: nat, sum: nat, distinct: nat): real
    requires sum + distinct > 0
  {
    (count + 1) as real / (sum + distinct) as real
  }

  /** 1 / (sum of the column + number of distinct values in it + 1), for an unseen value. */
  function UnseenRatio(sum: nat, distinct: nat): real
  {
    1.0 / (sum + distinct + 1) as real
  }

  /** A count stored in a map is at most the sum of the map. */
  lemma MapSumAtLeast<K>(m: map<K, nat>, k: K)
    requires k in m
    ensures MapSum(m) >= m[k]
  {
    MapSumRemove(m, k);
  }

  /** A column in which v is counted is not empty. */
  lemma ColumnNonEmpty(column: Column, v: Value)
    requires v in column
    ensures |column| >= 1
  {
    assert v in column.Keys;
  }

  /** The Laplace-smoothed ratio of value v in a column whose counts add up to `sum`. */
  function Smoothed(column: Column, sum: nat, v: Value): real
  {
    if v in column then
      ColumnNonEmpty(column, v);
      SeenRatio(column[v], sum, |column|)
    else UnseenRatio(sum, |column|)
  }

  /** The smoothed ratio of feature k of the sample for class c. */
  ghost function FeatureRatio(m: Model, c: Label, features: seq<Value>, k: nat): real
    requires Answerable(m, features) && c in m.classes && k < |features|
  {
    var column := m.featureCounts[(c, k)];
    Smoothed(column, MapSum(column), features[k])
  }

  /** The score of class c after the first `count` features of the sample. */
  ghost function Score(m: Model, c: Label, features: seq<Value>, ln: real -> real, count: nat): real
    requires Coherent(m) && Answerable(m, features) && c in m.classes && count <= |features|
  {
    if count == 0 then
      MapSumAtLeast(m.classCounts, c);
      ln(ClassRatio(m.classCounts[c], MapSum(m.classCounts)))
    else Score(m, c, features, ln, count - 1) + ln(FeatureRatio(m, c, features, count - 1))
  }

  /** The scores of the first `count` classes over the whole sample, in the order of `classes`. */
  ghost function Scores(m: Model, features: seq<Value>, ln: real -> real, count: nat := |m.classes|): (r: seq<real>)
    requires Coherent(m) && Answerable(m, features) && count <= |m.classes|
    ensures |r| == count
  {
    if count == 0 then [] else Scores(m, features, ln, count - 1) + [Score(m, m.classes[count - 1], features, ln, |features|)]
  }

  lemma {:induction false} ScoresAt(m: Model, features: seq<Value>, ln: real -> real, j: nat, s: real, count: nat := |m.classes|)
    requires Coherent(m) && Answerable(m, features) && j < count <= |m.classes|
    requires s == Score(m, m.classes[j], features, ln, |features|)
    ensures Scores(m, features, ln, count)[j] == s
  {
    if j < count - 1 {
      ScoresAt(m, features, ln, j, s, count - 1);
    }
  }

  /** The best class and its score after the first `count` classes. */
  function Best(classes: seq<Label>, scores: seq<real>, count: nat): (Option<Label>, real)
    requires count <= |classes| == |scores|
  {
    if count == 0 then (None, PhpIntMin as real)
    else
      var previous := Best(classes, scores, count - 1);
      if scores[count - 1] > previous.1 then (Some(classes[count - 1]), scores[count - 1]) else previous
  }

  /** The value `predict` returns; None where PHP returns null from a `string` method. */
  ghost function Prediction(m: Model, features: seq<Value>, ln: real -> real): Option<Label>
    requires Coherent(m) && Answerable(m, features)
  {
    Best(m.classes, Scores(m, features, ln), |m.classes|).0
  }

  // ---------------------------------------------------------------------------
  // Properties of training

  lemma StepListed(classes: seq<Label>, counts: map<Label, nat>, c: Label)
    requires Listed(classes, counts)
    ensures Listed(AddClass(classes, c), Increment(counts, c))
  {
  }

  /** Training keeps the classes and their counts coherent. */
  lemma {:induction false} TrainListed(classes: seq<Label>, counts: map<Label, nat>, labels: seq<Label>, count: nat)
    requires count <= |labels| && Listed(classes, counts)
    ensures Listed(ClassesAfter(classes, labels, count), CountsAfter(counts, labels, count))
  {
    if count > 0 {
      TrainListed(classes, counts, labels, count - 1);
      StepListed(ClassesAfter(classes, labels, count - 1), CountsAfter(counts, labels, count - 1), labels[count - 1]);
      assert labels[..count][..count - 1] == labels[..count - 1];
    }
  }

  /** Training adds, never resets: the count of c grows by the number of samples labelled c. */
  lemma TrainClassCounts(counts: map<Label, nat>, labels: seq<Label>, count: nat, c: Label)
    requires count <= |labels|
    ensures Get(CountsAfter(counts, labels, count), c) == Get(counts, c) + Count(labels[..count], c)
  {
    IncrementAllCounts(counts, labels[..count], c);
  }

  /** The counts of all classes together grow by the number of samples. */
  lemma TrainTotal(counts: map<Label, nat>, labels: seq<Label>, count: nat)
    requires count <= |labels|
    ensures MapSum(CountsAfter(counts, labels, count)) == MapSum(counts) + count
  {
    IncrementAllTotal(counts, labels[..count]);
  }

  /** One sample's features bump (c, k, features[k]) once for each of its keys k and nothing else. */
  lemma {:induction false} CountFeaturesColumns(fc: FeatureCounts, c: Label, features: seq<Value>, count: nat, c': Label, k: nat)
    requires count <= |features|
    ensures var after := ColumnOf(CountFeatures(fc, c, features, count), c', k);
            if c' == c && k < count then after == BumpColumn(ColumnOf(fc, c', k), features[k])
            else after == ColumnOf(fc, c', k)
  {
    if count > 0 {
      CountFeaturesColumns(fc, c, features, count - 1, c', k);
      var previous := CountFeatures(fc, c, features, count - 1);
      var v := features[count - 1];
      var n := Get(ColumnOf(previous, c, count - 1), v) + 1;
      var now := Set(previous, c, count - 1, v, n);
      assert CountFeatures(fc, c, features, count) == now;
      if c' != c || k != count - 1 {
        SetLeavesOthers(previous, c, count - 1, v, n, c', k);
      } else {
        assert ColumnOf(previous, c, k) == ColumnOf(fc, c, k);
        assert ColumnOf(now, c, k) == BumpColumn(ColumnOf(previous, c, k), v);
      }
    }
  }

  /** `featureCounts[(c, k)][v]` grows by the number of samples labelled c whose feature k is v. */
  lemma {:induction false} TrainFeatureCounts(fc: FeatureCounts, dataset: seq<seq<Value>>, labels: seq<Label>, count: nat,
                                              c: Label, k: nat, v: Value)
    requires count <= |dataset| <= |labels|
    ensures Get(ColumnOf(FeaturesAfter(fc, dataset, labels, count), c, k), v)
         == Get(ColumnOf(fc, c, k), v) + Matching(dataset, labels, c, k, v, count)
  {
    if count > 0 {
      TrainFeatureCounts(fc, dataset, labels, count - 1, c, k, v);
      var before := FeaturesAfter(fc, dataset, labels, count - 1);
      CountFeaturesColumns(before, labels[count - 1], dataset[count - 1], |dataset[count - 1]|, c, k);
    }
  }

  /** Counting one sample labelled l adds 1 to the sum of column (c, k) when l is c and the
      sample has key k, and 0 otherwise. */
  lemma ColumnSumStep(before: FeatureCounts, l: Label, features: seq<Value>, c: Label, k: nat, n: nat)
    requires MapSum(ColumnOf(before, c, k)) == n
    ensures MapSum(ColumnOf(CountFeatures(before, l, features, |features|), c, k))
         == n + if l == c && k < |features| then 1 else 0
  {
    CountFeaturesColumns(before, l, features, |features|, c, k);
    if l == c && k < |features| {
      MapSumIncrement(ColumnOf(before, c, k), features[k]);
    }
  }

  /** The sum of column (c, k) grows by the number of samples labelled c that have key k. */
  lemma {:induction false} TrainColumnSums(fc: FeatureCounts, dataset: seq<seq<Value>>, labels: seq<Label>, count: nat,
                                           c: Label, k: nat)
    requires count <= |dataset| <= |labels|
    ensures MapSum(ColumnOf(FeaturesAfter(fc, dataset, labels, count), c, k))
         == MapSum(ColumnOf(fc, c, k)) + WithKey(dataset, labels, c, k, count)
  {
    if count > 0 {
      TrainColumnSums(fc, dataset, labels, count - 1, c, k);
      ColumnSumStep(FeaturesAfter(fc, dataset, labels, count - 1), labels[count - 1], dataset[count - 1], c, k,
                    MapSum(ColumnOf(fc, c, k)) + WithKey(dataset, labels, c, k, count - 1));
    }
  }

  /** When every sample labelled c has key k, as many samples have key k as are labelled c. */
  lemma {:induction false} WithKeyCountsAll(dataset: seq<seq<Value>>, labels: seq<Label>, c: Label, k: nat, count: nat)
    requires count <= |dataset| <= |labels|
    requires forall i :: 0 <= i < count && labels[i] == c ==> k < |dataset[i]|
    ensures WithKey(dataset, labels, c, k, count) == Count(labels[..count], c)
  {
    if count > 0 {
      WithKeyCountsAll(dataset, labels, c, k, count - 1);
      assert labels[..count][..count - 1] == labels[..count - 1];
    }
  }

  /**
   * Trained from empty tables, the number of samples is the sum of the class counts, and when
   * every sample of class c has key k the counts in column (c, k) add up to the count of c.
   */
  lemma FreshTotals(dataset: seq<seq<Value>>, labels: seq<Label>, c: Label, k: nat)
    requires |dataset| <= |labels|
    requires forall i :: 0 <= i < |dataset| && labels[i] == c ==> k < |dataset[i]|
    ensures var m := TrainAll(Model([], map[], map[]), dataset, labels);
            && MapSum(m.classCounts) == |dataset|
            && MapSum(ColumnOf(m.featureCounts, c, k)) == Get(m.classCounts, c)
  {
    TrainTotal(map[], labels, |dataset|);
    TrainColumnSums(map[], dataset, labels, |dataset|, c, k);
    WithKeyCountsAll(dataset, labels, c, k, |dataset|);
    TrainClassCounts(map[], labels, |dataset|, c);
  }

  /** A label absent from the first m labels whose first occurrence is at m. */
  lemma FirstIndexAt(labels: seq<Label>, x: Label, m: nat)
    requires m < |labels| && labels[m] == x && x !in labels[..m]
    ensures FirstIndex(labels, x) == m
  {
    var i := FirstIndex(labels, x);
    forall j | 0 <= j < m
      ensures labels[j] != x
    {
      assert labels[..m][j] == labels[j];
    }
    forall j | 0 <= j < i
      ensures labels[j] != x
    {
      assert labels[..i][j] == labels[j];
    }
  }

  /** A label among the first m labels first occurs before m. */
  lemma FirstIndexBefore(labels: seq<Label>, x: Label, m: nat)
    requires m <= |labels| && x in labels[..m]
    ensures FirstIndex(labels, x) < m
  {
    var i := FirstIndex(labels, x);
    var p :| 0 <= p < m && labels[..m][p] == x;
    forall j | 0 <= j < i
      ensures labels[j] != x
    {
      assert labels[..i][j] == labels[j];
    }
    assert labels[p] == x;
  }

  /** From index `from` on, s lists labels in the order of their first occurrence in `labels`. */
  predicate InFirstSeenOrder(s: seq<Label>, from: nat, labels: seq<Label>)
  {
    forall p, q :: from <= p < q < |s| ==>
      s[p] in labels && s[q] in labels && FirstIndex(labels, s[p]) < FirstIndex(labels, s[q])
  }

  /**
   * The classes after training: the earlier classes stay first, and the classes are exactly
   * the earlier ones and the labels seen, none listed twice.
   */
  lemma {:induction false} TrainClasses(classes: seq<Label>, labels: seq<Label>, count: nat)
    requires count <= |labels| && Distinct(classes)
    ensures var r := ClassesAfter(classes, labels, count);
            && |classes| <= |r| && r[..|classes|] == classes
            && Distinct(r)
            && (forall x :: x in r <==> x in classes || x in labels[..count])
  {
    if count > 0 {
      TrainClasses(classes, labels, count - 1);
      var before := ClassesAfter(classes, labels, count - 1);
      var x := labels[count - 1];
      assert labels[..count] == labels[..count - 1] + [x];
      if x !in before {
        assert ClassesAfter(classes, labels, count)[..|classes|] == before[..|classes|];
      }
    }
  }

  /** A class listed by training after the earlier ones is a label seen, not an earlier class. */
  lemma NewClassFromLabels(classes: seq<Label>, labels: seq<Label>, count: nat, p: nat)
    requires count <= |labels| && Distinct(classes)
    requires |classes| <= p < |ClassesAfter(classes, labels, count)|
    ensures var r := ClassesAfter(classes, labels, count);
            r[p] !in classes && r[p] in labels[..count]
  {
    TrainClasses(classes, labels, count);
    var r := ClassesAfter(classes, labels, count);
    forall p' | 0 <= p' < |classes|
      ensures classes[p'] != r[p]
    {
      assert r[p'] == r[..|classes|][p'];
    }
  }

  /** Appending a label that first occurs after all the listed ones keeps the order. */
  lemma AppendInOrder(s: seq<Label>, x: Label, from: nat, labels: seq<Label>)
    requires InFirstSeenOrder(s, from, labels) && x in labels
    requires forall p :: from <= p < |s| ==> s[p] in labels && FirstIndex(labels, s[p]) < FirstIndex(labels, x)
    ensures InFirstSeenOrder(s + [x], from, labels)
  {
    var r := s + [x];
    forall p, q | from <= p < q < |r|
      ensures r[p] in labels && r[q] in labels && FirstIndex(labels, r[p]) < FirstIndex(labels, r[q])
    {
      assert r[p] == s[p];
      if q < |s| {
        assert r[q] == s[q];
      }
    }
  }

  /** The classes training adds are listed in the order in which their labels first occur. */
  lemma {:induction false} TrainClassesOrder(classes: seq<Label>, labels: seq<Label>, count: nat)
    requires count <= |labels| && Distinct(classes)
    ensures InFirstSeenOrder(ClassesAfter(classes, labels, count), |classes|, labels)
  {
    if count > 0 {
      TrainClassesOrder(classes, labels, count - 1);
      var before := ClassesAfter(classes, labels, count - 1);
      var x := labels[count - 1];
      if x !in before {
        TrainClasses(classes, labels, count - 1);
        FirstIndexAt(labels, x, count - 1);
        forall p | |classes| <= p < |before|
          ensures before[p] in labels && FirstIndex(labels, before[p]) < FirstIndex(labels, x)
        {
          NewClassFromLabels(classes, labels, count - 1, p);
          FirstIndexBefore(labels, before[p], count - 1);
        }
        AppendInOrder(before, x, |classes|, labels);
      }
    }
  }

  // ---------------------------------------------------------------------------
  // Properties of prediction

  /** A log: monotone on the positive reals and 0 at 1. */
  ghost predicate IsLog(ln: real -> real)
  {
    && ln(1.0) == 0.0
    && forall x: real, y: real :: 0.0 < x <= y ==> ln(x) <= ln(y)
  }

  lemma UnitFraction(a: real, b: real)
    requires 0.0 < a <= b
    ensures 0.0 < a / b <= 1.0
  {
  }

  /** The smoothed ratio of any value in any column lies in (0, 1]. */
  lemma SmoothedInUnitInterval(column: Column, v: Value)
    ensures 0.0 < Smoothed(column, MapSum(column), v) <= 1.0
  {
    if v in column {
      MapSumAtLeast(column, v);
      ColumnNonEmpty(column, v);
      UnitFraction((column[v] + 1) as real, (MapSum(column) + |column|) as real);
    } else {
      UnitFraction(1.0, (MapSum(column) + |column| + 1) as real);
    }
  }

  /** So every per-feature log term, and the class term, is at most 0. */
  lemma LogTermsNonPositive(m: Model, c: Label, features: seq<Value>, ln: real -> real, k: nat)
    requires IsLog(ln) && Coherent(m) && Answerable(m, features) && c in m.classes && k < |features|
    ensures 0.0 < FeatureRatio(m, c, features, k) <= 1.0
    ensures ln(FeatureRatio(m, c, features, k)) <= 0.0
    ensures Score(m, c, features, ln, 0) <= 0.0
  {
    SmoothedInUnitInterval(m.featureCounts[(c, k)], features[k]);
    MapSumAtLeast(m.classCounts, c);
  }

  /**
   * `predict` picks the first class, in insertion order, whose score is strictly greatest:
   * no earlier class scores as much and no later class scores more. It picks nothing
   * exactly when no class scores above PHP_INT_MIN, in particular when there is no class.
   */
  lemma {:induction false} BestIsFirstMaximum(classes: seq<Label>, scores: seq<real>, count: nat)
    returns (i: nat)
    requires count <= |classes| == |scores|
    ensures var (best, score) := Best(classes, scores, count);
            && (best.None? <==> forall j :: 0 <= j < count ==> scores[j] <= PhpIntMin as real)
            && (best.None? ==> score == PhpIntMin as real)
            && (best.Some? ==>
                  && i < count && best.value == classes[i]
                  && score == scores[i] && score > PhpIntMin as real
                  && (forall j :: 0 <= j < i ==> scores[j] < score)
                  && (forall j :: 0 <= j < count ==> scores[j] <= score))
  {
    i := 0;
    if count > 0 {
      var i' := BestIsFirstMaximum(classes, scores, count - 1);
      if scores[count - 1] > Best(classes, scores, count - 1).1 {
        i := count - 1;
      } else {
        i := i';
      }
    }
  }

  /** One feature term of the score, from a column and its sum. */
  lemma ScoreStep(m: Model, c: Label, features: seq<Value>, ln: real -> real, k: nat, column: Column, sum: nat, s: real)
    requires Coherent(m) && Answerable(m, features) && c in m.classes && k < |features|
    requires column == m.featureCounts[(c, k)] && sum == MapSum(column) && s == Score(m, c, features, ln, k)
    ensures Score(m, c, features, ln, k + 1) == s + ln(Smoothed(column, sum, features[k]))
  {
  }

  // ---------------------------------------------------------------------------
  // The class

  /** `array_sum` of a map of counts: the class counts, or one feature's column. */
  method ArraySum<K>(m: map<K, nat>) returns (s: nat)
    ensures s == MapSum(m)
  {
    s := 0;
    var rest := m;
    while rest != map[]
      invariant s + MapSum(rest) == MapSum(m)
      decreases |rest|
    {
      var k :| k in rest;
      MapSumRemove(rest, k);
      RemoveKeyCard(rest, k);
      s := s + rest[k];
      rest := rest - {k};
    }
  }

  class MultinomialNaiveBayes {
    var classes: seq<Label>
    var classCounts: map<Label, nat>
    var featureCounts: FeatureCounts

    ghost function State(): Model
      reads this
    {
      Model(classes, classCounts, featureCounts)
    }

    ghost predicate Valid()
      reads this
    {
      Coherent(State())
    }

    constructor ()
      ensures Valid() && State() == Model([], map[], map[])
    {
      classes := [];
      classCounts := map[];
      featureCounts := map[];
    }

    /** One sample's features: `featureCounts[class][featureKey][feature]++` for each key. */
    method CountSample(features: seq<Value>, c: Label)
      modifies this
      ensures classes == old(classes) && classCounts == old(classCounts)
      ensures featureCounts == CountFeatures(old(featureCounts), c, features, |features|)
    {
      for k := 0 to |features|
        invariant classes == old(classes) && classCounts == old(classCounts)
        invariant featureCounts == CountFeatures(old(featureCounts), c, features, k)
      {
        ghost var before := featureCounts;
        var feature := features[k];
        if !((c, k) in featureCounts && feature in featureCounts[(c, k)]) {
          featureCounts := Set(featureCounts, c, k, feature, 0);
        }
        assert featureCounts[(c, k)][feature] == Get(ColumnOf(before, c, k), feature);
        SetTwice(before, c, k, feature, 0, featureCounts[(c, k)][feature] + 1);
        featureCounts := Set(featureCounts, c, k, feature, featureCounts[(c, k)][feature] + 1);
      }
    }

    /** Lines 43-52 of `train`: list a new class with count 0, then count the sample. */
    method CountLabel(c: Label)
      requires Valid()
      modifies this
      ensures Valid()
      ensures classes == AddClass(old(classes), c) && classCounts == Increment(old(classCounts), c)
      ensures featureCounts == old(featureCounts)
    {
      StepListed(classes, classCounts, c);
      if c !in classes {
        classes := classes + [c];
        classCounts := classCounts[c := 0];
      }
      classCounts := classCounts[c := classCounts[c] + 1];
    }

    method Train(dataset: seq<seq<Value>>, labels: seq<Label>)
      requires Valid() && |dataset| <= |labels|
      modifies this
      ensures Valid() && State() == TrainAll(old(State()), dataset, labels)
    {
      for i := 0 to |dataset|
        invariant Valid()
        invariant classes == ClassesAfter(old(classes), labels, i)
        invariant classCounts == CountsAfter(old(classCounts), labels, i)
        invariant featureCounts == FeaturesAfter(old(featureCounts), dataset, labels, i)
      {
        var c := labels[i];
        assert labels[..i + 1][..i] == labels[..i];
        CountLabel(c);
        CountSample(dataset[i], c);
      }
    }

    /** The score of class c (MultinomialNaiveBayes.php:102-134). */
    method ClassScore(c: Label, features: seq<Value>, ln: real -> real) returns (classScore: real)
      requires Valid() && Answerable(State(), features) && c in classes
      ensures classScore == Score(State(), c, features, ln, |features|)
    {
      ghost var m := State();
      var total := ArraySum(classCounts);
      MapSumAtLeast(classCounts, c);
      classScore := ln(ClassRatio(classCounts[c], total));
      for k := 0 to |features|
        invariant classScore == Score(m, c, features, ln, k)
      {
        var column := featureCounts[(c, k)];
        var sum := ArraySum(column);
        ScoreStep(m, c, features, ln, k, column, sum, classScore);
        classScore := classScore + ln(Smoothed(column, sum, features[k]));
      }
    }

    /** `ln` stands for PHP's `log`. */
    /** One round of the class loop of `predict`: score class i and keep it if it beats the best. */
    method Consider(i: nat, features: seq<Value>, ln: real -> real, bestClass: Option<Label>, bestScore: real)
      returns (newClass: Option<Label>, newScore: real)
      requires Valid() && Answerable(State(), features) && i < |classes|
      ensures var scores := Scores(State(), features, ln);
              (newClass, newScore) == if scores[i] > bestScore then (Some(classes[i]), scores[i]) else (bestClass, bestScore)
    {
      var classScore := ClassScore(classes[i], features, ln);
      ScoresAt(State(), features, ln, i, classScore);
      newClass, newScore := bestClass, bestScore;
      if classScore > bestScore {
        newScore := classScore;
        newClass := Some(classes[i]);
      }
    }

    method Predict(features: seq<Value>, ln: real -> real) returns (bestClass: Option<Label>)
      requires Valid() && Answerable(State(), features)
      ensures bestClass == Prediction(State(), features, ln)
    {
      ghost var scores := Scores(State(), features, ln);
      bestClass := None;
      var bestScore: real := PhpIntMin as real;
      for i := 0 to |classes|
        invariant (bestClass, bestScore) == Best(classes, scores, i)
      {
        bestClass, bestScore := Consider(i, features, ln, bestClass, bestScore);
      }
    }
  }
}
