/**
 * The k-nearest-neighbour classifier of src/PhpMachinist/Models/KNearestNeighbour.php:
 * `predict` lists the Euclidean distance from the sample to every training item, sorts the
 * list by distance, keeps the first k entries, counts the votes of their classes and
 * returns the class with the most votes.
 */
module NearestNeighbour {
  import opened Wrappers
  import opened Numerics
  import opened Tally

  type Label = string

  /** One training item, `['features' => ..., 'class' => ...]`. */
  datatype Item = Item(features: seq<real>, className: Label)

  /** One entry of the distance list, `['class' => ..., 'distance' => ...]`. */
  datatype Neighbour = Neighbour(className: Label, distance: real)

  /** What the model needs of `sqrt`: strictly increasing on the non-negative reals. */
  ghost predicate IsSqrt(sqrt: real -> real)
  {
    forall a: real, b: real :: 0.0 <= a < b ==> sqrt(a) < sqrt(b)
  }

  /** `euclideanDistance` reads `sample[i]` for every index i of the item's features. */
  predicate Comparable(data: seq<Item>, sample: seq<real>)
  {
    forall i :: 0 <= i < |data| ==> |data[i].features| <= |sample|
  }

  /** `euclideanDistance(x, y)`: the square root of the summed squared differences. */
  function Distance(sqrt: real -> real, x: seq<real>, y: seq<real>): real
    requires |x| <= |y|
  {
    sqrt(DistanceSquared(x, y))
  }

  /** The squared Euclidean distance is never negative, whatever the lengths. */
  lemma {:induction false} DistanceSquaredNonNegative(x: seq<real>, y: seq<real>)
    requires |x| <= |y|
    ensures DistanceSquared(x, y) >= 0.0
  {
    if |x| > 0 {
      DistanceSquaredNonNegative(x[..|x| - 1], y);
      var d := x[|x| - 1] - y[|x| - 1];
      assert d * d >= 0.0;
    }
  }

  /** The distance list after the first `count` training items. */
  function DistancesAfter(data: seq<Item>, sample: seq<real>, sqrt: real -> real, count: nat): (r: seq<Neighbour>)
    requires Comparable(data, sample) && count <= |data|
    ensures |r| == count
  {
    if count == 0 then []
    else DistancesAfter(data, sample, sqrt, count - 1)
         + [Neighbour(data[count - 1].className, Distance(sqrt, data[count - 1].features, sample))]
  }

  /** The distance list has one entry per training item, with that item's class and distance. */
  lemma {:induction false} DistancesEntries(data: seq<Item>, sample: seq<real>, sqrt: real -> real, count: nat, i: nat)
    requires Comparable(data, sample) && i < count <= |data|
    ensures DistancesAfter(data, sample, sqrt, count)[i]
         == Neighbour(data[i].className, Distance(sqrt, data[i].features, sample))
  {
    if i < count - 1 {
      DistancesEntries(data, sample, sqrt, count - 1, i);
    }
  }

  // ---------------------------------------------------------------------------
  // usort by distance

  predicate SortedByDistance(s: seq<Neighbour>)
  {
    forall i, j :: 0 <= i < j < |s| ==> s[i].distance <= s[j].distance
  }

  /** Insertion after every entry that is not farther: one step of a stable insertion sort. */
  function Insert(x: Neighbour, s: seq<Neighbour>): seq<Neighbour>
    decreases |s|
  {
    if |s| == 0 then [x]
    else if x.distance < s[0].distance then [x] + s
    else [s[0]] + Insert(x, s[1..])
  }

  /** `usort` by the `<=>` of the distances. PHP's sort is stable, and this is the stable sort. */
  function SortByDistance(s: seq<Neighbour>): seq<Neighbour>
  {
    if |s| == 0 then [] else Insert(s[|s| - 1], SortByDistance(s[..|s| - 1]))
  }

  lemma {:induction false} InsertSorted(x: Neighbour, s: seq<Neighbour>)
    requires SortedByDistance(s)
    ensures SortedByDistance(Insert(x, s))
    decreases |s|
  {
    if |s| > 0 && x.distance >= s[0].distance {
      InsertSorted(x, s[1..]);
      InsertAbove(x, s[1..], s[0].distance);
    }
  }

  /** Insertion keeps every entry. */
  lemma {:induction false} InsertPermutes(x: Neighbour, s: seq<Neighbour>)
    ensures multiset(Insert(x, s)) == multiset(s) + multiset{x}
    decreases |s|
  {
    if |s| > 0 && x.distance >= s[0].distance {
      InsertPermutes(x, s[1..]);
      assert s == [s[0]] + s[1..];
    }
  }

  /** Inserting an entry no nearer than a bound into entries no nearer than it keeps the bound. */
  lemma {:induction false} InsertAbove(x: Neighbour, s: seq<Neighbour>, bound: real)
    requires bound <= x.distance && forall i :: 0 <= i < |s| ==> bound <= s[i].distance
    ensures forall i :: 0 <= i < |Insert(x, s)| ==> bound <= Insert(x, s)[i].distance
    decreases |s|
  {
    if |s| > 0 && x.distance >= s[0].distance {
      InsertAbove(x, s[1..], bound);
    }
  }

  /** Sorting orders the list by distance and keeps every entry: a sorted permutation. */
  lemma {:induction false} SortSorted(s: seq<Neighbour>)
    ensures SortedByDistance(SortByDistance(s))
    ensures multiset(SortByDistance(s)) == multiset(s)
  {
    if |s| > 0 {
      SortSorted(s[..|s| - 1]);
      InsertSorted(s[|s| - 1], SortByDistance(s[..|s| - 1]));
      InsertPermutes(s[|s| - 1], SortByDistance(s[..|s| - 1]));
      assert s == s[..|s| - 1] + [s[|s| - 1]];
    }
  }

  /** A list already in order is left as it is. */
  lemma {:induction false} SortKeepsSorted(s: seq<Neighbour>)
    requires SortedByDistance(s)
    ensures SortByDistance(s) == s
  {
    if |s| > 0 {
      var s' := s[..|s| - 1];
      assert SortedByDistance(s');
      SortKeepsSorted(s');
      InsertLast(s[|s| - 1], s');
      assert s == s' + [s[|s| - 1]];
    }
  }

  /** Inserting an entry no nearer than all the others appends it. */
  lemma {:induction false} InsertLast(x: Neighbour, s: seq<Neighbour>)
    requires forall i :: 0 <= i < |s| ==> s[i].distance <= x.distance
    ensures Insert(x, s) == s + [x]
    decreases |s|
  {
    if |s| > 0 {
      InsertLast(x, s[1..]);
      assert s == [s[0]] + s[1..];
    }
  }

  // ---------------------------------------------------------------------------
  // array_slice, the votes, arsort and key

  /** `array_slice(s, 0, k)`: the first k entries; a negative k leaves out the last |k|. */
  function Slice(s: seq<Neighbour>, k: int): (r: seq<Neighbour>)
    ensures |r| <= |s| && r == s[..|r|]
    ensures k >= 0 ==> |r| == if k <= |s| then k else |s|
    ensures k < 0 ==> |r| == if |s| + k >= 0 then |s| + k else 0
  {
    if k >= 0 then (if k <= |s| then s[..k] else s)
    else if |s| + k >= 0 then s[..|s| + k]
    else []
  }

  function ClassNames(s: seq<Neighbour>): (r: seq<Label>)
    ensures |r| == |s| && forall i :: 0 <= i < |s| ==> r[i] == s[i].className
  {
    seq(|s|, i requires 0 <= i < |s| => s[i].className)
  }

  /** `classVotes` after the first `count` neighbours, `classVotes[c] = (classVotes[c] ?? 0) + 1`. */
  function VotesAfter(names: seq<Label>, count: nat): map<Label, nat>
    requires count <= |names|
  {
    IncrementAll(map[], names[..count])
  }

  /** The keys of `classVotes` in the order PHP's array keeps them: first vote first. */
  function KeysAfter(names: seq<Label>, count: nat): seq<Label>
    requires count <= |names|
  {
    if count == 0 then []
    else
      var keys := KeysAfter(names, count - 1);
      if names[count - 1] in keys then keys else keys + [names[count - 1]]
  }

  /**
   * `arsort` then `key`: the first key, in insertion order, with the most votes (PHP's sort
   * is stable, so equal counts keep their order); None for no votes, where `key` gives null.
   */
  function TopVoted(keys: seq<Label>, votes: map<Label, nat>, count: nat): Option<Label>
    requires count <= |keys|
  {
    if count == 0 then None
    else
      var best := TopVoted(keys, votes, count - 1);
      if best.None? || Get(votes, keys[count - 1]) > Get(votes, best.value) then Some(keys[count - 1])
      else best
  }

  /** The first min(k, n) entries of the sorted distance list. */
  function Nearest(data: seq<Item>, sample: seq<real>, sqrt: real -> real, k: int): seq<Neighbour>
    requires Comparable(data, sample)
  {
    Slice(SortByDistance(DistancesAfter(data, sample, sqrt, |data|)), k)
  }

  /** The value `predict` returns; None where PHP returns null from a `string` method. */
  function Prediction(data: seq<Item>, sample: seq<real>, sqrt: real -> real, k: int): Option<Label>
    requires Comparable(data, sample)
  {
    var names := ClassNames(Nearest(data, sample, sqrt, k));
    var keys := KeysAfter(names, |names|);
    TopVoted(keys, VotesAfter(names, |names|), |keys|)
  }

  // ---------------------------------------------------------------------------
  // Properties of the votes

  /** Each class's vote is its number of occurrences among the neighbours counted. */
  lemma VotesCount(names: seq<Label>, count: nat, c: Label)
    requires count <= |names|
    ensures Get(VotesAfter(names, count), c) == Count(names[..count], c)
  {
    IncrementAllCounts(map[], names[..count], c);
  }

  /** The votes add up to the number of neighbours counted. */
  lemma VotesTotal(names: seq<Label>, count: nat)
    requires count <= |names|
    ensures MapSum(VotesAfter(names, count)) == count
  {
    IncrementAllTotal(map[], names[..count]);
  }

  /** The keys are the classes voted for, each once. */
  lemma {:induction false} KeysAfterVotes(names: seq<Label>, count: nat)
    requires count <= |names|
    ensures var keys := KeysAfter(names, count);
            && (forall p, q :: 0 <= p < q < |keys| ==> keys[p] != keys[q])
            && (forall c :: c in keys <==> c in VotesAfter(names, count))
            && (forall c :: c in keys <==> c in names[..count])
  {
    if count > 0 {
      KeysAfterVotes(names, count - 1);
      var c := names[count - 1];
      var before := VotesAfter(names, count - 1);
      assert names[..count] == names[..count - 1] + [c];
      assert names[..count][..count - 1] == names[..count - 1];
      assert VotesAfter(names, count) == Increment(before, c);
    }
  }

  /** A class that occurs in a list is in it. */
  lemma {:induction false} CountedIsPresent(s: seq<Label>, c: Label)
    ensures Count(s, c) > 0 <==> c in s
  {
    if |s| > 0 {
      CountedIsPresent(s[..|s| - 1], c);
      assert s == s[..|s| - 1] + [s[|s| - 1]];
    }
  }

  /**
   * `arsort` + `key` picks the first key with the most votes: no key has more votes, no
   * earlier key as many; there is a pick exactly when there is a key.
   */
  lemma {:induction false} TopVotedIsFirstMaximum(keys: seq<Label>, votes: map<Label, nat>, count: nat)
    returns (i: nat)
    requires count <= |keys|
    ensures var best := TopVoted(keys, votes, count);
            && (best.None? <==> count == 0)
            && (best.Some? ==>
                  && i < count && best.value == keys[i]
                  && (forall j :: 0 <= j < count ==> Get(votes, keys[j]) <= Get(votes, best.value))
                  && (forall j :: 0 <= j < i ==> Get(votes, keys[j]) < Get(votes, best.value)))
  {
    i := 0;
    if count > 0 {
      var i' := TopVotedIsFirstMaximum(keys, votes, count - 1);
      var best := TopVoted(keys, votes, count - 1);
      if best.None? || Get(votes, keys[count - 1]) > Get(votes, best.value) {
        i := count - 1;
      } else {
        i := i';
      }
    }
  }

  /**
   * With k >= 1 and at least one training item, `predict` returns the class of one of the
   * nearest neighbours, and no class has more of them; it returns nothing exactly when there
   * are no neighbours (no data, or k <= 0 leaves none).
   */
  lemma PredictionIsMajority(data: seq<Item>, sample: seq<real>, sqrt: real -> real, k: int)
    requires Comparable(data, sample)
    ensures var names := ClassNames(Nearest(data, sample, sqrt, k));
            var r := Prediction(data, sample, sqrt, k);
            && (r.None? <==> |names| == 0)
            && (r.Some? ==> r.value in names && forall c :: Count(names, c) <= Count(names, r.value))
  {
    var names := ClassNames(Nearest(data, sample, sqrt, k));
    var keys := KeysAfter(names, |names|);
    var votes := VotesAfter(names, |names|);
    KeysAfterVotes(names, |names|);
    assert names[..|names|] == names;
    var i := TopVotedIsFirstMaximum(keys, votes, |keys|);
    var r := Prediction(data, sample, sqrt, k);
    if |names| > 0 {
      assert names[0] in keys;
    }
    if r.Some? {
      VotesCount(names, |names|, r.value);
      forall c
        ensures Count(names, c) <= Count(names, r.value)
      {
        VotesCount(names, |names|, c);
        CountedIsPresent(names, c);
        if c in keys {
          var j :| 0 <= j < |keys| && keys[j] == c;
        }
      }
    }
  }

  /** The neighbours are sorted by distance and are the first entries of a sorted permutation
      of the distance list, min(k, n) of them for k >= 0. */
  lemma NearestAreClosest(data: seq<Item>, sample: seq<real>, sqrt: real -> real, k: int)
    requires Comparable(data, sample)
    ensures var all := SortByDistance(DistancesAfter(data, sample, sqrt, |data|));
            var near := Nearest(data, sample, sqrt, k);
            && multiset(all) == multiset(DistancesAfter(data, sample, sqrt, |data|))
            && SortedByDistance(all) && near == all[..|near|]
            && (k >= 0 ==> |near| == if k <= |data| then k else |data|)
            && (forall i, j :: 0 <= i < |near| <= j < |all| ==> near[i].distance <= all[j].distance)
  {
    SortSorted(DistancesAfter(data, sample, sqrt, |data|));
    var all := SortByDistance(DistancesAfter(data, sample, sqrt, |data|));
    assert |all| == |data| by {
      assert |multiset(all)| == |all|;
    }
  }

  // ---------------------------------------------------------------------------
  // The result does not depend on which increasing `sqrt` is used

  /** The list with every distance mapped through f. */
  function Rescaled(s: seq<Neighbour>, f: real -> real): (r: seq<Neighbour>)
    ensures |r| == |s|
  {
    seq(|s|, i requires 0 <= i < |s| => Neighbour(s[i].className, f(s[i].distance)))
  }

  predicate NonNegative(s: seq<Neighbour>)
  {
    forall i :: 0 <= i < |s| ==> s[i].distance >= 0.0
  }

  lemma {:induction false} InsertRescaled(x: Neighbour, s: seq<Neighbour>, f: real -> real)
    requires IsSqrt(f) && x.distance >= 0.0 && NonNegative(s)
    ensures Insert(Neighbour(x.className, f(x.distance)), Rescaled(s, f)) == Rescaled(Insert(x, s), f)
    decreases |s|
  {
    if |s| > 0 {
      var t := Rescaled(s, f);
      assert t[0] == Neighbour(s[0].className, f(s[0].distance));
      assert t[1..] == Rescaled(s[1..], f);
      if x.distance < s[0].distance {
        assert Rescaled([x] + s, f) == [Neighbour(x.className, f(x.distance))] + t;
      } else {
        assert f(x.distance) >= f(s[0].distance);
        InsertRescaled(x, s[1..], f);
        assert Rescaled([s[0]] + Insert(x, s[1..]), f) == [t[0]] + Rescaled(Insert(x, s[1..]), f);
      }
    } else {
      assert Rescaled([x], f) == [Neighbour(x.className, f(x.distance))];
    }
  }

  /** Sorting commutes with an increasing change of the distances. */
  lemma {:induction false} SortRescaled(s: seq<Neighbour>, f: real -> real)
    requires IsSqrt(f) && NonNegative(s)
    ensures SortByDistance(Rescaled(s, f)) == Rescaled(SortByDistance(s), f)
  {
    if |s| > 0 {
      var s' := s[..|s| - 1];
      assert Rescaled(s, f)[..|s| - 1] == Rescaled(s', f);
      SortRescaled(s', f);
      SortSorted(s');
      var sorted := SortByDistance(s');
      forall i | 0 <= i < |sorted|
        ensures sorted[i].distance >= 0.0
      {
        assert sorted[i] in multiset(s');
      }
      InsertRescaled(s[|s| - 1], sorted, f);
    }
  }

  /** With sqrt as the identity, the distance list holds the squared distances. */
  lemma {:induction false} DistancesRescaled(data: seq<Item>, sample: seq<real>, sqrt: real -> real, count: nat)
    requires Comparable(data, sample) && count <= |data|
    ensures DistancesAfter(data, sample, sqrt, count) == Rescaled(DistancesAfter(data, sample, x => x, count), sqrt)
    ensures NonNegative(DistancesAfter(data, sample, x => x, count))
  {
    if count > 0 {
      DistancesRescaled(data, sample, sqrt, count - 1);
      DistanceSquaredNonNegative(data[count - 1].features, sample);
      var squared := DistancesAfter(data, sample, x => x, count);
      assert squared[..count - 1] == DistancesAfter(data, sample, x => x, count - 1);
      assert Rescaled(squared, sqrt)[..count - 1] == Rescaled(squared[..count - 1], sqrt);
    }
  }

  /**
   * `sqrt` only orders the neighbours: any two strictly increasing square roots give the
   * same prediction, namely the one computed from the squared distances.
   */
  lemma PredictionIgnoresSqrt(data: seq<Item>, sample: seq<real>, sqrt: real -> real, k: int)
    requires Comparable(data, sample) && IsSqrt(sqrt)
    ensures Prediction(data, sample, sqrt, k) == Prediction(data, sample, x => x, k)
  {
    NearestRescaled(data, sample, sqrt, k);
  }

  /** The neighbours' classes do not depend on the increasing `sqrt`. */
  lemma NearestRescaled(data: seq<Item>, sample: seq<real>, sqrt: real -> real, k: int)
    requires Comparable(data, sample) && IsSqrt(sqrt)
    ensures ClassNames(Nearest(data, sample, sqrt, k)) == ClassNames(Nearest(data, sample, x => x, k))
  {
    var squared := DistancesAfter(data, sample, x => x, |data|);
    DistancesRescaled(data, sample, sqrt, |data|);
    SortRescaled(squared, sqrt);
    var sorted := SortByDistance(squared);
    SliceRescaled(sorted, sqrt, k);
    ClassNamesRescaled(Slice(sorted, k), sqrt);
  }

  lemma SliceRescaled(s: seq<Neighbour>, f: real -> real, k: int)
    ensures Slice(Rescaled(s, f), k) == Rescaled(Slice(s, k), f)
  {
  }

  lemma ClassNamesRescaled(s: seq<Neighbour>, f: real -> real)
    ensures ClassNames(Rescaled(s, f)) == ClassNames(s)
  {
  }

  // ---------------------------------------------------------------------------
  // The class

  class KNearestNeighbour {
    const k: int
    var trainingData: seq<Item>

    constructor (k: int)
      ensures this.k == k && trainingData == []
    {
      this.k := k;
      trainingData := [];
    }

    /** `train` replaces the stored data wholesale. */
    method Train(trainingData: seq<Item>)
      modifies this
      ensures this.trainingData == trainingData
    {
      this.trainingData := trainingData;
    }

    /** `euclideanDistance(features1, features2)`; `sqrt` stands for PHP's `sqrt`. */
    method EuclideanDistance(features1: seq<real>, features2: seq<real>, sqrt: real -> real) returns (distance: real)
      requires |features1| <= |features2|
      ensures distance == Distance(sqrt, features1, features2)
    {
      var sum := 0.0;
      for i := 0 to |features1|
        invariant sum == DistanceSquared(features1[..i], features2)
      {
        assert features1[..i + 1][..i] == features1[..i];
        sum := sum + (features1[i] - features2[i]) * (features1[i] - features2[i]);
      }
      assert features1[..|features1|] == features1;
      distance := sqrt(sum);
    }

    /** Lines 67-74 of `predict`: one (class, distance) entry per training item, in order. */
    method DistanceList(sample: seq<real>, sqrt: real -> real) returns (distances: seq<Neighbour>)
      requires Comparable(trainingData, sample)
      ensures distances == DistancesAfter(trainingData, sample, sqrt, |trainingData|)
    {
      distances := [];
      for i := 0 to |trainingData|
        invariant distances == DistancesAfter(trainingData, sample, sqrt, i)
      {
        var item := trainingData[i];
        var distance := EuclideanDistance(item.features, sample, sqrt);
        distances := distances + [Neighbour(item.className, distance)];
      }
    }

    /** Lines 81-87 of `predict`: the votes of the neighbours' classes, keys in first-vote order. */
    static method CountVotes(kNearest: seq<Neighbour>) returns (classVotes: map<Label, nat>, keys: seq<Label>)
      ensures classVotes == VotesAfter(ClassNames(kNearest), |kNearest|)
      ensures keys == KeysAfter(ClassNames(kNearest), |kNearest|)
    {
      ghost var names := ClassNames(kNearest);
      classVotes := map[];
      keys := [];
      for i := 0 to |kNearest|
        invariant classVotes == VotesAfter(names, i) && keys == KeysAfter(names, i)
      {
        var c := kNearest[i].className;
        KeysAfterVotes(names, i);
        assert names[..i + 1][..i] == names[..i];
        if c !in classVotes {
          keys := keys + [c];
        }
        classVotes := classVotes[c := Get(classVotes, c) + 1];
      }
    }

    /** `predict(sample)`; None where PHP's `key` gives null (no neighbours). */
    method Predict(sample: seq<real>, sqrt: real -> real) returns (r: Option<Label>)
      requires Comparable(trainingData, sample)
      ensures r == Prediction(trainingData, sample, sqrt, k)
    {
      var distances := DistanceList(sample, sqrt);
      distances := SortByDistance(distances);
      var kNearest := Slice(distances, k);
      var classVotes, keys := CountVotes(kNearest);
      r := TopVoted(keys, classVotes, |keys|);
    }
  }
}
