/**
 * The crop recommender of `core/crop_model.py`: the label encoder built from the
 * training labels, the random-forest classifier seen only through its `classes_`
 * array, the ranking of one probability vector into at most eight crop names,
 * and the load-or-train start-up step that fills the module's three globals.
 */
module CropModel {
  import opened Wrappers

  // ---------------------------------------------------------------------------
  // Configuration
  // ---------------------------------------------------------------------------

  /** FEATURES: the column order of the one-row frame handed to the classifier. */
  const Features: seq<string> := ["N", "P", "K", "temperature", "humidity", "ph", "rainfall"]

  /** A crop is kept only when its probability is strictly above this. */
  const Threshold: real := 0.05

  /** At most this many crop names are returned. */
  const MaxCrops: nat := 8

  /** The single-entry list returned when inference raises. */
  const PredictionFailed: string := "Prediction Failed"

  /** `RandomForestClassifier(n_estimators=100, random_state=42)`. */
  const TreeCount: nat := 100
  const RandomState: int := 42

  function Min(a: nat, b: nat): nat
  {
    if a <= b then a else b
  }

  /**
   * `pd.DataFrame([input_data], columns=FEATURES)`: the single row holds the
   * record's values in FEATURES order; a feature the record lacks is a missing
   * cell, and keys outside FEATURES are dropped.
   */
  function FeatureRow(input: map<string, real>): (row: seq<Option<real>>)
    ensures |row| == |Features|
    ensures forall k :: 0 <= k < |Features| ==>
      (row[k].Some? <==> Features[k] in input) && (row[k].Some? ==> row[k].value == input[Features[k]])
  {
    seq(|Features|, k requires 0 <= k < |Features| =>
      if Features[k] in input then Some(input[Features[k]]) else None)
  }

  /** The row depends only on the record's entries for the seven features. */
  lemma FeatureRowIgnoresOtherKeys(input: map<string, real>, other: map<string, real>)
    requires forall f :: f in Features ==> (f in input <==> f in other)
    requires forall f :: f in Features && f in input ==> input[f] == other[f]
    ensures FeatureRow(input) == FeatureRow(other)
  {
  }

  // ---------------------------------------------------------------------------
  // Label encoder: `LabelEncoder().fit_transform(df['label'])`
  // ---------------------------------------------------------------------------

  /** Python's `<` on `str`: lexicographic by code point. */
  predicate StrLess(a: string, b: string)
  {
    if a == [] then b != []
    else if b == [] then false
    else if a[0] != b[0] then a[0] < b[0]
    else StrLess(a[1..], b[1..])
  }

  lemma {:induction false} StrLessIrreflexive(a: string)
    ensures !StrLess(a, a)
  {
    if a != [] {
      StrLessIrreflexive(a[1..]);
    }
  }

  lemma {:induction false} StrLessTransitive(a: string, b: string, c: string)
    requires StrLess(a, b) && StrLess(b, c)
    ensures StrLess(a, c)
  {
    if a != [] && a[0] == b[0] && b[0] == c[0] {
      StrLessTransitive(a[1..], b[1..], c[1..]);
    }
  }

  lemma {:induction false} StrLessTotal(a: string, b: string)
    requires a != b
    ensures StrLess(a, b) || StrLess(b, a)
  {
    if a != [] && b != [] && a[0] == b[0] {
      assert a == [a[0]] + a[1..] && b == [b[0]] + b[1..];
      StrLessTotal(a[1..], b[1..]);
    }
  }

  predicate StrictlySorted(s: seq<string>)
  {
    forall i, j :: 0 <= i < j < |s| ==> StrLess(s[i], s[j])
  }

  /** Adds `x` to a strictly sorted list of labels, keeping it strictly sorted. */
  function InsertLabel(x: string, s: seq<string>): (r: seq<string>)
    requires StrictlySorted(s)
    ensures StrictlySorted(r)
    ensures forall y :: y in r <==> y in s || y == x
  {
    if s == [] then [x]
    else if x == s[0] then s
    else if StrLess(x, s[0]) then
      assert forall j :: 0 <= j < |s| ==> StrLess(x, s[j]) by {
        forall j | 0 <= j < |s| ensures StrLess(x, s[j]) {
          if j > 0 { StrLessTransitive(x, s[0], s[j]); }
        }
      }
      [x] + s
    else
      StrLessTotal(x, s[0]);
      var tail := InsertLabel(x, s[1..]);
      assert forall y :: y in tail ==> StrLess(s[0], y) by {
        forall y | y in tail ensures StrLess(s[0], y) {
          if y != x {
            var j :| 0 <= j < |s[1..]| && s[1..][j] == y;
            assert s[j + 1] == y;
          }
        }
      }
      [s[0]] + tail
  }

  /** `classes_` of a label encoder fitted on `labels`: the distinct labels in ascending order. */
  function SortedLabels(labels: seq<string>): (classes: seq<string>)
    ensures StrictlySorted(classes)
    ensures forall y :: y in classes <==> y in labels
  {
    if labels == [] then []
    else
      var init := labels[..|labels| - 1];
      assert labels == init + [labels[|labels| - 1]];
      InsertLabel(labels[|labels| - 1], SortedLabels(init))
  }

  /** Two strictly sorted lists with the same labels are equal: `classes_` is determined by the label set. */
  lemma {:induction false} StrictlySortedUnique(a: seq<string>, b: seq<string>)
    requires StrictlySorted(a) && StrictlySorted(b)
    requires forall y :: y in a <==> y in b
    ensures a == b
  {
    assert a != [] ==> a[0] in b;
    assert b != [] ==> b[0] in a;
    if a != [] {
      assert b[0] in b && a[0] in a;
      var j :| 0 <= j < |a| && a[j] == b[0];
      var k :| 0 <= k < |b| && b[k] == a[0];
      if j > 0 && k > 0 {
        StrLessTransitive(a[0], b[0], a[0]);
        StrLessIrreflexive(a[0]);
      }
      assert a[0] == b[0];
      forall y ensures y in a[1..] <==> y in b[1..] {
        if y in a[1..] {
          var i :| 0 <= i < |a[1..]| && a[1..][i] == y;
          assert StrLess(a[0], y) by { assert a[i + 1] == y; }
          StrLessIrreflexive(y);
          assert y in b && y != b[0];
          var m :| 0 <= m < |b| && b[m] == y;
          assert b[1..][m - 1] == y;
        }
        if y in b[1..] {
          var i :| 0 <= i < |b[1..]| && b[1..][i] == y;
          assert StrLess(b[0], y) by { assert b[i + 1] == y; }
          StrLessIrreflexive(y);
          assert y in a && y != a[0];
          var m :| 0 <= m < |a| && a[m] == y;
          assert a[1..][m - 1] == y;
        }
      }
      StrictlySortedUnique(a[1..], b[1..]);
      assert a == [a[0]] + a[1..] && b == [b[0]] + b[1..];
    }
  }

  /** A fitted `LabelEncoder`, seen through its `classes_` list: index equals class ID. */
  datatype LabelEncoder = LabelEncoder(classes: seq<string>)

  /** The position of `x` in `s`, if any. */
  function IndexOf(s: seq<string>, x: string): (r: Option<nat>)
    ensures r.Some? ==> r.value < |s| && s[r.value] == x
    ensures r.None? <==> x !in s
  {
    if s == [] then None
    else if s[0] == x then Some(0)
    else match IndexOf(s[1..], x)
      case None => None
      case Some(i) => Some(i + 1)
  }

  /** `encoder.transform([label])[0]`; `None` for a label not seen during fitting (a `ValueError`). */
  function Encode(encoder: LabelEncoder, name: string): Option<nat>
  {
    IndexOf(encoder.classes, name)
  }

  /** `encoder.inverse_transform([id])[0]`; `None` for an ID outside `classes_` (a `ValueError`). */
  function Decode(encoder: LabelEncoder, id: nat): Option<string>
  {
    if id < |encoder.classes| then Some(encoder.classes[id]) else None
  }

  /** The encodings of `labels`, each label being one of `classes`. */
  function EncodeAll(classes: seq<string>, labels: seq<string>): (ids: seq<nat>)
    requires forall i :: 0 <= i < |labels| ==> labels[i] in classes
    ensures |ids| == |labels|
    ensures forall i :: 0 <= i < |labels| ==> ids[i] < |classes| && classes[ids[i]] == labels[i]
  {
    seq(|labels|, i requires 0 <= i < |labels| => IndexOf(classes, labels[i]).value)
  }

  /** `fit_transform(labels)`: the fitted encoder and the column of label IDs. */
  function FitTransform(labels: seq<string>): (LabelEncoder, seq<nat>)
  {
    var classes := SortedLabels(labels);
    (LabelEncoder(classes), EncodeAll(classes, labels))
  }

  /** Decoding the encoding of any training label gives back that label. */
  lemma DecodeEncodeTrainingLabel(labels: seq<string>, name: string)
    requires name in labels
    ensures var encoder := FitTransform(labels).0;
      Encode(encoder, name).Some? && Decode(encoder, Encode(encoder, name).value) == Some(name)
  {
  }

  /** Every class ID of a fitted encoder decodes to a label that encodes back to that ID. */
  lemma {:induction false} EncodeDecodeId(labels: seq<string>, id: nat)
    requires id < |FitTransform(labels).0.classes|
    ensures var encoder := FitTransform(labels).0;
      Decode(encoder, id).Some? && Encode(encoder, Decode(encoder, id).value) == Some(id)
  {
    var classes := SortedLabels(labels);
    var j := IndexOf(classes, classes[id]).value;
    if j != id {
      if j < id {
        assert StrLess(classes[j], classes[id]);
      } else {
        assert StrLess(classes[id], classes[j]);
      }
      StrLessIrreflexive(classes[id]);
    }
  }

  /** The ID column produced by `fit_transform` decodes row by row to the label column,
      and every class ID occurs in it. */
  lemma FitTransformDecodes(labels: seq<string>)
    ensures |FitTransform(labels).1| == |labels|
    ensures forall i :: 0 <= i < |labels| ==> Decode(FitTransform(labels).0, FitTransform(labels).1[i]) == Some(labels[i])
    ensures forall id :: 0 <= id < |FitTransform(labels).0.classes| ==> id in FitTransform(labels).1
  {
    var classes := SortedLabels(labels);
    var ids := EncodeAll(classes, labels);
    assert FitTransform(labels) == (LabelEncoder(classes), ids);
    EncodeAllCovers(labels);
  }

  lemma EncodeAllCovers(labels: seq<string>)
    ensures forall id :: 0 <= id < |SortedLabels(labels)| ==> id in EncodeAll(SortedLabels(labels), labels)
  {
    var encoder := LabelEncoder(SortedLabels(labels));
    var ids := EncodeAll(encoder.classes, labels);
    forall id | 0 <= id < |encoder.classes| ensures id in ids {
      assert encoder.classes[id] in encoder.classes;
      var i :| 0 <= i < |labels| && labels[i] == encoder.classes[id];
      EncodeDecodeId(labels, id);
      EncodeDecodeId(labels, ids[i]);
    }
  }

  // ---------------------------------------------------------------------------
  // Classifier
  // ---------------------------------------------------------------------------

  /**
   * A fitted `RandomForestClassifier`, seen through what the ranking reads:
   * `classes_`, the class IDs in the order of the probability vector.  The
   * trees themselves are not modelled.
   */
  datatype Classifier = Classifier(classes: seq<nat>, trees: nat, seed: int)

  /** One more than the largest ID in `y` (0 for no IDs). */
  function Bound(y: seq<nat>): (b: nat)
    ensures forall i :: 0 <= i < |y| ==> y[i] < b
    ensures b == 0 || b - 1 in y
  {
    if y == [] then 0
    else
      var rest := Bound(y[1..]);
      if y[0] + 1 >= rest then y[0] + 1 else rest
  }

  /** The IDs below `n` that occur in `y`, in ascending order. */
  function IdsBelow(y: seq<nat>, n: nat): (ids: seq<nat>)
    ensures forall x :: x in ids <==> x < n && x in y
    ensures forall i, j :: 0 <= i < j < |ids| ==> ids[i] < ids[j]
  {
    if n == 0 then []
    else
      var lower := IdsBelow(y, n - 1);
      assert forall i :: 0 <= i < |lower| ==> lower[i] in lower;
      lower + (if n - 1 in y then [n - 1] else [])
  }

  function Range(n: nat): (r: seq<nat>)
    ensures |r| == n && forall i :: 0 <= i < n ==> r[i] == i
  {
    seq(n, i => i)
  }

  /** The classes `fit(X, y)` records (`np.unique(y)`) and the forest's configuration. */
  function Train(y: seq<nat>): (model: Classifier)
    ensures forall x :: x in model.classes <==> x in y
    ensures forall i, j :: 0 <= i < j < |model.classes| ==> model.classes[i] < model.classes[j]
    ensures model.trees == TreeCount && model.seed == RandomState
  {
    Classifier(IdsBelow(y, Bound(y)), TreeCount, RandomState)
  }

  lemma {:induction false} IdsBelowAll(y: seq<nat>, n: nat)
    requires forall x: nat :: x < n ==> x in y
    ensures IdsBelow(y, n) == Range(n)
  {
    if n > 0 {
      IdsBelowAll(y, n - 1);
      assert n - 1 in y;
      assert IdsBelow(y, n) == IdsBelow(y, n - 1) + [n - 1];
      RangeSnoc(n);
    }
  }

  lemma RangeSnoc(n: nat)
    requires n > 0
    ensures Range(n) == Range(n - 1) + [n - 1]
  {
    var r := Range(n - 1) + [n - 1];
    assert |r| == n && forall i :: 0 <= i < n ==> r[i] == i;
  }

  lemma {:induction false} BoundOfCover(y: seq<nat>, k: nat)
    requires forall i :: 0 <= i < |y| ==> y[i] < k
    requires forall x: nat :: x < k ==> x in y
    ensures Bound(y) == k
  {
    var b := Bound(y);
    if b > 0 {
      var i :| 0 <= i < |y| && y[i] == b - 1;
    }
    if k > 0 {
      assert k - 1 in y;
      var i :| 0 <= i < |y| && y[i] == k - 1;
    }
  }

  /**
   * A classifier trained on the encoded label column has `classes_ == [0, 1, ..., k-1]`
   * for the encoder's `k` classes, so position `i` of its probability vector belongs
   * to the label `encoder.classes_[i]`.
   */
  lemma TrainedClassesAlign(labels: seq<string>)
    ensures var (encoder, ids) := FitTransform(labels);
      Train(ids).classes == Range(|encoder.classes|)
  {
    var classes := SortedLabels(labels);
    var ids := EncodeAll(classes, labels);
    EncodeAllCovers(labels);
    assert forall i :: 0 <= i < |ids| ==> ids[i] < |classes|;
    assert forall x: nat :: x < |classes| ==> x in ids;
    BoundOfCover(ids, |classes|);
    IdsBelowAll(ids, |classes|);
  }

  // ---------------------------------------------------------------------------
  // predict_suitable_crops
  // ---------------------------------------------------------------------------

  /** One `(crop_name, prob)` entry of `suitability_scores`, with the position it came from. */
  datatype Score = Score(index: nat, crop: string, prob: real)

  /**
   * The crop for position `i` of the probability vector:
   * `CROP_LABEL_ENCODER.inverse_transform([CROP_PREDICTOR_MODEL.classes_[i]])[0]`.
   * `None` when that raises: `i` past `classes_`, no encoder, or an ID the encoder does not know.
   */
  function CropAt(model: Classifier, encoder: Option<LabelEncoder>, i: nat): Option<string>
  {
    if i < |model.classes| && encoder.Some? then Decode(encoder.value, model.classes[i]) else None
  }

  /**
   * `suitability_scores` after the loop has visited the first `n` positions;
   * `None` once a kept position could not be decoded.
   */
  function Candidates(model: Classifier, encoder: Option<LabelEncoder>, probs: seq<real>, n: nat): Option<seq<Score>>
    requires n <= |probs|
  {
    if n == 0 then Some([])
    else match Candidates(model, encoder, probs, n - 1)
      case None => None
      case Some(c) =>
        if probs[n - 1] > Threshold then
          match CropAt(model, encoder, n - 1)
          case None => None
          case Some(name) => Some(c + [Score(n - 1, name, probs[n - 1])])
        else Some(c)
  }

  /** Once a kept position fails to decode, the whole loop fails. */
  lemma {:induction false} CandidatesFailureSticks(model: Classifier, encoder: Option<LabelEncoder>, probs: seq<real>, n: nat, m: nat)
    requires n <= m <= |probs|
    requires Candidates(model, encoder, probs, n).None?
    ensures Candidates(model, encoder, probs, m).None?
    decreases m
  {
    if m > n {
      CandidatesFailureSticks(model, encoder, probs, n, m - 1);
    }
  }

  /** The loop succeeds exactly when every position above the threshold can be decoded. */
  lemma {:induction false} CandidatesSucceedIff(model: Classifier, encoder: Option<LabelEncoder>, probs: seq<real>, n: nat)
    requires n <= |probs|
    ensures Candidates(model, encoder, probs, n).Some? <==>
      forall i :: 0 <= i < n && probs[i] > Threshold ==> CropAt(model, encoder, i).Some?
  {
    if n > 0 {
      CandidatesSucceedIff(model, encoder, probs, n - 1);
    }
  }

  /** A collected entry keeps a position above the threshold, its probability, and the crop
      its `classes_` ID decodes to. */
  predicate ValidEntry(model: Classifier, encoder: Option<LabelEncoder>, probs: seq<real>, e: Score)
  {
    e.index < |probs| && e.prob == probs[e.index] && e.prob > Threshold
    && CropAt(model, encoder, e.index) == Some(e.crop)
  }

  /** The collected entries are valid and in position order. */
  lemma {:induction false} CandidatesEntries(model: Classifier, encoder: Option<LabelEncoder>, probs: seq<real>, n: nat)
    requires n <= |probs|
    requires Candidates(model, encoder, probs, n).Some?
    ensures var c := Candidates(model, encoder, probs, n).value;
      && IndicesIncreasing(c)
      && (forall k :: 0 <= k < |c| ==> c[k].index < n && ValidEntry(model, encoder, probs, c[k]))
  {
    if n > 0 {
      CandidatesEntries(model, encoder, probs, n - 1);
    }
  }

  /** Every position above the threshold has its entry among the collected ones. */
  lemma {:induction false} CandidatesComplete(model: Classifier, encoder: Option<LabelEncoder>, probs: seq<real>, n: nat, i: nat)
    requires i < n <= |probs| && probs[i] > Threshold
    requires Candidates(model, encoder, probs, n).Some?
    ensures exists k :: 0 <= k < |Candidates(model, encoder, probs, n).value|
                        && Candidates(model, encoder, probs, n).value[k].index == i
  {
    var prev := Candidates(model, encoder, probs, n - 1);
    var c := Candidates(model, encoder, probs, n).value;
    assert prev.Some?;
    if probs[n - 1] > Threshold {
      assert CropAt(model, encoder, n - 1).Some?;
      assert c == prev.value + [Score(n - 1, CropAt(model, encoder, n - 1).value, probs[n - 1])];
    } else {
      assert c == prev.value;
    }
    if i < n - 1 {
      CandidatesComplete(model, encoder, probs, n - 1, i);
      var k :| 0 <= k < |prev.value| && prev.value[k].index == i;
      assert c[k] == prev.value[k];
    } else {
      assert c[|c| - 1].index == i;
    }
  }


  /** `a` comes before `b` in the sorted list: higher probability, or equal probability and earlier position. */
  predicate Precedes(a: Score, b: Score)
  {
    a.prob > b.prob || (a.prob == b.prob && a.index < b.index)
  }

  /** Non-increasing in probability, ties in their original order. */
  predicate Ranked(s: seq<Score>)
  {
    forall i, j :: 0 <= i < j < |s| ==> Precedes(s[i], s[j])
  }

  predicate IndicesIncreasing(s: seq<Score>)
  {
    forall i, j :: 0 <= i < j < |s| ==> s[i].index < s[j].index
  }

  /** Places `x` after every entry whose probability is at least its own. */
  function InsertByProbability(x: Score, s: seq<Score>): seq<Score>
  {
    if s == [] then [x]
    else if s[0].prob >= x.prob then [s[0]] + InsertByProbability(x, s[1..])
    else [x] + s
  }

  /**
   * `suitability_scores.sort(key=lambda item: item[1], reverse=True)`: Python's
   * stable sort by descending probability, as an insertion sort that inserts
   * each entry after the equal ones already placed.
   */
  function SortByProbability(s: seq<Score>): seq<Score>
  {
    if s == [] then []
    else InsertByProbability(s[|s| - 1], SortByProbability(s[..|s| - 1]))
  }

  lemma {:induction false} InsertByProbabilityPermutes(x: Score, s: seq<Score>)
    ensures multiset(InsertByProbability(x, s)) == multiset(s) + multiset{x}
  {
    if s != [] {
      assert s == [s[0]] + s[1..];
      if s[0].prob >= x.prob {
        InsertByProbabilityPermutes(x, s[1..]);
      }
    }
  }

  lemma {:induction false} InsertByProbabilitySpec(x: Score, s: seq<Score>)
    requires Ranked(s)
    requires forall k :: 0 <= k < |s| ==> s[k].index < x.index
    ensures Ranked(InsertByProbability(x, s))
  {
    if s == [] {
    } else if s[0].prob >= x.prob {
      var tail := InsertByProbability(x, s[1..]);
      RankedTail(s);
      InsertByProbabilitySpec(x, s[1..]);
      InsertByProbabilityPermutes(x, s[1..]);
      forall j | 0 <= j < |tail| ensures Precedes(s[0], tail[j]) {
        HeadPrecedes(x, s, tail[j]);
      }
      RankedCons(s[0], tail);
    } else {
      forall j | 0 <= j < |s| ensures Precedes(x, s[j]) {
        assert j == 0 || Precedes(s[0], s[j]);
      }
      RankedCons(x, s);
    }
  }

  /** An entry of `s[1..]` or `x` itself comes after `s[0]` when `x` ranks no higher than it. */
  lemma HeadPrecedes(x: Score, s: seq<Score>, y: Score)
    requires Ranked(s) && s != [] && s[0].prob >= x.prob && s[0].index < x.index
    requires y in multiset(s[1..]) + multiset{x}
    ensures Precedes(s[0], y)
  {
    if y != x {
      assert y in multiset(s[1..]);
      var m :| 0 <= m < |s[1..]| && s[1..][m] == y;
      assert s[m + 1] == y;
    }
  }

  /** A head that precedes every entry of a ranked tail gives a ranked list. */
  lemma RankedCons(h: Score, t: seq<Score>)
    requires Ranked(t)
    requires forall j :: 0 <= j < |t| ==> Precedes(h, t[j])
    ensures Ranked([h] + t)
  {
    var r := [h] + t;
    forall i, j | 0 <= i < j < |r| ensures Precedes(r[i], r[j]) {
      assert r[j] == t[j - 1];
      if i > 0 {
        assert r[i] == t[i - 1];
      }
    }
  }

  /**
   * The sort returns a permutation of its input, ordered by descending probability with
   * ties kept in input order — for input in position order, exactly what Python's stable
   * `sort(reverse=True)` returns (see `RankedUnique`).
   */
  lemma {:induction false} SortByProbabilitySpec(s: seq<Score>)
    requires IndicesIncreasing(s)
    ensures multiset(SortByProbability(s)) == multiset(s)
    ensures Ranked(SortByProbability(s))
  {
    if s != [] {
      var init := s[..|s| - 1];
      var last := s[|s| - 1];
      assert s == init + [last];
      SortByProbabilitySpec(init);
      var sorted := SortByProbability(init);
      forall k | 0 <= k < |sorted| ensures sorted[k].index < last.index {
        assert sorted[k] in multiset(init);
        var m :| 0 <= m < |init| && init[m] == sorted[k];
      }
      InsertByProbabilitySpec(last, sorted);
      InsertByProbabilityPermutes(last, sorted);
    }
  }

  /** Two ranked permutations of the same entries are equal, so the ranking fixes the order completely. */
  lemma {:induction false} RankedUnique(a: seq<Score>, b: seq<Score>)
    requires Ranked(a) && Ranked(b)
    requires multiset(a) == multiset(b)
    ensures a == b
  {
    if a != [] {
      assert |b| == |multiset(b)| > 0;
      RankedHeadsAgree(a, b);
      SameTails(a, b);
      RankedTail(a);
      RankedTail(b);
      RankedUnique(a[1..], b[1..]);
      assert a == [a[0]] + a[1..] && b == [b[0]] + b[1..];
    }
  }

  /** Two ranked permutations of the same entries start with the same entry. */
  lemma RankedHeadsAgree(a: seq<Score>, b: seq<Score>)
    requires Ranked(a) && Ranked(b) && a != [] && b != []
    requires multiset(a) == multiset(b)
    ensures a[0] == b[0]
  {
    assert a[0] in multiset(b);
    assert b[0] in multiset(a);
    RankedHead(a, b[0]);
    RankedHead(b, a[0]);
  }

  /** Removing the same head from two permutations of each other leaves permutations. */
  lemma SameTails<T>(a: seq<T>, b: seq<T>)
    requires a != [] && b != [] && a[0] == b[0]
    requires multiset(a) == multiset(b)
    ensures multiset(a[1..]) == multiset(b[1..])
  {
    assert a == [a[0]] + a[1..];
    assert multiset(a[1..]) == multiset(a) - multiset{a[0]};
    assert b == [b[0]] + b[1..];
    assert multiset(b[1..]) == multiset(b) - multiset{b[0]};
  }

  /** The head of a ranked list precedes every other entry of it. */
  lemma RankedHead(s: seq<Score>, x: Score)
    requires Ranked(s) && x in multiset(s)
    ensures x == s[0] || Precedes(s[0], x)
  {
    var j :| 0 <= j < |s| && s[j] == x;
  }

  lemma RankedTail(s: seq<Score>)
    requires Ranked(s) && s != []
    ensures Ranked(s[1..])
  {
    forall i, j | 0 <= i < j < |s| - 1 ensures Precedes(s[1..][i], s[1..][j]) {
      assert s[1..][i] == s[i + 1] && s[1..][j] == s[j + 1];
    }
  }

  /** `[item[0] for item in scores[:8]]`. */
  function TopNames(scores: seq<Score>): (names: seq<string>)
    ensures |names| == Min(MaxCrops, |scores|)
    ensures forall k :: 0 <= k < |names| ==> names[k] == scores[k].crop
  {
    seq(Min(MaxCrops, |scores|), k requires 0 <= k < Min(MaxCrops, |scores|) => scores[k].crop)
  }

  /** `bool(CROP_PREDICTOR_MODEL)`: `None` is false, and a forest is false when it has no
      trees, since its truth value is `len(model.estimators_)`. */
  predicate ModelPresent(model: Option<Classifier>)
  {
    model.Some? && model.value.trees != 0
  }

  /**
   * What `predict_suitable_crops` returns, given the two globals and the outcome of
   * `predict_proba` (`None` when it raises).
   */
  function Ranking(model: Option<Classifier>, encoder: Option<LabelEncoder>, inference: Option<seq<real>>): seq<string>
  {
    if !ModelPresent(model) then []
    else if inference.None? then [PredictionFailed]
    else match Candidates(model.value, encoder, inference.value, |inference.value|)
      case None => [PredictionFailed]
      case Some(c) => TopNames(SortByProbability(c))
  }

  /** With no model loaded, or one without trees, the result is the empty list whatever else holds. */
  lemma RankingWithoutModel(model: Option<Classifier>, encoder: Option<LabelEncoder>, inference: Option<seq<real>>)
    requires model.None? || model.value.trees == 0
    ensures Ranking(model, encoder, inference) == []
  {
  }

  /** A trained model always counts as loaded. */
  lemma TrainedModelIsLoaded(y: seq<nat>)
    ensures ModelPresent(Some(Train(y)))
  {
  }

  /**
   * The failure path: with a model loaded, the result is exactly `["Prediction Failed"]`
   * when `predict_proba` raises or some position above the threshold cannot be decoded,
   * and otherwise never more than eight names.
   */
  lemma RankingFailure(model: Classifier, encoder: Option<LabelEncoder>, inference: Option<seq<real>>)
    requires model.trees != 0
    ensures (inference.None? || exists i :: 0 <= i < |inference.value| && inference.value[i] > Threshold && CropAt(model, encoder, i).None?)
      ==> Ranking(Some(model), encoder, inference) == [PredictionFailed]
    ensures inference.Some? && (forall i :: 0 <= i < |inference.value| && inference.value[i] > Threshold ==> CropAt(model, encoder, i).Some?)
      ==> |Ranking(Some(model), encoder, inference)| <= MaxCrops
  {
    if inference.Some? {
      CandidatesSucceedIff(model, encoder, inference.value, |inference.value|);
    }
  }

  /** The entries the sort ranks on the success path: one per position above the threshold. */
  function RankedEntries(model: Classifier, encoder: Option<LabelEncoder>, probs: seq<real>): seq<Score>
    requires forall i :: 0 <= i < |probs| && probs[i] > Threshold ==> CropAt(model, encoder, i).Some?
  {
    CandidatesSucceedIff(model, encoder, probs, |probs|);
    SortByProbability(Candidates(model, encoder, probs, |probs|).value)
  }

  /**
   * The success path: the result is the crop names of the first `min(8, n)` of the
   * ranked entries, which are ordered by non-increasing probability with ties in
   * position order.
   */
  lemma RankingSuccess(model: Classifier, encoder: Option<LabelEncoder>, probs: seq<real>)
    requires model.trees != 0
    requires forall i :: 0 <= i < |probs| && probs[i] > Threshold ==> CropAt(model, encoder, i).Some?
    ensures var sorted := RankedEntries(model, encoder, probs);
      && Ranking(Some(model), encoder, Some(probs)) == TopNames(sorted)
      && |Ranking(Some(model), encoder, Some(probs))| == Min(MaxCrops, |sorted|)
      && Ranked(sorted)
  {
    CandidatesSucceedIff(model, encoder, probs, |probs|);
    CandidatesEntries(model, encoder, probs, |probs|);
    SortByProbabilitySpec(Candidates(model, encoder, probs, |probs|).value);
  }

  /**
   * Each ranked entry is a position whose probability is strictly above 0.05 (so one at
   * exactly 0.05 never appears), carrying that probability and the name
   * `encoder.classes_[model.classes_[index]]`.
   */
  lemma RankedEntriesValid(model: Classifier, encoder: Option<LabelEncoder>, probs: seq<real>)
    requires forall i :: 0 <= i < |probs| && probs[i] > Threshold ==> CropAt(model, encoder, i).Some?
    ensures var sorted := RankedEntries(model, encoder, probs);
      forall k :: 0 <= k < |sorted| ==>
        && sorted[k].index < |probs| && sorted[k].prob == probs[sorted[k].index] && sorted[k].prob > Threshold
        && encoder.Some? && sorted[k].index < |model.classes|
        && sorted[k].crop == encoder.value.classes[model.classes[sorted[k].index]]
  {
    CandidatesSucceedIff(model, encoder, probs, |probs|);
    CandidatesEntries(model, encoder, probs, |probs|);
    var c := Candidates(model, encoder, probs, |probs|).value;
    SortByProbabilitySpec(c);
    var sorted := SortByProbability(c);
    forall k | 0 <= k < |sorted| ensures ValidEntry(model, encoder, probs, sorted[k]) {
      assert sorted[k] in multiset(c);
      var m :| 0 <= m < |c| && c[m] == sorted[k];
    }
  }

  /** Every position above the threshold has its ranked entry. */
  lemma RankedEntriesComplete(model: Classifier, encoder: Option<LabelEncoder>, probs: seq<real>, pos: nat)
    requires forall i :: 0 <= i < |probs| && probs[i] > Threshold ==> CropAt(model, encoder, i).Some?
    requires pos < |probs| && probs[pos] > Threshold
    ensures exists k :: 0 <= k < |RankedEntries(model, encoder, probs)| && RankedEntries(model, encoder, probs)[k].index == pos
  {
    CandidatesSucceedIff(model, encoder, probs, |probs|);
    CandidatesEntries(model, encoder, probs, |probs|);
    var c := Candidates(model, encoder, probs, |probs|).value;
    SortByProbabilitySpec(c);
    var sorted := SortByProbability(c);
    assert sorted == RankedEntries(model, encoder, probs);
    CandidatesComplete(model, encoder, probs, |probs|, pos);
    var m :| 0 <= m < |c| && c[m].index == pos;
    assert c[m] in multiset(sorted);
    var k :| 0 <= k < |sorted| && sorted[k] == c[m];
  }

  /**
   * `predict_suitable_crops`: the loop over the probability vector builds
   * `suitability_scores`, which is then sorted and cut to eight names.  The two
   * globals and the outcome of `predict_proba` are parameters.
   */
  method PredictSuitableCrops(model: Option<Classifier>, encoder: Option<LabelEncoder>, inference: Option<seq<real>>)
    returns (crops: seq<string>)
    ensures crops == Ranking(model, encoder, inference)
  {
    if model.None? || model.value.trees == 0 {
      return [];
    }
    if inference.None? {
      return [PredictionFailed];
    }
    var probs := inference.value;
    var scores: seq<Score> := [];
    for i := 0 to |probs|
      invariant Candidates(model.value, encoder, probs, i) == Some(scores)
    {
      if probs[i] > Threshold {
        if !(i < |model.value.classes| && encoder.Some? && model.value.classes[i] < |encoder.value.classes|) {
          CandidatesFailureSticks(model.value, encoder, probs, i + 1, |probs|);
          return [PredictionFailed];
        }
        var cropName := encoder.value.classes[model.value.classes[i]];
        scores := scores + [Score(i, cropName, probs[i])];
      }
    }
    var sorted := SortByProbability(scores);
    crops := TopNames(sorted);
  }

  /** Two crops above the threshold and one below: only the two are returned, most probable first. */
  lemma RiceWheatScenario()
    ensures Ranking(Some(Classifier([0, 1, 2], TreeCount, RandomState)),
                    Some(LabelEncoder(["Maize", "Rice", "Wheat"])),
                    Some([0.02, 0.5, 0.48])) == ["Rice", "Wheat"]
  {
    var m := Classifier([0, 1, 2], TreeCount, RandomState);
    var e := Some(LabelEncoder(["Maize", "Rice", "Wheat"]));
    var p := [0.02, 0.5, 0.48];
    var rice, wheat := Score(1, "Rice", 0.5), Score(2, "Wheat", 0.48);
    var none: seq<Score> := [];
    assert Score(1, CropAt(m, e, 1).value, p[1]) == rice && Score(2, CropAt(m, e, 2).value, p[2]) == wheat;
    assert Candidates(m, e, p, 1) == Some(none);
    assert Candidates(m, e, p, 2) == Some(none + [rice]) && none + [rice] == [rice];
    assert Candidates(m, e, p, 3) == Some([rice] + [wheat]) && [rice] + [wheat] == [rice, wheat];
    assert [rice, wheat][..1] == [rice];
    assert SortByProbability([rice]) == InsertByProbability(rice, none) == [rice];
    assert SortByProbability([rice, wheat]) == InsertByProbability(wheat, [rice]) == [rice, wheat];
  }

  /**
   * Equal probabilities keep vector order (not crop-name order), and each position is named
   * through `classes_`: position 0 holds class ID 1.
   */
  lemma TieKeepsVectorOrderScenario()
    ensures Ranking(Some(Classifier([1, 0], TreeCount, RandomState)),
                    Some(LabelEncoder(["Maize", "Rice"])),
                    Some([0.4, 0.4])) == ["Rice", "Maize"]
  {
    var m := Classifier([1, 0], TreeCount, RandomState);
    var e := Some(LabelEncoder(["Maize", "Rice"]));
    var p := [0.4, 0.4];
    var rice, maize := Score(0, "Rice", 0.4), Score(1, "Maize", 0.4);
    var none: seq<Score> := [];
    assert Score(0, CropAt(m, e, 0).value, p[0]) == rice && Score(1, CropAt(m, e, 1).value, p[1]) == maize;
    assert Candidates(m, e, p, 1) == Some(none + [rice]) && none + [rice] == [rice];
    assert Candidates(m, e, p, 2) == Some([rice] + [maize]) && [rice] + [maize] == [rice, maize];
    assert [rice, maize][..1] == [rice];
    assert SortByProbability([rice]) == InsertByProbability(rice, none) == [rice];
    assert SortByProbability([rice, maize]) == InsertByProbability(maize, [rice]) == [rice, maize];
  }

  // ---------------------------------------------------------------------------
  // load_and_train_model
  // ---------------------------------------------------------------------------

  datatype LoadOutcome =
    | Loaded           // both artifact files existed and were read
    | DataFileMissing  // an artifact was missing and so was the data file
    | TrainingFailed   // the data file had no rows, so `fit` raised
    | Trained          // the model was trained and both artifacts written

  /**
   * The module's three globals together with the files they are loaded from and
   * saved to.  A file is `Some(contents)` when it exists; the data file is seen
   * through its label column.
   */
  class CropModelStore {
    var model: Option<Classifier>         // CROP_PREDICTOR_MODEL
    var encoder: Option<LabelEncoder>     // CROP_LABEL_ENCODER
    var allCrops: seq<string>             // ALL_CROPS
    var modelFile: Option<Classifier>     // MODEL_FILE
    var encoderFile: Option<LabelEncoder> // LABEL_ENCODER_FILE
    var dataFile: Option<seq<string>>     // DATA_FILE's label column

    /** A model is only ever set together with an encoder, and ALL_CROPS lists the encoder's classes. */
    ghost predicate Valid()
      reads this
    {
      (model.Some? ==> encoder.Some?)
      && (encoder.Some? ==> allCrops == encoder.value.classes)
    }

    /** The globals as the module defines them, before `load_and_train_model` runs. */
    constructor (modelOnDisk: Option<Classifier>, encoderOnDisk: Option<LabelEncoder>, dataOnDisk: Option<seq<string>>)
      ensures Valid()
      ensures model == None && encoder == None && allCrops == []
      ensures modelFile == modelOnDisk && encoderFile == encoderOnDisk && dataFile == dataOnDisk
    {
      model, encoder, allCrops := None, None, [];
      modelFile, encoderFile, dataFile := modelOnDisk, encoderOnDisk, dataOnDisk;
    }

    /** The model is trained exactly when one artifact is missing and the data file has rows. */
    method LoadAndTrainModel() returns (outcome: LoadOutcome)
      requires Valid()
      modifies this
      ensures Valid()
      ensures dataFile == old(dataFile)
      ensures old(modelFile).Some? && old(encoderFile).Some? ==>
        && outcome == Loaded
        && model == old(modelFile) && encoder == old(encoderFile) && allCrops == old(encoderFile).value.classes
        && modelFile == old(modelFile) && encoderFile == old(encoderFile)
      ensures !(old(modelFile).Some? && old(encoderFile).Some?) && old(dataFile).None? ==>
        && outcome == DataFileMissing
        && model == old(model) && encoder == old(encoder) && allCrops == old(allCrops)
        && modelFile == old(modelFile) && encoderFile == old(encoderFile)
      ensures !(old(modelFile).Some? && old(encoderFile).Some?) && old(dataFile) == Some([]) ==>
        && outcome == TrainingFailed
        && model == old(model) && encoder == Some(LabelEncoder([])) && allCrops == []
        && modelFile == old(modelFile) && encoderFile == old(encoderFile)
      ensures !(old(modelFile).Some? && old(encoderFile).Some?) && old(dataFile).Some? && old(dataFile).value != [] ==>
        var (trainedEncoder, ids) := FitTransform(old(dataFile).value);
        && outcome == Trained
        && encoder == Some(trainedEncoder) && allCrops == trainedEncoder.classes
        && model == Some(Train(ids)) && Train(ids).classes == Range(|allCrops|)
        && modelFile == model && encoderFile == encoder
    {
      if modelFile.Some? && encoderFile.Some? {
        model := modelFile;
        encoder := encoderFile;
        allCrops := encoderFile.value.classes;
        return Loaded;
      }
      if dataFile.None? {
        return DataFileMissing;
      }
      var labels := dataFile.value;
      var (trainedEncoder, ids) := FitTransform(labels);
      encoder := Some(trainedEncoder);
      allCrops := trainedEncoder.classes;
      if labels == [] {
        return TrainingFailed;
      }
      TrainedClassesAlign(labels);
      var trained := Train(ids);
      model := Some(trained);
      modelFile := model;
      encoderFile := encoder;
      outcome := Trained;
    }
  }

  /**
   * Once the model has been trained and saved, running the start-up step again loads
   * the saved pair and trains nothing: the globals are the same as before.
   */
  method LoadAfterTrainIsIdempotent(store: CropModelStore)
    returns (first: LoadOutcome, second: LoadOutcome,
             modelAfterFirst: Option<Classifier>, encoderAfterFirst: Option<LabelEncoder>,
             cropsAfterFirst: seq<string>)
    requires store.Valid()
    modifies store
    ensures first == Trained || first == Loaded ==>
      && second == Loaded
      && store.model == modelAfterFirst && store.encoder == encoderAfterFirst
      && store.allCrops == cropsAfterFirst
  {
    first := store.LoadAndTrainModel();
    modelAfterFirst, encoderAfterFirst, cropsAfterFirst := store.model, store.encoder, store.allCrops;
    second := store.LoadAndTrainModel();
  }
}
