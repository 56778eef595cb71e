/**
 * Turning sigmoid outputs into class labels.  Training and validation
 * batches are scored by an accuracy routine that overwrites its prediction
 * array with 0/1 labels using "above one half is positive"; the final test
 * loop labels a copy of the predictions with "one half or more is
 * positive".  Predictions and labels are reals: the NaN a float may hold is
 * not modelled.
 */
module Accuracy {
  import opened Wrappers

  /** The accuracy routine's rule: strictly above one half is class 1. */
  function TrainLabel(p: real): real
  {
    if p > 0.5 then 1.0 else 0.0
  }

  /** The test loop's rule: one half or more is class 1. */
  function TestLabel(p: real): real
  {
    if p >= 0.5 then 1.0 else 0.0
  }

  /** Both rules yield a class label, and they disagree on exactly one input: one half, which training calls 0 and testing calls 1. */
  lemma ThresholdsDisagreeOnlyAtHalf(p: real)
    ensures TrainLabel(p) in {0.0, 1.0} && TestLabel(p) in {0.0, 1.0}
    ensures TrainLabel(p) != TestLabel(p) <==> p == 0.5
    ensures p == 0.5 ==> TrainLabel(p) == 0.0 && TestLabel(p) == 1.0
  {
  }

  /** Number of positions where prediction and label are equal. */
  function Matches(yHat: seq<real>, labels: seq<real>): nat
    requires |yHat| == |labels|
  {
    if |yHat| == 0 then 0
    else Matches(yHat[..|yHat| - 1], labels[..|labels| - 1]) + (if yHat[|yHat| - 1] == labels[|labels| - 1] then 1 else 0)
  }

  /** Matches never exceed the batch, and reach it exactly when every prediction equals its label. */
  lemma {:induction false} MatchesBounded(yHat: seq<real>, labels: seq<real>)
    requires |yHat| == |labels|
    ensures Matches(yHat, labels) <= |yHat|
    ensures Matches(yHat, labels) == |yHat| <==> yHat == labels
  {
    if |yHat| > 0 {
      var n := |yHat| - 1;
      MatchesBounded(yHat[..n], labels[..n]);
      if yHat[..n] == labels[..n] && yHat[n] == labels[n] {
        assert yHat == yHat[..n] + [yHat[n]] && labels == labels[..n] + [labels[n]];
      }
    }
  }

  /** The accuracy of a batch: matches over batch size, or no number at all (0/0) for an empty batch. */
  function BatchAccuracy(yHat: seq<real>, labels: seq<real>): Option<real>
    requires |yHat| == |labels|
  {
    if |yHat| == 0 then None else Some(Matches(yHat, labels) as real / |yHat| as real)
  }

  /** A batch accuracy is a fraction in [0, 1]. */
  lemma AccuracyInUnitInterval(yHat: seq<real>, labels: seq<real>)
    requires |yHat| == |labels|
    ensures BatchAccuracy(yHat, labels).Some? <==> |yHat| > 0
    ensures BatchAccuracy(yHat, labels).Some? ==> 0.0 <= BatchAccuracy(yHat, labels).value <= 1.0
    ensures BatchAccuracy(yHat, labels) == Some(1.0) <==> |yHat| > 0 && yHat == labels
  {
    MatchesBounded(yHat, labels);
    if |yHat| > 0 {
      var m, n := Matches(yHat, labels) as real, |yHat| as real;
      var q := m / n;
      assert q * n == m;
      assert (1.0 - q) * n == n - m;
      assert 1.0 - q >= 0.0;
      assert q == 1.0 <==> m == n by {
        if q == 1.0 { assert m == 1.0 * n; }
      }
    }
  }

  /** Counts the positions where the (already labelled) predictions equal the labels. */
  method CountCorrect(yHat: array<real>, labels: seq<real>) returns (correct: nat)
    requires yHat.Length == |labels|
    ensures correct == Matches(yHat[..], labels)
  {
    correct := 0;
    for i := 0 to yHat.Length
      invariant correct == Matches(yHat[..i], labels[..i])
    {
      assert yHat[..i + 1][..i] == yHat[..i] && labels[..i + 1][..i] == labels[..i];
      if yHat[i] == labels[i] {
        correct := correct + 1;
      }
    }
    assert yHat[..yHat.Length] == yHat[..] && labels[..|labels|] == labels;
  }

  /**
   * Labels the predictions in place, in two masked passes (first every
   * value above one half becomes 1, then every value at or below one half
   * becomes 0), and returns the share of labels matched.
   */
  method GetAccuracy(yHat: array<real>, labels: seq<real>) returns (accuracy: Option<real>)
    requires yHat.Length == |labels|
    modifies yHat
    ensures forall i :: 0 <= i < yHat.Length ==> yHat[i] == TrainLabel(old(yHat[i]))
    ensures accuracy == BatchAccuracy(yHat[..], labels)
  {
    var batchSize := yHat.Length;
    for i := 0 to batchSize
      invariant forall k :: 0 <= k < i ==> yHat[k] == (if old(yHat[k]) > 0.5 then 1.0 else old(yHat[k]))
      invariant forall k :: i <= k < batchSize ==> yHat[k] == old(yHat[k])
    {
      if yHat[i] > 0.5 {
        yHat[i] := 1.0;
      }
    }
    for i := 0 to batchSize
      invariant forall k :: 0 <= k < i ==> yHat[k] == TrainLabel(old(yHat[k]))
      invariant forall k :: i <= k < batchSize ==> yHat[k] == (if old(yHat[k]) > 0.5 then 1.0 else old(yHat[k]))
    {
      if yHat[i] <= 0.5 {
        yHat[i] := 0.0;
      }
    }
    var correct := CountCorrect(yHat, labels);
    if batchSize == 0 {
      accuracy := None;
    } else {
      accuracy := Some(correct as real / batchSize as real);
    }
  }

  /**
   * The test loop's labelling: a fresh copy of the predictions, in which
   * every prediction below one half is set to 0 and then every prediction
   * at or above one half to 1; both masks read the original predictions.
   */
  method BinarizeForTest(prediction: array<real>) returns (binary: array<real>)
    ensures fresh(binary) && binary.Length == prediction.Length
    ensures forall i :: 0 <= i < binary.Length ==> binary[i] == TestLabel(prediction[i])
  {
    binary := new real[prediction.Length](i reads prediction => if 0 <= i < prediction.Length then prediction[i] else 0.0);
    for i := 0 to binary.Length
      invariant forall k :: 0 <= k < i ==> binary[k] == (if prediction[k] < 0.5 then 0.0 else prediction[k])
      invariant forall k :: i <= k < binary.Length ==> binary[k] == prediction[k]
    {
      if prediction[i] < 0.5 {
        binary[i] := 0.0;
      }
    }
    for i := 0 to binary.Length
      invariant forall k :: 0 <= k < i ==> binary[k] == TestLabel(prediction[k])
      invariant forall k :: i <= k < binary.Length ==> binary[k] == (if prediction[k] < 0.5 then 0.0 else prediction[k])
    {
      if prediction[i] >= 0.5 {
        binary[i] := 1.0;
      }
    }
  }
}
