/**
 * The epoch loop of the neural model's training driver, reduced to its
 * decisions.  Each epoch's mean validation loss is an input (the gradient
 * steps and the loss arithmetic are not modelled); the loop keeps the best
 * loss so far, saves a checkpoint on every strict improvement, counts the
 * epochs without one, and stops after three of them in a row.
 */
module EarlyStopping {

  /** Epochs without improvement after which the loop stops. */
  const EarlyStoppingLimit: nat := 3

  /**
   * A mean validation loss as a double.  Binary cross-entropy is never
   * negative, so minus infinity does not arise; an overflowing or
   * undefined mean is plus infinity or NaN.
   */
  datatype Loss = Finite(value: real) | PosInf | NaN

  /** Python's `<` on two doubles: false whenever either side is NaN. */
  predicate Below(a: Loss, b: Loss)
  {
    match (a, b)
    case (Finite(x), Finite(y)) => x < y
    case (Finite(_), PosInf) => true
    case _ => false
  }

  /** Epoch `e` sets a record: its loss is finite and strictly below every finite loss before it. */
  ghost predicate IsRecord(losses: seq<Loss>, e: nat)
    requires e < |losses|
  {
    losses[e].Finite? &&
    forall j :: 0 <= j < e && losses[j].Finite? ==> losses[e].value < losses[j].value
  }

  /** `best` is the minimum of plus infinity and the first `k` losses. */
  ghost predicate IsBestOf(best: Loss, losses: seq<Loss>, k: nat)
    requires k <= |losses|
  {
    !best.NaN? &&
    (best.PosInf? <==> forall e :: 0 <= e < k ==> !losses[e].Finite?) &&
    (best.Finite? ==> exists e :: 0 <= e < k && losses[e] == best) &&
    (forall e :: 0 <= e < k && losses[e].Finite? ==> best.Finite? && best.value <= losses[e].value)
  }

  /** Number of epochs, among the first `k`, since the last record (or since the start). */
  ghost function SinceRecord(losses: seq<Loss>, k: nat): nat
    requires k <= |losses|
  {
    if k == 0 then 0
    else if IsRecord(losses, k - 1) then 0
    else SinceRecord(losses, k - 1) + 1
  }

  /** SinceRecord counts the trailing run of epochs without a record, and the epoch before that run is a record. */
  lemma {:induction false} SinceRecordIsTrailingRun(losses: seq<Loss>, k: nat)
    requires k <= |losses|
    ensures SinceRecord(losses, k) <= k
    ensures forall e :: k - SinceRecord(losses, k) <= e < k ==> !IsRecord(losses, e)
    ensures SinceRecord(losses, k) < k ==> IsRecord(losses, k - SinceRecord(losses, k) - 1)
  {
    if k > 0 && !IsRecord(losses, k - 1) {
      SinceRecordIsTrailingRun(losses, k - 1);
    }
  }

  /** A loss improves on the best so far exactly when its epoch is a record, and the best then moves to it. */
  lemma RecordStep(best: Loss, losses: seq<Loss>, e: nat)
    requires e < |losses| && IsBestOf(best, losses, e)
    ensures Below(losses[e], best) <==> IsRecord(losses, e)
    ensures IsBestOf(if Below(losses[e], best) then losses[e] else best, losses, e + 1)
  {
  }

  /**
   * When the counter reaches the limit after `k` epochs, the last
   * `EarlyStoppingLimit` epochs brought no record and the one before them
   * (if any) did: the loop stops exactly that many epochs after its last
   * improvement.
   */
  lemma StopFollowsLastRecord(losses: seq<Loss>, k: nat)
    requires k <= |losses| && SinceRecord(losses, k) == EarlyStoppingLimit
    ensures k >= EarlyStoppingLimit
    ensures forall e :: k - EarlyStoppingLimit <= e < k ==> !IsRecord(losses, e)
    ensures k == EarlyStoppingLimit || IsRecord(losses, k - EarlyStoppingLimit - 1)
  {
    SinceRecordIsTrailingRun(losses, k);
  }

  /**
   * Runs at most `nEpochs` epochs; epoch `e` sees the mean validation loss
   * `losses[e]`.  Returns the best loss, the number of epochs run and the
   * epochs at which a checkpoint was saved, in order.
   */
  method TrainEvalNNModel(losses: seq<Loss>, nEpochs: nat) returns (best: Loss, epochsRun: nat, checkpoints: seq<nat>)
    requires nEpochs <= |losses|
    ensures epochsRun <= nEpochs
    ensures IsBestOf(best, losses, epochsRun)
    ensures forall e: nat :: e in checkpoints <==> e < epochsRun && IsRecord(losses, e)
    ensures forall i, j :: 0 <= i < j < |checkpoints| ==> checkpoints[i] < checkpoints[j]
    ensures forall k :: 0 <= k < epochsRun ==> SinceRecord(losses, k) < EarlyStoppingLimit
    ensures epochsRun == nEpochs || SinceRecord(losses, epochsRun) == EarlyStoppingLimit
  {
    best := PosInf;
    var earlyStoppingCounter := 0;
    epochsRun := 0;
    checkpoints := [];
    while epochsRun < nEpochs
      invariant epochsRun <= nEpochs
      invariant IsBestOf(best, losses, epochsRun)
      invariant earlyStoppingCounter == SinceRecord(losses, epochsRun) < EarlyStoppingLimit
      invariant forall k :: 0 <= k < epochsRun ==> SinceRecord(losses, k) < EarlyStoppingLimit
      invariant forall e: nat :: e in checkpoints <==> e < epochsRun && IsRecord(losses, e)
      invariant forall i :: 0 <= i < |checkpoints| ==> checkpoints[i] < epochsRun
      invariant forall i, j :: 0 <= i < j < |checkpoints| ==> checkpoints[i] < checkpoints[j]
    {
      var epoch := epochsRun;
      var valLoss := losses[epoch];
      RecordStep(best, losses, epoch);
      if Below(valLoss, best) {
        best := valLoss;
        earlyStoppingCounter := 0;
        checkpoints := checkpoints + [epoch];
      } else {
        earlyStoppingCounter := earlyStoppingCounter + 1;
      }
      epochsRun := epoch + 1;
      if earlyStoppingCounter >= EarlyStoppingLimit {
        break;
      }
    }
  }
}
