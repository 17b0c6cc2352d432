/**
  Digit prediction: preprocess the resized frame, run the classifier once,
  and pass the first output row through the confidence gate, which turns a
  prediction whose best score is below the threshold into the sentinel -1.
 */
module Predict {
  import opened Grids
  import opened Preprocessing
  import opened Scores

  /** Number of digit classes the classifier scores. */
  const NumClasses: nat := 10

  /** Label returned when no class is scored confidently enough. */
  const Rejected: int := -1

  /** Threshold the gate uses: a best score strictly below it is rejected. */
  const ConfidenceThreshold: real := 0.3

  /** The returned pair: the digit (or `Rejected`) and the model's score row. */
  datatype Prediction = Prediction(digit: int, probabilities: seq<real>)

  /**
    The classifier's forward pass (Keras `predict`): one row of class
    scores per image of the input batch. Its numerics are not modelled.
   */
  type Forward = Tensor -> seq<seq<real>>

  /**
    The confidence gate over one row of class scores: the arg-max is the
    answer unless the largest score is strictly below `threshold`, in which
    case the answer is `Rejected`. The row is returned either way.
   */
  function Gate(probs: seq<real>, threshold: real): (p: Prediction)
    requires |probs| > 0
    ensures p.probabilities == probs
    ensures p.digit == Rejected || 0 <= p.digit < |probs|
    ensures p.digit == Rejected <==> forall j :: 0 <= j < |probs| ==> probs[j] < threshold
    ensures p.digit != Rejected ==> IsFirstMax(probs, p.digit)
  {
    var digit := ArgMax(probs);
    var confidence := Max(probs);
    if confidence < threshold then Prediction(Rejected, probs) else Prediction(digit, probs)
  }

  /**
    The gate with the confidence taken as the candidate's own score
    `probs[ArgMax(probs)]` instead of the row's maximum.
   */
  function CandidateGate(probs: seq<real>, threshold: real): Prediction
    requires |probs| > 0
  {
    var candidate := ArgMax(probs);
    if probs[candidate] < threshold then Prediction(Rejected, probs)
    else Prediction(candidate, probs)
  }

  /** Gating on `max` and gating on the candidate's own score are the same rule. */
  lemma GateIsCandidateGate(probs: seq<real>, threshold: real)
    requires |probs| > 0
    ensures Gate(probs, threshold) == CandidateGate(probs, threshold)
  {
  }

  /** An accepted prediction is the arg-max of the row and its confidence reaches the threshold. */
  lemma AcceptedIsArgMax(probs: seq<real>, threshold: real)
    requires |probs| > 0
    ensures Gate(probs, threshold).digit != Rejected <==> Max(probs) >= threshold
    ensures Gate(probs, threshold).digit != Rejected ==> Gate(probs, threshold).digit == ArgMax(probs)
  {
  }

  /**
    Lowering the threshold never turns an accepted prediction into a
    rejection, and never changes an accepted digit.
   */
  lemma GateMonotoneInThreshold(probs: seq<real>, lower: real, higher: real)
    requires |probs| > 0
    requires lower <= higher
    requires Gate(probs, higher).digit != Rejected
    ensures Gate(probs, lower).digit == Gate(probs, higher).digit
  {
  }

  /** A best score of exactly the threshold is accepted, and ties go to the lowest index. */
  lemma BoundaryTieAccepted()
    ensures Gate([0.1, 0.3, 0.3, 0.0, 0.0, 0.1, 0.1, 0.0, 0.1, 0.0], ConfidenceThreshold).digit == 1
  {
    var probs := [0.1, 0.3, 0.3, 0.0, 0.0, 0.1, 0.1, 0.0, 0.1, 0.0];
    var d := Gate(probs, ConfidenceThreshold).digit;
    assert probs[1] >= ConfidenceThreshold;
    assert d != Rejected;
    assert probs[d] <= probs[1];
  }

  /** A flat row of ten 0.1 scores has no confident class and is rejected. */
  lemma UniformRowRejected()
    ensures Gate(seq(NumClasses, _ => 0.1), ConfidenceThreshold).digit == Rejected
  {
  }

  /**
    Digit prediction for one image whose greyscale conversion and resize
    produced `frame`: preprocess, run the forward pass, gate the first
    output row at `ConfidenceThreshold`.
   */
  function PredictDigit(forward: Forward, frame: seq<seq<Intensity>>): (p: Prediction)
    requires IsRect(frame, Side, Side)
    requires |forward(Preprocess(frame))| > 0
    requires |forward(Preprocess(frame))[0]| > 0
    ensures p.probabilities == forward(Preprocess(frame))[0]
    ensures p.digit == Rejected || 0 <= p.digit < |p.probabilities|
    ensures |p.probabilities| == NumClasses ==> -1 <= p.digit <= 9
    ensures p.digit == Rejected <==>
              forall j :: 0 <= j < |p.probabilities| ==> p.probabilities[j] < ConfidenceThreshold
    ensures p.digit != Rejected ==> IsFirstMax(p.probabilities, p.digit)
  {
    var input := Preprocess(frame);
    var rows := forward(input);
    Gate(rows[0], ConfidenceThreshold)
  }
}
