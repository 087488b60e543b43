/**
 * Result packaging in `predict` (app/services.py:86-114): the class with the
 * larger score wins (numpy's `argmax`, first occurrence on ties), the label is
 * named after the class, and any failure of tokenization or inference becomes
 * a ModelInferenceError.  The tokenizer, the forward pass and the softmax are
 * foreign code: their combined outcome is an oracle value that either carries
 * the two class scores or the text of the exception raised.
 */
module Prediction {
  import opened Wrappers
  import opened Exceptions

  const HumanLabel: string := "Human-written"
  const AiLabel: string := "AI-generated"
  const InferenceErrorPrefix: string := "Inference error: "

  /** The dictionary `predict` returns. */
  datatype PredictionResult = PredictionResult(
    scoreClass0: real,
    scoreClass1: real,
    predictedClass: int,
    predictedLabel: string)

  /** What tokenizing the text and running the model produced. */
  datatype InferenceOutcome =
    | Scores(score0: real, score1: real)
    | InferenceFailed(cause: string)

  /**
   * numpy's `argmax` on a one-dimensional array: the index of a largest
   * element, and of the first one when several are equally large.
   */
  function FirstArgMax(xs: seq<real>): (k: nat)
    requires |xs| > 0
    ensures k < |xs|
    ensures forall j :: 0 <= j < |xs| ==> xs[j] <= xs[k]
    ensures forall j :: 0 <= j < k ==> xs[j] < xs[k]
  {
    if |xs| == 1 then 0
    else
      var k := FirstArgMax(xs[..|xs| - 1]);
      if xs[|xs| - 1] > xs[k] then |xs| - 1 else k
  }

  /** `probabilities_cpu.argmax().item()` over the two class scores. */
  function PredictedClass(score0: real, score1: real): (c: int)
    ensures c == 0 || c == 1
    ensures c == 1 <==> score1 > score0
  {
    FirstArgMax([score0, score1])
  }

  /** The label of a class index: only class 1 is "AI-generated". */
  function Label(predictedClass: int): (l: string)
    ensures l == AiLabel <==> predictedClass == 1
    ensures l == HumanLabel <==> predictedClass != 1
  {
    if predictedClass == 1 then AiLabel else HumanLabel
  }

  /**
   * The `try` block of `predict` after the forward pass: package the scores,
   * or turn the raised exception into a ModelInferenceError.  Nothing partial
   * is returned on failure.
   */
  function Package(outcome: InferenceOutcome): (r: Result<PredictionResult, ServiceError>)
    ensures r.Success? <==> outcome.Scores?
    ensures outcome.InferenceFailed? ==>
              r == Failure(ModelInferenceError(InferenceErrorPrefix + outcome.cause))
    ensures outcome.Scores? ==>
              r.value.scoreClass0 == outcome.score0 && r.value.scoreClass1 == outcome.score1
    ensures outcome.Scores? ==>
              (r.value.predictedClass == 1 <==> outcome.score1 > outcome.score0)
              && (r.value.predictedClass == 0 <==> outcome.score0 >= outcome.score1)
    ensures r.Success? ==>
              (r.value.predictedLabel == AiLabel <==> r.value.predictedClass == 1)
              && (r.value.predictedLabel == HumanLabel <==> r.value.predictedClass != 1)
  {
    match outcome
    case Scores(s0, s1) =>
      var c := PredictedClass(s0, s1);
      Success(PredictionResult(s0, s1, c, Label(c)))
    case InferenceFailed(cause) =>
      Failure(ModelInferenceError(InferenceErrorPrefix + cause))
  }

  /** The predicted class's score is never below the other class's score. */
  lemma PredictedScoreIsLargest(score0: real, score1: real)
    ensures var c := PredictedClass(score0, score1);
            [score0, score1][c] >= [score0, score1][1 - c]
  {
  }

  /** Equal scores are reported as class 0, "Human-written". */
  lemma TieGoesToHuman(score: real)
    ensures Package(Scores(score, score)) == Success(PredictionResult(score, score, 0, HumanLabel))
  {
  }
}
