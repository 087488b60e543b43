/**
 * The request and response schemas (app/schemas.py): what a request's text
 * must satisfy before it reaches `predict`, the bounds a prediction response
 * must meet, and the health-check defaults.  Validation that pydantic performs
 * is a function returning the validated value or the validation error.
 */
module Schemas {
  import opened Wrappers
  import opened Preprocessing
  import opened Prediction

  const TextMinLength: nat := 1
  const EmptyTextMessage: string := "Text cannot be empty or contain only whitespace."
  const Score0Field: string := "softmax_score_class_0"
  const Score1Field: string := "softmax_score_class_1"
  const HealthyMessage: string := "OK"
  const RunningStatus: string := "Running"

  datatype ValidationError =
    | StringTooShort(minLength: nat)          // the `min_length` constraint of the field
    | ValueError(message: string)             // raised by the field validator
    | OutOfBounds(fields: seq<string>)        // `ge=0, le=1` violated, by field name

  /**
   * `TextInput(text=value)`: pydantic checks `min_length=1` first, then runs
   * the `text_must_not_be_empty` validator, which returns the value itself.
   */
  function ValidateText(value: string): (r: Result<string, ValidationError>)
    ensures r.Success? <==>
              |value| >= TextMinLength && exists i :: 0 <= i < |value| && !IsWhitespace(value[i])
    ensures r.Success? ==> r.value == value
    ensures |value| < TextMinLength ==> r == Failure(StringTooShort(TextMinLength))
    ensures |value| >= TextMinLength && AllWhitespace(value) ==> r == Failure(ValueError(EmptyTextMessage))
  {
    StripEmptyIff(value);
    if |value| < TextMinLength then Failure(StringTooShort(TextMinLength))
    else if Strip(value) == [] then Failure(ValueError(EmptyTextMessage))
    else Success(value)
  }

  predicate InUnitInterval(x: real) {
    0.0 <= x <= 1.0
  }

  /** The validated response body. */
  datatype PredictionOutput = PredictionOutput(
    softmaxScoreClass0: real,
    softmaxScoreClass1: real,
    predictedClass: int,
    predictedLabel: string)

  /** `PredictionOutput(**result)`: both scores must lie in [0, 1]; every offending field is reported. */
  function ValidatePredictionOutput(p: PredictionResult): (r: Result<PredictionOutput, ValidationError>)
    ensures r.Success? <==> InUnitInterval(p.scoreClass0) && InUnitInterval(p.scoreClass1)
    ensures r.Success? ==>
              r.value == PredictionOutput(p.scoreClass0, p.scoreClass1, p.predictedClass, p.predictedLabel)
    ensures r.Failure? ==>
              r.error.OutOfBounds?
              && (Score0Field in r.error.fields <==> !InUnitInterval(p.scoreClass0))
              && (Score1Field in r.error.fields <==> !InUnitInterval(p.scoreClass1))
  {
    var bad := (if InUnitInterval(p.scoreClass0) then [] else [Score0Field])
               + (if InUnitInterval(p.scoreClass1) then [] else [Score1Field]);
    if bad == [] then
      Success(PredictionOutput(p.scoreClass0, p.scoreClass1, p.predictedClass, p.predictedLabel))
    else
      Failure(OutOfBounds(bad))
  }

  /** The health-check response. */
  datatype HealthCheck = HealthCheck(message: string, service: string, status: string)

  /**
   * `HealthCheck()` with every field left at its default; `service` defaults
   * to `settings.PROJECT_NAME`, which is `Config.ProjectName` unless the
   * environment overrides it.
   */
  function DefaultHealthCheck(projectName: string): (h: HealthCheck)
    ensures h.message == HealthyMessage && h.status == RunningStatus
    ensures h.service == projectName
  {
    HealthCheck(HealthyMessage, projectName, RunningStatus)
  }

  /**
   * A probability pair from the softmax always makes a valid response, and
   * validation keeps the class and label that `predict` chose.
   */
  lemma SoftmaxScoresPassOutputSchema(score0: real, score1: real)
    requires score0 >= 0.0 && score1 >= 0.0 && score0 + score1 == 1.0
    ensures var p := Package(Scores(score0, score1));
            p.Success? && ValidatePredictionOutput(p.value).Success?
            && ValidatePredictionOutput(p.value).value.predictedClass == PredictedClass(score0, score1)
  {
  }

  /**
   * The validator is strictly weaker than it looks: text made of punctuation
   * and whitespace, with at least one punctuation character, is accepted and
   * then preprocesses to the empty string, which `predict` still classifies.
   */
  lemma AcceptedYetEmptyAfterPreprocessing(text: string)
    requires forall i :: 0 <= i < |text| ==> IsPunctuation(text[i]) || IsWhitespace(text[i])
    requires exists i :: 0 <= i < |text| && IsPunctuation(text[i])
    ensures ValidateText(text) == Success(text)
    ensures Preprocess(text) == []
  {
    var i :| 0 <= i < |text| && IsPunctuation(text[i]);
    PunctuationIsNotWhitespace(text[i]);
    PreprocessEmptyWhenNothingElse(text);
  }

  /** The concrete instance: "!!!" passes the validator and preprocesses to "". */
  lemma ExclamationMarksExample()
    ensures ValidateText("!!!") == Success("!!!")
    ensures Preprocess("!!!") == ""
  {
    var text := "!!!";
    assert IsPunctuation(text[0]);
    AcceptedYetEmptyAfterPreprocessing(text);
  }

  /** In the other direction: whenever preprocessing leaves some text, the validator accepted the request. */
  lemma NonEmptyPreprocessingImpliesAccepted(text: string)
    requires Preprocess(text) != []
    ensures ValidateText(text) == Success(text)
  {
    var p := Preprocess(text);
    var kept := RemovePunctuation(text);
    StripKeepsCharacters(kept);
    RemovePunctuationKeepsCharacters(text);
    assert p[0] in kept;
    var i :| 0 <= i < |text| && text[i] == p[0];
    assert !IsWhitespace(text[i]);
  }
}
