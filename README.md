# AI text detector service: a Dafny model

This project models the inference-service wrapper of an HTTP service that
classifies text as "AI-generated" or "Human-written" with a pretrained
sequence-classification model, together with its request and response
schemas. It then proves properties of that model.

What is modelled:

- **The singleton lifecycle** (`TextDetectionService` in app/services.py).
  `__new__` stores one instance in the class attribute `_instance`.
  `__init__` returns at once when the class flag `_initialized` is set.
  Otherwise it picks the device (cuda when an accelerator is available, cpu
  otherwise), writes the device name into the global `settings.DEVICE`, loads
  the tokenizer and the model, and only then sets the flag.
  - Module `Lifecycle` states these steps as functions over a `ServiceState`
    value.
  - Module `Services` performs the same steps in place. Class `ServiceClass`
    is the Python class object, holding `_instance` and `_initialized`.
    Class `TextDetectionService` is the one instance, holding `_device`,
    `_tokenizer` and `_model`. Class `Settings` is the global settings object.
  - `ServiceClass.New`, `ServiceClass.Construct`, `TextDetectionService.Init`,
    `DetermineDevice` and `LoadModelAndTokenizer` are each proved to perform
    the `Lifecycle` step of the same name. `Injector.GetService` is proved
    against `Lifecycle.Construct`. `Predict` is proved against
    `Prediction.Package` and `Preprocessing.Preprocess`.
- **Load failures.** Every exception inside the load is re-raised as
  `ModelLoadError("Failed loading resources: …")`. This includes the
  service's own "Model or device invalid after loading attempt." check. The
  flag stays down, so a later construction loads again. What was stored
  before the failure stays stored: the device, and possibly the tokenizer and
  the model.
- **`get_text_detection_service`** (class `Injector`). Its `lru_cache`
  remembers a returned service but not an exception. It turns a
  `ModelLoadError` into `RuntimeError("Service initialization failed: …")`.
- **`predict`.**
  - The readiness gate: the class flag plus the instance's model, tokenizer
    and device must all be set.
  - Preprocessing (module `Preprocessing`): every character of Python's
    `string.punctuation` is deleted, then `str.strip()` removes the
    surrounding whitespace. Whitespace here is Python's Unicode `isspace`
    set.
  - Result packaging (module `Prediction`): numpy's first-occurrence
    `argmax` over the two scores, the label, and the wrapping of any
    inference exception as `ModelInferenceError("Inference error: …")`.
- **The schemas** (module `Schemas`): the `TextInput` validator, the
  `[0, 1]` bounds of `PredictionOutput`, and the `HealthCheck` defaults
  (`DefaultHealthCheck`: "OK", the project name, "Running"). The setting
  defaults of app/config.py are the constants of module `Config`.
- **The error taxonomy** (module `Exceptions`): the three exception classes
  and their HTTP status codes.

Hardware and network access are inputs of the model. A `LoadEnvironment`
says whether an accelerator is available. It says what each `from_pretrained`
call did: returned a handle, returned a falsy object (`Returned(None)`), or
raised. It also says whether binding the model to the device raised.

The tokenizer, the forward pass and the softmax are one function parameter
of `Predict`. It receives the tokenizer, the model, the device, the padding
length and the preprocessed text. It returns two scores or the text of an
exception.

Three behaviours of the code worth knowing:

- The request text is only required to contain a non-whitespace character.
  It is not required to be non-empty after preprocessing. So text such as
  "!!!" is accepted and reaches the tokenizer as the empty string
  (`Schemas.AcceptedYetEmptyAfterPreprocessing`).
- The device preference in the settings is never read. `_determine_device`
  overwrites it.
- Nothing checks that the two scores sum to 1. The response schema checks
  only that each score lies in `[0, 1]`.

## Model

| member | source | states |
|---|---|---|
| `Preprocessing.PunctuationTable` | app/services.py:83 | `string.punctuation` has 32 characters, each a punctuation character, in strictly increasing order |
| `Preprocessing.PunctuationIsListed` | app/services.py:83 | a character is in the four ASCII punctuation ranges exactly when it is listed in `string.punctuation` |
| `Preprocessing.RemovePunctuation` | app/services.py:83 | the translated text is no longer than the input and holds no punctuation |
| `Preprocessing.RemovePunctuationConcat` | app/services.py:83 | deleting punctuation commutes with concatenation, so each character is filtered on its own and order is kept |
| `Preprocessing.RemovePunctuationSingle` | app/services.py:83 | a single character is deleted exactly when it is punctuation |
| `Preprocessing.RemovePunctuationKeepsClean` | app/services.py:83 | text without punctuation is left unchanged |
| `Preprocessing.RemovePunctuationKeepsCharacters` | app/services.py:83 | every character of the translated text occurs in the input |
| `Preprocessing.TrimStart` | app/services.py:83 | the left strip is a suffix of the input; the part removed is all whitespace; it does not start with whitespace |
| `Preprocessing.TrimEnd` | app/services.py:83 | the right strip is a prefix of the input; the part removed is all whitespace; it does not end with whitespace |
| `Preprocessing.Strip` | app/services.py:83 | the stripped text is no longer than the input and has no whitespace at either end |
| `Preprocessing.StripIsStripping` | app/services.py:83 | the stripped text is a contiguous slice of the input with only whitespace cut off on either side |
| `Preprocessing.StrippingIsUnique` | app/services.py:83 | any string meeting that slice description equals `Strip` of the input, so the description determines `str.strip()` |
| `Preprocessing.StripEmptyIff` | app/schemas.py:12 | `value.strip()` is empty if and only if every character of the value is whitespace |
| `Preprocessing.StripKeepsTrimmed` | app/services.py:83 | text with no whitespace at either end is left unchanged by stripping |
| `Preprocessing.Preprocess` | app/services.py:83 | the preprocessed text holds no punctuation and has no whitespace at either end |
| `Preprocessing.PreprocessKeepsInterior` | app/services.py:83 | the preprocessed text is the punctuation-free text with only the surrounding whitespace removed; interior whitespace and all other characters stay in order |
| `Preprocessing.PreprocessIdempotent` | app/services.py:83 | preprocessing twice gives the same text as preprocessing once |
| `Preprocessing.PreprocessEmptyWhenNothingElse` | app/services.py:83-84 | text made only of punctuation and whitespace preprocesses to the empty string, which is not re-checked |
| `Prediction.FirstArgMax` | app/services.py:102 | `argmax` returns an index holding a largest element, and every earlier element is strictly smaller |
| `Prediction.PredictedClass` | app/services.py:102 | the predicted class is 0 or 1, and it is 1 exactly when the class-1 score is strictly larger |
| `Prediction.Label` | app/services.py:108 | the label is "AI-generated" exactly for class 1 and "Human-written" for every other class |
| `Prediction.Package` | app/services.py:86-114 | success exactly when inference produced scores; the scores are passed through; the class is the argmax with ties to 0; the label is "AI-generated" exactly for class 1; a failure becomes `ModelInferenceError("Inference error: " + cause)` with no partial result |
| `Prediction.PredictedScoreIsLargest` | app/services.py:102 | the predicted class's score is at least the other class's score |
| `Prediction.TieGoesToHuman` | app/services.py:102-108 | equal scores give class 0 and the label "Human-written" |
| `Exceptions.ServiceError.StatusCode` | app/exceptions.py:4-17 | ModelInferenceError carries status 500, EmptyInputError 400, and ModelLoadError no HTTP status |
| `Lifecycle.SelectDevice` | app/services.py:47-54 | the device is cuda exactly when an accelerator is available |
| `Lifecycle.New` | app/services.py:32-35 | afterwards the instance exists; nothing else changes, and the invariant is kept |
| `Lifecycle.DetermineDevice` | app/services.py:47-55 | the device is the selected one and `settings.DEVICE` is its name; the flag, the instance, the tokenizer and the model are unchanged; the invariant is kept once the instance exists |
| `Lifecycle.LoadModelAndTokenizer` | app/services.py:57-74 | the load succeeds exactly when both loads return, the model is truthy, a device is set and binding does not raise; each failure is `ModelLoadError("Failed loading resources: " + cause)` with the cause of the step that raised: the tokenizer load, the model load, the "invalid after loading" check, or binding to the device; the tokenizer is stored once its load returns and the model once both loads return, whether or not a later step fails; the flag, the device and `settings.DEVICE` are untouched |
| `Lifecycle.Init` | app/services.py:37-45 | with the flag set it changes nothing and raises nothing; otherwise it sets the device and `settings.DEVICE`; it raises exactly when the flag was down and the load fails, always a ModelLoadError; the flag is set afterwards exactly when nothing was raised; the invariant is kept |
| `Lifecycle.Construct` | app/services.py:32-45 | afterwards the instance exists, and the invariant is kept |
| `Lifecycle.ConstructedServiceCanPredict` | app/services.py:37-45 | after a successful construction `predict` is ready exactly when the stored tokenizer is truthy; after a failed one it is never ready |
| `Lifecycle.ConstructBehaviour` | app/services.py:32-74 | a construction keeps the state valid and leaves an instance; once initialized it changes nothing and raises nothing; otherwise it sets the device and `settings.DEVICE` even if the load then fails; it succeeds exactly when already initialized or the load succeeds; a failure is a ModelLoadError and leaves the flag down |
| `Lifecycle.RetryAfterFailure` | app/services.py:37-44 | after a failed construction the next construction loads again, and succeeds exactly when its load succeeds |
| `Lifecycle.InvalidModelIsWrapped` | app/services.py:65-74 | a falsy model gives "Failed loading resources: " followed by "Model or device invalid after loading attempt." |
| `Lifecycle.RunPreservesValid` | app/services.py:32-55 | any sequence of constructions keeps the invariant: the flag implies an instance, a device and a model; `settings.DEVICE` names the chosen device |
| `Lifecycle.NoLoadsOnceInitialized` | app/services.py:37-39 | once the flag is set, no later construction selects a device or loads, and the state is unchanged |
| `Lifecycle.AtMostOneSuccessfulLoad` | app/services.py:37-44 | across any sequence of constructions the model is loaded successfully at most once, and never once the flag is set |
| `Lifecycle.FailuresAreRetried` | app/services.py:42-44 | while loads keep failing, every construction attempts the load and the flag stays down |
| `Services.Settings.constructor` | app/config.py:15-22 | the settings start with their defaults from module `Config`: the project name, the model name, no token, maximum length 512, device "cpu" |
| `Services.ServiceClass.constructor` | app/services.py:26-30 | the class starts with no instance, the flag down, and nothing loaded; with default settings this is `Lifecycle.Start` |
| `Services.ServiceClass.New` | app/services.py:32-35 | the first call allocates a fresh instance and stores it; every later call returns the stored instance |
| `Services.ServiceClass.Construct` | app/services.py:32-45 | performs `Lifecycle.Construct` in place; once an instance exists every construction returns that same object; the instance is stored even when the load fails |
| `Services.TextDetectionService.constructor` | app/services.py:27-29 | a new instance has no device, tokenizer or model |
| `Services.TextDetectionService.Init` | app/services.py:37-45 | performs `Lifecycle.Init` in place and keeps the invariant |
| `Services.TextDetectionService.DetermineDevice` | app/services.py:47-55 | performs `Lifecycle.DetermineDevice` in place: sets the instance's device and writes its name into the settings |
| `Services.TextDetectionService.LoadModelAndTokenizer` | app/services.py:57-74 | performs `Lifecycle.LoadModelAndTokenizer` in place, including the partial stores before a failure |
| `Services.TextDetectionService.Ready` | app/services.py:79 | the readiness gate of `predict` on the objects is `Lifecycle.CanPredict` of the state they represent |
| `Services.TextDetectionService.Predict` | app/services.py:77-114 | when not ready it fails with "Prediction service is not ready." and its result does not depend on inference; otherwise it packages the inference outcome on the preprocessed text, using the stored tokenizer, model and device and the configured length; every failure is a ModelInferenceError |
| `Services.Injector.constructor` | app/services.py:117-118 | the `lru_cache` starts empty |
| `Services.Injector.GetService` | app/services.py:117-126 | a cached service is returned unchanged, and a fresh construction would give the same; otherwise it constructs, caches only a success, and turns the load error into `RuntimeError("Service initialization failed: …")` |
| `Schemas.ValidateText` | app/schemas.py:5-14 | the text is accepted if and only if it has at least one character and one non-whitespace character; an accepted value is returned unchanged; the empty string fails `min_length`; all-whitespace text fails with "Text cannot be empty or contain only whitespace." |
| `Schemas.ValidatePredictionOutput` | app/schemas.py:16-21 | a response validates exactly when both scores lie in [0, 1]; the validated fields are the given ones; a failure names exactly the scores out of bounds |
| `Schemas.DefaultHealthCheck` | app/schemas.py:23-27 | `HealthCheck()` has message "OK", status "Running", and as service the project name the settings hold |
| `Schemas.SoftmaxScoresPassOutputSchema` | app/schemas.py:18-19 | two non-negative scores summing to 1 always make a valid response carrying the argmax class |
| `Schemas.AcceptedYetEmptyAfterPreprocessing` | app/schemas.py:11-14 | text of punctuation and whitespace with at least one punctuation character passes the validator, unchanged, and preprocesses to "" |
| `Schemas.ExclamationMarksExample` | app/schemas.py:11-14 | "!!!" passes the validator and preprocesses to "" |
| `Schemas.NonEmptyPreprocessingImpliesAccepted` | app/schemas.py:11-14 | whenever preprocessing leaves some text, the validator accepts the original text |

## Left out

- The tokenizer call, the forward pass, `F.softmax`, `torch.no_grad` and `.cpu().numpy()` (app/services.py:87-101). These are foreign library calls over tensors. They are the `infer` parameter of `Predict`.
- `torch.cuda.is_available()`, `from_pretrained`, `.to()` and `.eval()`. These are hardware and network access. They are the fields of `LoadEnvironment`. The loader does not depend on the model name or the token in the settings.
- Floating point. Scores are real numbers. NaN scores, rounding and numpy's NaN rule for `argmax` are not modelled.
- Prediction.FirstArgMax: requires a non-empty array. numpy raises on an empty one, but `predict` always passes the two class scores.
- Services.TextDetectionService.Predict: states that when the service is not ready the result does not depend on the inference function. It cannot state that the function is not called, since calls to it are not observable.
- Thread safety of the singleton and of `lru_cache` under concurrent first calls. The code has no guard, and every method here runs alone.
- Logging (every `logger` call), app/logging_config.py, and the FastAPI wiring in app/main.py and app/api.py.
- Loading the settings from the environment or a `.env` file (app/config.py). Only the defaults are used.
- Pydantic's own error objects. `StringTooShort`, `ValueError` and `OutOfBounds` stand for them. The "Value error, " prefix pydantic adds to messages is not modelled. Type coercion of the `int` and `str` fields is left to Dafny's types.
- The default `detail` texts of the three exception classes (app/exceptions.py). The service and the schemas always pass a detail, so the defaults never appear.
- `EmptyInputError` is declared but never raised by the service or the schemas. It appears only in the error type.
- The training scripts under training/utils/. These are network and data plumbing.

