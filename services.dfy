/**
 * The TextDetectionService singleton as objects updated in place
 * (app/services.py:21-126).
 *
 * Python keeps the lifecycle state in two places, and so does this module:
 *  - the class object (`ServiceClass`) holds `_instance` and the
 *    `_initialized` flag, which `__init__` sets through the class name;
 *  - the one instance (`TextDetectionService`) holds `_device`, `_tokenizer`
 *    and `_model`, which `_determine_device` and `_load_model_and_tokenizer`
 *    assign through `self`.
 * `Settings` is the global settings object whose `DEVICE` field
 * `_determine_device` overwrites, and `Injector` is the `lru_cache`d
 * `get_text_detection_service`.  `ServiceClass.New`, `ServiceClass.Construct`,
 * `TextDetectionService.Init`, `DetermineDevice` and `LoadModelAndTokenizer`
 * are proved to perform the step of the same name in module Lifecycle;
 * `Injector.GetService` is proved against `Lifecycle.Construct`, and
 * `Predict` against `Prediction.Package` and `Preprocessing.Preprocess`.
 */
module Services {
  import opened Wrappers
  import opened Exceptions
  import opened Config
  import opened Lifecycle
  import opened Prediction
  import Preprocessing

  const NotReadyDetail: string := "Prediction service is not ready."
  const InitFailurePrefix: string := "Service initialization failed: "

  /**
   * Tokenizing and classifying one text: the tokenizer and model in use, the
   * device, the padded length and the text give the scores or the text of the
   * exception raised.
   */
  type Inference = (TokenizerHandle, ModelHandle, Device, nat, string) -> InferenceOutcome

  /** The application settings (app/config.py), with their default values. */
  class Settings {
    const projectName: string
    const modelName: string
    const hfToken: Option<string>
    const modelMaxLength: nat
    var device: string

    constructor ()
      ensures projectName == ProjectName && modelName == ModelName
      ensures hfToken == None && modelMaxLength == ModelMaxLength
      ensures device == DefaultDevice
    {
      projectName := ProjectName;
      modelName := ModelName;
      hfToken := None;
      modelMaxLength := ModelMaxLength;
      device := DefaultDevice;
    }
  }

  /** The class object `TextDetectionService` with its class-level attributes. */
  class ServiceClass {
    const settings: Settings
    var instance: TextDetectionService?   // `_instance`
    var initialized: bool                 // `_initialized`

    constructor (settings: Settings)
      ensures this.settings == settings
      ensures Valid() && State() == ServiceState(false, false, None, None, None, settings.device)
      ensures settings.device == DefaultDevice ==> State() == Start
    {
      this.settings := settings;
      instance := null;
      initialized := false;
    }

    /** The lifecycle state the objects represent. */
    ghost function State(): ServiceState
      reads this, instance, settings
    {
      if instance == null then
        ServiceState(false, initialized, None, None, None, settings.device)
      else
        ServiceState(true, initialized, instance.device, instance.tokenizer, instance.model, settings.device)
    }

    ghost predicate Valid()
      reads this, instance, settings
    {
      (instance != null ==> instance.cls == this) && Lifecycle.Valid(State())
    }

    /** `__new__`: allocate the instance the first time, and return the stored one always. */
    method New() returns (svc: TextDetectionService)
      requires Valid()
      modifies this`instance
      ensures Valid() && instance == svc
      ensures old(instance) != null ==> svc == old(instance)
      ensures old(instance) == null ==> fresh(svc)
      ensures State() == Lifecycle.New(old(State()))
    {
      if instance == null {
        instance := new TextDetectionService(this);
      }
      svc := instance;
    }

    /**
     * `TextDetectionService()`: `__new__`, then `__init__` on the returned
     * instance.  The instance is stored even when `__init__` raises.
     */
    method Construct(env: LoadEnvironment) returns (r: Result<TextDetectionService, ServiceError>)
      requires Valid()
      modifies this, settings, instance
      ensures Valid() && instance != null
      ensures old(instance) != null ==> instance == old(instance)
      ensures old(instance) == null ==> fresh(instance)
      ensures r.Success? ==> r.value == instance
      ensures var st := Lifecycle.Construct(old(State()), env);
              State() == st.state
              && (r.Failure? <==> st.raised.Some?)
              && (r.Failure? ==> r.error == st.raised.value)
    {
      var svc := New();
      var raised := svc.Init(env);
      if raised.Some? {
        r := Failure(raised.value);
      } else {
        r := Success(svc);
      }
    }
  }

  /** The one instance of the service, with its instance attributes. */
  class TextDetectionService {
    const cls: ServiceClass
    var device: Option<Device>              // `_device`
    var tokenizer: Option<TokenizerHandle>  // `_tokenizer`
    var model: Option<ModelHandle>          // `_model`

    constructor (cls: ServiceClass)
      ensures this.cls == cls && device == None && tokenizer == None && model == None
    {
      this.cls := cls;
      device := None;
      tokenizer := None;
      model := None;
    }

    /** `__init__`: nothing once the class flag is set; otherwise choose the device, load, set the flag. */
    method Init(env: LoadEnvironment) returns (raised: Option<ServiceError>)
      requires cls.Valid() && cls.instance == this
      modifies this, cls`initialized, cls.settings`device
      ensures cls.Valid()
      ensures var st := Lifecycle.Init(old(cls.State()), env);
              cls.State() == st.state && raised == st.raised
    {
      if cls.initialized {
        return None;
      }
      DetermineDevice(env.cudaAvailable);
      raised := LoadModelAndTokenizer(env);
      if raised.None? {
        cls.initialized := true;
      }
    }

    /** `_determine_device`: choose cuda when available, cpu otherwise, and publish it in the settings. */
    method DetermineDevice(cudaAvailable: bool)
      requires cls.instance == this
      modifies this`device, cls.settings`device
      ensures cls.State() == Lifecycle.DetermineDevice(old(cls.State()), cudaAvailable)
    {
      if cudaAvailable {
        device := Some(Cuda);
      } else {
        device := Some(Cpu);
      }
      cls.settings.device := DeviceName(device.value);
    }

    /**
     * `_load_model_and_tokenizer`: everything raised inside the `try`,
     * including its own "invalid" error, is caught and re-raised as
     * ModelLoadError("Failed loading resources: " + the caught text).
     */
    method LoadModelAndTokenizer(env: LoadEnvironment) returns (raised: Option<ServiceError>)
      requires cls.instance == this
      modifies this`tokenizer, this`model
      ensures var st := Lifecycle.LoadModelAndTokenizer(old(cls.State()), env);
              cls.State() == st.state && raised == st.raised
    {
      var caught: Option<string> := None;
      match env.tokenizerLoad {
        case Raised(cause) =>
          caught := Some(cause);
        case Returned(t) =>
          tokenizer := t;
          match env.modelLoad {
            case Raised(cause) =>
              caught := Some(cause);
            case Returned(m) =>
              model := m;
              if model.Some? && device.Some? {
                caught := env.placementFailure;
              } else {
                caught := Some(InvalidAfterLoadDetail);
              }
          }
      }
      if caught.Some? {
        raised := Some(ModelLoadError(LoadFailurePrefix + caught.value));
      } else {
        raised := None;
      }
    }

    /** The readiness gate of `predict`: the class flag and all three attributes set. */
    predicate Ready()
      reads this, cls, cls.instance, cls.settings
      ensures cls.instance == this ==> (Ready() <==> Lifecycle.CanPredict(cls.State()))
    {
      cls.initialized && model.Some? && tokenizer.Some? && device.Some?
    }

    /**
     * `predict`: refuse when not ready; otherwise preprocess the text, hand it
     * to the tokenizer and model (padded to the configured length, on the
     * chosen device) and package the outcome.
     */
    method Predict(text: string, infer: Inference) returns (r: Result<PredictionResult, ServiceError>)
      ensures !Ready() ==> r == Failure(ModelInferenceError(NotReadyDetail))
      ensures Ready() ==>
                r == Package(infer(tokenizer.value, model.value, device.value,
                                   cls.settings.modelMaxLength, Preprocessing.Preprocess(text)))
      ensures r.Failure? ==> r.error.ModelInferenceError?
    {
      if !cls.initialized || model.None? || tokenizer.None? || device.None? {
        return Failure(ModelInferenceError(NotReadyDetail));
      }
      var processed := Preprocessing.Preprocess(text);
      var outcome := infer(tokenizer.value, model.value, device.value, cls.settings.modelMaxLength, processed);
      r := Package(outcome);
    }
  }

  /** `get_text_detection_service` with its `lru_cache`, which remembers returned values but not exceptions. */
  class Injector {
    const cls: ServiceClass
    var cached: TextDetectionService?

    constructor (cls: ServiceClass)
      ensures this.cls == cls && cached == null
    {
      this.cls := cls;
      cached := null;
    }

    ghost predicate Valid()
      reads this, cls, cls.instance, cls.settings
    {
      cls.Valid() && (cached != null ==> cached == cls.instance && cls.initialized)
    }

    /**
     * Return the cached service, or construct it; a ModelLoadError becomes
     * RuntimeError("Service initialization failed: ...").  Once cached, the
     * answer is what a fresh construction would give anyway.
     */
    method GetService(env: LoadEnvironment) returns (r: Result<TextDetectionService, ServiceError>)
      requires Valid()
      modifies this, cls, cls.settings, cls.instance
      ensures Valid()
      ensures old(cached) != null ==>
                r == Success(old(cached)) && cached == old(cached)
                && cls.State() == old(cls.State())
                && Lifecycle.Construct(old(cls.State()), env) == Step(old(cls.State()), None)
      ensures old(cached) == null ==>
                var st := Lifecycle.Construct(old(cls.State()), env);
                cls.State() == st.state
                && (st.raised.None? ==> r == Success(cls.instance) && cached == cls.instance)
                && (st.raised.Some? ==>
                      r == Failure(RuntimeError(InitFailurePrefix + st.raised.value.detail))
                      && cached == null)
    {
      if cached != null {
        ConstructBehaviour(cls.State(), env);
        return Success(cached);
      }
      ConstructBehaviour(cls.State(), env);
      var constructed := cls.Construct(env);
      match constructed {
        case Success(svc) =>
          cached := svc;
          r := Success(svc);
        case Failure(e) =>
          if e.ModelLoadError? {
            r := Failure(RuntimeError(InitFailurePrefix + e.detail));
          } else {
            r := Failure(e);
          }
      }
    }
  }
}
