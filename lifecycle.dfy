/**
 * The lifecycle of the TextDetectionService singleton (app/services.py:21-74)
 * as a state machine over values.  A state records whether the singleton
 * instance exists, the class-level `_initialized` flag, the instance's
 * `_device`, `_tokenizer` and `_model`, and the global `settings.DEVICE`.
 * Evaluating `TextDetectionService()` is `Construct`: `__new__` followed by
 * `__init__`.  The classes in module Services perform the same steps in place
 * and are proved to agree with these functions.
 *
 * Hardware and network access are inputs: whether an accelerator is present,
 * what each `from_pretrained` call did, and whether binding the model to the
 * device (`.to()`, `.eval()`) raised.
 */
module Lifecycle {
  import opened Wrappers
  import opened Exceptions
  import opened Config

  const LoadFailurePrefix: string := "Failed loading resources: "
  const InvalidAfterLoadDetail: string := "Model or device invalid after loading attempt."

  datatype Device = Cuda | Cpu

  /** `str(torch.device(...))`. */
  function DeviceName(d: Device): string {
    match d
    case Cuda => "cuda"
    case Cpu => "cpu"
  }

  /** Opaque handles standing for the loaded tokenizer and model objects. */
  datatype TokenizerHandle = TokenizerHandle(id: nat)
  datatype ModelHandle = ModelHandle(id: nat)

  /**
   * What one `from_pretrained` call did: it returned an object (`None` here
   * when the object is falsy in Python) or it raised an exception with the
   * given text.
   */
  datatype LoadOutcome<T> = Returned(handle: Option<T>) | Raised(cause: string)

  /** Everything the outside world decides during one construction. */
  datatype LoadEnvironment = LoadEnvironment(
    cudaAvailable: bool,
    tokenizerLoad: LoadOutcome<TokenizerHandle>,
    modelLoad: LoadOutcome<ModelHandle>,
    placementFailure: Option<string>)   // the text of an exception from `.to()` / `.eval()`

  datatype ServiceState = ServiceState(
    instanceExists: bool,
    initialized: bool,
    device: Option<Device>,
    tokenizer: Option<TokenizerHandle>,
    model: Option<ModelHandle>,
    settingsDevice: string)

  /** The result of one step: the new state and the exception raised, if any. */
  datatype Step = Step(state: ServiceState, raised: Option<ServiceError>)

  /** The process before anything has touched the service. */
  const Start: ServiceState := ServiceState(false, false, None, None, None, DefaultDevice)

  /**
   * What always holds: only a successful load sets the flag, and only after
   * the device has been chosen and a model stored; the device in the
   * settings is the one the service chose.
   */
  predicate Valid(s: ServiceState) {
    (s.initialized ==> s.instanceExists && s.device.Some? && s.model.Some?)
    && (s.device.Some? ==> s.instanceExists && s.settingsDevice == DeviceName(s.device.value))
    && (s.tokenizer.Some? || s.model.Some? ==> s.device.Some?)
  }

  /** The device `_determine_device` picks. */
  function SelectDevice(cudaAvailable: bool): (d: Device)
    ensures d == Cuda <==> cudaAvailable
  {
    if cudaAvailable then Cuda else Cpu
  }

  /** `__new__`: create the one instance if there is none yet; nothing else changes. */
  function New(s: ServiceState): (r: ServiceState)
    ensures r.instanceExists
    ensures r.initialized == s.initialized && r.device == s.device && r.tokenizer == s.tokenizer
            && r.model == s.model && r.settingsDevice == s.settingsDevice
    ensures Valid(s) ==> Valid(r)
  {
    s.(instanceExists := true)
  }

  /** `_determine_device`: store the device and write its name into `settings.DEVICE`. */
  function DetermineDevice(s: ServiceState, cudaAvailable: bool): (r: ServiceState)
    ensures r.device == Some(SelectDevice(cudaAvailable))
    ensures r.settingsDevice == DeviceName(r.device.value)
    ensures r.instanceExists == s.instanceExists && r.initialized == s.initialized
            && r.tokenizer == s.tokenizer && r.model == s.model
    ensures Valid(s) && s.instanceExists ==> Valid(r)
  {
    var d := SelectDevice(cudaAvailable);
    s.(device := Some(d), settingsDevice := DeviceName(d))
  }

  /** Does the whole of `_load_model_and_tokenizer` succeed, given a device? */
  predicate LoadSucceeds(env: LoadEnvironment) {
    env.tokenizerLoad.Returned? && env.modelLoad.Returned? && env.modelLoad.handle.Some?
    && env.placementFailure.None?
  }

  /**
   * `_load_model_and_tokenizer`: store the tokenizer, then the model, then
   * check them and bind the model to the device.  Whatever goes wrong is
   * re-raised as ModelLoadError("Failed loading resources: ..."), and what
   * was stored before the failure stays stored.
   */
  function LoadModelAndTokenizer(s: ServiceState, env: LoadEnvironment): (st: Step)
    ensures st.state.instanceExists == s.instanceExists && st.state.initialized == s.initialized
    ensures st.state.device == s.device && st.state.settingsDevice == s.settingsDevice
    ensures st.raised.None? <==> LoadSucceeds(env) && s.device.Some?
    ensures st.raised.Some? ==>
              st.raised.value.ModelLoadError?
              && |LoadFailurePrefix| <= |st.raised.value.detail|
              && st.raised.value.detail[..|LoadFailurePrefix|] == LoadFailurePrefix
    ensures st.raised.None? ==> st.state.tokenizer == env.tokenizerLoad.handle
                                && st.state.model == env.modelLoad.handle
    ensures env.tokenizerLoad.Raised? ==>
              st.raised == Some(ModelLoadError(LoadFailurePrefix + env.tokenizerLoad.cause))
    ensures env.tokenizerLoad.Returned? && env.modelLoad.Raised? ==>
              st.raised == Some(ModelLoadError(LoadFailurePrefix + env.modelLoad.cause))
    ensures env.tokenizerLoad.Returned? && env.modelLoad.Returned?
            && (env.modelLoad.handle.None? || s.device.None?) ==>
              st.raised == Some(ModelLoadError(LoadFailurePrefix + InvalidAfterLoadDetail))
    ensures env.tokenizerLoad.Returned? && env.modelLoad.Returned?
            && env.modelLoad.handle.Some? && s.device.Some? && env.placementFailure.Some? ==>
              st.raised == Some(ModelLoadError(LoadFailurePrefix + env.placementFailure.value))
    ensures st.state.tokenizer
            == (if env.tokenizerLoad.Returned? then env.tokenizerLoad.handle else s.tokenizer)
    ensures st.state.model
            == (if env.tokenizerLoad.Returned? && env.modelLoad.Returned? then env.modelLoad.handle
                else s.model)
  {
    match env.tokenizerLoad
    case Raised(cause) => Step(s, Some(ModelLoadError(LoadFailurePrefix + cause)))
    case Returned(t) =>
      var s1 := s.(tokenizer := t);
      match env.modelLoad
      case Raised(cause) => Step(s1, Some(ModelLoadError(LoadFailurePrefix + cause)))
      case Returned(m) =>
        var s2 := s1.(model := m);
        if m.Some? && s2.device.Some? then
          match env.placementFailure
          case None => Step(s2, None)
          case Some(cause) => Step(s2, Some(ModelLoadError(LoadFailurePrefix + cause)))
        else
          Step(s2, Some(ModelLoadError(LoadFailurePrefix + InvalidAfterLoadDetail)))
  }

  /**
   * `__init__`: return at once when the class flag is set; otherwise choose
   * the device, load, and set the flag only if the load did not raise.
   */
  function Init(s: ServiceState, env: LoadEnvironment): (st: Step)
    ensures s.initialized ==> st == Step(s, None)
    ensures !s.initialized ==>
              st.state.device == Some(SelectDevice(env.cudaAvailable))
              && st.state.settingsDevice == DeviceName(SelectDevice(env.cudaAvailable))
    ensures st.raised.None? <==> s.initialized || LoadSucceeds(env)
    ensures st.state.initialized <==> st.raised.None?
    ensures st.raised.Some? ==> st.raised.value.ModelLoadError?
    ensures Valid(s) && s.instanceExists ==> Valid(st.state)
  {
    if s.initialized then Step(s, None)
    else
      var st := LoadModelAndTokenizer(DetermineDevice(s, env.cudaAvailable), env);
      if st.raised.None? then Step(st.state.(initialized := true), None) else st
  }

  /** `TextDetectionService()`: `__new__`, then `__init__` on the instance it returns. */
  function Construct(s: ServiceState, env: LoadEnvironment): (st: Step)
    ensures st.state.instanceExists
    ensures Valid(s) ==> Valid(st.state)
  {
    Init(New(s), env)
  }

  /** The readiness gate of `predict`: the class flag and all three instance attributes set. */
  predicate CanPredict(s: ServiceState) {
    s.initialized && s.model.Some? && s.tokenizer.Some? && s.device.Some?
  }

  /**
   * After a successful construction `predict` is ready exactly when the
   * tokenizer returned was truthy (the load check looks at the model and the
   * device only); after a failed one it is never ready.
   */
  lemma ConstructedServiceCanPredict(s: ServiceState, env: LoadEnvironment)
    requires Valid(s)
    ensures var st := Construct(s, env);
            (st.raised.None? ==> (CanPredict(st.state) <==> st.state.tokenizer.Some?))
            && (st.raised.Some? ==> !CanPredict(st.state))
  {
  }

  /** Does the construction run device selection and loading at all? */
  predicate Loads(s: ServiceState) {
    !s.initialized
  }

  /** One construction, in full: what it changes, what it raises, and what it leaves alone. */
  lemma ConstructBehaviour(s: ServiceState, env: LoadEnvironment)
    requires Valid(s)
    ensures var st := Construct(s, env);
      Valid(st.state) && st.state.instanceExists
      && (s.initialized ==> st == Step(s, None))
      && (!s.initialized ==>
            st.state.device == Some(SelectDevice(env.cudaAvailable))
            && st.state.settingsDevice == DeviceName(SelectDevice(env.cudaAvailable)))
      && (st.raised.None? <==> s.initialized || LoadSucceeds(env))
      && (st.raised.None? ==> st.state.initialized)
      && (st.raised.Some? ==> !st.state.initialized && st.raised.value.ModelLoadError?)
  {
  }

  /** A failed construction leaves the flag down, so the next one loads again and can succeed. */
  lemma RetryAfterFailure(s: ServiceState, failing: LoadEnvironment, retry: LoadEnvironment)
    requires Valid(s) && Construct(s, failing).raised.Some?
    ensures Loads(Construct(s, failing).state)
    ensures Construct(Construct(s, failing).state, retry).raised.None? <==> LoadSucceeds(retry)
  {
  }

  /** A failure inside the load check is reported with the wrapped message. */
  lemma InvalidModelIsWrapped(s: ServiceState, env: LoadEnvironment)
    requires !s.initialized && env.tokenizerLoad.Returned? && env.modelLoad == Returned(None)
    ensures Construct(s, env).raised
            == Some(ModelLoadError(LoadFailurePrefix + InvalidAfterLoadDetail))
  {
  }

  /** The state after a sequence of constructions; a raised error goes to that caller. */
  function Run(s: ServiceState, envs: seq<LoadEnvironment>): ServiceState
    decreases |envs|
  {
    if envs == [] then s else Run(Construct(s, envs[0]).state, envs[1..])
  }

  /** How many constructions in the sequence ran device selection and loading. */
  function LoadAttempts(s: ServiceState, envs: seq<LoadEnvironment>): nat
    decreases |envs|
  {
    if envs == [] then 0
    else (if Loads(s) then 1 else 0) + LoadAttempts(Construct(s, envs[0]).state, envs[1..])
  }

  /** How many constructions in the sequence loaded successfully. */
  function SuccessfulLoads(s: ServiceState, envs: seq<LoadEnvironment>): nat
    decreases |envs|
  {
    if envs == [] then 0
    else
      var st := Construct(s, envs[0]);
      (if Loads(s) && st.raised.None? then 1 else 0) + SuccessfulLoads(st.state, envs[1..])
  }

  /** Every sequence of constructions keeps the state valid. */
  lemma {:induction false} RunPreservesValid(s: ServiceState, envs: seq<LoadEnvironment>)
    requires Valid(s)
    ensures Valid(Run(s, envs))
    decreases |envs|
  {
    if envs != [] {
      ConstructBehaviour(s, envs[0]);
      RunPreservesValid(Construct(s, envs[0]).state, envs[1..]);
    }
  }

  /** Once initialized, no later construction selects a device or loads, and nothing changes. */
  lemma {:induction false} NoLoadsOnceInitialized(s: ServiceState, envs: seq<LoadEnvironment>)
    requires Valid(s) && s.initialized
    ensures LoadAttempts(s, envs) == 0
    ensures Run(s, envs) == s
    decreases |envs|
  {
    if envs != [] {
      NoLoadsOnceInitialized(Construct(s, envs[0]).state, envs[1..]);
    }
  }

  /** Across any sequence of constructions the model is loaded successfully at most once. */
  lemma {:induction false} AtMostOneSuccessfulLoad(s: ServiceState, envs: seq<LoadEnvironment>)
    requires Valid(s)
    ensures SuccessfulLoads(s, envs) <= (if s.initialized then 0 else 1)
    decreases |envs|
  {
    if envs != [] {
      var st := Construct(s, envs[0]);
      ConstructBehaviour(s, envs[0]);
      AtMostOneSuccessfulLoad(st.state, envs[1..]);
    }
  }

  /**
   * Until a construction succeeds every construction loads again: a run in
   * which every load fails attempts the load once per construction.
   */
  lemma {:induction false} FailuresAreRetried(s: ServiceState, envs: seq<LoadEnvironment>)
    requires Valid(s) && !s.initialized
    requires forall i :: 0 <= i < |envs| ==> !LoadSucceeds(envs[i])
    ensures LoadAttempts(s, envs) == |envs|
    ensures !Run(s, envs).initialized
    decreases |envs|
  {
    if envs != [] {
      ConstructBehaviour(s, envs[0]);
      FailuresAreRetried(Construct(s, envs[0]).state, envs[1..]);
    }
  }
}
