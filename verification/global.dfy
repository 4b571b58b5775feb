/** The process-wide engine state of cpp/global.cpp: an init-once flag and
    four shared handles, set by `initOrtOnce`, cleared by `cleanup`, read by
    guarded getters. */
module Global {
  import opened Jsi
  import opened Ort

  /** The five static variables. */
  datatype GlobalState = GlobalState(
    initialized: bool,
    env: Option<OrtEnvHandle>,
    tensorConstructor: Option<JsObject>,
    defaultRunOptions: Option<RunOptionsHandle>,
    jsInvoker: Option<CallInvoker>)

  /** The state at load time, and after every `cleanup`. */
  const Uninitialized := GlobalState(false, None, None, None, None)

  /** The log id the global engine environment is created with. */
  const GlobalLogId := "onnxruntime-react-native-jsi"

  const NotInitializedMessage := "ONNX Runtime not initialized. Call initOrtOnce first."
  const NoConstructorMessage := "Tensor constructor not available. Call initOrtOnce first."

  /** What every reachable state satisfies: the flag is set exactly when the
      environment and the default run options exist, and an uninitialized
      state holds no handle at all. */
  predicate Consistent(s: GlobalState) {
    && (s.initialized <==> s.env.Some?)
    && (s.initialized <==> s.defaultRunOptions.Some?)
    && (!s.initialized ==> s.tensorConstructor.None? && s.jsInvoker.None?)
  }

  /** The state `initOrtOnce(logLevel, jsInvoker, tensorConstructor)` leaves. */
  function AfterInit(s: GlobalState, logLevel: int, jsInvoker: Option<CallInvoker>, ctor: Option<JsObject>): GlobalState {
    if s.initialized then s
    else GlobalState(true, Some(OrtEnvHandle(logLevel, GlobalLogId)), ctor, Some(DefaultRunOptions), jsInvoker)
  }

  /** The state `cleanup()` leaves. */
  function AfterCleanup(s: GlobalState): GlobalState {
    s.(initialized := false, env := None, tensorConstructor := None, defaultRunOptions := None, jsInvoker := None)
  }

  /** `getOrtEnv`. */
  function OrtEnvOf(s: GlobalState): Result<OrtEnvHandle> {
    if !s.initialized || s.env.None? then Err(RuntimeError(NotInitializedMessage)) else Ok(s.env.value)
  }

  /** `getDefaultRunOptions`. */
  function DefaultRunOptionsOf(s: GlobalState): Result<RunOptionsHandle> {
    if !s.initialized || s.defaultRunOptions.None? then Err(RuntimeError(NotInitializedMessage))
    else Ok(s.defaultRunOptions.value)
  }

  /** `getTensorConstructor`. */
  function TensorConstructorOf(s: GlobalState): Result<JsObject> {
    if !s.initialized || s.tensorConstructor.None? then Err(RuntimeError(NoConstructorMessage))
    else Ok(s.tensorConstructor.value)
  }

  /** Both operations keep a state consistent. */
  lemma OperationsPreserveConsistency(s: GlobalState, logLevel: int, jsInvoker: Option<CallInvoker>, ctor: Option<JsObject>)
    requires Consistent(s)
    ensures Consistent(AfterInit(s, logLevel, jsInvoker, ctor))
    ensures Consistent(AfterCleanup(s))
  {
  }

  /** A first `initOrtOnce` stores its arguments and creates the
      environment and the default run options. */
  lemma FirstInit(s: GlobalState, logLevel: int, jsInvoker: Option<CallInvoker>, ctor: Option<JsObject>)
    requires !s.initialized
    ensures var t := AfterInit(s, logLevel, jsInvoker, ctor);
            && t.initialized
            && OrtEnvOf(t) == Ok(OrtEnvHandle(logLevel, GlobalLogId))
            && DefaultRunOptionsOf(t) == Ok(DefaultRunOptions)
            && t.tensorConstructor == ctor
            && t.jsInvoker == jsInvoker
  {
  }

  /** `initOrtOnce` while initialized changes nothing, whatever its
      arguments; so a second call after a first is a no-op. */
  lemma InitIdempotent(s: GlobalState, l1: int, i1: Option<CallInvoker>, c1: Option<JsObject>,
                       l2: int, i2: Option<CallInvoker>, c2: Option<JsObject>)
    ensures s.initialized ==> AfterInit(s, l2, i2, c2) == s
    ensures AfterInit(AfterInit(s, l1, i1, c1), l2, i2, c2) == AfterInit(s, l1, i1, c1)
  {
  }

  /** `cleanup` clears the flag and all four handles from any state, so it
      can be repeated, and a later `initOrtOnce` initializes afresh with its
      own arguments. */
  lemma CleanupResets(s: GlobalState, logLevel: int, jsInvoker: Option<CallInvoker>, ctor: Option<JsObject>)
    ensures AfterCleanup(s) == Uninitialized
    ensures AfterCleanup(AfterCleanup(s)) == AfterCleanup(s)
    ensures AfterInit(AfterCleanup(s), logLevel, jsInvoker, ctor) ==
              GlobalState(true, Some(OrtEnvHandle(logLevel, GlobalLogId)), ctor, Some(DefaultRunOptions), jsInvoker)
  {
  }

  /** In a consistent state the environment and run-options getters fail
      exactly when not initialized; the constructor getter also fails when
      the stored constructor is null; the invoker getter never fails. */
  lemma GettersOnConsistentState(s: GlobalState)
    requires Consistent(s)
    ensures OrtEnvOf(s).Ok? <==> s.initialized
    ensures OrtEnvOf(s).Err? ==> OrtEnvOf(s).error == RuntimeError(NotInitializedMessage)
    ensures DefaultRunOptionsOf(s).Ok? <==> s.initialized
    ensures TensorConstructorOf(s).Ok? <==> s.initialized && s.tensorConstructor.Some?
    ensures TensorConstructorOf(s).Err? ==> TensorConstructorOf(s).error == RuntimeError(NoConstructorMessage)
  {
  }

  /** The static variables, updated in place. */
  class OrtGlobals {
    var ortInitialized: bool
    var globalEnv: Option<OrtEnvHandle>
    var globalTensorConstructor: Option<JsObject>
    var globalDefaultRunOptions: Option<RunOptionsHandle>
    var globalJsInvoker: Option<CallInvoker>

    ghost function State(): GlobalState
      reads this
    {
      GlobalState(ortInitialized, globalEnv, globalTensorConstructor, globalDefaultRunOptions, globalJsInvoker)
    }

    ghost predicate Valid()
      reads this
    {
      Consistent(State())
    }

    constructor ()
      ensures State() == Uninitialized && Valid()
    {
      ortInitialized := false;
      globalEnv := None;
      globalTensorConstructor := None;
      globalDefaultRunOptions := None;
      globalJsInvoker := None;
    }

    /** `initOrtOnce`. */
    method InitOrtOnce(logLevel: int, jsInvoker: Option<CallInvoker>, tensorConstructor: Option<JsObject>)
      requires Valid()
      modifies this
      ensures Valid()
      ensures State() == AfterInit(old(State()), logLevel, jsInvoker, tensorConstructor)
    {
      if ortInitialized {
        return;
      }
      globalTensorConstructor := tensorConstructor;
      globalEnv := Some(OrtEnvHandle(logLevel, GlobalLogId));
      globalDefaultRunOptions := Some(DefaultRunOptions);
      globalJsInvoker := jsInvoker;
      ortInitialized := true;
    }

    /** `cleanup`. */
    method Cleanup()
      modifies this
      ensures Valid()
      ensures State() == AfterCleanup(old(State()))
    {
      ortInitialized := false;
      globalEnv := None;
      globalTensorConstructor := None;
      globalDefaultRunOptions := None;
      globalJsInvoker := None;
    }

    /** `getOrtEnv`: throws unless initialized. */
    method GetOrtEnv() returns (r: Result<OrtEnvHandle>)
      requires Valid()
      ensures r == OrtEnvOf(State())
      ensures r.Ok? <==> ortInitialized
    {
      if !ortInitialized || globalEnv.None? {
        return Err(RuntimeError(NotInitializedMessage));
      }
      r := Ok(globalEnv.value);
    }

    /** `getDefaultRunOptions`: throws unless initialized. */
    method GetDefaultRunOptions() returns (r: Result<RunOptionsHandle>)
      requires Valid()
      ensures r == DefaultRunOptionsOf(State())
      ensures r.Ok? <==> ortInitialized
    {
      if !ortInitialized || globalDefaultRunOptions.None? {
        return Err(RuntimeError(NotInitializedMessage));
      }
      r := Ok(globalDefaultRunOptions.value);
    }

    /** `getTensorConstructor`: throws unless initialized with a non-null
        constructor. */
    method GetTensorConstructor() returns (r: Result<JsObject>)
      requires Valid()
      ensures r == TensorConstructorOf(State())
      ensures r.Ok? <==> ortInitialized && globalTensorConstructor.Some?
    {
      if !ortInitialized || globalTensorConstructor.None? {
        return Err(RuntimeError(NoConstructorMessage));
      }
      r := Ok(globalTensorConstructor.value);
    }

    /** `getJsInvoker`: never throws; yields the stored invoker, which may be
        null (`None`), and is null whenever not initialized. */
    method GetJsInvoker() returns (inv: Option<CallInvoker>)
      requires Valid()
      ensures inv == globalJsInvoker
      ensures !ortInitialized ==> inv.None?
    {
      inv := globalJsInvoker;
    }
  }
}
