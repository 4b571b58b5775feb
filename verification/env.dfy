/** The per-install environment object (cpp/Env.h): the JS-thread call
    invoker fixed at construction, a replaceable weak reference to the JS
    tensor constructor, and the engine environment created at most once. */
module EnvModel {
  import opened Jsi
  import opened Ort

  /** The value `WeakObject::lock` yields for a weakly held object: the
      object while the garbage collector keeps it (its id is in `live`),
      `undefined` once it is collected. */
  function Lock(target: JsObject, live: set<ObjId>): (v: JsValue)
    ensures v.Obj? <==> target.id in live
    ensures v.Obj? ==> v.obj == target
    ensures !v.Obj? ==> v == Undefined
  {
    if target.id in live then Obj(target) else Undefined
  }

  class Env {
    /** The invoker given at construction (`None`: a null pointer). */
    const jsInvoker: Option<CallInvoker>
    /** The target of the weak tensor-constructor reference, once one is set. */
    var tensorConstructor: Option<JsObject>
    /** The engine environment, once created. */
    var ortEnv: Option<OrtEnvHandle>

    constructor (jsInvoker: Option<CallInvoker>)
      ensures this.jsInvoker == jsInvoker
      ensures tensorConstructor == None && ortEnv == None
    {
      this.jsInvoker := jsInvoker;
      tensorConstructor := None;
      ortEnv := None;
    }

    /** `initOrtEnv`: only the first call creates the environment; later
        calls, whatever their level or log id, change nothing. */
    method InitOrtEnv(logLevel: int, logId: string)
      modifies this`ortEnv
      ensures old(ortEnv).Some? ==> ortEnv == old(ortEnv)
      ensures old(ortEnv).None? ==> ortEnv == Some(OrtEnvHandle(logLevel, logId))
    {
      if ortEnv.Some? {
        return;
      }
      ortEnv := Some(OrtEnvHandle(logLevel, logId));
    }

    /** `setTensorConstructor`: the last reference set wins. */
    method SetTensorConstructor(ctor: JsObject)
      modifies this`tensorConstructor
      ensures tensorConstructor == Some(ctor)
    {
      tensorConstructor := Some(ctor);
    }

    /** `getJsInvoker` dereferences the stored pointer. */
    function GetJsInvoker(): (inv: CallInvoker)
      requires jsInvoker.Some?
      ensures Some(inv) == jsInvoker
    {
      jsInvoker.value
    }

    /** `getTensorConstructor` dereferences the stored weak reference and
        locks it. */
    function GetTensorConstructor(live: set<ObjId>): (v: JsValue)
      reads this
      requires tensorConstructor.Some?
      ensures v.Obj? <==> tensorConstructor.value.id in live
      ensures v.Obj? ==> v.obj == tensorConstructor.value
    {
      Lock(tensorConstructor.value, live)
    }

    /** `getOrtEnv` dereferences without a check. */
    function GetOrtEnv(): (e: OrtEnvHandle)
      reads this
      requires ortEnv.Some?
      ensures Some(e) == ortEnv
    {
      ortEnv.value
    }
  }
}
