/** The values that cross the JavaScript Interface (JSI) boundary, as the
    native layer sees them: tagged JS values, objects with ordered own
    properties, arrays, array buffers, and the errors the native layer raises. */
module Jsi {

  /** One byte of an ArrayBuffer or of native memory. */
  newtype byte = x: int | 0 <= x < 256

  /** Identity of a JS object on the managed heap. */
  type ObjId = nat

  /** A JS value. Numbers are modelled as integers: every number the model
      reads (a tensor dimension, a sample rate) is integral. */
  datatype JsValue =
    | Undefined
    | Null
    | Boolean(b: bool)
    | Number(n: int)
    | Str(s: string)
    | Obj(obj: JsObject)

  /** A JS object: its identity, its enumerable properties in iteration
      order (inherited ones such as a typed array's `buffer` included), and
      the host kind JSI can test for (`isArray`, `isArrayBuffer`). */
  datatype JsObject = JsObject(id: ObjId, props: seq<(string, JsValue)>, kind: ObjectKind)

  datatype ObjectKind =
    | PlainObject
    | ArrayObject(elements: seq<JsValue>)
    | ArrayBufferObject(bytes: seq<byte>)
    | FunctionObject

  /** An opaque react-native CallInvoker (the dispatcher onto the JS thread). */
  datatype CallInvoker = CallInvoker(id: nat)

  /** The exceptions the native layer raises; `message` is what `what()`
      returns. */
  datatype Error =
    | JSError(message: string)          // facebook::jsi::JSError with the source's own message
    | InvalidArgument(message: string)  // std::invalid_argument
    | RuntimeError(message: string)     // std::runtime_error
    | EngineError(message: string)      // Ort::Exception raised inside the engine
    | TypeMismatch(message: string)     // Value::asObject / asString on a value of another kind;
                                        // the message names the expected kind only

  datatype Result<T> = Ok(value: T) | Err(error: Error)

  datatype Option<T> = None | Some(value: T)

  /** The property names of `props`, in iteration order. */
  function Keys(props: seq<(string, JsValue)>): (keys: seq<string>)
    ensures |keys| == |props|
    ensures forall i :: 0 <= i < |props| ==> keys[i] == props[i].0
  {
    if props == [] then [] else [props[0].0] + Keys(props[1..])
  }

  /** `Object::hasProperty`. */
  predicate HasProperty(o: JsObject, key: string) {
    exists i :: 0 <= i < |o.props| && o.props[i].0 == key
  }

  /** `Object::getProperty`: the value of the first property named `key`,
      `undefined` when there is none. */
  function GetProperty(o: JsObject, key: string): (v: JsValue)
    ensures !HasProperty(o, key) ==> v == Undefined
  {
    PropertyValue(o.props, key)
  }

  function PropertyValue(props: seq<(string, JsValue)>, key: string): (v: JsValue)
    ensures (forall i :: 0 <= i < |props| ==> props[i].0 != key) ==> v == Undefined
    ensures forall i :: (0 <= i < |props| && props[i].0 == key &&
                         (forall j :: 0 <= j < i ==> props[j].0 != key)) ==> v == props[i].1
  {
    if props == [] then Undefined
    else if props[0].0 == key then props[0].1
    else PropertyValue(props[1..], key)
  }

  /** A value that is an object JSI reports as an array. */
  predicate IsArrayValue(v: JsValue) {
    v.Obj? && v.obj.kind.ArrayObject?
  }
}
