/** The inference engine (ONNX Runtime) as the bridge sees it: opaque
    handles and the values it exchanges with the native layer. Nothing of
    the engine's own computation is modelled. */
module Ort {
  import opened Jsi

  /** An `Ort::Env`, created with a logging level and a log id. */
  datatype OrtEnvHandle = OrtEnvHandle(logLevel: int, logId: string)

  /** The process-wide default `Ort::RunOptions`. */
  datatype RunOptionsHandle = DefaultRunOptions

  /** The buffer behind an `Ort::Value`: contiguous bytes for numeric and
      bool element types, an array of independently owned strings for the
      string element type. */
  datatype TensorData = Bytes(bytes: seq<byte>) | Strings(strings: seq<string>)

  /** An `Ort::Value` tensor: its ONNX element type code, its shape, the
      byte length it was created with, and its buffer. */
  datatype NativeTensor = NativeTensor(elementType: int, shape: seq<int>, byteLength: nat, data: TensorData)

  /** The static type information the engine reports for one input or output. */
  datatype TensorInfo = TensorInfo(elementType: int, shape: seq<int>, symbolicDimensions: seq<string>)

  /** One input or output of a loaded model: its name and its type
      information, `None` when the engine's type-info lookup throws. */
  datatype IoInfo = IoInfo(name: string, typeInfo: Option<TensorInfo>)

  /** An `Ort::Session` over one loaded model. `profileFile` is what
      `EndProfilingAllocated` yields: the profile file name, or the engine's
      error. */
  datatype EngineSession = EngineSession(id: nat, inputs: seq<IoInfo>, outputs: seq<IoInfo>, profileFile: Result<string>)

  /** How a session is created: `Ort::Session(env, path, options)` or
      `Ort::Session(env, data, length, options)`. `data` is `None` when the
      pointer handed over was never initialised. */
  datatype LoaderCall =
    | FromPath(env: OrtEnvHandle, path: string)
    | FromBuffer(env: OrtEnvHandle, data: Option<seq<byte>>)

  /** One `Session::Run`: input names and values, output names, and the
      output slots (`Some` for a caller-supplied, pre-allocated tensor). */
  datatype RunCall = RunCall(
    session: EngineSession,
    inputNames: seq<string>,
    inputValues: seq<NativeTensor>,
    outputNames: seq<string>,
    outputSlots: seq<Option<NativeTensor>>)
}
