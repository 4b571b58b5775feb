# onnxruntime-react-native-jsi — a Dafny model of the native bridge core

This project models the native core of a React Native binding of ONNX
Runtime written against the JavaScript Interface (JSI). It covers five parts:

- **Tensor interchange** (`tensor_types.dfy`, `tensor_utils.dfy`).
  - The three tables over the 13 ONNX element types: name, byte size and
    JS typed-array constructor, with their lookups.
  - The element count of a shape, computed in 64-bit `size_t` arithmetic.
  - The checks that turn a duck-typed JS tensor `{cpuData, dims, type}` into an
    engine tensor.
  - The reverse conversion: a fresh typed array plus a `dims` array, handed
    to the JS `Tensor` constructor.
- **The `InferenceSession` host object** (`session.dfy`).
  - Property dispatch: methods first, then getters, else `undefined`.
    Every property is read-only.
  - `loadModel`: a path (with any leading `file://` stripped) or an
    ArrayBuffer.
  - `run`: feeds and output specifications, pre-allocated outputs returned
    by identity.
  - `dispose`, `endProfiling` and the two metadata getters.
  - The session is a class with a `session` field. The engine is a
    function parameter (`loader`, `engine`).
- **The per-install environment** (`env.dfy`): class `Env`. It holds the
  call invoker, a weak reference to the tensor constructor, and an engine
  environment created at most once.
- **The process-wide state** (`global.dfy`): the init-once flag and the
  four handles. They are set by `initOrtOnce`, cleared by `cleanup` and read
  by guarded getters. The transitions are spec functions, and a class updates
  the statics in place.
- **The example app's WAV writer** (`wav.dfy`).
  - The 44-byte RIFF/WAVE header and the 16-bit samples are written in place
    into a fresh buffer.
  - A reader that inverts the writer in both directions. Reading a written
    buffer gives back the samples, and the sample rate modulo 2^32, as long
    as the RIFF size field (36 + 2n) fits in 32 bits. Every buffer the reader
    accepts is exactly what the writer writes for what was read.

JS values are data (`jsi.dfy`). Objects carry an identity, their properties
in iteration order, and the kind that JSI can test for. Engine values are
opaque (`ort.dfy`). Errors are values: `Result`, and `Settlement` for
promises.

## Model

| member | source | states |
|---|---|---|
| TensorTypes.DataTypeToString | cpp/TensorUtils.cpp:58-64 | Succeeds exactly for the 13 tabled codes (1..13). Any other code gives invalid_argument "Unsupported or unknown tensor data type: <code>". |
| TensorTypes.NamesDistinct | cpp/TensorUtils.cpp:10-24 | The 13 type names are pairwise distinct. |
| TensorTypes.StringToDataType | cpp/TensorUtils.cpp:66-73 | The type found has `s` as its name. It fails exactly when `s` is no table name, with the invalid_argument message naming `s`. |
| TensorTypes.NameRoundTrip | cpp/TensorUtils.cpp:58-73 | stringToDataType(dataTypeToString(t)) == t for every tabled type. |
| TensorTypes.GetElementSize | cpp/TensorUtils.cpp:75-81 | Defined exactly where the name is. Sizes: 1 for uint8/int8/bool; 2 for uint16/int16/float16; 4 for float32/int32/uint32; 8 for float64/int64/uint64; pointer size for string. Otherwise the invalid_argument error. |
| TensorTypes.TypedArrayKindOf | cpp/TensorUtils.cpp:89-100 | Defined exactly for the tabled types. The kind is `Array` exactly for string, and bool maps to Uint8Array. An unknown type gives the "Unsupported tensor data type for TypedArray creation" error. |
| TensorTypes.TypedArrayMatchesElementSize | cpp/TensorUtils.cpp:42-56 | For every non-string type, the typed array's BYTES_PER_ELEMENT equals the element-size table entry. |
| TensorUtils.ProductNonNegative | cpp/TensorUtils.cpp:102-108 | A shape of non-negative dims has a non-negative element count. |
| TensorUtils.GetElementCount | cpp/TensorUtils.cpp:102-108 | The loop yields the product of the dims modulo 2^64, and 1 for the empty shape. |
| TensorUtils.ModMul | cpp/TensorUtils.cpp:104-106 | Reducing each factor modulo 2^64 before multiplying, as the loop does, does not change the product modulo 2^64. |
| TensorUtils.ElementCountExact | cpp/TensorUtils.cpp:102-108 | The count is exact when the dims are non-negative and the product fits in size_t. |
| TensorUtils.NumericEntriesFromDims | cpp/TensorUtils.cpp:157-164 | Every shape entry is a numeric entry of `dims`. |
| TensorUtils.NumericEntriesAllNumbers | cpp/TensorUtils.cpp:157-164 | When every entry of `dims` is a number, the shape is `dims` entry by entry. |
| TensorUtils.CollectShape | cpp/TensorUtils.cpp:157-164 | The push loop yields exactly the numeric entries of `dims`, in order. |
| TensorUtils.IsValidJSTensor | cpp/TensorUtils.cpp:83-87 | An object is a JS tensor exactly when it has all three of `cpuData`, `dims` and `type`. The predicate has no contract of its own; `FromJSTensorOutcome` states its role. |
| TensorUtils.CString | cpp/TensorUtils.cpp:144-145 | What `strdup(str.c_str())` copies: the longest NUL-free prefix of the string. That is the whole string when it holds no NUL, and otherwise it stops just before the first NUL. |
| TensorUtils.StringsOf | cpp/TensorUtils.cpp:140-146 | Succeeds exactly when every element is a string. It gives, at the same index, the C string copied from each element; otherwise the `asString` type error. |
| TensorUtils.CopyStrings | cpp/TensorUtils.cpp:140-148 | The copy loop into the native array yields exactly `StringsOf`. |
| TensorUtils.TypedArrayBuffer | cpp/utils.cpp:3-7 | Every case of `isTypedArray` followed by the buffer read. With no `buffer` the object is not a typed array. A `buffer` that is not an object throws the `asObject` type error. A `buffer` that is an ArrayBuffer yields its bytes. Any other object `buffer` means the object is not a typed array. |
| TensorUtils.FromJSTensor | cpp/TensorUtils.cpp:110-174 | The conversion of a JS tensor into an engine tensor. It has no contract of its own. Its outcome, data and byte length are stated by `FromJSTensorOutcome`, `FromJSTensorData`, `FromJSTensorDataErrors` and `FromJSTensorByteLength`. |
| TensorUtils.FromJSTensorOutcome | cpp/TensorUtils.cpp:110-174 | The outcome of `FromJSTensor`, check by check in source order: missing member, dims not an array, type not a string, unknown type name. On success: the element type is the name's, the shape is the numeric dims, and the byte length is count × size in size_t. |
| TensorUtils.FromJSTensorData | cpp/TensorUtils.cpp:133-155 | A string tensor holds, at the same index, the C string copied from each JS element. Any other tensor holds the typed array's buffer bytes. |
| TensorUtils.FromJSTensorDataErrors | cpp/TensorUtils.cpp:134-152 | After the type lookup, each data failure in order. Non-object data gives a type error. For the string type, data that is not an array gives "must be an array of strings", and a non-string element gives the `asString` type error. For other types, a `buffer` that is not an object gives the `asObject` type error, and data that is not a typed array gives "must be a TypedArray". |
| TensorUtils.FromJSTensorSucceeds | cpp/TensorUtils.cpp:134-174 | After the checks and the type lookup pass, the conversion succeeds exactly when the data is usable. For the string type that means an array whose elements are all strings. For other types it means a typed array over an ArrayBuffer. |
| TensorUtils.FromJSTensorByteLength | cpp/TensorUtils.cpp:166-173 | For a converted tensor with non-negative dims, the element size is defined, and the byte length handed over is exactly elementCount × elementSize when that fits in size_t. |
| TensorUtils.ExactModProduct | cpp/TensorUtils.cpp:169 | The wrapped size_t product equals the exact product when the exact product fits. |
| TensorUtils.CreateOrtValueFromJSTensor | cpp/TensorUtils.cpp:110-174 | The imperative conversion (copy loop, shape loop, count loop) equals `FromJSTensor`. |
| TensorUtils.ToJSTensorAsWritten | cpp/TensorUtils.cpp:176-212 | The conversion back to JS as written. It succeeds exactly for a tabled non-string type whose constructor exists. The result has the type name, the dims, the table's typed array of elementCount elements, and the first count × size native bytes. Any string tensor fails. |
| TensorUtils.StringTensorsFailAsWritten | cpp/TensorUtils.cpp:198-202 | As written, converting any string tensor back to JS fails: the `Array` made for it has no `buffer`. |
| TensorUtils.ToJSTensor | cpp/TensorUtils.cpp:176-212 | Succeeds exactly for a tabled type whose constructor exists. typeName = dataTypeToString, dims = shape. Non-string types: the table's kind, elementCount elements, and exactly count × size bytes equal to the native bytes' prefix. String tensors: the strings themselves. |
| TensorUtils.CreateJSTensorFromOrtValue | cpp/TensorUtils.cpp:176-212 | The dims loop and the copy into a fresh buffer compute `ToJSTensor`. |
| TensorUtils.CopyIntoFreshBuffer | cpp/TensorUtils.cpp:200-203 | A fresh buffer holds exactly the first `size` source bytes. |
| TensorUtils.CopyIntoFreshArray | cpp/TensorUtils.cpp:198-203 | The string branch of the corrected conversion, which has no counterpart in the source. The source makes `new Array(n)` at these lines and then fails on its `buffer`. Here a fresh JS array holds exactly the tensor's strings. |
| TensorUtils.WellSizedAccepted | cpp/TensorUtils.cpp:110-174 | A JS tensor that passes the checks, has a known type name and numeric dims, and has usable data is accepted. Its engine tensor has the named element type, the dims as its shape, and the typed array's bytes or the C strings of the elements. |
| TensorUtils.Uint8TensorWellSized | cpp/TensorUtils.cpp:110-174 | Any one-dimensional `uint8` tensor whose dims hold the length of its ArrayBuffer is well sized and is accepted by the conversion. |
| TensorUtils.RoundTrip | cpp/TensorUtils.cpp:110-212 | The premises are on the JS tensor alone: it passes the checks, has a known type name and non-negative numeric dims, holds exactly one element per shape entry, and its constructor is available. Such a tensor is accepted by the conversion, and the engine tensor is well formed. The trip back gives the same type name, the same dims and the same buffer bytes. Each string comes back as the C string copied from it, which is the string itself when it holds no NUL. |
| TensorUtils.BackToJS | cpp/TensorUtils.cpp:176-212 | A well-formed engine tensor whose type name, dims and data match a JS tensor converts back to JS with that type name, those dims and those bytes. Its strings come back as the C strings copied from the JS elements. |
| EnvModel.Lock | cpp/Env.h:32-34 | The weak reference yields the object exactly while it is alive, `undefined` after. |
| EnvModel.Env.constructor | cpp/Env.h:15 | The invoker is fixed at construction; there is no env and no constructor yet. |
| EnvModel.Env.InitOrtEnv | cpp/Env.h:20-25 | Only the first call creates the env, with its level and log id. Later calls change nothing. |
| EnvModel.Env.SetTensorConstructor | cpp/Env.h:27-29 | The last reference set wins. |
| EnvModel.Env.GetJsInvoker | cpp/Env.h:31 | Returns the invoker given at construction; requires a non-null one. |
| EnvModel.Env.GetTensorConstructor | cpp/Env.h:32-34 | The locked constructor: the object while alive, otherwise not an object. Requires a reference to have been set. |
| EnvModel.Env.GetOrtEnv | cpp/Env.h:36 | Returns the created env; requires `initOrtEnv` first. |
| Global.AfterInit | cpp/global.cpp:11-20 | The state initOrtOnce leaves. It is the old state when already initialized. Otherwise it holds the flag, an env with the level and the fixed log id, the constructor, fresh run options and the invoker. It has no contract of its own; `FirstInit`, `InitIdempotent` and `OperationsPreserveConsistency` state its properties. |
| Global.AfterCleanup | cpp/global.cpp:22-28 | The state cleanup leaves: no flag and no handles. It has no contract of its own; `CleanupResets` states its properties. |
| Global.OperationsPreserveConsistency | cpp/global.cpp:11-28 | initOrtOnce and cleanup keep the flag in step with the env and run options. |
| Global.FirstInit | cpp/global.cpp:15-19 | The first init stores constructor and invoker, and creates the env (given level, fixed log id) and the default run options. |
| Global.InitIdempotent | cpp/global.cpp:11-14 | Init while initialized changes nothing, so a second init is a no-op. |
| Global.CleanupResets | cpp/global.cpp:22-28 | Cleanup clears everything from any state and is repeatable. A later init initializes afresh with the new arguments. |
| Global.GettersOnConsistentState | cpp/global.cpp:30-49 | The env and run-options getters fail exactly when uninitialized. The constructor getter also fails on a null constructor; both messages are given. |
| Global.OrtGlobals.constructor | cpp/global.cpp:5-9 | The statics start uninitialized and empty. |
| Global.OrtGlobals.InitOrtOnce | cpp/global.cpp:11-20 | The in-place update is `AfterInit` of the old state and keeps the state consistent. |
| Global.OrtGlobals.Cleanup | cpp/global.cpp:22-28 | The in-place update is `AfterCleanup` of the old state. |
| Global.OrtGlobals.GetOrtEnv | cpp/global.cpp:30-35 | Returns the env exactly when initialized, else the runtime_error. |
| Global.OrtGlobals.GetDefaultRunOptions | cpp/global.cpp:37-42 | Returns the run options exactly when initialized, else the runtime_error. |
| Global.OrtGlobals.GetTensorConstructor | cpp/global.cpp:44-49 | Returns the constructor exactly when initialized with a non-null one. |
| Global.OrtGlobals.GetJsInvoker | cpp/global.cpp:51-53 | Never fails. Returns the stored invoker, which is null whenever uninitialized. |
| Session.ArityOf | cpp/InferenceSessionHostObject.cpp:15-20 | A name has an arity exactly when it is in the methods table, and then it is the declared one. |
| Session.MetadataOf | cpp/InferenceSessionHostObject.cpp:219-260 | One entry per input or output, in order and with its name. A tensor entry has its type code, shape, isTensor and symbolic dims. A failed type lookup gives "unknown", [], false. |
| Session.StripFilePrefix | cpp/InferenceSessionHostObject.cpp:68-72 | A leading "file://" is removed, and only at position 0. Other paths are unchanged. |
| Session.ParseModelSource | cpp/InferenceSessionHostObject.cpp:67-79 | The argument checks of the load worker's constructor. It has no contract of its own; `LoadModelArguments` states its cases. |
| Session.LoadModelArguments | cpp/InferenceSessionHostObject.cpp:67-79 | No argument throws. A string that starts with "file://" becomes the path after that prefix; any other string is the path unchanged. An ArrayBuffer is the bytes. Anything else throws "Model path or buffer is required". |
| Session.LoaderAsWritten | cpp/InferenceSessionHostObject.cpp:85-91 | The engine constructor as the source picks it: by whether the stored path is empty, with the data present only for an ArrayBuffer. It has no contract of its own; `EmptyPathLoadsUninitialisedBuffer` and `LoaderDiffersOnlyOnEmptyPath` state its behaviour. |
| Session.EmptyPathLoadsUninitialisedBuffer | cpp/InferenceSessionHostObject.cpp:85-91 | As written, `loadModel("file://")` selects the buffer constructor with no data. |
| Session.LoaderFor | cpp/InferenceSessionHostObject.cpp:85-91 | Corrected choice: a path is always loaded as a path and bytes as bytes. A buffer load always has data. |
| Session.LoaderDiffersOnlyOnEmptyPath | cpp/InferenceSessionHostObject.cpp:85-91 | The written choice and the corrected one differ exactly on the empty path. |
| Session.FirstError | cpp/InferenceSessionHostObject.cpp:123-151 | The error that stops a `forEach` conversion loop. It is absent exactly when every entry converts. |
| Session.FirstErrorIsFirst | cpp/InferenceSessionHostObject.cpp:123-151 | The reported error is that of a failing entry, and every entry before it converts. |
| Session.FirstErrorAt | cpp/InferenceSessionHostObject.cpp:123-151 | When every entry before index i converts and entry i fails, the first error is entry i's. |
| Session.RunArgumentsError | cpp/InferenceSessionHostObject.cpp:114-153 | What the run worker's constructor throws, check by check in the source's order. It is absent exactly when the arguments are accepted. |
| Session.ConvertFeeds | cpp/InferenceSessionHostObject.cpp:121-133 | The feed loop over a given per-feed conversion (the worker passes `FeedTensor`). It completes exactly when every feed converts. Then the names are the property keys in order, and value i is the conversion of feed i. Otherwise its error is that of the first feed that fails. |
| Session.ConvertFeed | cpp/InferenceSessionHostObject.cpp:125-131 | One feed, done imperatively (`asObject`, then the copy loops of the conversion), gives exactly `FeedTensor`, the conversion the feed loop is run with. |
| Session.ConvertOutputs | cpp/InferenceSessionHostObject.cpp:134-152 | Completes exactly when every pre-allocated output converts. Otherwise its error is that of the first output that fails. Names are in order. Each slot holds its converted tensor and weakly held object at its own index; other slots are empty. |
| Session.RunOutput | cpp/InferenceSessionHostObject.cpp:169-181 | One result property of a run, read off the output specification and the engine's output. A pre-allocated tensor gives the caller's object, or undefined once it has been collected. Any other output gives a new tensor from the (corrected) conversion. It has no contract of its own; `Run` is stated with it. |
| Session.SlotAfterRun | cpp/InferenceSessionHostObject.cpp:134-181 | After the engine runs, an accepted output slot yields exactly `RunOutput`. A pre-allocated tensor stays in its slot and its object is returned; any other slot holds the engine's output. |
| Session.RunAsyncWorker.constructor | cpp/InferenceSessionHostObject.cpp:108-113 | The worker starts with empty vectors. |
| Session.RunAsyncWorker.Init | cpp/InferenceSessionHostObject.cpp:114-153 | Throws exactly `RunArgumentsError`: "run requires feeds object" without an object first argument, then the first failing feed's error, then the type error for a non-object second argument, then the first failing output's error. Completes exactly on accepted arguments, with the fields as the conversions give them. |
| Session.RunAsyncWorker.Execute | cpp/InferenceSessionHostObject.cpp:155-167 | A failed run yields the engine's message. A successful run fills exactly the empty slots with the engine's outputs. |
| Session.RunAsyncWorker.OnSuccess | cpp/InferenceSessionHostObject.cpp:169-181 | A collected constructor fails. Otherwise there is one property per output name, in order. Pre-allocated outputs give the caller's own object; others give a new tensor. |
| Session.InferenceSessionHostObject.constructor | cpp/InferenceSessionHostObject.cpp:11-24 | A new host object has no session. |
| Session.InferenceSessionHostObject.GetPropertyNames | cpp/InferenceSessionHostObject.cpp:26-35 | Six names: the four method names, then the two getter names. |
| Session.InferenceSessionHostObject.Get | cpp/InferenceSessionHostObject.cpp:37-53 | A method name gives a host function of its arity. A getter name gives the metadata array. Any other name gives undefined. |
| Session.InferenceSessionHostObject.Set | cpp/InferenceSessionHostObject.cpp:55-57 | Always throws "InferenceSession properties are read-only". |
| Session.InferenceSessionHostObject.Dispose | cpp/InferenceSessionHostObject.cpp:198-201 | The session is absent afterwards, whatever it was, so dispose can be repeated. |
| Session.InferenceSessionHostObject.EndProfiling | cpp/InferenceSessionHostObject.cpp:203-211 | The profile file name, or the engine error rethrown as a JS error with its message. |
| Session.InferenceSessionHostObject.InputMetadata | cpp/InferenceSessionHostObject.cpp:213-266 | Empty without a session; otherwise describes every input. |
| Session.InferenceSessionHostObject.OutputMetadata | cpp/InferenceSessionHostObject.cpp:268-321 | Empty without a session; otherwise describes every output. |
| Session.InferenceSessionHostObject.LoadModel | cpp/InferenceSessionHostObject.cpp:59-104 | A bad source throws and keeps the session. Without an invoker it stays pending. Otherwise the corrected loader runs: success installs the session and resolves; failure rejects with the message and keeps the old session. |
| Session.InferenceSessionHostObject.Run | cpp/InferenceSessionHostObject.cpp:106-196 | Throws exactly on rejected arguments, whatever the session, and the error thrown is `RunArgumentsError`. An engine failure rejects with its message. After an engine success it resolves exactly when the constructor is live and every output converts. Then there is one property per output key, in order, each the `RunOutput` of its specification. Otherwise building the result throws: a collected constructor throws the `asObject` type error. |
| Wav.Ascii | example/src/utils/wav.ts:49-52 | One byte per character. |
| Wav.LE16RoundTrip | example/src/utils/wav.ts:31-36 | A 16-bit little-endian field reads back as the value modulo 2^16. |
| Wav.LE16Int16RoundTrip | example/src/utils/wav.ts:44 | A sample written as int16 reads back unchanged. |
| Wav.LE32RoundTrip | example/src/utils/wav.ts:26-39 | A 32-bit little-endian field reads back as the value modulo 2^32. |
| Wav.LE32OfRead | example/src/utils/wav.ts:26-39 | Any four bytes are the encoding of the value read from them. |
| Wav.LE16OfRead | example/src/utils/wav.ts:30-45 | Any two bytes are the encoding of the uint16 and of the int16 read from them. |
| Wav.SampleBytesLength | example/src/utils/wav.ts:20 | The sample bytes are 2n long. |
| Wav.SampleBytesAt | example/src/utils/wav.ts:42-45 | Sample i occupies bytes 2i and 2i+1 of the data chunk. |
| Wav.HeaderLayout | example/src/utils/wav.ts:24-39 | The header is the RIFF header (bytes 0-11), then the fmt chunk (12-35), then the data chunk header (36-43). |
| Wav.WavLayout | example/src/utils/wav.ts:21-45 | The buffer is 44 + 2n bytes: the three header parts at their offsets, then the samples from byte 44. |
| Wav.RiffHeaderFields | example/src/utils/wav.ts:24-27 | The RIFF header holds "RIFF" and "WAVE", and its size field reads back modulo 2^32. |
| Wav.FmtChunkFields | example/src/utils/wav.ts:28-36 | The fmt chunk holds "fmt ", 16, 1, 1, the rate, the byte rate, 2 and 16; the rate and the byte rate read back modulo 2^32. |
| Wav.DataChunkHeaderFields | example/src/utils/wav.ts:37-39 | The data chunk header holds "data", and its size field reads back modulo 2^32. |
| Wav.WavHeaderFields | example/src/utils/wav.ts:16-39 | Length 44 + 2n. The four tags are in place. Each field reads back modulo its width: 36+2n, 16, 1, 1, rate, 2·rate, 2, 16, 2n. |
| Wav.WavHeaderFieldsExact | example/src/utils/wav.ts:19-39 | The size and rate fields are exact when they fit in 32 bits. |
| Wav.WavSamples | example/src/utils/wav.ts:42-45 | Sample i reads back as an int16 at offset 44 + 2i. |
| Wav.DecodeSamplesAt | example/src/utils/wav.ts:42-45 | The reader's sample i is the int16 at bytes 2i and 2i+1 of the data chunk. |
| Wav.DecodeSampleBytes | example/src/utils/wav.ts:42-45 | Decoding the written sample bytes gives the samples back. |
| Wav.RoundTrip | example/src/utils/wav.ts:11-47 | Reading the written buffer gives the samples and the rate modulo 2^32, whenever the RIFF size field does not wrap. |
| Wav.SampleBytesOfDecoded | example/src/utils/wav.ts:42-45 | Re-encoding decoded samples gives back the data chunk. |
| Wav.RiffHeaderOfRead | example/src/utils/wav.ts:24-27 | Twelve bytes carrying "RIFF" and "WAVE" are the RIFF header of the size read from them. |
| Wav.FmtChunkOfRead | example/src/utils/wav.ts:28-36 | A fmt chunk with the fixed PCM mono 16-bit fields is the fmt chunk of the rate and byte rate read from it. |
| Wav.DataChunkHeaderOfRead | example/src/utils/wav.ts:37-39 | Eight bytes starting with "data" are the data chunk header of the size read from them. |
| Wav.DecodeIsCanonical | example/src/utils/wav.ts:11-47 | Every buffer the reader accepts is exactly the writer's output for what it read. |
| Wav.WriteString | example/src/utils/wav.ts:49-52 | The loop stores one byte per character from the offset on, after the unchanged prefix. |
| Wav.SetUint16 | example/src/utils/wav.ts:31-36 | Two little-endian bytes of the value modulo 2^16 follow the unchanged prefix. |
| Wav.SetUint32 | example/src/utils/wav.ts:26-34 | Four little-endian bytes of the value modulo 2^32 follow the unchanged prefix. |
| Wav.WriteRiffHeader | example/src/utils/wav.ts:24-27 | The three RIFF header writes leave exactly the RIFF header in bytes 0-11. |
| Wav.WriteFmtChunk | example/src/utils/wav.ts:28-36 | The eight fmt chunk writes leave exactly the fmt chunk in bytes 12-35, after the unchanged first 12 bytes. |
| Wav.WriteDataChunkHeader | example/src/utils/wav.ts:37-39 | The two data chunk writes leave exactly the data chunk header in bytes 36-43, after the unchanged first 36 bytes. |
| Wav.WriteHeader | example/src/utils/wav.ts:16-39 | The header writes, in source order, leave exactly the header in the first 44 bytes. |
| Wav.EncodeWavPcm16Mono | example/src/utils/wav.ts:11-47 | A fresh buffer holding exactly header + samples; the sample loop advances the offset by 2. |

## Left out

- The promise machinery (`AsyncWorker`): the worker thread, `invokeAsync`, cancellation and the weak resolve/reject handles. Each `loadModel` and `run` is one atomic step. The resolve and reject functions are taken to be alive.
- Session.InferenceSessionHostObject.LoadModel: the session is assigned on the worker thread, which is not modelled; a concurrent `run` or `dispose` could interleave.
- Session.InferenceSessionHostObject.LoadModel: it runs the corrected loader choice (see Findings).
- Session.InferenceSessionHostObject.LoadModel: it requires an engine env whenever the load reaches the engine, because `getOrtEnv` dereferences without a check.
- Session.InferenceSessionHostObject.LoadModel and Session.InferenceSessionHostObject.Run stay pending when there is no call invoker. This follows the worker thread's null check in cpp/AsyncWorker.cpp:28-29, and AsyncWorker.cpp is not part of this model. `Env::getJsInvoker` (cpp/Env.h:31) dereferences the invoker without a check, and `EnvModel.Env.GetJsInvoker` requires one.
- Session.InferenceSessionHostObject.Run: when the arguments are accepted and a call invoker exists, it requires a loaded session, because the engine run dereferences the session without a check.
- Session.InferenceSessionHostObject.Run: it requires a second argument whenever the first is an object, because the source reads `arguments[1]` without checking the count.
- Session.InferenceSessionHostObject.Run: in the same case it requires a tensor constructor to have been set, because building the result locks that reference without a check.
- Session.InferenceSessionHostObject.Run: string outputs that are not pre-allocated resolve through the corrected conversion, where the source throws (see Findings).
- Session.RunAsyncWorker.OnSuccess: string outputs that are not pre-allocated use the corrected conversion, where the source throws (see Findings).
- TensorUtils.CreateJSTensorFromOrtValue: string tensors take the corrected branch, a fresh array of their strings, where the source throws (see Findings).
- TensorUtils.CopyIntoFreshArray: it models the corrected string branch only; the source has no such copy.
- Session.InferenceSessionHostObject.Run: it requires an engine that returns one well-formed tensor per requested output.
- Session.InferenceSessionHostObject.EndProfiling: it requires a session, because the source has no null check. Profiling is synchronous in the code, and it is modelled that way.
- Session.InferenceSessionHostObject.GetPropertyNames: it states the order between the two groups, but inside each group only the set of names. The iteration order of the method and getter maps (`JsiMethodMap`) depends on JsiHelper.hpp, which is not part of this model.
- Session.InferenceSessionHostObject.Get: the host function is represented by its name and arity. Its behaviour is the member named.
- Session options and run options (`parseSessionOptions`, `parseRunOptions`) are not modelled. SessionUtils.h holds only their declarations; their source is not part of this model.
- Ort exceptions raised by `GetInputCount`, `GetInputNameAllocated` and their output counterparts are not modelled. The engine's input and output lists are given.
- `TensorUtils::isTensor` is not declared in the headers shown. It is modelled as `isValidJSTensor`.
- Engine outputs that are not tensors (sequences, maps) are not modelled. Neither is the engine writing into pre-allocated output buffers in place.
- The engine's own checks in `CreateTensor` (such as the byte length against the buffer size) are not modelled.
- JS numbers are integers here. The truncating `static_cast<int64_t>` of fractional dims and NaN are not modelled. Neither is the sample rate being a non-integer.
- `sizeof(char*)` is taken as 8, a 64-bit target.
- The metadata `type` member is the numeric element code, as the code writes it, not a type name.
- `getObjectKeys` (utils.cpp) is a JSI call chain and is not used by the core. `forEach` iteration is the property order of the object.
- `floatTo16BitPCM` is floating-point clamping and scaling and is not modelled. The WAV writer takes the int16 samples as its input.
- Platform glue, the example app's screens and the JS side of the library are not modelled.
- There is no InvalidState error and no rule about loading after dispose, since the code has neither.

## Findings

| source | as written | input that shows it | evidently intended | confidence | as-written member | corrected member |
|---|---|---|---|---|---|---|
| cpp/InferenceSessionHostObject.cpp:85-91 | `Execute` picks the buffer constructor whenever `modelPath_` is empty. `modelData_` is set only on the ArrayBuffer branch. | `loadModel("file://")` or `loadModel("")`: the path becomes empty, so the engine is handed an uninitialised pointer and length | A string argument is always loaded as a path, so an empty path fails in the engine as a missing file | not executed | Session.EmptyPathLoadsUninitialisedBuffer | Session.LoaderFor |
| cpp/TensorUtils.cpp:198-202 | For a string tensor the constructor table names `Array`. `new Array(n)` has no `buffer`, so `asObject` throws. | Any run whose output is a string tensor not pre-allocated by the caller | The string tensor comes back as an array of its strings | not executed | TensorUtils.StringTensorsFailAsWritten | TensorUtils.ToJSTensor |
