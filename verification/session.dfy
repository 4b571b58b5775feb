/** The `InferenceSession` host object (cpp/InferenceSessionHostObject.cpp):
    its property table, `loadModel` and `run` as promise-returning workers,
    `dispose`, `endProfiling` and the two metadata getters. */
module Session {
  import opened Jsi
  import opened Ort
  import opened TensorTypes
  import opened TensorUtils
  import opened EnvModel

  // ---------------------------------------------------------------------
  // Property table

  /** A host function exposed as a property: its name and declared arity. */
  datatype MethodInfo = MethodInfo(name: string, arity: nat)

  /** The methods table, in declaration order. */
  const Methods: seq<MethodInfo> := [
    MethodInfo("loadModel", 2), MethodInfo("run", 2),
    MethodInfo("dispose", 0), MethodInfo("endProfiling", 0)]

  /** What reading a property yields: a host function, a metadata array, or
      `undefined`. */
  datatype PropertyValue =
    | HostFunction(info: MethodInfo)
    | MetadataArray(entries: seq<Metadata>)
    | UndefinedProperty

  /** The getters table, in declaration order. */
  const Getters: seq<string> := ["inputMetadata", "outputMetadata"]

  const ReadOnlyMessage := "InferenceSession properties are read-only"
  const LoadModelArityMessage := "loadModel requires at least 1 argument"
  const ModelSourceMessage := "Model path or buffer is required"
  const RunFeedsMessage := "run requires feeds object as first argument"

  /** The declared arity of the method named `name`, if there is one. */
  function ArityOf(table: seq<MethodInfo>, name: string): (r: Option<nat>)
    ensures r.None? <==> forall i :: 0 <= i < |table| ==> table[i].name != name
    ensures r.Some? ==> exists i :: 0 <= i < |table| && table[i] == MethodInfo(name, r.value)
  {
    if table == [] then None
    else if table[0].name == name then Some(table[0].arity)
    else ArityOf(table[1..], name)
  }

  // ---------------------------------------------------------------------
  // Metadata

  /** The `type` member of a metadata entry: the numeric element type code,
      or the string "unknown". */
  datatype MetaType = TypeCode(code: int) | UnknownType

  /** One entry of `inputMetadata` / `outputMetadata`. The fallback entry
      has no `symbolicDimensions` member. */
  datatype Metadata = Metadata(
    name: string,
    elementType: MetaType,
    shape: seq<int>,
    isTensor: bool,
    symbolicDimensions: Option<seq<string>>)

  /** The entry built for one input or output: its type information when
      the engine has tensor type information for it, the fallback when the
      lookup throws. */
  function EntryFor(io: IoInfo): Metadata {
    match io.typeInfo
    case Some(info) => Metadata(io.name, TypeCode(info.elementType), info.shape, true, Some(info.symbolicDimensions))
    case None => Metadata(io.name, UnknownType, [], false, None)
  }

  /** `entries` describes `ios`: one entry per input or output, in the
      engine's order, each with that one's name; a tensor entry carries its
      element type code, shape and symbolic dimensions; an entry whose type
      information is unavailable is "unknown", shapeless and not a tensor. */
  predicate Describes(entries: seq<Metadata>, ios: seq<IoInfo>) {
    && |entries| == |ios|
    && (forall i :: 0 <= i < |ios| ==> entries[i].name == ios[i].name)
    && (forall i :: 0 <= i < |ios| && ios[i].typeInfo.Some? ==>
          && entries[i].elementType == TypeCode(ios[i].typeInfo.value.elementType)
          && entries[i].shape == ios[i].typeInfo.value.shape
          && entries[i].isTensor
          && entries[i].symbolicDimensions == Some(ios[i].typeInfo.value.symbolicDimensions))
    && (forall i :: 0 <= i < |ios| && ios[i].typeInfo.None? ==>
          entries[i] == Metadata(ios[i].name, UnknownType, [], false, None))
  }

  /** The loop of a metadata getter: one entry per input (or output). */
  method MetadataOf(ios: seq<IoInfo>) returns (entries: seq<Metadata>)
    ensures Describes(entries, ios)
  {
    entries := [];
    for i := 0 to |ios|
      invariant |entries| == i
      invariant forall k :: 0 <= k < i ==> entries[k] == EntryFor(ios[k])
    {
      entries := entries + [EntryFor(ios[i])];
    }
  }

  // ---------------------------------------------------------------------
  // loadModel

  /** What `loadModel` is given to load: a file path or the bytes of a model. */
  datatype ModelSource = ModelPath(path: string) | ModelBytes(bytes: seq<byte>)

  const FilePrefix := "file://"

  /** A path loses a leading "file://" (only at position 0). */
  function StripFilePrefix(path: string): (r: string)
    ensures |path| >= |FilePrefix| && path[..|FilePrefix|] == FilePrefix ==> FilePrefix + r == path
    ensures !(|path| >= |FilePrefix| && path[..|FilePrefix|] == FilePrefix) ==> r == path
    ensures |r| <= |path|
  {
    if |path| >= |FilePrefix| && path[..|FilePrefix|] == FilePrefix then
      assert path == path[..|FilePrefix|] + path[|FilePrefix|..];
      path[|FilePrefix|..]
    else path
  }

  /** The argument checks of the load worker's constructor. */
  function ParseModelSource(args: seq<JsValue>): Result<ModelSource> {
    if |args| < 1 then Err(JSError(LoadModelArityMessage))
    else if args[0].Str? then Ok(ModelPath(StripFilePrefix(args[0].s)))
    else if args[0].Obj? && args[0].obj.kind.ArrayBufferObject? then Ok(ModelBytes(args[0].obj.kind.bytes))
    else Err(JSError(ModelSourceMessage))
  }

  /** `loadModel` throws synchronously unless its first argument is a string
      or an ArrayBuffer; a string is taken as a path without its "file://"
      scheme, an ArrayBuffer as the model's bytes. */
  lemma LoadModelArguments(args: seq<JsValue>)
    ensures |args| == 0 ==> ParseModelSource(args) == Err(JSError(LoadModelArityMessage))
    ensures |args| > 0 && args[0].Str? ==>
              && ParseModelSource(args).Ok?
              && ParseModelSource(args).value.ModelPath?
              && (FilePrefix <= args[0].s ==> FilePrefix + ParseModelSource(args).value.path == args[0].s)
              && (!(FilePrefix <= args[0].s) ==> ParseModelSource(args).value.path == args[0].s)
    ensures |args| > 0 && args[0].Obj? && args[0].obj.kind.ArrayBufferObject? ==>
              ParseModelSource(args) == Ok(ModelBytes(args[0].obj.kind.bytes))
    ensures |args| > 0 && !args[0].Str? && !(args[0].Obj? && args[0].obj.kind.ArrayBufferObject?) ==>
              ParseModelSource(args) == Err(JSError(ModelSourceMessage))
  {
  }

  /** The load worker's `Execute` as written: it chooses the constructor by
      whether the stored path is empty, and the data pointer is only ever
      set by the ArrayBuffer branch. */
  function LoaderAsWritten(env: OrtEnvHandle, src: ModelSource): LoaderCall {
    var modelPath := if src.ModelPath? then src.path else "";
    var modelData := if src.ModelBytes? then Some(src.bytes) else None;
    if modelPath == "" then FromBuffer(env, modelData) else FromPath(env, modelPath)
  }

  /** As written, `loadModel("file://")` (or `loadModel("")`) hands the
      engine an uninitialised data pointer instead of a path. */
  lemma EmptyPathLoadsUninitialisedBuffer(env: OrtEnvHandle)
    ensures ParseModelSource([Str(FilePrefix)]) == Ok(ModelPath(""))
    ensures LoaderAsWritten(env, ParseModelSource([Str(FilePrefix)]).value) == FromBuffer(env, None)
  {
    assert FilePrefix[..|FilePrefix|] == FilePrefix;
  }

  /** The engine constructor chosen by what was given: a path is always
      loaded as a path, bytes as bytes. */
  function LoaderFor(env: OrtEnvHandle, src: ModelSource): (call: LoaderCall)
    ensures call.env == env
    ensures call.FromBuffer? ==> call.data.Some?
    ensures src.ModelPath? <==> call.FromPath?
    ensures call.FromPath? ==> call.path == src.path
    ensures call.FromBuffer? ==> call.data.value == src.bytes
  {
    match src
    case ModelPath(p) => FromPath(env, p)
    case ModelBytes(b) => FromBuffer(env, Some(b))
  }

  /** The written and the corrected choice differ on exactly one source:
      the empty path. */
  lemma LoaderDiffersOnlyOnEmptyPath(env: OrtEnvHandle, src: ModelSource)
    ensures LoaderAsWritten(env, src) != LoaderFor(env, src) <==> src == ModelPath("")
  {
  }

  // ---------------------------------------------------------------------
  // Promises

  /** What becomes of a promise-returning call: it throws before returning
      a promise; the promise is never settled (no call invoker to get back
      onto the JS thread); it is resolved; it is rejected with the message
      of the worker's exception; or building the result throws on the JS
      thread, again leaving the promise unsettled. */
  datatype Settlement<T> =
    | Thrown(error: Error)
    | Pending
    | Resolved(value: T)
    | Rejected(message: string)
    | ResultThrew(error: Error)

  // ---------------------------------------------------------------------
  // run

  /** A property of the result object: the caller's own pre-allocated
      tensor object, `undefined` when that object has been collected, or a
      new `Tensor` built with the constructor and arguments. */
  datatype OutputValue =
    | SameObject(obj: JsObject)
    | CollectedObject
    | NewTensor(ctor: JsObject, args: TensorArgs)

  /** A value `run` treats as a pre-allocated output tensor. */
  predicate IsTensorValue(v: JsValue) {
    v.Obj? && IsValidJSTensor(v.obj)
  }

  /** The engine tensor of a feed: `asObject`, then the conversion. */
  function FeedTensor(v: JsValue): Result<NativeTensor> {
    if v.Obj? then FromJSTensor(v.obj) else Err(TypeMismatch("Object"))
  }

  /** The slot of an output specification: a tensor object is converted
      (and must convert); anything else asks for an engine-allocated output. */
  function OutputTensor(v: JsValue): Result<Option<NativeTensor>> {
    if !IsTensorValue(v) then Ok(None)
    else
      match FromJSTensor(v.obj)
      case Ok(t) => Ok(Some(t))
      case Err(e) => Err(e)
  }

  /** An output specification is accepted. */
  predicate OutputSpecConverts(v: JsValue) {
    OutputTensor(v).Ok?
  }

  /** The run worker's constructor completes on `args`. */
  predicate RunArgumentsAccepted(args: seq<JsValue>) {
    && |args| >= 2
    && args[0].Obj?
    && args[1].Obj?
    && FeedsConvert(args[0].obj.props)
    && (forall i :: 0 <= i < |args[1].obj.props| ==> OutputSpecConverts(args[1].obj.props[i].1))
  }

  /** A feed converts: it is an object and a valid JS tensor. */
  predicate FeedConverts(v: JsValue) {
    FeedTensor(v).Ok?
  }

  /** Every feed is an object and a valid JS tensor. */
  predicate FeedsConvert(feeds: seq<(string, JsValue)>) {
    forall i :: 0 <= i < |feeds| ==> FeedConverts(feeds[i].1)
  }

  /** The error of the first entry, in property order, whose value does
      not convert; none when every value converts. */
  function FirstError<T>(entries: seq<(string, JsValue)>, convert: JsValue -> Result<T>): (r: Option<Error>)
    ensures r.None? <==> forall i :: 0 <= i < |entries| ==> convert(entries[i].1).Ok?
  {
    if entries == [] then None
    else if convert(entries[0].1).Err? then Some(convert(entries[0].1).error)
    else FirstError(entries[1..], convert)
  }

  /** The error `FirstError` reports is that of a failing entry before
      which every entry converts. */
  lemma {:induction false} FirstErrorIsFirst<T>(entries: seq<(string, JsValue)>, convert: JsValue -> Result<T>)
    requires FirstError(entries, convert).Some?
    ensures exists i :: 0 <= i < |entries| && convert(entries[i].1) == Err(FirstError(entries, convert).value) &&
                        forall k :: 0 <= k < i ==> convert(entries[k].1).Ok?
  {
    if convert(entries[0].1).Err? {
      assert convert(entries[0].1) == Err(FirstError(entries, convert).value);
    } else {
      FirstErrorIsFirst(entries[1..], convert);
      var i :| 0 <= i < |entries[1..]| && convert(entries[1..][i].1) == Err(FirstError(entries[1..], convert).value) &&
               forall k :: 0 <= k < i ==> convert(entries[1..][k].1).Ok?;
      assert convert(entries[i + 1].1) == Err(FirstError(entries, convert).value);
    }
  }

  /** When every entry before `i` converts and entry `i` does not, its
      error is the first error. */
  lemma {:induction false} FirstErrorAt<T>(entries: seq<(string, JsValue)>, i: nat, convert: JsValue -> Result<T>)
    requires i < |entries|
    requires forall k :: 0 <= k < i ==> convert(entries[k].1).Ok?
    requires convert(entries[i].1).Err?
    ensures FirstError(entries, convert) == Some(convert(entries[i].1).error)
  {
    if i > 0 {
      assert convert(entries[0].1).Ok?;
      assert entries[1..][i - 1] == entries[i];
      FirstErrorAt(entries[1..], i - 1, convert);
    }
  }

  /** What the run worker's constructor throws, in the source's order: the
      feeds message, the first feed that does not convert, a non-object
      output specification, the first pre-allocated output that does not
      convert; none when the arguments are accepted. */
  function RunArgumentsError(args: seq<JsValue>): (r: Option<Error>)
    requires |args| >= 1 && args[0].Obj? ==> |args| >= 2
    ensures r.None? <==> RunArgumentsAccepted(args)
  {
    if |args| < 1 || !args[0].Obj? then Some(JSError(RunFeedsMessage))
    else if FirstError(args[0].obj.props, FeedTensor).Some? then FirstError(args[0].obj.props, FeedTensor)
    else if !args[1].Obj? then Some(TypeMismatch("Object"))
    else FirstError(args[1].obj.props, OutputTensor)
  }

  /** The engine tensors of the feeds, in property order. */
  function FeedValues(feeds: seq<(string, JsValue)>): (values: seq<NativeTensor>)
    requires FeedsConvert(feeds)
  {
    seq(|feeds|, i requires 0 <= i < |feeds| =>
      assert FeedConverts(feeds[i].1);
      FeedTensor(feeds[i].1).value)
  }

  /** The output slots: the converted tensor of each pre-allocated output,
      empty for the others. */
  function OutputSlots(specs: seq<(string, JsValue)>): seq<Option<NativeTensor>>
    requires forall i :: 0 <= i < |specs| ==> OutputSpecConverts(specs[i].1)
  {
    seq(|specs|, i requires 0 <= i < |specs| =>
      assert OutputSpecConverts(specs[i].1);
      OutputTensor(specs[i].1).value)
  }

  /** The objects of the pre-allocated outputs, weakly held. */
  function Preallocated(specs: seq<(string, JsValue)>): seq<Option<JsObject>> {
    seq(|specs|, i requires 0 <= i < |specs| =>
      if IsTensorValue(specs[i].1) then Some(specs[i].1.obj) else None)
  }

  /** The engine call a run with accepted arguments makes. */
  function RunCallFor(s: EngineSession, args: seq<JsValue>): RunCall
    requires RunArgumentsAccepted(args)
  {
    var feeds := args[0].obj.props;
    var specs := args[1].obj.props;
    RunCall(s, Keys(feeds), FeedValues(feeds), Keys(specs), OutputSlots(specs))
  }

  /** What the engine promises of a successful run: one tensor per
      requested output, each well formed. */
  ghost predicate EngineWellBehaved(engine: RunCall -> Result<seq<NativeTensor>>) {
    forall c :: engine(c).Ok? ==>
      && |engine(c).value| == |c.outputNames|
      && (forall i :: 0 <= i < |engine(c).value| ==> WellFormed(engine(c).value[i]))
  }

  /** The result property for one output after the engine has run. */
  function SlotOutput(js: Option<JsObject>, v: NativeTensor, ctor: JsObject,
                      available: set<TypedArrayKind>, live: set<ObjId>): Result<OutputValue>
    requires js.None? ==> WellFormed(v)
  {
    if js.Some? then Ok(if js.value.id in live then SameObject(js.value) else CollectedObject)
    else
      match ToJSTensor(v, available)
      case Ok(a) => Ok(NewTensor(ctor, a))
      case Err(e) => Err(e)
  }

  /** The result property for output specification `spec` when the engine
      returned `out` for it: the caller's object (or `undefined` once it has
      been collected) for a pre-allocated tensor, a new tensor otherwise. */
  function RunOutput(spec: JsValue, out: NativeTensor, ctor: JsObject,
                     available: set<TypedArrayKind>, live: set<ObjId>): Result<OutputValue>
    requires !IsTensorValue(spec) ==> WellFormed(out)
  {
    SlotOutput(if IsTensorValue(spec) then Some(spec.obj) else None, out, ctor, available, live)
  }

  /** After `Execute`, the slot of an accepted output specification holds
      what `RunOutput` reads: the pre-allocated tensor is left in place and
      its object is the one returned; any other slot holds the engine's
      output. */
  lemma SlotAfterRun(spec: JsValue, slot: Option<NativeTensor>, out: NativeTensor, ctor: JsObject,
                     available: set<TypedArrayKind>, live: set<ObjId>)
    requires OutputTensor(spec) == Ok(slot)
    requires !IsTensorValue(spec) ==> WellFormed(out)
    ensures var js := if IsTensorValue(spec) then Some(spec.obj) else None;
            var filled := if slot.Some? then slot.value else out;
            && (js.None? ==> WellFormed(filled))
            && SlotOutput(js, filled, ctor, available, live) == RunOutput(spec, out, ctor, available, live)
  {
  }

  /** The feed loop of the run worker's constructor: each feed's name and
      converted value, in property order, stopping at the first feed that
      does not convert. */
  method ConvertFeeds(feeds: seq<(string, JsValue)>, convert: JsValue -> Result<NativeTensor>)
    returns (names: seq<string>, values: seq<NativeTensor>, err: Option<Error>)
    ensures err.None? <==> forall i :: 0 <= i < |feeds| ==> convert(feeds[i].1).Ok?
    ensures err.None? ==> names == Keys(feeds) && |values| == |feeds|
    ensures err.None? ==> forall i :: 0 <= i < |feeds| ==> values[i] == convert(feeds[i].1).value
    ensures err == FirstError(feeds, convert)
  {
    names, values := [], [];
    for i := 0 to |feeds|
      invariant |names| == i && |values| == i
      invariant forall k :: 0 <= k < i ==> names[k] == feeds[k].0
      invariant forall k :: 0 <= k < i ==> convert(feeds[k].1).Ok? && values[k] == convert(feeds[k].1).value
    {
      names := names + [feeds[i].0];
      var v := convert(feeds[i].1);
      if v.Err? {
        FirstErrorAt(feeds, i, convert);
        return names, values, Some(v.error);
      }
      values := values + [v.value];
    }
    KeysFromIndices(feeds, names);
    err := None;
  }

  lemma KeysFromIndices(props: seq<(string, JsValue)>, names: seq<string>)
    requires |names| == |props|
    requires forall k :: 0 <= k < |props| ==> names[k] == props[k].0
    ensures names == Keys(props)
  {
  }

  /** One feed: `asObject` (which throws on a non-object), then
      `createOrtValueFromJSTensor`. */
  method ConvertFeed(value: JsValue) returns (r: Result<NativeTensor>)
    ensures r == FeedTensor(value)
  {
    if !value.Obj? {
      return Err(TypeMismatch("Object"));
    }
    r := CreateOrtValueFromJSTensor(value.obj);
  }

  /** The output loop of the run worker's constructor: slots sized to the
      output specification, each pre-allocated tensor converted and its
      object held at its own index, the others left empty. */
  method ConvertOutputs(specs: seq<(string, JsValue)>)
    returns (names: seq<string>, slots: seq<Option<NativeTensor>>, objects: seq<Option<JsObject>>, err: Option<Error>)
    ensures err.None? <==> forall i :: 0 <= i < |specs| ==> OutputSpecConverts(specs[i].1)
    ensures err.None? ==> names == Keys(specs) && slots == OutputSlots(specs) && objects == Preallocated(specs)
    ensures err == FirstError(specs, OutputTensor)
  {
    var size := |specs|;
    names := [];
    slots := seq(size, _ => None);
    objects := seq(size, _ => None);
    for index := 0 to size
      invariant |names| == index
      invariant forall k :: 0 <= k < index ==> names[k] == specs[k].0
      invariant |slots| == size && |objects| == size
      invariant forall k :: 0 <= k < index ==>
                  && OutputSpecConverts(specs[k].1)
                  && OutputTensor(specs[k].1) == Ok(slots[k])
                  && objects[k] == Preallocated(specs)[k]
      invariant forall k :: index <= k < size ==> slots[k].None? && objects[k].None?
    {
      names := names + [specs[index].0];
      var value := specs[index].1;
      if IsTensorValue(value) {
        var v := CreateOrtValueFromJSTensor(value.obj);
        if v.Err? {
          FirstErrorAt(specs, index, OutputTensor);
          return names, slots, objects, Some(v.error);
        }
        slots := slots[index := Some(v.value)];
        objects := objects[index := Some(value.obj)];
      }
    }
    err := None;
  }

  /** The worker behind one `run` call. */
  class RunAsyncWorker {
    const host: InferenceSessionHostObject
    var inputNames: seq<string>
    var inputValues: seq<NativeTensor>
    var outputNames: seq<string>
    var outputValues: seq<Option<NativeTensor>>
    var jsOutputValues: seq<Option<JsObject>>

    constructor (host: InferenceSessionHostObject)
      ensures this.host == host
      ensures inputNames == [] && inputValues == [] && outputNames == []
      ensures outputValues == [] && jsOutputValues == []
    {
      this.host := host;
      inputNames := [];
      inputValues := [];
      outputNames := [];
      outputValues := [];
      jsOutputValues := [];
    }

    /** The argument handling of the worker's constructor: every feed is
        converted in property order, the output vectors are sized to the
        output specification, and each pre-allocated output is converted
        and weakly held at its own index. */
    method Init(args: seq<JsValue>) returns (err: Option<Error>)
      requires |args| >= 1 && args[0].Obj? ==> |args| >= 2
      requires inputNames == [] && inputValues == [] && outputNames == []
      modifies this
      ensures (|args| < 1 || !args[0].Obj?) ==> err == Some(JSError(RunFeedsMessage))
      ensures err.None? <==> RunArgumentsAccepted(args)
      ensures err == RunArgumentsError(args)
      ensures err.None? ==>
                && inputNames == Keys(args[0].obj.props)
                && inputValues == FeedValues(args[0].obj.props)
                && outputNames == Keys(args[1].obj.props)
                && outputValues == OutputSlots(args[1].obj.props)
                && jsOutputValues == Preallocated(args[1].obj.props)
    {
      if |args| < 1 || !args[0].Obj? {
        return Some(JSError(RunFeedsMessage));
      }
      var names, values, feedError := ConvertFeeds(args[0].obj.props, FeedTensor);
      inputNames, inputValues := names, values;
      if feedError.Some? {
        return feedError;
      }
      if !args[1].Obj? {
        return Some(TypeMismatch("Object"));
      }
      var outNames, slots, objects, outputError := ConvertOutputs(args[1].obj.props);
      outputNames, outputValues, jsOutputValues := outNames, slots, objects;
      err := outputError;
    }

    /** `Execute`: one engine run; the engine fills the empty output slots
        and leaves the pre-allocated ones (whose buffers it writes in place)
        where they are. A failure yields the engine's message. */
    method Execute(engine: RunCall -> Result<seq<NativeTensor>>) returns (failure: Option<string>)
      requires host.session.Some?
      requires |outputValues| == |outputNames|
      requires EngineWellBehaved(engine)
      modifies this`outputValues
      ensures var result := engine(RunCall(host.session.value, inputNames, inputValues, outputNames, old(outputValues)));
              && (result.Err? ==> failure == Some(result.error.message) && outputValues == old(outputValues))
              && (result.Ok? ==>
                    && failure.None?
                    && |outputValues| == |outputNames|
                    && (forall i :: 0 <= i < |outputNames| ==>
                          outputValues[i] == if old(outputValues)[i].Some? then old(outputValues)[i] else Some(result.value[i])))
    {
      var result := engine(RunCall(host.session.value, inputNames, inputValues, outputNames, outputValues));
      if result.Err? {
        return Some(result.error.message);
      }
      var filled := outputValues;
      outputValues := seq(|filled|, i requires 0 <= i < |filled| =>
        if filled[i].Some? then filled[i] else Some(result.value[i]));
      failure := None;
    }

    /** `OnSuccess`: the result object, one property per output name in
        order; a pre-allocated output is returned as the caller's own object,
        any other is converted into a new JS tensor. */
    method OnSuccess(available: set<TypedArrayKind>, live: set<ObjId>) returns (r: Result<seq<(string, OutputValue)>>)
      requires host.env.tensorConstructor.Some?
      requires |outputValues| == |outputNames| && |jsOutputValues| == |outputNames|
      requires forall i :: 0 <= i < |outputValues| ==>
                 outputValues[i].Some? && (jsOutputValues[i].None? ==> WellFormed(outputValues[i].value))
      ensures var ctor := host.env.tensorConstructor.value;
              && (ctor.id !in live ==> r == Err(TypeMismatch("Object")))
              && (r.Ok? <==>
                    && ctor.id in live
                    && forall i :: 0 <= i < |outputNames| ==>
                         SlotOutput(jsOutputValues[i], outputValues[i].value, ctor, available, live).Ok?)
              && (r.Ok? ==>
                    && |r.value| == |outputNames|
                    && forall i :: 0 <= i < |outputNames| ==>
                         r.value[i] == (outputNames[i], SlotOutput(jsOutputValues[i], outputValues[i].value, ctor, available, live).value))
    {
      var ctorValue := host.env.GetTensorConstructor(live);
      if !ctorValue.Obj? {
        return Err(TypeMismatch("Object"));
      }
      var ctor := ctorValue.obj;
      var resultObject: seq<(string, OutputValue)> := [];
      for i := 0 to |outputValues|
        invariant |resultObject| == i
        invariant forall k :: 0 <= k < i ==>
                    && SlotOutput(jsOutputValues[k], outputValues[k].value, ctor, available, live).Ok?
                    && resultObject[k] == (outputNames[k], SlotOutput(jsOutputValues[k], outputValues[k].value, ctor, available, live).value)
      {
        if jsOutputValues[i].Some? {
          var locked := Lock(jsOutputValues[i].value, live);
          resultObject := resultObject + [(outputNames[i], if locked.Obj? then SameObject(locked.obj) else CollectedObject)];
        } else {
          var tensorObj := CreateJSTensorFromOrtValue(outputValues[i].value, available);
          if tensorObj.Err? {
            return Err(tensorObj.error);
          }
          resultObject := resultObject + [(outputNames[i], NewTensor(ctor, tensorObj.value))];
        }
      }
      r := Ok(resultObject);
    }
  }

  // ---------------------------------------------------------------------
  // The host object

  class InferenceSessionHostObject {
    const env: Env
    /** The loaded engine session, if any. */
    var session: Option<EngineSession>

    constructor (env: Env)
      ensures this.env == env && session == None
    {
      this.env := env;
      session := None;
    }

    /** `getPropertyNames`: the four method names, then the two getter
        names (each group in the table's own iteration order). */
    method GetPropertyNames() returns (names: seq<string>)
      ensures |names| == |Methods| + |Getters|
      ensures multiset(names[..|Methods|]) == multiset{"loadModel", "run", "dispose", "endProfiling"}
      ensures multiset(names[|Methods|..]) == multiset(Getters)
    {
      names := [];
      for i := 0 to |Methods|
        invariant |names| == i
        invariant forall k :: 0 <= k < i ==> names[k] == Methods[k].name
      {
        names := names + [Methods[i].name];
      }
      for i := 0 to |Getters|
        invariant |names| == |Methods| + i
        invariant forall k :: 0 <= k < |Methods| ==> names[k] == Methods[k].name
        invariant forall k :: 0 <= k < i ==> names[|Methods| + k] == Getters[k]
      {
        names := names + [Getters[i]];
      }
      assert names[..|Methods|] == ["loadModel", "run", "dispose", "endProfiling"];
      assert names[|Methods|..] == Getters;
    }

    /** `inputMetadata`: empty without a session, else one entry per input. */
    method InputMetadata() returns (entries: seq<Metadata>)
      ensures session.None? ==> entries == []
      ensures session.Some? ==> Describes(entries, session.value.inputs)
    {
      if session.None? {
        return [];
      }
      entries := MetadataOf(session.value.inputs);
    }

    /** `outputMetadata`: empty without a session, else one entry per output. */
    method OutputMetadata() returns (entries: seq<Metadata>)
      ensures session.None? ==> entries == []
      ensures session.Some? ==> Describes(entries, session.value.outputs)
    {
      if session.None? {
        return [];
      }
      entries := MetadataOf(session.value.outputs);
    }

    /** `get`: a method name yields a host function of the declared arity, a
        getter name the getter's value, any other name `undefined`. */
    method Get(name: string) returns (v: PropertyValue)
      ensures ArityOf(Methods, name).Some? ==> v == HostFunction(MethodInfo(name, ArityOf(Methods, name).value))
      ensures name == "inputMetadata" ==>
                v.MetadataArray? &&
                (if session.None? then v.entries == [] else Describes(v.entries, session.value.inputs))
      ensures name == "outputMetadata" ==>
                v.MetadataArray? &&
                (if session.None? then v.entries == [] else Describes(v.entries, session.value.outputs))
      ensures ArityOf(Methods, name).None? && name !in Getters ==> v == UndefinedProperty
    {
      var arity := ArityOf(Methods, name);
      if arity.Some? {
        return HostFunction(MethodInfo(name, arity.value));
      }
      if name == "inputMetadata" {
        var entries := InputMetadata();
        return MetadataArray(entries);
      }
      if name == "outputMetadata" {
        var entries := OutputMetadata();
        return MetadataArray(entries);
      }
      return UndefinedProperty;
    }

    /** `set`: every property is read-only. */
    method Set(name: string, value: JsValue) returns (e: Error)
      ensures e == JSError(ReadOnlyMessage)
    {
      e := JSError(ReadOnlyMessage);
    }

    /** `dispose`: releases the session. */
    method Dispose()
      modifies this`session
      ensures session == None
    {
      session := None;
    }

    /** `endProfiling`: the profile file name, or the engine's error
        rethrown as a JS error with its message. */
    method EndProfiling() returns (r: Result<string>)
      requires session.Some?
      ensures session.value.profileFile.Ok? ==> r == session.value.profileFile
      ensures session.value.profileFile.Err? ==> r == Err(JSError(session.value.profileFile.error.message))
    {
      match session.value.profileFile
      case Ok(file) => r := Ok(file);
      case Err(e) => r := Err(JSError(e.message));
    }

    /** `loadModel`: throws on a bad source; otherwise the promise settles
        once the engine has tried to create the session (never, without a
        call invoker). Only a successful load replaces the session. */
    method LoadModel(args: seq<JsValue>, loader: LoaderCall -> Result<EngineSession>) returns (p: Settlement<()>)
      requires ParseModelSource(args).Ok? && env.jsInvoker.Some? ==> env.ortEnv.Some?
      modifies this`session
      ensures ParseModelSource(args).Err? ==> p == Thrown(ParseModelSource(args).error) && session == old(session)
      ensures ParseModelSource(args).Ok? && env.jsInvoker.None? ==> p == Pending && session == old(session)
      ensures ParseModelSource(args).Ok? && env.jsInvoker.Some? ==>
                var created := loader(LoaderFor(env.ortEnv.value, ParseModelSource(args).value));
                && (created.Ok? ==> session == Some(created.value) && p == Resolved(()))
                && (created.Err? ==> session == old(session) && p == Rejected(created.error.message))
    {
      var src := ParseModelSource(args);
      if src.Err? {
        return Thrown(src.error);
      }
      if env.jsInvoker.None? {
        return Pending;
      }
      var created := loader(LoaderFor(env.GetOrtEnv(), src.value));
      if created.Err? {
        return Rejected(created.error.message);
      }
      session := Some(created.value);
      p := Resolved(());
    }

    /** `run`: throws on bad arguments; otherwise the promise is rejected
        with the engine's message, or resolved with one property per
        requested output, in order, where a pre-allocated output is the
        caller's own object and every other output a new tensor of the
        engine's result. */
    method Run(args: seq<JsValue>, engine: RunCall -> Result<seq<NativeTensor>>,
               available: set<TypedArrayKind>, live: set<ObjId>)
      returns (p: Settlement<seq<(string, OutputValue)>>)
      requires |args| >= 1 && args[0].Obj? ==> |args| >= 2
      requires RunArgumentsAccepted(args) && env.jsInvoker.Some? ==>
                 session.Some? && env.tensorConstructor.Some?
      requires EngineWellBehaved(engine)
      ensures (|args| < 1 || !args[0].Obj?) ==> p == Thrown(JSError(RunFeedsMessage))
      ensures p.Thrown? <==> !RunArgumentsAccepted(args)
      ensures !RunArgumentsAccepted(args) ==> p == Thrown(RunArgumentsError(args).value)
      ensures RunArgumentsAccepted(args) && env.jsInvoker.None? ==> p == Pending
      ensures RunArgumentsAccepted(args) && env.jsInvoker.Some? ==>
                var specs := args[1].obj.props;
                var result := engine(RunCallFor(session.value, args));
                var ctor := env.tensorConstructor.value;
                && (result.Err? ==> p == Rejected(result.error.message))
                && (result.Ok? ==>
                      && |result.value| == |specs|
                      && (ctor.id !in live ==> p == ResultThrew(TypeMismatch("Object")))
                      && (p.Resolved? || p.ResultThrew?)
                      && (p.Resolved? <==>
                            && ctor.id in live
                            && forall i :: 0 <= i < |specs| ==>
                                 RunOutput(specs[i].1, result.value[i], ctor, available, live).Ok?)
                      && (p.Resolved? ==>
                            && |p.value| == |specs|
                            && forall i :: 0 <= i < |specs| ==>
                                 p.value[i] == (specs[i].0, RunOutput(specs[i].1, result.value[i], ctor, available, live).value)))
    {
      var worker := new RunAsyncWorker(this);
      var err := worker.Init(args);
      if err.Some? {
        return Thrown(err.value);
      }
      if env.jsInvoker.None? {
        return Pending;
      }
      ghost var specs := args[1].obj.props;
      ghost var slots := worker.outputValues;
      var failure := worker.Execute(engine);
      if failure.Some? {
        return Rejected(failure.value);
      }
      ghost var result := engine(RunCallFor(session.value, args)).value;
      forall i | 0 <= i < |specs|
        ensures (worker.jsOutputValues[i].None? ==> WellFormed(worker.outputValues[i].value))
        ensures SlotOutput(worker.jsOutputValues[i], worker.outputValues[i].value, env.tensorConstructor.value, available, live)
                == RunOutput(specs[i].1, result[i], env.tensorConstructor.value, available, live)
      {
        assert OutputSpecConverts(specs[i].1);
        SlotAfterRun(specs[i].1, slots[i], result[i], env.tensorConstructor.value, available, live);
      }
      var out := worker.OnSuccess(available, live);
      if out.Err? {
        return ResultThrew(out.error);
      }
      p := Resolved(out.value);
    }
  }
}
