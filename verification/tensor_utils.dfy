/** Conversion between a duck-typed JS tensor `{cpuData, dims, type}` and an
    engine tensor (cpp/TensorUtils.cpp), and the element count of a shape. */
module TensorUtils {
  import opened Jsi
  import opened Ort
  import opened TensorTypes

  /** `size_t` arithmetic wraps modulo 2^64. */
  const SizeMod: int := 0x1_0000_0000_0000_0000

  // ---------------------------------------------------------------------
  // Element count

  /** The product of the dimensions of a shape (1 for the empty shape). */
  function Product(shape: seq<int>): int {
    if shape == [] then 1 else Product(shape[..|shape| - 1]) * shape[|shape| - 1]
  }

  lemma {:induction false} ProductNonNegative(shape: seq<int>)
    requires forall i :: 0 <= i < |shape| ==> shape[i] >= 0
    ensures Product(shape) >= 0
  {
    if shape != [] {
      ProductNonNegative(shape[..|shape| - 1]);
    }
  }

  /** Reducing both factors modulo 2^64 before multiplying does not change
      the product modulo 2^64. */
  lemma ModMul(a: int, b: int)
    ensures (a % SizeMod) * (b % SizeMod) % SizeMod == (a * b) % SizeMod
  {
    var qa, ra := a / SizeMod, a % SizeMod;
    var qb, rb := b / SizeMod, b % SizeMod;
    assert a * b == (qa * qb * SizeMod + qa * rb + ra * qb) * SizeMod + ra * rb;
    ModShift(ra * rb, qa * qb * SizeMod + qa * rb + ra * qb);
  }

  lemma ModShift(x: int, k: int)
    ensures (k * SizeMod + x) % SizeMod == x % SizeMod
  {
  }

  /** `getElementCount`: the product of the dimensions in `size_t`
      arithmetic, so modulo 2^64 (a negative dimension is converted to
      `size_t` first, which is the same residue). */
  method GetElementCount(shape: seq<int>) returns (count: nat)
    ensures count == Product(shape) % SizeMod
    ensures shape == [] ==> count == 1
  {
    count := 1;
    for i := 0 to |shape|
      invariant count == Product(shape[..i]) % SizeMod
    {
      assert shape[..i + 1][..i] == shape[..i];
      ModMul(Product(shape[..i]), shape[i]);
      count := (count * (shape[i] % SizeMod)) % SizeMod;
    }
    assert shape[..|shape|] == shape;
  }

  /** The element count is exact when the shape is non-negative and the
      product fits in `size_t`. */
  lemma ElementCountExact(shape: seq<int>)
    requires forall i :: 0 <= i < |shape| ==> shape[i] >= 0
    requires Product(shape) < SizeMod
    ensures Product(shape) % SizeMod == Product(shape)
  {
    ProductNonNegative(shape);
  }

  // ---------------------------------------------------------------------
  // JS tensor to engine tensor

  const InvalidTensorMessage := "Invalid tensor object: missing cpuData, dims, or type properties"
  const DimsNotArrayMessage := "Tensor dims must be array"
  const TypeNotStringMessage := "Tensor type must be string"
  const DataNotStringArrayMessage := "Tensor data must be an array of strings"
  const DataNotTypedArrayMessage := "Tensor data must be a TypedArray"

  /** `isValidJSTensor`: the object has the three members of a tensor. */
  predicate IsValidJSTensor(o: JsObject) {
    HasProperty(o, "cpuData") && HasProperty(o, "dims") && HasProperty(o, "type")
  }

  /** The shape kept from a JS `dims` array: its numeric entries, in order. */
  function NumericEntries(dims: seq<JsValue>): (shape: seq<int>)
    ensures |shape| <= |dims|
  {
    if dims == [] then []
    else
      var last := dims[|dims| - 1];
      NumericEntries(dims[..|dims| - 1]) + (if last.Number? then [last.n] else [])
  }

  /** Every kept entry is one of the numeric entries of `dims`. */
  lemma {:induction false} NumericEntriesFromDims(dims: seq<JsValue>)
    ensures forall x :: x in NumericEntries(dims) ==> Number(x) in dims
  {
    if dims != [] {
      NumericEntriesFromDims(dims[..|dims| - 1]);
      forall x | x in NumericEntries(dims) ensures Number(x) in dims {
        if x in NumericEntries(dims[..|dims| - 1]) {
          assert Number(x) in dims[..|dims| - 1];
        }
      }
    }
  }

  /** When every entry is a number the shape is `dims` itself, entry by entry. */
  lemma {:induction false} NumericEntriesAllNumbers(dims: seq<JsValue>)
    requires forall i :: 0 <= i < |dims| ==> dims[i].Number?
    ensures |NumericEntries(dims)| == |dims|
    ensures forall i :: 0 <= i < |dims| ==> NumericEntries(dims)[i] == dims[i].n
  {
    if dims != [] {
      NumericEntriesAllNumbers(dims[..|dims| - 1]);
    }
  }

  /** The loop that pushes the numeric entries of `dims` into `shape`. */
  method CollectShape(dims: seq<JsValue>) returns (shape: seq<int>)
    ensures shape == NumericEntries(dims)
  {
    shape := [];
    for i := 0 to |dims|
      invariant shape == NumericEntries(dims[..i])
    {
      assert dims[..i + 1][..i] == dims[..i];
      if dims[i].Number? {
        shape := shape + [dims[i].n];
      }
    }
    assert dims[..|dims|] == dims;
  }

  /** The C string `strdup(str.c_str())` copies out of a string: the
      characters before the first NUL, all of them when there is none. */
  function CString(s: string): (r: string)
    ensures |r| <= |s| && r == s[..|r|]
    ensures '\0' !in r
    ensures |r| < |s| ==> s[|r|] == '\0'
    ensures '\0' !in s ==> r == s
  {
    if s == [] || s[0] == '\0' then [] else [s[0]] + CString(s[1..])
  }

  /** The strings of a JS array, each element read with `asString` and
      copied as a C string. */
  function StringsOf(elems: seq<JsValue>): (r: Result<seq<string>>)
    ensures r.Ok? <==> forall i :: 0 <= i < |elems| ==> elems[i].Str?
    ensures r.Ok? ==> |r.value| == |elems| && forall i :: 0 <= i < |elems| ==> r.value[i] == CString(elems[i].s)
    ensures r.Err? ==> r.error == TypeMismatch("String")
  {
    if elems == [] then Ok([])
    else if !elems[0].Str? then Err(TypeMismatch("String"))
    else
      match StringsOf(elems[1..])
      case Err(e) => Err(e)
      case Ok(rest) => Ok([CString(elems[0].s)] + rest)
  }

  /** The loop that copies one string per JS element into a native array. */
  method CopyStrings(elems: seq<JsValue>) returns (r: Result<seq<string>>)
    ensures r == StringsOf(elems)
  {
    var arrayData := new string[|elems|];
    for i := 0 to |elems|
      invariant forall k :: 0 <= k < i ==> elems[k].Str? && arrayData[k] == CString(elems[k].s)
    {
      if !elems[i].Str? {
        return Err(TypeMismatch("String"));
      }
      arrayData[i] := CString(elems[i].s);
    }
    assert arrayData[..] == StringsOf(elems).value;
    r := Ok(arrayData[..]);
  }

  /** `isTypedArray`, then the bytes of the typed array's buffer: `None`
      when the object is not a typed array; an error when its `buffer`
      exists but is not an object (`asObject` throws). */
  function TypedArrayBuffer(o: JsObject): (r: Result<Option<seq<byte>>>)
    ensures !HasProperty(o, "buffer") ==> r == Ok(None)
    ensures r.Ok? && r.value.Some? ==>
              GetProperty(o, "buffer").Obj? && GetProperty(o, "buffer").obj.kind == ArrayBufferObject(r.value.value)
    ensures HasProperty(o, "buffer") && !GetProperty(o, "buffer").Obj? ==> r == Err(TypeMismatch("Object"))
    ensures HasProperty(o, "buffer") && GetProperty(o, "buffer").Obj? && GetProperty(o, "buffer").obj.kind.ArrayBufferObject? ==>
              r == Ok(Some(GetProperty(o, "buffer").obj.kind.bytes))
    ensures HasProperty(o, "buffer") && GetProperty(o, "buffer").Obj? && !GetProperty(o, "buffer").obj.kind.ArrayBufferObject? ==>
              r == Ok(None)
  {
    if !HasProperty(o, "buffer") then Ok(None)
    else
      var buffer := GetProperty(o, "buffer");
      if !buffer.Obj? then Err(TypeMismatch("Object"))
      else if !buffer.obj.kind.ArrayBufferObject? then Ok(None)
      else Ok(Some(buffer.obj.kind.bytes))
  }

  /** `createOrtValueFromJSTensor`: the checks in the source's order, then
      the engine tensor over the JS data (the typed array's buffer is
      aliased; strings are copied). The byte length handed over is
      getElementCount(shape) * getElementSize(type) in `size_t`. */
  function FromJSTensor(o: JsObject): Result<NativeTensor>
  {
    if !IsValidJSTensor(o) then Err(JSError(InvalidTensorMessage))
    else
      var data, dims, typ := GetProperty(o, "cpuData"), GetProperty(o, "dims"), GetProperty(o, "type");
      if !IsArrayValue(dims) then Err(JSError(DimsNotArrayMessage))
      else if !typ.Str? then Err(JSError(TypeNotStringMessage))
      else
        match StringToDataType(typ.s)
        case Err(e) => Err(e)
        case Ok(t) =>
          if !data.Obj? then Err(TypeMismatch("Object"))
          else
            var shape := NumericEntries(dims.obj.kind.elements);
            var byteLength := (Product(shape) % SizeMod) * GetElementSize(t).value % SizeMod;
            if t == STRING then
              if !data.obj.kind.ArrayObject? then Err(JSError(DataNotStringArrayMessage))
              else
                match StringsOf(data.obj.kind.elements)
                case Err(e) => Err(e)
                case Ok(strings) => Ok(NativeTensor(t, shape, byteLength, Strings(strings)))
            else
              match TypedArrayBuffer(data.obj)
              case Err(e) => Err(e)
              case Ok(None) => Err(JSError(DataNotTypedArrayMessage))
              case Ok(Some(bytes)) => Ok(NativeTensor(t, shape, byteLength, Bytes(bytes)))
  }

  /** The outcome of the conversion, check by check in the source's order:
      an object that is no tensor, `dims` not an array, `type` not a string,
      an unknown type name; and on success the element type named by `type`,
      the numeric entries of `dims` as the shape, and the byte length
      `elementCount * elementSize` in `size_t` arithmetic. */
  lemma FromJSTensorOutcome(o: JsObject)
    ensures !IsValidJSTensor(o) ==> FromJSTensor(o) == Err(JSError(InvalidTensorMessage))
    ensures IsValidJSTensor(o) && !IsArrayValue(GetProperty(o, "dims")) ==> FromJSTensor(o) == Err(JSError(DimsNotArrayMessage))
    ensures IsValidJSTensor(o) && IsArrayValue(GetProperty(o, "dims")) && !GetProperty(o, "type").Str? ==>
              FromJSTensor(o) == Err(JSError(TypeNotStringMessage))
    ensures (IsValidJSTensor(o) && IsArrayValue(GetProperty(o, "dims")) && GetProperty(o, "type").Str? &&
             StringToDataType(GetProperty(o, "type").s).Err?) ==> FromJSTensor(o) == Err(StringToDataType(GetProperty(o, "type").s).error)
    ensures FromJSTensor(o).Ok? ==>
              && IsValidJSTensor(o)
              && IsArrayValue(GetProperty(o, "dims"))
              && GetProperty(o, "type").Str?
              && StringToDataType(GetProperty(o, "type").s) == Ok(FromJSTensor(o).value.elementType)
              && FromJSTensor(o).value.shape == NumericEntries(GetProperty(o, "dims").obj.kind.elements)
              && FromJSTensor(o).value.byteLength == (Product(FromJSTensor(o).value.shape) % SizeMod) * GetElementSize(FromJSTensor(o).value.elementType).value % SizeMod
  {
  }

  /** What the tensor's data becomes: for the string type, one C string
      copied per JS element at the same index; otherwise the typed array's bytes,
      shared rather than copied. */
  lemma FromJSTensorData(o: JsObject)
    requires FromJSTensor(o).Ok?
    ensures var t := FromJSTensor(o).value;
            var data := GetProperty(o, "cpuData");
            && data.Obj?
            && (t.elementType == STRING ==>
                  && data.obj.kind.ArrayObject?
                  && t.data.Strings?
                  && |t.data.strings| == |data.obj.kind.elements|
                  && forall i :: 0 <= i < |t.data.strings| ==>
                       data.obj.kind.elements[i].Str? && t.data.strings[i] == CString(data.obj.kind.elements[i].s))
            && (t.elementType != STRING ==>
                  && t.data.Bytes?
                  && GetProperty(data.obj, "buffer").Obj?
                  && GetProperty(data.obj, "buffer").obj.kind == ArrayBufferObject(t.data.bytes))
  {
  }

  /** The data checks that follow the type lookup, in the source's order. */
  lemma FromJSTensorDataErrors(o: JsObject)
    requires IsValidJSTensor(o) && IsArrayValue(GetProperty(o, "dims")) && GetProperty(o, "type").Str?
    requires StringToDataType(GetProperty(o, "type").s).Ok?
    ensures var data := GetProperty(o, "cpuData");
            var t := StringToDataType(GetProperty(o, "type").s).value;
            && (!data.Obj? ==> FromJSTensor(o) == Err(TypeMismatch("Object")))
            && (data.Obj? && t == STRING && !data.obj.kind.ArrayObject? ==>
                  FromJSTensor(o) == Err(JSError(DataNotStringArrayMessage)))
            && (data.Obj? && t == STRING && data.obj.kind.ArrayObject? && StringsOf(data.obj.kind.elements).Err? ==>
                  FromJSTensor(o) == Err(TypeMismatch("String")))
            && (data.Obj? && t != STRING && TypedArrayBuffer(data.obj).Err? ==>
                  FromJSTensor(o) == Err(TypeMismatch("Object")))
            && (data.Obj? && t != STRING && TypedArrayBuffer(data.obj) == Ok(None) ==>
                  FromJSTensor(o) == Err(JSError(DataNotTypedArrayMessage)))
  {
  }

  /** Once the tensor checks and the type lookup pass, the conversion
      succeeds exactly when the data is usable: an array of strings for the
      string type, a typed array over an ArrayBuffer for every other type. */
  lemma FromJSTensorSucceeds(o: JsObject)
    requires IsValidJSTensor(o) && IsArrayValue(GetProperty(o, "dims")) && GetProperty(o, "type").Str?
    requires StringToDataType(GetProperty(o, "type").s).Ok?
    ensures var data := GetProperty(o, "cpuData");
            var t := StringToDataType(GetProperty(o, "type").s).value;
            && (FromJSTensor(o).Ok? ==> data.Obj?)
            && (data.Obj? && t == STRING ==>
                  (FromJSTensor(o).Ok? <==> data.obj.kind.ArrayObject? && StringsOf(data.obj.kind.elements).Ok?))
            && (data.Obj? && t != STRING ==>
                  (FromJSTensor(o).Ok? <==> TypedArrayBuffer(data.obj).Ok? && TypedArrayBuffer(data.obj).value.Some?))
  {
  }

  /** When the shape is non-negative and its byte size fits in `size_t`, the
      byte length handed to the engine is exactly elementCount * elementSize. */
  lemma FromJSTensorByteLength(o: JsObject, t: NativeTensor)
    requires FromJSTensor(o) == Ok(t)
    requires forall i :: 0 <= i < |t.shape| ==> t.shape[i] >= 0
    ensures GetElementSize(t.elementType).Ok?
    ensures Product(t.shape) * GetElementSize(t.elementType).value < SizeMod ==>
              t.byteLength == Product(t.shape) * GetElementSize(t.elementType).value
  {
    FromJSTensorOutcome(o);
    ProductNonNegative(t.shape);
    var size := GetElementSize(t.elementType).value;
    if Product(t.shape) * size < SizeMod {
      ExactModProduct(Product(t.shape), size);
    }
  }

  lemma ExactModProduct(p: nat, size: nat)
    requires size >= 1 && p * size < SizeMod
    ensures (p % SizeMod) * size % SizeMod == p * size
  {
    assert p <= p * size;
  }

  /** `createOrtValueFromJSTensor` as the source runs it: the checks, the
      string copy loop, the shape loop and the element count loop. */
  method CreateOrtValueFromJSTensor(o: JsObject) returns (r: Result<NativeTensor>)
    ensures r == FromJSTensor(o)
  {
    if !IsValidJSTensor(o) {
      return Err(JSError(InvalidTensorMessage));
    }
    var dataProperty := GetProperty(o, "cpuData");
    var dimsProperty := GetProperty(o, "dims");
    var typeProperty := GetProperty(o, "type");
    if !IsArrayValue(dimsProperty) {
      return Err(JSError(DimsNotArrayMessage));
    }
    if !typeProperty.Str? {
      return Err(JSError(TypeNotStringMessage));
    }
    var typeResult := StringToDataType(typeProperty.s);
    if typeResult.Err? {
      return Err(typeResult.error);
    }
    var t := typeResult.value;
    if !dataProperty.Obj? {
      return Err(TypeMismatch("Object"));
    }
    var data: TensorData;
    if t == STRING {
      if !dataProperty.obj.kind.ArrayObject? {
        return Err(JSError(DataNotStringArrayMessage));
      }
      var strings := CopyStrings(dataProperty.obj.kind.elements);
      if strings.Err? {
        return Err(strings.error);
      }
      data := Strings(strings.value);
    } else {
      var buffer := TypedArrayBuffer(dataProperty.obj);
      if buffer.Err? {
        return Err(buffer.error);
      }
      if buffer.value.None? {
        return Err(JSError(DataNotTypedArrayMessage));
      }
      data := Bytes(buffer.value.value);
    }
    var shape := CollectShape(dimsProperty.obj.kind.elements);
    var count := GetElementCount(shape);
    var size := GetElementSize(t).value;
    r := Ok(NativeTensor(t, shape, count * size % SizeMod, data));
  }

  // ---------------------------------------------------------------------
  // Engine tensor to JS tensor

  /** The data argument of `new Tensor(type, data, dims)`. */
  datatype JsTensorData =
    | TypedArrayData(kind: TypedArrayKind, length: nat, bytes: seq<byte>)
    | StringArrayData(strings: seq<string>)

  /** The arguments `createJSTensorFromOrtValue` passes to the JS tensor
      constructor: type name, data, dims. */
  datatype TensorArgs = TensorArgs(typeName: string, data: JsTensorData, dims: seq<int>)

  /** What the engine guarantees of a tensor it allocated: a non-negative
      shape and a buffer large enough for it. */
  predicate WellFormed(v: NativeTensor) {
    && (forall i :: 0 <= i < |v.shape| ==> v.shape[i] >= 0)
    && (v.data.Strings? <==> v.elementType == STRING)
    && (v.data.Strings? ==> |v.data.strings| == Product(v.shape))
    && (v.data.Bytes? && GetElementSize(v.elementType).Ok? ==>
          |v.data.bytes| >= Product(v.shape) * GetElementSize(v.elementType).value)
  }

  function ConstructorNotFound(k: TypedArrayKind): Error {
    JSError("TypedArray constructor not found: " + KindName(k))
  }

  /** `createJSTensorFromOrtValue` as written: the type name, the dims, then
      a fresh typed array of elementCount elements into whose buffer
      elementCount * elementSize bytes are copied. `available` is the set of
      constructors the JS global object provides. For the string type the
      table names `Array`, which has no `buffer`, so reading it fails. */
  function ToJSTensorAsWritten(v: NativeTensor, available: set<TypedArrayKind>): (r: Result<TensorArgs>)
    requires WellFormed(v)
    ensures r.Ok? <==>
              && DataTypeToString(v.elementType).Ok?
              && TypedArrayKindOf(v.elementType).value in available
              && v.elementType != STRING
    ensures DataTypeToString(v.elementType).Err? ==> r == Err(DataTypeToString(v.elementType).error)
    ensures r.Ok? ==>
              && r.value.typeName == DataTypeToString(v.elementType).value
              && r.value.dims == v.shape
              && r.value.data.TypedArrayData?
              && r.value.data.kind == TypedArrayKindOf(v.elementType).value
              && r.value.data.length == Product(v.shape)
              && |r.value.data.bytes| == Product(v.shape) * GetElementSize(v.elementType).value
              && r.value.data.bytes == v.data.bytes[..|r.value.data.bytes|]
  {
    match DataTypeToString(v.elementType)
    case Err(e) => Err(e)
    case Ok(name) =>
      var kind := TypedArrayKindOf(v.elementType).value;
      if kind !in available then Err(ConstructorNotFound(kind))
      else if kind == Array then Err(TypeMismatch("Object"))
      else
        ProductNonNegative(v.shape);
        var count: nat := Product(v.shape);
        var dataSize := count * GetElementSize(v.elementType).value;
        Ok(TensorArgs(name, TypedArrayData(kind, count, v.data.bytes[..dataSize]), v.shape))
  }

  /** As written, no string tensor can be converted back to JS. */
  lemma StringTensorsFailAsWritten(v: NativeTensor, available: set<TypedArrayKind>)
    requires WellFormed(v) && v.elementType == STRING
    ensures ToJSTensorAsWritten(v, available).Err?
  {
  }

  /** `createJSTensorFromOrtValue` with string tensors converted to an
      `Array` of their strings, as the table entry for the string type
      intends; every other case is as written. */
  function ToJSTensor(v: NativeTensor, available: set<TypedArrayKind>): (r: Result<TensorArgs>)
    requires WellFormed(v)
    ensures r.Ok? <==> DataTypeToString(v.elementType).Ok? && TypedArrayKindOf(v.elementType).value in available
    ensures r.Err? && DataTypeToString(v.elementType).Err? ==> r.error == DataTypeToString(v.elementType).error
    ensures r.Ok? ==>
              && r.value.typeName == DataTypeToString(v.elementType).value
              && r.value.dims == v.shape
    ensures r.Ok? && v.elementType != STRING ==>
              && r.value.data.TypedArrayData?
              && r.value.data.kind == TypedArrayKindOf(v.elementType).value
              && r.value.data.kind != Array
              && r.value.data.length == Product(v.shape)
              && |r.value.data.bytes| == r.value.data.length * BytesPerElement(r.value.data.kind)
              && |r.value.data.bytes| == Product(v.shape) * GetElementSize(v.elementType).value
              && r.value.data.bytes == v.data.bytes[..|r.value.data.bytes|]
    ensures r.Ok? && v.elementType == STRING ==> r.value.data == StringArrayData(v.data.strings)
  {
    if v.elementType == STRING && Array in available then
      Ok(TensorArgs(DataTypeNames[STRING], StringArrayData(v.data.strings), v.shape))
    else
      TypedArrayMatchesElementSize(v.elementType);
      ToJSTensorAsWritten(v, available)
  }

  /** `createJSTensorFromOrtValue` as the source runs it (with the string
      case corrected): the dims loop and the byte copy into a fresh buffer. */
  method CreateJSTensorFromOrtValue(v: NativeTensor, available: set<TypedArrayKind>) returns (r: Result<TensorArgs>)
    requires WellFormed(v)
    ensures r == ToJSTensor(v, available)
  {
    var typeStr := DataTypeToString(v.elementType);
    if typeStr.Err? {
      return Err(typeStr.error);
    }
    var dimsArray := new int[|v.shape|];
    for j := 0 to |v.shape|
      invariant dimsArray[..j] == v.shape[..j]
    {
      dimsArray[j] := v.shape[j];
    }
    assert dimsArray[..] == v.shape;
    ProductNonNegative(v.shape);
    var elementCount: nat := Product(v.shape);
    var elementSize := GetElementSize(v.elementType).value;
    var dataSize := elementCount * elementSize;
    var kind := TypedArrayKindOf(v.elementType).value;
    if kind !in available {
      return Err(ConstructorNotFound(kind));
    }
    if kind == Array {
      var strings := CopyIntoFreshArray(v.data.strings);
      return Ok(TensorArgs(typeStr.value, StringArrayData(strings), dimsArray[..]));
    }
    TypedArrayMatchesElementSize(v.elementType);
    var bytes := CopyIntoFreshBuffer(v.data.bytes, dataSize);
    r := Ok(TensorArgs(typeStr.value, TypedArrayData(kind, elementCount, bytes), dimsArray[..]));
  }

  /** A fresh JS `Array` filled element by element with `src`. */
  method CopyIntoFreshArray(src: seq<string>) returns (strings: seq<string>)
    ensures strings == src
  {
    var arr := new string[|src|];
    for k := 0 to |src|
      invariant arr[..k] == src[..k]
    {
      arr[k] := src[k];
    }
    strings := arr[..];
  }

  /** A fresh, zero-filled buffer of `size` bytes into which the first
      `size` bytes of `src` are copied (`memcpy` into a new typed array). */
  method CopyIntoFreshBuffer(src: seq<byte>, size: nat) returns (bytes: seq<byte>)
    requires size <= |src|
    ensures bytes == src[..size]
  {
    var buffer := new byte[size];
    for k := 0 to size
      invariant buffer[..k] == src[..k]
    {
      buffer[k] := src[k];
    }
    bytes := buffer[..];
  }

  // ---------------------------------------------------------------------
  // Round trip

  /** A JS tensor with a known type name, numeric dims, and data holding
      exactly one element per entry of the shape (an array of strings for
      the string type, a typed array over an ArrayBuffer of the right byte
      size otherwise). */
  predicate WellSizedJSTensor(o: JsObject, typeName: string, dims: seq<JsValue>, data: JsValue)
  {
    && IsValidJSTensor(o)
    && GetProperty(o, "type") == Str(typeName) && StringToDataType(typeName).Ok?
    && IsArrayValue(GetProperty(o, "dims")) && GetProperty(o, "dims").obj.kind.elements == dims
    && (forall i :: 0 <= i < |dims| ==> dims[i].Number?)
    && GetProperty(o, "cpuData") == data && data.Obj?
    && (StringToDataType(typeName).value == STRING ==>
          && data.obj.kind.ArrayObject?
          && (forall i :: 0 <= i < |data.obj.kind.elements| ==> data.obj.kind.elements[i].Str?)
          && |data.obj.kind.elements| == Product(NumericEntries(dims)))
    && (StringToDataType(typeName).value != STRING ==>
          && HasProperty(data.obj, "buffer")
          && GetProperty(data.obj, "buffer").Obj?
          && GetProperty(data.obj, "buffer").obj.kind.ArrayBufferObject?
          && GetElementSize(StringToDataType(typeName).value).Ok?
          && |GetProperty(data.obj, "buffer").obj.kind.bytes| ==
               Product(NumericEntries(dims)) * GetElementSize(StringToDataType(typeName).value).value)
  }

  /** A well-sized JS tensor is accepted: its engine tensor has the named
      element type, the dims as its shape, and the JS data. */
  lemma WellSizedAccepted(o: JsObject, typeName: string, dims: seq<JsValue>, data: JsValue)
    requires WellSizedJSTensor(o, typeName, dims, data)
    ensures FromJSTensor(o).Ok?
    ensures var t := FromJSTensor(o).value;
            && t.elementType == StringToDataType(typeName).value
            && t.shape == NumericEntries(dims)
            && (t.elementType != STRING ==> t.data == Bytes(GetProperty(data.obj, "buffer").obj.kind.bytes))
            && (t.elementType == STRING ==>
                  && t.data.Strings?
                  && |t.data.strings| == |data.obj.kind.elements|
                  && forall i :: 0 <= i < |t.data.strings| ==> t.data.strings[i] == CString(data.obj.kind.elements[i].s))
  {
    FromJSTensorSucceeds(o);
    FromJSTensorOutcome(o);
    FromJSTensorData(o);
  }

  /** The three tensor properties of an object that holds exactly them. */
  lemma TensorProperties(o: JsObject, data: JsValue, dims: JsValue, typ: JsValue)
    requires o.props == [("cpuData", data), ("dims", dims), ("type", typ)]
    ensures IsValidJSTensor(o)
    ensures GetProperty(o, "cpuData") == data && GetProperty(o, "dims") == dims && GetProperty(o, "type") == typ
  {
    assert o.props[0].0 == "cpuData" && o.props[1].0 == "dims" && o.props[2].0 == "type";
  }

  /** A typed array object whose only property is its `buffer`. */
  lemma BufferProperty(o: JsObject, buffer: JsObject)
    requires o.props == [("buffer", Obj(buffer))]
    ensures HasProperty(o, "buffer") && GetProperty(o, "buffer") == Obj(buffer)
  {
    assert o.props[0].0 == "buffer";
  }

  /** A one-dimensional `uint8` tensor whose dims hold the length of its
      ArrayBuffer is well sized, so the premises of the round trip can be
      met. */
  lemma Uint8TensorWellSized(o: JsObject, data: JsObject, buffer: JsObject, dims: JsObject)
    requires o.props == [("cpuData", Obj(data)), ("dims", Obj(dims)), ("type", Str("uint8"))]
    requires data.props == [("buffer", Obj(buffer))]
    requires buffer.kind.ArrayBufferObject?
    requires dims.kind == ArrayObject([Number(|buffer.kind.bytes|)])
    ensures WellSizedJSTensor(o, "uint8", dims.kind.elements, Obj(data))
    ensures FromJSTensor(o).Ok?
  {
    TensorProperties(o, Obj(data), Obj(dims), Str("uint8"));
    BufferProperty(data, buffer);
    assert StringToDataType("uint8") == Ok(UINT8) by {
      assert DataTypeNames[UINT8] == "uint8";
      NameRoundTrip(UINT8);
    }
    assert NumericEntries(dims.kind.elements) == [|buffer.kind.bytes|] by {
      NumericEntriesAllNumbers(dims.kind.elements);
    }
    WellSizedAccepted(o, "uint8", dims.kind.elements, Obj(data));
  }

  /** A well-sized JS tensor whose dims are non-negative and whose typed
      array constructor is available is accepted by the conversion and
      survives the trip to the engine and back: same type name, same dims,
      same bytes; a string comes back as the C string copied from it, which
      is the string itself when it holds no NUL. */
  lemma RoundTrip(o: JsObject, typeName: string, dims: seq<JsValue>, data: JsValue, available: set<TypedArrayKind>)
    requires WellSizedJSTensor(o, typeName, dims, data)
    requires forall i :: 0 <= i < |dims| ==> dims[i].n >= 0
    requires var t := StringToDataType(typeName).value;
             TypedArrayKindOf(t).Ok? && TypedArrayKindOf(t).value in available
    ensures FromJSTensor(o).Ok?
    ensures WellFormed(FromJSTensor(o).value)
    ensures var back := ToJSTensor(FromJSTensor(o).value, available);
            && back.Ok?
            && back.value.typeName == typeName
            && |back.value.dims| == |dims|
            && (forall i :: 0 <= i < |dims| ==> back.value.dims[i] == dims[i].n)
            && (StringToDataType(typeName).value != STRING ==>
                  && back.value.data.TypedArrayData?
                  && back.value.data.bytes == GetProperty(data.obj, "buffer").obj.kind.bytes)
            && (StringToDataType(typeName).value == STRING ==>
                  && back.value.data.StringArrayData?
                  && |back.value.data.strings| == |data.obj.kind.elements|
                  && forall i :: 0 <= i < |back.value.data.strings| ==>
                       && back.value.data.strings[i] == CString(data.obj.kind.elements[i].s)
                       && ('\0' !in data.obj.kind.elements[i].s ==> data.obj.kind.elements[i] == Str(back.value.data.strings[i])))
  {
    WellSizedAccepted(o, typeName, dims, data);
    NumericEntriesAllNumbers(dims);
    BackToJS(FromJSTensor(o).value, typeName, dims, data, available);
  }

  /** The trip back, for an engine tensor with the facts the conversion
      establishes. */
  lemma BackToJS(t: NativeTensor, typeName: string, dims: seq<JsValue>, data: JsValue, available: set<TypedArrayKind>)
    requires DataTypeToString(t.elementType) == Ok(typeName)
    requires forall i :: 0 <= i < |dims| ==> dims[i].Number? && dims[i].n >= 0
    requires |t.shape| == |dims| && forall i :: 0 <= i < |dims| ==> t.shape[i] == dims[i].n
    requires data.Obj?
    requires t.elementType == STRING ==>
               && data.obj.kind.ArrayObject?
               && t.data.Strings?
               && |t.data.strings| == |data.obj.kind.elements|
               && forall i :: 0 <= i < |t.data.strings| ==>
                    data.obj.kind.elements[i].Str? && t.data.strings[i] == CString(data.obj.kind.elements[i].s)
    requires t.elementType != STRING ==> t.data.Bytes?
    requires TypedArrayKindOf(t.elementType).Ok? && TypedArrayKindOf(t.elementType).value in available
    requires t.data.Bytes? ==>
               GetElementSize(t.elementType).Ok? && |t.data.bytes| == Product(t.shape) * GetElementSize(t.elementType).value
    requires t.data.Strings? ==> |t.data.strings| == Product(t.shape)
    ensures WellFormed(t)
    ensures var back := ToJSTensor(t, available);
            && back.Ok?
            && back.value.typeName == typeName
            && |back.value.dims| == |dims|
            && (forall i :: 0 <= i < |dims| ==> back.value.dims[i] == dims[i].n)
            && (t.data.Bytes? ==> back.value.data.TypedArrayData? && back.value.data.bytes == t.data.bytes)
            && (t.elementType == STRING ==>
                  && back.value.data.StringArrayData?
                  && |back.value.data.strings| == |data.obj.kind.elements|
                  && forall i :: 0 <= i < |back.value.data.strings| ==>
                       && data.obj.kind.elements[i].Str?
                       && back.value.data.strings[i] == CString(data.obj.kind.elements[i].s)
                       && ('\0' !in data.obj.kind.elements[i].s ==> data.obj.kind.elements[i] == Str(back.value.data.strings[i])))
  {
    assert WellFormed(t);
    var back := ToJSTensor(t, available);
    if t.data.Bytes? {
      assert back.value.data.bytes == t.data.bytes[..|t.data.bytes|];
    }
  }
}
