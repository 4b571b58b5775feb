/** The three fixed lookup tables over the ONNX element types the bridge
    supports (cpp/TensorUtils.cpp), and the lookups over them. */
module TensorTypes {
  import opened Jsi

  /** An `ONNXTensorElementDataType` value; any integer can reach the lookups. */
  type ElementType = int

  // The ONNX element type codes the tables cover.
  const FLOAT: ElementType := 1
  const UINT8: ElementType := 2
  const INT8: ElementType := 3
  const UINT16: ElementType := 4
  const INT16: ElementType := 5
  const INT32: ElementType := 6
  const INT64: ElementType := 7
  const STRING: ElementType := 8
  const BOOL: ElementType := 9
  const FLOAT16: ElementType := 10
  const DOUBLE: ElementType := 11
  const UINT32: ElementType := 12
  const UINT64: ElementType := 13

  /** `sizeof(char*)` on a 64-bit target. */
  const PointerSize: nat := 8

  /** Element type to type name. */
  const DataTypeNames: map<ElementType, string> := map[
    FLOAT := "float32", UINT8 := "uint8", INT8 := "int8", UINT16 := "uint16",
    INT16 := "int16", INT32 := "int32", INT64 := "int64", STRING := "string",
    BOOL := "bool", FLOAT16 := "float16", DOUBLE := "float64", UINT32 := "uint32",
    UINT64 := "uint64"]

  /** Element type to element size in bytes. */
  const ElementSizes: map<ElementType, nat> := map[
    FLOAT := 4, UINT8 := 1, INT8 := 1, UINT16 := 2, INT16 := 2, INT32 := 4,
    INT64 := 8, BOOL := 1, FLOAT16 := 2, DOUBLE := 8, UINT32 := 4, UINT64 := 8,
    STRING := PointerSize]

  /** The JS global constructors a tensor's data is built with. */
  datatype TypedArrayKind =
    | Float32Array | Float64Array | Int32Array | BigInt64Array | Uint32Array
    | BigUint64Array | Uint8Array | Int8Array | Uint16Array | Int16Array
    | Float16Array | Array

  /** Element type to JS constructor. */
  const TypedArrayKinds: map<ElementType, TypedArrayKind> := map[
    FLOAT := Float32Array, DOUBLE := Float64Array, INT32 := Int32Array,
    INT64 := BigInt64Array, UINT32 := Uint32Array, UINT64 := BigUint64Array,
    UINT8 := Uint8Array, INT8 := Int8Array, UINT16 := Uint16Array,
    INT16 := Int16Array, FLOAT16 := Float16Array, STRING := Array, BOOL := Uint8Array]

  /** The name of the global property that holds the constructor. */
  function KindName(k: TypedArrayKind): string {
    match k
    case Float32Array => "Float32Array"
    case Float64Array => "Float64Array"
    case Int32Array => "Int32Array"
    case BigInt64Array => "BigInt64Array"
    case Uint32Array => "Uint32Array"
    case BigUint64Array => "BigUint64Array"
    case Uint8Array => "Uint8Array"
    case Int8Array => "Int8Array"
    case Uint16Array => "Uint16Array"
    case Int16Array => "Int16Array"
    case Float16Array => "Float16Array"
    case Array => "Array"
  }

  /** `BYTES_PER_ELEMENT` of a typed array constructor, as JavaScript defines it. */
  function BytesPerElement(k: TypedArrayKind): nat
    requires k != Array
  {
    match k
    case Float32Array => 4
    case Float64Array => 8
    case Int32Array => 4
    case BigInt64Array => 8
    case Uint32Array => 4
    case BigUint64Array => 8
    case Uint8Array => 1
    case Int8Array => 1
    case Uint16Array => 2
    case Int16Array => 2
    case Float16Array => 2
  }

  /** The decimal text `std::to_string` gives for an integer. */
  function IntToString(i: int): string {
    if i < 0 then "-" + NatToString(-i) else NatToString(i)
  }

  function NatToString(n: nat): string {
    if n < 10 then [Digit(n)] else NatToString(n / 10) + [Digit(n % 10)]
  }

  function Digit(d: nat): char
    requires d < 10
  {
    "0123456789"[d]
  }

  function UnsupportedType(t: ElementType): Error {
    InvalidArgument("Unsupported or unknown tensor data type: " + IntToString(t))
  }

  /** `TensorUtils::dataTypeToString`. */
  function DataTypeToString(t: ElementType): (r: Result<string>)
    ensures r.Ok? <==> FLOAT <= t <= UINT64
    ensures r.Err? ==> r.error == UnsupportedType(t)
  {
    if t in DataTypeNames then Ok(DataTypeNames[t]) else Err(UnsupportedType(t))
  }

  /** No two element types share a name. */
  lemma NamesDistinct()
    ensures forall a, b :: a in DataTypeNames && b in DataTypeNames && a != b ==> DataTypeNames[a] != DataTypeNames[b]
  {
  }

  /** `TensorUtils::stringToDataType`: the element type whose name is `s`.
      The source scans the table in its (unspecified) iteration order; the
      names being distinct, the first match is the only one. */
  function StringToDataType(s: string): (r: Result<ElementType>)
    ensures r.Ok? ==> DataTypeToString(r.value) == Ok(s)
    ensures r.Err? <==> s !in DataTypeNames.Values
    ensures r.Err? ==> r.error == InvalidArgument("Unsupported or unknown tensor data type: " + s)
  {
    if exists t :: t in DataTypeNames && DataTypeNames[t] == s then
      NamesDistinct();
      var t :| t in DataTypeNames && DataTypeNames[t] == s;
      Ok(t)
    else
      Err(InvalidArgument("Unsupported or unknown tensor data type: " + s))
  }

  /** The name table round-trips: every supported element type is recovered
      from its name. */
  lemma NameRoundTrip(t: ElementType)
    requires DataTypeToString(t).Ok?
    ensures StringToDataType(DataTypeToString(t).value) == Ok(t)
  {
    var s := DataTypeNames[t];
    assert t in DataTypeNames && DataTypeNames[t] == s;
    NamesDistinct();
  }

  /** `TensorUtils::getElementSize`. */
  function GetElementSize(t: ElementType): (r: Result<nat>)
    ensures r.Ok? <==> DataTypeToString(t).Ok?
    ensures r.Err? ==> r.error == UnsupportedType(t)
    ensures t in {UINT8, INT8, BOOL} ==> r == Ok(1)
    ensures t in {UINT16, INT16, FLOAT16} ==> r == Ok(2)
    ensures t in {FLOAT, INT32, UINT32} ==> r == Ok(4)
    ensures t in {DOUBLE, INT64, UINT64} ==> r == Ok(8)
    ensures t == STRING ==> r == Ok(PointerSize)
  {
    if t in ElementSizes then Ok(ElementSizes[t]) else Err(UnsupportedType(t))
  }

  /** The table part of `getTypedArrayConstructor`: which global constructor
      a tensor of type `t` is built with. */
  function TypedArrayKindOf(t: ElementType): (r: Result<TypedArrayKind>)
    ensures r.Ok? <==> DataTypeToString(t).Ok?
    ensures r.Ok? ==> (r.value == Array <==> t == STRING)
    ensures t == BOOL ==> r == Ok(Uint8Array)
    ensures r.Err? ==> r.error == JSError("Unsupported tensor data type for TypedArray creation: " + IntToString(t))
  {
    if t in TypedArrayKinds then Ok(TypedArrayKinds[t])
    else Err(JSError("Unsupported tensor data type for TypedArray creation: " + IntToString(t)))
  }

  /** For every numeric or bool element type, the typed array the tensor is
      copied into has exactly the element size of the size table, so a copy
      of elementCount * elementSize bytes fills it exactly. */
  lemma TypedArrayMatchesElementSize(t: ElementType)
    ensures DataTypeToString(t).Ok? && t != STRING ==>
              && TypedArrayKindOf(t).value != Array
              && BytesPerElement(TypedArrayKindOf(t).value) == GetElementSize(t).value
  {
    if DataTypeToString(t).Ok? && t != STRING {
      assert t in {FLOAT, UINT8, INT8, UINT16, INT16, INT32, INT64, BOOL, FLOAT16, DOUBLE, UINT32, UINT64};
    }
  }
}
