/**
 * Type and shape descriptors of one tensor-valued input or output slot:
 * an element type that may be undefined and a shape that may have
 * unknown rank or unknown dimensions.
 */
module TensorTypes {

  import opened Wrappers

  /**
   * The element types of the DataType enumeration of TensorProto.
   * `Undefined` (code 0) is the "not yet known" element type of a descriptor.
   * `Unrecognized` keeps an integer code outside the enumeration: ONNX
   * casts an attribute's integer to the enumeration without checking it.
   */
  datatype ElemType =
    | Undefined | Float | UInt8 | Int8 | UInt16 | Int16 | Int32 | Int64
    | String | Bool | Float16 | Double | UInt32 | UInt64 | Complex64 | Complex128
    | Unrecognized(code: int)

  /** The enumeration code of an element type. */
  function Code(t: ElemType): int
  {
    match t
    case Undefined => 0
    case Float => 1
    case UInt8 => 2
    case Int8 => 3
    case UInt16 => 4
    case Int16 => 5
    case Int32 => 6
    case Int64 => 7
    case String => 8
    case Bool => 9
    case Float16 => 10
    case Double => 11
    case UInt32 => 12
    case UInt64 => 13
    case Complex64 => 14
    case Complex128 => 15
    case Unrecognized(c) => c
  }

  /** An `Unrecognized` value never carries a code the enumeration names. */
  predicate WellFormed(t: ElemType)
  {
    t.Unrecognized? ==> !(0 <= t.code <= 15)
  }

  /** The element type an integer code is cast to. */
  function FromCode(c: int): (t: ElemType)
    ensures Code(t) == c
    ensures WellFormed(t)
  {
    if c == 0 then Undefined
    else if c == 1 then Float
    else if c == 2 then UInt8
    else if c == 3 then Int8
    else if c == 4 then UInt16
    else if c == 5 then Int16
    else if c == 6 then Int32
    else if c == 7 then Int64
    else if c == 8 then String
    else if c == 9 then Bool
    else if c == 10 then Float16
    else if c == 11 then Double
    else if c == 12 then UInt32
    else if c == 13 then UInt64
    else if c == 14 then Complex64
    else if c == 15 then Complex128
    else Unrecognized(c)
  }

  /** Casting the code of a well-formed element type gives that type back. */
  lemma CodeRoundTrip(t: ElemType)
    requires WellFormed(t)
    ensures FromCode(Code(t)) == t
  {
  }

  /** One dimension: a concrete value (an int64 `dim_value`) or unknown. */
  datatype Dim = Known(value: int) | Unknown

  /** A shape: `None` is unknown rank, otherwise the ordered dimensions. */
  type Shape = Option<seq<Dim>>

  /** The type and shape descriptor of one slot. */
  datatype TypeShape = TypeShape(elemType: ElemType, shape: Shape)

  /** A slot about which nothing is known yet. */
  const Unresolved := TypeShape(Undefined, None)

  /** Each integer as one concrete dimension, in order. */
  function DimsOf(values: seq<int>): (dims: seq<Dim>)
    ensures |dims| == |values|
  {
    seq(|values|, k requires 0 <= k < |values| => Known(values[k]))
  }

  /** Appending one value appends its known dimension. */
  lemma DimsOfAppend(values: seq<int>, v: int)
    ensures DimsOf(values + [v]) == DimsOf(values) + [Known(v)]
  {
  }

  /** The dimensions of two concatenated lists are the concatenation of their dimensions. */
  lemma DimsOfConcat(a: seq<int>, b: seq<int>)
    ensures DimsOf(a + b) == DimsOf(a) + DimsOf(b)
  {
  }
}
