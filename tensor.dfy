/**
 * Tensors as the native engine describes them, and TensorInfo, the typed
 * description the crate extracts from such a descriptor: a closed set of
 * element types and the dimension list.
 */
module Tensors {
  import opened Wrappers
  import opened Errors

  /** A 32-bit signed integer, the type of the native dimension entries. */
  type i32 = x: int | -0x8000_0000 <= x < 0x8000_0000

  /**
   * The element types the crate represents, with the native TfLiteType tag
   * of each given by TypeTag.
   */
  datatype ElementType =
    | NoType
    | Float32
    | Int32
    | UInt8
    | Int64
    | String
    | Bool
    | Int16
    | Complex64
    | Int8
    | Float16

  /** The native type tag of an element type. */
  function TypeTag(e: ElementType): int {
    match e
    case NoType => 0
    case Float32 => 1
    case Int32 => 2
    case UInt8 => 3
    case Int64 => 4
    case String => 5
    case Bool => 6
    case Int16 => 7
    case Complex64 => 8
    case Int8 => 9
    case Float16 => 10
  }

  /** The fallible conversion of a native type tag; None for a tag with no counterpart. */
  function ElementTypeFromTag(tag: int): Option<ElementType> {
    match tag
    case 0 => Some(NoType)
    case 1 => Some(Float32)
    case 2 => Some(Int32)
    case 3 => Some(UInt8)
    case 4 => Some(Int64)
    case 5 => Some(String)
    case 6 => Some(Bool)
    case 7 => Some(Int16)
    case 8 => Some(Complex64)
    case 9 => Some(Int8)
    case 10 => Some(Float16)
    case _ => None
  }

  /** Every element type converts back from its own tag. */
  lemma FromTagOfTypeTag(e: ElementType)
    ensures ElementTypeFromTag(TypeTag(e)) == Some(e)
  {
  }

  /** A successful conversion yields the element type whose tag was given, and tags are distinct. */
  lemma TypeTagOfFromTag(tag: int)
    ensures ElementTypeFromTag(tag).Some? ==> TypeTag(ElementTypeFromTag(tag).value) == tag
    ensures ElementTypeFromTag(tag).Some? <==> exists e :: TypeTag(e) == tag
  {
  }

  /**
   * TfLiteIntArray: a count and the entries that follow it in memory. The
   * crate trusts `size` to be a valid count of entries, so the type
   * requires it.
   */
  datatype TfLiteIntArray = TfLiteIntArray(size: int, data: seq<i32>)

  type Dims = a: TfLiteIntArray | 0 <= a.size <= |a.data| witness TfLiteIntArray(0, [])

  /** TfLiteTensor, the native descriptor: its type tag and dimension array. */
  datatype TfLiteTensor = TfLiteTensor(type_: int, dims: Dims)

  /** Metadata describing a tensor. */
  datatype TensorInfo = TensorInfo(elementType: ElementType, dims: seq<i32>)

  /**
   * `TryFrom<&TfLiteTensor> for TensorInfo`: fails with
   * ElementTypeUnimplemented exactly when the type tag has no element type;
   * otherwise the element type is the one with that tag and the dims are
   * the first `size` native entries, in order.
   */
  function TensorInfoFrom(t: TfLiteTensor): (r: Result<TensorInfo, Error>)
    ensures r.Failure? <==> ElementTypeFromTag(t.type_).None?
    ensures r.Failure? ==> r.error == ElementTypeUnimplemented
    ensures r.Success? ==> TypeTag(r.value.elementType) == t.type_
    ensures r.Success? ==> |r.value.dims| == t.dims.size
    ensures r.Success? ==> forall i :: 0 <= i < t.dims.size ==> r.value.dims[i] == t.dims.data[i]
  {
    match ElementTypeFromTag(t.type_)
    case None => Failure(ElementTypeUnimplemented)
    case Some(elementType) =>
      TypeTagOfFromTag(t.type_);
      Success(TensorInfo(elementType, t.dims.data[..t.dims.size]))
  }

  /**
   * A tensor inside the interpreter: its native descriptor, which does not
   * change, and the arena-resident storage of its elements, which does.
   */
  class Tensor {
    const inner: TfLiteTensor
    const data: array<int>

    constructor (inner: TfLiteTensor, data: array<int>)
      ensures this.inner == inner && this.data == data
    {
      this.inner := inner;
      this.data := data;
    }
  }
}
