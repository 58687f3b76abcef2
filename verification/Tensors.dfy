/**
  Typed views over shared byte buffers (core/tensor.hpp). A tensor is an immutable value that
  refers to a buffer; a subview refers to the same buffer, so nothing is copied.
 */
module Tensors {
  import opened Core
  import opened TensorLayout

  type Byte = x: nat | x < 256

  datatype LayoutTag = Any | Nchw | Nhwc

  datatype Ownership = Owned | Shared | Borrowed

  /** The storage is null only in a default-constructed tensor. */
  datatype Tensor = Tensor(
    storage: array?<Byte>,
    byteOffset: Size,
    byteSize: Size,
    elementCount: nat,
    dataType: DataType,
    dims: seq<Int64>,
    byteStrides: seq<nat>,
    layout: LayoutTag,
    ownership: Ownership
  ) {
    /** What every accepted tensor satisfies. */
    ghost predicate Valid() {
      && storage != null
      && storage.Length <= SIZE_MAX
      && byteOffset + byteSize <= storage.Length
      && Concrete(dims)
      && Fits(dims, SizeOf(dataType))
      && elementCount == Product(dims)
      && |byteStrides| == |dims|
      && byteSize == Span(dims, byteStrides, SizeOf(dataType))
    }

    /** An accepted tensor or a default-constructed one. */
    ghost predicate Usable() { Valid() || (storage == null && byteOffset == byteSize == 0) }

    function Bytes(): seq<Byte>
      requires storage != null && byteOffset + byteSize <= storage.Length
      reads storage
    {
      storage[byteOffset..byteOffset + byteSize]
    }

    predicate IsContiguous() { Concrete(dims) && byteStrides == RowMajor(dims, SizeOf(dataType)) }
  }

  function Create(storage: array?<Byte>, byteOffset: Size, dataType: DataType, dims: seq<Int64>, layout: LayoutTag,
                  byteStrides: seq<Size>, ownership: Ownership): (r: Result<Tensor>)
    requires storage != null ==> storage.Length <= SIZE_MAX
    ensures r.Ok? <==>
      && storage != null && Admissible(dataType, dims, byteStrides)
      && byteOffset + LayoutOf(dataType, dims, byteStrides).byteSize <= storage.Length
    ensures r.Ok? ==>
      && r.value.Valid() && r.value.storage == storage && r.value.byteOffset == byteOffset
      && r.value.dataType == dataType && r.value.dims == dims && r.value.layout == layout
      && r.value.byteStrides == EffectiveStrides(dims, byteStrides, SizeOf(dataType))
    ensures r.Err? ==> r.status.code.InvalidArgument?
  {
    if storage == null then Rejected("tensor buffer must not be empty")
    else
      var metadata := CheckLayout(dataType, dims, byteStrides);
      if metadata.Err? then metadata.PropagateErr()
      else if byteOffset > storage.Length || metadata.value.byteSize > storage.Length - byteOffset then
        Rejected("tensor buffer capacity is smaller than its layout")
      else Ok(Tensor(storage, byteOffset, metadata.value.byteSize, metadata.value.elementCount, dataType, dims,
                     metadata.value.byteStrides, layout, ownership))
  }

  /** A view of a part of `parent`: accepted exactly when it lies inside the parent's own bytes. */
  function Subview(parent: Tensor, relativeByteOffset: Size, dataType: DataType, dims: seq<Int64>, layout: LayoutTag,
                   byteStrides: seq<Size>): (r: Result<Tensor>)
    requires parent.Usable()
    ensures r.Ok? <==>
      && parent.storage != null && Admissible(dataType, dims, byteStrides)
      && relativeByteOffset + LayoutOf(dataType, dims, byteStrides).byteSize <= parent.byteSize
    ensures r.Ok? ==>
      && r.value.Valid() && r.value.storage == parent.storage
      && r.value.byteOffset == parent.byteOffset + relativeByteOffset
      && r.value.byteOffset + r.value.byteSize <= parent.byteOffset + parent.byteSize
      && r.value.dataType == dataType && r.value.dims == dims && r.value.layout == layout
      && r.value.byteStrides == EffectiveStrides(dims, byteStrides, SizeOf(dataType))
    ensures r.Err? ==> r.status.code.InvalidArgument?
  {
    if relativeByteOffset > parent.byteSize then Rejected("tensor subview offset exceeds its byte size")
    else
      var view := Create(parent.storage, AddSize(parent.byteOffset, relativeByteOffset), dataType, dims, layout,
                         byteStrides, Shared);
      if view.Ok? && view.value.byteSize > parent.byteSize - relativeByteOffset then
        Rejected("tensor subview exceeds its parent view")
      else view
  }

  /** Where the element at `index` starts in the buffer. */
  function Address(t: Tensor, index: Index): nat
    requires |index| == |t.byteStrides|
  {
    t.byteOffset + ByteOffset(index, t.byteStrides)
  }

  /** Every element of an accepted tensor or subview lies inside the view and inside its buffer. */
  lemma ElementsAreInside(t: Tensor, index: Index)
    requires t.Valid() && InRange(index, t.dims)
    ensures t.byteOffset <= Address(t, index)
    ensures Address(t, index) + SizeOf(t.dataType) <= t.byteOffset + t.byteSize <= t.storage.Length
    ensures Address(t, LastIndex(t.dims)) + SizeOf(t.dataType) == t.byteOffset + t.byteSize
  {
    SpanIsExact(index, t.dims, t.byteStrides, SizeOf(t.dataType));
  }

  /** A contiguous tensor covers its bytes exactly: one element per position, none overlapping. */
  lemma ContiguousCoversItsBytes(t: Tensor, one: Index, other: Index)
    requires t.Valid() && t.IsContiguous() && InRange(one, t.dims) && InRange(other, t.dims)
    ensures t.byteSize == t.elementCount * SizeOf(t.dataType)
    ensures Address(t, one) == t.byteOffset + SizeOf(t.dataType) * Linear(one, t.dims)
    ensures one != other ==>
      || Address(t, one) + SizeOf(t.dataType) <= Address(t, other)
      || Address(t, other) + SizeOf(t.dataType) <= Address(t, one)
  {
    RowMajorReach(t.dims, SizeOf(t.dataType));
    RowMajorOffset(one, t.dims, SizeOf(t.dataType));
    if one != other {
      RowMajorElementsAreDisjoint(one, other, t.dims, SizeOf(t.dataType));
    }
  }

  /** A byte of a contiguous tensor belongs to an element. */
  lemma EveryByteIsInAnElement(t: Tensor, offset: nat) returns (index: Index)
    requires t.Valid() && t.IsContiguous() && offset < t.byteSize
    ensures InRange(index, t.dims)
    ensures Address(t, index) <= t.byteOffset + offset < Address(t, index) + SizeOf(t.dataType)
  {
    var size := SizeOf(t.dataType);
    RowMajorReach(t.dims, size);
    DivisionBounds(offset, Product(t.dims), size);
    index := Unravel(offset / size, t.dims);
    LinearAndUnravel(index, offset / size, t.dims);
    RowMajorOffset(index, t.dims, size);
  }
}
