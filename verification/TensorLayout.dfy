/**
  The layout arithmetic of core/tensor.hpp. `size_t` is 64 bits wide: the loops compute with
  operations that wrap, and are proved to return what exact arithmetic gives.
 */
module TensorLayout {
  import opened Core

  const SIZE_MAX: nat := 0xFFFF_FFFF_FFFF_FFFF

  type Size = x: nat | x <= SIZE_MAX
  type Int64 = x: int | -0x8000_0000_0000_0000 <= x <= 0x7FFF_FFFF_FFFF_FFFF

  function MulSize(x: Size, y: Size): Size { (x * y) % (SIZE_MAX + 1) }

  function AddSize(x: Size, y: Size): Size { (x + y) % (SIZE_MAX + 1) }

  datatype DataType = UInt8 | Int8 | UInt16 | Int16 | Int32 | Int64Type | Float16 | Float32 | Float64 | Bool

  function SizeOf(t: DataType): Size {
    match t
    case UInt8 => 1
    case Int8 => 1
    case Bool => 1
    case UInt16 => 2
    case Int16 => 2
    case Float16 => 2
    case Int32 => 4
    case Float32 => 4
    case Int64Type => 8
    case Float64 => 8
  }

  /** Sizes are powers of two: one, two, four and eight bytes. */
  lemma SizesInBytes(t: DataType)
    ensures SizeOf(t) == 1 <==> t == UInt8 || t == Int8 || t == Bool
    ensures SizeOf(t) == 2 <==> t == UInt16 || t == Int16 || t == Float16
    ensures SizeOf(t) == 4 <==> t == Int32 || t == Float32
    ensures SizeOf(t) == 8 <==> t == Int64Type || t == Float64
  {
  }

  function Rejected<T>(message: string): Result<T> { Err(Status(StatusCode.InvalidArgument, message)) }

  // ---------------------------------------------------------------- exact arithmetic

  predicate Concrete(dims: seq<Int64>) { forall i :: 0 <= i < |dims| ==> dims[i] > 0 }

  function Product(dims: seq<Int64>): int { if dims == [] then 1 else dims[0] * Product(dims[1..]) }

  /** How far the last position along one dimension is from its first. */
  function Along(dimension: Int64, stride: nat): int { (dimension as int - 1) * stride }

  /** The distance from the first element to the last one. */
  function Reach(dims: seq<Int64>, strides: seq<nat>): int
    requires |strides| == |dims|
  {
    if dims == [] then 0 else Along(dims[0], strides[0]) + Reach(dims[1..], strides[1..])
  }

  /** Default strides: each dimension steps over all the inner ones. */
  function RowMajor(dims: seq<Int64>, elementSize: nat): (strides: seq<nat>)
    requires Concrete(dims)
    ensures |strides| == |dims|
  {
    if dims == [] then []
    else (ProductPositive(dims[1..]); [elementSize * Product(dims[1..])] + RowMajor(dims[1..], elementSize))
  }

  lemma {:induction false} ProductPositive(dims: seq<Int64>)
    requires Concrete(dims)
    ensures Product(dims) >= 1
  {
    if dims != [] {
      ProductPositive(dims[1..]);
      assert dims[0] * Product(dims[1..]) >= 1 * 1;
    }
  }

  lemma {:induction false} ProductSplit(left: seq<Int64>, right: seq<Int64>)
    ensures Product(left + right) == Product(left) * Product(right)
  {
    if left == [] {
      assert left + right == right;
    } else {
      assert (left + right)[1..] == left[1..] + right;
      ProductSplit(left[1..], right);
      MulAssociates(left[0], Product(left[1..]), Product(right));
    }
  }

  /** A part of a product of positive dimensions is never larger than the whole. */
  lemma ProductOfPart(left: seq<Int64>, right: seq<Int64>)
    requires Concrete(left + right)
    ensures 1 <= Product(left) <= Product(left + right) && 1 <= Product(right) <= Product(left + right)
  {
    ProductSplit(left, right);
    assert forall i :: 0 <= i < |left| ==> left[i] == (left + right)[i];
    assert forall i :: 0 <= i < |right| ==> right[i] == (left + right)[|left| + i];
    ProductPositive(left);
    ProductPositive(right);
    BothAtMostProduct(Product(left), Product(right));
  }

  lemma BothAtMostProduct(x: int, y: int)
    requires x >= 1 && y >= 1
    ensures x <= x * y && y <= x * y
  {
    MulAtLeast(x, y);
    MulAtLeast(y, x);
  }

  lemma MulAssociates(x: int, y: int, z: int)
    ensures x * (y * z) == (x * y) * z
  {
  }

  lemma MulAtLeast(x: int, y: int)
    requires x >= 0 && y >= 1
    ensures x * y >= x
  {
  }

  /** The overflow test of the code, `x > max / y`, is exact. */
  lemma DivisionTest(x: nat, y: nat, limit: nat)
    requires y > 0
    ensures x > limit / y <==> x * y > limit
  {
    var q := limit / y;
    assert limit == y * q + limit % y;
    if x > q {
      assert x * y >= (q + 1) * y;
      assert (q + 1) * y == q * y + y;
    } else {
      assert x * y <= q * y;
    }
  }

  /** Guarded by that test, a 64-bit multiplication never wraps. */
  lemma GuardedMultiply(x: Size, y: Size)
    requires y > 0
    ensures x > SIZE_MAX / y <==> x * y > SIZE_MAX
    ensures x * y <= SIZE_MAX ==> MulSize(x, y) == x * y
  {
    DivisionTest(x, y, SIZE_MAX);
  }

  /** The same for the step of the span computation, which adds `extent * stride`. */
  lemma GuardedStep(total: Size, extent: Size, stride: Size)
    ensures extent != 0 && stride > (SIZE_MAX - total) / extent <==> total + extent * stride > SIZE_MAX
    ensures total + extent * stride <= SIZE_MAX ==> AddSize(total, MulSize(extent, stride)) == total + extent * stride
  {
    if extent != 0 {
      DivisionTest(stride, extent, SIZE_MAX - total);
      assert stride * extent == extent * stride >= 0;
    }
  }

  lemma {:induction false} ReachSplit(dims: seq<Int64>, strides: seq<nat>, i: nat)
    requires |strides| == |dims| && i < |dims|
    ensures Reach(dims[..i + 1], strides[..i + 1]) == Reach(dims[..i], strides[..i]) + Along(dims[i], strides[i])
  {
    if i == 0 {
      assert dims[..1][1..] == [];
    } else {
      ReachSplit(dims[1..], strides[1..], i - 1);
      assert dims[..i + 1][1..] == dims[1..][..i] && strides[..i + 1][1..] == strides[1..][..i];
      assert dims[..i][1..] == dims[1..][..i - 1] && strides[..i][1..] == strides[1..][..i - 1];
    }
  }

  lemma AlongNatural(dimension: Int64, stride: nat)
    requires dimension > 0
    ensures Along(dimension, stride) >= 0
  {
  }

  lemma {:induction false} ReachGrows(dims: seq<Int64>, strides: seq<nat>, i: nat)
    requires |strides| == |dims| && i <= |dims| && Concrete(dims)
    ensures 0 <= Reach(dims[..i], strides[..i]) <= Reach(dims, strides)
    decreases |dims| - i
  {
    ReachNatural(dims[..i], strides[..i]);
    if i == |dims| {
      assert dims[..i] == dims && strides[..i] == strides;
    } else {
      ReachSplit(dims, strides, i);
      AlongNatural(dims[i], strides[i]);
      ReachGrows(dims, strides, i + 1);
    }
  }

  lemma {:induction false} ReachNatural(dims: seq<Int64>, strides: seq<nat>)
    requires |strides| == |dims| && Concrete(dims)
    ensures Reach(dims, strides) >= 0
  {
    if dims != [] {
      ReachNatural(dims[1..], strides[1..]);
      AlongNatural(dims[0], strides[0]);
    }
  }

  // ---------------------------------------------------------------- the loops

  predicate Fits(dims: seq<Int64>, elementSize: nat) { elementSize * Product(dims) <= SIZE_MAX }

  method ElementCount(dims: seq<Int64>) returns (count: Size)
    ensures count == if Concrete(dims) && Product(dims) <= SIZE_MAX then Product(dims) else 0
  {
    count := 1;
    for i := 0 to |dims|
      invariant Concrete(dims[..i]) && count == Product(dims[..i]) >= 1
    {
      var dimension := dims[i];
      if dimension <= 0 {
        return 0;
      }
      assert dims[..i + 1] == dims[..i] + [dimension];
      ProductSplit(dims[..i], [dimension]);
      assert Product([dimension]) == dimension * Product([]);
      DivisionTest(count, dimension, SIZE_MAX);
      if count > SIZE_MAX / dimension {
        if Concrete(dims) {
          assert dims == dims[..i + 1] + dims[i + 1..];
          ProductOfPart(dims[..i + 1], dims[i + 1..]);
        }
        return 0;
      }
      count := MulSize(count, dimension);
      MulAtLeast(Product(dims[..i]), dimension);
    }
    assert dims[..|dims|] == dims;
  }

  method ContiguousByteStrides(dims: seq<Int64>, elementSize: Size) returns (strides: seq<Size>)
    requires elementSize > 0
    ensures Concrete(dims) && Fits(dims, elementSize) ==> strides == RowMajor(dims, elementSize)
    ensures !(Concrete(dims) && Fits(dims, elementSize)) ==> strides == []
  {
    var filled := new Size[|dims|];
    var stride: Size := elementSize;
    var index := |dims|;
    while index > 0
      invariant 0 <= index <= |dims| && filled.Length == |dims|
      invariant Concrete(dims[index..]) && stride == elementSize * Product(dims[index..])
      invariant filled[index..] == RowMajor(dims[index..], elementSize)
    {
      filled[index - 1] := stride;
      var dimension := dims[index - 1];
      ghost var inner := dims[index..];
      assert dims[index - 1..] == [dimension] + inner;
      assert dims[index - 1..][1..] == inner;
      if dimension <= 0 {
        return [];
      }
      GuardedMultiply(stride, dimension);
      MulRegroups(elementSize, dimension, Product(inner));
      if stride > SIZE_MAX / dimension {
        if Concrete(dims) {
          assert dims == dims[..index - 1] + dims[index - 1..];
          ProductOfPart(dims[..index - 1], dims[index - 1..]);
          MulGrows(elementSize, Product(dims[index - 1..]), Product(dims));
        }
        return [];
      }
      stride := MulSize(stride, dimension);
      index := index - 1;
      assert filled[index..] == [filled[index]] + filled[index + 1..];
    }
    assert dims[0..] == dims;
    strides := filled[..];
    assert filled[..] == filled[0..];
  }

  lemma MulRegroups(size: int, outer: int, inner: int)
    ensures size * inner * outer == size * (outer * inner)
  {
  }

  lemma MulGrows(size: nat, x: int, y: int)
    requires x <= y
    ensures size * x <= size * y
  {
  }

  // ---------------------------------------------------------------- validateMetadata

  datatype Metadata = Metadata(elementCount: nat, byteSize: nat, byteStrides: seq<nat>)

  /** The bytes from the first byte of the first element to the last byte of the last one. */
  function Span(dims: seq<Int64>, strides: seq<nat>, elementSize: nat): int
    requires |strides| == |dims|
  {
    elementSize + Reach(dims, strides)
  }

  /** The strides a layout uses: the given ones, or the default when none are given. */
  function EffectiveStrides(dims: seq<Int64>, strides: seq<nat>, elementSize: nat): seq<nat>
    requires Concrete(dims)
  {
    if strides == [] then RowMajor(dims, elementSize) else strides
  }

  /** When a layout is accepted, in exact arithmetic. */
  predicate Admissible(t: DataType, dims: seq<Int64>, strides: seq<nat>) {
    && Concrete(dims)
    && Fits(dims, SizeOf(t))
    && (strides == [] || |strides| == |dims|)
    && Span(dims, EffectiveStrides(dims, strides, SizeOf(t)), SizeOf(t)) <= SIZE_MAX
  }

  function LayoutOf(t: DataType, dims: seq<Int64>, strides: seq<nat>): (m: Metadata)
    requires Admissible(t, dims, strides)
    ensures |m.byteStrides| == |dims|
  {
    var used := EffectiveStrides(dims, strides, SizeOf(t));
    ProductPositive(dims);
    ReachNatural(dims, used);
    Metadata(Product(dims), Span(dims, used, SizeOf(t)), used)
  }

  lemma CountTest(dims: seq<Int64>, elementSize: nat)
    requires Concrete(dims) && elementSize > 0
    ensures 1 <= Product(dims) && (Fits(dims, elementSize) ==> Product(dims) <= SIZE_MAX)
    ensures Product(dims) > SIZE_MAX / elementSize <==> !Fits(dims, elementSize)
  {
    ProductPositive(dims);
    MulAtLeast(Product(dims), elementSize);
    DivisionTest(Product(dims), elementSize, SIZE_MAX);
  }

  lemma ReachStep(dims: seq<Int64>, strides: seq<nat>, i: nat)
    requires |strides| == |dims| && i < |dims| && Concrete(dims)
    ensures Reach(dims[..i + 1], strides[..i + 1]) == Reach(dims[..i], strides[..i]) + (dims[i] as int - 1) * strides[i]
    ensures Reach(dims[..i + 1], strides[..i + 1]) <= Reach(dims, strides)
  {
    ReachSplit(dims, strides, i);
    ReachGrows(dims, strides, i + 1);
  }

  /** The last loop of validateMetadata. */
  method RequiredBytes(dims: seq<Int64>, strides: seq<Size>, elementSize: Size) returns (r: Option<Size>)
    requires Concrete(dims) && |strides| == |dims|
    ensures r == if Span(dims, strides, elementSize) <= SIZE_MAX then Some(Span(dims, strides, elementSize)) else None
  {
    var requiredBytes: Size := elementSize;
    for index := 0 to |dims|
      invariant requiredBytes == elementSize + Reach(dims[..index], strides[..index])
    {
      var extent: Size := dims[index] - 1;
      var stride: Size := strides[index];
      ReachStep(dims, strides, index);
      GuardedStep(requiredBytes, extent, stride);
      if extent != 0 && stride > (SIZE_MAX - requiredBytes) / extent {
        return None;
      }
      requiredBytes := AddSize(requiredBytes, MulSize(extent, stride));
    }
    assert dims[..|dims|] == dims && strides[..|dims|] == strides;
    r := Some(requiredBytes);
  }

  /** What validateMetadata answers: the exact sizes of an admissible layout, or the first fault found. */
  function CheckLayout(t: DataType, dims: seq<Int64>, strides: seq<nat>): (r: Result<Metadata>)
    ensures r.Ok? <==> Admissible(t, dims, strides)
    ensures r.Ok? ==> r.value == LayoutOf(t, dims, strides)
    ensures r.Err? ==> r.status.code.InvalidArgument?
  {
    if !Concrete(dims) then Rejected("tensor shape must be concrete")
    else if !Fits(dims, SizeOf(t)) then Rejected("tensor element count overflows size_t")
    else if strides != [] && |strides| != |dims| then
      Rejected("tensor stride rank does not match shape rank")
    else if Span(dims, EffectiveStrides(dims, strides, SizeOf(t)), SizeOf(t)) > SIZE_MAX then
      Rejected("tensor byte strides overflow size_t")
    else Ok(LayoutOf(t, dims, strides))
  }

  method ValidateMetadata(t: DataType, dims: seq<Int64>, byteStrides: seq<Size>) returns (r: Result<Metadata>)
    ensures r == CheckLayout(t, dims, byteStrides)
  {
    if i :| 0 <= i < |dims| && dims[i] <= 0 {
      return Rejected("tensor shape must be concrete");
    }
    var elementSize: Size := SizeOf(t);
    var count := ElementCount(dims);
    CountTest(dims, elementSize);
    if count == 0 || count > SIZE_MAX / elementSize {
      return Rejected("tensor element count overflows size_t");
    }
    var strides := byteStrides;
    if |strides| == 0 {
      strides := ContiguousByteStrides(dims, elementSize);
    }
    if |strides| != |dims| {
      return Rejected("tensor stride rank does not match shape rank");
    }
    var requiredBytes := RequiredBytes(dims, strides, elementSize);
    if requiredBytes.None? {
      return Rejected("tensor byte strides overflow size_t");
    }
    r := Ok(Metadata(count, requiredBytes.value, strides));
  }

  // ---------------------------------------------------------------- addresses

  type Index = seq<nat>

  ghost predicate InRange(index: Index, dims: seq<Int64>) {
    |index| == |dims| && forall i :: 0 <= i < |dims| ==> index[i] < dims[i]
  }

  /** The distance in bytes from the first element to the one at `index`. */
  function ByteOffset(index: Index, strides: seq<nat>): nat
    requires |index| == |strides|
  {
    if index == [] then 0 else index[0] * strides[0] + ByteOffset(index[1..], strides[1..])
  }

  /** The position of an element in row-major order. */
  function Linear(index: Index, dims: seq<Int64>): int
    requires |index| == |dims|
  {
    if index == [] then 0 else index[0] * Product(dims[1..]) + Linear(index[1..], dims[1..])
  }

  /** The element at a row-major position. */
  function Unravel(position: int, dims: seq<Int64>): (index: Index)
    requires Concrete(dims) && 0 <= position < Product(dims)
    ensures InRange(index, dims)
  {
    if dims == [] then []
    else
      ProductPositive(dims[1..]);
      var inner := Product(dims[1..]);
      DivisionBounds(position, dims[0], inner);
      [position / inner] + Unravel(position % inner, dims[1..])
  }

  lemma DivisionBounds(x: nat, outer: int, inner: int)
    requires inner > 0 && x < outer * inner
    ensures 0 <= x / inner < outer && 0 <= x % inner < inner && x == (x / inner) * inner + x % inner
  {
    if x / inner >= outer {
      MulMonotone(outer, x / inner, inner);
    }
  }

  lemma MulMonotone(x: int, y: int, factor: nat)
    requires x <= y
    ensures x * factor <= y * factor
  {
  }

  function LastIndex(dims: seq<Int64>): (index: Index)
    requires Concrete(dims)
    ensures InRange(index, dims)
  {
    seq(|dims|, i requires 0 <= i < |dims| => dims[i] - 1)
  }

  /** No element lies outside the span, and the last one ends exactly where the span ends. */
  lemma {:induction false} SpanIsExact(index: Index, dims: seq<Int64>, strides: seq<nat>, elementSize: nat)
    requires Concrete(dims) && |strides| == |dims| && InRange(index, dims)
    ensures ByteOffset(index, strides) + elementSize <= Span(dims, strides, elementSize)
    ensures ByteOffset(LastIndex(dims), strides) + elementSize == Span(dims, strides, elementSize)
  {
    if dims != [] {
      SpanIsExact(index[1..], dims[1..], strides[1..], elementSize);
      assert LastIndex(dims)[1..] == LastIndex(dims[1..]);
      MulMonotone(index[0], dims[0] as int - 1, strides[0]);
    }
  }

  lemma {:induction false} RowMajorReach(dims: seq<Int64>, elementSize: nat)
    requires Concrete(dims)
    ensures Span(dims, RowMajor(dims, elementSize), elementSize) == elementSize * Product(dims)
  {
    if dims != [] {
      RowMajorReach(dims[1..], elementSize);
      var inner := elementSize * Product(dims[1..]);
      assert Along(dims[0], inner) + inner == dims[0] * inner;
      MulRegroups(elementSize, dims[0] as int, Product(dims[1..]));
      MulAssociates(elementSize, dims[0] as int, Product(dims[1..]));
      assert dims[0] * inner == elementSize * (dims[0] * Product(dims[1..]));
    }
  }

  lemma {:induction false} LinearInRange(index: Index, dims: seq<Int64>)
    requires Concrete(dims) && InRange(index, dims)
    ensures 0 <= Linear(index, dims) < Product(dims)
  {
    if dims != [] {
      LinearInRange(index[1..], dims[1..]);
      MulMonotone(index[0] + 1, dims[0] as int, Product(dims[1..]));
    }
  }

  lemma {:induction false} RowMajorOffset(index: Index, dims: seq<Int64>, elementSize: nat)
    requires Concrete(dims) && InRange(index, dims)
    ensures ByteOffset(index, RowMajor(dims, elementSize)) == elementSize * Linear(index, dims)
  {
    if dims != [] {
      RowMajorOffset(index[1..], dims[1..], elementSize);
      var inner := Product(dims[1..]);
      MulAssociates(index[0], elementSize, inner);
      MulAssociates(elementSize, index[0], inner);
      assert RowMajor(dims, elementSize)[1..] == RowMajor(dims[1..], elementSize);
    }
  }

  /** Row-major positions number the elements: each position names one element and each element one position. */
  lemma {:induction false} LinearAndUnravel(index: Index, position: int, dims: seq<Int64>)
    requires Concrete(dims) && InRange(index, dims) && 0 <= position < Product(dims)
    ensures 0 <= Linear(index, dims) < Product(dims) && Unravel(Linear(index, dims), dims) == index
    ensures Linear(Unravel(position, dims), dims) == position
  {
    LinearInRange(index, dims);
    if dims != [] {
      var inner := Product(dims[1..]);
      ProductPositive(dims[1..]);
      DivisionBounds(position, dims[0] as int, inner);
      LinearAndUnravel(index[1..], position % inner, dims[1..]);
      LinearInRange(index[1..], dims[1..]);
      QuotientIs(index[0], Linear(index[1..], dims[1..]), inner);
    }
  }

  lemma QuotientIs(quotient: int, remainder: int, divisor: int)
    requires 0 <= remainder < divisor
    ensures (quotient * divisor + remainder) / divisor == quotient
    ensures (quotient * divisor + remainder) % divisor == remainder
  {
    var x := quotient * divisor + remainder;
    assert x == (x / divisor) * divisor + x % divisor;
    assert (x / divisor - quotient) * divisor == remainder - x % divisor;
    if x / divisor > quotient {
      MulMonotone(1, x / divisor - quotient, divisor);
    } else if x / divisor < quotient {
      MulMonotone(x / divisor - quotient, -1, divisor);
    }
  }

  /** With default strides different elements never share a byte. */
  lemma RowMajorElementsAreDisjoint(one: Index, other: Index, dims: seq<Int64>, elementSize: nat)
    requires Concrete(dims) && InRange(one, dims) && InRange(other, dims) && one != other
    ensures var strides := RowMajor(dims, elementSize);
      || ByteOffset(one, strides) + elementSize <= ByteOffset(other, strides)
      || ByteOffset(other, strides) + elementSize <= ByteOffset(one, strides)
  {
    RowMajorOffset(one, dims, elementSize);
    RowMajorOffset(other, dims, elementSize);
    LinearInRange(one, dims);
    LinearAndUnravel(one, 0, dims);
    LinearAndUnravel(other, 0, dims);
    Apart(Linear(one, dims), Linear(other, dims), elementSize);
  }

  lemma Apart(x: int, y: int, size: nat)
    requires x != y
    ensures size * x + size <= size * y || size * y + size <= size * x
  {
    if x < y {
      MulGrows(size, x + 1, y);
    } else {
      MulGrows(size, y + 1, x);
    }
  }
}
