/**
 * Vertex-buffer layout arithmetic (`src/renderer/buffer.rs`): the byte size
 * and component count of each shader data type, buffer elements, and the
 * offsets and stride of a layout. The GL buffer objects themselves are
 * represented by the ids the driver hands out.
 */
module Buffer {
  import opened Wrappers

  datatype ShaderDataType =
    Float | Float2 | Float3 | Float4 | Mat3 | Mat4 | Int | Int2 | Int3 | Int4 | Bool

  predicate IsFloatVector(t: ShaderDataType) { t.Float? || t.Float2? || t.Float3? || t.Float4? }

  predicate IsMatrix(t: ShaderDataType) { t.Mat3? || t.Mat4? }

  predicate IsIntOrBool(t: ShaderDataType) { t.Int? || t.Int2? || t.Int3? || t.Int4? || t.Bool? }

  /** The number of columns a type occupies: one for vectors and scalars, three or four for matrices. */
  function Columns(t: ShaderDataType): nat {
    match t
    case Mat3 => 3
    case Mat4 => 4
    case _ => 1
  }

  /** `BufferElement::get_component_count`: components per column. */
  function ComponentCount(t: ShaderDataType): (r: nat)
    ensures 1 <= r <= 4
    ensures IsMatrix(t) ==> r == Columns(t)
    ensures t.Bool? ==> r == 1
  {
    match t
    case Float => 1
    case Float2 => 2
    case Float3 => 3
    case Float4 => 4
    case Mat3 => 3
    case Mat4 => 4
    case Int => 1
    case Int2 => 2
    case Int3 => 3
    case Int4 => 4
    case Bool => 1
  }

  /**
   * `shader_data_type_size`: bytes per element. Every type but `Bool` is
   * made of 4-byte components, laid out column by column.
   */
  function ShaderDataTypeSize(t: ShaderDataType): (r: nat)
    ensures r >= 1
    ensures t.Bool? ==> r == 1
    ensures !t.Bool? ==> r == 4 * ComponentCount(t) * Columns(t)
  {
    match t
    case Float => 4
    case Float2 => 4 * 2
    case Float3 => 4 * 3
    case Float4 => 4 * 4
    case Mat3 => 4 * 3 * 3
    case Mat4 => 4 * 4 * 4
    case Int => 4
    case Int2 => 4 * 2
    case Int3 => 4 * 3
    case Int4 => 4 * 4
    case Bool => 1
  }

  datatype BufferElement = BufferElement(
    name: string,
    dataType: ShaderDataType,
    size: nat,
    offset: nat,
    normalized: bool)

  /** An element whose size is the one its data type calls for, as `BufferElement::new` makes it. */
  predicate SizedByType(e: BufferElement) {
    e.size == ShaderDataTypeSize(e.dataType)
  }

  /** `BufferElement::new`: size from the data type, offset 0, `normalized` defaulting to false. */
  function NewBufferElement(name: string, dataType: ShaderDataType, normalized: Option<bool>): (r: BufferElement)
    ensures SizedByType(r) && r.size >= 1
    ensures r.name == name && r.dataType == dataType && r.offset == 0
    ensures r.normalized <==> normalized == Some(true)
  {
    BufferElement(name, dataType, ShaderDataTypeSize(dataType), 0,
                  match normalized case Some(n) => n case None => false)
  }

  /** The total size in bytes of a run of elements. */
  function SizeSum(es: seq<BufferElement>): nat
  {
    if es == [] then 0 else SizeSum(es[..|es| - 1]) + es[|es| - 1].size
  }

  datatype BufferLayout = BufferLayout(elements: seq<BufferElement>, stride: nat)

  /** A layout whose offsets and stride have been computed: each offset is the size of everything before it. */
  ghost predicate LaidOut(l: BufferLayout) {
    && (forall k :: 0 <= k < |l.elements| ==> l.elements[k].offset == SizeSum(l.elements[..k]))
    && l.stride == SizeSum(l.elements)
  }

  /** Two runs of elements whose sizes agree pairwise have the same total size. */
  lemma {:induction false} SizeSumOfSameSizes(a: seq<BufferElement>, b: seq<BufferElement>)
    requires |a| == |b|
    requires forall k :: 0 <= k < |a| ==> a[k].size == b[k].size
    ensures SizeSum(a) == SizeSum(b)
  {
    if a != [] {
      SizeSumOfSameSizes(a[..|a| - 1], b[..|b| - 1]);
    }
  }

  /**
   * `BufferLayout::calculate_offset_and_stride`: walks the elements once,
   * writing each element's offset and accumulating the stride.
   */
  method CalculateOffsetAndStride(layout: BufferLayout) returns (r: BufferLayout)
    ensures |r.elements| == |layout.elements|
    ensures forall k :: 0 <= k < |r.elements| ==>
      r.elements[k] == layout.elements[k].(offset := SizeSum(layout.elements[..k]))
    ensures r.stride == SizeSum(layout.elements)
    ensures LaidOut(r)
  {
    var elements := layout.elements;
    var offset := 0;
    var stride := 0;
    var i := 0;
    while i < |elements|
      invariant 0 <= i <= |elements| == |layout.elements|
      invariant offset == stride == SizeSum(layout.elements[..i])
      invariant forall k :: 0 <= k < i ==>
        elements[k] == layout.elements[k].(offset := SizeSum(layout.elements[..k]))
      invariant forall k :: i <= k < |elements| ==> elements[k] == layout.elements[k]
    {
      elements := elements[i := elements[i].(offset := offset)];
      offset := offset + elements[i].size;
      stride := stride + elements[i].size;
      SizeSumStep(layout.elements, i);
      i := i + 1;
    }
    assert layout.elements[..i] == layout.elements;
    r := BufferLayout(elements, stride);
    OffsetsReplacedLaidOut(layout.elements, r);
  }

  /** The prefix sum up to `i + 1` adds element `i`'s size. */
  lemma SizeSumStep(es: seq<BufferElement>, i: nat)
    requires i < |es|
    ensures SizeSum(es[..i + 1]) == SizeSum(es[..i]) + es[i].size
  {
    assert es[..i + 1][..i] == es[..i];
  }

  /** Writing the prefix sums into the offsets lays a run of elements out, with the total as stride. */
  lemma OffsetsReplacedLaidOut(es: seq<BufferElement>, r: BufferLayout)
    requires |r.elements| == |es| && r.stride == SizeSum(es)
    requires forall k :: 0 <= k < |es| ==> r.elements[k] == es[k].(offset := SizeSum(es[..k]))
    ensures LaidOut(r)
  {
    forall k | 0 <= k < |r.elements|
      ensures r.elements[k].offset == SizeSum(r.elements[..k])
    {
      SizeSumOfSameSizes(r.elements[..k], es[..k]);
    }
    SizeSumOfSameSizes(r.elements, es);
  }

  /** `BufferLayout::new`. */
  method NewBufferLayout(elements: seq<BufferElement>) returns (r: BufferLayout)
    ensures |r.elements| == |elements|
    ensures forall k :: 0 <= k < |r.elements| ==>
      r.elements[k] == elements[k].(offset := SizeSum(elements[..k]))
    ensures r.stride == SizeSum(elements)
    ensures LaidOut(r)
    ensures elements == [] ==> r.stride == 0
  {
    r := CalculateOffsetAndStride(BufferLayout(elements, 0));
  }

  /** `BufferLayout::get_stride`: the bytes from one vertex to the next. */
  function GetStride(l: BufferLayout): (r: nat)
    requires LaidOut(l)
    ensures r == SizeSum(l.elements)
    ensures forall k :: 0 <= k < |l.elements| ==> l.elements[k].offset + l.elements[k].size <= r
  {
    OffsetPlusSizeWithinStride(l);
    l.stride
  }

  /** The prefix sums grow by at least each element's size. */
  lemma {:induction false} SizeSumGrows(es: seq<BufferElement>, i: nat, j: nat)
    requires i < j <= |es|
    ensures SizeSum(es[..i]) + es[i].size <= SizeSum(es[..j])
  {
    assert es[..j][..j - 1] == es[..j - 1];
    if j - 1 > i {
      SizeSumGrows(es, i, j - 1);
    } else {
      assert es[..j - 1] == es[..i];
    }
  }

  /** In a laid-out layout every element finishes within the stride. */
  lemma OffsetPlusSizeWithinStride(l: BufferLayout)
    requires LaidOut(l)
    ensures forall k :: 0 <= k < |l.elements| ==> l.elements[k].offset + l.elements[k].size <= l.stride
  {
    forall k | 0 <= k < |l.elements|
      ensures l.elements[k].offset + l.elements[k].size <= l.stride
    {
      SizeSumGrows(l.elements, k, |l.elements|);
      assert l.elements[..|l.elements|] == l.elements;
    }
  }

  /**
   * When every element is sized by its type (so no size is zero), offsets
   * are strictly increasing: no two attributes share bytes.
   */
  lemma OffsetsIncrease(l: BufferLayout, i: nat, j: nat)
    requires LaidOut(l)
    requires forall k :: 0 <= k < |l.elements| ==> SizedByType(l.elements[k])
    requires i < j < |l.elements|
    ensures l.elements[i].offset + l.elements[i].size <= l.elements[j].offset
    ensures l.elements[i].offset < l.elements[j].offset
  {
    SizeSumGrows(l.elements, i, j);
  }

  /** The last element ends exactly at the stride. */
  lemma LastElementEndsAtStride(l: BufferLayout)
    requires LaidOut(l) && |l.elements| > 0
    ensures l.elements[|l.elements| - 1].offset + l.elements[|l.elements| - 1].size == l.stride
  {
  }

  datatype VertexBuffer = VertexBuffer(id: nat, layout: BufferLayout)

  /** `VertexBuffer::new`: a driver buffer id with the empty layout. */
  function NewVertexBuffer(id: nat): (r: VertexBuffer)
    ensures r.id == id && r.layout.elements == [] && r.layout.stride == 0 && LaidOut(r.layout)
  {
    VertexBuffer(id, BufferLayout([], 0))
  }

  const U32_LIMIT: nat := 0x1_0000_0000

  datatype IndexBuffer = IndexBuffer(id: nat, count: nat)

  /**
   * `IndexBuffer::new`: keeps the driver id and the number of indices,
   * truncated to `u32` as `indices.len() as u32` does.
   */
  function NewIndexBuffer(id: nat, indices: seq<nat>): (r: IndexBuffer)
    ensures r.id == id && r.count < U32_LIMIT
    ensures |indices| < U32_LIMIT ==> r.count == |indices|
  {
    IndexBuffer(id, |indices| % U32_LIMIT)
  }

  /** `IndexBuffer::get_count`. */
  function GetCount(b: IndexBuffer): nat { b.count }

  /** `IndexBuffer::new(indices).get_count() == indices.len()` for every buffer that fits `u32`. */
  lemma IndexBufferCount(id: nat, indices: seq<nat>)
    requires |indices| < U32_LIMIT
    ensures GetCount(NewIndexBuffer(id, indices)) == |indices|
  {
  }
}
