/**
 * Vertex-array attribute-slot accounting (`src/renderer/vertex_array.rs`).
 * Each `glVertexAttribPointer` call (with the `glEnableVertexAttribArray`
 * and `glVertexAttribDivisor` calls around it) is recorded as one
 * `VertexAttribute` descriptor in a ghost log.
 */
module VertexArrays {
  import opened Wrappers
  import opened Buffer

  /** The GL component types the engine uses (`gl::FLOAT`, `gl::INT`, `gl::BOOL`). */
  datatype GlBaseType = GlFloat | GlInt | GlBool

  /** `shader_data_type_to_gl_base_type`. */
  function ShaderDataTypeToGlBaseType(t: ShaderDataType): (r: GlBaseType)
    ensures r == GlFloat <==> IsFloatVector(t) || IsMatrix(t)
    ensures r == GlInt <==> t.Int? || t.Int2? || t.Int3? || t.Int4?
    ensures r == GlBool <==> t.Bool?
  {
    match t
    case Float => GlFloat
    case Float2 => GlFloat
    case Float3 => GlFloat
    case Float4 => GlFloat
    case Mat3 => GlFloat
    case Mat4 => GlFloat
    case Int => GlInt
    case Int2 => GlInt
    case Int3 => GlInt
    case Int4 => GlInt
    case Bool => GlBool
  }

  /**
   * One attribute slot as the driver is told about it. `divisor` is
   * `Some(1)` where `glVertexAttribDivisor(index, 1)` was issued.
   */
  datatype VertexAttribute = VertexAttribute(
    index: nat,
    componentCount: nat,
    baseType: GlBaseType,
    normalized: bool,
    stride: nat,
    offset: nat,
    divisor: Option<nat>)

  /** Column `i` of a matrix element: `count` floats at `offset + 4 * count * i`, one per instance. */
  function MatrixColumn(e: BufferElement, stride: nat, start: nat, i: nat): VertexAttribute {
    var count := ComponentCount(e.dataType);
    VertexAttribute(start + i, count, ShaderDataTypeToGlBaseType(e.dataType), e.normalized,
                    stride, e.offset + 4 * count * i, Some(1))
  }

  /** The first `n` columns of a matrix element, in slot order. */
  function MatrixColumns(e: BufferElement, stride: nat, start: nat, n: nat): seq<VertexAttribute> {
    if n == 0 then [] else MatrixColumns(e, stride, start, n - 1) + [MatrixColumn(e, stride, start, n - 1)]
  }

  /** The descriptors `add_vertex_buffer` issues for one element whose first slot is `start`. */
  function ElementAttributes(e: BufferElement, stride: nat, start: nat): seq<VertexAttribute> {
    if IsFloatVector(e.dataType) then
      [VertexAttribute(start, ComponentCount(e.dataType), ShaderDataTypeToGlBaseType(e.dataType),
                       false, stride, e.offset, None)]
    else if IsIntOrBool(e.dataType) then
      [VertexAttribute(start, ComponentCount(e.dataType), ShaderDataTypeToGlBaseType(e.dataType),
                       e.normalized, stride, e.offset, None)]
    else
      MatrixColumns(e, stride, start, ComponentCount(e.dataType))
  }

  /** Slots one element uses: one for a vector, one per column for a matrix. */
  function AttributeSlots(t: ShaderDataType): (r: nat)
    ensures IsMatrix(t) ==> r == Columns(t) && r == ComponentCount(t)
    ensures !IsMatrix(t) ==> r == 1
  {
    if IsMatrix(t) then ComponentCount(t) else 1
  }

  /** Slots a run of elements uses. */
  function SlotCount(es: seq<BufferElement>): nat {
    if es == [] then 0 else SlotCount(es[..|es| - 1]) + AttributeSlots(es[|es| - 1].dataType)
  }

  /** Slot counts depend only on the data types. */
  lemma {:induction false} SlotCountOfSameTypes(a: seq<BufferElement>, b: seq<BufferElement>)
    requires |a| == |b|
    requires forall k :: 0 <= k < |a| ==> a[k].dataType == b[k].dataType
    ensures SlotCount(a) == SlotCount(b)
  {
    if a != [] {
      SlotCountOfSameTypes(a[..|a| - 1], b[..|b| - 1]);
    }
  }

  /** All descriptors for a run of elements, the first one at slot `start`. */
  function LayoutAttributes(es: seq<BufferElement>, stride: nat, start: nat): seq<VertexAttribute> {
    if es == [] then []
    else
      LayoutAttributes(es[..|es| - 1], stride, start)
        + ElementAttributes(es[|es| - 1], stride, start + SlotCount(es[..|es| - 1]))
  }

  /** Describing element `k` after the first `k` appends its descriptors, numbered on from the slots already used. */
  lemma LayoutAttributesStep(es: seq<BufferElement>, k: nat, stride: nat, start: nat)
    requires k < |es|
    ensures SlotCount(es[..k + 1]) == SlotCount(es[..k]) + AttributeSlots(es[k].dataType)
    ensures LayoutAttributes(es[..k + 1], stride, start) ==
      LayoutAttributes(es[..k], stride, start) + ElementAttributes(es[k], stride, start + SlotCount(es[..k]))
  {
    assert es[..k + 1][..k] == es[..k];
  }

  lemma {:induction false} MatrixColumnsIndexed(e: BufferElement, stride: nat, start: nat, n: nat)
    ensures |MatrixColumns(e, stride, start, n)| == n
    ensures forall j :: 0 <= j < n ==> MatrixColumns(e, stride, start, n)[j] == MatrixColumn(e, stride, start, j)
  {
    if n > 0 {
      MatrixColumnsIndexed(e, stride, start, n - 1);
    }
  }

  /** Descriptor `j` describes slot `start + j`. */
  predicate NumberedFrom(attrs: seq<VertexAttribute>, start: nat) {
    forall j :: 0 <= j < |attrs| ==> attrs[j].index == start + j
  }

  /** Appending descriptors numbered on from the last keeps the numbering consecutive. */
  lemma NumberedAppend(a: seq<VertexAttribute>, b: seq<VertexAttribute>, start: nat)
    requires NumberedFrom(a, start) && NumberedFrom(b, start + |a|)
    ensures NumberedFrom(a + b, start)
  {
    forall j | 0 <= j < |a + b|
      ensures (a + b)[j].index == start + j
    {
      if j >= |a| {
        assert (a + b)[j] == b[j - |a|];
      }
    }
  }

  /** An element's descriptors occupy exactly its slots, numbered consecutively from `start`. */
  lemma ElementAttributesIndexed(e: BufferElement, stride: nat, start: nat)
    ensures |ElementAttributes(e, stride, start)| == AttributeSlots(e.dataType)
    ensures NumberedFrom(ElementAttributes(e, stride, start), start)
  {
    if IsMatrix(e.dataType) {
      MatrixColumnsIndexed(e, stride, start, ComponentCount(e.dataType));
    }
  }

  /**
   * Slots are handed out without gaps or reuse: the descriptors for a run
   * of elements number exactly `SlotCount` slots consecutively from `start`.
   */
  lemma {:induction false} LayoutAttributesIndexed(es: seq<BufferElement>, stride: nat, start: nat)
    ensures |LayoutAttributes(es, stride, start)| == SlotCount(es)
    ensures NumberedFrom(LayoutAttributes(es, stride, start), start)
  {
    if es != [] {
      var front := es[..|es| - 1];
      LayoutAttributesIndexed(front, stride, start);
      ElementAttributesIndexed(es[|es| - 1], stride, start + SlotCount(front));
      NumberedAppend(LayoutAttributes(front, stride, start), ElementAttributes(es[|es| - 1], stride, start + SlotCount(front)), start);
    }
  }

  /**
   * Every float element is described with `normalized = false` whatever
   * the element says, and every vector element with the layout's stride and
   * the element's own offset.
   */
  lemma {:induction false} VectorElementDescribed(e: BufferElement, stride: nat, start: nat)
    requires !IsMatrix(e.dataType)
    ensures ElementAttributes(e, stride, start) ==
      [VertexAttribute(start, ComponentCount(e.dataType), ShaderDataTypeToGlBaseType(e.dataType),
                       if IsFloatVector(e.dataType) then false else e.normalized, stride, e.offset, None)]
  {
  }

  /** A `Mat3` or `Mat4` element is described as `count` columns of `count` floats, 4 * count bytes apart. */
  lemma MatrixElementDescribed(e: BufferElement, stride: nat, start: nat, i: nat)
    requires IsMatrix(e.dataType) && i < ComponentCount(e.dataType)
    ensures |ElementAttributes(e, stride, start)| == ComponentCount(e.dataType)
    ensures ElementAttributes(e, stride, start)[i] ==
      VertexAttribute(start + i, ComponentCount(e.dataType), GlFloat, e.normalized, stride,
                      e.offset + 4 * ComponentCount(e.dataType) * i, Some(1))
  {
    MatrixColumnsIndexed(e, stride, start, ComponentCount(e.dataType));
  }

  lemma ConcatAssociative<T>(a: seq<T>, b: seq<T>, c: seq<T>)
    ensures (a + b) + c == a + (b + c)
  {
  }

  class VertexArray {
    const id: nat
    var vertexBufferIndex: nat
    var vertexBuffers: seq<VertexBuffer>
    var indexBuffer: Option<IndexBuffer>
    /** Every attribute slot described to the driver, in the order of the calls. */
    ghost var attributes: seq<VertexAttribute>

    /** Slot `j` is described by the `j`-th recorded descriptor, and the next free slot follows the last. */
    ghost predicate Valid()
      reads this
    {
      |attributes| == vertexBufferIndex && NumberedFrom(attributes, 0)
    }

    /** `VertexArray::new`, with the id `glGenVertexArrays` returned. */
    constructor (id: nat)
      ensures Valid()
      ensures this.id == id && vertexBufferIndex == 0 && vertexBuffers == [] && indexBuffer == None
      ensures attributes == []
    {
      this.id := id;
      vertexBufferIndex := 0;
      vertexBuffers := [];
      indexBuffer := None;
      attributes := [];
    }

    /**
     * `VertexArray::add_vertex_buffer`: describes every element of the
     * buffer's layout to the driver, starting at the next free slot, and
     * keeps the buffer.
     */
    method AddVertexBuffer(vertexBuffer: VertexBuffer)
      requires Valid()
      modifies this
      ensures Valid()
      ensures vertexBufferIndex == old(vertexBufferIndex) + SlotCount(vertexBuffer.layout.elements)
      ensures attributes == old(attributes) +
        LayoutAttributes(vertexBuffer.layout.elements, vertexBuffer.layout.stride, old(vertexBufferIndex))
      ensures vertexBuffers == old(vertexBuffers) + [vertexBuffer]
      ensures indexBuffer == old(indexBuffer)
    {
      ghost var start := vertexBufferIndex;
      DescribeElements(vertexBuffer.layout.elements, vertexBuffer.layout.stride);
      LayoutAttributesIndexed(vertexBuffer.layout.elements, vertexBuffer.layout.stride, start);
      NumberedAppend(old(attributes), LayoutAttributes(vertexBuffer.layout.elements, vertexBuffer.layout.stride, start), 0);
      vertexBuffers := vertexBuffers + [vertexBuffer];
    }

    /** The element loop of `add_vertex_buffer`. */
    method DescribeElements(elements: seq<BufferElement>, stride: nat)
      modifies this`vertexBufferIndex, this`attributes
      ensures vertexBufferIndex == old(vertexBufferIndex) + SlotCount(elements)
      ensures attributes == old(attributes) + LayoutAttributes(elements, stride, old(vertexBufferIndex))
    {
      ghost var start := vertexBufferIndex;
      ghost var described: seq<VertexAttribute> := [];
      var k := 0;
      while k < |elements|
        invariant 0 <= k <= |elements|
        invariant vertexBufferIndex == start + SlotCount(elements[..k])
        invariant described == LayoutAttributes(elements[..k], stride, start)
        invariant attributes == old(attributes) + described
      {
        ghost var step := ElementAttributes(elements[k], stride, vertexBufferIndex);
        DescribeElement(elements[k], stride);
        LayoutAttributesStep(elements, k, stride, start);
        ConcatAssociative(old(attributes), described, step);
        described := described + step;
        k := k + 1;
      }
      assert elements[..k] == elements;
    }

    /** The body of the element loop of `add_vertex_buffer`: one element's attribute calls. */
    method DescribeElement(element: BufferElement, stride: nat)
      modifies this`vertexBufferIndex, this`attributes
      ensures vertexBufferIndex == old(vertexBufferIndex) + AttributeSlots(element.dataType)
      ensures attributes == old(attributes) + ElementAttributes(element, stride, old(vertexBufferIndex))
    {
      match element.dataType {
        case Float | Float2 | Float3 | Float4 =>
          attributes := attributes + [VertexAttribute(vertexBufferIndex, ComponentCount(element.dataType),
            ShaderDataTypeToGlBaseType(element.dataType), false, stride, element.offset, None)];
          vertexBufferIndex := vertexBufferIndex + 1;
        case Int | Int2 | Int3 | Int4 | Bool =>
          attributes := attributes + [VertexAttribute(vertexBufferIndex, ComponentCount(element.dataType),
            ShaderDataTypeToGlBaseType(element.dataType), element.normalized, stride, element.offset, None)];
          vertexBufferIndex := vertexBufferIndex + 1;
        case Mat3 | Mat4 =>
          DescribeMatrixColumns(element, stride);
      }
    }

    /** The column loop of `add_vertex_buffer` for a `Mat3` or `Mat4` element. */
    method DescribeMatrixColumns(element: BufferElement, stride: nat)
      requires IsMatrix(element.dataType)
      modifies this`vertexBufferIndex, this`attributes
      ensures vertexBufferIndex == old(vertexBufferIndex) + ComponentCount(element.dataType)
      ensures attributes == old(attributes) + MatrixColumns(element, stride, old(vertexBufferIndex), ComponentCount(element.dataType))
    {
      var count := ComponentCount(element.dataType);
      ghost var first := vertexBufferIndex;
      var i := 0;
      while i < count
        invariant 0 <= i <= count
        invariant vertexBufferIndex == first + i
        invariant attributes == old(attributes) + MatrixColumns(element, stride, first, i)
      {
        attributes := attributes + [VertexAttribute(vertexBufferIndex, count,
          ShaderDataTypeToGlBaseType(element.dataType), element.normalized, stride,
          element.offset + 4 * count * i, Some(1))];
        vertexBufferIndex := vertexBufferIndex + 1;
        i := i + 1;
      }
    }

    /** `VertexArray::set_index_buffer`. */
    method SetIndexBuffer(b: IndexBuffer)
      modifies this`indexBuffer
      ensures indexBuffer == Some(b)
      ensures GetIndexBuffer() == Ok(b)
    {
      indexBuffer := Some(b);
    }

    /** `VertexArray::get_index_buffer`: panics (here: an error) before any `set_index_buffer`. */
    function GetIndexBuffer(): (r: Result<IndexBuffer>)
      reads this
      ensures r.Err? <==> indexBuffer == None
      ensures r.Err? ==> r.error == NoIndexBuffer
    {
      match indexBuffer
      case Some(b) => Ok(b)
      case None => Err(NoIndexBuffer)
    }
  }
}
