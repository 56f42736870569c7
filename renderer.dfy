/**
 * The batched quad renderer (`src/renderer/renderer.rs`). Draw requests are
 * accumulated as vertices; a batch is flushed to the driver when its index
 * capacity or its 32 texture slots run out, and at the end of a scene.
 * Each flush is recorded in a ghost log instead of being sent to OpenGL.
 */
module Renderers {
  import opened Wrappers
  import opened Math
  import Aabb
  import opened Buffer
  import opened VertexArrays
  import opened Batching

  const MAX_QUADS: nat := 10000
  const MAX_VERTICES: nat := MAX_QUADS * 4
  const MAX_INDICES: nat := MAX_QUADS * 6

  /** `QuadVertex`: ten `f32`s, position, colour, texture coordinate and texture slot. */
  datatype QuadVertex = QuadVertex(position: Vec3, color: Vec4, textureCoord: Vec2, textureIndex: nat)

  /** Corner `i` of a quad as `draw_quad` builds it. */
  function QuadCorner(position: Vec2, size: Vec2, color: Vec4, textureIndex: nat, i: nat): QuadVertex
    requires i < 4
  {
    var p := CornerPosition(position, size, i);
    QuadVertex(Vec3(p.x, p.y, 0.0), color, CornerTextureCoord(i), textureIndex)
  }

  /** The four vertices `draw_quad` appends, in corner order. */
  function QuadCorners(position: Vec2, size: Vec2, color: Vec4, textureIndex: nat): seq<QuadVertex> {
    [QuadCorner(position, size, color, textureIndex, 0), QuadCorner(position, size, color, textureIndex, 1),
     QuadCorner(position, size, color, textureIndex, 2), QuadCorner(position, size, color, textureIndex, 3)]
  }

  /**
   * The corners appended for a quad are those of the box of extent `size`
   * centred on `position`: bottom left, bottom right, top right, top left;
   * every vertex carries the colour and slot unchanged.
   */
  lemma QuadCornersSpanBox(position: Vec2, size: Vec2, color: Vec4, textureIndex: nat)
    ensures var b := Aabb.FromPositionAndSize(position, size);
      && QuadCorners(position, size, color, textureIndex)[0].position == Vec3(b.min.x, b.min.y, 0.0)
      && QuadCorners(position, size, color, textureIndex)[1].position == Vec3(b.max.x, b.min.y, 0.0)
      && QuadCorners(position, size, color, textureIndex)[2].position == Vec3(b.max.x, b.max.y, 0.0)
      && QuadCorners(position, size, color, textureIndex)[3].position == Vec3(b.min.x, b.max.y, 0.0)
    ensures forall i :: 0 <= i < 4 ==>
      QuadCorners(position, size, color, textureIndex)[i].color == color &&
      QuadCorners(position, size, color, textureIndex)[i].textureIndex == textureIndex &&
      QuadCorners(position, size, color, textureIndex)[i].textureCoord == CornerTextureCoord(i)
  {
  }

  /** The vertex layout `Renderer::new` installs on the quad vertex buffer. */
  function QuadLayoutElements(): seq<BufferElement> {
    [NewBufferElement("a_position", Float3, None),
     NewBufferElement("a_color", Float4, None),
     NewBufferElement("a_texture_coord", Float2, None),
     NewBufferElement("a_texture_index", Float, None)]
  }

  /** The quad layout is 40 bytes per vertex, the size of the ten-float `QuadVertex` record. */
  lemma QuadLayoutStride()
    ensures SizeSum(QuadLayoutElements()) == 40 == 4 * (3 + 4 + 2 + 1)
    ensures SlotCount(QuadLayoutElements()) == 4
  {
    var es := QuadLayoutElements();
    assert es[..1][..0] == [] && es[..2][..1] == es[..1] && es[..3][..2] == es[..2] && es[..4] == es;
    assert SizeSum(es[..1]) == 12 && SlotCount(es[..1]) == 1;
    assert SizeSum(es[..2]) == 28 && SlotCount(es[..2]) == 2;
    assert SizeSum(es[..3]) == 36 && SlotCount(es[..3]) == 3;
  }

  /**
   * The vertex array `Renderer::new` builds: the quad layout on the vertex
   * buffer, and the static index buffer of `MAX_INDICES` entries.
   */
  method NewQuadVertexArray(ids: GlIds) returns (va: VertexArray, vb: VertexBuffer, indices: seq<nat>)
    ensures fresh(va) && va.Valid()
    ensures vb.id == ids.vertexBuffer && LaidOut(vb.layout) && vb.layout.stride == 40
    ensures va.id == ids.vertexArray && va.vertexBuffers == [vb] && va.vertexBufferIndex == 4
    ensures va.indexBuffer == Some(IndexBuffer(ids.indexBuffer, MAX_INDICES))
    ensures |indices| == MAX_INDICES
    ensures forall n :: 0 <= n < |indices| ==> indices[n] == IndexAt(n)
  {
    va := new VertexArray(ids.vertexArray);
    var layout := NewBufferLayout(QuadLayoutElements());
    QuadLayoutStride();
    vb := NewVertexBuffer(ids.vertexBuffer).(layout := layout);
    va.AddVertexBuffer(vb);
    SlotCountOfSameTypes(vb.layout.elements, QuadLayoutElements());
    indices := GenerateIndices(MAX_INDICES);
    va.SetIndexBuffer(NewIndexBuffer(ids.indexBuffer, indices));
  }

  /**
   * A scene of `n` untextured `draw_quad` calls, each appending four
   * corners, reaches the driver in exactly `ceil(n / MAX_QUADS)` flushes.
   */
  lemma SceneFlushes(b: Batch<QuadVertex>, quads: seq<seq<QuadVertex>>)
    requires SlotsInRange(b)
    requires forall i :: 0 <= i < |quads| ==> |quads[i]| == 4
    ensures var e := Flushed(DrawnAll(SceneBegun(b), MAX_INDICES, quads));
      |e.log| == |b.log| + (|quads| + MAX_QUADS - 1) / MAX_QUADS
  {
    SceneFlushCount(b, MAX_INDICES, quads);
    assert MAX_INDICES / 6 == MAX_QUADS;
  }

  class Renderer {
    const quadVertexArray: VertexArray
    const quadVertexBuffer: VertexBuffer
    /** `white_texture.id`. */
    const whiteTexture: nat
    const textureSlots: array<nat>

    var quadIndexCount: nat
    var quadVertices: seq<QuadVertex>
    var textureSlotIndex: nat
    var viewProjection: Matrix4

    /** The contents uploaded to the static index buffer. */
    ghost const quadIndexData: seq<nat>
    /** Every non-empty flush, in order. */
    ghost var flushLog: seq<FlushRecord>
    /** Quads drawn since the scene began. */
    ghost var sceneQuads: nat
    /** Batches flushed and cleared by `next_batch` since the scene began. */
    ghost var retired: seq<FlushRecord>
    ghost const Repr: set<object>

    /** The batch state the fields represent. */
    ghost function Model(): Batch<QuadVertex>
      reads this, textureSlots
    {
      Batch(quadVertices, quadIndexCount, textureSlots[..], textureSlotIndex, flushLog, retired, sceneQuads)
    }

    /** The batch invariant, and every pending vertex names a bound slot. */
    ghost predicate Shaped()
      reads this, Repr
    {
      && Repr == {this, textureSlots, quadVertexArray}
      && Shape(Model(), whiteTexture, MAX_INDICES)
      && (forall k :: 0 <= k < |quadVertices| ==> quadVertices[k].textureIndex < textureSlotIndex)
    }

    /** Besides `Shaped`: no quad drawn in this scene is lost. */
    ghost predicate Valid()
      reads this, Repr
    {
      Shaped() && Accounted(Model())
    }

    /**
     * `Renderer::new`, with the driver ids supplied: installs the quad
     * layout, the static index buffer and the white texture in slot 0.
     */
    constructor (ids: GlIds)
      ensures Valid() && fresh(Repr)
      ensures whiteTexture == ids.whiteTexture
      ensures Model() == Batch([], 0, textureSlots[..], 1, [], [], 0)
      ensures viewProjection == Identity
      ensures quadVertexBuffer.id == ids.vertexBuffer && LaidOut(quadVertexBuffer.layout)
      ensures quadVertexBuffer.layout.stride == 40
      ensures quadVertexArray.id == ids.vertexArray && quadVertexArray.Valid()
      ensures quadVertexArray.vertexBuffers == [quadVertexBuffer]
      ensures quadVertexArray.vertexBufferIndex == 4
      ensures quadVertexArray.indexBuffer == Some(IndexBuffer(ids.indexBuffer, MAX_INDICES))
      ensures |quadIndexData| == MAX_INDICES
      ensures forall n :: 0 <= n < |quadIndexData| ==> quadIndexData[n] == IndexAt(n)
      ensures forall k :: 1 <= k < MAX_TEXTURE_SLOTS ==> textureSlots[k] == 0
    {
      var va, vb, indices := NewQuadVertexArray(ids);
      var slots := new nat[MAX_TEXTURE_SLOTS](_ => 0);
      slots[0] := ids.whiteTexture;

      quadVertexArray := va;
      quadVertexBuffer := vb;
      whiteTexture := ids.whiteTexture;
      textureSlots := slots;
      quadIndexCount := 0;
      quadVertices := [];
      textureSlotIndex := 1;
      viewProjection := Identity;
      quadIndexData := indices;
      flushLog := [];
      sceneQuads := 0;
      retired := [];
      Repr := {this, slots, va};
    }

    /** `begin_scene_with_matrix`: installs the transform and starts an empty batch and scene. */
    method BeginSceneWithMatrix(m: Matrix4)
      requires Valid()
      modifies this
      ensures Valid()
      ensures viewProjection == m
      ensures Model() == SceneBegun(old(Model()))
    {
      viewProjection := m;
      StartBatch();
      sceneQuads := 0;
      retired := [];
    }

    /**
     * `end_scene`: flushes the pending batch without clearing it. Every quad
     * drawn since the scene began has then reached the driver exactly once.
     */
    method EndScene()
      requires Valid()
      modifies this`flushLog
      ensures Valid()
      ensures Model() == Flushed(old(Model()))
      ensures VertexTotal(retired) + VertexTotal(flushLog[|old(flushLog)|..]) == 4 * sceneQuads
    {
      ghost var b := Model();
      Flush();
      FlushedDelivers(b);
    }

    /** `start_batch`: an empty batch with only the white texture bound. */
    method StartBatch()
      requires Shaped()
      modifies this`quadIndexCount, this`quadVertices, this`textureSlotIndex
      ensures Shaped()
      ensures Model() == Started(old(Model()))
    {
      quadIndexCount := 0;
      quadVertices := [];
      textureSlotIndex := 1;
    }

    /**
     * `flush`: nothing on an empty batch; otherwise uploads the vertices,
     * binds units `0..texture_slot_index` and draws `quad_index_count`
     * indices.
     */
    method Flush()
      requires Shaped()
      modifies this`flushLog
      ensures Shaped()
      ensures Model() == Flushed(old(Model()))
    {
      FlushedKeepsShape(Model(), whiteTexture, MAX_INDICES);
      if |quadVertices| == 0 {
        return;
      }
      ghost var bound: seq<nat> := [];
      var i := 0;
      while i < textureSlotIndex
        invariant 0 <= i <= textureSlotIndex
        invariant bound == textureSlots[..i]
      {
        bound := bound + [textureSlots[i]];
        i := i + 1;
      }
      flushLog := flushLog + [FlushRecord(|quadVertices|, quadIndexCount, bound)];
    }

    /** `next_batch`: flush, then start an empty batch; the flushed quads count as retired. */
    method NextBatch()
      requires Valid()
      modifies this`flushLog, this`quadIndexCount, this`quadVertices, this`textureSlotIndex, this`retired
      ensures Valid()
      ensures Model() == Restarted(old(Model()))
      ensures viewProjection == old(viewProjection)
    {
      ghost var b := Model();
      RestartedKeepsInvariant(b, whiteTexture, MAX_INDICES);
      Flush();
      StartBatch();
      Retire(Pending(b));
    }

    /** The scene ledger's half of `next_batch`: records `rs` as flushed and cleared. */
    ghost method Retire(rs: seq<FlushRecord>)
      requires Shaped()
      modifies this`retired
      ensures Shaped()
      ensures Model() == old(Model()).(retired := old(retired) + rs)
    {
      retired := retired + rs;
    }

    /** The vertex loop of `draw_quad`. */
    method PushQuadVertices(position: Vec2, size: Vec2, color: Vec4, textureIndex: nat)
      modifies this`quadVertices
      ensures quadVertices == old(quadVertices) + QuadCorners(position, size, color, textureIndex)
    {
      var i := 0;
      while i < 4
        invariant 0 <= i <= 4
        invariant quadVertices == old(quadVertices) + QuadCorners(position, size, color, textureIndex)[..i]
      {
        quadVertices := quadVertices + [QuadCorner(position, size, color, textureIndex, i)];
        i := i + 1;
      }
    }

    /**
     * The texture part of `draw_quad`: reuse the last bound slot (other than
     * 0) holding `t`, or bind `t` to a new slot.
     */
    method AcquireSlot(t: nat) returns (index: nat)
      requires Valid() && quadIndexCount < MAX_INDICES
      modifies this, textureSlots
      ensures Valid() && quadIndexCount < MAX_INDICES && viewProjection == old(viewProjection)
      ensures Model() == Acquired(old(Model()), t) && index == AcquiredSlot(old(Model()), t)
      ensures 0 < index < textureSlotIndex
    {
      AcquiredKeepsInvariant(Model(), whiteTexture, MAX_INDICES, t);
      index := FindTextureSlot(textureSlots, textureSlotIndex, t);
      if index == 0 {
        index := AllocateSlot(t);
      }
    }

    /** Binding a texture to the next free slot, restarting first when all 32 are taken. */
    method AllocateSlot(t: nat) returns (index: nat)
      requires Valid() && quadIndexCount < MAX_INDICES
      modifies this`flushLog, this`quadIndexCount, this`quadVertices, this`textureSlotIndex, this`retired, textureSlots
      ensures Model() == Allocated(old(Model()), t) && index == AllocatedSlot(old(Model()))
      ensures Valid() && viewProjection == old(viewProjection)
    {
      if textureSlotIndex >= MAX_TEXTURE_SLOTS {
        NextBatch();
      }
      index := BindSlot(t);
    }

    /** Binds `t` to the next free slot, which the caller has made sure exists. */
    method BindSlot(t: nat) returns (index: nat)
      requires Shaped() && textureSlotIndex < MAX_TEXTURE_SLOTS
      modifies this`textureSlotIndex, textureSlots
      ensures Shaped() && index == old(textureSlotIndex)
      ensures Model() == old(Model()).(slots := old(Model()).slots[index := t], slotIndex := index + 1)
    {
      ghost var c := Model();
      index := textureSlotIndex;
      textureSlots[textureSlotIndex] := t;
      textureSlotIndex := textureSlotIndex + 1;
      assert textureSlots[..] == c.slots[index := t];
    }

    /**
     * `draw_quad`: restart the batch if it is at index capacity; look the
     * texture up among the bound slots and bind it to a new slot if absent,
     * restarting first when all 32 are taken; append the four corners.
     */
    method DrawQuad(position: Vec2, size: Vec2, color: Vec4, texture: Option<nat>)
      requires Valid()
      modifies this, textureSlots
      ensures Valid() && viewProjection == old(viewProjection)
      ensures Model() == Drawn(old(Model()), MAX_INDICES, texture,
                               QuadCorners(position, size, color, DrawSlot(old(Model()), MAX_INDICES, texture)))
    {
      if quadIndexCount >= MAX_INDICES {
        NextBatch();
      }
      var textureIndex := 0;
      if texture.Some? {
        textureIndex := AcquireSlot(texture.value);
      }
      AppendQuad(position, size, color, textureIndex);
    }

    /** The vertex and index accounting of `draw_quad`, once the slot is known. */
    method AppendQuad(position: Vec2, size: Vec2, color: Vec4, textureIndex: nat)
      requires Valid() && quadIndexCount < MAX_INDICES && textureIndex < textureSlotIndex
      modifies this`quadVertices, this`quadIndexCount, this`sceneQuads
      ensures Valid()
      ensures Model() == Appended(old(Model()), QuadCorners(position, size, color, textureIndex))
    {
      AppendedKeepsInvariant(Model(), whiteTexture, MAX_INDICES, QuadCorners(position, size, color, textureIndex));
      PushQuadVertices(position, size, color, textureIndex);
      quadIndexCount := quadIndexCount + 6;
      sceneQuads := sceneQuads + 1;
    }
  }
}
