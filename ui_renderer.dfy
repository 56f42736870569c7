/**
 * The batched rectangle renderer of the immediate-mode UI
 * (`src/ui/ui_renderer.rs`). It batches like the world renderer, with a
 * richer vertex (size, corner radius and outline, for the rounded-rectangle
 * shader) and a per-frame screen transform instead of a camera. Flushes are
 * recorded in a ghost log instead of being sent to OpenGL.
 */
module UiRenderers {
  import opened Wrappers
  import opened Math
  import Aabb
  import opened Buffer
  import opened VertexArrays
  import opened Batching

  const MAX_RECTS: nat := 10000
  const MAX_VERTICES: nat := MAX_RECTS * 4
  const MAX_INDICES: nat := MAX_RECTS * 6

  /** `RectVertex`: seventeen `f32`s. */
  datatype RectVertex = RectVertex(
    position: Vec2, color: Vec4, textureCoord: Vec2, textureIndex: nat,
    size: Vec2, cornerRadius: real, outlineThickness: real, outlineColor: Vec4)

  /** Corner `i` of a rectangle as `draw_rect` builds it: every corner carries the whole rectangle's size and style. */
  function RectCorner(position: Vec2, size: Vec2, color: Vec4, cornerRadius: real, outlineThickness: real,
                      outlineColor: Vec4, textureIndex: nat, i: nat): RectVertex
    requires i < 4
  {
    RectVertex(CornerPosition(position, size, i), color, CornerTextureCoord(i), textureIndex,
               size, cornerRadius, outlineThickness, outlineColor)
  }

  /** The four vertices `draw_rect` appends, in corner order. */
  function RectCorners(position: Vec2, size: Vec2, color: Vec4, cornerRadius: real, outlineThickness: real,
                       outlineColor: Vec4, textureIndex: nat): seq<RectVertex>
  {
    seq(4, i requires 0 <= i < 4 =>
      RectCorner(position, size, color, cornerRadius, outlineThickness, outlineColor, textureIndex, i))
  }

  /**
   * The corners appended for a rectangle are those of the box of extent
   * `size` centred on `position`, and each carries the style unchanged.
   */
  lemma RectCornersSpanBox(position: Vec2, size: Vec2, color: Vec4, cornerRadius: real, outlineThickness: real,
                           outlineColor: Vec4, textureIndex: nat)
    ensures var b := Aabb.FromPositionAndSize(position, size);
      var cs := RectCorners(position, size, color, cornerRadius, outlineThickness, outlineColor, textureIndex);
      && |cs| == 4
      && cs[0].position == b.min && cs[1].position == Vec2(b.max.x, b.min.y)
      && cs[2].position == b.max && cs[3].position == Vec2(b.min.x, b.max.y)
      && (forall i :: 0 <= i < 4 ==>
            cs[i].color == color && cs[i].textureIndex == textureIndex && cs[i].size == size
            && cs[i].cornerRadius == cornerRadius && cs[i].outlineThickness == outlineThickness
            && cs[i].outlineColor == outlineColor && cs[i].textureCoord == CornerTextureCoord(i))
  {
  }

  /** The vertex layout `UiRenderer::new` installs on the rectangle vertex buffer. */
  function RectLayoutElements(): seq<BufferElement> {
    [NewBufferElement("a_position", Float2, None),
     NewBufferElement("a_color", Float4, None),
     NewBufferElement("a_texture_coord", Float2, None),
     NewBufferElement("a_texture_index", Float, None),
     NewBufferElement("a_size", Float2, None),
     NewBufferElement("a_corner_radius", Float, None),
     NewBufferElement("a_outline_thickness", Float, None),
     NewBufferElement("a_outline_color", Float4, None)]
  }

  /** The rectangle layout is 68 bytes per vertex, the size of the seventeen-float `RectVertex` record. */
  lemma RectLayoutStride()
    ensures SizeSum(RectLayoutElements()) == 68 == 4 * (2 + 4 + 2 + 1 + 2 + 1 + 1 + 4)
    ensures SlotCount(RectLayoutElements()) == 8
  {
    var es := RectLayoutElements();
    assert es[..1][..0] == [] && es[..2][..1] == es[..1] && es[..3][..2] == es[..2] && es[..4][..3] == es[..3];
    assert es[..5][..4] == es[..4] && es[..6][..5] == es[..5] && es[..7][..6] == es[..6] && es[..8][..7] == es[..7];
    assert es[..8] == es;
    assert SizeSum(es[..1]) == 8 && SlotCount(es[..1]) == 1;
    assert SizeSum(es[..2]) == 24 && SlotCount(es[..2]) == 2;
    assert SizeSum(es[..3]) == 32 && SlotCount(es[..3]) == 3;
    assert SizeSum(es[..4]) == 36 && SlotCount(es[..4]) == 4;
    assert SizeSum(es[..5]) == 44 && SlotCount(es[..5]) == 5;
    assert SizeSum(es[..6]) == 48 && SlotCount(es[..6]) == 6;
    assert SizeSum(es[..7]) == 52 && SlotCount(es[..7]) == 7;
  }

  /**
   * The vertex array `UiRenderer::new` builds: the rectangle layout on the vertex
   * buffer, and the static index buffer of `MAX_INDICES` entries.
   */
  method NewRectVertexArray(ids: GlIds) returns (va: VertexArray, vb: VertexBuffer, indices: seq<nat>)
    ensures fresh(va) && va.Valid()
    ensures vb.id == ids.vertexBuffer && LaidOut(vb.layout) && vb.layout.stride == 68
    ensures va.id == ids.vertexArray && va.vertexBuffers == [vb] && va.vertexBufferIndex == 8
    ensures va.indexBuffer == Some(IndexBuffer(ids.indexBuffer, MAX_INDICES))
    ensures |indices| == MAX_INDICES
    ensures forall n :: 0 <= n < |indices| ==> indices[n] == IndexAt(n)
  {
    va := new VertexArray(ids.vertexArray);
    var layout := NewBufferLayout(RectLayoutElements());
    RectLayoutStride();
    vb := NewVertexBuffer(ids.vertexBuffer).(layout := layout);
    va.AddVertexBuffer(vb);
    SlotCountOfSameTypes(vb.layout.elements, RectLayoutElements());
    indices := GenerateIndices(MAX_INDICES);
    va.SetIndexBuffer(NewIndexBuffer(ids.indexBuffer, indices));
  }

  class UiRenderer {
    const rectVertexArray: VertexArray
    const rectVertexBuffer: VertexBuffer
    /** `white_texture.id`. */
    const whiteTexture: nat
    const textureSlots: array<nat>

    var rectIndexCount: nat
    var rectVertices: seq<RectVertex>
    var textureSlotIndex: nat
    var screenMatrix: Matrix4

    /** The contents uploaded to the static index buffer. */
    ghost const rectIndexData: seq<nat>
    /** Every non-empty flush, in order. */
    ghost var flushLog: seq<FlushRecord>
    /** Rectangles drawn since the frame began. */
    ghost var frameRects: nat
    /** Batches flushed and cleared by `next_batch` since the frame began. */
    ghost var retired: seq<FlushRecord>
    ghost const Repr: set<object>

    /** The batch state the fields represent. */
    ghost function Model(): Batch<RectVertex>
      reads this, textureSlots
    {
      Batch(rectVertices, rectIndexCount, textureSlots[..], textureSlotIndex, flushLog, retired, frameRects)
    }

    /** The batch invariant, and every pending vertex names a bound slot. */
    ghost predicate Shaped()
      reads this, Repr
    {
      && Repr == {this, textureSlots, rectVertexArray}
      && Shape(Model(), whiteTexture, MAX_INDICES)
      && (forall k :: 0 <= k < |rectVertices| ==> rectVertices[k].textureIndex < textureSlotIndex)
    }

    /** Besides `Shaped`: no rectangle drawn in this frame is lost. */
    ghost predicate Valid()
      reads this, Repr
    {
      Shaped() && Accounted(Model())
    }

    /**
     * `UiRenderer::new`, with the driver ids supplied: installs the rectangle
     * layout, the static index buffer and the white texture in slot 0.
     */
    constructor (ids: GlIds)
      ensures Valid() && fresh(Repr)
      ensures whiteTexture == ids.whiteTexture
      ensures Model() == Batch([], 0, textureSlots[..], 1, [], [], 0)
      ensures screenMatrix == Identity
      ensures rectVertexBuffer.id == ids.vertexBuffer && LaidOut(rectVertexBuffer.layout)
      ensures rectVertexBuffer.layout.stride == 68
      ensures rectVertexArray.id == ids.vertexArray && rectVertexArray.Valid()
      ensures rectVertexArray.vertexBuffers == [rectVertexBuffer]
      ensures rectVertexArray.vertexBufferIndex == 8
      ensures rectVertexArray.indexBuffer == Some(IndexBuffer(ids.indexBuffer, MAX_INDICES))
      ensures |rectIndexData| == MAX_INDICES
      ensures forall n :: 0 <= n < |rectIndexData| ==> rectIndexData[n] == IndexAt(n)
      ensures forall k :: 1 <= k < MAX_TEXTURE_SLOTS ==> textureSlots[k] == 0
    {
      var va, vb, indices := NewRectVertexArray(ids);
      var slots := new nat[MAX_TEXTURE_SLOTS](_ => 0);
      slots[0] := ids.whiteTexture;

      rectVertexArray := va;
      rectVertexBuffer := vb;
      whiteTexture := ids.whiteTexture;
      textureSlots := slots;
      rectIndexCount := 0;
      rectVertices := [];
      textureSlotIndex := 1;
      screenMatrix := Identity;
      rectIndexData := indices;
      flushLog := [];
      frameRects := 0;
      retired := [];
      Repr := {this, slots, va};
    }

    /**
     * `begin_frame`: installs the pixel-to-clip transform for this window
     * size and starts an empty batch and frame.
     */
    method BeginFrame(windowSize: Vec2)
      requires Valid()
      modifies this
      ensures Valid()
      ensures screenMatrix == ScreenProjection(windowSize)
      ensures Model() == SceneBegun(old(Model()))
    {
      screenMatrix := ScreenProjection(windowSize);
      StartBatch();
      frameRects := 0;
      retired := [];
    }

    /**
     * `end_frame`: flushes the pending batch without clearing it. Every
     * rectangle drawn since the frame began has then reached the driver
     * exactly once.
     */
    method EndFrame()
      requires Valid()
      modifies this`flushLog
      ensures Valid()
      ensures Model() == Flushed(old(Model()))
      ensures VertexTotal(retired) + VertexTotal(flushLog[|old(flushLog)|..]) == 4 * frameRects
    {
      ghost var b := Model();
      Flush();
      FlushedDelivers(b);
    }

    /** `start_batch`: an empty batch with only the white texture bound. */
    method StartBatch()
      requires Shaped()
      modifies this`rectIndexCount, this`rectVertices, this`textureSlotIndex
      ensures Shaped()
      ensures Model() == Started(old(Model()))
    {
      rectIndexCount := 0;
      rectVertices := [];
      textureSlotIndex := 1;
    }

    /**
     * `flush`: nothing on an empty batch; otherwise uploads the vertices,
     * binds units `0..texture_slot_index` and draws `rect_index_count`
     * indices.
     */
    method Flush()
      requires Shaped()
      modifies this`flushLog
      ensures Shaped()
      ensures Model() == Flushed(old(Model()))
    {
      FlushedKeepsShape(Model(), whiteTexture, MAX_INDICES);
      if |rectVertices| == 0 {
        return;
      }
      ghost var bound: seq<nat> := [];
      var i := 0;
      while i < textureSlotIndex
        invariant 0 <= i <= textureSlotIndex
        invariant bound == textureSlots[..i]
      {
        bound := bound + [textureSlots[i]];
        i := i + 1;
      }
      flushLog := flushLog + [FlushRecord(|rectVertices|, rectIndexCount, bound)];
    }

    /** `next_batch`: flush, then start an empty batch; the flushed rectangles count as retired. */
    method NextBatch()
      requires Valid()
      modifies this`flushLog, this`rectIndexCount, this`rectVertices, this`textureSlotIndex, this`retired
      ensures Valid()
      ensures Model() == Restarted(old(Model()))
      ensures screenMatrix == old(screenMatrix)
    {
      ghost var b := Model();
      RestartedKeepsInvariant(b, whiteTexture, MAX_INDICES);
      Flush();
      StartBatch();
      Retire(Pending(b));
    }

    /** The scene ledger's half of `next_batch`: records `rs` as flushed and cleared. */
    ghost method Retire(rs: seq<FlushRecord>)
      requires Shaped()
      modifies this`retired
      ensures Shaped()
      ensures Model() == old(Model()).(retired := old(retired) + rs)
    {
      retired := retired + rs;
    }

    /** The vertex loop of `draw_rect`. */
    method PushRectVertices(position: Vec2, size: Vec2, color: Vec4, cornerRadius: real, outlineThickness: real, outlineColor: Vec4, textureIndex: nat)
      modifies this`rectVertices
      ensures rectVertices == old(rectVertices) + RectCorners(position, size, color, cornerRadius, outlineThickness, outlineColor, textureIndex)
    {
      var i := 0;
      while i < 4
        invariant 0 <= i <= 4
        invariant rectVertices == old(rectVertices) + RectCorners(position, size, color, cornerRadius, outlineThickness, outlineColor, textureIndex)[..i]
      {
        rectVertices := rectVertices + [RectCorner(position, size, color, cornerRadius, outlineThickness, outlineColor, textureIndex, i)];
        i := i + 1;
      }
    }

    /**
     * The texture part of `draw_rect`: reuse the last bound slot (other than
     * 0) holding `t`, or bind `t` to a new slot.
     */
    method AcquireSlot(t: nat) returns (index: nat)
      requires Valid() && rectIndexCount < MAX_INDICES
      modifies this, textureSlots
      ensures Valid() && rectIndexCount < MAX_INDICES && screenMatrix == old(screenMatrix)
      ensures Model() == Acquired(old(Model()), t) && index == AcquiredSlot(old(Model()), t)
      ensures 0 < index < textureSlotIndex
    {
      AcquiredKeepsInvariant(Model(), whiteTexture, MAX_INDICES, t);
      index := FindTextureSlot(textureSlots, textureSlotIndex, t);
      if index == 0 {
        index := AllocateSlot(t);
      }
    }

    /** Binding a texture to the next free slot, restarting first when all 32 are taken. */
    method AllocateSlot(t: nat) returns (index: nat)
      requires Valid() && rectIndexCount < MAX_INDICES
      modifies this`flushLog, this`rectIndexCount, this`rectVertices, this`textureSlotIndex, this`retired, textureSlots
      ensures Model() == Allocated(old(Model()), t) && index == AllocatedSlot(old(Model()))
      ensures Valid() && screenMatrix == old(screenMatrix)
    {
      if textureSlotIndex >= MAX_TEXTURE_SLOTS {
        NextBatch();
      }
      index := BindSlot(t);
    }

    /** Binds `t` to the next free slot, which the caller has made sure exists. */
    method BindSlot(t: nat) returns (index: nat)
      requires Shaped() && textureSlotIndex < MAX_TEXTURE_SLOTS
      modifies this`textureSlotIndex, textureSlots
      ensures Shaped() && index == old(textureSlotIndex)
      ensures Model() == old(Model()).(slots := old(Model()).slots[index := t], slotIndex := index + 1)
    {
      ghost var c := Model();
      index := textureSlotIndex;
      textureSlots[textureSlotIndex] := t;
      textureSlotIndex := textureSlotIndex + 1;
      assert textureSlots[..] == c.slots[index := t];
    }

    /**
     * `draw_rect`: restart the batch if it is at index capacity; look the
     * texture up among the bound slots and bind it to a new slot if absent,
     * restarting first when all 32 are taken; append the four corners.
     */
    method DrawRect(position: Vec2, size: Vec2, color: Vec4, cornerRadius: real, outlineThickness: real, outlineColor: Vec4,
                    texture: Option<nat>)
      requires Valid()
      modifies this, textureSlots
      ensures Valid() && screenMatrix == old(screenMatrix)
      ensures Model() == Drawn(old(Model()), MAX_INDICES, texture,
                               RectCorners(position, size, color, cornerRadius, outlineThickness, outlineColor,
                                           DrawSlot(old(Model()), MAX_INDICES, texture)))
    {
      if rectIndexCount >= MAX_INDICES {
        NextBatch();
      }
      var textureIndex := 0;
      if texture.Some? {
        textureIndex := AcquireSlot(texture.value);
      }
      AppendRect(position, size, color, cornerRadius, outlineThickness, outlineColor, textureIndex);
    }

    /** The vertex and index accounting of `draw_rect`, once the slot is known. */
    method AppendRect(position: Vec2, size: Vec2, color: Vec4, cornerRadius: real, outlineThickness: real, outlineColor: Vec4, textureIndex: nat)
      requires Valid() && rectIndexCount < MAX_INDICES && textureIndex < textureSlotIndex
      modifies this`rectVertices, this`rectIndexCount, this`frameRects
      ensures Valid()
      ensures Model() == Appended(old(Model()), RectCorners(position, size, color, cornerRadius, outlineThickness, outlineColor, textureIndex))
    {
      AppendedKeepsInvariant(Model(), whiteTexture, MAX_INDICES, RectCorners(position, size, color, cornerRadius, outlineThickness, outlineColor, textureIndex));
      PushRectVertices(position, size, color, cornerRadius, outlineThickness, outlineColor, textureIndex);
      rectIndexCount := rectIndexCount + 6;
      frameRects := frameRects + 1;
    }
  }
}
