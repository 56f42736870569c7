# rust-engine core, modelled in Dafny

This project models the bookkeeping core of a small Rust/OpenGL 2D engine:

- **Immediate-mode UI** (`src/ui/ui.rs`). A per-widget hot/active state machine. A stack of horizontal and vertical flow layouts, where each widget is placed at the position the innermost layout makes available and then grows that layout. Buttons are drawn through the world renderer.
- **The two batched renderers** (`src/renderer/renderer.rs` and `src/ui/ui_renderer.rs`). Draw calls accumulate vertices, an index count and a 32-entry texture-slot table. A batch is flushed to the driver when it reaches 60000 indices or runs out of texture slots, and at the end of a scene or frame. The static index buffer uses the pattern `4k + {0,1,2,2,3,0}`.
- **Vertex-buffer layout arithmetic** (`src/renderer/buffer.rs`). Data-type sizes and component counts, prefix-sum offsets and the stride, and the element count of an index buffer.
- **Attribute-slot accounting** (`src/renderer/vertex_array.rs`). One slot per vector element and one per column of a matrix element, numbered consecutively across buffers.
- **Axis-aligned boxes** (`src/math/aabb.rs`).

How the engine's features are represented:

- **Numbers.** `f32` values are `real`. `u32` ids and counters are `nat`. The renderer counters are kept within range by the class invariants: at most 60000 indices, slot cursor in 1..32. The layout offset and stride sums and the attribute-slot counter are not bounded (see "Left out").
- **OpenGL calls.** These become ghost records:
  - every non-empty flush appends a `FlushRecord` to `flushLog`, holding the vertex count, the index count and the slot ids bound;
  - every attribute call of `add_vertex_buffer` appends a `VertexAttribute` descriptor;
  - the generated index data is kept as `quadIndexData` / `rectIndexData`.
- **Panics.** The engine panics on `unwrap()` of a missing layout or index buffer. The model returns `Err(EmptyLayoutStack)` / `Err(NoIndexBuffer)` or `Fail(...)` instead; state is unchanged where the panic would come before any update.
- **Driver ids and input.** Ids that OpenGL hands out are passed to the constructors in a `GlIds` value. Window size, cursor position and mouse buttons are passed to `Ui.NewFrame` instead of being polled.
- **Matrices.** These are symbolic (`Identity`, `ScreenProjection(windowSize)`, `ViewProjection(tag)`). The renderers only store them and hand them to the shader.

Modules, one per source file plus two shared ones:

- `Wrappers`: `Option`, `Result`, `Outcome`, `Error`.
- `Math`: vectors over the reals.
- `Aabb`.
- `Buffer`.
- `VertexArrays`.
- `Batching`: the parts both renderers share, namely the index pattern, the slot search, flush records, and the batch specification. A renderer's batch state is a `Batch` value: pending vertices, index count, slot table and cursor, draw log, retired batches and quads drawn. Each renderer method is specified as `Model() == F(old(Model()))` for a function `F` on `Batch` (`Started`, `Flushed`, `Restarted`, `Acquired`, `Appended`, `Drawn`). The restart, slot and no-loss properties are lemmas about those functions, shared by both renderers.
- `Renderers`.
- `UiRenderers`.
- `ImmediateUi`.

## Model

| member | source | states |
|---|---|---|
| `Aabb.New` | src/math/aabb.rs:10-12 | the box has exactly the given corners |
| `Aabb.FromMinMax` | src/math/aabb.rs:14-19 | equals `new((min_x, min_y), (max_x, max_y))` |
| `Aabb.FromPositionAndSize` | src/math/aabb.rs:21-27 | the box's centre is the given centre and its size the given size |
| `Aabb.Contains` | src/math/aabb.rs:29-34 | a box containing any point is well formed, and a well-formed box contains both its corners |
| `Aabb.Merge` | src/math/aabb.rs:36-47 | componentwise min of the mins and max of the maxes; every point in either box is in the merge |
| `Aabb.Center` | src/math/aabb.rs:49-54 | equidistant from both corners; inside the box when `min <= max` |
| `Aabb.Size` | src/math/aabb.rs:56-58 | `min + size == max`; non-negative exactly when `min <= max` |
| `Aabb.ContainsByCenterDistance` | src/math/aabb.rs:29-34 | containment (inclusive on all four edges) is being within half the size of the centre on both axes |
| `Aabb.MergeCommutative` | src/math/aabb.rs:36-47 | `a.merge(b) == b.merge(a)` |
| `Aabb.MergeIdempotent` | src/math/aabb.rs:36-47 | `a.merge(a) == a` |
| `Aabb.MergeAssociative` | src/math/aabb.rs:36-47 | merging is associative |
| `Aabb.MergeCoversBoth` | src/math/aabb.rs:36-47 | a point in either box is in the merge |
| `Buffer.ComponentCount` | src/renderer/buffer.rs:57-71 | 1 to 4 components; a matrix has one per column (Mat3 3, Mat4 4), Bool one |
| `Buffer.ShaderDataTypeSize` | src/renderer/buffer.rs:21-35 | Bool is 1 byte, every other type is 4 bytes per component per column (Float 4 … Mat3 36, Mat4 64) |
| `Buffer.NewBufferElement` | src/renderer/buffer.rs:46-55 | size from the data type, offset 0, `normalized` false when not given |
| `Buffer.CalculateOffsetAndStride` | src/renderer/buffer.rs:95-103 | each element keeps its fields except the offset, which becomes the sum of the sizes before it; the stride is the sum of all sizes |
| `Buffer.NewBufferLayout` | src/renderer/buffer.rs:80-89 | the layout is laid out as above; an empty layout has stride 0 |
| `Buffer.GetStride` | src/renderer/buffer.rs:105-107 | the stride is the total size and every element ends within it |
| `Buffer.OffsetsIncrease` | src/renderer/buffer.rs:95-103 | with type-sized elements, each element ends at or before the next begins, so offsets strictly increase |
| `Buffer.LastElementEndsAtStride` | src/renderer/buffer.rs:95-103 | the last element's offset plus its size is exactly the stride |
| `Buffer.NewVertexBuffer` | src/renderer/buffer.rs:116-133 | the buffer has the given id and an empty, laid-out layout of stride 0 |
| `Buffer.NewIndexBuffer` | src/renderer/buffer.rs:169-189 | the count is the index count truncated to `u32`, so equal to it whenever it fits |
| `Buffer.IndexBufferCount` | src/renderer/buffer.rs:191-193 | `IndexBuffer::new(indices).get_count() == indices.len()` for fewer than 2^32 indices |
| `VertexArrays.ShaderDataTypeToGlBaseType` | src/renderer/vertex_array.rs:6-20 | FLOAT exactly for Float* and Mat*, INT exactly for Int*, BOOL exactly for Bool |
| `VertexArrays.AttributeSlots` | src/renderer/vertex_array.rs:62-112 | a matrix element takes one slot per column (3 or 4), any other element takes one |
| `VertexArrays.LayoutAttributesIndexed` | src/renderer/vertex_array.rs:62-113 | the descriptors for a layout number exactly `SlotCount` slots, consecutively from the first free one |
| `VertexArrays.VectorElementDescribed` | src/renderer/vertex_array.rs:62-96 | one descriptor with the element's component count, base type, offset and the layout stride; float elements always pass normalized = false |
| `VertexArrays.MatrixElementDescribed` | src/renderer/vertex_array.rs:97-112 | column `i` of a matrix uses slot `start + i`, offset `offset + 4*count*i` and divisor 1 |
| `VertexArrays.VertexArray.constructor` | src/renderer/vertex_array.rs:30-42 | slot index 0, no vertex buffers, no index buffer |
| `VertexArrays.VertexArray.AddVertexBuffer` | src/renderer/vertex_array.rs:56-116 | the slot index advances by the layout's slot count; the descriptors issued are exactly the layout's; the buffer is appended and nothing else in the list changes |
| `VertexArrays.VertexArray.DescribeElements` | src/renderer/vertex_array.rs:62-114 | the slot cursor advances by `SlotCount(elements)` and exactly `LayoutAttributes(elements, stride, cursor)` is appended, in element order |
| `VertexArrays.VertexArray.DescribeElement` | src/renderer/vertex_array.rs:63-113 | the cursor advances by the element's slot count (1, or the column count of a matrix) and exactly its descriptors are appended |
| `VertexArrays.VertexArray.DescribeMatrixColumns` | src/renderer/vertex_array.rs:95-112 | one descriptor per column, numbered from the cursor, and the cursor advances by the column count |
| `VertexArrays.VertexArray.SetIndexBuffer` | src/renderer/vertex_array.rs:118-122 | afterwards `get_index_buffer` returns that buffer |
| `VertexArrays.VertexArray.GetIndexBuffer` | src/renderer/vertex_array.rs:124-126 | fails exactly when no index buffer was set |
| `Batching.IndexAtQuad` | src/renderer/renderer.rs:87-98 | entries `6k..6k+5` of the index buffer are `4k+0, 4k+1, 4k+2, 4k+2, 4k+3, 4k+0` |
| `Batching.GenerateIndices` | src/renderer/renderer.rs:85-98 | `6 * ceil(max/6)` indices, so exactly `MAX_INDICES`, entry `n` being `IndexAt(n)` |
| `Batching.LastSlotOf` | src/renderer/renderer.rs:185-193 | the last bound slot holding the texture; 0 exactly when no slot other than 0 holds it |
| `Batching.FindTextureSlot` | src/renderer/renderer.rs:188-192 | the search loop returns `LastSlotOf` of the bound prefix |
| `Batching.VertexTotalAppend` | src/renderer/renderer.rs:140-164 | the vertices flushed by a log plus one more record add up |
| `Batching.FlushedKeepsShape` | src/renderer/renderer.rs:140-159 | a flush keeps the batch invariant: the record it adds is a well-formed draw (whole quads, at most the capacity in indices, 1 to 32 units, white at unit 0) |
| `Batching.FlushedDelivers` | src/renderer/renderer.rs:130-132 | at the end of a scene, the retired batches and the final flush carry four vertices per quad drawn |
| `Batching.RestartedKeepsInvariant` | src/renderer/renderer.rs:161-164 | a restart keeps the batch invariant and loses no quad |
| `Batching.AcquiredKeepsInvariant` | src/renderer/renderer.rs:185-203 | looking a texture up keeps both invariants; the slot used holds the texture, is never 0 and lies below the cursor |
| `Batching.RoomForQuad` | src/renderer/renderer.rs:181-183 | below a capacity of whole quads there is room for six more indices |
| `Batching.AppendedKeepsInvariant` | src/renderer/renderer.rs:206-223 | appending a quad below capacity keeps both invariants |
| `Batching.DrawnKeepsInvariant` | src/renderer/renderer.rs:166-224 | a draw keeps the batch within capacity and 32 slots, keeps every flush well formed and loses no quad |
| `Batching.DrawnRestarts` | src/renderer/renderer.rs:181-203 | a draw restarts exactly when the batch is at capacity or the texture is new with all 32 slots taken, flushing at most once, then appends four vertices and six indices |
| `Batching.DrawnSlots` | src/renderer/renderer.rs:185-203 | no texture uses slot 0; a bound texture reuses its last slot and leaves the table unchanged; a new one goes to the cursor (1 after a restart), changing only that slot |
| `Batching.DrawnAllRestarts` | src/renderer/renderer.rs:181-183 | after `q*Q + r` untextured draws from an empty batch (`Q` quads per batch, `1 <= r <= Q`), exactly `q` restarts have flushed and `r` quads are pending |
| `Batching.SceneFlushCount` | src/renderer/renderer.rs:124-183 | a scene of `n` untextured draws followed by the end-of-scene flush sends exactly `ceil(n / Q)` batches to the driver |
| `Renderers.QuadCornersSpanBox` | src/renderer/renderer.rs:23-28 | the four corners are those of `from_position_and_size(position, size)` in counter-clockwise order from bottom left, with texture coordinates (0,0), (1,0), (1,1), (0,1) |
| `Renderers.QuadLayoutStride` | src/renderer/renderer.rs:69-78 | the quad layout has stride 40, four slots |
| `Renderers.NewQuadVertexArray` | src/renderer/renderer.rs:66-103 | quad layout installed (stride 40, four slots), index buffer of `MAX_INDICES` entries in the quad pattern |
| `Renderers.SceneFlushes` | src/renderer/renderer.rs:124-183 | a scene of `n` untextured quads reaches the driver in exactly `ceil(n / MAX_QUADS)` flushes: `(n + 9999) / 10000` |
| `Renderers.Renderer.constructor` | src/renderer/renderer.rs:47-116 | the batch model is empty: no vertices, no indices, slot cursor 1, slot 0 the white texture and slots 1..31 zero, empty log; identity matrix; quad layout and index buffer installed |
| `Renderers.Renderer.BeginSceneWithMatrix` | src/renderer/renderer.rs:124-128 | installs the matrix; the batch model becomes `SceneBegun` of the old one (an empty batch, scene counters reset, log kept) |
| `Renderers.Renderer.EndScene` | src/renderer/renderer.rs:130-132 | the batch model becomes `Flushed` of the old one; every quad drawn in the scene has then reached the driver exactly once |
| `Renderers.Renderer.StartBatch` | src/renderer/renderer.rs:134-138 | the batch model becomes `Started` of the old one: no indices, no vertices, slot cursor 1 |
| `Renderers.Renderer.Flush` | src/renderer/renderer.rs:140-159 | the batch model becomes `Flushed` of the old one: nothing on an empty batch, otherwise one record with the vertex count, index count and exactly slots `0..texture_slot_index` |
| `Renderers.Renderer.NextBatch` | src/renderer/renderer.rs:161-164 | the batch model becomes `Restarted` of the old one, keeping both invariants |
| `Renderers.Renderer.AcquireSlot` | src/renderer/renderer.rs:185-203 | the batch model becomes `Acquired` of the old one and the slot returned is `AcquiredSlot`, nonzero and below the cursor |
| `Renderers.Renderer.AllocateSlot` | src/renderer/renderer.rs:195-202 | the batch model becomes `Allocated` of the old one and the slot returned is the cursor, or 1 after a restart |
| `Renderers.Renderer.BindSlot` | src/renderer/renderer.rs:199-201 | with a free slot, `t` is written at the cursor, the cursor advances by one and returns its old value, and nothing else in the batch changes |
| `Renderers.Renderer.DrawQuad` | src/renderer/renderer.rs:166-224 | the batch model becomes `Drawn` of the old one with the four corners of the quad at slot `DrawSlot`; both invariants kept |
| `Renderers.Renderer.PushQuadVertices` | src/renderer/renderer.rs:206-221 | appends the four corners in order |
| `Renderers.Renderer.AppendQuad` | src/renderer/renderer.rs:206-223 | the batch model becomes `Appended` of the old one (four corners, six indices, one more quad drawn), keeping both invariants |
| `UiRenderers.RectCornersSpanBox` | src/ui/ui_renderer.rs:224-240 | corners of the centred box; every vertex copies colour, size, corner radius and outline unchanged; texture coordinates in corner order |
| `UiRenderers.RectLayoutStride` | src/ui/ui_renderer.rs:73-94 | the rectangle layout has stride 68, eight slots |
| `UiRenderers.NewRectVertexArray` | src/ui/ui_renderer.rs:70-119 | rectangle layout installed, index buffer of `MAX_INDICES` entries in the quad pattern |
| `UiRenderers.UiRenderer.constructor` | src/ui/ui_renderer.rs:51-132 | the batch model is empty, slot 0 the white texture and slots 1..31 zero; identity matrix; rectangle layout and index buffer installed |
| `UiRenderers.UiRenderer.BeginFrame` | src/ui/ui_renderer.rs:134-143 | installs the screen transform for the window size; the batch model becomes `SceneBegun` of the old one |
| `UiRenderers.UiRenderer.EndFrame` | src/ui/ui_renderer.rs:145-147 | the batch model becomes `Flushed` of the old one; every rectangle drawn in the frame has reached the driver once |
| `UiRenderers.UiRenderer.StartBatch` | src/ui/ui_renderer.rs:149-153 | the batch model becomes `Started` of the old one |
| `UiRenderers.UiRenderer.Flush` | src/ui/ui_renderer.rs:155-174 | the batch model becomes `Flushed` of the old one, recording the counts and slots `0..texture_slot_index` |
| `UiRenderers.UiRenderer.NextBatch` | src/ui/ui_renderer.rs:176-179 | the batch model becomes `Restarted` of the old one |
| `UiRenderers.UiRenderer.AcquireSlot` | src/ui/ui_renderer.rs:203-222 | the batch model becomes `Acquired` of the old one; the slot returned is `AcquiredSlot` |
| `UiRenderers.UiRenderer.AllocateSlot` | src/ui/ui_renderer.rs:213-221 | the batch model becomes `Allocated` of the old one; the slot returned is the cursor, or 1 after a restart |
| `UiRenderers.UiRenderer.BindSlot` | src/ui/ui_renderer.rs:218-220 | with a free slot, `t` is written at the cursor, the cursor advances by one and returns its old value, and nothing else in the batch changes |
| `UiRenderers.UiRenderer.DrawRect` | src/ui/ui_renderer.rs:181-246 | the batch model becomes `Drawn` of the old one with the rectangle's four styled corners at slot `DrawSlot`; both invariants kept |
| `UiRenderers.UiRenderer.PushRectVertices` | src/ui/ui_renderer.rs:224-243 | appends the four corners in order |
| `UiRenderers.UiRenderer.AppendRect` | src/ui/ui_renderer.rs:224-245 | the batch model becomes `Appended` of the old one with the four styled corners, keeping both invariants |
| `ImmediateUi.Available` | src/ui/ui.rs:40-45 | the origin moved along the layout's axis by the extent so far, unmoved across it |
| `ImmediateUi.Grow` | src/ui/ui.rs:47-58 | along the axis the widget and one padding are added; across it the larger of the two; the next available position moves on by widget plus padding |
| `ImmediateUi.FlowClosedForm` | src/ui/ui.rs:47-58 | a layout's extent is the sum of the widgets plus one padding per widget along the axis, the largest widget across |
| `ImmediateUi.FlowCoversWidgets` | src/ui/ui.rs:47-58 | every widget fits within its layout's cross extent |
| `ImmediateUi.VerticalFlowOfThree` | src/ui/ui.rs:47-58 | three 50×50 widgets, padding 10, vertical: extent (50, 180) |
| `ImmediateUi.VerticalFlowExample` | src/ui/ui.rs:26-58 | the same, by three `push_widget` calls on a fresh layout |
| `ImmediateUi.UiLayout.constructor` | src/ui/ui.rs:26-38 | the layout has the given kind, origin, extent and padding |
| `ImmediateUi.UiLayout.AvailablePosition` | src/ui/ui.rs:40-45 | the origin moved along the axis by the extent so far, unchanged across it |
| `ImmediateUi.UiLayout.PushWidget` | src/ui/ui.rs:47-58 | the extent becomes `Grow(...)`; the available position moves by widget plus padding |
| `ImmediateUi.Interact` | src/ui/ui.rs:94-123 | Fired iff held and released over the widget; Active iff held with the button down; Hot iff not held, inside, and hot or nothing active; the exact new `active_id` / `hot_id`; an active widget stays the hot one |
| `ImmediateUi.ClickOverWidget` | src/ui/ui.rs:94-123 | hover, press, release over a widget give Hot, Hot, Fired and leave it hot |
| `ImmediateUi.ReleaseOutsideWidget` | src/ui/ui.rs:94-123 | releasing outside gives Inactive, keeps the widget hot for one more frame, then drops it |
| `ImmediateUi.HeldWidgetExcludesOthers` | src/ui/ui.rs:105-122 | while one widget is active, every other id reports Inactive and changes nothing |
| `ImmediateUi.Tint` | src/ui/ui.rs:216-240 | the button colour plus 0, 0.3, 0.6 or 0.9 for Inactive, Hot, Active, Fired |
| `ImmediateUi.Ui.constructor` | src/ui/ui.rs:77-92 | no focus, no layouts, zero input |
| `ImmediateUi.Ui.NewFrame` | src/ui/ui.rs:146-155 | records this frame's window size, cursor and buttons |
| `ImmediateUi.Ui.UpdateState` | src/ui/ui.rs:94-123 | reports and leaves behind exactly what `Interact` says for the cursor's containment in the rectangle |
| `ImmediateUi.Ui.TopLayout` | src/ui/ui.rs:133-139 | none exactly when the stack is empty, otherwise the last layout |
| `ImmediateUi.Ui.PushLayout` | src/ui/ui.rs:125-127 | the layout becomes the top of the stack |
| `ImmediateUi.Ui.PopLayout` | src/ui/ui.rs:129-131 | fails on an empty stack; otherwise returns and removes the top |
| `ImmediateUi.Ui.Begin` | src/ui/ui.rs:157-178 | starts a renderer scene with the screen transform and pushes a zero-size horizontal layout at the given position |
| `ImmediateUi.Ui.BeginLayout` | src/ui/ui.rs:180-191 | pushes a zero-size layout at the previous top's available position; fails on an empty stack |
| `ImmediateUi.Ui.End` | src/ui/ui.rs:193-196 | pops the top layout and ends the renderer scene; fails on an empty stack |
| `ImmediateUi.Ui.EndLayout` | src/ui/ui.rs:198-202 | the stack shrinks by one and the new top grows by the popped layout's extent, no other layout changes; fails with fewer than two layouts |
| `ImmediateUi.Ui.RenderButton` | src/ui/ui.rs:141-144 | the renderer's batch model becomes `Drawn` with no texture and the four corners of the quad at the rectangle's centre with its size; the renderer's transform is kept, and only the renderer object and its slot table may change, so its vertex array is untouched |
| `ImmediateUi.Ui.Button` | src/ui/ui.rs:204-242 | rectangle at `[available, available + size]`, state machine stepped once, quad drawn in the tinted colour, `push_widget(size)` on the top layout only, result true iff Fired; fails on an empty stack, changing nothing; the renderer's transform is kept, and only the renderer object and its slot table may change, so its vertex array is untouched |
| `ImmediateUi.Ui.PlaceButton` | src/ui/ui.rs:205-240 | with the top layout known: the rectangle at its available position, one state-machine step, the tinted quad drawn, the layout advanced by the size, true exactly when Fired; the renderer's transform is kept, and only the renderer object and its slot table may change, so its vertex array is untouched |
| `ImmediateUi.Ui.DrawButton` | src/ui/ui.rs:216-238 | the quad is drawn untextured in the given colour and the layout grows by the widget size; the renderer's transform is kept, and only the renderer object and its slot table may change, so its vertex array is untouched |

## Left out

- OpenGL calls are not modelled, and neither is the `unsafe` pointer passing to the driver. Buffer uploads, texture binds, attribute pointers and draw calls are recorded as ghost records instead.
- `src/renderer/shader.rs` is left out: shader file I/O, compile/link and uniform locations all depend on the driver.
- `src/renderer/texture_2d.rs` is left out: texture creation and image decoding are foreign calls. A texture appears only as its id.
- `src/renderer/camera.rs` and `Renderer::begin_scene(camera)` are left out: they are float matrix numerics. `begin_scene_with_matrix` is modelled and receives the matrix symbolically.
- The numeric screen matrix in `Ui::begin` and `UiRenderer::begin_frame` is not built: it is recorded as the symbol `ScreenProjection(windowSize)`.
- `src/renderer/render_command.rs` (a thin wrapper over the driver's draw call) is not part of this model. `src/core/window.rs` and `src/core/base.rs` (windowing, input polling, game loop) are not part of this model either. `new_frame` takes its inputs as parameters.
- The example application `engine_tester/src/main.rs` is not part of this model. Its retained layout tree (`UiBox`, `ui.base`) is not present in the UI source, and it calls `Ui::new(engine)`, which differs from the `Ui::new()` that is modelled.
- `f32` rounding is not modelled, because positions, sizes and colours are reals. A texture slot is a `nat`, not an `f32` compared with `0.0`; the two agree for slots below 32.
- `Buffer.NewVertexBuffer`: the `size` argument of `VertexBuffer::new(size)` is dropped, because the byte capacity it asks the driver for is not tracked. The id and the empty layout are modelled.
- `Buffer.CalculateOffsetAndStride`: `u32` overflow of the offset and stride accumulators is not modelled; both are unbounded `nat` sums.
- `VertexArrays.VertexArray.AddVertexBuffer`: the `u32` slot counter is unbounded, so wrap-around after 2^32 attributes is not modelled.
- `Ui.PushLayout` requires that the layout is not already on the stack. Rust guarantees this by moving the layout into the stack. The model needs it because layouts are heap objects here.
- Panics: the engine aborts, and the model returns an error instead. `EndLayout` with exactly one open layout has already popped it when it fails, as in the engine.
- Padding follows every widget, including the last, and nothing else is added: three 50×50 widgets with padding 10 in a vertical layout occupy (50, 180) (`VerticalFlowOfThree`, `VerticalFlowExample`).
