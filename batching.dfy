/**
 * What the world renderer (`src/renderer/renderer.rs`) and the UI renderer
 * (`src/ui/ui_renderer.rs`) share: the texture-slot table size, the unit
 * quad's corners and texture coordinates, the static index pattern, the
 * linear texture-slot search, and the record a flush leaves in the ghost
 * draw log.
 */
module Batching {
  import opened Wrappers
  import opened Math

  /** Texture units bound per batch; slot 0 always holds the white texture. */
  const MAX_TEXTURE_SLOTS: nat := 32

  /** The driver ids `Renderer::new` / `UiRenderer::new` obtain, supplied by the caller in the model. */
  datatype GlIds = GlIds(vertexArray: nat, vertexBuffer: nat, indexBuffer: nat, whiteTexture: nat)

  /** The `xy` part of `QUAD_VERTEX_POSITIONS` / `RECT_VERTEX_POSITIONS`, counter-clockwise from bottom left. */
  function CornerOffset(i: nat): Vec2
    requires i < 4
  {
    [Vec2(-0.5, -0.5), Vec2(0.5, -0.5), Vec2(0.5, 0.5), Vec2(-0.5, 0.5)][i]
  }

  /** `TEXTURE_COORDS` in `draw_quad` / `draw_rect`. */
  function CornerTextureCoord(i: nat): Vec2
    requires i < 4
  {
    [Vec2(0.0, 0.0), Vec2(1.0, 0.0), Vec2(1.0, 1.0), Vec2(0.0, 1.0)][i]
  }

  /** Corner `i` of a quad of extent `size` centred on `position`: `offset ⊙ size + position`. */
  function CornerPosition(position: Vec2, size: Vec2, i: nat): Vec2
    requires i < 4
  {
    CornerOffset(i).Times(size).Plus(position)
  }

  /** The two triangles of quad `k`: corners 0,1,2 and 2,3,0. */
  function QuadIndexPattern(j: nat): nat
    requires j < 6
  {
    [0, 1, 2, 2, 3, 0][j]
  }

  /** Entry `n` of the static index buffer. */
  function IndexAt(n: nat): nat {
    4 * (n / 6) + QuadIndexPattern(n % 6)
  }

  /** Entry `6k + j` of the index buffer is corner `QuadIndexPattern(j)` of quad `k`. */
  lemma IndexAtQuad(k: nat, j: nat)
    requires j < 6
    ensures IndexAt(6 * k + j) == 4 * k + QuadIndexPattern(j)
  {
    assert (6 * k + j) / 6 == k;
    assert (6 * k + j) % 6 == j;
  }

  /**
   * The index generator of `Renderer::new` / `UiRenderer::new`: one
   * iteration per step of `(0..maxIndices).step_by(6)`, each pushing the six
   * indices of the next quad and advancing the vertex offset by 4.
   */
  method GenerateIndices(maxIndices: nat) returns (indices: seq<nat>)
    ensures |indices| == 6 * ((maxIndices + 5) / 6)
    ensures maxIndices % 6 == 0 ==> |indices| == maxIndices
    ensures forall n :: 0 <= n < |indices| ==> indices[n] == IndexAt(n)
  {
    indices := [];
    var offset := 0;
    var step := 0;
    ghost var quads: nat := 0;
    while step < maxIndices
      invariant step == 6 * quads && offset == 4 * quads && step < maxIndices + 6
      invariant |indices| == step
      invariant forall n :: 0 <= n < |indices| ==> indices[n] == IndexAt(n)
    {
      indices := indices + [offset + 0, offset + 1, offset + 2, offset + 2, offset + 3, offset + 0];
      forall n | step <= n < step + 6
        ensures indices[n] == IndexAt(n)
      {
        IndexAtQuad(quads, n - step);
      }
      offset := offset + 4;
      step := step + 6;
      quads := quads + 1;
    }
    StepCount(maxIndices, quads);
  }

  /** A loop stepping by 6 from 0 runs `ceil(m / 6)` times. */
  lemma StepCount(m: nat, quads: nat)
    requires m <= 6 * quads < m + 6
    ensures quads == (m + 5) / 6
    ensures m % 6 == 0 ==> 6 * quads == m
  {
  }

  /**
   * The texture-slot search: the last slot of the bound prefix holding
   * `texture`, or 0 when none does. A result of 0 is ambiguous between "only
   * slot 0 matches" and "no slot matches"; both renderers treat it as "not
   * found".
   */
  function LastSlotOf(slots: seq<nat>, texture: nat): (r: nat)
    ensures r == 0 || (r < |slots| && slots[r] == texture)
    ensures forall i :: r < i < |slots| ==> slots[i] != texture
    ensures r == 0 <==> forall i :: 0 < i < |slots| ==> slots[i] != texture
  {
    if |slots| <= 1 then 0
    else if slots[|slots| - 1] == texture then |slots| - 1
    else LastSlotOf(slots[..|slots| - 1], texture)
  }

  /**
   * The linear search loop as both renderers write it: walk all bound
   * slots and remember the last match.
   */
  method FindTextureSlot(slots: array<nat>, bound: nat, texture: nat) returns (index: nat)
    requires bound <= slots.Length
    ensures index == LastSlotOf(slots[..bound], texture)
  {
    index := 0;
    var i := 0;
    while i < bound
      invariant 0 <= i <= bound
      invariant index == LastSlotOf(slots[..i], texture)
    {
      assert slots[..i + 1][..i] == slots[..i];
      if slots[i] == texture {
        index := i;
      }
      i := i + 1;
    }
  }

  /**
   * What one non-empty flush hands to the driver: the number of vertices
   * uploaded, the number of indices drawn, and the textures bound to units
   * `0..|textures|`, in unit order.
   */
  datatype FlushRecord = FlushRecord(vertexCount: nat, indexCount: nat, textures: seq<nat>)

  /** A draw that respects the batch limits: whole quads, at most `maxIndices` indices, 1 to 32 units with white at 0. */
  ghost predicate WellFormedFlush(r: FlushRecord, whiteTexture: nat, maxIndices: nat) {
    && r.vertexCount > 0
    && r.vertexCount % 4 == 0
    && r.vertexCount * 6 == r.indexCount * 4
    && r.indexCount <= maxIndices
    && 1 <= |r.textures| <= MAX_TEXTURE_SLOTS
    && r.textures[0] == whiteTexture
  }

  /** Vertices uploaded over a run of flushes. */
  function VertexTotal(log: seq<FlushRecord>): nat {
    if log == [] then 0 else VertexTotal(log[..|log| - 1]) + log[|log| - 1].vertexCount
  }

  lemma VertexTotalAppend(log: seq<FlushRecord>, r: FlushRecord)
    ensures VertexTotal(log + [r]) == VertexTotal(log) + r.vertexCount
  {
    assert (log + [r])[..|log|] == log;
  }

  /**
   * One renderer's batch as its draw operations see it: the pending
   * vertices, the index count, the slot table and its cursor, and the ghost
   * history: every flush, the batches a restart retired in this scene, and
   * the quads drawn in this scene. Both renderers' fields map onto it, and
   * each of their operations is specified as a function on it.
   */
  datatype Batch<V> = Batch(vertices: seq<V>, indexCount: nat, slots: seq<nat>, slotIndex: nat,
                            log: seq<FlushRecord>, retired: seq<FlushRecord>, drawn: nat)

  /** The slot table has 32 entries and the cursor lies within it. */
  predicate SlotsInRange<V>(b: Batch<V>) {
    |b.slots| == MAX_TEXTURE_SLOTS && 1 <= b.slotIndex <= MAX_TEXTURE_SLOTS
  }

  /** The per-batch invariant: white in slot 0, whole quads within `capacity` indices, a well-formed draw log. */
  ghost predicate Shape<V>(b: Batch<V>, white: nat, capacity: nat) {
    && SlotsInRange(b) && b.slots[0] == white
    && |b.vertices| % 4 == 0 && b.indexCount * 4 == |b.vertices| * 6 && b.indexCount <= capacity
    && (forall r :: r in b.log ==> WellFormedFlush(r, white, capacity))
  }

  /** No quad drawn in this scene is lost: its vertices are either retired or pending. */
  ghost predicate Accounted<V>(b: Batch<V>) {
    VertexTotal(b.retired) + |b.vertices| == 4 * b.drawn
  }

  /** The slots bound in this batch, `0..slotIndex`. */
  function Bound<V>(b: Batch<V>): seq<nat>
    requires b.slotIndex <= |b.slots|
  {
    b.slots[..b.slotIndex]
  }

  /** What a flush of this batch hands to the driver. */
  function Record<V>(b: Batch<V>): FlushRecord
    requires b.slotIndex <= |b.slots|
  {
    FlushRecord(|b.vertices|, b.indexCount, Bound(b))
  }

  /** `flush` draws nothing for an empty batch. */
  function Pending<V>(b: Batch<V>): seq<FlushRecord>
    requires b.slotIndex <= |b.slots|
  {
    if b.vertices == [] then [] else [Record(b)]
  }

  /** `flush`: the batch is drawn but kept. */
  function Flushed<V>(b: Batch<V>): Batch<V>
    requires b.slotIndex <= |b.slots|
  {
    b.(log := b.log + Pending(b))
  }

  /** `start_batch`: no vertices, no indices, only the white slot bound. */
  function Started<V>(b: Batch<V>): Batch<V> {
    b.(vertices := [], indexCount := 0, slotIndex := 1)
  }

  /** `next_batch`: flush, count the flushed quads as retired, start afresh. */
  function Restarted<V>(b: Batch<V>): Batch<V>
    requires b.slotIndex <= |b.slots|
  {
    Started(Flushed(b).(retired := b.retired + Pending(b)))
  }

  /** `begin_scene*`: a fresh batch and a fresh scene count. */
  function SceneBegun<V>(b: Batch<V>): Batch<V> {
    Started(b).(retired := [], drawn := 0)
  }

  /** The slot a new texture is bound to: the cursor, or slot 1 of a fresh batch when all 32 are taken. */
  function AllocatedSlot<V>(b: Batch<V>): nat {
    if b.slotIndex >= MAX_TEXTURE_SLOTS then 1 else b.slotIndex
  }

  /** Binding `t` to a new slot, restarting first when all 32 are taken. */
  function Allocated<V>(b: Batch<V>, t: nat): Batch<V>
    requires SlotsInRange(b)
  {
    var c := if b.slotIndex >= MAX_TEXTURE_SLOTS then Restarted(b) else b;
    c.(slots := c.slots[c.slotIndex := t], slotIndex := c.slotIndex + 1)
  }

  /** The slot `draw_*` uses for texture `t`: the last bound slot holding it (other than 0), else a new one. */
  function AcquiredSlot<V>(b: Batch<V>, t: nat): nat
    requires b.slotIndex <= |b.slots|
  {
    var found := LastSlotOf(Bound(b), t);
    if found > 0 then found else AllocatedSlot(b)
  }

  /** The batch after looking `t` up: unchanged when found, otherwise `Allocated`. */
  function Acquired<V>(b: Batch<V>, t: nat): Batch<V>
    requires SlotsInRange(b)
  {
    if LastSlotOf(Bound(b), t) > 0 then b else Allocated(b, t)
  }

  /** Appending one quad's four corners and six indices. */
  function Appended<V>(b: Batch<V>, corners: seq<V>): Batch<V> {
    b.(vertices := b.vertices + corners, indexCount := b.indexCount + 6, drawn := b.drawn + 1)
  }

  /** The capacity check that opens `draw_*`. */
  function Prepared<V>(b: Batch<V>, capacity: nat): Batch<V>
    requires b.slotIndex <= |b.slots|
  {
    if b.indexCount >= capacity then Restarted(b) else b
  }

  /** The slot a `draw_*` call writes into its vertices: 0 for the white texture. */
  function DrawSlot<V>(b: Batch<V>, capacity: nat, texture: Option<nat>): nat
    requires SlotsInRange(b)
  {
    match texture
    case None => 0
    case Some(t) => AcquiredSlot(Prepared(b, capacity), t)
  }

  /** One `draw_quad` / `draw_rect` call, given the four corners it appends. */
  function Drawn<V>(b: Batch<V>, capacity: nat, texture: Option<nat>, corners: seq<V>): Batch<V>
    requires SlotsInRange(b)
  {
    var c := Prepared(b, capacity);
    match texture
    case None => Appended(c, corners)
    case Some(t) => Appended(Acquired(c, t), corners)
  }

  /** Whether a draw restarts the batch: it is at index capacity, or the texture is new and all 32 slots are taken. */
  predicate NeedsRestart<V>(b: Batch<V>, capacity: nat, texture: Option<nat>)
    requires b.slotIndex <= |b.slots|
  {
    || b.indexCount >= capacity
    || (texture.Some? && LastSlotOf(Bound(b), texture.value) == 0 && b.slotIndex >= MAX_TEXTURE_SLOTS)
  }

  /** Whether a draw binds its texture to a new slot. */
  predicate Allocates<V>(b: Batch<V>, capacity: nat, texture: Option<nat>)
    requires b.slotIndex <= |b.slots|
  {
    texture.Some? && (NeedsRestart(b, capacity, texture) || LastSlotOf(Bound(b), texture.value) == 0)
  }

  /** A flush keeps the batch invariant: what it records is a well-formed draw. */
  lemma FlushedKeepsShape<V>(b: Batch<V>, white: nat, capacity: nat)
    requires Shape(b, white, capacity)
    ensures Shape(Flushed(b), white, capacity) && Flushed(b).slots == b.slots
  {
    if b.vertices != [] {
      forall r | r in Flushed(b).log
        ensures WellFormedFlush(r, white, capacity)
      {
        if r !in b.log {
          assert r == Record(b);
        }
      }
    }
  }

  /**
   * At the end of a scene, every quad drawn in it has reached the driver
   * exactly once: the retired batches and the final flush together carry
   * four vertices per quad.
   */
  lemma FlushedDelivers<V>(b: Batch<V>)
    requires b.slotIndex <= |b.slots| && Accounted(b)
    ensures VertexTotal(b.retired) + VertexTotal(Flushed(b).log[|b.log|..]) == 4 * b.drawn
  {
    assert Flushed(b).log[|b.log|..] == Pending(b);
    if b.vertices != [] {
      VertexTotalAppend([], Record(b));
    }
  }

  /** A restart keeps both invariants and loses no quad. */
  lemma RestartedKeepsInvariant<V>(b: Batch<V>, white: nat, capacity: nat)
    requires Shape(b, white, capacity) && Accounted(b)
    ensures Shape(Restarted(b), white, capacity) && Accounted(Restarted(b))
  {
    FlushedKeepsShape(b, white, capacity);
    if b.vertices != [] {
      VertexTotalAppend(b.retired, Record(b));
    } else {
      assert Restarted(b).retired == b.retired;
    }
  }

  /** Binding a new slot keeps both invariants; the slot chosen holds `t` and lies below the new cursor. */
  lemma AcquiredKeepsInvariant<V>(b: Batch<V>, white: nat, capacity: nat, t: nat)
    requires Shape(b, white, capacity) && Accounted(b)
    ensures Shape(Acquired(b, t), white, capacity) && Accounted(Acquired(b, t))
    ensures 0 < AcquiredSlot(b, t) < Acquired(b, t).slotIndex && Acquired(b, t).slots[AcquiredSlot(b, t)] == t
    ensures Acquired(b, t).indexCount <= b.indexCount
  {
    if b.slotIndex >= MAX_TEXTURE_SLOTS {
      RestartedKeepsInvariant(b, white, capacity);
    }
  }

  /** A batch of whole quads below capacity has room for one more when the capacity is a whole number of quads. */
  lemma RoomForQuad(indexCount: nat, vertexCount: nat, capacity: nat)
    requires vertexCount % 4 == 0 && indexCount * 4 == vertexCount * 6
    requires capacity % 6 == 0 && indexCount < capacity
    ensures indexCount + 6 <= capacity
  {
    var q := vertexCount / 4;
    assert vertexCount == 4 * q;
    assert indexCount == 6 * q;
    var c := capacity / 6;
    assert capacity == 6 * c;
  }

  /** Appending a quad below capacity keeps both invariants. */
  lemma AppendedKeepsInvariant<V>(b: Batch<V>, white: nat, capacity: nat, corners: seq<V>)
    requires Shape(b, white, capacity) && Accounted(b)
    requires capacity % 6 == 0 && b.indexCount < capacity && |corners| == 4
    ensures Shape(Appended(b, corners), white, capacity) && Accounted(Appended(b, corners))
  {
    RoomForQuad(b.indexCount, |b.vertices|, capacity);
  }

  /**
   * A draw keeps both invariants: the batch stays within capacity and 32
   * slots, every flush is well formed, and no quad is lost.
   */
  lemma DrawnKeepsInvariant<V>(b: Batch<V>, white: nat, capacity: nat, texture: Option<nat>, corners: seq<V>)
    requires Shape(b, white, capacity) && Accounted(b)
    requires capacity % 6 == 0 && capacity > 0 && |corners| == 4
    ensures Shape(Drawn(b, capacity, texture, corners), white, capacity)
    ensures Accounted(Drawn(b, capacity, texture, corners))
  {
    var c := Prepared(b, capacity);
    if b.indexCount >= capacity {
      RestartedKeepsInvariant(b, white, capacity);
    }
    assert c.indexCount < capacity;
    match texture
    case None =>
      AppendedKeepsInvariant(c, white, capacity, corners);
    case Some(t) =>
      AcquiredKeepsInvariant(c, white, capacity, t);
      AppendedKeepsInvariant(Acquired(c, t), white, capacity, corners);
  }

  /**
   * What a draw does to the batch: it restarts (flushing the pending
   * quads, if any, exactly once) precisely when `NeedsRestart` holds, and
   * then appends the four corners and six indices.
   */
  lemma DrawnRestarts<V>(b: Batch<V>, capacity: nat, texture: Option<nat>, corners: seq<V>)
    requires SlotsInRange(b)
    ensures var r := Drawn(b, capacity, texture, corners);
      && r.log == b.log + (if NeedsRestart(b, capacity, texture) then Pending(b) else [])
      && r.retired == b.retired + (if NeedsRestart(b, capacity, texture) then Pending(b) else [])
      && r.vertices == (if NeedsRestart(b, capacity, texture) then [] else b.vertices) + corners
      && r.indexCount == (if NeedsRestart(b, capacity, texture) then 0 else b.indexCount) + 6
      && r.drawn == b.drawn + 1
  {
    if b.indexCount >= capacity && texture.Some? {
      assert Bound(Restarted(b)) == [b.slots[0]];
    }
  }

  /**
   * Which slot a draw uses and how the slot table changes: no texture uses
   * slot 0; a texture already bound (outside slot 0) reuses its last slot
   * and changes nothing; otherwise it is written to the next free slot,
   * which is slot 1 after a restart. Nothing else in the table changes.
   */
  lemma DrawnSlots<V>(b: Batch<V>, capacity: nat, texture: Option<nat>, corners: seq<V>)
    requires SlotsInRange(b)
    ensures var r := Drawn(b, capacity, texture, corners);
      var s := DrawSlot(b, capacity, texture);
      && s < r.slotIndex <= MAX_TEXTURE_SLOTS && |r.slots| == MAX_TEXTURE_SLOTS
      && r.slots[s] == (match texture case None => b.slots[0] case Some(t) => t)
      && r.slotIndex ==
           (if NeedsRestart(b, capacity, texture) then 1 else b.slotIndex) +
           (if Allocates(b, capacity, texture) then 1 else 0)
      && (!Allocates(b, capacity, texture) ==> r.slots == b.slots)
      && (Allocates(b, capacity, texture) ==> r.slots == b.slots[s := texture.value])
      && (texture.Some? && !Allocates(b, capacity, texture) ==> s == LastSlotOf(Bound(b), texture.value) > 0)
      && (Allocates(b, capacity, texture) ==> s == (if NeedsRestart(b, capacity, texture) then 1 else b.slotIndex))
  {
    if b.indexCount >= capacity && texture.Some? {
      assert Bound(Restarted(b)) == [b.slots[0]];
    }
  }

  /** `n` untextured draws in a row, the `i`-th appending `quads[i]`. */
  function DrawnAll<V>(b: Batch<V>, capacity: nat, quads: seq<seq<V>>): (r: Batch<V>)
    requires SlotsInRange(b)
    ensures SlotsInRange(r)
  {
    if quads == [] then b
    else
      var c := DrawnAll(b, capacity, quads[..|quads| - 1]);
      Drawn(c, capacity, None, quads[|quads| - 1])
  }

  /** Multiplying by `d` keeps a gap of at least `d` between distinct factors. */
  lemma {:induction false} MulGap(k: nat, q: nat, d: nat)
    requires k > q
    ensures k * d >= q * d + d
  {
    if k > q + 1 {
      MulGap(k - 1, q, d);
      assert k * d == (k - 1) * d + d;
    }
  }

  /** Euclidean division is unique: `q * d + s` with `0 <= s < d` divides to `q`. */
  lemma DivideExactly(a: nat, d: nat, q: nat, s: nat)
    requires 0 <= s < d && a == q * d + s
    ensures a / d == q
  {
    var k := a / d;
    assert a == k * d + a % d;
    if k > q {
      MulGap(k, q, d);
      assert false;
    } else if k < q {
      MulGap(q, k, d);
      assert false;
    }
  }

  /**
   * Counting the restarts of a run of untextured draws from an empty
   * batch of capacity `6 * Q`: after `q * Q + r` draws, with `1 <= r <= Q`,
   * the batch has flushed `q` times and holds `r` quads.
   */
  lemma {:induction false} DrawnAllRestarts<V>(b: Batch<V>, capacity: nat, quads: seq<seq<V>>) returns (q: nat, r: nat)
    requires SlotsInRange(b) && b.indexCount == 0 && b.vertices == []
    requires capacity % 6 == 0 && capacity > 0
    requires forall i :: 0 <= i < |quads| ==> |quads[i]| == 4
    ensures var d := DrawnAll(b, capacity, quads);
      && (quads == [] ==> d.log == b.log && d.vertices == [])
      && (quads != [] ==>
            && |d.log| == |b.log| + q && d.vertices != [] && d.indexCount == 6 * r
            && 1 <= r <= capacity / 6 && |quads| == q * (capacity / 6) + r)
  {
    if quads == [] {
      return 0, 0;
    }
    var init := quads[..|quads| - 1];
    var c := DrawnAll(b, capacity, init);
    var n := capacity / 6;
    DrawnRestarts(c, capacity, None, quads[|quads| - 1]);
    if init == [] {
      assert |c.log| == |b.log|;
      return 0, 1;
    }
    var q0, r0 := DrawnAllRestarts(b, capacity, init);
    if r0 == n {
      assert (q0 + 1) * n == q0 * n + n;
      q, r := q0 + 1, 1;
    } else {
      q, r := q0, r0 + 1;
    }
  }

  /**
   * A scene of `n` untextured draws ends having flushed exactly
   * `ceil(n / Q)` batches, `Q` being the batch capacity in quads: none for
   * an empty scene, one per full batch that the capacity check restarts,
   * and the end-of-scene flush of the last, partly filled one.
   */
  lemma SceneFlushCount<V>(b: Batch<V>, capacity: nat, quads: seq<seq<V>>)
    requires SlotsInRange(b) && capacity % 6 == 0 && capacity > 0
    requires forall i :: 0 <= i < |quads| ==> |quads[i]| == 4
    ensures var e := Flushed(DrawnAll(SceneBegun(b), capacity, quads));
      |e.log| == |b.log| + (|quads| + capacity / 6 - 1) / (capacity / 6)
  {
    var n := capacity / 6;
    var d := DrawnAll(SceneBegun(b), capacity, quads);
    var q, r := DrawnAllRestarts(SceneBegun(b), capacity, quads);
    if quads == [] {
      DivideExactly(n - 1, n, 0, n - 1);
    } else {
      assert |quads| + n - 1 == (q + 1) * n + (r - 1);
      DivideExactly(|quads| + n - 1, n, q + 1, r - 1);
    }
  }
}
