/**
 * The immediate-mode UI (`src/ui/ui.rs`): a hot/active state machine per
 * widget id, and a stack of flow layouts that place widgets one after
 * another, horizontally or vertically. Buttons are drawn through the world
 * renderer. Window size, cursor and mouse buttons are passed in by the
 * caller instead of being polled from the window.
 */
module ImmediateUi {
  import opened Wrappers
  import opened Math
  import Aabb
  import opened Batching
  import opened Renderers

  /** What `update_state` reports for a widget this frame. */
  datatype UiState = Inactive | Active | Hot | Fired

  datatype UiLayoutKind = Horizontal | Vertical

  // ---------------------------------------------------------------------
  // Flow layout arithmetic
  // ---------------------------------------------------------------------

  /** The component of `v` along the direction a layout of this kind grows in. */
  function Along(kind: UiLayoutKind, v: Vec2): real {
    if kind.Horizontal? then v.x else v.y
  }

  /** The component of `v` across that direction. */
  function Across(kind: UiLayoutKind, v: Vec2): real {
    if kind.Horizontal? then v.y else v.x
  }

  /** The vector with the given components along and across a layout of this kind. */
  function Oriented(kind: UiLayoutKind, along: real, across: real): (r: Vec2)
    ensures Along(kind, r) == along && Across(kind, r) == across
  {
    if kind.Horizontal? then Vec2(along, across) else Vec2(across, along)
  }

  /**
   * `available_position`: where the next widget of a layout goes. It is the
   * layout's origin moved along the layout's axis by the extent used so far,
   * and not moved across it.
   */
  function Available(kind: UiLayoutKind, position: Vec2, size: Vec2): (r: Vec2)
    ensures r == position.Plus(Oriented(kind, Along(kind, size), 0.0))
    ensures Along(kind, r) == Along(kind, position) + Along(kind, size)
    ensures Across(kind, r) == Across(kind, position)
  {
    match kind
    case Horizontal => position.Plus(Vec2(size.x, 0.0))
    case Vertical => position.Plus(Vec2(0.0, size.y))
  }

  /**
   * `push_widget` on the layout's extent: the widget and one padding are
   * added along the axis, and the cross extent becomes the larger of the
   * two. The next available position therefore moves on by exactly the
   * widget and its padding.
   */
  function Grow(kind: UiLayoutKind, size: Vec2, padding: real, widget: Vec2): (r: Vec2)
    ensures Along(kind, r) == Along(kind, size) + Along(kind, widget) + padding
    ensures Across(kind, r) == Max(Across(kind, widget), Across(kind, size))
    ensures Across(kind, r) >= Across(kind, widget) && Across(kind, r) >= Across(kind, size)
    ensures forall position: Vec2 ::
      Available(kind, position, r) == Available(kind, position, size).Plus(Oriented(kind, Along(kind, widget) + padding, 0.0))
  {
    match kind
    case Horizontal => Vec2(size.x + widget.x + padding, Max(widget.y, size.y))
    case Vertical => Vec2(Max(widget.x, size.x), size.y + widget.y + padding)
  }

  /** The extent of a fresh (zero-size) layout after `push_widget` on each of `widgets` in order. */
  function Flow(kind: UiLayoutKind, padding: real, widgets: seq<Vec2>): Vec2 {
    if widgets == [] then Vec2(0.0, 0.0)
    else Grow(kind, Flow(kind, padding, widgets[..|widgets| - 1]), padding, widgets[|widgets| - 1])
  }

  /** The sum of the widgets' extents along the axis. */
  function AlongSum(kind: UiLayoutKind, widgets: seq<Vec2>): real {
    if widgets == [] then 0.0
    else AlongSum(kind, widgets[..|widgets| - 1]) + Along(kind, widgets[|widgets| - 1])
  }

  /** The largest cross extent among the widgets, and 0 for none. */
  function AcrossMax(kind: UiLayoutKind, widgets: seq<Vec2>): real {
    if widgets == [] then 0.0
    else Max(Across(kind, widgets[|widgets| - 1]), AcrossMax(kind, widgets[..|widgets| - 1]))
  }

  /**
   * A layout's extent in closed form: every widget contributes its own
   * extent plus one padding along the axis (the padding follows the last
   * widget too), and the cross extent is the largest widget's.
   */
  lemma {:induction false} FlowClosedForm(kind: UiLayoutKind, padding: real, widgets: seq<Vec2>)
    ensures Along(kind, Flow(kind, padding, widgets)) == AlongSum(kind, widgets) + padding * (|widgets| as real)
    ensures Across(kind, Flow(kind, padding, widgets)) == AcrossMax(kind, widgets)
  {
    if widgets != [] {
      var init := widgets[..|widgets| - 1];
      FlowClosedForm(kind, padding, init);
      assert Flow(kind, padding, widgets) == Grow(kind, Flow(kind, padding, init), padding, widgets[|widgets| - 1]);
      assert padding * (|widgets| as real) == padding * (|init| as real) + padding;
    }
  }

  /** Every widget of a layout fits inside its cross extent. */
  lemma {:induction false} FlowCoversWidgets(kind: UiLayoutKind, padding: real, widgets: seq<Vec2>)
    ensures forall i :: 0 <= i < |widgets| ==> Across(kind, widgets[i]) <= Across(kind, Flow(kind, padding, widgets))
    ensures Across(kind, Flow(kind, padding, widgets)) >= 0.0
  {
    if widgets != [] {
      var init := widgets[..|widgets| - 1];
      FlowCoversWidgets(kind, padding, init);
      forall i | 0 <= i < |widgets|
        ensures Across(kind, widgets[i]) <= Across(kind, Flow(kind, padding, widgets))
      {
        if i < |widgets| - 1 {
          assert widgets[i] == init[i];
        }
      }
    }
  }

  /** Three 50x50 widgets with padding 10 in a vertical layout occupy 50 by 180. */
  lemma VerticalFlowOfThree()
    ensures Flow(Vertical, 10.0, [Vec2(50.0, 50.0), Vec2(50.0, 50.0), Vec2(50.0, 50.0)]) == Vec2(50.0, 180.0)
  {
    var w := Vec2(50.0, 50.0);
    assert [w, w, w][..2] == [w, w] && [w, w][..1] == [w] && [w][..0] == [];
    assert Flow(Vertical, 10.0, [w]) == Vec2(50.0, 60.0);
    assert Flow(Vertical, 10.0, [w, w]) == Vec2(50.0, 120.0);
  }

  /** `UiLayout`: an origin and padding fixed at creation, and an extent grown by each widget. */
  class UiLayout {
    const kind: UiLayoutKind
    const position: Vec2
    var size: Vec2
    const padding: real

    constructor (kind: UiLayoutKind, position: Vec2, size: Vec2, padding: real)
      ensures this.kind == kind && this.position == position && this.size == size && this.padding == padding
    {
      this.kind := kind;
      this.position := position;
      this.size := size;
      this.padding := padding;
    }

    function AvailablePosition(): (r: Vec2)
      reads this
      ensures Along(kind, r) == Along(kind, position) + Along(kind, size)
      ensures Across(kind, r) == Across(kind, position)
    {
      Available(kind, position, size)
    }

    /** `push_widget`: the extent grows by the widget and one padding; origin and kind stay. */
    method PushWidget(widget: Vec2)
      modifies this`size
      ensures size == Grow(kind, old(size), padding, widget)
      ensures AvailablePosition() == old(AvailablePosition()).Plus(Oriented(kind, Along(kind, widget) + padding, 0.0))
    {
      match kind
      case Horizontal =>
        size := Vec2(size.x + widget.x + padding, Max(widget.y, size.y));
      case Vertical =>
        size := Vec2(Max(widget.x, size.x), size.y + widget.y + padding);
    }
  }

  /** A vertical layout of three 50x50 buttons with padding 10 ends up 50 wide and 180 tall. */
  method VerticalFlowExample() returns (size: Vec2)
    ensures size == Vec2(50.0, 180.0)
  {
    var layout := new UiLayout(Vertical, Vec2(0.0, 0.0), Vec2(0.0, 0.0), 10.0);
    layout.PushWidget(Vec2(50.0, 50.0));
    assert layout.size == Vec2(50.0, 60.0);
    layout.PushWidget(Vec2(50.0, 50.0));
    assert layout.size == Vec2(50.0, 120.0);
    layout.PushWidget(Vec2(50.0, 50.0));
    size := layout.size;
  }

  // ---------------------------------------------------------------------
  // The hot / active state machine
  // ---------------------------------------------------------------------

  /** `active_id` and `hot_id`: the widget being pressed, and the widget under the cursor. */
  datatype Focus = Focus(active: Option<nat>, hot: Option<nat>)

  /** The state reported for a widget and the focus left behind. */
  datatype Transition = Transition(state: UiState, focus: Focus)

  /** An active widget is always the hot one. */
  predicate Coherent(f: Focus) {
    f.active.Some? ==> f.hot == f.active
  }

  /**
   * `update_state` for widget `id`, with `inside` whether its rectangle
   * contains the cursor. A pressed widget fires when the button is released
   * over it; a hot widget becomes active on press but reports `Hot` that
   * frame; an untracked widget becomes hot only when nothing is active.
   */
  function Interact(f: Focus, id: nat, inside: bool, leftClick: bool): (r: Transition)
    ensures r.state == Fired <==> f.active == Some(id) && !leftClick && inside
    ensures r.state == Active <==> f.active == Some(id) && leftClick
    ensures r.state == Hot <==> f.active != Some(id) && inside && (f.hot == Some(id) || f.active.None?)
    ensures r.focus.active ==
      if f.active == Some(id) && !leftClick then None
      else if f.active.None? && f.hot == Some(id) && inside && leftClick then Some(id)
      else f.active
    ensures r.focus.hot ==
      if f.active != Some(id) && f.hot == Some(id) && !inside then None
      else if f.active.None? && f.hot != Some(id) && inside then Some(id)
      else f.hot
    ensures Coherent(f) ==> Coherent(r.focus)
  {
    if f.active == Some(id) then
      if !leftClick then
        Transition(if inside then Fired else Inactive, f.(active := None))
      else
        Transition(Active, f)
    else if f.hot == Some(id) then
      if !inside then
        Transition(Inactive, f.(hot := None))
      else if leftClick && f.active.None? then
        Transition(Hot, f.(active := Some(id)))
      else
        Transition(Hot, f)
    else if f.active.None? && inside then
      Transition(Hot, f.(hot := Some(id)))
    else
      Transition(Inactive, f)
  }

  /**
   * A click on a widget with the cursor kept over it: hover, press and
   * release report Hot, Hot and Fired, and the widget stays hot.
   */
  lemma ClickOverWidget(id: nat)
    ensures var t1 := Interact(Focus(None, None), id, true, false);
      var t2 := Interact(t1.focus, id, true, true);
      var t3 := Interact(t2.focus, id, true, false);
      && t1.state == Hot && t2.state == Hot && t3.state == Fired
      && t2.focus == Focus(Some(id), Some(id))
      && t3.focus == Focus(None, Some(id))
  {
  }

  /** Pressing a widget, then releasing outside it: no Fired, and the next frame outside drops it. */
  lemma ReleaseOutsideWidget(id: nat)
    ensures var t1 := Interact(Focus(None, None), id, true, false);
      var t2 := Interact(t1.focus, id, true, true);
      var t3 := Interact(t2.focus, id, false, false);
      var t4 := Interact(t3.focus, id, false, false);
      && t3.state == Inactive && t3.focus == Focus(None, Some(id))
      && t4.state == Inactive && t4.focus == Focus(None, None)
  {
  }

  /** While a widget is held, no other widget can become hot or active. */
  lemma HeldWidgetExcludesOthers(f: Focus, id: nat, other: nat, inside: bool, leftClick: bool)
    requires Coherent(f) && f.active == Some(id) && other != id
    ensures Interact(f, other, inside, leftClick) == Transition(Inactive, f)
  {
  }

  /** The colour `button` draws in: brighter the further the interaction has gone. */
  function Tint(color: Vec4, state: UiState): (r: Vec4)
    ensures state.Inactive? ==> r == color
    ensures r == color.PlusScalar(match state case Inactive => 0.0 case Hot => 0.3 case Active => 0.6 case Fired => 0.9)
  {
    match state
    case Inactive => color
    case Hot => color.PlusScalar(0.3)
    case Active => color.PlusScalar(0.6)
    case Fired => color.PlusScalar(0.9)
  }

  // ---------------------------------------------------------------------
  // The UI context
  // ---------------------------------------------------------------------

  class Ui {
    var activeId: Option<nat>
    var hotId: Option<nat>
    var layouts: seq<UiLayout>
    const renderer: Renderer
    var cursorPosition: Vec2
    var rightClick: bool
    var leftClick: bool
    var windowSize: Vec2

    ghost predicate Valid()
      reads this, renderer, renderer.Repr
    {
      && renderer.Valid()
      && Coherent(Focus(activeId, hotId))
      && (forall i, j :: 0 <= i < j < |layouts| ==> layouts[i] != layouts[j])
    }

    /** `Ui::new`, with the driver ids of its renderer supplied: no focus, no layouts, no input yet. */
    constructor (ids: GlIds)
      ensures Valid() && fresh(renderer.Repr)
      ensures activeId == None && hotId == None && layouts == []
      ensures renderer.flushLog == [] && renderer.quadVertices == []
      ensures cursorPosition == Vec2(0.0, 0.0) && !rightClick && !leftClick && windowSize == Vec2(0.0, 0.0)
    {
      activeId := None;
      hotId := None;
      layouts := [];
      renderer := new Renderer(ids);
      cursorPosition := Vec2(0.0, 0.0);
      rightClick := false;
      leftClick := false;
      windowSize := Vec2(0.0, 0.0);
    }

    /** `new_frame`, with the window size, cursor and mouse buttons given instead of polled. */
    method NewFrame(windowSize: Vec2, cursor: Vec2, leftClick: bool, rightClick: bool)
      modifies this`windowSize, this`cursorPosition, this`leftClick, this`rightClick
      ensures this.windowSize == windowSize && cursorPosition == cursor
      ensures this.leftClick == leftClick && this.rightClick == rightClick
    {
      this.windowSize := windowSize;
      cursorPosition := cursor;
      this.leftClick := leftClick;
      this.rightClick := rightClick;
    }

    /** `update_state`: one step of the state machine against this frame's input. */
    method UpdateState(id: nat, rect: Aabb.AABB) returns (state: UiState)
      modifies this`activeId, this`hotId
      ensures Coherent(Focus(old(activeId), old(hotId))) ==> Coherent(Focus(activeId, hotId))
      ensures Transition(state, Focus(activeId, hotId)) ==
        Interact(Focus(old(activeId), old(hotId)), id, Aabb.Contains(rect, cursorPosition), leftClick)
    {
      var inside := Aabb.Contains(rect, cursorPosition);
      if activeId == Some(id) {
        if !leftClick {
          activeId := None;
          if inside {
            return Fired;
          }
          return Inactive;
        }
        return Active;
      } else if hotId == Some(id) {
        if !inside {
          hotId := None;
          return Inactive;
        } else if leftClick && !activeId.Some? {
          activeId := Some(id);
          return Hot;
        }
        return Hot;
      }
      if !activeId.Some? && inside {
        hotId := Some(id);
        return Hot;
      }
      return Inactive;
    }

    /** `top_layout`: the innermost open layout, if any. */
    function TopLayout(): (r: Option<UiLayout>)
      reads this
      ensures r.None? <==> layouts == []
      ensures r.Some? ==> r.value == layouts[|layouts| - 1] && r.value in layouts
    {
      if layouts == [] then None else Some(layouts[|layouts| - 1])
    }

    /** `push_layout`: the layout becomes the innermost one. */
    method PushLayout(layout: UiLayout)
      requires Valid() && layout !in layouts
      modifies this`layouts
      ensures Valid()
      ensures layouts == old(layouts) + [layout] && TopLayout() == Some(layout)
    {
      layouts := layouts + [layout];
    }

    /** `pop_layout`: removes and returns the innermost layout; fails on an empty stack. */
    method PopLayout() returns (r: Result<UiLayout>)
      requires Valid()
      modifies this`layouts
      ensures Valid()
      ensures old(layouts) == [] ==> r == Err(EmptyLayoutStack) && layouts == []
      ensures old(layouts) != [] ==> r == Ok(old(layouts)[|old(layouts)| - 1]) && layouts + [r.value] == old(layouts)
    {
      if layouts == [] {
        return Err(EmptyLayoutStack);
      }
      r := Ok(layouts[|layouts| - 1]);
      layouts := layouts[..|layouts| - 1];
    }

    /**
     * `begin`: starts a renderer scene with the screen transform for this
     * frame's window size and opens a horizontal root layout at `position`.
     */
    method Begin(position: Vec2, padding: real)
      requires Valid()
      modifies this`layouts, renderer
      ensures Valid()
      ensures |layouts| == |old(layouts)| + 1 && layouts[..|old(layouts)|] == old(layouts)
      ensures fresh(layouts[|layouts| - 1])
      ensures var top := layouts[|layouts| - 1];
        top.kind == Horizontal && top.position == position && top.size == Vec2(0.0, 0.0) && top.padding == padding
      ensures renderer.viewProjection == ScreenProjection(windowSize)
      ensures renderer.Model() == SceneBegun(old(renderer.Model()))
    {
      renderer.BeginSceneWithMatrix(ScreenProjection(windowSize));
      var layout := new UiLayout(Horizontal, position, Vec2(0.0, 0.0), padding);
      layouts := layouts + [layout];
    }

    /**
     * `begin_layout`: opens an empty layout of the given kind where the
     * current innermost layout would place its next widget; fails when no
     * layout is open.
     */
    method BeginLayout(kind: UiLayoutKind, padding: real) returns (o: Outcome)
      requires Valid()
      modifies this`layouts
      ensures Valid()
      ensures old(layouts) == [] ==> o == Fail(EmptyLayoutStack) && layouts == []
      ensures old(layouts) != [] ==>
        && o == Pass
        && |layouts| == |old(layouts)| + 1 && layouts[..|old(layouts)|] == old(layouts)
        && fresh(layouts[|layouts| - 1])
        && layouts[|layouts| - 1].kind == kind
        && layouts[|layouts| - 1].position == old(layouts[|layouts| - 1].AvailablePosition())
        && layouts[|layouts| - 1].size == Vec2(0.0, 0.0)
        && layouts[|layouts| - 1].padding == padding
    {
      var top := TopLayout();
      if top.None? {
        return Fail(EmptyLayoutStack);
      }
      var next := new UiLayout(kind, top.value.AvailablePosition(), Vec2(0.0, 0.0), padding);
      layouts := layouts + [next];
      o := Pass;
    }

    /** `end`: closes the innermost layout and ends the renderer scene; fails when no layout is open. */
    method End() returns (o: Outcome)
      requires Valid()
      modifies this`layouts, renderer`flushLog
      ensures Valid()
      ensures old(layouts) == [] ==> o == Fail(EmptyLayoutStack) && layouts == [] && renderer.flushLog == old(renderer.flushLog)
      ensures old(layouts) != [] ==>
        && o == Pass
        && layouts == old(layouts)[..|old(layouts)| - 1]
        && renderer.Model() == Flushed(old(renderer.Model()))
        && VertexTotal(renderer.retired) + VertexTotal(renderer.flushLog[|old(renderer.flushLog)|..]) == 4 * renderer.sceneQuads
    {
      var popped := PopLayout();
      if popped.Err? {
        return Fail(popped.error);
      }
      renderer.EndScene();
      o := Pass;
    }

    /**
     * `end_layout`: closes the innermost layout and places it, as one
     * widget of its extent, in the layout that is innermost afterwards.
     * Fails when fewer than two layouts are open (after popping the only
     * one, when there is exactly one).
     */
    method EndLayout() returns (o: Outcome)
      requires Valid()
      modifies this`layouts, layouts
      ensures Valid()
      ensures |old(layouts)| < 2 ==> o == Fail(EmptyLayoutStack) && layouts == old(layouts)[..Pred(|old(layouts)|)]
      ensures forall l :: l in old(layouts) ==> l.size == old(l.size) || (|old(layouts)| >= 2 && l == old(layouts)[|old(layouts)| - 2])
      ensures |old(layouts)| >= 2 ==>
        && o == Pass
        && layouts == old(layouts)[..|old(layouts)| - 1]
        && var parent, child := layouts[|layouts| - 1], old(layouts)[|old(layouts)| - 1];
           parent.size == Grow(parent.kind, old(parent.size), parent.padding, old(child.size))
    {
      var child := PopLayout();
      if child.Err? {
        return Fail(child.error);
      }
      var parent := TopLayout();
      if parent.None? {
        return Fail(EmptyLayoutStack);
      }
      assert parent.value == old(layouts)[|old(layouts)| - 2];
      parent.value.PushWidget(child.value.size);
      o := Pass;
    }

    /** `render_button`: one untextured quad covering the rectangle. */
    method RenderButton(rect: Aabb.AABB, color: Vec4)
      requires renderer.Valid()
      modifies renderer, renderer.textureSlots
      ensures renderer.Valid() && renderer.viewProjection == old(renderer.viewProjection)
      ensures renderer.Model() ==
        Drawn(old(renderer.Model()), MAX_INDICES, None, QuadCorners(Aabb.Center(rect), Aabb.Size(rect), color, 0))
    {
      renderer.DrawQuad(Aabb.Center(rect), Aabb.Size(rect), color, None);
    }

    /**
     * `button`: a widget of the given size at the innermost layout's next
     * position. It runs the state machine on that rectangle, draws it in
     * the tinted colour, advances the layout by its size, and reports
     * whether it fired. Fails, changing nothing, when no layout is open.
     */
    method Button(size: Vec2, color: Vec4, id: nat) returns (r: Result<bool>)
      requires Valid()
      modifies this`activeId, this`hotId, renderer, renderer.textureSlots, layouts
      ensures Valid() && layouts == old(layouts) && renderer.viewProjection == old(renderer.viewProjection)
      ensures old(layouts) == [] ==>
        && r == Err(EmptyLayoutStack)
        && activeId == old(activeId) && hotId == old(hotId) && renderer.Model() == old(renderer.Model())
      ensures forall l :: l in layouts && l != layouts[|layouts| - 1] ==> l.size == old(l.size)
      ensures old(layouts) != [] ==>
        var top := layouts[|layouts| - 1];
        var at := old(top.AvailablePosition());
        var rect := Aabb.New(at, at.Plus(size));
        var t := Interact(Focus(old(activeId), old(hotId)), id, Aabb.Contains(rect, cursorPosition), leftClick);
        && r == Ok(t.state == Fired)
        && Focus(activeId, hotId) == t.focus
        && top.size == Grow(top.kind, old(top.size), top.padding, size)
        && renderer.Model() ==
             Drawn(old(renderer.Model()), MAX_INDICES, None,
                   QuadCorners(Aabb.Center(rect), Aabb.Size(rect), Tint(color, t.state), 0))
    {
      var top := TopLayout();
      if top.None? {
        return Err(EmptyLayoutStack);
      }
      var fired := PlaceButton(top.value, size, color, id);
      r := Ok(fired);
    }

    /** The body of `button` once the innermost layout `top` is known. */
    method PlaceButton(top: UiLayout, size: Vec2, color: Vec4, id: nat) returns (fired: bool)
      requires Valid() && layouts != [] && top == layouts[|layouts| - 1]
      modifies this`activeId, this`hotId, renderer, renderer.textureSlots, top`size
      ensures Valid() && layouts == old(layouts) && renderer.viewProjection == old(renderer.viewProjection)
      ensures var at := old(top.AvailablePosition());
        var rect := Aabb.New(at, at.Plus(size));
        var t := Interact(Focus(old(activeId), old(hotId)), id, Aabb.Contains(rect, cursorPosition), leftClick);
        && fired == (t.state == Fired)
        && Focus(activeId, hotId) == t.focus
        && top.size == Grow(top.kind, old(top.size), top.padding, size)
        && renderer.Model() ==
             Drawn(old(renderer.Model()), MAX_INDICES, None,
                   QuadCorners(Aabb.Center(rect), Aabb.Size(rect), Tint(color, t.state), 0))
    {
      var position := top.AvailablePosition();
      var rect := Aabb.New(position, position.Plus(size));
      var state := UpdateState(id, rect);
      DrawButton(top, rect, Tint(color, state), size);
      fired := state.Fired?;
    }

    /** The drawing half of `button`: render the rectangle, then advance the layout by the widget's size. */
    method DrawButton(top: UiLayout, rect: Aabb.AABB, color: Vec4, size: Vec2)
      requires renderer.Valid()
      modifies renderer, renderer.textureSlots, top`size
      ensures renderer.Valid() && renderer.viewProjection == old(renderer.viewProjection)
      ensures renderer.Model() ==
        Drawn(old(renderer.Model()), MAX_INDICES, None, QuadCorners(Aabb.Center(rect), Aabb.Size(rect), color, 0))
      ensures top.size == Grow(top.kind, old(top.size), top.padding, size)
    {
      RenderButton(rect, color);
      top.PushWidget(size);
    }
  }

  /** `n - 1`, or 0 for 0. */
  function Pred(n: nat): nat {
    if n == 0 then 0 else n - 1
  }
}
