/**
 * The drawing surface (components/editor/Canvas.tsx): the element store, the
 * pointer-driven input state machine keyed on the active tool, and the
 * redraw order. The handlers are modelled twice: as functions on a snapshot
 * of the component state (what each event does), and as methods of the class
 * Surface that update the state fields in place and are proved to agree with
 * those functions. Lemmas about runs of events state what a whole drag does.
 */
module Surface {
  import opened Wrappers
  import opened Geometry
  import opened Sequences
  import Toolbar
  import Grid

  /**
   * A drawn element. Every variant carries the element id (the text of
   * Date.now() when it was created), its stroke colour and its stroke width
   * before zoom. `at` is the element's x/y: the top-left corner of a
   * rectangle, the centre of a circle, the anchor of a text.
   */
  datatype Element =
    | Pen(id: string, color: string, strokeWidth: real, points: seq<Point>)
    | Line(id: string, color: string, strokeWidth: real, p1: Point, p2: Point)
    | Rectangle(id: string, color: string, strokeWidth: real, at: Point, width: real, height: real)
    | Circle(id: string, color: string, strokeWidth: real, at: Point, radius: real)
    | Text(id: string, color: string, strokeWidth: real, at: Point, text: string)

  /** The configuration the editor page passes to the canvas (CanvasProps, without the callback). */
  datatype Props = Props(tool: Toolbar.Tool, color: string, strokeWidth: real, zoom: real, showGrid: bool)

  /** The fixed look of the measuring line. */
  const MeasureColor: string := "#4a7c59"
  const MeasureStrokeWidth: real := 2.0

  /** The page the canvas lays out: its pageSize state is initialised once and never updated. */
  datatype PageSize = PageSize(width: real, height: real, dotSpacing: real, dotSize: real)
  const CanvasPage: PageSize := PageSize(145.0, 210.0, 5.0, 1.0)

  /** The component state the handlers read and write. */
  datatype CanvasState = CanvasState(isDrawing: bool, startPos: Point, elements: seq<Element>,
                                     current: Option<Element>)

  const InitialState: CanvasState := CanvasState(false, Point(0.0, 0.0), [], None)

  /** handleMouseDown: start drawing at `pos`; pen and measure open a preview, other tools keep the old one. */
  function AfterMouseDown(st: CanvasState, props: Props, pos: Point, id: string): CanvasState
  {
    var current :=
      match props.tool
      case Pen => Some(Pen(id, props.color, props.strokeWidth, [pos]))
      case Measure => Some(Line(id, MeasureColor, MeasureStrokeWidth, pos, pos))
      case _ => st.current;
    st.(isDrawing := true, startPos := pos, current := current)
  }

  /** The rectangle's position and size spread over an existing preview of any kind. */
  function WithBox(el: Element, box: Box): Element
  {
    match el
    case Rectangle(id, color, strokeWidth, _, _, _) =>
      Rectangle(id, color, strokeWidth, box.origin, box.width, box.height)
    case Circle(id, color, strokeWidth, _, radius) => Circle(id, color, strokeWidth, box.origin, radius)
    case Text(id, color, strokeWidth, _, text) => Text(id, color, strokeWidth, box.origin, text)
    case _ => el
  }

  /** What a pointer move while drawing does to the preview, keyed on the tool. */
  function MovedPreview(current: Option<Element>, props: Props, anchor: Point, pos: Point, id: string,
                        sqrt: real -> real): Option<Element>
  {
    match props.tool
    case Pen =>
      if current.Some? && current.value.Pen?
      then Some(current.value.(points := current.value.points + [pos]))
      else current
    case Line | Measure =>
      if current.Some? && current.value.Line? then Some(current.value.(p2 := pos)) else current
    case Rectangle =>
      var box := DragBox(anchor, pos);
      if current.None?
      then Some(Rectangle(id, props.color, props.strokeWidth, box.origin, box.width, box.height))
      else Some(WithBox(current.value, box))
    case Circle =>
      var radius := Distance(anchor, pos, sqrt);
      if current.None? then Some(Circle(id, props.color, props.strokeWidth, anchor, radius))
      else if current.value.Circle? then Some(current.value.(radius := radius))
      else current
    case _ => current
  }

  /** handleMouseMove (state part): nothing unless drawing, then the preview follows the pointer. */
  function AfterMouseMove(st: CanvasState, props: Props, pos: Point, id: string,
                          sqrt: real -> real): CanvasState
  {
    if !st.isDrawing then st
    else st.(current := MovedPreview(st.current, props, st.startPos, pos, id, sqrt))
  }

  /** handleMouseUp, also bound to mouse-leave: stop drawing, commit the preview unless measuring. */
  function AfterMouseUp(st: CanvasState, props: Props): CanvasState
  {
    if !st.isDrawing then st
    else
      var elements :=
        if st.current.Some? && props.tool != Toolbar.Measure then st.elements + [st.current.value]
        else st.elements;
      st.(isDrawing := false, elements := elements, current := None)
  }

  /** handleDoubleClick: with the text tool, a non-empty prompt answer becomes a text element at `pos`. */
  function AfterDoubleClick(st: CanvasState, props: Props, pos: Point, text: Option<string>,
                            id: string): CanvasState
  {
    if props.tool == Toolbar.Text && text.Some? && text.value != ""
    then st.(elements := st.elements + [Text(id, props.color, props.strokeWidth, pos, text.value)])
    else st
  }

  /** The pointer events the canvas listens to; `id` is the Date.now() text a handler may use. */
  datatype Event =
    | Down(pos: Point, id: string)
    | Move(pos: Point, id: string)
    | Up
    | Leave
    | DoubleClick(pos: Point, text: Option<string>, id: string)

  function Step(st: CanvasState, props: Props, ev: Event, sqrt: real -> real): CanvasState
  {
    match ev
    case Down(pos, id) => AfterMouseDown(st, props, pos, id)
    case Move(pos, id) => AfterMouseMove(st, props, pos, id, sqrt)
    case Up => AfterMouseUp(st, props)
    case Leave => AfterMouseUp(st, props)
    case DoubleClick(pos, text, id) => AfterDoubleClick(st, props, pos, text, id)
  }

  /** The state after handling `events` in order, each handler seeing its predecessor's update. */
  function Run(st: CanvasState, props: Props, events: seq<Event>, sqrt: real -> real): CanvasState
    decreases |events|
  {
    if events == [] then st else Run(Step(st, props, events[0], sqrt), props, events[1..], sqrt)
  }

  /** A pointer moving through `points`. */
  function Moves(points: seq<Point>, id: string): seq<Event>
  {
    seq(|points|, k requires 0 <= k < |points| => Move(points[k], id))
  }

  lemma {:induction false} RunConcat(st: CanvasState, props: Props, evs: seq<Event>, evs': seq<Event>,
                                     sqrt: real -> real)
    ensures Run(st, props, evs + evs', sqrt) == Run(Run(st, props, evs, sqrt), props, evs', sqrt)
    decreases |evs|
  {
    if evs == [] {
      assert evs + evs' == evs';
    } else {
      assert (evs + evs')[1..] == evs[1..] + evs';
      RunConcat(Step(st, props, evs[0], sqrt), props, evs[1..], evs', sqrt);
    }
  }

  lemma RunOne(st: CanvasState, props: Props, ev: Event, sqrt: real -> real)
    ensures Run(st, props, [ev], sqrt) == Step(st, props, ev, sqrt)
  {
    assert [ev][1..] == [];
  }

  /** Peels the last pointer move off a drag. */
  lemma DragSnoc(st: CanvasState, props: Props, down: Event, ps: seq<Point>, q: Point, moveId: string,
                 sqrt: real -> real)
    ensures Run(st, props, [down] + Moves(ps + [q], moveId), sqrt)
         == Step(Run(st, props, [down] + Moves(ps, moveId), sqrt), props, Move(q, moveId), sqrt)
  {
    assert [down] + Moves(ps + [q], moveId) == ([down] + Moves(ps, moveId)) + [Move(q, moveId)];
    RunConcat(st, props, [down] + Moves(ps, moveId), [Move(q, moveId)], sqrt);
    RunOne(Run(st, props, [down] + Moves(ps, moveId), sqrt), props, Move(q, moveId), sqrt);
  }

  /** A press followed by its release (mouse-up or mouse-leave). */
  lemma DragRelease(st: CanvasState, props: Props, drag: seq<Event>, release: Event, sqrt: real -> real)
    requires release == Up || release == Leave
    ensures Run(st, props, drag + [release], sqrt) == AfterMouseUp(Run(st, props, drag, sqrt), props)
  {
    RunConcat(st, props, drag, [release], sqrt);
    RunOne(Run(st, props, drag, sqrt), props, release, sqrt);
  }

  /**
   * Mouse-up and mouse-leave: a no-op unless drawing; otherwise drawing stops,
   * the preview is cleared, and the store grows by one element, the preview
   * itself, exactly when there was a preview and the tool is not measure.
   */
  lemma ReleaseCommitsPreview(st: CanvasState, props: Props)
    ensures var r := AfterMouseUp(st, props);
            && (!st.isDrawing ==> r == st)
            && (st.isDrawing ==> !r.isDrawing && r.current.None? && r.startPos == st.startPos)
            && r.elements[..|st.elements|] == st.elements
            && (|r.elements| == |st.elements| + 1 <==>
                  st.isDrawing && st.current.Some? && props.tool != Toolbar.Measure)
            && (|r.elements| == |st.elements| + 1 ==> r.elements[|st.elements|] == st.current.value)
            && (|r.elements| != |st.elements| + 1 ==> r.elements == st.elements)
  {
  }

  /** Pen: the preview holds the press point followed by every move point, in order. */
  lemma {:induction false} PenDragPreview(st: CanvasState, props: Props, anchor: Point, id: string,
                                          ps: seq<Point>, moveId: string, sqrt: real -> real)
    requires props.tool == Toolbar.Pen
    ensures Run(st, props, [Down(anchor, id)] + Moves(ps, moveId), sqrt)
         == st.(isDrawing := true, startPos := anchor,
                current := Some(Pen(id, props.color, props.strokeWidth, [anchor] + ps)))
  {
    if ps == [] {
      assert Moves(ps, moveId) == [];
      assert [Down(anchor, id)] + Moves(ps, moveId) == [Down(anchor, id)];
      RunOne(st, props, Down(anchor, id), sqrt);
      assert [anchor] + ps == [anchor];
    } else {
      var init, last := ps[..|ps| - 1], ps[|ps| - 1];
      assert ps == init + [last];
      DragSnoc(st, props, Down(anchor, id), init, last, moveId, sqrt);
      PenDragPreview(st, props, anchor, id, init, moveId, sqrt);
      assert [anchor] + init + [last] == [anchor] + ps;
    }
  }

  /**
   * Pen: press at p0, moves through p1..pn, release: exactly one element is
   * appended, a stroke through [p0, .., pn] in order; earlier elements stay.
   */
  lemma PenStrokeCommits(st: CanvasState, props: Props, anchor: Point, id: string, ps: seq<Point>,
                         moveId: string, release: Event, sqrt: real -> real)
    requires props.tool == Toolbar.Pen
    requires release == Up || release == Leave
    ensures Run(st, props, [Down(anchor, id)] + Moves(ps, moveId) + [release], sqrt)
         == st.(isDrawing := false, startPos := anchor, current := None,
                elements := st.elements + [Pen(id, props.color, props.strokeWidth, [anchor] + ps)])
  {
    DragRelease(st, props, [Down(anchor, id)] + Moves(ps, moveId), release, sqrt);
    PenDragPreview(st, props, anchor, id, ps, moveId, sqrt);
  }

  /** Rectangle: no preview until the first move; then the box from the fixed anchor to the latest point. */
  lemma {:induction false} RectangleDragPreview(st: CanvasState, props: Props, anchor: Point, id: string,
                                                ps: seq<Point>, moveId: string, sqrt: real -> real)
    requires props.tool == Toolbar.Rectangle && st.current.None?
    ensures Run(st, props, [Down(anchor, id)] + Moves(ps, moveId), sqrt)
         == st.(isDrawing := true, startPos := anchor,
                current := if ps == [] then None
                           else var box := DragBox(anchor, ps[|ps| - 1]);
                                Some(Rectangle(moveId, props.color, props.strokeWidth,
                                               box.origin, box.width, box.height)))
  {
    if ps == [] {
      assert Moves(ps, moveId) == [];
      assert [Down(anchor, id)] + Moves(ps, moveId) == [Down(anchor, id)];
      RunOne(st, props, Down(anchor, id), sqrt);
    } else {
      var init, last := ps[..|ps| - 1], ps[|ps| - 1];
      assert ps == init + [last];
      DragSnoc(st, props, Down(anchor, id), init, last, moveId, sqrt);
      RectangleDragPreview(st, props, anchor, id, init, moveId, sqrt);
    }
  }

  /**
   * Rectangle: a drag commits one rectangle whose corners are the anchor and
   * the last pointer position; a press and release without a move commits nothing.
   */
  lemma RectangleStrokeCommits(st: CanvasState, props: Props, anchor: Point, id: string, ps: seq<Point>,
                               moveId: string, release: Event, sqrt: real -> real)
    requires props.tool == Toolbar.Rectangle && st.current.None?
    requires release == Up || release == Leave
    ensures var r := Run(st, props, [Down(anchor, id)] + Moves(ps, moveId) + [release], sqrt);
            && !r.isDrawing && r.current.None?
            && r.elements == st.elements +
                             if ps == [] then []
                             else var box := DragBox(anchor, ps[|ps| - 1]);
                                  [Rectangle(moveId, props.color, props.strokeWidth, box.origin, box.width, box.height)]
  {
    DragRelease(st, props, [Down(anchor, id)] + Moves(ps, moveId), release, sqrt);
    RectangleDragPreview(st, props, anchor, id, ps, moveId, sqrt);
  }

  /** Circle: no preview until the first move; then centred on the anchor with radius its distance to the pointer. */
  lemma {:induction false} CircleDragPreview(st: CanvasState, props: Props, anchor: Point, id: string,
                                             ps: seq<Point>, moveId: string, sqrt: real -> real)
    requires props.tool == Toolbar.Circle && st.current.None?
    ensures Run(st, props, [Down(anchor, id)] + Moves(ps, moveId), sqrt)
         == st.(isDrawing := true, startPos := anchor,
                current := if ps == [] then None
                           else Some(Circle(moveId, props.color, props.strokeWidth, anchor,
                                            Distance(anchor, ps[|ps| - 1], sqrt))))
  {
    if ps == [] {
      assert Moves(ps, moveId) == [];
      assert [Down(anchor, id)] + Moves(ps, moveId) == [Down(anchor, id)];
      RunOne(st, props, Down(anchor, id), sqrt);
    } else {
      var init, last := ps[..|ps| - 1], ps[|ps| - 1];
      assert ps == init + [last];
      DragSnoc(st, props, Down(anchor, id), init, last, moveId, sqrt);
      CircleDragPreview(st, props, anchor, id, init, moveId, sqrt);
    }
  }

  /**
   * Circle: a drag commits one circle centred on the press point whose radius
   * r >= 0 satisfies r * r == dx * dx + dy * dy for the last pointer position.
   */
  lemma CircleStrokeCommits(st: CanvasState, props: Props, anchor: Point, id: string, ps: seq<Point>,
                            moveId: string, release: Event, sqrt: real -> real)
    requires IsSqrt(sqrt)
    requires props.tool == Toolbar.Circle && st.current.None?
    requires release == Up || release == Leave
    requires ps != []
    ensures var r := Run(st, props, [Down(anchor, id)] + Moves(ps, moveId) + [release], sqrt);
            var last := ps[|ps| - 1];
            && !r.isDrawing && r.current.None?
            && |r.elements| == |st.elements| + 1
            && r.elements[..|st.elements|] == st.elements
            && var c := r.elements[|st.elements|];
               && c.Circle? && c.id == moveId && c.color == props.color && c.strokeWidth == props.strokeWidth
               && c.at == anchor && 0.0 <= c.radius
               && c.radius * c.radius == Square(last.x - anchor.x) + Square(last.y - anchor.y)
  {
    DragRelease(st, props, [Down(anchor, id)] + Moves(ps, moveId), release, sqrt);
    CircleDragPreview(st, props, anchor, id, ps, moveId, sqrt);
    var r := Run(st, props, [Down(anchor, id)] + Moves(ps, moveId) + [release], sqrt);
    assert r.elements == st.elements + [Circle(moveId, props.color, props.strokeWidth, anchor,
                                               Distance(anchor, ps[|ps| - 1], sqrt))];
  }

  /** Measure: the preview is a line in the fixed measuring style from the press point to the latest point. */
  lemma {:induction false} MeasureDragPreview(st: CanvasState, props: Props, anchor: Point, id: string,
                                              ps: seq<Point>, moveId: string, sqrt: real -> real)
    requires props.tool == Toolbar.Measure
    ensures Run(st, props, [Down(anchor, id)] + Moves(ps, moveId), sqrt)
         == st.(isDrawing := true, startPos := anchor,
                current := Some(Line(id, MeasureColor, MeasureStrokeWidth, anchor,
                                     if ps == [] then anchor else ps[|ps| - 1])))
  {
    if ps == [] {
      assert Moves(ps, moveId) == [];
      assert [Down(anchor, id)] + Moves(ps, moveId) == [Down(anchor, id)];
      RunOne(st, props, Down(anchor, id), sqrt);
    } else {
      var init, last := ps[..|ps| - 1], ps[|ps| - 1];
      assert ps == init + [last];
      DragSnoc(st, props, Down(anchor, id), init, last, moveId, sqrt);
      MeasureDragPreview(st, props, anchor, id, init, moveId, sqrt);
    }
  }

  /** Measure: the release discards the measuring line. */
  lemma MeasureStrokeDiscards(st: CanvasState, props: Props, anchor: Point, id: string, ps: seq<Point>,
                              moveId: string, release: Event, sqrt: real -> real)
    requires props.tool == Toolbar.Measure
    requires release == Up || release == Leave
    ensures Run(st, props, [Down(anchor, id)] + Moves(ps, moveId) + [release], sqrt)
         == st.(isDrawing := false, startPos := anchor, current := None)
  {
    DragRelease(st, props, [Down(anchor, id)] + Moves(ps, moveId), release, sqrt);
    MeasureDragPreview(st, props, anchor, id, ps, moveId, sqrt);
  }

  /** Measure: whatever the events, the committed elements do not change. */
  lemma {:induction false} MeasureNeverCommits(st: CanvasState, props: Props, evs: seq<Event>,
                                               sqrt: real -> real)
    requires props.tool == Toolbar.Measure
    ensures Run(st, props, evs, sqrt).elements == st.elements
    decreases |evs|
  {
    if evs != [] {
      MeasureNeverCommits(Step(st, props, evs[0], sqrt), props, evs[1..], sqrt);
    }
  }

  /**
   * Line, select and eraser: starting with no preview, no event creates one
   * and the committed elements do not change; only isDrawing and startPos move.
   */
  lemma {:induction false} InertToolsNeverDraw(st: CanvasState, props: Props, evs: seq<Event>,
                                               sqrt: real -> real)
    requires props.tool == Toolbar.Line || props.tool == Toolbar.Select || props.tool == Toolbar.Eraser
    requires st.current.None?
    ensures Run(st, props, evs, sqrt).elements == st.elements
    ensures Run(st, props, evs, sqrt).current.None?
    decreases |evs|
  {
    if evs != [] {
      InertToolsNeverDraw(Step(st, props, evs[0], sqrt), props, evs[1..], sqrt);
    }
  }

  /**
   * Text: starting with no preview, pointer presses and moves never open one,
   * and everything appended to the store is a text element.
   */
  lemma {:induction false} TextToolOnlyAddsText(st: CanvasState, props: Props, evs: seq<Event>,
                                                sqrt: real -> real)
    requires props.tool == Toolbar.Text && st.current.None?
    ensures var r := Run(st, props, evs, sqrt);
            && r.current.None?
            && st.elements <= r.elements
            && forall k :: |st.elements| <= k < |r.elements| ==> r.elements[k].Text?
    decreases |evs|
  {
    if evs != [] {
      var next := Step(st, props, evs[0], sqrt);
      TextToolOnlyAddsText(next, props, evs[1..], sqrt);
      var r := Run(next, props, evs[1..], sqrt);
      forall k | |st.elements| <= k < |r.elements|
        ensures r.elements[k].Text?
      {
        if k < |next.elements| {
          assert r.elements[k] == next.elements[k];
        }
      }
    }
  }

  /** The store is append-only: no event changes or removes a committed element. */
  lemma {:induction false} RunAppendOnly(st: CanvasState, props: Props, evs: seq<Event>, sqrt: real -> real)
    ensures st.elements <= Run(st, props, evs, sqrt).elements
    decreases |evs|
  {
    if evs != [] {
      RunAppendOnly(Step(st, props, evs[0], sqrt), props, evs[1..], sqrt);
    }
  }

  /** The canvas is idle with no preview: what every gesture lemma assumes at its press. */
  predicate IdleWithoutPreview(st: CanvasState)
  {
    !st.isDrawing ==> st.current.None?
  }

  /**
   * Outside a drag there is never a preview: the invariant holds initially and
   * after any sequence of events, so a press that finds a preview is a second
   * press in the middle of a drag (handleMouseDown does not look at the button).
   */
  lemma {:induction false} IdleHasNoPreview(st: CanvasState, props: Props, evs: seq<Event>, sqrt: real -> real)
    requires IdleWithoutPreview(st)
    ensures IdleWithoutPreview(Run(st, props, evs, sqrt))
    decreases |evs|
  {
    if evs != [] {
      IdleHasNoPreview(Step(st, props, evs[0], sqrt), props, evs[1..], sqrt);
    }
  }

  /** From the initial state, every press outside a drag finds no preview. */
  lemma PressFromIdleFindsNoPreview(props: Props, evs: seq<Event>, sqrt: real -> real)
    ensures var st := Run(InitialState, props, evs, sqrt);
            !st.isDrawing ==> st.current.None?
  {
    IdleHasNoPreview(InitialState, props, evs, sqrt);
  }

  /**
   * Double-click appends exactly one text element at the click point iff the
   * tool is text and the entered string is non-empty; otherwise nothing changes.
   */
  lemma DoubleClickAddsText(st: CanvasState, props: Props, pos: Point, text: Option<string>, id: string)
    ensures var r := AfterDoubleClick(st, props, pos, text, id);
            && r.(elements := st.elements) == st
            && (|r.elements| == |st.elements| + 1 <==> props.tool == Toolbar.Text && text.Some? && text.value != "")
            && (r.elements == st.elements || r.elements == st.elements + [Text(id, props.color, props.strokeWidth, pos, text.value)])
  {
  }

  /** A drawing command issued to the 2D context of the canvas. */
  datatype Command =
    | ClearRect(width: int, height: int)
    | FillDot(dot: Grid.Dot)
    | DrawElement(element: Element, lineWidth: real, preview: bool)

  function DotCommands(dots: seq<Grid.Dot>): seq<Command>
  {
    Map(dots, (d: Grid.Dot) => FillDot(d))
  }

  /** drawElement(ctx, el) for a committed element: stroke width scaled by the zoom at draw time. */
  function DrawCommitted(zoom: real): Element -> Command
  {
    (e: Element) => DrawElement(e, e.strokeWidth * zoom, false)
  }

  /** drawElement(ctx, el) for each committed element, in store order. */
  function ElementCommands(elements: seq<Element>, zoom: real): seq<Command>
  {
    Map(elements, DrawCommitted(zoom))
  }

  /** drawElement(ctx, currentElement, true): dashed and translucent, if there is a preview. */
  function PreviewCommands(current: Option<Element>, zoom: real): seq<Command>
  {
    if current.Some? then [DrawElement(current.value, current.value.strokeWidth * zoom, true)] else []
  }

  /** The dots of the canvas page on a raster of the given size. */
  function PageDots(props: Props, width: int, height: int): seq<Grid.Dot>
    requires 0.0 < props.zoom
  {
    MmToPxIsIncreasing(0.0, CanvasPage.dotSpacing, props.zoom);
    Grid.GridDots(props.showGrid, MmToPx(CanvasPage.dotSpacing, props.zoom),
                  CanvasPage.dotSize * props.zoom / 2.0, width as real, height as real)
  }

  /** draw: clear, then the grid, then the committed elements in order, then the preview. */
  function Frame(st: CanvasState, props: Props, width: int, height: int): seq<Command>
    requires 0.0 < props.zoom
  {
    [ClearRect(width, height)] + DotCommands(PageDots(props, width, height))
    + ElementCommands(st.elements, props.zoom) + PreviewCommands(st.current, props.zoom)
  }

  /**
   * The layering of a frame: the clear comes first, the grid is beneath every
   * element, committed elements follow in store order, and the preview, if
   * any, is drawn last and is the only command in preview style.
   */
  lemma FrameLayers(st: CanvasState, props: Props, width: int, height: int)
    requires 0.0 < props.zoom
    ensures var cmds, dots, n := Frame(st, props, width, height), PageDots(props, width, height), |st.elements|;
            && |cmds| == 1 + |dots| + n + (if st.current.Some? then 1 else 0)
            && cmds[0] == ClearRect(width, height)
            && (forall k :: 0 <= k < |dots| ==> cmds[1 + k] == FillDot(dots[k]))
            && (forall k :: 0 <= k < n ==>
                  cmds[1 + |dots| + k] == DrawElement(st.elements[k], st.elements[k].strokeWidth * props.zoom, false))
            && (st.current.Some? ==>
                  cmds[|cmds| - 1] == DrawElement(st.current.value, st.current.value.strokeWidth * props.zoom, true))
            && (forall k :: 0 <= k < 1 + |dots| + n ==> !(cmds[k].DrawElement? && cmds[k].preview))
  {
    var dots := PageDots(props, width, height);
    var a, b, c, d := [ClearRect(width, height)], DotCommands(dots),
                      ElementCommands(st.elements, props.zoom), PreviewCommands(st.current, props.zoom);
    var cmds := Frame(st, props, width, height);
    assert cmds == a + b + c + d;
    forall k | 0 <= k < 1 + |b| + |c|
      ensures !(cmds[k].DrawElement? && cmds[k].preview)
    {
      if k == 0 {
        assert cmds[k] == a[0];
      } else if k < 1 + |b| {
        assert cmds[k] == b[k - 1];
      } else {
        assert cmds[k] == c[k - 1 - |b|];
      }
    }
  }

  /** With the grid hidden a frame holds no dot at all. */
  lemma HiddenGridDrawsNoDots(st: CanvasState, props: Props, width: int, height: int)
    requires 0.0 < props.zoom && !props.showGrid
    ensures forall c :: c in Frame(st, props, width, height) ==> !c.FillDot?
  {
    FrameLayers(st, props, width, height);
    assert PageDots(props, width, height) == [];
  }

  /** The canvas component: its state fields, updated in place by the event handlers. */
  class Surface {
    var isDrawing: bool
    var startPos: Point
    var elements: seq<Element>
    var current: Option<Element>
    /** The size of the backing raster (canvas.width, canvas.height) in pixels. */
    var rasterWidth: int
    var rasterHeight: int
    /** The host's Math.sqrt. */
    const sqrt: real -> real

    function State(): CanvasState
      reads this
    {
      CanvasState(isDrawing, startPos, elements, current)
    }

    /** The mounted component, before the first layout: an empty store and a default 300 x 150 raster. */
    constructor (sqrt: real -> real)
      ensures State() == InitialState && this.sqrt == sqrt
      ensures rasterWidth == 300 && rasterHeight == 150
    {
      isDrawing := false;
      startPos := Point(0.0, 0.0);
      elements := [];
      current := None;
      rasterWidth, rasterHeight := 300, 150;
      this.sqrt := sqrt;
    }

    method MouseDown(props: Props, pos: Point, id: string)
      modifies this`isDrawing, this`startPos, this`current
      ensures State() == AfterMouseDown(old(State()), props, pos, id)
    {
      isDrawing := true;
      startPos := pos;
      match props.tool {
        case Pen =>
          current := Some(Pen(id, props.color, props.strokeWidth, [pos]));
        case Measure =>
          current := Some(Line(id, MeasureColor, MeasureStrokeWidth, pos, pos));
        case _ =>
      }
    }

    /** Returns the pointer position in millimetres, which the canvas reports on every move. */
    method MouseMove(props: Props, pos: Point, id: string) returns (cursorMm: Point)
      requires props.zoom != 0.0
      modifies this`current
      ensures State() == AfterMouseMove(old(State()), props, pos, id, sqrt)
      ensures cursorMm == Point(PxToMm(pos.x, props.zoom), PxToMm(pos.y, props.zoom))
    {
      cursorMm := Point(PxToMm(pos.x, props.zoom), PxToMm(pos.y, props.zoom));
      if !isDrawing {
        return;
      }
      match props.tool {
        case Pen =>
          if current.Some? && current.value.Pen? {
            current := Some(current.value.(points := current.value.points + [pos]));
          }
        case Line =>
          if current.Some? && current.value.Line? {
            current := Some(current.value.(p2 := pos));
          }
        case Measure =>
          if current.Some? && current.value.Line? {
            current := Some(current.value.(p2 := pos));
          }
        case Rectangle =>
          var box := DragBox(startPos, pos);
          if current.None? {
            current := Some(Rectangle(id, props.color, props.strokeWidth, box.origin, box.width, box.height));
          } else {
            current := Some(WithBox(current.value, box));
          }
        case Circle =>
          var radius := Distance(startPos, pos, sqrt);
          if current.None? {
            current := Some(Circle(id, props.color, props.strokeWidth, startPos, radius));
          } else if current.value.Circle? {
            current := Some(current.value.(radius := radius));
          }
        case _ =>
      }
    }

    method MouseUp(props: Props)
      modifies this`isDrawing, this`elements, this`current
      ensures State() == AfterMouseUp(old(State()), props)
    {
      if !isDrawing {
        return;
      }
      isDrawing := false;
      if current.Some? && props.tool != Toolbar.Measure {
        elements := elements + [current.value];
      }
      current := None;
    }

    /** The canvas binds mouse-leave to the mouse-up handler. */
    method MouseLeave(props: Props)
      modifies this`isDrawing, this`elements, this`current
      ensures State() == AfterMouseUp(old(State()), props)
    {
      MouseUp(props);
    }

    /** `text` is the answer to the blocking prompt: None when it was cancelled. */
    method DoubleClick(props: Props, pos: Point, text: Option<string>, id: string)
      modifies this`elements
      ensures State() == AfterDoubleClick(old(State()), props, pos, text, id)
    {
      if props.tool == Toolbar.Text && text.Some? && text.value != "" {
        elements := elements + [Text(id, props.color, props.strokeWidth, pos, text.value)];
      }
    }

    /** draw; `contextAvailable` is false when the canvas has no 2D context, and nothing is drawn. */
    method Draw(props: Props, contextAvailable: bool) returns (cmds: seq<Command>)
      requires 0.0 < props.zoom
      ensures cmds == if contextAvailable then Frame(State(), props, rasterWidth, rasterHeight) else []
    {
      if !contextAvailable {
        return [];
      }
      cmds := [ClearRect(rasterWidth, rasterHeight)];
      var dots := Grid.DrawDotGrid(props.showGrid, CanvasPage.dotSpacing, CanvasPage.dotSize, props.zoom,
                                   rasterWidth, rasterHeight);
      cmds := cmds + DotCommands(dots);
      ghost var beneath := cmds;
      var zoom := props.zoom;
      for k := 0 to |elements|
        invariant cmds == beneath + ElementCommands(elements[..k], zoom)
      {
        var drawn, e := elements[..k], elements[k];
        MapSnoc(drawn, e, DrawCommitted(zoom));
        assert DrawCommitted(zoom)(e) == DrawElement(e, e.strokeWidth * zoom, false);
        assert elements[..k + 1] == drawn + [e];
        cmds := cmds + [DrawElement(e, e.strokeWidth * zoom, false)];
      }
      assert elements[..|elements|] == elements;
      assert dots == PageDots(props, rasterWidth, rasterHeight);
      cmds := cmds + PreviewCommands(current, zoom);
      assert cmds == [ClearRect(rasterWidth, rasterHeight)] + DotCommands(dots)
                     + ElementCommands(elements, zoom) + PreviewCommands(current, zoom);
    }

    /**
     * The layout effect on a zoom change: size the raster to the page at this
     * zoom (Math.round of mmToPx), which discards its pixels, then redraw.
     */
    method Layout(props: Props, contextAvailable: bool) returns (cmds: seq<Command>)
      requires 0.0 < props.zoom
      modifies this`rasterWidth, this`rasterHeight
      ensures rasterWidth == Round(MmToPx(CanvasPage.width, props.zoom))
      ensures rasterHeight == Round(MmToPx(CanvasPage.height, props.zoom))
      ensures cmds == if contextAvailable then Frame(State(), props, rasterWidth, rasterHeight) else []
    {
      rasterWidth := Round(MmToPx(CanvasPage.width, props.zoom));
      rasterHeight := Round(MmToPx(CanvasPage.height, props.zoom));
      cmds := Draw(props, contextAvailable);
    }
  }
}
