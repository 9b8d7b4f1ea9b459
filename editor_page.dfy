/**
 * The editor page (app/editor/page.tsx): the view state the page owns and
 * hands to the toolbar, the header and the canvas, and the handlers that
 * update it. Zoom is multiplicative by 1.2 and clamped to [0.3, 3].
 */
module EditorPage {
  import opened Wrappers
  import opened Geometry
  import Toolbar
  import Surface

  const MinZoom: real := 0.3
  const MaxZoom: real := 3.0
  const ZoomStep: real := 1.2
  const FitZoom: real := 0.8

  predicate ZoomInRange(z: real)
  {
    MinZoom <= z <= MaxZoom
  }

  /** handleZoomIn: one step up, capped at the maximum. */
  function ZoomedIn(z: real): (r: real)
    ensures r <= MaxZoom && r <= z * ZoomStep
    ensures r == z * ZoomStep || r == MaxZoom
  {
    Min(z * ZoomStep, MaxZoom)
  }

  /** handleZoomOut: one step down, floored at the minimum. */
  function ZoomedOut(z: real): (r: real)
    ensures MinZoom <= r && z / ZoomStep <= r
    ensures r == z / ZoomStep || r == MinZoom
  {
    if z / ZoomStep < MinZoom then MinZoom else z / ZoomStep
  }

  /** Within the range, zoom-in and zoom-out stay within it; zoom-in never lowers, zoom-out never raises. */
  lemma ZoomStaysInRange(z: real)
    requires ZoomInRange(z)
    ensures ZoomInRange(ZoomedIn(z)) && z <= ZoomedIn(z)
    ensures ZoomInRange(ZoomedOut(z)) && ZoomedOut(z) <= z
  {
  }

  /** The limits are where repeated clicks come to rest. */
  lemma ZoomLimitsAreFixedPoints()
    ensures ZoomedIn(MaxZoom) == MaxZoom && ZoomedOut(MinZoom) == MinZoom
  {
  }

  /** A zoom-in that was not capped is undone exactly by a zoom-out. */
  lemma ZoomOutUndoesZoomIn(z: real)
    requires MinZoom <= z && z * ZoomStep <= MaxZoom
    ensures ZoomedOut(ZoomedIn(z)) == z
  {
  }

  /** A zoom-out that was not floored is undone exactly by a zoom-in. */
  lemma ZoomInUndoesZoomOut(z: real)
    requires z <= MaxZoom && MinZoom <= z / ZoomStep
    ensures ZoomedIn(ZoomedOut(z)) == z
  {
  }

  /** The zoom controls in the header. */
  datatype ZoomAction = In | Out | Fit

  function Zoomed(z: real, action: ZoomAction): real
  {
    match action
    case In => ZoomedIn(z)
    case Out => ZoomedOut(z)
    case Fit => FitZoom
  }

  function ZoomAfter(z: real, actions: seq<ZoomAction>): real
    decreases |actions|
  {
    if actions == [] then z else ZoomAfter(Zoomed(z, actions[0]), actions[1..])
  }

  /** From any zoom in range, whatever the clicks, the zoom stays in range. */
  lemma {:induction false} ZoomActionsStayInRange(z: real, actions: seq<ZoomAction>)
    requires ZoomInRange(z)
    ensures ZoomInRange(ZoomAfter(z, actions))
    decreases |actions|
  {
    if actions != [] {
      ZoomStaysInRange(z);
      ZoomActionsStayInRange(Zoomed(z, actions[0]), actions[1..]);
    }
  }

  /** The page state shown to the child components. */
  datatype View = View(activeTool: Toolbar.Tool, color: string, strokeWidth: real, zoom: real,
                       showGrid: bool, showRuler: bool, showTemplateBrowser: bool,
                       cursorPosition: Option<Point>)

  const InitialView: View := View(Toolbar.Pen, "#2d2d2d", 2.0, 1.0, true, false, false, None)

  /** The grid toggle: flips showGrid and nothing else. */
  function WithGridToggled(v: View): (w: View)
    ensures w.showGrid != v.showGrid
    ensures w.(showGrid := v.showGrid) == v
  {
    v.(showGrid := !v.showGrid)
  }

  lemma GridToggleTwiceRestores(v: View)
    ensures WithGridToggled(WithGridToggled(v)) == v
  {
  }

  /** The initial page: pen, dark ink, width 2, zoom 1 (within range), grid on, ruler and browser closed. */
  lemma InitialViewIsInRange()
    ensures ZoomInRange(InitialView.zoom)
    ensures InitialView.activeTool == Toolbar.Pen && InitialView.showGrid && !InitialView.showTemplateBrowser
  {
  }

  /** The editor page component with its state fields. */
  class Editor {
    var activeTool: Toolbar.Tool
    var color: string
    var strokeWidth: real
    var zoom: real
    var showGrid: bool
    var showRuler: bool
    var showTemplateBrowser: bool
    var cursorPosition: Option<Point>

    function State(): View
      reads this
    {
      View(activeTool, color, strokeWidth, zoom, showGrid, showRuler, showTemplateBrowser, cursorPosition)
    }

    /** The zoom stays within its clamps. */
    ghost predicate Valid()
      reads this
    {
      ZoomInRange(zoom)
    }

    /** What the page hands the canvas. */
    function CanvasProps(): (props: Surface.Props)
      reads this
      ensures Valid() ==> 0.0 < props.zoom
    {
      Surface.Props(activeTool, color, strokeWidth, zoom, showGrid)
    }

    constructor ()
      ensures State() == InitialView && Valid()
    {
      activeTool, color, strokeWidth, zoom := Toolbar.Pen, "#2d2d2d", 2.0, 1.0;
      showGrid, showRuler, showTemplateBrowser, cursorPosition := true, false, false, None;
    }

    method ZoomIn()
      requires Valid()
      modifies this`zoom
      ensures State() == old(State()).(zoom := ZoomedIn(old(zoom)))
      ensures Valid() && old(zoom) <= zoom
    {
      ZoomStaysInRange(zoom);
      zoom := Min(zoom * ZoomStep, MaxZoom);
    }

    method ZoomOut()
      requires Valid()
      modifies this`zoom
      ensures State() == old(State()).(zoom := ZoomedOut(old(zoom)))
      ensures Valid() && zoom <= old(zoom)
    {
      ZoomStaysInRange(zoom);
      var down := zoom / ZoomStep;
      zoom := if down < MinZoom then MinZoom else down;
    }

    /** handleZoomFit: a fixed zoom, whatever the viewport. */
    method ZoomFit()
      modifies this`zoom
      ensures State() == old(State()).(zoom := FitZoom)
      ensures Valid()
    {
      zoom := FitZoom;
    }

    method ToggleGrid()
      modifies this`showGrid
      ensures State() == WithGridToggled(old(State()))
    {
      showGrid := !showGrid;
    }

    method ToggleRuler()
      modifies this`showRuler
      ensures State() == old(State()).(showRuler := !old(showRuler))
    {
      showRuler := !showRuler;
    }

    method OpenTemplateBrowser()
      modifies this`showTemplateBrowser
      ensures State() == old(State()).(showTemplateBrowser := true)
    {
      showTemplateBrowser := true;
    }

    /** The browser's close button. */
    method CloseTemplateBrowser()
      modifies this`showTemplateBrowser
      ensures State() == old(State()).(showTemplateBrowser := false)
    {
      showTemplateBrowser := false;
    }

    /** handleSelectTemplate: the choice is only logged; the browser closes and the page is not changed. */
    method SelectTemplate(templateId: string)
      modifies this`showTemplateBrowser
      ensures State() == old(State()).(showTemplateBrowser := false)
    {
      showTemplateBrowser := false;
    }

    /** handleCursorPositionChange: the canvas reports the pointer in millimetres. */
    method CursorPositionChange(x: real, y: real)
      modifies this`cursorPosition
      ensures State() == old(State()).(cursorPosition := Some(Point(x, y)))
    {
      cursorPosition := Some(Point(x, y));
    }

    method SetTool(tool: Toolbar.Tool)
      modifies this`activeTool
      ensures State() == old(State()).(activeTool := tool)
    {
      activeTool := tool;
    }

    method SetColor(c: string)
      modifies this`color
      ensures State() == old(State()).(color := c)
    {
      color := c;
    }

    method SetStrokeWidth(w: real)
      modifies this`strokeWidth
      ensures State() == old(State()).(strokeWidth := w)
    {
      strokeWidth := w;
    }
  }
}
