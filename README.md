# bujo-designer editor core, modelled in Dafny

This project models the editing core of the bullet-journal designer, a
Next.js application. Four components hold the behaviour:

- **The drawing surface** (`components/editor/Canvas.tsx`). It keeps an
  ordered, append-only store of drawn elements and at most one preview
  element. Pointer events (press, move, release, leave, double-click) drive
  an input state machine keyed on the active tool. A redraw clears the
  raster, draws the dot grid, then the committed elements in order, then the
  preview. Millimetres convert to pixels at 96 DPI times the zoom.
- **The editor page** (`app/editor/page.tsx`). It owns the view state: tool,
  colour, stroke width, zoom, grid and ruler toggles, template-browser
  visibility and the reported cursor position. Zoom steps by a factor of 1.2
  and is clamped to [0.3, 3]; "fit" sets 0.8.
- **The properties panel** (`components/editor/PropertiesPanel.tsx`). It
  holds a demonstration layer list with visibility, lock and delete operations
  keyed by layer id. It also holds page settings, with a catalogue of journal
  presets and custom-size setters.
- **The template browser** (`components/editor/TemplateBrowser.tsx`). It
  filters a fixed catalogue of 26 templates by category and by a
  case-insensitive substring search over name and description.

The files:

| file | module | contents |
|---|---|---|
| `wrappers.dfy` | `Wrappers` | `Option` |
| `toolbar.dfy` | `Toolbar` | the `Tool` union |
| `sequences.dfy` | `Sequences` | `Map`, `Filter` and subsequences |
| `geometry.dfy` | `Geometry` | points, mm/px conversion, `Math.round`, the rectangle box and circle radius |
| `grid.dfy` | `Grid` | the dot grid: a specification and the nested-loop drawing method |
| `surface.dfy` | `Surface` | elements, the handlers as state functions, runs of events, draw commands, class `Surface` |
| `editor_page.dfy` | `EditorPage` | zoom arithmetic and class `Editor` |
| `properties_panel.dfy` | `PropertiesPanel` | layers, presets and class `Panel` |
| `template_browser.dfy` | `TemplateBrowser` | the template catalogue and its filter |

Each handler is modelled twice. A function on a snapshot of the component
state says what the handler does. A method of the component's class updates
the fields in place and is proved to agree with that function. Lemmas about
runs of events state what a whole gesture does, for example a press, n moves
and a release with the pen.

Where the code behaves unexpectedly, the model follows the code:

- The line tool creates nothing. Mouse-down opens a preview only for pen and
  measure, and a move with the line tool only updates an existing preview.
- The measuring line is previewed but never committed.
- Select, eraser and text only toggle `isDrawing` on pointer events.
- A preset replaces width, height and dot spacing and keeps dot size and
  orientation (`components/editor/PropertiesPanel.tsx:116-122`).
- The size inputs carry `min`/`max` attributes (width 50–300, height 50–400,
  spacing 3–10) that only hint; `onChange` stores `Number(value)` unchecked
  (`components/editor/PropertiesPanel.tsx:379-403`). The setters store the
  value unchecked.
- A press with a tool other than pen or measure leaves any existing preview
  in place, because the code never clears it there.
- A rectangle-tool move over an existing preview spreads x, y, width and
  height into it. A circle or text preview therefore moves its anchor. On pen
  and line previews those fields are never read, so they stay unchanged.
  Likewise the line/measure update only changes a line, and the circle radius
  update only changes a circle.
- The canvas uses its own fixed page (145 × 210 mm, 5 mm spacing, dot size
  1). The panel's settings never reach it.

## Model

| member | source | states |
|---|---|---|
| Geometry.PxToMmUndoesMmToPx | components/editor/Canvas.tsx:64-65 | for any zoom other than 0, converting millimetres to pixels and back returns the same length exactly (over reals) |
| Geometry.MmToPxUndoesPxToMm | components/editor/Canvas.tsx:64-65 | for any zoom other than 0, converting pixels to millimetres and back returns the same length |
| Geometry.MmToPxIsIncreasing | components/editor/Canvas.tsx:22-23 | at a positive zoom, a longer length in mm is a longer length in px |
| Geometry.Round | components/editor/Canvas.tsx:72-73 | `Math.round` gives the integer n with n - 0.5 <= v < n + 0.5 |
| Geometry.DragBox | components/editor/Canvas.tsx:270-273 | the rectangle from anchor to pointer has non-negative width and height, and its two x edges are exactly {anchor.x, pointer.x}, likewise for y |
| Geometry.DragBoxIsSymmetric | components/editor/Canvas.tsx:270-273 | swapping anchor and pointer gives the same rectangle |
| Geometry.Distance | components/editor/Canvas.tsx:287-289 | given a square root, the radius r is non-negative and r·r = dx² + dy² |
| Grid.DotCountIsExact | components/editor/Canvas.tsx:96-97 | for i >= 1, i·s < limit iff i <= DotCount(s, limit): the loop bound counts exactly the multiples strictly inside the raster |
| Grid.DotsAreGridPoints | components/editor/Canvas.tsx:96-101 | the columns-by-rows grid holds exactly the dots at (i·s, j·s) for 1 <= i <= columns, 1 <= j <= rows |
| Grid.GridDotsAreExactlyTheInteriorMultiples | components/editor/Canvas.tsx:88-103 | a dot is drawn iff the grid is shown and it sits at (i·s, j·s) with i, j >= 1, i·s < width, j·s < height, with radius dotSize·zoom/2 |
| Grid.NoDotOnTheAxes | components/editor/Canvas.tsx:96-97 | every dot lies at least one spacing from both axes |
| Grid.DrawColumn | components/editor/Canvas.tsx:97-101 | the inner accumulator loop at x = i·s yields exactly column i: the dots (i·s, j·s) for 1 <= j with j·s below the height, top to bottom |
| Grid.DrawDotGrid | components/editor/Canvas.tsx:88-103 | the nested accumulator loops yield exactly the specified dots, in column-major order, for spacing mmToPx(dotSpacing) > 0 |
| Sequences.Map | components/editor/PropertiesPanel.tsx:85 | `map` keeps the length and applies the function at every index |
| Sequences.Filter | components/editor/PropertiesPanel.tsx:93 | `filter` keeps exactly the entries that pass, with their multiplicities, as a subsequence in the original order |
| Surface.ReleaseCommitsPreview | components/editor/Canvas.tsx:310-318 | mouse-up is a no-op when not drawing; otherwise it stops drawing and clears the preview, and it appends exactly the preview iff there is one and the tool is not measure |
| Surface.PenDragPreview | components/editor/Canvas.tsx:205-249 | after a pen press at p0 and moves to p1..pn, the preview is a stroke through [p0..pn] in order |
| Surface.PenStrokeCommits | components/editor/Canvas.tsx:205-318 | pen press, n moves, release (up or leave) appends exactly one stroke through [p0..pn]; earlier elements are unchanged |
| Surface.RectangleDragPreview | components/editor/Canvas.tsx:263-284 | with the rectangle tool there is no preview until the first move; afterwards the rectangle spans the fixed anchor and the latest pointer position |
| Surface.RectangleStrokeCommits | components/editor/Canvas.tsx:263-318 | a rectangle drag commits one rectangle from anchor to last position; a press and release with no move commits nothing |
| Surface.CircleDragPreview | components/editor/Canvas.tsx:286-306 | with the circle tool the preview is centred on the press point, with radius equal to the distance to the latest pointer |
| Surface.CircleStrokeCommits | components/editor/Canvas.tsx:286-318 | a circle drag appends one circle centred on the press point with radius r >= 0 and r² = dx² + dy² for the last position; earlier elements are unchanged |
| Surface.MeasureDragPreview | components/editor/Canvas.tsx:215-261 | the measuring preview is a line in colour #4a7c59 and width 2 from the press point to the latest pointer |
| Surface.MeasureStrokeDiscards | components/editor/Canvas.tsx:310-318 | releasing a measure drag leaves the store unchanged and clears the preview |
| Surface.MeasureNeverCommits | components/editor/Canvas.tsx:314 | with the measure tool, no sequence of events changes the committed elements |
| Surface.InertToolsNeverDraw | components/editor/Canvas.tsx:205-261 | with line, select or eraser and no preview, no sequence of events creates a preview or changes the store |
| Surface.TextToolOnlyAddsText | components/editor/Canvas.tsx:320-337 | with the text tool and no preview, pointer events never open a preview and only text elements are appended |
| Surface.RunAppendOnly | components/editor/Canvas.tsx:310-337 | no sequence of events changes or removes a committed element: the old store is a prefix of the new one |
| Surface.IdleHasNoPreview | components/editor/Canvas.tsx:205-318 | outside a drag there is never a preview, after any sequence of events; a press that finds one is a second press during a drag |
| Surface.PressFromIdleFindsNoPreview | components/editor/Canvas.tsx:58-318 | from the initial state, whenever the canvas is not drawing there is no preview, so the gesture lemmas' no-preview assumption holds at every fresh press |
| Surface.DoubleClickAddsText | components/editor/Canvas.tsx:320-337 | double-click appends one text element at the click point iff the tool is text and the entered string is non-empty; otherwise nothing changes |
| Surface.FrameLayers | components/editor/Canvas.tsx:165-185 | a frame is a clear, then every grid dot, then each committed element in store order at lineWidth strokeWidth·zoom, then the preview last; only the preview is drawn in preview style |
| Surface.HiddenGridDrawsNoDots | components/editor/Canvas.tsx:88-89 | with the grid hidden, a frame contains no dot at all |
| Surface.Surface.constructor | components/editor/Canvas.tsx:58-62 | the canvas starts not drawing, at (0,0), with no elements and no preview |
| Surface.Surface.MouseDown | components/editor/Canvas.tsx:198-228 | the press handler updates the fields as the press function prescribes and changes nothing else |
| Surface.Surface.MouseMove | components/editor/Canvas.tsx:230-308 | the move handler reports the pointer in millimetres and updates the preview as the move function prescribes |
| Surface.Surface.MouseUp | components/editor/Canvas.tsx:310-318 | the release handler updates the fields as the release function prescribes |
| Surface.Surface.MouseLeave | components/editor/Canvas.tsx:363 | mouse-leave behaves exactly as mouse-up |
| Surface.Surface.DoubleClick | components/editor/Canvas.tsx:320-337 | the double-click handler appends as the double-click function prescribes |
| Surface.Surface.Draw | components/editor/Canvas.tsx:165-185 | the loop over the store issues exactly the frame's commands, and nothing when there is no 2D context |
| Surface.Surface.Layout | components/editor/Canvas.tsx:68-81 | the raster is sized to Math.round of the page size in px at this zoom, then a frame is drawn |
| EditorPage.ZoomedIn | app/editor/page.tsx:21-23 | zoom-in yields min(z·1.2, 3): never above 3 nor above z·1.2, and equal to one of them |
| EditorPage.ZoomedOut | app/editor/page.tsx:25-27 | zoom-out yields max(z/1.2, 0.3): never below 0.3 nor below z/1.2, and equal to one of them |
| EditorPage.ZoomStaysInRange | app/editor/page.tsx:21-27 | from z in [0.3, 3] both steps stay in [0.3, 3]; zoom-in never decreases z and zoom-out never increases it |
| EditorPage.ZoomLimitsAreFixedPoints | app/editor/page.tsx:21-27 | zoom-in at 3 stays at 3 and zoom-out at 0.3 stays at 0.3 |
| EditorPage.ZoomOutUndoesZoomIn | app/editor/page.tsx:21-27 | if 0.3 <= z and z·1.2 <= 3, zoom-out after zoom-in returns z |
| EditorPage.ZoomInUndoesZoomOut | app/editor/page.tsx:21-27 | if z <= 3 and z/1.2 >= 0.3, zoom-in after zoom-out returns z |
| EditorPage.ZoomActionsStayInRange | app/editor/page.tsx:21-32 | from a zoom in range, any sequence of zoom-in, zoom-out and fit clicks keeps it in range |
| EditorPage.WithGridToggled | app/editor/page.tsx:53 | the grid toggle flips showGrid and changes nothing else |
| EditorPage.GridToggleTwiceRestores | app/editor/page.tsx:53 | toggling the grid twice restores the view |
| EditorPage.InitialViewIsInRange | app/editor/page.tsx:12-19 | the initial view uses the pen, shows the grid, keeps the browser closed and has its zoom in range |
| EditorPage.Editor.CanvasProps | app/editor/page.tsx:74-81 | the props handed to the canvas have a positive zoom whenever the zoom is in range |
| EditorPage.Editor.constructor | app/editor/page.tsx:12-19 | the page starts with pen, #2d2d2d, width 2, zoom 1, grid shown, ruler hidden, browser closed, no cursor |
| EditorPage.Editor.ZoomIn | app/editor/page.tsx:21-23 | zoom-in changes only the zoom, keeps it in range, and never lowers it |
| EditorPage.Editor.ZoomOut | app/editor/page.tsx:25-27 | zoom-out changes only the zoom, keeps it in range, and never raises it |
| EditorPage.Editor.ZoomFit | app/editor/page.tsx:29-32 | fit sets the zoom to exactly 0.8 whatever it was, and changes nothing else |
| EditorPage.Editor.ToggleGrid | app/editor/page.tsx:53 | the grid button applies the grid toggle to the view |
| EditorPage.Editor.ToggleRuler | app/editor/page.tsx:54 | the ruler button flips showRuler only |
| EditorPage.Editor.OpenTemplateBrowser | app/editor/page.tsx:57 | opens the template browser and changes nothing else |
| EditorPage.Editor.CloseTemplateBrowser | app/editor/page.tsx:93 | closes the template browser and changes nothing else |
| EditorPage.Editor.SelectTemplate | app/editor/page.tsx:38-42 | selecting a template only closes the browser |
| EditorPage.Editor.CursorPositionChange | app/editor/page.tsx:34-36 | stores the reported position and changes nothing else |
| EditorPage.Editor.SetTool | app/editor/page.tsx:66 | changes only the active tool |
| EditorPage.Editor.SetColor | app/editor/page.tsx:68 | changes only the colour |
| EditorPage.Editor.SetStrokeWidth | app/editor/page.tsx:70 | changes only the stroke width |
| PropertiesPanel.ToggledVisibility | components/editor/PropertiesPanel.tsx:84-86 | visible flips exactly on layers with the id; length, order and every other field are unchanged |
| PropertiesPanel.ToggledLock | components/editor/PropertiesPanel.tsx:88-90 | locked flips exactly on layers with the id; length, order and every other field are unchanged |
| PropertiesPanel.VisibilityToggleTwiceRestores | components/editor/PropertiesPanel.tsx:84-86 | toggling visibility twice with the same id restores the list |
| PropertiesPanel.LockToggleTwiceRestores | components/editor/PropertiesPanel.tsx:88-90 | toggling the lock twice with the same id restores the list |
| PropertiesPanel.WithoutLayer | components/editor/PropertiesPanel.tsx:92-94 | deleting removes every layer with the id and keeps all the others, with their multiplicities, in their original order |
| PropertiesPanel.FindPreset | components/editor/PropertiesPanel.tsx:114 | `find` returns None iff no entry has the id, otherwise the first entry that has it |
| PropertiesPanel.PresetIdsAreUnique | components/editor/PropertiesPanel.tsx:55-61 | no two catalogue entries share an id |
| PropertiesPanel.PresetChange | components/editor/PropertiesPanel.tsx:113-126 | an unknown id gives None; a known id sets preset, width, height and dot spacing from its entry and keeps dot size and orientation |
| PropertiesPanel.CustomPresetFromDefaults | components/editor/PropertiesPanel.tsx:55-73 | choosing "custom" from the defaults gives 148 × 210 mm, spacing 5, dot size 1, portrait |
| PropertiesPanel.Panel.constructor | components/editor/PropertiesPanel.tsx:66-82 | the panel starts with the leuchtturm defaults and the five sample layers |
| PropertiesPanel.Panel.ToggleLayerVisibility | components/editor/PropertiesPanel.tsx:84-86 | stores the toggled list |
| PropertiesPanel.Panel.ToggleLayerLock | components/editor/PropertiesPanel.tsx:88-90 | stores the toggled list |
| PropertiesPanel.Panel.DeleteLayer | components/editor/PropertiesPanel.tsx:92-94 | stores the list without the layer |
| PropertiesPanel.Panel.HandlePresetChange | components/editor/PropertiesPanel.tsx:113-126 | an unknown id changes nothing and fires no callback; a known id stores the new settings and passes exactly them to the callback |
| PropertiesPanel.Panel.SetWidth | components/editor/PropertiesPanel.tsx:379 | replaces only the width, unchecked |
| PropertiesPanel.Panel.SetHeight | components/editor/PropertiesPanel.tsx:390 | replaces only the height, unchecked |
| PropertiesPanel.Panel.SetDotSpacing | components/editor/PropertiesPanel.tsx:403 | replaces only the dot spacing, unchecked |
| PropertiesPanel.Panel.SetDotSize | components/editor/PropertiesPanel.tsx:414 | replaces only the dot size |
| PropertiesPanel.Panel.SetOrientation | components/editor/PropertiesPanel.tsx:432-449 | replaces only the orientation |
| TemplateBrowser.LowerChar | components/editor/TemplateBrowser.tsx:80-81 | lower-casing yields no upper-case letter, maps A–Z to a–z and leaves other characters alone |
| TemplateBrowser.ToLower | components/editor/TemplateBrowser.tsx:80-81 | `toLowerCase` keeps the length and lower-cases every character |
| TemplateBrowser.ToLowerIsIdempotent | components/editor/TemplateBrowser.tsx:80-81 | lower-casing twice is lower-casing once |
| TemplateBrowser.Includes | components/editor/TemplateBrowser.tsx:80-81 | `includes` holds iff the needle occurs at some position of the string |
| TemplateBrowser.IncludesEmpty | components/editor/TemplateBrowser.tsx:80-81 | every string includes the empty string |
| TemplateBrowser.FilteredTemplates | components/editor/TemplateBrowser.tsx:78-83 | the result is a subsequence of the catalogue in catalogue order; a template is in it iff it is in the catalogue, in the active category (any for "all"), and its lower-cased name or description contains the lower-cased query |
| TemplateBrowser.SearchIsCaseInsensitive | components/editor/TemplateBrowser.tsx:80-81 | queries equal after lower-casing give the same result |
| TemplateBrowser.EmptyQueryMatchesAll | components/editor/TemplateBrowser.tsx:80-81 | every template matches the empty query |
| TemplateBrowser.EmptySearchKeepsAll | components/editor/TemplateBrowser.tsx:78-83 | with "all" and an empty query, any template list passes unchanged |
| TemplateBrowser.UnfilteredShowsAll | components/editor/TemplateBrowser.tsx:32-83 | with "all" and an empty query, all 26 templates are shown in catalogue order |
| TemplateBrowser.MonthlyComeFirst | components/editor/TemplateBrowser.tsx:32-70 | the first four catalogue entries are monthly and no other entry is |
| TemplateBrowser.EmptySearchKeepsCategoryPrefix | components/editor/TemplateBrowser.tsx:78-83 | with an empty query, a list whose first n entries are in the category and whose others are not filters down to those n |
| TemplateBrowser.MonthlyUnfiltered | components/editor/TemplateBrowser.tsx:32-83 | with "monthly" and an empty query, exactly the four monthly templates are shown |
| TemplateBrowser.TabOf | components/editor/TemplateBrowser.tsx:22-30 | the index of the tab with a given id, or none exactly when no tab has that id |
| TemplateBrowser.EveryTemplateHasATab | components/editor/TemplateBrowser.tsx:22-69 | the "all" tab comes first and every catalogue entry's category is the id of one of the other tabs |

## Left out

- The HTML canvas 2D API (`getContext`, `arc`, `stroke`, `strokeRect`, `fillText`, `setLineDash`, `globalAlpha`, fill and stroke styles). Drawing is modelled as a list of abstract commands: clear, dot, element with line width and preview flag. How an element is rasterised is not modelled.
- `getMousePos` / `getBoundingClientRect`. This is DOM geometry, so pointer positions are method parameters.
- `prompt()`. The entered text is an `Option<string>` parameter; None stands for a cancelled prompt.
- `Date.now()` ids. They are passed in with each event. Uniqueness is not claimed, because the code does not provide it.
- React scheduling: `setState` batching, effect scheduling and stale closures. Each handler is an atomic update seen by the next event. The redraw effects are modelled as explicit calls to `Draw` and `Layout`.
- IEEE floating point. Lengths, zoom and coordinates are reals. The mm/px round trip and the zoom-out-after-zoom-in identity are exact only over reals.
- Geometry.Distance: `Math.sqrt` is a parameter, a host square-root function. Radius facts are stated for any function that returns the non-negative square root, since a real square root cannot be constructed here.
- Surface.Surface.MouseMove: the callback is always called with the position in mm, as the editor page always passes one. A zoom of 0, where `pxToMm` divides by zero, is excluded by a precondition.
- Surface.Surface.Draw: it requires a positive zoom (and `Grid.DrawDotGrid` a positive dot spacing). At a zoom of 0 or below the spacing in pixels is not positive and the `x += spacingPx` loop of `drawDotGrid` (`components/editor/Canvas.tsx:96-97`) never ends. In the app this cannot happen: the page clamps the zoom to at least 0.3 and the canvas's dot spacing is the constant 5 mm. The canvas being absent (`canvasRef.current` null) is folded into the missing 2D context.
- TemplateBrowser.LowerChar: case folding covers ASCII letters only; `toLowerCase` also folds non-ASCII letters, and a few of them change the length (U+0130 becomes two characters). No catalogue entry has an upper-case non-ASCII letter, but the query is lower-cased too: a query of U+212A KELVIN SIGN folds to 'k' in the browser and matches every template whose name or description contains a 'k' or 'K', such as "Books to Read", while in the model it matches nothing.
- `PRESETS` in the canvas (`components/editor/Canvas.tsx:15-20`) is unused, and the canvas page size is never updated. It is the constant `Surface.CanvasPage`.
- Select and eraser semantics are not invented: the code has none beyond the cursor style.
- The cursor style (`getCursorStyle`) is presentation only.
- Stubs with no behaviour: undo/redo, file-menu items, applying a template, and the "Add Layer", "Duplicate" and "Delete" buttons.
- The panel's tab and expansion state (`activeTab`, `layersExpanded`) and its `selectedElement` prop. These only choose what is rendered.
- `console.log` of the selected template and of page settings is not modelled.
- The template browser's `isOpen` switch is not modelled: a closed browser renders nothing and filters nothing. The selected category and query are inputs of the filter. The `isNew` field is never set in the catalogue.
- Authentication, routing, the landing page, `EditorHeader.tsx` and the rest of `Toolbar.tsx`. These are presentation or external services; only the `Tool` union is modelled (`components/editor/Toolbar.tsx:17`).
