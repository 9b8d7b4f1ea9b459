/** The drawing tools offered by the tool palette (components/editor/Toolbar.tsx). */
module Toolbar {
  datatype Tool = Select | Pen | Line | Rectangle | Circle | Text | Eraser | Measure
}
