/**
 The drawing-tool state machine of the whiteboard window: the state the
 window controller keeps between pointer events, and one pure transition
 per event handler.

 A handler that raises part-way does not undo what it already changed, and
 the application keeps running (the toolkit binding reports the exception
 and returns to the event loop). So a handler yields an `Outcome`: the state
 as it stands when the handler ends, normally or at the exception, and the
 fault, if one was raised.
 */
module Whiteboard {
  import opened Optional
  import opened Canvas

  /** The shapes of the shape tool. */
  datatype Shape = Rectangle | Oval | Line

  /** The one-of-N reading of the tool flags. */
  datatype Tool = Pen | Eraser | ShapeTool(shape: Shape) | TextTool

  /** Exceptions a handler can raise. */
  datatype Fault =
    | NoStartPoint    // the remembered start point is None where a coordinate is needed
    | NoPenWidth      // the pen width is None where the eraser adds it to a coordinate
    | CoordsRejected  // a single point was given as the coordinates of a two-corner item

  /** The background colour of the canvas, which the eraser paints with. */
  const CanvasBackground: Colour := "white"

  /**
   The controller state. `penColour` and `penWidth` hold whatever the last
   dialog answered, `None` included. `eraserOn`, `shapeTool` and `textTool`
   are the independent tool flags; `start` is the remembered pointer point;
   `currentShape` the id of the live shape preview; `actions` and `redo` the
   history lists; `textBox` the text item last hit for dragging; `font` the
   selection of the font style and size menus; `draggingText` the text-drag
   flag.
   */
  datatype Board = Board(
    penColour: Option<Colour>,
    penWidth: Option<int>,
    eraserOn: bool,
    shapeTool: Option<Shape>,
    textTool: bool,
    start: Option<Point>,
    currentShape: Option<Id>,
    actions: seq<Item>,
    redo: seq<Item>,
    textBox: Option<Id>,
    font: Font,
    draggingText: bool,
    canvas: Canvas)

  /** The state after a handler and the exception it raised, if any. */
  datatype Outcome = Outcome(board: Board, fault: Option<Fault>)

  /** At most one of the eraser, a shape tool and the text tool is on. */
  predicate ToolsExclusive(b: Board) {
    (if b.eraserOn then 1 else 0) + (if b.shapeTool.Some? then 1 else 0) + (if b.textTool then 1 else 0) <= 1
  }

  /** The tool the flags select; the pen is the case where no flag is on. */
  function ActiveTool(b: Board): Tool {
    if b.eraserOn then Eraser
    else if b.shapeTool.Some? then ShapeTool(b.shapeTool.value)
    else if b.textTool then TextTool
    else Pen
  }

  /** `a` and `b` differ at most in the tool flags and the text-drag flag. */
  ghost predicate SameExceptTools(a: Board, b: Board) {
    a.(eraserOn := b.eraserOn, shapeTool := b.shapeTool, textTool := b.textTool, draggingText := b.draggingText) == b
  }

  /** The state of a freshly opened window. */
  function Init(): (b: Board)
    ensures ActiveTool(b) == Pen && ToolsExclusive(b) && !b.draggingText
    ensures b.penColour == Some("black") && b.penWidth == Some(2)
    ensures b.canvas == Blank
    ensures b.start.None? && b.currentShape.None? && b.textBox.None?
    ensures b.actions == [] && b.redo == []
    ensures b.font == Font("Helvetica", 12)
  {
    Board(Some("black"), Some(2), false, None, false, None, None, [], [], None, Font("Helvetica", 12), false, Blank)
  }

  // ---------------------------------------------------------------------
  // Tool selection
  // ---------------------------------------------------------------------

  /** Clears every tool flag and the text-drag flag: the pen is left. */
  function DeactivateAllTools(b: Board): (r: Board)
    ensures ActiveTool(r) == Pen && ToolsExclusive(r) && !r.draggingText
    ensures SameExceptTools(b, r)
  {
    b.(eraserOn := false, shapeTool := None, textTool := false, draggingText := false)
  }

  /** The Pen button. */
  function UsePen(b: Board): (r: Board)
    ensures ActiveTool(r) == Pen && ToolsExclusive(r) && !r.draggingText
    ensures SameExceptTools(b, r)
  {
    DeactivateAllTools(b).(eraserOn := false, shapeTool := None, textTool := false, draggingText := false)
  }

  /** The Eraser button. */
  function UseEraser(b: Board): (r: Board)
    ensures ActiveTool(r) == Eraser && ToolsExclusive(r) && !r.draggingText
    ensures SameExceptTools(b, r)
  {
    DeactivateAllTools(b).(eraserOn := true, shapeTool := None, textTool := false, draggingText := false)
  }

  /** The Rectangle entry of the Shapes menu. */
  function UseRectangle(b: Board): (r: Board)
    ensures ActiveTool(r) == ShapeTool(Rectangle) && ToolsExclusive(r) && !r.draggingText
    ensures SameExceptTools(b, r)
  {
    DeactivateAllTools(b).(shapeTool := Some(Rectangle), draggingText := false)
  }

  /** The Oval entry of the Shapes menu. */
  function UseOval(b: Board): (r: Board)
    ensures ActiveTool(r) == ShapeTool(Oval) && ToolsExclusive(r) && !r.draggingText
    ensures SameExceptTools(b, r)
  {
    DeactivateAllTools(b).(shapeTool := Some(Oval), draggingText := false)
  }

  /** The Line entry of the Shapes menu. */
  function UseLine(b: Board): (r: Board)
    ensures ActiveTool(r) == ShapeTool(Line) && ToolsExclusive(r) && !r.draggingText
    ensures SameExceptTools(b, r)
  {
    DeactivateAllTools(b).(shapeTool := Some(Line), draggingText := false)
  }

  /** The Text Tool button. */
  function UseTextTool(b: Board): (r: Board)
    ensures ActiveTool(r) == TextTool && ToolsExclusive(r) && !r.draggingText
    ensures SameExceptTools(b, r)
  {
    DeactivateAllTools(b).(textTool := true, draggingText := false)
  }

  /** Selecting tool `t` through its button or menu entry. */
  function SelectTool(b: Board, t: Tool): (r: Board)
    ensures ActiveTool(r) == t && ToolsExclusive(r) && !r.draggingText
    ensures SameExceptTools(b, r)
  {
    match t
    case Pen => UsePen(b)
    case Eraser => UseEraser(b)
    case ShapeTool(Rectangle) => UseRectangle(b)
    case ShapeTool(Oval) => UseOval(b)
    case ShapeTool(Line) => UseLine(b)
    case TextTool => UseTextTool(b)
  }

  // ---------------------------------------------------------------------
  // Dialog answers and the font menus
  // ---------------------------------------------------------------------

  /** The colour chooser's answer becomes the pen colour, a cancel (`None`) included. */
  function ChooseColour(b: Board, answer: Option<Colour>): (r: Board)
    ensures r.penColour == answer
    ensures r.(penColour := b.penColour) == b
  {
    b.(penColour := answer)
  }

  /** The width prompt's answer becomes the pen width, a cancel (`None`) included. */
  function ChoosePenWidth(b: Board, answer: Option<int>): (r: Board)
    ensures r.penWidth == answer
    ensures r.(penWidth := b.penWidth) == b
  {
    b.(penWidth := answer)
  }

  /** A choice in the font style and font size menus. */
  function ChooseFont(b: Board, f: Font): (r: Board)
    ensures r.font == f
    ensures r.(font := b.font) == b
  {
    b.(font := f)
  }

  // ---------------------------------------------------------------------
  // Pointer events on the canvas
  // ---------------------------------------------------------------------

  /** A press places text when the text tool is on and the prompt answered non-empty text. */
  predicate PlacesText(b: Board, answer: Option<string>) {
    b.textTool && answer.Some? && answer.value != ""
  }

  /**
   Button press at `p`; `answer` is what the text prompt returns, which is
   only asked for when the text tool is on.
   */
  function OnButtonPress(b: Board, p: Point, answer: Option<string>): (r: Board)
    ensures r.start == Some(p) && r.currentShape.None?
    ensures PlacesText(b, answer) ==>
              && AddsOne(b.canvas, r.canvas, TextItem(p, answer.value, b.font, b.penColour))
              && !r.textTool
    ensures !PlacesText(b, answer) ==> r.canvas == b.canvas && r.textTool == b.textTool
    ensures r == b.(start := r.start, currentShape := r.currentShape, canvas := r.canvas, textTool := r.textTool)
  {
    var b1 := b.(start := Some(p), currentShape := None);
    if PlacesText(b, answer) then
      var (c, _) := Create(b.canvas, TextItem(p, answer.value, b.font, b.penColour));
      b1.(canvas := c, textTool := false)
    else
      b1
  }

  /** The outline a shape tool draws from `a` to `z`, in the given colour and width. */
  function ShapeItem(k: Shape, a: Point, z: Point, colour: Option<Colour>, width: Option<int>): (r: Item)
    ensures k == Rectangle <==> r.RectItem?
    ensures k == Oval <==> r.OvalItem?
    ensures k == Line <==> r.LineItem?
    ensures r.RectItem? ==> r.corner1 == a && r.corner2 == z && r.fill.None? && r.outline == colour && r.width == width
    ensures r.OvalItem? ==> r.corner1 == a && r.corner2 == z && r.outline == colour && r.width == width
    ensures r.LineItem? ==> r.from == a && r.to == z && r.fill == colour && r.width == width
  {
    match k
    case Rectangle => RectItem(a, z, None, colour, width)
    case Oval => OvalItem(a, z, colour, width)
    case Line => LineItem(a, z, colour, width)
  }

  /**
   Eraser drag to `p`: one square of side pen width, filled and outlined in
   the background colour, with its top-left corner at `p`. The start point
   stays. With no pen width the addition raises before anything changes.
   */
  function EraseAt(b: Board, p: Point): (r: Outcome)
    ensures b.penWidth.None? ==> r == Outcome(b, Some(NoPenWidth))
    ensures b.penWidth.Some? ==>
              && r.fault.None?
              && r.board == b.(canvas := r.board.canvas)
              && AddsOne(b.canvas, r.board.canvas,
                         RectItem(p, Point(p.x + b.penWidth.value, p.y + b.penWidth.value),
                                  Some(CanvasBackground), Some(CanvasBackground), None))
  {
    match b.penWidth
    case None => Outcome(b, Some(NoPenWidth))
    case Some(w) =>
      var mark := RectItem(p, Point(p.x + w, p.y + w), Some(CanvasBackground), Some(CanvasBackground), None);
      Outcome(b.(canvas := Create(b.canvas, mark).0), None)
  }

  /**
   Pen drag to `p`: one line segment from the remembered point to `p` in the
   pen colour and width, after which `p` is the remembered point.
   */
  function PenTo(b: Board, p: Point): (r: Outcome)
    ensures b.start.None? ==> r == Outcome(b, Some(NoStartPoint))
    ensures b.start.Some? ==>
              && r.fault.None?
              && r.board == b.(canvas := r.board.canvas, start := Some(p))
              && AddsOne(b.canvas, r.board.canvas, LineItem(b.start.value, p, b.penColour, b.penWidth))
  {
    match b.start
    case None => Outcome(b, Some(NoStartPoint))
    case Some(s) =>
      var (c, _) := Create(b.canvas, LineItem(s, p, b.penColour, b.penWidth));
      Outcome(b.(canvas := c, start := Some(p)), None)
  }

  /**
   Live shape preview to `p`: the previous preview goes, then a new outline
   from the fixed start point to `p` takes its place and its id is kept.
   Only the canvas and the preview id can change; the start point never does.
   */
  function DrawPreviewShape(b: Board, p: Point): (r: Outcome)
    ensures r.board == b.(canvas := r.board.canvas, currentShape := r.board.currentShape)
    ensures r.board.canvas.next >= b.canvas.next
    ensures b.shapeTool.Some? && b.start.Some? ==>
              && r.fault.None?
              && b.canvas.next !in b.canvas.items
              && r.board.currentShape == Some(b.canvas.next)
              && r.board.canvas.items == Without(b.canvas.items, b.currentShape)[
                   b.canvas.next := ShapeItem(b.shapeTool.value, b.start.value, p, b.penColour, b.penWidth)]
              && r.board.canvas.next == b.canvas.next + 1
    ensures !(b.shapeTool.Some? && b.start.Some?) ==>
              && r.fault == (if b.shapeTool.Some? then Some(NoStartPoint) else None)
              && r.board.currentShape == b.currentShape
              && r.board.canvas.items == Without(b.canvas.items, b.currentShape)
              && r.board.canvas.next == b.canvas.next
  {
    var cleared := match b.currentShape
                   case Some(id) => Delete(b.canvas, id)
                   case None => b.canvas;
    var b1 := b.(canvas := cleared);
    match b.shapeTool
    case None => Outcome(b1, None)
    case Some(k) =>
      match b.start
      case None => Outcome(b1, Some(NoStartPoint))
      case Some(s) =>
        var (c, id) := Create(cleared, ShapeItem(k, s, p, b.penColour, b.penWidth));
        Outcome(b1.(canvas := c, currentShape := Some(id)), None)
  }

  /**
   Motion with the button held at `p`. A text drag in progress suppresses
   all drawing; otherwise the active tool decides: the eraser erases, the
   pen draws a segment, and a shape or the text tool goes to the preview.
   */
  function OnMouseDrag(b: Board, p: Point): (r: Outcome)
    ensures b.draggingText ==> r == Outcome(b, None)
    ensures !b.draggingText && ActiveTool(b) == Eraser ==> r == EraseAt(b, p)
    ensures !b.draggingText && ActiveTool(b) == Pen ==> r == PenTo(b, p)
    ensures !b.draggingText && (ActiveTool(b).ShapeTool? || ActiveTool(b) == TextTool) ==> r == DrawPreviewShape(b, p)
  {
    if b.draggingText then Outcome(b, None)
    else if b.eraserOn then EraseAt(b, p)
    else if b.shapeTool.None? && !b.textTool then PenTo(b, p)
    else DrawPreviewShape(b, p)
  }

  /**
   Commits the shape of the shape tool from the start point to `p`: one new
   item, whatever its size, and nothing deleted.
   */
  function FinalizeShape(b: Board, p: Point): (r: Outcome)
    ensures r.board == b.(canvas := r.board.canvas)
    ensures b.shapeTool.Some? && b.start.Some? ==>
              && r.fault.None?
              && AddsOne(b.canvas, r.board.canvas,
                         ShapeItem(b.shapeTool.value, b.start.value, p, b.penColour, b.penWidth))
    ensures b.shapeTool.None? ==> r == Outcome(b, None)
    ensures b.shapeTool.Some? && b.start.None? ==> r == Outcome(b, Some(NoStartPoint))
  {
    match b.shapeTool
    case None => Outcome(b, None)
    case Some(k) =>
      match b.start
      case None => Outcome(b, Some(NoStartPoint))
      case Some(s) => Outcome(b.(canvas := Create(b.canvas, ShapeItem(k, s, p, b.penColour, b.penWidth)).0), None)
  }

  /**
   Button release at `p`: the redo list is emptied, a shape tool commits its
   shape, and the start point and preview id are forgotten. The last preview
   is not deleted. If the commit raises, the start point and preview id are
   left as they were.
   */
  function OnButtonRelease(b: Board, p: Point): (r: Outcome)
    ensures r.board.redo == []
    ensures r.fault.None? ==> r.board.start.None? && r.board.currentShape.None?
    ensures r.fault.Some? ==> r.board == b.(redo := []) && r.fault == Some(NoStartPoint)
    ensures r.fault.Some? <==> b.shapeTool.Some? && b.start.None?
    ensures r.board == b.(redo := [], start := r.board.start, currentShape := r.board.currentShape, canvas := r.board.canvas)
    ensures b.shapeTool.Some? && b.start.Some? ==>
              AddsOne(b.canvas, r.board.canvas,
                      ShapeItem(b.shapeTool.value, b.start.value, p, b.penColour, b.penWidth))
    ensures b.shapeTool.None? ==> r.board.canvas == b.canvas
  {
    var b1 := b.(redo := []);
    if b.shapeTool.Some? then
      var f := FinalizeShape(b1, p);
      if f.fault.Some? then f
      else Outcome(f.board.(start := None, currentShape := None), None)
    else
      Outcome(b1.(start := None, currentShape := None), None)
  }

  // ---------------------------------------------------------------------
  // Dragging placed text, clear and undo
  // ---------------------------------------------------------------------

  /** Press on a placed text item; `hit` is the item nearest the pointer. */
  function OnTextClick(b: Board, hit: Id): (r: Board)
    ensures r.draggingText && r.textBox == Some(hit)
    ensures r.canvas == b.canvas && ActiveTool(r) == ActiveTool(b) && r.start == b.start
    ensures r.(draggingText := b.draggingText, textBox := b.textBox) == b
  {
    b.(draggingText := true, textBox := Some(hit))
  }

  /**
   Motion while pressing a placed text item: the remembered item, and no
   other, moves its anchor to `p`. An item that is gone is left alone; an
   item that is not text rejects the single point.
   */
  function OnTextDrag(b: Board, p: Point): (r: Outcome)
    ensures r.board == b.(canvas := r.board.canvas)
    ensures r.board.canvas.items.Keys == b.canvas.items.Keys && r.board.canvas.next == b.canvas.next
    ensures forall k :: k in b.canvas.items && Some(k) != b.textBox ==> r.board.canvas.items[k] == b.canvas.items[k]
    ensures b.textBox.None? || b.textBox.value !in b.canvas.items ==> r == Outcome(b, None)
    ensures b.textBox.Some? && b.textBox.value in b.canvas.items ==>
              var it := b.canvas.items[b.textBox.value];
              if it.TextItem? then r.fault.None? && r.board.canvas.items[b.textBox.value] == it.(at := p)
              else r == Outcome(b, Some(CoordsRejected))
  {
    match b.textBox
    case None => Outcome(b, None)
    case Some(id) =>
      match Coords(b.canvas, id, p)
      case None => Outcome(b, Some(CoordsRejected))
      case Some(c) => Outcome(b.(canvas := c), None)
  }

  /** The Clear button: no item is left; everything else stays. */
  function ClearCanvas(b: Board): (r: Board)
    ensures r.canvas.items == map[] && r.canvas.next == b.canvas.next
    ensures r == b.(canvas := r.canvas)
  {
    b.(canvas := DeleteAll(b.canvas))
  }

  /** The Undo button, which has no effect at all. */
  function UndoAction(b: Board): (r: Board)
    ensures r == b
  {
    b
  }
}
