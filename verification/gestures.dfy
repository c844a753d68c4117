/**
 Sequences of user events on the whiteboard window and what they add up to:
 the flags every event keeps consistent, freehand strokes as gap-free chains
 of segments, the single live preview of a shape drag, the shape committed
 on release, and the text-drag flag that outlives its gesture.
 */
module Gestures {
  import opened Optional
  import opened Canvas
  import opened Whiteboard

  /**
   One user event. Dialog answers travel with the event that asks for them;
   `textHit` is `Some(id)` when the press lands on a placed text item, `id`
   being the item nearest the pointer; `onText` says that the gesture the
   motion belongs to began on a placed text item.
   */
  datatype Event =
    | Select(tool: Tool)
    | PickColour(colour: Option<Colour>)
    | PickWidth(width: Option<int>)
    | PickFont(font: Font)
    | Press(at: Point, textHit: Option<Id>, answer: Option<string>)
    | Move(at: Point, onText: bool)
    | Release(at: Point)
    | Clear
    | Undo

  /**
   The state after one event. A placed text item's own handlers run before
   the canvas-wide ones; a handler's exception is reported and the window
   goes on with the state the handler left.
   */
  function Apply(b: Board, e: Event): (r: Board)
    ensures e.Select? ==> ActiveTool(r) == e.tool
    ensures ToolsExclusive(b) ==> ToolsExclusive(r)
    ensures r.draggingText == (if e.Select? then false else if e.Press? && e.textHit.Some? then true else b.draggingText)
    ensures r.actions == b.actions
    ensures r.redo == (if e.Release? then [] else b.redo)
  {
    match e
    case Select(t) => SelectTool(b, t)
    case PickColour(a) => ChooseColour(b, a)
    case PickWidth(a) => ChoosePenWidth(b, a)
    case PickFont(f) => ChooseFont(b, f)
    case Press(p, hit, answer) =>
      var b1 := if hit.Some? then OnTextClick(b, hit.value) else b;
      OnButtonPress(b1, p, answer)
    case Move(p, onText) =>
      var b1 := if onText then OnTextDrag(b, p).board else b;
      OnMouseDrag(b1, p).board
    case Release(p) => OnButtonRelease(b, p).board
    case Clear => ClearCanvas(b)
    case Undo => UndoAction(b)
  }

  /** The state after a sequence of events, in order. */
  function Run(b: Board, es: seq<Event>): Board
    decreases |es|
  {
    if |es| == 0 then b else Run(Apply(b, es[0]), es[1..])
  }

  /** Pointer motion through the points `ps`, on the canvas and not on placed text. */
  function Moves(ps: seq<Point>): (es: seq<Event>)
    ensures |es| == |ps|
    ensures forall i :: 0 <= i < |ps| ==> es[i] == Move(ps[i], false)
  {
    if |ps| == 0 then [] else [Move(ps[0], false)] + Moves(ps[1..])
  }

  /** Where a motion through `ps` that began at `p0` ends. */
  function Last(p0: Point, ps: seq<Point>): Point {
    if |ps| == 0 then p0 else ps[|ps| - 1]
  }

  /** Where the `i`-th segment of a stroke through `ps` that began at `p0` starts. */
  function SegmentStart(p0: Point, ps: seq<Point>, i: nat): Point
    requires i < |ps|
  {
    if i == 0 then p0 else ps[i - 1]
  }

  /** Running `xs` then `ys` is running them one after the other. */
  lemma {:induction false} RunAppend(b: Board, xs: seq<Event>, ys: seq<Event>)
    ensures Run(b, xs + ys) == Run(Run(b, xs), ys)
    decreases |xs|
  {
    if |xs| == 0 {
      assert xs + ys == ys;
    } else {
      assert (xs + ys)[0] == xs[0];
      assert (xs + ys)[1..] == xs[1..] + ys;
      RunAppend(Apply(b, xs[0]), xs[1..], ys);
    }
  }

  /** Motion through `ps` is one motion to `ps[0]` followed by motion through the rest. */
  lemma RunMovesStep(b: Board, ps: seq<Point>)
    requires |ps| > 0
    ensures Run(b, Moves(ps)) == Run(Apply(b, Move(ps[0], false)), Moves(ps[1..]))
  {
    assert Moves(ps)[1..] == Moves(ps[1..]);
  }

  // ---------------------------------------------------------------------
  // Invariants of every reachable state
  // ---------------------------------------------------------------------

  /**
   The tool flags select at most one tool, and the history lists, which no
   handler ever fills, are empty.
   */
  ghost predicate Consistent(b: Board) {
    && ToolsExclusive(b)
    && b.actions == []
    && b.redo == []
  }

  /** Every event keeps a consistent state consistent, over any number of events. */
  lemma {:induction false} RunKeepsConsistent(b: Board, es: seq<Event>)
    requires Consistent(b)
    ensures Consistent(Run(b, es))
    decreases |es|
  {
    if |es| > 0 {
      RunKeepsConsistent(Apply(b, es[0]), es[1..]);
    }
  }

  /** Whatever the user does after opening the window, the state stays consistent. */
  lemma ReachableIsConsistent(es: seq<Event>)
    ensures Consistent(Run(Init(), es))
  {
    RunKeepsConsistent(Init(), es);
  }

  /** Selecting one tool and then another is the same as selecting only the second. */
  lemma SelectionForgetsPrevious(b: Board, t: Tool, u: Tool)
    ensures SelectTool(SelectTool(b, t), u) == SelectTool(b, u)
  {
  }

  // ---------------------------------------------------------------------
  // Text drag
  // ---------------------------------------------------------------------

  /**
   Once a press on placed text sets the text-drag flag, no event but a
   tool selection clears it: releases, further presses and motion all keep
   it. Motion then draws nothing, but a release with a shape tool still
   commits its shape (`ShapeReleaseIgnoresTextDrag`).
   */
  lemma {:induction false} TextDragOutlastsGesture(b: Board, es: seq<Event>)
    requires b.draggingText
    requires forall i :: 0 <= i < |es| ==> !es[i].Select?
    ensures Run(b, es).draggingText
    decreases |es|
  {
    if |es| > 0 {
      TextDragOutlastsGesture(Apply(b, es[0]), es[1..]);
    }
  }

  /** While the text-drag flag is set, motion on the canvas changes nothing at all. */
  lemma {:induction false} TextDragSuppressesDrawing(b: Board, ps: seq<Point>)
    requires b.draggingText
    ensures Run(b, Moves(ps)) == b
    decreases |ps|
  {
    if |ps| > 0 {
      RunMovesStep(b, ps);
      TextDragSuppressesDrawing(b, ps[1..]);
    }
  }

  /**
   The text-drag flag does not stop a release: with a shape tool on, a
   press away from text, any motion and a release still commit the shape
   from the press point to the release point, although the motion drew no
   preview, and the flag stays set.
   */
  lemma ShapeReleaseIgnoresTextDrag(b: Board, s: Point, ps: seq<Point>, q: Point)
    requires b.draggingText && b.shapeTool.Some?
    ensures var r := Run(b, [Press(s, None, None)] + Moves(ps) + [Release(q)]);
            && r.draggingText
            && r.start.None? && r.currentShape.None?
            && r.canvas.next == b.canvas.next + 1
            && r.canvas.items == b.canvas.items[b.canvas.next := ShapeItem(b.shapeTool.value, s, q, b.penColour, b.penWidth)]
  {
    GestureSteps(b, s, ps, q);
    var b1 := OnButtonPress(b, s, None);
    assert b1 == b.(start := Some(s), currentShape := None);
    TextDragSuppressesDrawing(b1, ps);
  }

  /**
   Motion in a gesture that began on placed text moves the remembered text
   item's anchor to the pointer and changes no other item and nothing else
   in the state; the canvas-wide motion handler then draws nothing.
   */
  lemma TextDragMovesOnlyTextBox(b: Board, p: Point)
    requires b.draggingText
    ensures var r := Apply(b, Move(p, true));
            && r == b.(canvas := r.canvas)
            && r.canvas.items.Keys == b.canvas.items.Keys && r.canvas.next == b.canvas.next
            && (forall k :: k in b.canvas.items && Some(k) != b.textBox ==> r.canvas.items[k] == b.canvas.items[k])
            && (b.textBox.Some? && b.textBox.value in b.canvas.items && b.canvas.items[b.textBox.value].TextItem? ==>
                  r.canvas.items[b.textBox.value] == b.canvas.items[b.textBox.value].(at := p))
  {
    var d := OnTextDrag(b, p);
    assert d.board.draggingText;
    assert Apply(b, Move(p, true)) == OnMouseDrag(d.board, p).board;
  }

  // ---------------------------------------------------------------------
  // Freehand strokes
  // ---------------------------------------------------------------------

  /**
   The items a freehand stroke through `ps` that began at `p0` adds to
   `items`, under consecutive ids from `n`: one segment per point, each
   starting where the previous one ended.
   */
  function Stroke(items: map<Id, Item>, n: Id, p0: Point, ps: seq<Point>, colour: Option<Colour>, width: Option<int>): map<Id, Item>
    decreases |ps|
  {
    if |ps| == 0 then items
    else Stroke(items[n := LineItem(p0, ps[0], colour, width)], n + 1, ps[0], ps[1..], colour, width)
  }

  /**
   `after` is `before` with exactly the ids `n` to `n + |ps| - 1` added, the
   `i`-th being the segment from `SegmentStart(p0, ps, i)` to `ps[i]` in the
   given colour and width; the items of `before` are unchanged.
   */
  ghost predicate StrokeLaid(before: map<Id, Item>, after: map<Id, Item>, n: Id, p0: Point, ps: seq<Point>,
                             colour: Option<Colour>, width: Option<int>) {
    && (forall k :: k in after <==> k in before || n <= k < n + |ps|)
    && (forall k :: k in before ==> after[k] == before[k])
    && (forall i :: 0 <= i < |ps| ==> after[n + i] == LineItem(SegmentStart(p0, ps, i), ps[i], colour, width))
  }

  /** The stroke map lays exactly the stroke's segments over items all below `n`. */
  lemma {:induction false} StrokeSegments(items: map<Id, Item>, n: Id, p0: Point, ps: seq<Point>, colour: Option<Colour>, width: Option<int>)
    requires forall k :: k in items ==> k < n
    ensures StrokeLaid(items, Stroke(items, n, p0, ps, colour, width), n, p0, ps, colour, width)
    decreases |ps|
  {
    if |ps| > 0 {
      var items1 := items[n := LineItem(p0, ps[0], colour, width)];
      StrokeSegments(items1, n + 1, ps[0], ps[1..], colour, width);
      var m := Stroke(items, n, p0, ps, colour, width);
      assert m == Stroke(items1, n + 1, ps[0], ps[1..], colour, width);
      forall i | 0 <= i < |ps|
        ensures m[n + i] == LineItem(SegmentStart(p0, ps, i), ps[i], colour, width)
      {
        if i > 0 {
          assert m[(n + 1) + (i - 1)] == LineItem(SegmentStart(ps[0], ps[1..], i - 1), ps[1..][i - 1], colour, width);
        }
      }
    }
  }

  /**
   With the pen, motion through `ps` from the remembered point draws the
   stroke map's segments under the next `|ps|` ids and leaves the last point
   remembered; nothing else in the state changes.
   */
  lemma {:induction false} PenMotionDrawsStroke(b: Board, ps: seq<Point>)
    requires ActiveTool(b) == Pen && !b.draggingText && b.start.Some?
    ensures var r := Run(b, Moves(ps));
            && r == b.(canvas := r.canvas, start := Some(Last(b.start.value, ps)))
            && r.canvas.next == b.canvas.next + |ps|
            && r.canvas.items == Stroke(b.canvas.items, b.canvas.next, b.start.value, ps, b.penColour, b.penWidth)
    decreases |ps|
  {
    if |ps| > 0 {
      var b1 := Apply(b, Move(ps[0], false));
      assert b1 == PenTo(b, ps[0]).board;
      RunMovesStep(b, ps);
      PenMotionDrawsStroke(b1, ps[1..]);
      assert Last(ps[0], ps[1..]) == Last(b.start.value, ps);
    }
  }

  /**
   With the pen, motion through `ps` from the remembered point `p0` adds
   exactly `|ps|` segments under consecutive fresh ids, the `i`-th from
   `SegmentStart(p0, ps, i)` to `ps[i]`, each in the pen colour and width;
   the items already there are untouched.
   */
  lemma PenStrokeChains(b: Board, ps: seq<Point>)
    requires ActiveTool(b) == Pen && !b.draggingText && b.start.Some?
    ensures var r := Run(b, Moves(ps));
            && r.canvas.next == b.canvas.next + |ps|
            && StrokeLaid(b.canvas.items, r.canvas.items, b.canvas.next, b.start.value, ps, b.penColour, b.penWidth)
  {
    PenMotionDrawsStroke(b, ps);
    StrokeSegments(b.canvas.items, b.canvas.next, b.start.value, ps, b.penColour, b.penWidth);
  }

  /**
   The ids `lo` to `hi - 1` are all line items, and each of them after the
   first begins where the one with the id before it ends.
   */
  ghost predicate Chained(items: map<Id, Item>, lo: Id, hi: Id) {
    && (forall k: Id :: lo <= k < hi ==> k in items && items[k].LineItem?)
    && (forall j: Id, k: Id :: lo <= j && k == j + 1 && k < hi && j in items && k in items ==>
          items[k].from == items[j].to)
  }

  /** The segments a stroke lays form a chain. */
  lemma StrokeIsChained(before: map<Id, Item>, after: map<Id, Item>, n: Id, p0: Point, ps: seq<Point>,
                        colour: Option<Colour>, width: Option<int>)
    requires StrokeLaid(before, after, n, p0, ps, colour, width)
    ensures Chained(after, n, n + |ps|)
  {
    forall k: Id | n <= k < n + |ps|
      ensures k in after && after[k].LineItem?
    {
      assert after[n + (k - n)] == LineItem(SegmentStart(p0, ps, k - n), ps[k - n], colour, width);
    }
    forall j: Id, k: Id | n <= j && k == j + 1 && k < n + |ps| && j in after && k in after
      ensures after[k].from == after[j].to
    {
      assert after[n + (j - n)] == LineItem(SegmentStart(p0, ps, j - n), ps[j - n], colour, width);
      assert after[n + (k - n)] == LineItem(SegmentStart(p0, ps, k - n), ps[k - n], colour, width);
    }
  }

  /** A freehand stroke has no gaps: its segments, in id order, form a chain. */
  lemma PenStrokeHasNoGaps(b: Board, ps: seq<Point>)
    requires ActiveTool(b) == Pen && !b.draggingText && b.start.Some?
    ensures var r := Run(b, Moves(ps));
            Chained(r.canvas.items, b.canvas.next, r.canvas.next)
  {
    PenStrokeChains(b, ps);
    var r := Run(b, Moves(ps));
    StrokeIsChained(b.canvas.items, r.canvas.items, b.canvas.next, b.start.value, ps, b.penColour, b.penWidth);
  }

  // ---------------------------------------------------------------------
  // Shapes: live preview and commit
  // ---------------------------------------------------------------------

  /**
   The canvas is `base` plus exactly one item, the preview outline of shape
   `k` from `s` to `p`, under the newest id, which is the preview id.
   */
  ghost predicate OnePreview(b: Board, base: map<Id, Item>, k: Shape, s: Point, p: Point) {
    && b.canvas.next >= 1
    && b.currentShape == Some(b.canvas.next - 1)
    && b.canvas.next - 1 !in base
    && b.canvas.items == base[b.canvas.next - 1 := ShapeItem(k, s, p, b.penColour, b.penWidth)]
  }

  /** Once a preview is showing, further motion replaces it and never adds a second one. */
  lemma {:induction false} PreviewStaysSingle(b: Board, base: map<Id, Item>, p0: Point, ps: seq<Point>)
    requires ActiveTool(b).ShapeTool? && !b.draggingText && b.start.Some?
    requires OnePreview(b, base, b.shapeTool.value, b.start.value, p0)
    ensures var r := Run(b, Moves(ps));
            && r == b.(canvas := r.canvas, currentShape := r.currentShape)
            && r.canvas.next == b.canvas.next + |ps|
            && OnePreview(r, base, b.shapeTool.value, b.start.value, Last(p0, ps))
    decreases |ps|
  {
    if |ps| > 0 {
      var j := b.canvas.next - 1;
      assert Without(b.canvas.items, b.currentShape) == base by {
        assert b.canvas.items.Keys - {j} == base.Keys;
      }
      var b1 := Apply(b, Move(ps[0], false));
      assert b1 == DrawPreviewShape(b, ps[0]).board;
      RunMovesStep(b, ps);
      PreviewStaysSingle(b1, base, ps[0], ps[1..]);
      assert Last(ps[0], ps[1..]) == Last(p0, ps);
    }
  }

  /**
   With a shape tool, the motion of a gesture whose press forgot the
   previous preview id leaves the canvas as it was before the motion plus
   one preview outline from the start point to the last point; the start
   point does not move.
   */
  lemma ShapeDragShowsOnePreview(b: Board, ps: seq<Point>)
    requires ActiveTool(b).ShapeTool? && !b.draggingText && b.start.Some? && b.currentShape.None?
    requires |ps| > 0
    ensures var r := Run(b, Moves(ps));
            && r == b.(canvas := r.canvas, currentShape := r.currentShape)
            && r.canvas.next == b.canvas.next + |ps|
            && OnePreview(r, b.canvas.items, b.shapeTool.value, b.start.value, ps[|ps| - 1])
  {
    var b1 := Apply(b, Move(ps[0], false));
    assert b1 == DrawPreviewShape(b, ps[0]).board;
    RunMovesStep(b, ps);
    PreviewStaysSingle(b1, b.canvas.items, ps[0], ps[1..]);
    assert Last(ps[0], ps[1..]) == ps[|ps| - 1];
  }

  /** A run of a single event is that event. */
  lemma RunSingle(b: Board, e: Event)
    ensures Run(b, [e]) == Apply(b, e)
  {
    assert [e][1..] == [];
  }

  /** A press at `s` (not on placed text, with no text answer) followed by motion through `ps`. */
  lemma PressThenMoves(b: Board, s: Point, ps: seq<Point>)
    ensures Run(b, [Press(s, None, None)] + Moves(ps)) == Run(OnButtonPress(b, s, None), Moves(ps))
  {
    RunSingle(b, Press(s, None, None));
    RunAppend(b, [Press(s, None, None)], Moves(ps));
  }

  /**
   A gesture of press at `s` (not on placed text, with no text answer),
   motion through `ps` and release at `q` runs the three handlers in turn.
   */
  lemma GestureSteps(b: Board, s: Point, ps: seq<Point>, q: Point)
    ensures Run(b, [Press(s, None, None)] + Moves(ps) + [Release(q)])
            == OnButtonRelease(Run(OnButtonPress(b, s, None), Moves(ps)), q).board
  {
    var pre := [Press(s, None, None)];
    RunSingle(b, Press(s, None, None));
    RunAppend(b, pre, Moves(ps));
    RunAppend(b, pre + Moves(ps), [Release(q)]);
    RunSingle(Run(OnButtonPress(b, s, None), Moves(ps)), Release(q));
  }

  /**
   Release with a shape tool while one preview is showing: the committed
   shape goes on top and the preview stays beneath it.
   */
  lemma ReleaseAfterPreview(b: Board, base: map<Id, Item>, k: Shape, s: Point, last: Point, q: Point)
    requires b.shapeTool == Some(k) && b.start == Some(s)
    requires OnePreview(b, base, k, s, last)
    ensures var r := OnButtonRelease(b, q).board;
            && r.start.None? && r.currentShape.None? && r.redo == []
            && r.canvas.next == b.canvas.next + 1
            && r.canvas.items == base[b.canvas.next - 1 := ShapeItem(k, s, last, b.penColour, b.penWidth)]
                                     [b.canvas.next := ShapeItem(k, s, q, b.penColour, b.penWidth)]
  {
  }

  /** What a shape gesture's three handlers, run in turn, leave behind. */
  ghost predicate ShapeCommitted(b: Board, r: Board, s: Point, ps: seq<Point>, q: Point)
    requires b.shapeTool.Some?
  {
    var k := b.shapeTool.value;
    var n := b.canvas.next;
    var committed := ShapeItem(k, s, q, b.penColour, b.penWidth);
    && r.start.None? && r.currentShape.None? && r.redo == []
    && r.canvas.next == n + |ps| + 1
    && (|ps| == 0 ==> r.canvas.items == b.canvas.items[n := committed])
    && (|ps| > 0 ==>
          r.canvas.items == b.canvas.items[n + |ps| - 1 := ShapeItem(k, s, ps[|ps| - 1], b.penColour, b.penWidth)]
                                          [n + |ps| := committed])
  }

  /** The handlers of a shape gesture, applied one after the other. */
  lemma ShapeHandlersCommit(b: Board, s: Point, ps: seq<Point>, q: Point)
    requires ActiveTool(b).ShapeTool? && !b.draggingText
    ensures ShapeCommitted(b, OnButtonRelease(Run(OnButtonPress(b, s, None), Moves(ps)), q).board, s, ps, q)
  {
    var b1 := OnButtonPress(b, s, None);
    assert b1 == b.(start := Some(s), currentShape := None);
    if |ps| > 0 {
      ShapeDragShowsOnePreview(b1, ps);
      ReleaseAfterPreview(Run(b1, Moves(ps)), b.canvas.items, b.shapeTool.value, s, ps[|ps| - 1], q);
    }
  }

  /**
   A whole shape gesture, press at `s`, motion through `ps`, release at
   `q`: the committed shape from `s` to `q` is added, and the last preview
   (from `s` to the last motion point) is still on the canvas beneath it;
   with no motion only the committed shape is added, zero-sized or not.
   The gesture ends with no start point, no preview id and no redo entries.
   */
  lemma ShapeGestureCommits(b: Board, s: Point, ps: seq<Point>, q: Point)
    requires ActiveTool(b).ShapeTool? && !b.draggingText
    ensures ShapeCommitted(b, Run(b, [Press(s, None, None)] + Moves(ps) + [Release(q)]), s, ps, q)
  {
    GestureSteps(b, s, ps, q);
    ShapeHandlersCommit(b, s, ps, q);
  }

  // ---------------------------------------------------------------------
  // Concrete sessions
  // ---------------------------------------------------------------------

  /**
   Pen in black at width 2, press at (10,10), motion to (20,10), (30,10),
   (40,10) and (50,10): four segments chained from (10,10) to (50,10).
   */
  lemma PenSession()
    ensures var r := Run(Init(), [Press(Point(10, 10), None, None)]
                                  + Moves([Point(20, 10), Point(30, 10), Point(40, 10), Point(50, 10)]));
            r.canvas.items == map[
              1 := LineItem(Point(10, 10), Point(20, 10), Some("black"), Some(2)),
              2 := LineItem(Point(20, 10), Point(30, 10), Some("black"), Some(2)),
              3 := LineItem(Point(30, 10), Point(40, 10), Some("black"), Some(2)),
              4 := LineItem(Point(40, 10), Point(50, 10), Some("black"), Some(2))]
  {
    var ps := [Point(20, 10), Point(30, 10), Point(40, 10), Point(50, 10)];
    var black, two := Some("black"), Some(2);
    PressThenMoves(Init(), Point(10, 10), ps);
    var b1 := OnButtonPress(Init(), Point(10, 10), None);
    PenMotionDrawsStroke(b1, ps);
    var s1 := map[1 := LineItem(Point(10, 10), Point(20, 10), black, two)];
    var s2 := s1[2 := LineItem(Point(20, 10), Point(30, 10), black, two)];
    var s3 := s2[3 := LineItem(Point(30, 10), Point(40, 10), black, two)];
    var s4 := s3[4 := LineItem(Point(40, 10), Point(50, 10), black, two)];
    assert Stroke(map[], 1, Point(10, 10), ps, black, two) == Stroke(s1, 2, ps[0], ps[1..], black, two);
    assert Stroke(s1, 2, ps[0], ps[1..], black, two) == Stroke(s2, 3, ps[1], ps[2..], black, two);
    assert Stroke(s2, 3, ps[1], ps[2..], black, two) == Stroke(s3, 4, ps[2], ps[3..], black, two);
    assert Stroke(s3, 4, ps[2], ps[3..], black, two) == Stroke(s4, 5, ps[3], ps[4..], black, two);
  }

  /**
   Rectangle tool, press at (20,20), motion to (80,60), release at (80,60):
   the committed rectangle and the last preview, the same outline, both
   remain.
   */
  lemma RectangleSession()
    ensures var b := Run(Init(), [Select(ShapeTool(Rectangle))]);
            var r := Run(b, [Press(Point(20, 20), None, None)] + Moves([Point(80, 60)]) + [Release(Point(80, 60))]);
            var outline := RectItem(Point(20, 20), Point(80, 60), None, Some("black"), Some(2));
            r.canvas.items == map[1 := outline, 2 := outline]
  {
    var b := Run(Init(), [Select(ShapeTool(Rectangle))]);
    assert b == Apply(Init(), Select(ShapeTool(Rectangle)));
    ShapeGestureCommits(b, Point(20, 20), [Point(80, 60)], Point(80, 60));
  }

  /**
   Text tool, press at (100,100) answering "Hi": one text item at the
   click point in the selected font and pen colour, and the pen is active
   again, so a second press places nothing whatever it answers.
   */
  lemma TextSession()
    ensures var b := Run(Init(), [Select(TextTool), Press(Point(100, 100), None, Some("Hi"))]);
            && b.canvas.items == map[1 := TextItem(Point(100, 100), "Hi", Font("Helvetica", 12), Some("black"))]
            && ActiveTool(b) == Pen
            && Apply(b, Press(Point(5, 5), None, Some("Again"))).canvas == b.canvas
  {
    var b1 := Apply(Init(), Select(TextTool));
    var b2 := Apply(b1, Press(Point(100, 100), None, Some("Hi")));
    assert Run(Init(), [Select(TextTool), Press(Point(100, 100), None, Some("Hi"))]) == Run(b1, [Press(Point(100, 100), None, Some("Hi"))]);
    assert Run(b1, [Press(Point(100, 100), None, Some("Hi"))]) == b2;
  }

  /**
   A cancelled width prompt stores no width, after which an eraser drag
   raises before drawing: the canvas does not change.
   */
  lemma CancelledWidthDisablesEraser(b: Board, p: Point)
    ensures var e := Run(b, [Select(Eraser), PickWidth(None)]);
            && e.penWidth.None?
            && OnMouseDrag(e, p) == Outcome(e, Some(NoPenWidth))
  {
    var b1 := Apply(b, Select(Eraser));
    assert Run(b, [Select(Eraser), PickWidth(None)]) == Run(b1, [PickWidth(None)]);
  }

  /** Clearing leaves no item, whatever was drawn before. */
  lemma ClearSession(es: seq<Event>)
    ensures Run(Init(), es + [Clear]).canvas.items == map[]
  {
    RunAppend(Init(), es, [Clear]);
    var b := Run(Init(), es);
    assert Run(b, [Clear]) == Apply(b, Clear);
  }
}
