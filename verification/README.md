# Virtual Whiteboard: the drawing-tool state machine

This project models the core of the Virtual Whiteboard desktop drawing application (one Tk window, `main.py`) and proves its behaviour. The core is the state the `VirtualWhiteboard` controller keeps between pointer events:
- the tool flags `eraser_on`, `shape_tool`, `text_tool` and `is_dragging_text`;
- the pen colour and width;
- the remembered start point;
- the id of the live shape preview;
- the history lists;
- the remembered text box;
- the font menus.

It also covers the handlers that turn tool buttons, button presses, pointer motion and releases into items on the canvas.

The model is functional:

- `optional.dfy` (`Optional`): `Option`, which stands for Python's `None`.
- `canvas.dfy` (`Canvas`): the Tk canvas, taken abstractly. The canvas is a map from positive item ids to primitives (lines, rectangles, ovals, text), with a counter that hands out fresh ids. The subset type `Canvas` carries the invariant that every present id was issued by the counter. Ids are never reused, not even after `delete("all")`.
- `whiteboard.dfy` (`Whiteboard`): the immutable state record `Board`, with one pure function per handler. A Python exception inside a Tk callback neither rolls back what the handler already changed nor stops the application. So the pointer handlers that can raise return an `Outcome`: the state at the point where the handler ended, plus the fault it raised, if any. There are three faults:
  - the start point `None` used as a coordinate;
  - the pen width `None` used in the eraser's addition;
  - a single point given as the coordinates of a two-corner item.
- `gestures.dfy` (`Gestures`): user events and how Tk dispatches them. A placed text item's own bindings run before the canvas-wide ones. `Run` applies a sequence of events. This module holds the proofs about whole gestures and about every reachable state.

Dialog answers (colour chooser, width prompt, text prompt) and the hit test (`find_closest`) are parameters of the events that trigger them.

## Behaviour of the code worth knowing

- **Release keeps the last preview.** On release the code commits the shape but never deletes the last preview, so the preview and the committed outline both stay (`main.py:184-198`). `ShapeGestureCommits` and `RectangleSession` prove this: press, motion and release with the rectangle tool leave two rectangles.
- **A cancelled dialog clears the value.** A cancelled colour or width dialog answers `None`, and the code stores that answer over the previous value (`main.py:132-138`). After that, the eraser's `event.x + self.pen_width` raises before drawing anything (`CancelledWidthDisablesEraser`).
- **The text-drag flag outlives its gesture.** `is_dragging_text` is set by a press on placed text and is cleared only by a tool selection (`main.py:125-130`, `main.py:231`). While it is set, canvas motion draws nothing (`main.py:157-160`; `TextDragOutlastsGesture`, `TextDragSuppressesDrawing`). But `on_button_release` never tests the flag (`main.py:184-187`): a release with a shape tool on still commits its shape from the press point to the release point, although no preview was drawn (`ShapeReleaseIgnoresTextDrag`). A press with the text tool still on also places text while the flag is set.
- **The tool choice is a set of independent flags.** The code keeps one flag per tool, and the model keeps them too, reading them through `ActiveTool` in the order `on_mouse_drag` tests them (`main.py:162-169`). `ToolsExclusive`, the property that at most one flag is on, is proved for every selection and for every reachable state. The pen is the case where no flag is on.
- **Each pen motion draws one segment.** Every motion event after the press draws one segment, from the previous point to the pointer (`main.py:164-166`). So a press at (10,10) followed by motion to (20,10), (30,10), (40,10) and (50,10) draws four segments (`PenSession`).

## Model

| member | source | states |
|---|---|---|
| `Whiteboard.Init` | main.py:12-26 | A new window has the pen active (no tool flag on, no text drag), black at width 2, no start point, no preview id, no text box, empty history lists, font Helvetica 12, and a blank canvas: no items, and the first item created gets id 1 |
| `Whiteboard.DeactivateAllTools` | main.py:125-130 | Afterwards the pen is the active tool, at most one tool flag is on and the text-drag flag is off; nothing but the flags changes |
| `Whiteboard.UsePen` | main.py:85-91 | Afterwards the pen is active, at most one tool flag is on and the text-drag flag is cleared; canvas, colours, start point and the rest are unchanged |
| `Whiteboard.UseEraser` | main.py:93-99 | Afterwards the eraser is active and is the only flag on, and the text-drag flag is cleared; nothing but the flags changes |
| `Whiteboard.UseRectangle` | main.py:101-105 | Afterwards the rectangle shape tool is active and is the only flag on, and the text-drag flag is cleared; nothing but the flags changes |
| `Whiteboard.UseOval` | main.py:107-111 | Afterwards the oval shape tool is active and is the only flag on, and the text-drag flag is cleared; nothing but the flags changes |
| `Whiteboard.UseLine` | main.py:113-117 | Afterwards the line shape tool is active and is the only flag on, and the text-drag flag is cleared; nothing but the flags changes |
| `Whiteboard.UseTextTool` | main.py:119-123 | Afterwards the text tool is active and is the only flag on, and the text-drag flag is cleared; nothing but the flags changes |
| `Whiteboard.SelectTool` | main.py:85-130 | For every tool `t`, selecting `t` makes `t` the tool the flags select and leaves at most one flag on and the text-drag flag off; nothing else in the state changes |
| `Whiteboard.ChooseColour` | main.py:132-134 | The chooser's answer becomes the pen colour, including a cancel (`None`), which does not keep the old colour; nothing else changes |
| `Whiteboard.ChoosePenWidth` | main.py:136-138 | The prompt's answer becomes the pen width, including a cancel (`None`), which does not keep the old width; nothing else changes |
| `Whiteboard.ChooseFont` | main.py:74-81 | A choice in the font style and size menus becomes the font later text is placed in; nothing else changes |
| `Whiteboard.OnButtonPress` | main.py:143-155 | Any press records the press point as the start and forgets the preview id. With the text tool on and a non-empty answer it adds exactly one text item at the press point, in the selected font and the pen colour, and turns the text tool off. With an empty or cancelled answer, or without the text tool, the canvas and the text-tool flag are unchanged |
| `Whiteboard.ShapeItem` | main.py:177-182 | A rectangle tool draws an unfilled rectangle, an oval tool an oval, and a line tool a line, each from the first point to the second in the given colour and width |
| `Whiteboard.EraseAt` | main.py:162-163 | With a pen width `w`, adds exactly one rectangle from (x,y) to (x+w,y+w), filled and outlined in the canvas background colour, and changes nothing else (the start point stays). With no pen width it raises and changes nothing |
| `Whiteboard.PenTo` | main.py:164-166 | Adds exactly one line from the remembered point to the pointer in the pen colour and width, then remembers the pointer; with no remembered point it raises and changes nothing |
| `Whiteboard.DrawPreviewShape` | main.py:171-182 | Deletes the previous preview, if any. With a shape tool and a start point, it then adds one outline of that shape from the start point to the pointer under the fresh id and records that id as the preview; otherwise no id is issued. Only the canvas and the preview id can change; the start point never moves |
| `Whiteboard.OnMouseDrag` | main.py:157-169 | While a text drag is flagged, motion changes nothing and raises nothing. Otherwise the eraser erases, the pen draws a segment, and a shape tool or the text tool goes to the preview |
| `Whiteboard.FinalizeShape` | main.py:191-198 | With a shape tool and a start point, adds exactly one item of that shape from the start point to the release point, whatever its size, and deletes nothing; without a shape tool it changes nothing |
| `Whiteboard.OnButtonRelease` | main.py:184-189 | Always empties the redo list. With a shape tool and a start point, it adds exactly one committed shape and deletes nothing. If it does not raise, the start point and preview id are forgotten. It raises exactly when a shape tool is on and there is no start point, and then it has changed only the redo list |
| `Whiteboard.OnTextClick` | main.py:230-232 | Sets the text-drag flag and remembers the hit item as the text box; nothing else in the state changes (canvas, tool flags, start point, colour, width, preview id and the rest) |
| `Whiteboard.OnTextDrag` | main.py:234-236 | Moves only the remembered text item's anchor to the pointer. Every other item, the set of ids and the id counter are unchanged. An item that is gone is left alone; a non-text item rejects the single point and nothing changes |
| `Whiteboard.ClearCanvas` | main.py:219-221 | Leaves no item on the canvas, whatever was there, keeps the id counter (so no id is issued again) and changes nothing else |
| `Whiteboard.UndoAction` | main.py:223-224 | Changes nothing at all |
| `Gestures.Apply` | main.py:33-35 | Each event keeps the tool flags exclusive and the history list unchanged. A selection activates its tool. Only a release empties the redo list. The text-drag flag is cleared by a selection, set by a press on placed text, and otherwise kept |
| `Gestures.RunKeepsConsistent` | main.py:14-20 | Over any sequence of events, at most one tool flag stays on and both history lists stay empty (nothing ever adds to them) |
| `Gestures.ReachableIsConsistent` | main.py:12-26 | Every state reachable from a new window has at most one tool flag on and empty history lists |
| `Gestures.SelectionForgetsPrevious` | main.py:85-130 | Selecting one tool and then another gives the same state as selecting only the second |
| `Gestures.TextDragOutlastsGesture` | main.py:226-232 | Once the text-drag flag is set, it stays set through any sequence of presses, motions, releases, dialog answers, clears and undos, until a tool is selected |
| `Gestures.TextDragSuppressesDrawing` | main.py:157-160 | While the text-drag flag is set, any amount of motion on the canvas leaves the whole state unchanged |
| `Gestures.ShapeReleaseIgnoresTextDrag` | main.py:184-198 | While the text-drag flag is set, a press away from text, any motion and a release with a shape tool add exactly the committed shape from the press point to the release point (no preview, since motion drew none), forget the start point and preview id, and keep the flag set |
| `Gestures.TextDragMovesOnlyTextBox` | main.py:234-236 | During a text gesture, a motion moves the remembered text item to the pointer and changes no other item, the id counter or anything else in the state |
| `Gestures.StrokeSegments` | main.py:164-166 | A freehand stroke through `ps` keeps the existing items and adds exactly one id per point of `ps`. The `i`-th added segment runs from the previous point to `ps[i]` |
| `Gestures.PenMotionDrawsStroke` | main.py:164-166 | With the pen, motion through `ps` draws exactly that stroke under the next fresh ids, one per point and leaves the last point remembered; nothing else changes |
| `Gestures.PenStrokeChains` | main.py:164-166 | With the pen, `N` motion events add exactly `N` segments under consecutive fresh ids, each in the pen colour and width. The first segment starts at the remembered point, and each later one starts at the previous motion point. Existing items are untouched |
| `Gestures.StrokeIsChained` | main.py:164-166 | The segments of a stroke are all lines, and each begins where the one before it ends |
| `Gestures.PenStrokeHasNoGaps` | main.py:164-166 | Consecutive segments of a freehand stroke meet, so the stroke has no gaps |
| `Gestures.PreviewStaysSingle` | main.py:171-182 | While a preview is showing, further motion with a shape tool keeps the canvas equal to the items from before the gesture plus exactly one preview, now ending at the latest point |
| `Gestures.ShapeDragShowsOnePreview` | main.py:167-182 | After a press and any non-empty motion with a shape tool, the canvas holds the items from before the motion plus exactly one preview outline, from the fixed start point to the last point. The start point does not move |
| `Gestures.ReleaseAfterPreview` | main.py:184-198 | A release while a preview shows adds the committed shape on top and leaves the preview beneath it. The start point, the preview id and the redo list are cleared |
| `Gestures.ShapeHandlersCommit` | main.py:143-198 | Press, shape-tool motion and release, run in turn, add the committed shape and, when there was motion, leave the last preview |
| `Gestures.ShapeGestureCommits` | main.py:143-198 | A whole shape gesture adds the committed shape from press point to release point, zero-sized or not. After non-empty motion, the last preview is still on the canvas as well. The gesture ends with no start point, no preview id and an empty redo list |
| `Gestures.PenSession` | main.py:143-166 | Pen in black at width 2: a press at (10,10), then motion to (20,10), (30,10), (40,10) and (50,10), gives exactly four chained segments from (10,10) to (50,10) |
| `Gestures.RectangleSession` | main.py:171-198 | Rectangle tool: a press at (20,20), motion to (80,60) and release at (80,60) leave two identical rectangles, the preview and the committed one |
| `Gestures.TextSession` | main.py:143-155 | Text tool: a press at (100,100) answering "Hi" places exactly one text item there in Helvetica 12 and black. The pen is then active again, so a second press places nothing |
| `Gestures.CancelledWidthDisablesEraser` | main.py:136-138 | After a cancelled width prompt the width is `None`, so an eraser drag raises and leaves the state unchanged |
| `Gestures.ClearSession` | main.py:219-221 | Clearing after any sequence of events leaves no item |

## Left out

- Window, toolbar, menu and status-bar construction, and status-text formatting (`create_toolbar`, `create_text_tab`, `update_status`, `main.py:47-83`, `main.py:140-141`). These are pure user interface; the status text has no effect on drawing.
- The modal dialogs themselves (`colorchooser.askcolor`, `simpledialog.askinteger`, `simpledialog.askstring`). Their answers are event parameters. The 1..10 width bound is enforced by the foreign dialog, not by this code, so the model allows any integer or `None`.
- `find_closest` hit testing, and which item lies under the pointer. They are event parameters: `textHit` for a press and `onText` for motion.
- `make_text_draggable` (`main.py:226-228`, called at `main.py:154`) has no member of its own: its two bindings are modelled by the `Press` and `Move` events of `Gestures.Apply`. Every text item the text tool places gets the text bindings, so a press on placed text is an event that runs `on_text_click` before `on_button_press`.
- `upload_local_image` and `save_canvas` (`main.py:200-217`). These are file I/O, image scaling and screen capture in foreign libraries.
- Rendering: `capstyle`, `smooth`, pixel output, and the toolkit's default colours and widths. A `None` attribute stands for "toolkit default". Tk stores coordinates as floating-point numbers; the model keeps integer event coordinates.
- The fields `text_font` and `image_on_canvas`, which nothing reads (`main.py:21`, `main.py:23`); `bg_color` (`main.py:24`), which only the toolbar construction reads (`main.py:48`); and the widget geometry (`main.py:11`, `main.py:29-30`).
- The toolkit side of moving text: a Tk canvas `coords` call on a deleted id is modelled as matching nothing, and a single point given to a two-corner item is modelled as rejected. Both are toolkit behaviour, and no code in this repository shows it.
