# Canvas pan/zoom and table-card drag of DB-Disigner, in Dafny

DB-Disigner draws a database schema as table cards on a canvas that can be panned and zoomed.
This project models the two pieces of arithmetic behind that:

- **Canvas** (`canvas.dfy`, from `src/components/DrawingBoard/Canvas.tsx`). The workspace store holds the canvas pan offset and zoom scale. A drag of the canvas itself (active draggable id `"canvas"`) adds the raw screen delta to the offset; a drag of anything else, such as a table card, is ignored. A wheel event multiplies the scale by 1.1 (wheel up, `deltaY < 0`) or by 0.9 (any other `deltaY`, including 0). It also moves the offset so that the world point under the pointer stays under the pointer. The class `Viewport` has the store fields `offsetX`, `offsetY` and `scale`, and its methods `Pan` and `Wheel` are the two event handlers. Each method is tied to a pure function on the value `View` (`Panned`, `Zoomed`), and the properties are proved about those functions.
- **TableModal** (`table_modal.dfy`, from `src/components/TableModal/index.tsx`). The store maps each table's name to a world-space position, and a missing entry reads as (0,0). A card's drag start records the current position as the anchor. Each drag move then stores `anchor + delta / scale`, using the canvas scale. The class `PositionStore` holds the map. The class `TableCard` holds the table name, a reference to the shared store and the anchor (the `startPosition` ref). Its methods are tied to the pure functions `DragStarted` and `DragMoved` on the value `Card`. The module also models the label of the "type" column: the type, then `[]` for a list field, then `?` for an optional one.

All numbers are Dafny `real`, so every property holds exactly. Anchor preservation and scale positivity are statements about real arithmetic. They are not statements about IEEE doubles.

Four consequences of the code are worth stating:
- A zoom-in followed by a zoom-out does not restore the scale. The factors are 1.1 and 0.9, so the scale ends at 0.99 times the original (`Canvas.ZoomInThenOut`).
- The code has no floor or clamp on the scale. The scale stays positive only because both factors are positive and it starts positive (`Canvas.ZoomAllScale`).
- The card never clears its anchor. `TableModal/index.tsx` has no drag-end handler, so a later move for the same id reuses the last anchor.
- A drag move divides by the scale without a guard. `DragMove` therefore requires a nonzero scale, but only when the move passes the handler's early-return guard. A move that returns early divides by nothing.

## Model

| member | source | states |
|---|---|---|
| Canvas.ZoomStep | src/components/DrawingBoard/Canvas.tsx:32 | the step is +0.1 exactly when deltaY < 0, and -0.1 otherwise (deltaY == 0 included) |
| Canvas.ZoomedScale | src/components/DrawingBoard/Canvas.tsx:35 | the new scale is scale·1.1 when deltaY < 0 and scale·0.9 when deltaY ≥ 0, and it is positive whenever the old scale is |
| Canvas.ZoomedOffset | src/components/DrawingBoard/Canvas.tsx:33-34 | the pointer-to-offset distance is multiplied by (1 + step), the same factor as the scale, so a pointer exactly at the offset leaves the offset unchanged |
| Canvas.Panned | src/components/DrawingBoard/Canvas.tsx:20-27 | a drag end with id "canvas" adds the raw delta (not divided by the scale) to the offset; any other id leaves the whole view unchanged; the scale never changes |
| Canvas.Zoomed | src/components/DrawingBoard/Canvas.tsx:28-40 | the scale is ZoomedScale of the old one, and per axis the pointer-to-offset distance grows by the same factor as the scale |
| Canvas.ScreenWorldRoundTrip | src/components/DrawingBoard/Canvas.tsx:29-39 | in the coordinate relation the wheel handler assumes (screen = world·scale + offset), mapping a screen coordinate to world coordinates and back gives the same screen coordinate |
| Canvas.AxisAnchored | src/components/DrawingBoard/Canvas.tsx:33-38 | on one axis, moving the offset by (client − offset)·step while multiplying the scale by (1 + step) keeps (client − offset)/scale unchanged |
| Canvas.ZoomKeepsPointerAnchored | src/components/DrawingBoard/Canvas.tsx:28-40 | for a nonzero scale, a wheel event keeps the scale nonzero and leaves (client − offset)/scale unchanged on both axes |
| Canvas.ZoomKeepsWorldPointUnderPointer | src/components/DrawingBoard/Canvas.tsx:28-40 | for a nonzero scale, the world point that was under the pointer before a wheel event is drawn exactly under the pointer after it, on both axes |
| Canvas.ZoomInThenOut | src/components/DrawingBoard/Canvas.tsx:32-38 | zooming in and then out at the same pointer gives 0.99 times the original scale, and 0.99 times each original pointer-to-offset distance; so a nonzero scale is not restored |
| Canvas.PanAllSumsDeltas | src/components/DrawingBoard/Canvas.tsx:20-27 | after any sequence of drag ends, the offset is the initial offset plus the sum of the canvas drags' deltas, and the scale is unchanged |
| Canvas.ScaleFactor | src/components/DrawingBoard/Canvas.tsx:32-35 | the product of the wheel factors of any sequence of wheel events is positive |
| Canvas.ZoomAllScale | src/components/DrawingBoard/Canvas.tsx:28-40 | after any sequence of wheel events the scale is the initial scale times the product of their factors (the pointer positions do not affect it), and a positive scale stays positive |
| Canvas.Viewport.constructor | src/components/DrawingBoard/Canvas.tsx:12-15 | the viewport starts with the given offset and scale, and its scale is positive when the given one is |
| Canvas.Viewport.Pan | src/components/DrawingBoard/Canvas.tsx:20-27 | the new state is Panned of the old state: for the canvas id the offset gains (dx, dy), for other ids the offset is unchanged, the scale is always unchanged, and a positive scale stays positive |
| Canvas.Viewport.Wheel | src/components/DrawingBoard/Canvas.tsx:28-40 | the new state is Zoomed of the old state: the scale is multiplied by 1.1 or 0.9, a positive scale stays positive, and the world point under the pointer is unchanged |
| TableModal.PositionOf | src/components/TableModal/index.tsx:21-23 | a table's position is its stored entry, or (0,0) when the store has none |
| TableModal.DraggedTo | src/components/TableModal/index.tsx:29-30 | the new position is exactly one screen delta from the anchor at this scale: (p − anchor)·scale equals the delta on each axis |
| TableModal.DragStarted | src/components/TableModal/index.tsx:34-37 | a drag start for this table's id sets the anchor to the current position, a drag start for another id keeps the anchor, and the positions never change |
| TableModal.DragMoved | src/components/TableModal/index.tsx:25-32 | with another id or no anchor, nothing changes; otherwise this table's entry becomes anchor + delta/scale; other tables' entries and the anchor are never changed |
| TableModal.Removed | src/components/TableModal/index.tsx:39-43 | after removal the table reads as (0,0), and every other table keeps its entry |
| TableModal.MovesKeepAnchor | src/components/TableModal/index.tsx:25-32 | no sequence of drag moves changes the anchor |
| TableModal.MovesNotCumulative | src/components/TableModal/index.tsx:28-31 | after a drag start, a sequence of moves whose last one is for this table leaves the table at the start position plus that last delta divided by the scale that last move read; earlier moves and earlier scales (a wheel event mid-drag) do not matter |
| TableModal.ZeroMoveKeepsPosition | src/components/TableModal/index.tsx:26-37 | a zero-delta move right after a drag start leaves the table where it was |
| TableModal.DoubleScaleHalvesDisplacement | src/components/TableModal/index.tsx:29-30 | for the same screen delta, doubling the scale halves the world displacement from the anchor |
| TableModal.TypeLabel | src/components/TableModal/index.tsx:87 | the label starts with the type, is followed by "[]" exactly when the field is a list, ends in "?" after the type exactly when the field is optional, and has exactly that length |
| TableModal.TypeLabelRoundTrip | src/components/TableModal/index.tsx:87 | for a type name that does not itself end in "?" or "[]", the label can be read back into the type, the list flag and the required flag |
| TableModal.TableCard.constructor | src/components/TableModal/index.tsx:14-23 | a new card has the given name and store, and no anchor |
| TableModal.TableCard.Position | src/components/TableModal/index.tsx:21-23 | the card's rendered position is its store entry, or (0,0) when there is none |
| TableModal.TableCard.DragStart | src/components/TableModal/index.tsx:34-37 | the new state is DragStarted of the old state: for this table's id the anchor becomes the current position, for other ids it is unchanged, and the store is unchanged |
| TableModal.TableCard.DragMove | src/components/TableModal/index.tsx:25-32 | the new state is DragMoved of the old state, with the scale read from the viewport: nothing changes with another id or no anchor; otherwise this table's position becomes anchor + delta/scale; every other table keeps its position |
| TableModal.TableCard.Remove | src/components/TableModal/index.tsx:39-43 | the store's positions lose this table's entry, so it reads as (0,0) |

## Left out

- Rendering: the JSX, the CSS class strings, and the `positionStyle` and `transformStyle` objects with their `translate3d(...) scale(...)` strings. They are presentation only. `ScreenAt` and `WorldAt` state the relation the wheel handler's arithmetic assumes: scaling about the offset. The CSS transform origin that the browser actually applies is not modelled.
- The drag-and-drop library (`useDraggable`, `Draggable`, its event objects) and the `DataTable` component. They are foreign UI code. Events are plain parameters: the id, the delta, `deltaY` and the client coordinates.
- The workspace store's body is not part of this model. Its setters are modelled as plain field and map assignment. The one store is split into `Viewport` (offset and scale) and `PositionStore` (the positions map).
- TableModal.Removed: models `removeTable` only as dropping the table's position entry. Any other effect of `removeTable`, such as removing the table from the diagram, is not modelled because its body is not shown.
- React's render cycle: each handler reads the store values captured at the last render. The model assumes a re-render between events, so every event sees the latest state.
- IEEE-754 rounding: all numbers are reals, so the exact results here (anchor preservation, the 0.99 factor) hold only up to rounding in the running code.
- `src/components/DashBoard/index.tsx` is not part of this model. It is a slide-in panel whose only logic is negating a boolean flag.
