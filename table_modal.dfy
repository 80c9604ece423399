/** A table card on the canvas: its world-space position, kept in the
    workspace store under the table's name, and a drag that moves it by the
    screen delta divided by the canvas scale. Also the label shown in the
    card's "type" column. */
module TableModal {
  import Canvas

  /** A world-space position. */
  datatype Point = Point(x: real, y: real)

  datatype Option<T> = None | Some(value: T)

  /** Where a table without a stored position is drawn. */
  const Origin: Point := Point(0.0, 0.0)

  /** The position the card renders at: the stored entry, or the origin when
      the store has none for this table. */
  function PositionOf(positions: map<string, Point>, name: string): (p: Point)
    ensures name in positions ==> p == positions[name]
    ensures name !in positions ==> p == Origin
  {
    if name in positions then positions[name] else Origin
  }

  /** The position `anchor + delta / scale`: the world point that is exactly
      the screen delta away from the anchor at this scale. */
  function DraggedTo(anchor: Point, dx: real, dy: real, scale: real): (p: Point)
    requires scale != 0.0
    ensures (p.x - anchor.x) * scale == dx && (p.y - anchor.y) * scale == dy
  {
    Point(anchor.x + dx / scale, anchor.y + dy / scale)
  }

  /** The state one card sees: the store's positions and the card's drag anchor. */
  datatype Card = Card(positions: map<string, Point>, anchor: Option<Point>)

  /** onDragStart of the card for table `name`, for a drag of draggable `id`. */
  function DragStarted(c: Card, name: string, id: string): (r: Card)
    ensures r.positions == c.positions
    ensures id == name ==> r.anchor == Some(PositionOf(c.positions, name))
    ensures id != name ==> r.anchor == c.anchor
  {
    if id != name then c else c.(anchor := Some(PositionOf(c.positions, name)))
  }

  /** A move event reaches the card only for its own id and after a drag start. */
  predicate MoveApplies(c: Card, name: string, id: string)
  {
    id == name && c.anchor.Some?
  }

  /** onDragMove of the card for table `name`. It writes only this table's
      entry, and writes it from the anchor, never from the current position. */
  function DragMoved(c: Card, name: string, id: string, dx: real, dy: real, scale: real): (r: Card)
    requires MoveApplies(c, name, id) ==> scale != 0.0
    ensures r.anchor == c.anchor
    ensures !MoveApplies(c, name, id) ==> r == c
    ensures MoveApplies(c, name, id) ==>
      name in r.positions && r.positions[name] == DraggedTo(c.anchor.value, dx, dy, scale)
    ensures forall k :: k != name ==> (k in r.positions <==> k in c.positions)
    ensures forall k :: k != name && k in c.positions ==> r.positions[k] == c.positions[k]
  {
    if !MoveApplies(c, name, id) then c
    else c.(positions := c.positions[name := DraggedTo(c.anchor.value, dx, dy, scale)])
  }

  /** removeTable, as far as positions go: the table's entry is dropped. */
  function Removed(positions: map<string, Point>, name: string): (r: map<string, Point>)
    ensures PositionOf(r, name) == Origin
    ensures forall k :: k != name ==> PositionOf(r, k) == PositionOf(positions, k)
    ensures forall k :: k in r <==> k in positions && k != name
  {
    positions - {name}
  }

  /** A drag-move event as the card receives it, with the canvas scale the
      store holds when it arrives (a wheel event may change it mid-drag). */
  datatype Move = Move(id: string, dx: real, dy: real, scale: real)

  /** Every move addressed to table `name` comes with a nonzero scale. */
  predicate OwnMovesScaled(name: string, ms: seq<Move>)
  {
    forall i :: 0 <= i < |ms| && ms[i].id == name ==> ms[i].scale != 0.0
  }

  /** The effect of a sequence of move events; the last one is applied last. */
  function MovedAll(c: Card, name: string, ms: seq<Move>): Card
    requires OwnMovesScaled(name, ms)
    decreases |ms|
  {
    if ms == [] then c
    else
      var last := ms[|ms| - 1];
      DragMoved(MovedAll(c, name, ms[..|ms| - 1]), name, last.id, last.dx, last.dy, last.scale)
  }

  /** Moves never change the drag anchor. */
  lemma {:induction false} MovesKeepAnchor(c: Card, name: string, ms: seq<Move>)
    requires OwnMovesScaled(name, ms)
    ensures MovedAll(c, name, ms).anchor == c.anchor
    decreases |ms|
  {
    if ms != [] {
      MovesKeepAnchor(c, name, ms[..|ms| - 1]);
    }
  }

  /** Moves are not cumulative: after a drag start, the position after any
      sequence of moves whose last one is for this table is the anchor plus
      that last delta divided by that last move's scale alone; earlier moves
      and earlier scales do not matter. */
  lemma MovesNotCumulative(c: Card, name: string, ms: seq<Move>)
    requires OwnMovesScaled(name, ms)
    requires |ms| > 0 && ms[|ms| - 1].id == name
    ensures PositionOf(MovedAll(DragStarted(c, name, name), name, ms).positions, name)
         == DraggedTo(PositionOf(c.positions, name), ms[|ms| - 1].dx, ms[|ms| - 1].dy, ms[|ms| - 1].scale)
  {
    var started := DragStarted(c, name, name);
    MovesKeepAnchor(started, name, ms[..|ms| - 1]);
  }

  /** A move with zero delta right after a drag start leaves the table where it was. */
  lemma ZeroMoveKeepsPosition(c: Card, name: string, scale: real)
    requires scale != 0.0
    ensures PositionOf(DragMoved(DragStarted(c, name, name), name, name, 0.0, 0.0, scale).positions, name)
         == PositionOf(c.positions, name)
  {
  }

  /** For the same screen delta, doubling the scale halves the world
      displacement from the anchor. */
  lemma DoubleScaleHalvesDisplacement(anchor: Point, dx: real, dy: real, scale: real)
    requires scale != 0.0
    ensures DraggedTo(anchor, dx, dy, 2.0 * scale).x - anchor.x == (DraggedTo(anchor, dx, dy, scale).x - anchor.x) / 2.0
    ensures DraggedTo(anchor, dx, dy, 2.0 * scale).y - anchor.y == (DraggedTo(anchor, dx, dy, scale).y - anchor.y) / 2.0
  {
  }

  /** The label of the "type" column: the field's type, then "[]" for a list
      field, then "?" for an optional one. */
  function TypeLabel(fieldType: string, isList: bool, isRequired: bool): (s: string)
    ensures |s| == |fieldType| + (if isList then 2 else 0) + (if isRequired then 0 else 1)
    ensures s[..|fieldType|] == fieldType
    ensures isList <==> |s| >= |fieldType| + 2 && s[|fieldType|..|fieldType| + 2] == "[]"
    ensures !isRequired <==> |s| > |fieldType| && s[|s| - 1] == '?'
  {
    fieldType + (if isList then "[]" else "") + (if isRequired then "" else "?")
  }

  /** A type name that does not itself end in a list or optional marker. */
  predicate PlainTypeName(t: string)
  {
    (|t| == 0 || t[|t| - 1] != '?') && (|t| < 2 || t[|t| - 2..] != "[]")
  }

  /** Reads a type label back into the type, the list flag and the required flag. */
  function ParseTypeLabel(s: string): (string, bool, bool)
  {
    var optional := |s| > 0 && s[|s| - 1] == '?';
    var rest := if optional then s[..|s| - 1] else s;
    var list := |rest| >= 2 && rest[|rest| - 2..] == "[]";
    (if list then rest[..|rest| - 2] else rest, list, !optional)
  }

  /** The label determines the field's type and flags, for plain type names. */
  lemma TypeLabelRoundTrip(fieldType: string, isList: bool, isRequired: bool)
    requires PlainTypeName(fieldType)
    ensures ParseTypeLabel(TypeLabel(fieldType, isList, isRequired)) == (fieldType, isList, isRequired)
  {
    var s := TypeLabel(fieldType, isList, isRequired);
    var rest := if isRequired then s else s[..|s| - 1];
    assert rest == fieldType + (if isList then "[]" else "");
    if isList {
      assert rest[|rest| - 2..] == "[]";
      assert rest[..|rest| - 2] == fieldType;
    }
  }

  /** The store's map from table name to position. */
  class PositionStore {
    var positions: map<string, Point>

    constructor ()
      ensures positions == map[]
    {
      positions := map[];
    }
  }

  /** The card of one table: its name, the shared store, and the drag anchor
      (the startPosition ref). */
  class TableCard {
    const name: string
    const store: PositionStore
    var anchor: Option<Point>

    constructor (name: string, store: PositionStore)
      ensures this.name == name && this.store == store && anchor == None
    {
      this.name := name;
      this.store := store;
      anchor := None;
    }

    /** The card's state as a value. */
    function State(): Card
      reads this, store
    {
      Card(store.positions, anchor)
    }

    /** The position the card renders at. */
    function Position(): (p: Point)
      reads store
      ensures name !in store.positions ==> p == Origin
      ensures name in store.positions ==> p == store.positions[name]
    {
      PositionOf(store.positions, name)
    }

    /** onDragStart: snapshot the current position as the anchor. */
    method DragStart(id: string)
      modifies this
      ensures State() == DragStarted(old(State()), name, id)
      ensures id == name ==> anchor == Some(old(Position()))
      ensures id != name ==> anchor == old(anchor)
      ensures store.positions == old(store.positions)
    {
      if id != name {
        return;
      }
      anchor := Some(Position());
    }

    /** onDragMove: store anchor + delta / scale, with the scale read from the viewport. */
    method DragMove(id: string, dx: real, dy: real, view: Canvas.Viewport)
      requires id == name && anchor.Some? ==> view.scale != 0.0
      modifies store
      ensures State() == DragMoved(old(State()), name, id, dx, dy, view.scale)
      ensures id != name || anchor.None? ==> store.positions == old(store.positions)
      ensures id == name && anchor.Some? ==> Position() == DraggedTo(anchor.value, dx, dy, view.scale)
      ensures forall k :: k != name ==> PositionOf(store.positions, k) == PositionOf(old(store.positions), k)
    {
      if id != name || anchor.None? {
        return;
      }
      var start := anchor.value;
      store.positions := store.positions[name := Point(start.x + dx / view.scale, start.y + dy / view.scale)];
    }

    /** onRemove: removeTable for this table's name. */
    method Remove()
      modifies store
      ensures store.positions == Removed(old(store.positions), name)
      ensures Position() == Origin
    {
      store.positions := store.positions - {name};
    }
  }
}
