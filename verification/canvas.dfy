/**
 An abstract retained-mode drawing canvas in the manner of a Tk canvas
 widget: every drawn primitive is an item with a positive integer id, ids
 are handed out by a counter that only grows (so an id is never reused, not
 even after everything is deleted), and a later id is stacked above an
 earlier one.
 */
module Canvas {
  import opened Optional

  /** A pointer or item coordinate, in canvas pixels. */
  datatype Point = Point(x: int, y: int)

  /** A colour name or `#rrggbb` string, as the toolkit accepts it. */
  type Colour = string

  /** A font description: family name and point size. */
  datatype Font = Font(family: string, size: int)

  /** Canvas item ids. */
  type Id = nat

  /**
   A canvas item. An `Option` attribute that is `None` is an option the
   item was created without (or with the value `None`, which the toolkit
   binding drops), so the toolkit's default applies.
   */
  datatype Item =
    | LineItem(from: Point, to: Point, fill: Option<Colour>, width: Option<int>)
    | RectItem(corner1: Point, corner2: Point, fill: Option<Colour>, outline: Option<Colour>, width: Option<int>)
    | OvalItem(corner1: Point, corner2: Point, outline: Option<Colour>, width: Option<int>)
    | TextItem(at: Point, text: string, font: Font, fill: Option<Colour>)

  /** The items present, by id, and the id the next created item will get. */
  datatype Surface = Surface(items: map<Id, Item>, next: Id)

  /** Every present id is positive and was handed out before `next`. */
  ghost predicate IdsIssued(s: Surface) {
    && s.next >= 1
    && forall k :: k in s.items ==> 1 <= k < s.next
  }

  /** A canvas whose ids were all issued by its own counter. */
  type Canvas = s: Surface | IdsIssued(s) witness Surface(map[], 1)

  /** The empty canvas of a freshly created widget. */
  const Blank: Canvas := Surface(map[], 1)

  /**
   `c2` is `c1` with exactly one more item, `it`, under the id the counter
   of `c1` hands out next, which no present item has; the counter moves on.
   */
  ghost predicate AddsOne(c1: Canvas, c2: Canvas, it: Item) {
    && c1.next !in c1.items
    && c2.items == c1.items[c1.next := it]
    && c2.next == c1.next + 1
  }

  /**
   Creating an item: it gets the counter's id, which is fresh and above
   every present id, and nothing already on the canvas changes.
   */
  function Create(c: Canvas, it: Item): (r: (Canvas, Id))
    ensures r.1 == c.next && r.1 >= 1
    ensures AddsOne(c, r.0, it)
    ensures forall k :: k in c.items ==> k < r.1
  {
    (Surface(c.items[c.next := it], c.next + 1), c.next)
  }

  /** The items of `c` minus the one `id` names, if it names one. */
  function Without(items: map<Id, Item>, id: Option<Id>): (r: map<Id, Item>)
    ensures id.None? ==> r == items
    ensures id.Some? ==> r.Keys == items.Keys - {id.value}
    ensures forall k :: k in r ==> k in items && r[k] == items[k]
  {
    match id
    case None => items
    case Some(k) => items - {k}
  }

  /**
   Deleting by id: the item goes if present (an absent id is not an error),
   every other item stays as it was, and the counter does not move back.
   */
  function Delete(c: Canvas, id: Id): (r: Canvas)
    ensures id !in r.items
    ensures r.items.Keys == c.items.Keys - {id}
    ensures forall k :: k in r.items ==> r.items[k] == c.items[k]
    ensures r.next == c.next
  {
    Surface(c.items - {id}, c.next)
  }

  /** Deleting the tag `all`: no item is left, and no id is handed out again. */
  function DeleteAll(c: Canvas): (r: Canvas)
    ensures r.items == map[]
    ensures r.next == c.next
  {
    Surface(map[], c.next)
  }

  /**
   Setting an item's coordinates to one point. For a text item that moves
   its anchor; an absent id matches nothing and changes nothing; an item
   that needs two corners rejects a single point (`None`).
   */
  function Coords(c: Canvas, id: Id, p: Point): (r: Option<Canvas>)
    ensures id !in c.items ==> r == Some(c)
    ensures id in c.items && c.items[id].TextItem? ==>
              r.Some? && r.value.next == c.next
              && r.value.items == c.items[id := c.items[id].(at := p)]
    ensures id in c.items && !c.items[id].TextItem? ==> r.None?
  {
    if id !in c.items then Some(c)
    else match c.items[id]
      case TextItem(_, _, _, _) => Some(Surface(c.items[id := c.items[id].(at := p)], c.next))
      case _ => None
  }
}
