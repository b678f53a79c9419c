/** A room (a "piece"): a box with a floor area and a volume, owning three
    lists of envelope elements partitioned by kind. */
module Rooms {
  import opened Envelope

  /** The list an element kind is routed to. */
  datatype Slot = WallSlot | FloorSlot | CeilingSlot | NoSlot

  /** Routing of an element kind; an unknown kind has no list. */
  function SlotOf(kind: string): (s: Slot)
    ensures s == WallSlot <==> kind == WallKind
    ensures s == FloorSlot <==> kind == FloorKind
    ensures s == CeilingSlot <==> kind == CeilingKind
    ensures s == NoSlot <==> kind !in [WallKind, FloorKind, CeilingKind]
  {
    if kind == WallKind then WallSlot
    else if kind == FloorKind then FloorSlot
    else if kind == CeilingKind then CeilingSlot
    else NoSlot
  }

  class Room {
    const name: string
    const length: real
    const breadth: real
    const height: real
    const habitableArea: real
    const volume: real
    var walls: seq<Element>
    var floors: seq<Element>
    var ceilings: seq<Element>

    constructor (name: string, length: real, breadth: real, height: real)
      ensures this.name == name && this.length == length && this.breadth == breadth && this.height == height
      ensures habitableArea == length * breadth
      ensures volume == length * breadth * height
      ensures walls == [] && floors == [] && ceilings == []
    {
      this.name := name;
      this.length := length;
      this.breadth := breadth;
      this.height := height;
      var area := length * breadth;
      habitableArea := area;
      volume := area * height;
      walls, floors, ceilings := [], [], [];
    }

    /** Number of elements over the three lists. */
    function ElementCount(): nat
      reads this
    {
      |walls| + |floors| + |ceilings|
    }

    /** Appends `e` to the one list its kind selects; an element of an
        unknown kind is silently dropped. */
    method AddElement(e: Element)
      modifies this
      ensures walls == old(walls) + (if SlotOf(e.kind) == WallSlot then [e] else [])
      ensures floors == old(floors) + (if SlotOf(e.kind) == FloorSlot then [e] else [])
      ensures ceilings == old(ceilings) + (if SlotOf(e.kind) == CeilingSlot then [e] else [])
      ensures ElementCount() == old(ElementCount()) + (if SlotOf(e.kind) == NoSlot then 0 else 1)
    {
      if e.kind == WallKind { walls := walls + [e]; }
      else if e.kind == FloorKind { floors := floors + [e]; }
      else if e.kind == CeilingKind { ceilings := ceilings + [e]; }
    }
  }
}
