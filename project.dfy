/** The whole building (a "projet"): an ordered list of rooms, the
    itemised heat-loss report over every element, and the linear
    thermal-bridge estimate. */
module Building {
  import opened Glazing
  import opened Envelope
  import opened Rooms

  // Row categories of the report.
  const WallCategory: string := "Mur+Baies"
  const FloorCategory: string := "Plancher"
  const CeilingCategory: string := "Plafond"
  const BridgeCategory: string := "Ponts Thermiques"
  const BridgeLabel: string := "Global"

  // Linear transmittances (W/m.K) of the thermal-bridge heuristic.
  const PsiWindow: real := 0.1
  const PsiFloor: real := 0.35
  const PsiCeiling: real := 0.25

  /** The objects of a list of elements, as a set (the frame of the
      functions below). */
  ghost function ElementSet(es: seq<Element>): set<object>
  {
    if es == [] then {} else ElementSet(es[..|es| - 1]) + {es[|es| - 1]}
  }

  /** `ElementSet` holds the elements of the list and nothing else. */
  lemma {:induction false} ElementSetMembers(es: seq<Element>)
    ensures forall o :: o in ElementSet(es) ==> o in es
    decreases |es|
  {
    if es != [] {
      ElementSetMembers(es[..|es| - 1]);
    }
  }

  /** One line of the itemised report. */
  datatype Row = Row(element: string, category: string, watts: real)

  /** Sum of the "watts" column of a report. */
  function SumWatts(rows: seq<Row>): real
  {
    if rows == [] then 0.0 else SumWatts(rows[..|rows| - 1]) + rows[|rows| - 1].watts
  }

  lemma {:induction false} SumWattsAppend(rows: seq<Row>, row: Row)
    ensures SumWatts(rows + [row]) == SumWatts(rows) + row.watts
  {
    assert (rows + [row])[..|rows|] == rows;
  }

  /** The sum of a concatenation is the sum of the sums. */
  lemma {:induction false} SumWattsConcat(a: seq<Row>, b: seq<Row>)
    ensures SumWatts(a + b) == SumWatts(a) + SumWatts(b)
    decreases |b|
  {
    if b != [] {
      var b' := b[..|b| - 1];
      assert a + b == (a + b') + [b[|b| - 1]];
      assert b == b' + [b[|b| - 1]];
      SumWattsConcat(a, b');
      SumWattsAppend(b', b[|b| - 1]);
      SumWattsAppend(a + b', b[|b| - 1]);
    } else {
      assert a + b == a;
    }
  }

  /** Label of an element's row: the room name, a dash, the element name. */
  function Label(roomName: string, elementName: string): string
  {
    roomName + " - " + elementName
  }

  /** One row per element of `es`, in order, all in `category`. */
  function ElementRowsOf(roomName: string, es: seq<Element>, category: string): seq<Row>
    reads ElementSet(es)
  {
    if es == [] then []
    else
      var e := es[|es| - 1];
      ElementRowsOf(roomName, es[..|es| - 1], category) + [Row(Label(roomName, e.name), category, e.HeatLoss())]
  }

  /** There is one row per element. */
  lemma {:induction false} ElementRowsOfLength(roomName: string, es: seq<Element>, category: string)
    ensures |ElementRowsOf(roomName, es, category)| == |es|
    decreases |es|
  {
    if es != [] {
      ElementRowsOfLength(roomName, es[..|es| - 1], category);
    }
  }

  /** The `k`-th row of `ElementRowsOf` is the row of the `k`-th element. */
  lemma {:induction false} ElementRowsOfAt(roomName: string, es: seq<Element>, category: string, k: nat)
    requires k < |es|
    ensures |ElementRowsOf(roomName, es, category)| == |es|
    ensures ElementRowsOf(roomName, es, category)[k] == Row(Label(roomName, es[k].name), category, es[k].HeatLoss())
    decreases |es|
  {
    if k < |es| - 1 {
      ElementRowsOfAt(roomName, es[..|es| - 1], category, k);
    } else if |es| > 1 {
      ElementRowsOfAt(roomName, es[..|es| - 1], category, 0);
    }
  }

  /** Sum of the heat losses of a list of elements. */
  function ElementsLoss(es: seq<Element>): real
    reads ElementSet(es)
  {
    if es == [] then 0.0 else ElementsLoss(es[..|es| - 1]) + es[|es| - 1].HeatLoss()
  }

  lemma {:induction false} ElementsLossConcat(a: seq<Element>, b: seq<Element>)
    ensures ElementsLoss(a + b) == ElementsLoss(a) + ElementsLoss(b)
    decreases |b|
  {
    if b != [] {
      var b' := b[..|b| - 1];
      assert (a + b)[..|a + b| - 1] == a + b';
      assert (a + b)[|a + b| - 1] == b[|b| - 1];
      ElementsLossConcat(a, b');
    } else {
      assert a + b == a;
    }
  }

  /** The rows of a list of elements add up to the elements' losses. */
  lemma {:induction false} ElementRowsOfSum(roomName: string, es: seq<Element>, category: string)
    ensures SumWatts(ElementRowsOf(roomName, es, category)) == ElementsLoss(es)
    decreases |es|
  {
    if es != [] {
      var e := es[|es| - 1];
      ElementRowsOfSum(roomName, es[..|es| - 1], category);
      SumWattsAppend(ElementRowsOf(roomName, es[..|es| - 1], category), Row(Label(roomName, e.name), category, e.HeatLoss()));
    }
  }

  /** A room's elements in report order: walls, then floors, then ceilings. */
  function RoomElements(r: Room): seq<Element>
    reads r
  {
    r.walls + r.floors + r.ceilings
  }

  /** A room's rows in report order: walls, then floors, then ceilings. */
  function RoomRows(r: Room): seq<Row>
    reads r, ElementSet(r.walls), ElementSet(r.floors), ElementSet(r.ceilings)
  {
    ElementRowsOf(r.name, r.walls, WallCategory)
      + ElementRowsOf(r.name, r.floors, FloorCategory)
      + ElementRowsOf(r.name, r.ceilings, CeilingCategory)
  }

  /** Every element of every room, rooms in order, each in report order. */
  function AllElements(rooms: seq<Room>): seq<Element>
    reads rooms
  {
    if rooms == [] then [] else AllElements(rooms[..|rooms| - 1]) + RoomElements(rooms[|rooms| - 1])
  }

  /** Every wall of every room, rooms in order. */
  function AllWalls(rooms: seq<Room>): seq<Element>
    reads rooms
  {
    if rooms == [] then [] else AllWalls(rooms[..|rooms| - 1]) + rooms[|rooms| - 1].walls
  }

  /** Every room and every element the report reads. */
  ghost function Footprint(rooms: seq<Room>): set<object>
    reads rooms
  {
    if rooms == [] then {}
    else
      var r := rooms[|rooms| - 1];
      Footprint(rooms[..|rooms| - 1]) + {r} + ElementSet(r.walls) + ElementSet(r.floors) + ElementSet(r.ceilings)
  }

  /** The element rows of the report, one per element. */
  function ElementRows(rooms: seq<Room>): seq<Row>
    reads rooms, Footprint(rooms)
  {
    if rooms == [] then [] else ElementRows(rooms[..|rooms| - 1]) + RoomRows(rooms[|rooms| - 1])
  }

  /** Thermal-bridge term of a list of openings: perimeter × ψ each. */
  function PerimeterBridge(gs: seq<GlazingUnit>): real
  {
    if gs == [] then 0.0 else PerimeterBridge(gs[..|gs| - 1]) + gs[|gs| - 1].Perimeter() * PsiWindow
  }

  /** Does a contact count as an exposed junction for the length term? */
  predicate IsExposed(contact: string)
  {
    contact in [Outdoor, Unheated]
  }

  /** Window-perimeter term over a list of walls: the openings of every
      wall count, whatever its contact. */
  function WindowBridge(ws: seq<Element>): real
    reads ElementSet(ws)
  {
    if ws == [] then 0.0 else WindowBridge(ws[..|ws| - 1]) + PerimeterBridge(ws[|ws| - 1].glazings)
  }

  /** Total length of the exposed walls of a list. */
  function ExposedLength(ws: seq<Element>): real
  {
    if ws == [] then 0.0
    else ExposedLength(ws[..|ws| - 1]) + (if IsExposed(ws[|ws| - 1].contact) then ws[|ws| - 1].length else 0.0)
  }

  /** The thermal-bridge estimate of a list of walls. */
  function WallsBridge(ws: seq<Element>): real
    reads ElementSet(ws)
  {
    WindowBridge(ws) + ExposedLength(ws) * PsiFloor + ExposedLength(ws) * PsiCeiling
  }

  /** The walls gathered by `AllWalls` are walls of the rooms. */
  lemma {:induction false} AllWallsMembers(rooms: seq<Room>)
    ensures forall w :: w in AllWalls(rooms) ==> exists r :: r in rooms && w in r.walls
    decreases |rooms|
  {
    if rooms != [] {
      AllWallsMembers(rooms[..|rooms| - 1]);
    }
  }

  /** The objects of a concatenation are those of its two parts. */
  lemma {:induction false} ElementSetConcat(a: seq<Element>, b: seq<Element>)
    ensures ElementSet(a + b) == ElementSet(a) + ElementSet(b)
    decreases |b|
  {
    if b != [] {
      var b' := b[..|b| - 1];
      assert (a + b)[..|a + b| - 1] == a + b';
      ElementSetConcat(a, b');
    } else {
      assert a + b == a;
    }
  }

  /** The walls of the rooms are part of the rooms' footprint. */
  lemma {:induction false} WallsInFootprint(rooms: seq<Room>)
    ensures ElementSet(AllWalls(rooms)) <= Footprint(rooms)
    decreases |rooms|
  {
    if rooms != [] {
      var front := rooms[..|rooms| - 1];
      WallsInFootprint(front);
      ElementSetConcat(AllWalls(front), rooms[|rooms| - 1].walls);
    }
  }

  /** The thermal-bridge estimate of a building: only walls take part. */
  function ThermalBridges(rooms: seq<Room>): real
    reads rooms, Footprint(rooms)
  {
    WallsInFootprint(rooms);
    WallsBridge(AllWalls(rooms))
  }

  /** The full report: the element rows, then one thermal-bridge row. */
  function Report(rooms: seq<Room>): seq<Row>
    reads rooms, Footprint(rooms)
  {
    ElementRows(rooms) + [Row(BridgeLabel, BridgeCategory, ThermalBridges(rooms))]
  }

  /** A room's rows read nothing but the room and its elements. */
  twostate lemma RoomRowsFramed(r: Room)
    requires unchanged(r) && unchanged(r.walls) && unchanged(r.floors) && unchanged(r.ceilings)
    ensures RoomRows(r) == old(RoomRows(r))
  {
    ElementSetMembers(r.walls);
    ElementSetMembers(r.floors);
    ElementSetMembers(r.ceilings);
  }

  /** The element rows read nothing but the rooms and their elements. */
  twostate lemma ElementRowsFramed(rooms: seq<Room>)
    requires unchanged(rooms)
    requires forall r :: r in rooms ==> unchanged(r.walls) && unchanged(r.floors) && unchanged(r.ceilings)
    ensures ElementRows(rooms) == old(ElementRows(rooms))
    decreases |rooms|
  {
    if rooms != [] {
      var front, last := rooms[..|rooms| - 1], rooms[|rooms| - 1];
      assert forall r :: r in front ==> r in rooms;
      assert last in rooms;
      ElementRowsFramed(front);
      RoomRowsFramed(last);
    }
  }

  /** The thermal-bridge estimate reads nothing but the rooms and their
      walls. */
  twostate lemma ThermalBridgesFramed(rooms: seq<Room>)
    requires unchanged(rooms)
    requires forall r :: r in rooms ==> unchanged(r.walls)
    ensures ThermalBridges(rooms) == old(ThermalBridges(rooms))
  {
    assert AllWalls(rooms) == old(AllWalls(rooms));
    AllWallsMembers(rooms);
    ElementSetMembers(AllWalls(rooms));
  }

  /** The report reads nothing but the rooms and their elements. */
  twostate lemma ReportFramed(rooms: seq<Room>)
    requires unchanged(rooms)
    requires forall r :: r in rooms ==> unchanged(r.walls) && unchanged(r.floors) && unchanged(r.ceilings)
    ensures Report(rooms) == old(Report(rooms))
  {
    ElementRowsFramed(rooms);
    ThermalBridgesFramed(rooms);
  }

  /** Floors and ceilings never enter the estimate: buildings whose rooms
      have the same walls, room by room, get the same bridges. */
  lemma {:induction false} BridgesIgnoreFloorsAndCeilings(rooms: seq<Room>, others: seq<Room>)
    requires |rooms| == |others|
    requires forall i :: 0 <= i < |rooms| ==> rooms[i].walls == others[i].walls
    ensures AllWalls(rooms) == AllWalls(others)
    ensures ThermalBridges(rooms) == ThermalBridges(others)
    decreases |rooms|
  {
    if rooms != [] {
      BridgesIgnoreFloorsAndCeilings(rooms[..|rooms| - 1], others[..|others| - 1]);
    }
  }

  /** One more wall adds the perimeter term of its openings whatever its
      contact, and its length at ψ_floor + ψ_ceiling only when exposed. */
  lemma {:induction false} WallsBridgeAppend(ws: seq<Element>, w: Element)
    ensures WallsBridge(ws + [w]) == WallsBridge(ws) + PerimeterBridge(w.glazings)
                                   + (if IsExposed(w.contact) then w.length * (PsiFloor + PsiCeiling) else 0.0)
  {
    assert (ws + [w])[..|ws|] == ws;
  }

  /** Openings with non-negative dimensions give a non-negative perimeter term. */
  lemma {:induction false} PerimeterBridgeNonNegative(gs: seq<GlazingUnit>)
    requires forall i :: 0 <= i < |gs| ==> gs[i].width >= 0.0 && gs[i].height >= 0.0
    ensures PerimeterBridge(gs) >= 0.0
    decreases |gs|
  {
    if gs != [] {
      PerimeterBridgeNonNegative(gs[..|gs| - 1]);
    }
  }

  /** Walls and openings with non-negative dimensions give a non-negative estimate. */
  lemma {:induction false} WallsBridgeNonNegative(ws: seq<Element>)
    requires forall i :: 0 <= i < |ws| ==> ws[i].length >= 0.0
    requires forall i, j :: 0 <= i < |ws| && 0 <= j < |ws[i].glazings| ==>
               ws[i].glazings[j].width >= 0.0 && ws[i].glazings[j].height >= 0.0
    ensures WindowBridge(ws) >= 0.0 && ExposedLength(ws) >= 0.0
    ensures WallsBridge(ws) >= 0.0
    decreases |ws|
  {
    if ws != [] {
      var w := ws[|ws| - 1];
      WallsBridgeNonNegative(ws[..|ws| - 1]);
      assert forall j :: 0 <= j < |w.glazings| ==> w.glazings[j].width >= 0.0 && w.glazings[j].height >= 0.0;
      PerimeterBridgeNonNegative(w.glazings);
    }
  }

  /** Index of the first row of room `i` in the report: the number of
      elements of the rooms before it. */
  function RoomOffset(rooms: seq<Room>, i: nat): nat
    requires i <= |rooms|
    reads rooms
  {
    |AllElements(rooms[..i])|
  }

  /** A room has as many rows as elements. */
  lemma RoomRowsLength(r: Room)
    ensures |RoomRows(r)| == |r.walls| + |r.floors| + |r.ceilings| == |RoomElements(r)|
  {
    ElementRowsOfLength(r.name, r.walls, WallCategory);
    ElementRowsOfLength(r.name, r.floors, FloorCategory);
    ElementRowsOfLength(r.name, r.ceilings, CeilingCategory);
  }

  /** There are as many element rows as elements. */
  lemma {:induction false} ElementRowsLength(rooms: seq<Room>)
    ensures |ElementRows(rooms)| == |AllElements(rooms)|
    decreases |rooms|
  {
    if rooms != [] {
      ElementRowsLength(rooms[..|rooms| - 1]);
      RoomRowsLength(rooms[|rooms| - 1]);
    }
  }

  /** The rows of room `i` sit in the element rows right after those of the
      rooms before it. */
  lemma {:induction false} RoomRowsInPlace(rooms: seq<Room>, i: nat)
    requires i < |rooms|
    ensures |RoomRows(rooms[i])| == |rooms[i].walls| + |rooms[i].floors| + |rooms[i].ceilings|
    ensures RoomOffset(rooms, i) + |RoomRows(rooms[i])| <= |ElementRows(rooms)| == |AllElements(rooms)|
    ensures forall m :: 0 <= m < |RoomRows(rooms[i])| ==>
              ElementRows(rooms)[RoomOffset(rooms, i) + m] == RoomRows(rooms[i])[m]
    decreases |rooms|
  {
    var front, last := rooms[..|rooms| - 1], rooms[|rooms| - 1];
    ElementRowsLength(front);
    ElementRowsLength(rooms);
    RoomRowsLength(rooms[i]);
    var rows := ElementRows(rooms);
    assert rows == ElementRows(front) + RoomRows(last);
    if i == |rooms| - 1 {
      assert rooms[..i] == front;
    } else {
      RoomRowsInPlace(front, i);
      assert front[..i] == rooms[..i];
      assert front[i] == rooms[i];
      forall m | 0 <= m < |RoomRows(rooms[i])|
        ensures rows[RoomOffset(rooms, i) + m] == RoomRows(rooms[i])[m]
      {
        assert rows[RoomOffset(rooms, i) + m] == ElementRows(front)[RoomOffset(front, i) + m];
      }
    }
  }

  /** Row `m` of room `i` sits at `RoomOffset(rooms, i) + m` in the report:
      the room's walls come first (category "Mur+Baies"), then its floors
      ("Plancher"), then its ceilings ("Plafond"); each row is labelled
      "room - element" and carries that element's loss. */
  lemma ReportRoomRow(rooms: seq<Room>, i: nat, m: nat)
    requires i < |rooms|
    ensures RoomOffset(rooms, i) + |rooms[i].walls| + |rooms[i].floors| + |rooms[i].ceilings| < |Report(rooms)|
    ensures m < |rooms[i].walls| ==>
              Report(rooms)[RoomOffset(rooms, i) + m]
              == Row(Label(rooms[i].name, rooms[i].walls[m].name), WallCategory, rooms[i].walls[m].HeatLoss())
    ensures |rooms[i].walls| <= m < |rooms[i].walls| + |rooms[i].floors| ==>
              Report(rooms)[RoomOffset(rooms, i) + m]
              == Row(Label(rooms[i].name, rooms[i].floors[m - |rooms[i].walls|].name), FloorCategory,
                     rooms[i].floors[m - |rooms[i].walls|].HeatLoss())
    ensures |rooms[i].walls| + |rooms[i].floors| <= m < |rooms[i].walls| + |rooms[i].floors| + |rooms[i].ceilings| ==>
              Report(rooms)[RoomOffset(rooms, i) + m]
              == Row(Label(rooms[i].name, rooms[i].ceilings[m - |rooms[i].walls| - |rooms[i].floors|].name),
                     CeilingCategory, rooms[i].ceilings[m - |rooms[i].walls| - |rooms[i].floors|].HeatLoss())
  {
    var r := rooms[i];
    var nw, nf := |r.walls|, |r.floors|;
    var rw := ElementRowsOf(r.name, r.walls, WallCategory);
    var rf := ElementRowsOf(r.name, r.floors, FloorCategory);
    var rc := ElementRowsOf(r.name, r.ceilings, CeilingCategory);
    RoomRowsInPlace(rooms, i);
    ElementRowsOfLength(r.name, r.walls, WallCategory);
    ElementRowsOfLength(r.name, r.floors, FloorCategory);
    ElementRowsOfLength(r.name, r.ceilings, CeilingCategory);
    if m < nw + nf + |r.ceilings| {
      assert Report(rooms)[RoomOffset(rooms, i) + m] == RoomRows(r)[m];
      if m < nw {
        ElementRowsOfAt(r.name, r.walls, WallCategory, m);
        assert RoomRows(r)[m] == rw[m];
      } else if m < nw + nf {
        ElementRowsOfAt(r.name, r.floors, FloorCategory, m - nw);
        assert RoomRows(r)[m] == rf[m - nw];
      } else {
        ElementRowsOfAt(r.name, r.ceilings, CeilingCategory, m - nw - nf);
        assert RoomRows(r)[m] == rc[m - nw - nf];
      }
    }
  }

  /** The report has one row per element, in order, each carrying the loss
      of the element at the same place, and the bridge row last. */
  lemma {:induction false} ReportShape(rooms: seq<Room>)
    ensures |ElementRows(rooms)| == |AllElements(rooms)|
    ensures |Report(rooms)| == |AllElements(rooms)| + 1
    ensures Report(rooms)[|AllElements(rooms)|] == Row(BridgeLabel, BridgeCategory, ThermalBridges(rooms))
    ensures forall k :: 0 <= k < |AllElements(rooms)| ==> Report(rooms)[k].watts == AllElements(rooms)[k].HeatLoss()
    decreases |rooms|
  {
    if rooms != [] {
      var front, r := rooms[..|rooms| - 1], rooms[|rooms| - 1];
      ReportShape(front);
      RoomRowsWatts(r);
      forall k | 0 <= k < |AllElements(rooms)|
        ensures ElementRows(rooms)[k].watts == AllElements(rooms)[k].HeatLoss()
      {
        if k < |AllElements(front)| {
          assert ElementRows(rooms)[k] == ElementRows(front)[k];
          assert AllElements(rooms)[k] == AllElements(front)[k];
          assert Report(front)[k] == ElementRows(front)[k];
        } else {
          var m := k - |AllElements(front)|;
          assert ElementRows(rooms)[k] == RoomRows(r)[m];
          assert AllElements(rooms)[k] == RoomElements(r)[m];
        }
      }
    }
  }

  /** The category of an element row: walls, floors or ceilings. */
  predicate IsElementCategory(category: string)
  {
    category == WallCategory || category == FloorCategory || category == CeilingCategory
  }

  /** Every row of `ElementRowsOf` carries the category it was given. */
  lemma {:induction false} ElementRowsOfCategory(roomName: string, es: seq<Element>, category: string)
    ensures forall k :: 0 <= k < |ElementRowsOf(roomName, es, category)| ==>
              ElementRowsOf(roomName, es, category)[k].category == category
    decreases |es|
  {
    if es != [] {
      ElementRowsOfCategory(roomName, es[..|es| - 1], category);
    }
  }

  /** Every element row falls in one of the three element categories. */
  lemma {:induction false} ElementRowsCategories(rooms: seq<Room>)
    ensures forall k :: 0 <= k < |ElementRows(rooms)| ==> IsElementCategory(ElementRows(rooms)[k].category)
    decreases |rooms|
  {
    if rooms != [] {
      var front, r := rooms[..|rooms| - 1], rooms[|rooms| - 1];
      ElementRowsCategories(front);
      ElementRowsOfCategory(r.name, r.walls, WallCategory);
      ElementRowsOfCategory(r.name, r.floors, FloorCategory);
      ElementRowsOfCategory(r.name, r.ceilings, CeilingCategory);
      var rw := ElementRowsOf(r.name, r.walls, WallCategory);
      var rf := ElementRowsOf(r.name, r.floors, FloorCategory);
      forall k | 0 <= k < |ElementRows(rooms)|
        ensures IsElementCategory(ElementRows(rooms)[k].category)
      {
        var n := |ElementRows(front)|;
        if k < n {
          assert ElementRows(rooms)[k] == ElementRows(front)[k];
        } else {
          var m := k - n;
          assert ElementRows(rooms)[k] == RoomRows(r)[m];
          if m < |rw| {
            assert RoomRows(r)[m] == rw[m];
          } else if m < |rw| + |rf| {
            assert RoomRows(r)[m] == rf[m - |rw|];
          } else {
            assert RoomRows(r)[m] == ElementRowsOf(r.name, r.ceilings, CeilingCategory)[m - |rw| - |rf|];
          }
        }
      }
    }
  }

  /** The report has exactly one thermal-bridge row, the last one; every
      other row is a wall, floor or ceiling row. */
  lemma ReportCategories(rooms: seq<Room>)
    ensures |Report(rooms)| == |AllElements(rooms)| + 1
    ensures forall k :: 0 <= k < |AllElements(rooms)| ==> IsElementCategory(Report(rooms)[k].category)
    ensures forall k :: 0 <= k < |Report(rooms)| ==> (Report(rooms)[k].category == BridgeCategory <==> k == |AllElements(rooms)|)
  {
    ReportShape(rooms);
    ElementRowsCategories(rooms);
    forall k | 0 <= k < |AllElements(rooms)|
      ensures IsElementCategory(Report(rooms)[k].category)
    {
      assert Report(rooms)[k] == ElementRows(rooms)[k];
    }
  }

  /** A room contributes one row per element, in the order of its elements:
      its walls in category "Mur+Baies", then its floors in "Plancher", then
      its ceilings in "Plafond", each labelled "room - element" and carrying
      that element's loss. */
  lemma RoomRowsShape(r: Room)
    ensures |RoomRows(r)| == |r.walls| + |r.floors| + |r.ceilings| == |RoomElements(r)|
    ensures forall m :: 0 <= m < |r.walls| ==>
              RoomRows(r)[m] == Row(Label(r.name, r.walls[m].name), WallCategory, r.walls[m].HeatLoss())
    ensures forall m :: 0 <= m < |r.floors| ==>
              RoomRows(r)[|r.walls| + m]
              == Row(Label(r.name, r.floors[m].name), FloorCategory, r.floors[m].HeatLoss())
    ensures forall m :: 0 <= m < |r.ceilings| ==>
              RoomRows(r)[|r.walls| + |r.floors| + m]
              == Row(Label(r.name, r.ceilings[m].name), CeilingCategory, r.ceilings[m].HeatLoss())
  {
    var rw := ElementRowsOf(r.name, r.walls, WallCategory);
    var rf := ElementRowsOf(r.name, r.floors, FloorCategory);
    var rc := ElementRowsOf(r.name, r.ceilings, CeilingCategory);
    ElementRowsOfLength(r.name, r.walls, WallCategory);
    ElementRowsOfLength(r.name, r.floors, FloorCategory);
    ElementRowsOfLength(r.name, r.ceilings, CeilingCategory);
    assert RoomRows(r) == rw + rf + rc;
    forall m | 0 <= m < |r.walls|
      ensures RoomRows(r)[m] == Row(Label(r.name, r.walls[m].name), WallCategory, r.walls[m].HeatLoss())
    {
      ElementRowsOfAt(r.name, r.walls, WallCategory, m);
      assert RoomRows(r)[m] == rw[m];
    }
    forall m | 0 <= m < |r.floors|
      ensures RoomRows(r)[|r.walls| + m] == Row(Label(r.name, r.floors[m].name), FloorCategory, r.floors[m].HeatLoss())
    {
      ElementRowsOfAt(r.name, r.floors, FloorCategory, m);
      assert RoomRows(r)[|r.walls| + m] == rf[m];
    }
    forall m | 0 <= m < |r.ceilings|
      ensures RoomRows(r)[|r.walls| + |r.floors| + m] == Row(Label(r.name, r.ceilings[m].name), CeilingCategory, r.ceilings[m].HeatLoss())
    {
      ElementRowsOfAt(r.name, r.ceilings, CeilingCategory, m);
      assert RoomRows(r)[|r.walls| + |r.floors| + m] == rc[m];
    }
  }

  /** Each row of a room carries the loss of the element at the same place. */
  lemma RoomRowsWatts(r: Room)
    ensures |RoomRows(r)| == |RoomElements(r)|
    ensures forall m :: 0 <= m < |RoomElements(r)| ==> RoomRows(r)[m].watts == RoomElements(r)[m].HeatLoss()
  {
    var nw, nf := |r.walls|, |r.floors|;
    RoomRowsShape(r);
    forall m | 0 <= m < |RoomElements(r)|
      ensures RoomRows(r)[m].watts == RoomElements(r)[m].HeatLoss()
    {
      if m < nw {
        assert RoomElements(r)[m] == r.walls[m];
      } else if m < nw + nf {
        assert RoomElements(r)[m] == r.floors[m - nw];
        assert RoomRows(r)[nw + (m - nw)] == RoomRows(r)[m];
      } else {
        assert RoomElements(r)[m] == r.ceilings[m - nw - nf];
        assert RoomRows(r)[nw + nf + (m - nw - nf)] == RoomRows(r)[m];
      }
    }
  }

  /** A room's rows add up to the losses of its elements. */
  lemma RoomRowsSum(r: Room)
    ensures SumWatts(RoomRows(r)) == ElementsLoss(RoomElements(r))
  {
    var rw := ElementRowsOf(r.name, r.walls, WallCategory);
    var rf := ElementRowsOf(r.name, r.floors, FloorCategory);
    var rc := ElementRowsOf(r.name, r.ceilings, CeilingCategory);
    ElementRowsOfSum(r.name, r.walls, WallCategory);
    ElementRowsOfSum(r.name, r.floors, FloorCategory);
    ElementRowsOfSum(r.name, r.ceilings, CeilingCategory);
    SumWattsConcat(rw, rf);
    SumWattsConcat(rw + rf, rc);
    ElementsLossConcat(r.walls, r.floors);
    ElementsLossConcat(r.walls + r.floors, r.ceilings);
  }

  /** The element rows add up to the elements' losses. */
  lemma {:induction false} ElementRowsSum(rooms: seq<Room>)
    ensures SumWatts(ElementRows(rooms)) == ElementsLoss(AllElements(rooms))
    decreases |rooms|
  {
    if rooms != [] {
      var front, r := rooms[..|rooms| - 1], rooms[|rooms| - 1];
      ElementRowsSum(front);
      RoomRowsSum(r);
      SumWattsConcat(ElementRows(front), RoomRows(r));
      ElementsLossConcat(AllElements(front), RoomElements(r));
    }
  }

  /** The report's rows add up to the elements' losses plus the bridges. */
  lemma {:induction false} ReportTotal(rooms: seq<Room>)
    ensures SumWatts(ElementRows(rooms)) == ElementsLoss(AllElements(rooms))
    ensures SumWatts(Report(rooms)) == ElementsLoss(AllElements(rooms)) + ThermalBridges(rooms)
  {
    ElementRowsSum(rooms);
    SumWattsAppend(ElementRows(rooms), Row(BridgeLabel, BridgeCategory, ThermalBridges(rooms)));
  }

  /** One more element of a list adds its row and its loss. */
  lemma {:induction false} ElementListStep(roomName: string, es: seq<Element>, category: string, j: nat)
    requires j < |es|
    ensures ElementRowsOf(roomName, es[..j + 1], category)
         == ElementRowsOf(roomName, es[..j], category) + [Row(Label(roomName, es[j].name), category, es[j].HeatLoss())]
    ensures ElementsLoss(es[..j + 1]) == ElementsLoss(es[..j]) + es[j].HeatLoss()
  {
    assert es[..j + 1][..j] == es[..j];
  }

  /** Concatenation is associative; the loop steps below use it as one
      fact. */
  lemma AppendAssociative<T>(a: seq<T>, b: seq<T>, c: seq<T>)
    ensures a + b + c == a + (b + c)
  {
  }

  /** Adding one room to the processed prefix appends that room's rows
      and adds its elements' losses, walls then floors then ceilings. */
  lemma {:induction false} RoomStep(rooms: seq<Room>, i: nat)
    requires i < |rooms|
    ensures ElementRows(rooms[..i + 1]) == ElementRows(rooms[..i]) + RoomRows(rooms[i])
    ensures ElementsLoss(AllElements(rooms[..i + 1]))
         == ElementsLoss(AllElements(rooms[..i])) + ElementsLoss(rooms[i].walls)
            + ElementsLoss(rooms[i].floors) + ElementsLoss(rooms[i].ceilings)
  {
    var r := rooms[i];
    assert rooms[..i + 1][..i] == rooms[..i];
    ElementsLossConcat(r.walls, r.floors);
    ElementsLossConcat(r.walls + r.floors, r.ceilings);
    ElementsLossConcat(AllElements(rooms[..i]), RoomElements(r));
  }

  class Project {
    var rooms: seq<Room>
    // Descriptive metadata, not read by any formula.
    var altitude: int
    var climateZone: string
    var constructionYear: int

    constructor ()
      ensures rooms == [] && altitude == 0 && climateZone == "H1" && constructionYear == 1990
    {
      rooms := [];
      altitude := 0;
      climateZone := "H1";
      constructionYear := 1990;
    }

    method AddRoom(r: Room)
      modifies this
      ensures rooms == old(rooms) + [r]
      ensures altitude == old(altitude) && climateZone == old(climateZone)
      ensures constructionYear == old(constructionYear)
    {
      rooms := rooms + [r];
    }

    /** Thermal-bridge estimate, accumulated wall by wall and opening by
        opening over every room. */
    method EstimateThermalBridges() returns (bridges: real)
      ensures bridges == ThermalBridges(rooms)
    {
      var losses := 0.0;
      var exposedLength := 0.0;
      var i := 0;
      while i < |rooms|
        invariant 0 <= i <= |rooms|
        invariant losses == WindowBridge(AllWalls(rooms[..i]))
        invariant exposedLength == ExposedLength(AllWalls(rooms[..i]))
      {
        var piece := rooms[i];
        ghost var done := AllWalls(rooms[..i]);
        assert done + piece.walls[..0] == done;
        var j := 0;
        while j < |piece.walls|
          invariant 0 <= j <= |piece.walls|
          invariant losses == WindowBridge(done + piece.walls[..j])
          invariant exposedLength == ExposedLength(done + piece.walls[..j])
        {
          var wall := piece.walls[j];
          ghost var before := done + piece.walls[..j];
          var k := 0;
          while k < |wall.glazings|
            invariant 0 <= k <= |wall.glazings|
            invariant losses == WindowBridge(before) + PerimeterBridge(wall.glazings[..k])
          {
            var g := wall.glazings[k];
            assert wall.glazings[..k + 1][..k] == wall.glazings[..k];
            losses := losses + g.Perimeter() * PsiWindow;
            k := k + 1;
          }
          assert wall.glazings[..k] == wall.glazings;
          if IsExposed(wall.contact) {
            exposedLength := exposedLength + wall.length;
          }
          assert (before + [wall])[..|before|] == before;
          assert done + piece.walls[..j + 1] == before + [wall];
          j := j + 1;
        }
        assert piece.walls[..j] == piece.walls;
        assert rooms[..i + 1][..i] == rooms[..i];
        i := i + 1;
      }
      assert rooms[..i] == rooms;
      losses := losses + exposedLength * PsiFloor;
      losses := losses + exposedLength * PsiCeiling;
      bridges := losses;
    }

    /** Appends the rows of one room, walls then floors then ceilings, to
        `details`, adding each element's loss to the running total. */
    method RoomLines(piece: Room, total0: real, details0: seq<Row>) returns (total: real, details: seq<Row>)
      requires total0 == SumWatts(details0)
      ensures details == details0 + RoomRows(piece)
      ensures total == SumWatts(details)
    {
      total, details := total0, details0;
      var j;
      ghost var rowsWalls := details;
      j := 0;
      while j < |piece.walls|
        invariant 0 <= j <= |piece.walls|
        invariant details == rowsWalls + ElementRowsOf(piece.name, piece.walls[..j], WallCategory)
        invariant total == SumWatts(details)
      {
        var e := piece.walls[j];
        var d := e.HeatLoss();
        var row := Row(Label(piece.name, e.name), WallCategory, d);
        assert SumWatts(details + [row]) == SumWatts(details) + d by {
          SumWattsAppend(details, row);
        }
        total := total + d;
        details := details + [row];
        assert details == rowsWalls + ElementRowsOf(piece.name, piece.walls[..j + 1], WallCategory) by {
          ElementListStep(piece.name, piece.walls, WallCategory, j);
          AppendAssociative(rowsWalls, ElementRowsOf(piece.name, piece.walls[..j], WallCategory), [row]);
        }
        j := j + 1;
      }
      assert piece.walls[..j] == piece.walls;
      ghost var rowsFloors := details;
      j := 0;
      while j < |piece.floors|
        invariant 0 <= j <= |piece.floors|
        invariant details == rowsFloors + ElementRowsOf(piece.name, piece.floors[..j], FloorCategory)
        invariant total == SumWatts(details)
      {
        var e := piece.floors[j];
        var d := e.HeatLoss();
        var row := Row(Label(piece.name, e.name), FloorCategory, d);
        assert SumWatts(details + [row]) == SumWatts(details) + d by {
          SumWattsAppend(details, row);
        }
        total := total + d;
        details := details + [row];
        assert details == rowsFloors + ElementRowsOf(piece.name, piece.floors[..j + 1], FloorCategory) by {
          ElementListStep(piece.name, piece.floors, FloorCategory, j);
          AppendAssociative(rowsFloors, ElementRowsOf(piece.name, piece.floors[..j], FloorCategory), [row]);
        }
        j := j + 1;
      }
      assert piece.floors[..j] == piece.floors;
      ghost var rowsCeilings := details;
      j := 0;
      while j < |piece.ceilings|
        invariant 0 <= j <= |piece.ceilings|
        invariant details == rowsCeilings + ElementRowsOf(piece.name, piece.ceilings[..j], CeilingCategory)
        invariant total == SumWatts(details)
      {
        var e := piece.ceilings[j];
        var d := e.HeatLoss();
        var row := Row(Label(piece.name, e.name), CeilingCategory, d);
        assert SumWatts(details + [row]) == SumWatts(details) + d by {
          SumWattsAppend(details, row);
        }
        total := total + d;
        details := details + [row];
        assert details == rowsCeilings + ElementRowsOf(piece.name, piece.ceilings[..j + 1], CeilingCategory) by {
          ElementListStep(piece.name, piece.ceilings, CeilingCategory, j);
          AppendAssociative(rowsCeilings, ElementRowsOf(piece.name, piece.ceilings[..j], CeilingCategory), [row]);
        }
        j := j + 1;
      }
      assert piece.ceilings[..j] == piece.ceilings;
      assert details == details0 + RoomRows(piece) by {
        var rw := ElementRowsOf(piece.name, piece.walls, WallCategory);
        var rf := ElementRowsOf(piece.name, piece.floors, FloorCategory);
        var rc := ElementRowsOf(piece.name, piece.ceilings, CeilingCategory);
        AppendAssociative(details0, rw, rf);
        AppendAssociative(details0, rw + rf, rc);
      }
    }

    /** The element rows of every room, in order, and their running total. */
    method ElementLinesOfRooms() returns (total: real, details: seq<Row>)
      ensures details == ElementRows(rooms)
      ensures total == SumWatts(details)
    {
      total, details := 0.0, [];
      var i := 0;
      while i < |rooms|
        invariant 0 <= i <= |rooms|
        invariant details == ElementRows(rooms[..i])
        invariant total == SumWatts(details)
      {
        ghost var prefix := details;
        label before:
        total, details := RoomLines(rooms[i], total, details);
        assert ElementRows(rooms[..i]) == prefix by {
          ElementRowsFramed@before(rooms[..i]);
        }
        assert details == ElementRows(rooms[..i + 1]) by {
          RoomStep(rooms, i);
        }
        i := i + 1;
      }
      assert rooms[..i] == rooms;
    }

    /** Itemised heat-loss report and its total H (W/K): the element rows,
        then the thermal-bridge row. */
    method ComputeTotalHeatLoss() returns (total: real, details: seq<Row>)
      ensures details == Report(rooms)
      ensures total == SumWatts(details)
      ensures total == ElementsLoss(AllElements(rooms)) + ThermalBridges(rooms)
    {
      total, details := ElementLinesOfRooms();
      label rowsDone:
      var bridges := EstimateThermalBridges();
      assert details == ElementRows(rooms) by {
        ElementRowsFramed@rowsDone(rooms);
      }
      var row := Row(BridgeLabel, BridgeCategory, bridges);
      assert SumWatts(details + [row]) == total + bridges by {
        SumWattsAppend(details, row);
      }
      assert total == ElementsLoss(AllElements(rooms)) by {
        ReportTotal(rooms);
      }
      total := total + bridges;
      details := details + [row];
    }

    /** Two calculations with no change in between agree. */
    method ComputeTwice() returns (first: real, second: real, firstDetails: seq<Row>, secondDetails: seq<Row>)
      ensures first == second && firstDetails == secondDetails
      ensures firstDetails == Report(rooms)
    {
      first, firstDetails := ComputeTotalHeatLoss();
      label between:
      second, secondDetails := ComputeTotalHeatLoss();
      assert firstDetails == Report(rooms) by {
        ReportFramed@between(rooms);
      }
    }
  }
}
