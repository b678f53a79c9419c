/** Worked examples: one uninsulated exterior wall of hollow concrete
    blocks, 5 m long and 2.5 m high, with and without a single-glazed
    window, and the building made of one room holding that wall. */
module Scenarios {
  import opened Glazing
  import opened Envelope
  import opened Rooms
  import opened Building

  const BlockMaterial: string := "Parpaing Creux"

  /** The single-glazed window of the examples, 1.0 m × 1.2 m. */
  const Window: GlazingUnit := GlazingUnit("Fenetre 1", 1.0, 1.2, SimpleGlazing, 1.2, 5.8)

  /** A 13.0 m × 1.0 m single-glazed bay. */
  const Bay: GlazingUnit := GlazingUnit("Baie", 13.0, 1.0, SimpleGlazing, 13.0, 5.8)

  /** The window is what creating it from its dimensions and type gives. */
  lemma WindowIsNew()
    ensures Window == NewGlazingUnit("Fenetre 1", 1.0, 1.2, SimpleGlazing)
  {
    var w := NewGlazingUnit("Fenetre 1", 1.0, 1.2, SimpleGlazing);
    assert w.u == 5.8 by {
      GlazingTable(SimpleGlazing);
    }
    assert w.area == 1.2;
  }

  /** So is the bay. */
  lemma BayIsNew()
    ensures Bay == NewGlazingUnit("Baie", 13.0, 1.0, SimpleGlazing)
  {
    var b := NewGlazingUnit("Baie", 13.0, 1.0, SimpleGlazing);
    assert b.u == 5.8 by {
      GlazingTable(SimpleGlazing);
    }
    assert b.area == 13.0;
  }

  lemma BlockIsNotConcrete()
    ensures !Contains(BlockMaterial, Concrete)
  {
    AbsentHead(BlockMaterial, Concrete);
  }

  lemma BlockIsNotBrick()
    ensures !Contains(BlockMaterial, Brick)
  {
    AbsentHead(BlockMaterial, Brick);
  }

  lemma BlockIsNotStone()
    ensures !Contains(BlockMaterial, Stone)
  {
    var s := BlockMaterial;
    assert s[1..] == "arpaing Creux";
    AbsentHead(s[1..], Stone);
    assert s[1] != Stone[1];
  }

  /** Hollow concrete block contains none of the three keywords, so it
      takes the default base transmittance. */
  lemma BlockIsDefaultMasonry()
    ensures PlainMasonry(BlockMaterial)
    ensures BaseTransmittance(BlockMaterial) == 2.5
    ensures Transmittance(BlockMaterial, 0) == 2.5
  {
    BlockIsNotConcrete();
    BlockIsNotBrick();
    BlockIsNotStone();
  }

  /** A material named without any of the keywords, such as hollow
      concrete block. */
  predicate PlainMasonry(material: string)
  {
    !Contains(material, Concrete) && !Contains(material, Stone) && !Contains(material, Brick)
  }

  /** An uninsulated 5 m × 2.5 m exterior wall of plain masonry loses
      12.5 m² × 2.5 × 1.0 = 31.25 W/K; a 1.0 m × 1.2 m single-glazed window
      is admitted and brings it to 11.3 × 2.5 + 1.2 × 5.8 = 35.21 W/K. */
  method WallWithWindow(material: string, year: int) returns (bare: real, admitted: bool, glazed: real)
    requires PlainMasonry(material) && year <= 1980
    ensures bare == 31.25
    ensures admitted
    ensures glazed == 35.21
  {
    var wall := new Element("Mur Nord", WallKind, 5.0, 2.5, "Nord", Outdoor, year, material);
    bare := wall.HeatLoss();
    admitted := wall.AddGlazing(Window);
    glazed := wall.HeatLoss();
  }

  /** A 13 m² opening does not fit in the 12.5 m² wall: it is refused and
      the wall keeps no openings and its 31.25 W/K. */
  method OversizedWindow(material: string, year: int) returns (admitted: bool, openings: nat, loss: real)
    requires PlainMasonry(material) && year <= 1980
    ensures !admitted
    ensures openings == 0
    ensures loss == 31.25
  {
    var wall := new Element("Mur Nord", WallKind, 5.0, 2.5, "Nord", Outdoor, year, material);
    admitted := wall.AddGlazing(Bay);
    openings := |wall.glazings|;
    loss := wall.HeatLoss();
  }

  /** A building of one room whose only element is one wall: the report
      is that wall's row, then the bridge row, and the bridges are the
      wall's opening perimeters plus its exposed length. */
  lemma {:induction false} OneWallReport(room: Room, wall: Element)
    requires room.walls == [wall] && room.floors == [] && room.ceilings == []
    ensures ThermalBridges([room]) == PerimeterBridge(wall.glazings)
              + (if IsExposed(wall.contact) then wall.length * (PsiFloor + PsiCeiling) else 0.0)
    ensures Report([room]) == [Row(Label(room.name, wall.name), WallCategory, wall.HeatLoss()),
                               Row(BridgeLabel, BridgeCategory, ThermalBridges([room]))]
  {
    assert [room][..0] == [];
    assert AllWalls([room]) == [wall];
    WallsBridgeAppend([], wall);
    assert [wall] == [] + [wall];
    assert [wall][..0] == [];
    var row := Row(Label(room.name, wall.name), WallCategory, wall.HeatLoss());
    assert ElementRowsOf(room.name, room.walls, WallCategory) == [row];
    assert RoomRows(room) == [row];
    assert ElementRows([room]) == [row];
  }

  /** The exterior wall of the examples, fitted with its single-glazed
      window. */
  method FittedWall(material: string, year: int) returns (wall: Element)
    requires PlainMasonry(material) && year <= 1980
    ensures fresh(wall)
    ensures wall.name == "Mur Nord" && wall.kind == WallKind
    ensures wall.contact == Outdoor && wall.length == 5.0
    ensures wall.glazings == [Window]
    ensures wall.HeatLoss() == 35.21
  {
    wall := new Element("Mur Nord", WallKind, 5.0, 2.5, "Nord", Outdoor, year, material);
    assert wall.NetArea() == 12.5;
    var admitted := wall.AddGlazing(Window);
    assert wall.glazings == [Window];
    assert wall.HeatLoss() == 35.21 by {
      assert wall.uValue == 2.5 && wall.bCoef == 1.0;
      GlazedAreaAppend([], Window);
      GlazedLossAppend([], Window, 1.0);
      assert [] + [Window] == [Window];
    }
  }

  /** The figures of the one-room example, from the state the example
      builds. */
  lemma {:induction false} OneRoomFigures(room: Room, wall: Element)
    requires room.name == "Salon" && room.walls == [wall] && room.floors == [] && room.ceilings == []
    requires wall.name == "Mur Nord" && wall.contact == Outdoor && wall.length == 5.0
    requires wall.glazings == [Window]
    requires wall.HeatLoss() == 35.21
    ensures ThermalBridges([room]) == 3.44
    ensures Report([room]) == [Row(Label("Salon", "Mur Nord"), WallCategory, 35.21), Row(BridgeLabel, BridgeCategory, 3.44)]
    ensures SumWatts(Report([room])) == 38.65
  {
    assert PerimeterBridge(wall.glazings) == 0.44 by {
      assert wall.glazings[..0] == [];
    }
    OneWallReport(room, wall);
    var r0 := Row(Label("Salon", "Mur Nord"), WallCategory, 35.21);
    var r1 := Row(BridgeLabel, BridgeCategory, 3.44);
    SumWattsAppend([], r0);
    SumWattsAppend([r0], r1);
    assert [] + [r0] == [r0] && [r0] + [r1] == [r0, r1];
  }

  /** A project of one room, "Salon", whose only element is the fitted
      exterior wall. */
  method OneRoomProject(material: string, year: int) returns (project: Project, room: Room, wall: Element)
    requires PlainMasonry(material) && year <= 1980
    ensures project.rooms == [room]
    ensures room.name == "Salon" && room.walls == [wall] && room.floors == [] && room.ceilings == []
    ensures wall.name == "Mur Nord" && wall.contact == Outdoor && wall.length == 5.0
    ensures wall.glazings == [Window]
    ensures wall.HeatLoss() == 35.21
  {
    wall := FittedWall(material, year);
    room := new Room("Salon", 5.0, 4.0, 2.5);
    room.AddElement(wall);
    project := new Project();
    project.AddRoom(room);
  }

  /** The bridges of the one-room example: 2 × (1.0 + 1.2) × 0.1 + 5 × 0.35
      + 5 × 0.25 = 3.44 W/K. */
  method OneRoomBridges(material: string, year: int) returns (bridges: real)
    requires PlainMasonry(material) && year <= 1980
    ensures bridges == 3.44
  {
    var project, room, wall := OneRoomProject(material, year);
    bridges := project.EstimateThermalBridges();
    OneRoomFigures(room, wall);
  }

  /** The report of the one-room example: the wall's row, then the bridge
      row, adding up to 35.21 + 3.44 = 38.65 W/K. */
  method OneRoomReport(material: string, year: int) returns (total: real, details: seq<Row>)
    requires PlainMasonry(material) && year <= 1980
    ensures details == [Row(Label("Salon", "Mur Nord"), WallCategory, 35.21), Row(BridgeLabel, BridgeCategory, 3.44)]
    ensures total == 38.65
  {
    var project, room, wall := OneRoomProject(material, year);
    total, details := project.ComputeTotalHeatLoss();
    OneRoomFigures(room, wall);
  }
}
