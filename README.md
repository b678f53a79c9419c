# Conductive heat loss of a dwelling (simplified 3CL method)

This project models the calculation back end of `app.py` in Dafny and proves
properties of that model. The back end estimates a dwelling's conductive
heat-loss coefficient H, in W/K.

- **Openings** (`Menuiserie`, a window or door) become the datatype
  `Glazing.GlazingUnit`. An opening's area and transmittance are computed
  once, when it is created (width × height, and a glazing-type table whose
  default is 2.8), and stored with it.
- **Envelope elements** (`Paroi`, a wall, floor or ceiling) become the class
  `Envelope.Element`.
  - The constructor derives U from the first of "Béton", "Pierre",
    "Brique", in that priority order, that occurs anywhere in the material,
    multiplied by a tiered insulation-year factor.
  - The reduction coefficient b is 0.95 behind an unheated space and 1.0
    otherwise.
  - The element hosts a growing list of openings and computes its net
    opaque area and its own heat loss.
  - The guard that refuses an opening larger than the remaining opaque
    area is `AddGlazing`.
- **Rooms** (`Piece`) become the class `Rooms.Room`. `AddElement` routes
  each element to the walls, floors or ceilings list by its kind.
- **The building** (`Projet`) becomes the class `Building.Project`. Two
  methods work by loops over rooms, elements and openings:
  - `ComputeTotalHeatLoss` builds the itemised report and its total;
  - `EstimateThermalBridges` runs the linear thermal-bridge heuristic
    (ψ = 0.1 per metre of opening perimeter, and 0.35 + 0.25 per metre of
    exposed wall).

  Both methods are proved against pure specification functions
  (`Report`, `ThermalBridges`). The properties of the report (order, one
  row per element, the closing bridge row, the total) are lemmas about
  those functions.
- **Worked examples** are in the `Scenarios` module:
  - a 5 m × 2.5 m uninsulated wall (31.25 W/K);
  - the same wall with a 1.0 m × 1.2 m single-glazed window (35.21 W/K);
  - a refused 13 m² opening;
  - a one-room building whose bridges come to 3.44 W/K and whose report
    totals 38.65 W/K.

All quantities are exact reals.

Files:
- `glazing.dfy`: the openings;
- `envelope.dfy`: the envelope elements;
- `room.dfy`: the rooms;
- `project.dfy`: the building, the report and the bridges;
- `scenarios.dfy`: the worked examples.

### Behaviour of the code worth noting

- The window-perimeter bridge term counts the openings of every wall,
  whatever that wall touches. Only the wall-length term is restricted to
  walls facing outdoors or an unheated space (app.py:134-140).
- Element creation checks no dimensions. There is no operation that
  removes a room or an opening.
- An interior wall is refused only by the user interface. The core gives
  such a wall b = 1.0.

## Model

| member | source | states |
|---|---|---|
| Glazing.GlazingTransmittance | app.py:18-23 | the glazing-type table; every value lies between 0.8 and 5.8 |
| Glazing.GlazingTable | app.py:18-23 | the four entries 5.8, 2.8, 1.4 and 0.8; a tag gets 2.8 exactly when it is none of the other three tags, so unknown tags fall back to 2.8 |
| Glazing.GlazingTypesOrdered | app.py:18-23 | triple < low-emissivity double < aged double < single glazing |
| Glazing.NewGlazingUnit | app.py:10-23 | creating an opening keeps its name, dimensions and type, stores area = width × height and U from the table (consistent with them), gives U in [0.8, 5.8] and a non-negative area for non-negative dimensions |
| Glazing.GlazingUnit.Perimeter | app.py:135 | definition: (width + height) × 2; `PerimeterBridge` sums it |
| Glazing.GlazedArea | app.py:58-59 | definition: the sum of the openings' areas; its properties are in `GlazedAreaAppend` and `GlazedAreaNonNegative` |
| Glazing.GlazedLoss | app.py:68 | definition: the sum of area × U × b over the openings; its properties are in `GlazedLossAppend` |
| Glazing.GlazedAreaAppend | app.py:58-59 | appending an opening adds exactly its area to the glazed area |
| Glazing.GlazedLossAppend | app.py:68 | appending an opening adds exactly area × U × b to the glazed loss |
| Glazing.GlazedAreaNonNegative | app.py:58-59 | openings of non-negative area have a non-negative total area |
| Envelope.ContainsIsSubstring | app.py:40-42 | the recursive keyword test is exactly "some slice of the material equals the keyword" (Python's `in` on strings) |
| Envelope.Contains | app.py:40-42 | definition: the recursive substring test; `ContainsIsSubstring` proves it is Python's `in` on strings |
| Envelope.BaseTransmittance | app.py:39-42 | the whole first-match table: "Béton" anywhere gives 2.3; otherwise "Pierre" gives 2.8; otherwise "Brique" gives 1.5; 2.5 exactly when no keyword occurs; every value lies in [1.5, 2.8] |
| Envelope.InsulationFactor | app.py:45-48 | the whole tier table, each tier in both directions: 1.0 exactly when year ≤ 1980, 0.5 exactly when 1980 < year ≤ 2005, 0.25 exactly when 2005 < year ≤ 2015, 0.15 exactly when year > 2015; the factor lies in [0.15, 1.0] |
| Envelope.Transmittance | app.py:50 | definition: base U × insulation factor; its properties are in `TransmittanceMonotone` and the `Element` constructor |
| Envelope.InsulationFactorMonotone | app.py:45-48 | a later insulation year never gives a larger factor |
| Envelope.TransmittanceMonotone | app.py:39-51 | for a fixed material, U is positive, never increases with the insulation year and never exceeds the base U |
| Envelope.ReductionCoefficient | app.py:53 | b = 0.95 exactly when the contact is "Local Non Chauffé", b = 1.0 exactly otherwise |
| Envelope.NetOpaqueArea | app.py:61-62 | definition: gross area minus glazed area; its properties are in `AdmitKeepsNetNonNegative`, `AdmitAllInvariant` and `Element.AppendGlazing` |
| Envelope.ElementLoss | app.py:64-69 | definition: net area × U × b plus the glazed loss; its properties are in `ElementLossWithoutGlazing` and `ElementLossAppend` |
| Envelope.ElementLossWithoutGlazing | app.py:64-69 | with no opening, the loss is gross area × U × b |
| Envelope.ElementLossAppend | app.py:61-69 | an added opening replaces its area of opaque wall at the element's U by the same area at the opening's U (both times b) |
| Envelope.Admit | app.py:245-249 | definition: the admission rule, appending only when the area fits; its properties are in `AdmitKeepsNetNonNegative`, `AdmitAllInvariant` and `Element.AddGlazing` |
| Envelope.AdmitAll | app.py:245-249 | definition: the `Admit` rule applied to each offered opening in turn; its properties are in `AdmitAllInvariant` |
| Envelope.AdmitKeepsNetNonNegative | app.py:245-249 | one admission check keeps a non-negative net opaque area non-negative |
| Envelope.AdmitAllInvariant | app.py:245-249 | after any sequence of guarded additions, from any start, the earlier openings stay first and in order, at most one opening is added per offer, every added opening is one of those offered, and a net opaque area that was non-negative stays non-negative. |
| Envelope.Element.constructor | app.py:26-53 | gross area = length × height or width; U = base U × insulation factor, through the sequence of `if`s; b from the contact; no openings |
| Envelope.Element.GlazedSurface | app.py:58-59 | definition: the glazed area of the hosted openings (`GlazedArea`) |
| Envelope.Element.NetArea | app.py:61-62 | definition: gross area minus `GlazedSurface`; its changes are stated by `AppendGlazing` and `AddGlazing` |
| Envelope.Element.HeatLoss | app.py:64-69 | definition: `ElementLoss` of this element; its changes are stated by `AppendGlazing` |
| Envelope.Element.AppendGlazing | app.py:55-56 | appends the opening unconditionally at the end: net area falls by its area, and the loss changes as `ElementLossAppend` says |
| Envelope.Element.AddGlazing | app.py:244-249 | admitted exactly when the opening's area ≤ the current net area; if admitted it is appended at the end, otherwise the list is unchanged; if admitted, or if the net area was non-negative before, the net area is non-negative afterwards |
| Rooms.SlotOf | app.py:84-87 | "MUR", "PLANCHER" and "PLAFOND" select walls, floors and ceilings; any other kind selects none |
| Rooms.Room.constructor | app.py:72-82 | habitable area = length × width, volume = area × height, three empty lists |
| Rooms.Room.ElementCount | app.py:80-87 | definition: the number of walls, floors and ceilings; `AddElement` states how it grows |
| Rooms.Room.AddElement | app.py:84-87 | appends the element to exactly the list its kind selects and leaves the other two unchanged; an unknown kind changes nothing; the element count grows by one exactly when the kind is known |
| Building.Project.constructor | app.py:90-94 | no rooms; altitude 0, zone "H1", year 1990 |
| Building.Project.AddRoom | app.py:179 | appends the room and keeps the metadata |
| Building.Project.EstimateThermalBridges | app.py:122-144 | the nested accumulation loops compute exactly `ThermalBridges(rooms)` |
| Building.Project.RoomLines | app.py:102-114 | one room's three loops append exactly the room's rows (walls, then floors, then ceilings) and keep the total equal to the sum of the rows |
| Building.Project.ElementLinesOfRooms | app.py:97-114 | the loop over rooms yields exactly the element rows of every room, in order, with the total equal to their sum |
| Building.Project.ComputeTotalHeatLoss | app.py:96-120 | the report is exactly `Report(rooms)`; the total is the sum of its rows and equals the elements' losses plus the bridge estimate |
| Building.Project.ComputeTwice | app.py:96-120 | two calculations with no change in between return the same total and the same report |
| Building.SumWatts | app.py:97-117 | definition: the sum of the rows' losses; its properties are in `SumWattsConcat` and `ReportTotal` |
| Building.Label | app.py:105 | definition: room name, " - ", element name |
| Building.ElementRowsOf | app.py:102-113 | definition: one row per element of a list; its properties are in `ElementRowsOfAt` and `ElementRowsOfSum` |
| Building.RoomRows | app.py:101-113 | definition: a room's wall, floor and ceiling rows; its properties are in `RoomRowsShape` and `RoomRowsSum` |
| Building.RoomElements | app.py:101-113 | definition: a room's walls, then its floors, then its ceilings, the order of the report; `RoomRowsShape` and `RoomRowsWatts` tie the rows to it |
| Building.AllElements | app.py:101-113 | definition: the elements of every room, rooms in order, each in report order; `ReportShape` and `ReportTotal` tie the report to it |
| Building.AllWalls | app.py:131-132 | definition: the walls of every room, rooms in order, the walls the bridge loops visit; `BridgesIgnoreFloorsAndCeilings` and `EstimateThermalBridges` use it |
| Building.ElementRows | app.py:101-113 | definition: every room's rows, rooms in order; its properties are in `ReportShape`, `RoomRowsInPlace` and `ElementRowsSum` |
| Building.Report | app.py:96-120 | definition: the element rows, then the bridge row; its properties are in `ReportShape`, `ReportRoomRow`, `ReportTotal` and `ReportFramed` |
| Building.PerimeterBridge | app.py:134-136 | definition: perimeter × 0.1 summed over a list of openings; its properties are in `PerimeterBridgeNonNegative` |
| Building.IsExposed | app.py:139 | definition: the contact is outdoors or an unheated space |
| Building.WindowBridge | app.py:131-136 | definition: the opening-perimeter term over a list of walls, whatever their contact; its properties are in `WallsBridgeAppend` and `WallsBridgeNonNegative` |
| Building.ExposedLength | app.py:131-140 | definition: the summed length of the exposed walls of a list; its properties are in `WallsBridgeAppend` and `WallsBridgeNonNegative` |
| Building.WallsBridge | app.py:142-144 | definition: the perimeter term plus the exposed length × (0.35 + 0.25); its properties are in `WallsBridgeAppend` and `WallsBridgeNonNegative` |
| Building.ThermalBridges | app.py:122-144 | definition: `WallsBridge` of every wall of every room; its properties are in `BridgesIgnoreFloorsAndCeilings`, `WallsBridgeNonNegative` and `EstimateThermalBridges` |
| Building.ElementRowsOfAt | app.py:102-114 | a list's rows correspond one to one, position by position, with its elements: label "room - element", category, and loss |
| Building.ElementRowsOfSum | app.py:102-114 | a list's rows add up to the losses of its elements |
| Building.ElementsLossConcat | app.py:102-114 | the elements' loss is additive over concatenation |
| Building.ElementsLoss | app.py:103-112 | definition: the sum of the elements' losses, the `d` that each loop adds to the total; its properties are in `ElementsLossConcat`, `ElementRowsOfSum` and `ReportTotal` |
| Building.SumWattsConcat | app.py:98-119 | the total of a concatenated report is the sum of the two totals |
| Building.RoomRowsShape | app.py:101-113 | a room has one row per element: its walls first, each row labelled "room - wall" in category "Mur+Baies"; then its floors, in "Plancher"; then its ceilings, in "Plafond"; every row carries that element's loss |
| Building.RoomRowsWatts | app.py:101-113 | row m of a room carries the loss of the room's m-th element in report order |
| Building.RoomRowsSum | app.py:102-114 | a room's rows add up to the losses of its elements |
| Building.ReportShape | app.py:96-120 | the report has one row per element, in the order rooms → walls → floors → ceilings, each carrying that element's loss, then exactly one final row labelled "Global" in category "Ponts Thermiques" carrying the bridge estimate |
| Building.IsElementCategory | app.py:105-113 | definition: one of "Mur+Baies", "Plancher", "Plafond", the three element types; its properties are in `ElementRowsCategories` and `ReportCategories` |
| Building.ElementRowsOfCategory | app.py:102-113 | every row built from one list of elements carries the type of that list |
| Building.ElementRowsCategories | app.py:101-113 | every element row of the report has type "Mur+Baies", "Plancher" or "Plafond" |
| Building.ReportCategories | app.py:101-118 | the report has one row per element plus one; every element row is a wall, floor or ceiling row, and a row has type "Ponts Thermiques" exactly when it is the last one |
| Building.RoomRowsInPlace | app.py:101-113 | the rows of room i follow those of the rooms before it and are exactly that room's rows |
| Building.ReportRoomRow | app.py:101-113 | for room i, whose rows start after the elements of the rooms before it (`RoomOffset`), row m of the room in the report is: its m-th wall labelled "room - wall" in "Mur+Baies", then its floors in "Plancher", then its ceilings in "Plafond", each with its loss |
| Building.ElementRowsSum | app.py:97-114 | the element rows add up to the losses of all elements |
| Building.ReportTotal | app.py:96-120 | the sum of all report rows equals the elements' losses plus the bridge estimate |
| Building.ReportFramed | app.py:96-120 | the report depends on nothing but the rooms and their elements |
| Building.WallsBridgeAppend | app.py:131-140 | one more wall adds its openings' perimeter term whatever its contact, and its length at 0.35 + 0.25 only when it faces outdoors or an unheated space |
| Building.BridgesIgnoreFloorsAndCeilings | app.py:131-144 | floors and ceilings never enter the estimate: rooms with the same walls give the same bridges |
| Building.PerimeterBridgeNonNegative | app.py:134-136 | openings with non-negative dimensions give a non-negative perimeter term |
| Building.WallsBridgeNonNegative | app.py:131-144 | walls and openings with non-negative dimensions give a non-negative estimate |
| Scenarios.BlockIsDefaultMasonry | app.py:39-43 | "Parpaing Creux" holds none of the keywords: base U 2.5, and U 2.5 when uninsulated |
| Scenarios.WindowIsNew | app.py:10-23 | the example window (area 1.2, U 5.8) is exactly what creating a 1.0 m × 1.2 m single-glazed opening gives |
| Scenarios.BayIsNew | app.py:10-23 | the 13.0 m × 1.0 m single-glazed bay (area 13.0, U 5.8) is exactly what creating that opening gives |
| Scenarios.WallWithWindow | app.py:25-69 | a 5 m × 2.5 m uninsulated plain-masonry exterior wall loses 31.25 W/K; a 1.0 m × 1.2 m single-glazed window is admitted and brings it to 35.21 W/K |
| Scenarios.OversizedWindow | app.py:244-249 | a 13 m² opening on that 12.5 m² wall is refused: no opening is added and the loss stays 31.25 W/K |
| Scenarios.FittedWall | app.py:25-69 | the wall fitted with its window holds exactly that window and loses 35.21 W/K |
| Scenarios.OneWallReport | app.py:96-144 | for a room whose only element is one wall, the bridges are that wall's perimeter term plus its exposed-length term, and the report is that wall's row followed by the bridge row |
| Scenarios.OneRoomFigures | app.py:96-144 | for the one-room building, the bridges are 3.44 W/K, the report is the rows ("Salon - Mur Nord", 35.21) and ("Global", 3.44), and its total is 38.65 W/K |
| Scenarios.OneRoomProject | app.py:176-249 | builds that one-room building through the room, wall and window operations |
| Scenarios.OneRoomBridges | app.py:122-144 | the bridge loop returns 3.44 W/K for it |
| Scenarios.OneRoomReport | app.py:96-120 | the heat-loss calculation returns those two rows and the total 38.65 W/K for it |

## Left out

- The Streamlit user interface (app.py:150-294) is not modelled: widgets, forms, tabs, reruns, session state, messages, the table and the chart. It is presentation and session plumbing. Only the window admission check (app.py:245-249) is kept, as `AddGlazing` around the unconditional `ajouter_menuiserie` (`AppendGlazing`).
- Random `uuid` identifiers (app.py:11, 27, 73) are left out. They come from a foreign library and no formula reads them.
- Floating-point rounding is not modelled. Quantities are exact reals, so the example values are the exact decimal results.
- The project metadata (altitude, climate zone, construction year) is stored on the project but never read by any formula. Ventilation and heating generator (app.py:163-164) are user-interface inputs that the project does not store, and the model leaves them out.
- The kW power estimate (app.py:282-283) is left out. It belongs to the user interface and uses a fixed temperature difference.
- Deleting an element while displaying the list (app.py:226) is user-interface iteration, and is not modelled.
- The rejection of interior walls (app.py:209-210) is a user-interface check. The core gives such a wall b = 1.0 (`ReductionCoefficient`).
- Orientation is stored on each element (`orientation`) but no formula reads it.
- `ComputeTotalHeatLoss` runs its per-room loops in the helper methods `RoomLines` and `ElementLinesOfRooms`. The source writes them inline in `calcul_global_deperditions`. Their order, accumulations and report rows are the same.
- Scenarios.WallWithWindow, OversizedWindow, FittedWall, OneRoomProject, OneRoomBridges and OneRoomReport take the material and the insulation year as parameters. They are stated for any material that holds none of the three keywords and any year up to 1980. `BlockIsDefaultMasonry` shows that "Parpaing Creux" with year 0 is such a case.
