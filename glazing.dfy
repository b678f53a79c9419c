/** A window or door (a "menuiserie"): a rectangular opening whose area
    and transmittance are fixed when it is created. It is never updated
    afterwards, so it is a value; its random identifier is not modelled. */
module Glazing {

  const SimpleGlazing: string := "Simple vitrage"
  const OldDoubleGlazing: string := "Double vitrage ancien"
  const LowEmissivityDoubleGlazing: string := "Double vitrage récent (VIR)"
  const TripleGlazing: string := "Triple vitrage"

  /** Transmittance (W/m².K) of a glazing-type tag; any tag outside the
      table falls back to the aged double-glazing value. */
  function GlazingTransmittance(glazingType: string): (u: real)
    ensures 0.8 <= u <= 5.8
  {
    if glazingType == SimpleGlazing then 5.8
    else if glazingType == OldDoubleGlazing then 2.8
    else if glazingType == LowEmissivityDoubleGlazing then 1.4
    else if glazingType == TripleGlazing then 0.8
    else 2.8
  }

  /** The table entries, and the fallback: a tag gets the aged
      double-glazing value exactly when it is not one of the other three. */
  lemma GlazingTable(glazingType: string)
    ensures glazingType == SimpleGlazing ==> GlazingTransmittance(glazingType) == 5.8
    ensures glazingType == OldDoubleGlazing ==> GlazingTransmittance(glazingType) == 2.8
    ensures glazingType == LowEmissivityDoubleGlazing ==> GlazingTransmittance(glazingType) == 1.4
    ensures glazingType == TripleGlazing ==> GlazingTransmittance(glazingType) == 0.8
    ensures GlazingTransmittance(glazingType) == 2.8 <==>
      glazingType !in [SimpleGlazing, LowEmissivityDoubleGlazing, TripleGlazing]
  {
  }

  /** An opening. Its area and its transmittance are computed once, when
      it is created, and stored beside the dimensions and type they come
      from. */
  datatype GlazingUnit = GlazingUnit(name: string, width: real, height: real, glazingType: string,
                                     area: real, u: real)
  {
    /** Perimeter of the opening, used by the thermal-bridge estimate. */
    function Perimeter(): real { (width + height) * 2.0 }
  }

  /** The stored area and transmittance agree with the dimensions and the
      glazing type. */
  predicate Consistent(g: GlazingUnit)
  {
    g.area == g.width * g.height && g.u == GlazingTransmittance(g.glazingType)
  }

  /** Creation of an opening: area = width × height, transmittance from the
      table. */
  function NewGlazingUnit(name: string, width: real, height: real, glazingType: string): (g: GlazingUnit)
    ensures g.name == name && g.width == width && g.height == height && g.glazingType == glazingType
    ensures Consistent(g) && 0.8 <= g.u <= 5.8
    ensures width >= 0.0 && height >= 0.0 ==> g.area >= 0.0
  {
    GlazingUnit(name, width, height, glazingType, width * height, GlazingTransmittance(glazingType))
  }

  /** Better glazing never has a higher transmittance: the four tags of the
      table are ordered single > aged double > low-e double > triple. */
  lemma GlazingTypesOrdered()
    ensures GlazingTransmittance(TripleGlazing) < GlazingTransmittance(LowEmissivityDoubleGlazing)
    ensures GlazingTransmittance(LowEmissivityDoubleGlazing) < GlazingTransmittance(OldDoubleGlazing)
    ensures GlazingTransmittance(OldDoubleGlazing) < GlazingTransmittance(SimpleGlazing)
  {
  }

  /** Sum of the areas of a sequence of openings (the glazed area of a wall). */
  function GlazedArea(gs: seq<GlazingUnit>): real
  {
    if gs == [] then 0.0 else GlazedArea(gs[..|gs| - 1]) + gs[|gs| - 1].area
  }

  /** Sum of area × U × b over a sequence of openings, b being the host
      element's reduction coefficient. */
  function GlazedLoss(gs: seq<GlazingUnit>, b: real): real
  {
    if gs == [] then 0.0 else GlazedLoss(gs[..|gs| - 1], b) + gs[|gs| - 1].area * gs[|gs| - 1].u * b
  }

  /** Appending an opening adds exactly its own area. */
  lemma {:induction false} GlazedAreaAppend(gs: seq<GlazingUnit>, g: GlazingUnit)
    ensures GlazedArea(gs + [g]) == GlazedArea(gs) + g.area
  {
    assert (gs + [g])[..|gs|] == gs;
  }

  /** Appending an opening adds exactly its own area × U × b. */
  lemma {:induction false} GlazedLossAppend(gs: seq<GlazingUnit>, g: GlazingUnit, b: real)
    ensures GlazedLoss(gs + [g], b) == GlazedLoss(gs, b) + g.area * g.u * b
  {
    var s := gs + [g];
    assert s[..|s| - 1] == gs;
    assert s[|s| - 1] == g;
  }

  /** Openings of non-negative area have a non-negative total area. */
  lemma {:induction false} GlazedAreaNonNegative(gs: seq<GlazingUnit>)
    requires forall i :: 0 <= i < |gs| ==> gs[i].area >= 0.0
    ensures GlazedArea(gs) >= 0.0
  {
    if gs != [] {
      GlazedAreaNonNegative(gs[..|gs| - 1]);
    }
  }
}
