/** A planar envelope element (a "paroi"): a wall, floor or ceiling that
    derives its own transmittance from its material and insulation year,
    hosts a growing list of openings and computes its own heat loss. */
module Envelope {
  import opened Glazing

  // Element kinds, as tagged by the caller.
  const WallKind: string := "MUR"
  const FloorKind: string := "PLANCHER"
  const CeilingKind: string := "PLAFOND"

  // Boundary contacts that matter to the formulas.
  const Outdoor: string := "Extérieur"
  const Unheated: string := "Local Non Chauffé"

  // Material keywords, in priority order.
  const Concrete: string := "Béton"
  const Stone: string := "Pierre"
  const Brick: string := "Brique"

  /** Substring test: does `t` occur somewhere in `s`? */
  predicate Contains(s: string, t: string)
    decreases |s|
  {
    t <= s || (|s| > 0 && Contains(s[1..], t))
  }

  /** `t` occurs in `s` starting at index `i`. */
  predicate OccursAt(s: string, t: string, i: nat)
  {
    i + |t| <= |s| && s[i..i + |t|] == t
  }

  /** `Contains` is exactly "some slice of `s` equals `t`". */
  lemma {:induction false} ContainsIsSubstring(s: string, t: string)
    ensures Contains(s, t) <==> exists i: nat :: OccursAt(s, t, i)
    decreases |s|
  {
    if t <= s {
      assert OccursAt(s, t, 0);
    } else if |s| > 0 {
      ContainsIsSubstring(s[1..], t);
      if Contains(s[1..], t) {
        var i: nat :| OccursAt(s[1..], t, i);
        assert s[1..][i..i + |t|] == s[i + 1..i + 1 + |t|];
        assert OccursAt(s, t, i + 1);
      }
      if exists i: nat :: OccursAt(s, t, i) {
        var i: nat :| OccursAt(s, t, i);
        if i > 0 {
          assert s[1..][i - 1..i - 1 + |t|] == s[i..i + |t|];
          assert OccursAt(s[1..], t, i - 1);
        }
      }
    }
  }

  /** A string whose first character does not occur in `s` is not in `s`. */
  lemma {:induction false} AbsentHead(s: string, t: string)
    requires |t| > 0 && t[0] !in s
    ensures !Contains(s, t)
    decreases |s|
  {
    if |s| > 0 {
      assert s[0] in s;
      AbsentHead(s[1..], t);
    }
  }

  /** Base transmittance (W/m².K) from the first of "Béton", "Pierre",
      "Brique", in that priority order, that occurs anywhere in the
      material; a material with none of them is treated as uninsulated
      masonry. */
  function BaseTransmittance(material: string): (u: real)
    ensures 1.5 <= u <= 2.8
    ensures Contains(material, Concrete) ==> u == 2.3
    ensures !Contains(material, Concrete) && Contains(material, Stone) ==> u == 2.8
    ensures !Contains(material, Concrete) && !Contains(material, Stone) && Contains(material, Brick) ==> u == 1.5
    ensures u == 2.5 <==>
      !Contains(material, Concrete) && !Contains(material, Stone) && !Contains(material, Brick)
  {
    if Contains(material, Concrete) then 2.3
    else if Contains(material, Stone) then 2.8
    else if Contains(material, Brick) then 1.5
    else 2.5
  }

  /** Insulation multiplier, tiered on strict year thresholds. */
  function InsulationFactor(year: int): (f: real)
    ensures 0.15 <= f <= 1.0
    ensures f == 1.0 <==> year <= 1980
    ensures f == 0.15 <==> year > 2015
    ensures f == 0.25 <==> 2005 < year <= 2015
    ensures f == 0.5 <==> 1980 < year <= 2005
  {
    if year > 2015 then 0.15
    else if year > 2005 then 0.25
    else if year > 1980 then 0.5
    else 1.0
  }

  /** Final transmittance of an element. */
  function Transmittance(material: string, year: int): real
  {
    BaseTransmittance(material) * InsulationFactor(year)
  }

  /** A later insulation year never gives a larger multiplier. */
  lemma InsulationFactorMonotone(earlier: int, later: int)
    requires earlier <= later
    ensures InsulationFactor(later) <= InsulationFactor(earlier)
  {
  }

  /** For a fixed material, transmittance never increases with the insulation year. */
  lemma TransmittanceMonotone(material: string, earlier: int, later: int)
    requires earlier <= later
    ensures 0.0 < Transmittance(material, later) <= Transmittance(material, earlier)
    ensures Transmittance(material, later) <= BaseTransmittance(material)
  {
    InsulationFactorMonotone(earlier, later);
    var base := BaseTransmittance(material);
    var f1, f2 := InsulationFactor(earlier), InsulationFactor(later);
    assert base * f2 <= base * f1 by {
      assert base * (f1 - f2) >= 0.0;
    }
  }

  /** Reduction coefficient: 0.95 behind an unheated space, 1.0 otherwise. */
  function ReductionCoefficient(contact: string): (b: real)
    ensures b == 0.95 <==> contact == Unheated
    ensures b == 1.0 <==> contact != Unheated
  {
    if contact == Unheated then 0.95 else 1.0
  }

  /** Opaque area left once the openings are subtracted from the gross area. */
  function NetOpaqueArea(grossArea: real, gs: seq<GlazingUnit>): real
  {
    grossArea - GlazedArea(gs)
  }

  /** Heat-loss coefficient (W/K) of an element: the opaque part at the
      element's U, plus each opening at its own U, all reduced by the
      element's own b. */
  function ElementLoss(grossArea: real, u: real, b: real, gs: seq<GlazingUnit>): real
  {
    NetOpaqueArea(grossArea, gs) * u * b + GlazedLoss(gs, b)
  }

  /** With no openings an element loses gross area × U × b. */
  lemma ElementLossWithoutGlazing(grossArea: real, u: real, b: real)
    ensures ElementLoss(grossArea, u, b, []) == grossArea * u * b
  {
  }

  /** Putting an opening into an element replaces its area of opaque wall at
      the element's U by the same area at the opening's U. */
  lemma {:induction false} ElementLossAppend(grossArea: real, u: real, b: real, gs: seq<GlazingUnit>, g: GlazingUnit)
    ensures ElementLoss(grossArea, u, b, gs + [g])
         == ElementLoss(grossArea, u, b, gs) + g.area * (g.u - u) * b
  {
    GlazedAreaAppend(gs, g);
    GlazedLossAppend(gs, g, b);
    ReplaceArea(NetOpaqueArea(grossArea, gs), NetOpaqueArea(grossArea, gs + [g]), g.area, u, g.u, b,
                GlazedLoss(gs, b), GlazedLoss(gs + [g], b));
  }

  /** The arithmetic of `ElementLossAppend`: moving area `a` from the
      opaque part at `u` to an opening at `ug`. */
  lemma ReplaceArea(n: real, n': real, a: real, u: real, ug: real, b: real, rest: real, rest': real)
    requires n' == n - a && rest' == rest + a * ug * b
    ensures n' * u * b + rest' == n * u * b + rest + a * (ug - u) * b
  {
  }

  /** The admission rule for a new opening: it is appended only when its
      area does not exceed the element's remaining opaque area. */
  function Admit(grossArea: real, gs: seq<GlazingUnit>, g: GlazingUnit): seq<GlazingUnit>
  {
    if g.area > NetOpaqueArea(grossArea, gs) then gs else gs + [g]
  }

  /** The openings hosted after offering `candidates` one by one. */
  function AdmitAll(grossArea: real, gs: seq<GlazingUnit>, candidates: seq<GlazingUnit>): seq<GlazingUnit>
    decreases |candidates|
  {
    if candidates == [] then gs
    else AdmitAll(grossArea, Admit(grossArea, gs, candidates[0]), candidates[1..])
  }

  /** One admission keeps the net opaque area non-negative. */
  lemma {:induction false} AdmitKeepsNetNonNegative(grossArea: real, gs: seq<GlazingUnit>, g: GlazingUnit)
    requires NetOpaqueArea(grossArea, gs) >= 0.0
    ensures NetOpaqueArea(grossArea, Admit(grossArea, gs, g)) >= 0.0
  {
    if g.area <= NetOpaqueArea(grossArea, gs) {
      GlazedAreaAppend(gs, g);
    }
  }

  /** Any sequence of guarded additions keeps the openings already present
      first and in order, adds at most one opening per offer and only
      offered ones, and keeps a non-negative net opaque area non-negative. */
  lemma {:induction false} AdmitAllInvariant(grossArea: real, gs: seq<GlazingUnit>, candidates: seq<GlazingUnit>)
    ensures NetOpaqueArea(grossArea, gs) >= 0.0 ==> NetOpaqueArea(grossArea, AdmitAll(grossArea, gs, candidates)) >= 0.0
    ensures gs <= AdmitAll(grossArea, gs, candidates)
    ensures |AdmitAll(grossArea, gs, candidates)| <= |gs| + |candidates|
    ensures forall k :: |gs| <= k < |AdmitAll(grossArea, gs, candidates)| ==>
              AdmitAll(grossArea, gs, candidates)[k] in candidates
    decreases |candidates|
  {
    if candidates != [] {
      var next := Admit(grossArea, gs, candidates[0]);
      if NetOpaqueArea(grossArea, gs) >= 0.0 {
        AdmitKeepsNetNonNegative(grossArea, gs, candidates[0]);
      }
      AdmitAllInvariant(grossArea, next, candidates[1..]);
      var r := AdmitAll(grossArea, gs, candidates);
      forall k | |gs| <= k < |r|
        ensures r[k] in candidates
      {
        if k < |next| {
          assert r[k] == next[k] == candidates[0];
        } else {
          assert r[k] in candidates[1..];
        }
      }
    }
  }

  class Element {
    const name: string
    const kind: string
    const length: real
    const breadth: real     // height for a wall, depth for a floor or ceiling
    const grossArea: real
    const orientation: string
    const contact: string
    const insulationYear: int
    const material: string
    const uValue: real
    const bCoef: real
    var glazings: seq<GlazingUnit>

    constructor (name: string, kind: string, length: real, breadth: real, orientation: string,
                 contact: string, insulationYear: int, material: string)
      ensures this.name == name && this.kind == kind && this.orientation == orientation
      ensures this.length == length && this.breadth == breadth && grossArea == length * breadth
      ensures this.contact == contact && this.insulationYear == insulationYear && this.material == material
      ensures uValue == Transmittance(material, insulationYear)
      ensures bCoef == ReductionCoefficient(contact)
      ensures glazings == []
    {
      this.name := name;
      this.kind := kind;
      this.length := length;
      this.breadth := breadth;
      grossArea := length * breadth;
      this.orientation := orientation;
      this.contact := contact;
      this.insulationYear := insulationYear;
      this.material := material;
      glazings := [];

      var uBase := 2.5;
      if Contains(material, Concrete) { uBase := 2.3; }
      else if Contains(material, Stone) { uBase := 2.8; }
      else if Contains(material, Brick) { uBase := 1.5; }

      var factor := 1.0;
      if insulationYear > 1980 { factor := 0.5; }
      if insulationYear > 2005 { factor := 0.25; }
      if insulationYear > 2015 { factor := 0.15; }

      uValue := uBase * factor;
      bCoef := if contact == Unheated then 0.95 else 1.0;
    }

    /** Total area of the hosted openings. */
    function GlazedSurface(): real
      reads this
    {
      GlazedArea(glazings)
    }

    /** Opaque area: gross area minus the openings. */
    function NetArea(): real
      reads this
    {
      grossArea - GlazedSurface()
    }

    /** This element's heat-loss coefficient, in W/K. */
    function HeatLoss(): real
      reads this
    {
      ElementLoss(grossArea, uValue, bCoef, glazings)
    }

    /** Unconditional append of an opening. */
    method AppendGlazing(g: GlazingUnit)
      modifies this
      ensures glazings == old(glazings) + [g]
      ensures NetArea() == old(NetArea()) - g.area
      ensures HeatLoss() == old(HeatLoss()) + g.area * (g.u - uValue) * bCoef
    {
      GlazedAreaAppend(glazings, g);
      ElementLossAppend(grossArea, uValue, bCoef, glazings, g);
      glazings := glazings + [g];
    }

    /** Guarded addition: an opening larger than the remaining opaque area
        is refused and nothing changes. */
    method AddGlazing(g: GlazingUnit) returns (admitted: bool)
      modifies this
      ensures admitted <==> g.area <= old(NetArea())
      ensures glazings == Admit(grossArea, old(glazings), g)
      ensures admitted ==> glazings == old(glazings) + [g]
      ensures !admitted ==> glazings == old(glazings)
      ensures admitted ==> NetArea() >= 0.0
      ensures old(NetArea()) >= 0.0 ==> NetArea() >= 0.0
    {
      if g.area > NetArea() {
        admitted := false;
      } else {
        AppendGlazing(g);
        admitted := true;
      }
    }
  }
}
