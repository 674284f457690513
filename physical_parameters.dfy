/** The five physical constants of the B-H measurement set-up and the two
    scale factors derived from them: hScale turns the shunt voltage into the
    field strength H [A/m], bScale turns the integrated sense-coil voltage
    into the induction B [T]. */
module PhysicalParams {

  const DefaultTurnsExc: real := 100.0
  const DefaultPathLen: real := 0.1
  const DefaultShunt: real := 1.0
  const DefaultTurnsB: real := 50.0
  const DefaultArea: real := 1e-4

  class PhysicalParameters {
    /** Turns of the excitation coil (N_exc). */
    var turnsExc: real
    /** Magnetic path length of the core in metres (l_e). */
    var pathLen: real
    /** Shunt resistance in ohms (R_s). */
    var shunt: real
    /** Turns of the sense coil (N_B). */
    var turnsB: real
    /** Core cross-section in square metres (A_e). */
    var area: real

    constructor ()
      ensures turnsExc == DefaultTurnsExc && pathLen == DefaultPathLen && shunt == DefaultShunt
      ensures turnsB == DefaultTurnsB && area == DefaultArea
    {
      turnsExc := DefaultTurnsExc;
      pathLen := DefaultPathLen;
      shunt := DefaultShunt;
      turnsB := DefaultTurnsB;
      area := DefaultArea;
    }

    /** The physically meaningful state: every constant strictly positive. */
    predicate AllPositive()
      reads this
    {
      turnsExc > 0.0 && pathLen > 0.0 && shunt > 0.0 && turnsB > 0.0 && area > 0.0
    }

    /** H per volt of shunt voltage, N_exc / (l_e * R_s). The denominator must
        not vanish: Java would yield an infinity or NaN there. */
    function HScale(): (k: real)
      reads this
      requires pathLen * shunt != 0.0
      ensures k * (pathLen * shunt) == turnsExc
      ensures turnsExc > 0.0 && pathLen > 0.0 && shunt > 0.0 ==> k > 0.0
    {
      turnsExc / (pathLen * shunt)
    }

    /** B per volt-second of integrated sense voltage, 1 / (N_B * A_e). */
    function BScale(): (k: real)
      reads this
      requires turnsB * area != 0.0
      ensures k * (turnsB * area) == 1.0
      ensures turnsB > 0.0 && area > 0.0 ==> k > 0.0
    {
      1.0 / (turnsB * area)
    }

    method SetTurnsExc(v: real)
      modifies this
      ensures turnsExc == v
      ensures pathLen == old(pathLen) && shunt == old(shunt) && turnsB == old(turnsB) && area == old(area)
    {
      turnsExc := v;
    }

    method SetPathLen(v: real)
      modifies this
      ensures pathLen == v
      ensures turnsExc == old(turnsExc) && shunt == old(shunt) && turnsB == old(turnsB) && area == old(area)
    {
      pathLen := v;
    }

    method SetShunt(v: real)
      modifies this
      ensures shunt == v
      ensures turnsExc == old(turnsExc) && pathLen == old(pathLen) && turnsB == old(turnsB) && area == old(area)
    {
      shunt := v;
    }

    method SetTurnsB(v: real)
      modifies this
      ensures turnsB == v
      ensures turnsExc == old(turnsExc) && pathLen == old(pathLen) && shunt == old(shunt) && area == old(area)
    {
      turnsB := v;
    }

    method SetArea(v: real)
      modifies this
      ensures area == v
      ensures turnsExc == old(turnsExc) && pathLen == old(pathLen) && shunt == old(shunt) && turnsB == old(turnsB)
    {
      area := v;
    }
  }

  /** At the default constants hScale is 1000 (A/m)/V and bScale is 200 T/(V s). */
  lemma DefaultScales(p: PhysicalParameters)
    requires p.turnsExc == DefaultTurnsExc && p.pathLen == DefaultPathLen && p.shunt == DefaultShunt
    requires p.turnsB == DefaultTurnsB && p.area == DefaultArea
    ensures p.AllPositive()
    ensures p.HScale() == 1000.0 && p.BScale() == 200.0
  {
  }
}
