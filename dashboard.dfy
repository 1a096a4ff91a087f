/** The dashboard page of `src/pages/Dashboard.jsx`: a tick counter and
    display values derived from it by closed formulas, with the page's own
    risk rule (MEDIUM below 35) and advisory text. */
module Dashboard {
  import opened Common

  /** The derived display values; all of them are whole numbers. */
  datatype Pulse = Pulse(solar: int, battery: int, load: int, risk: Risk)

  /** The `useMemo` derivation for counter value `t`. `sin` and `cos` stand
      for `Math.sin` and `Math.cos`. */
  function Derive(t: int, sin: real -> real, cos: real -> real): (p: Pulse)
    ensures p.risk == HIGH <==> p.battery < 25 || p.load > 80
    ensures p.risk == MEDIUM <==> 25 <= p.battery < 35 && p.load <= 80
    ensures p.risk == LOW <==> p.battery >= 35 && p.load <= 80
  {
    var solar := 60 + Round(25.0 * sin(t as real / 2.0));
    var battery := 35 + Round(40.0 * sin(t as real / 3.0 + 1.0));
    var load := 40 + Round(35.0 * cos(t as real / 2.2));
    var risk := Classify(battery as real, load as real, DASHBOARD_MEDIUM_BELOW);
    Pulse(solar, battery, load, risk)
  }

  /** With sine and cosine in [-1,1], every value stays in a fixed band, the
      load never exceeds 80, and so HIGH risk comes from the battery alone. */
  lemma DeriveRanges(t: int, sin: real -> real, cos: real -> real)
    requires UnitRange(sin) && UnitRange(cos)
    ensures var p := Derive(t, sin, cos);
      && 35 <= p.solar <= 85
      && -5 <= p.battery <= 75
      && 5 <= p.load <= 75
      && (p.risk == HIGH <==> p.battery < 25)
  {
    RoundWithin(25.0 * sin(t as real / 2.0), -25, 25);
    RoundWithin(40.0 * sin(t as real / 3.0 + 1.0), -40, 40);
    RoundWithin(35.0 * cos(t as real / 2.2), -35, 35);
  }

  /** Unlike the engine's battery, the displayed battery is not clamped: it
      drops below zero whenever the sine term is below -0.8875, and reaches
      -5 at the sine's minimum. */
  lemma BatteryNotClamped(t: int, sin: real -> real, cos: real -> real)
    requires sin(t as real / 3.0 + 1.0) < -0.8875
    ensures Derive(t, sin, cos).battery < 0
    ensures sin(t as real / 3.0 + 1.0) == -1.0 ==> Derive(t, sin, cos).battery == -5
  {
  }

  const HIGH_ADVICE: string := "Power dip likely – switch to backup."
  const MEDIUM_ADVICE: string := "Watch battery & evening peaks."
  const LOW_ADVICE: string := "All good. Keep vibes steady."

  /** The advisory text under the risk level: one distinct text per level. */
  function Advice(risk: Risk): (a: string)
    ensures a == HIGH_ADVICE <==> risk == HIGH
    ensures a == MEDIUM_ADVICE <==> risk == MEDIUM
    ensures a == LOW_ADVICE <==> risk == LOW
  {
    assert HIGH_ADVICE[0] != MEDIUM_ADVICE[0] && HIGH_ADVICE[0] != LOW_ADVICE[0] && MEDIUM_ADVICE[0] != LOW_ADVICE[0];
    if risk == HIGH then HIGH_ADVICE
    else if risk == MEDIUM then MEDIUM_ADVICE
    else assert risk == LOW; LOW_ADVICE
  }

  const GOLD: string := "text-vp_gold"
  const GREEN: string := "text-vp_green"

  /** The colour of the risk level: gold for HIGH only; MEDIUM and LOW are
      both shown in green. */
  function RiskClass(risk: Risk): (c: string)
    ensures c == GOLD <==> risk == HIGH
    ensures c == GREEN <==> risk != HIGH
  {
    if risk == HIGH then GOLD else GREEN
  }

  /** The page's tick counter `t`. */
  class Counter {
    var t: nat

    constructor ()
      ensures t == 0
    {
      t := 0;
    }

    /** One interval: `setT(x => x + 1)`. */
    method Tick()
      modifies this
      ensures t == old(t) + 1
    {
      t := t + 1;
    }
  }
}
