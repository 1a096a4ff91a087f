/** Numeric helpers and the outage-risk rule shared by the simulation engine,
    the Guardian monitor and the dashboard.

    The JavaScript numbers of the source are modelled as mathematical reals.
    `Math.sin`, `Math.cos` and `Math.random` are not computed here: the trig
    functions are passed in as `real -> real` values whose documented ranges
    are stated by the predicates below, and every random draw is a real
    parameter in [0,1). */
module Common {

  /** Outage-risk classification; the source keeps it as the strings
      "LOW", "MEDIUM" and "HIGH". */
  datatype Risk = LOW | MEDIUM | HIGH

  /** `Math.PI` as the double literal JavaScript uses. */
  const PI: real := 3.141592653589793

  /** Battery below this is HIGH risk on every page. */
  const HIGH_BATTERY_BELOW: real := 25.0
  /** Load above this is HIGH risk on every page. */
  const HIGH_LOAD_ABOVE: real := 80.0
  /** MEDIUM threshold of the engine and of the Guardian monitor. */
  const ENGINE_MEDIUM_BELOW: real := 40.0
  /** MEDIUM threshold of the dashboard. */
  const DASHBOARD_MEDIUM_BELOW: real := 35.0

  /** The range of `Math.sin` and `Math.cos`. */
  ghost predicate UnitRange(f: real -> real)
  {
    forall x :: -1.0 <= f(x) <= 1.0
  }

  /** A rational just above pi: the real sine is non-positive from here to
      2pi. `PI` itself lies slightly below pi, where the sine is still
      positive. */
  const PI_ABOVE: real := 3.1416

  /** The sign of sine on its first period: non-negative on [0,PI] and
      non-positive on [PI_ABOVE, 2 PI]. Both hold of the real sine, since
      `PI` lies below pi and `PI_ABOVE` above it. */
  ghost predicate SineSigns(sin: real -> real)
  {
    && (forall x :: 0.0 <= x <= PI ==> sin(x) >= 0.0)
    && (forall x :: PI_ABOVE <= x <= 2.0 * PI ==> sin(x) <= 0.0)
  }

  /** The sign facts leave room for the value `Math.sin(Math.PI)` really
      has: a small positive number at `PI`. */
  lemma SineSignsAllowPositiveAtPI()
    ensures var f := (x: real) => if 0.0 <= x <= PI then 0.0000000000000001
                                  else if PI_ABOVE <= x <= 2.0 * PI then -0.5
                                  else 0.0;
      UnitRange(f) && SineSigns(f) && f(PI) > 0.0
  {
  }

  /** The range of one `Math.random()` draw. */
  predicate IsDraw(r: real)
  {
    0.0 <= r < 1.0
  }

  function Max(a: real, b: real): real { if a >= b then a else b }
  function Min(a: real, b: real): real { if a <= b then a else b }

  /** `Math.max(0, Math.min(100, x))`: the battery clamp. */
  function ClampPercent(x: real): (r: real)
    ensures 0.0 <= r <= 100.0
    ensures 0.0 <= x <= 100.0 ==> r == x
    ensures x < 0.0 ==> r == 0.0
    ensures x > 100.0 ==> r == 100.0
  {
    Max(0.0, Min(100.0, x))
  }

  /** `Math.round`: the nearest integer, halves rounded up. */
  function Round(x: real): (r: int)
    ensures r as real - 0.5 <= x < r as real + 0.5
  {
    (x + 0.5).Floor
  }

  /** Rounding never leaves an interval with integer end points. */
  lemma RoundWithin(x: real, lo: int, hi: int)
    requires lo as real <= x <= hi as real
    ensures lo <= Round(x) <= hi
  {
  }

  /** The risk rule: HIGH when the battery is below 25 or the load above 80,
      otherwise MEDIUM when the battery is below `mediumBelow`, otherwise LOW. */
  function Classify(battery: real, load: real, mediumBelow: real): (r: Risk)
    ensures r == HIGH <==> battery < HIGH_BATTERY_BELOW || load > HIGH_LOAD_ABOVE
    ensures r == MEDIUM <==> !(battery < HIGH_BATTERY_BELOW || load > HIGH_LOAD_ABOVE) && battery < mediumBelow
    ensures r == LOW <==> battery >= HIGH_BATTERY_BELOW && load <= HIGH_LOAD_ABOVE && battery >= mediumBelow
  {
    if battery < HIGH_BATTERY_BELOW || load > HIGH_LOAD_ABOVE then HIGH
    else if battery < mediumBelow then MEDIUM
    else LOW
  }

  /** When the load cannot exceed 80, the risk is HIGH exactly when the
      battery is below 25. */
  lemma HighOnlyFromBattery(battery: real, load: real, mediumBelow: real)
    requires load <= HIGH_LOAD_ABOVE
    ensures Classify(battery, load, mediumBelow) == HIGH <==> battery < HIGH_BATTERY_BELOW
  {
  }

  /** A lower MEDIUM threshold never raises the risk level. */
  lemma LowerMediumThresholdIsMilder(battery: real, load: real, lower: real, higher: real)
    requires lower <= higher
    ensures Classify(battery, load, higher) == LOW ==> Classify(battery, load, lower) == LOW
    ensures Classify(battery, load, lower) == HIGH <==> Classify(battery, load, higher) == HIGH
  {
  }
}
