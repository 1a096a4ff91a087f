/** The shared micro-grid engine of `src/EnergyContext.jsx`: the next-state
    callback that the provider's interval applies to its single `data` cell.

    The callback builds a fresh state from the previous one out of constant
    expressions, so it is modelled as the pure function `Step`; the cell it
    replaces is the class `EnergyProvider`. */
module EnergyContext {
  import opened Common

  // ---------------------------------------------------------------------
  // Simulated time
  // ---------------------------------------------------------------------

  /** The hour of day is kept on the quarter-hour grid: quarter q stands for
      hour q/4. Starting from hour 6 the source only ever visits
      0, 0.25, ..., 24, which are exact in floating point. */
  function Hour(q: int): real
  {
    q as real / 4.0
  }

  /** The last quarter on the dial: hour 24, visited before the reset. */
  const LAST_QUARTER: nat := 96
  /** Number of distinct quarters visited in one simulated day (0 to 24). */
  const DIAL: nat := 97

  /** One tick of the clock: back to 0 once hour 24 is reached, otherwise a
      quarter-hour later. */
  function NextQuarter(q: nat): (r: nat)
    ensures Hour(r) == if Hour(q) >= 24.0 then 0.0 else Hour(q) + 0.25
    ensures q <= LAST_QUARTER ==> r <= LAST_QUARTER && r == (q + 1) % DIAL
  {
    if q >= LAST_QUARTER then 0 else q + 1
  }

  /** The quarter reached after `n` ticks. */
  function Advance(q: nat, n: nat): nat
    decreases n
  {
    if n == 0 then q else Advance(NextQuarter(q), n - 1)
  }

  /** On the dial the clock is addition modulo 97. */
  lemma {:induction false} AdvanceIsModular(q: nat, n: nat)
    requires q <= LAST_QUARTER
    ensures Advance(q, n) == (q + n) % DIAL
    decreases n
  {
    if n > 0 {
      AdvanceIsModular(NextQuarter(q), n - 1);
      assert (q + 1) % DIAL + (n - 1) == (q + n) || (q + 1) % DIAL + (n - 1) == q + n - DIAL;
    }
  }

  /** The clock does not come back to a quarter of the dial in fewer than
      97 ticks. */
  lemma NoEarlyReturn(q: nat, k: nat)
    requires q <= LAST_QUARTER && 0 < k < DIAL
    ensures Advance(q, k) != q
  {
    AdvanceIsModular(q, k);
    if q + k < DIAL {
      assert (q + k) % DIAL == q + k;
    } else {
      assert (q + k) % DIAL == q + k - DIAL;
    }
  }

  /** From any quarter on the dial, the clock reaches hour 24 and returns to
      its start after exactly 97 ticks and not before. */
  lemma DayCycle(q: nat)
    requires q <= LAST_QUARTER
    ensures Advance(q, LAST_QUARTER - q) == LAST_QUARTER
    ensures Advance(q, DIAL) == q
    ensures forall k :: 0 < k < DIAL ==> Advance(q, k) != q
  {
    AdvanceIsModular(q, LAST_QUARTER - q);
    assert (q + (LAST_QUARTER - q)) % DIAL == LAST_QUARTER;
    AdvanceIsModular(q, DIAL);
    assert (q + DIAL) % DIAL == q;
    forall k | 0 < k < DIAL
      ensures Advance(q, k) != q
    {
      NoEarlyReturn(q, k);
    }
  }

  /** Every quarter of the dial is reached from every other one, within
      one day. */
  lemma ReachesEveryQuarter(q: nat, p: nat)
    requires q <= LAST_QUARTER && p <= LAST_QUARTER
    ensures Advance(q, if q <= p then p - q else p + DIAL - q) == p
  {
    var n := if q <= p then p - q else p + DIAL - q;
    AdvanceIsModular(q, n);
    if q <= p {
      assert (q + n) % DIAL == p;
    } else {
      assert (q + n) % DIAL == p;
    }
  }

  // ---------------------------------------------------------------------
  // Supply and demand
  // ---------------------------------------------------------------------

  /** The solar curve `max(0, 100 sin(pi h / 12))`. As written it peaks at
      hour 6; at hour 12 it is `100 sin(PI)`, a tiny positive number, and
      from hour 12.25 to hour 24 it is clamped to zero. */
  function Solar(h: real, sin: real -> real): (r: real)
    ensures r >= 0.0
    ensures UnitRange(sin) ==> r <= 100.0
    ensures r > 0.0 <==> sin(PI * h / 12.0) > 0.0
  {
    Max(0.0, 100.0 * sin(PI * h / 12.0))
  }

  /** From hour 0 to hour 12 the curve is the unclamped sine. */
  lemma SolarMorning(q: nat, sin: real -> real)
    requires SineSigns(sin)
    requires q <= 48
    ensures Solar(Hour(q), sin) == 100.0 * sin(PI * Hour(q) / 12.0)
  {
    assert 0.0 <= PI * Hour(q) / 12.0 <= PI;
  }

  /** From hour 12.25 to hour 24 no solar power is produced. */
  lemma SolarNight(q: nat, sin: real -> real)
    requires SineSigns(sin)
    requires 48 < q <= LAST_QUARTER
    ensures Solar(Hour(q), sin) == 0.0
  {
    assert PI_ABOVE <= PI * Hour(q) / 12.0 <= 2.0 * PI;
  }

  /** Wind: a slow oscillation plus jitter of up to 15. */
  function Wind(h: real, sin: real -> real, r: real): (w: real)
    ensures UnitRange(sin) && IsDraw(r) ==> 20.0 <= w < 75.0
  {
    40.0 + 20.0 * sin(h * 0.8) + r * 15.0
  }

  /** Grid backup, decided by the PREVIOUS battery level. */
  function GridBackup(prevBattery: real, r: real): (g: real)
    ensures prevBattery >= HIGH_BATTERY_BELOW ==> g == 0.0
    ensures IsDraw(r) ==> (g != 0.0 <==> prevBattery < HIGH_BATTERY_BELOW)
    ensures IsDraw(r) && prevBattery < HIGH_BATTERY_BELOW ==> 50.0 <= g < 80.0
  {
    if prevBattery < HIGH_BATTERY_BELOW then 50.0 + r * 30.0 else 0.0
  }

  /** Base load by time-of-day band: 30 by default, 55 in the evening and
      night, 40 in the morning. The two overrides are applied in the order
      the source applies them. */
  function BaseLoad(h: real): (b: real)
    ensures h < 6.0 || h >= 18.0 ==> b == 55.0
    ensures 6.0 <= h < 9.0 ==> b == 40.0
    ensures 9.0 <= h < 18.0 ==> b == 30.0
  {
    var initial := 30.0;
    var evening := if h >= 18.0 || h < 6.0 then 55.0 else initial;
    if h >= 6.0 && h < 9.0 then 40.0 else evening
  }

  /** Demand: the band's base plus jitter of up to 10. */
  function Load(h: real, r: real): (l: real)
    ensures IsDraw(r) ==> BaseLoad(h) <= l < BaseLoad(h) + 10.0
    ensures IsDraw(r) ==> 30.0 <= l < 65.0
  {
    BaseLoad(h) + r * 10.0
  }

  // ---------------------------------------------------------------------
  // Battery and risk
  // ---------------------------------------------------------------------

  /** Weighted generation feeding the battery. */
  function Input(solar: real, wind: real, grid: real): real
  {
    solar * 0.6 + wind * 0.3 + grid * 0.1
  }

  /** Charge balance of the multi-source engine: the previous charge moved by
      1.5% of the surplus (or deficit), then clamped to [0,100]. */
  function Battery(prev: real, input: real, load: real): (b: real)
    ensures 0.0 <= b <= 100.0
    ensures 0.0 <= prev <= 100.0 && input >= load ==> b >= prev
    ensures 0.0 <= prev <= 100.0 && input <= load ==> b <= prev
    ensures input == load ==> b == ClampPercent(prev)
    ensures 0.0 <= prev + (input - load) * 0.015 <= 100.0 ==> b == prev + (input - load) * 0.015
  {
    ClampPercent(prev + (input - load) * 0.015)
  }

  // ---------------------------------------------------------------------
  // State and step
  // ---------------------------------------------------------------------

  /** One snapshot of the provider's `data` cell; `quarter` stands for `hour`. */
  datatype GridState = GridState(
    quarter: nat,
    solar: real,
    wind: real,
    grid: real,
    battery: real,
    load: real,
    risk: Risk)

  /** The three `Math.random()` draws of one tick, in source order. The grid
      draw is only consumed when the previous battery is below 25. */
  datatype Draws = Draws(wind: real, grid: real, load: real)

  predicate ValidDraws(d: Draws)
  {
    IsDraw(d.wind) && IsDraw(d.grid) && IsDraw(d.load)
  }

  /** The provider's initial state: hour 6, battery 70, load 50, risk LOW. */
  function Initial(): GridState
  {
    GridState(24, 0.0, 0.0, 0.0, 70.0, 50.0, LOW)
  }

  /** The next-state callback: every field of the new state is computed from
      the new hour, the previous battery and the tick's draws. */
  function Step(prev: GridState, sin: real -> real, d: Draws): (next: GridState)
    ensures next.quarter == NextQuarter(prev.quarter)
    ensures 0.0 <= next.battery <= 100.0
    ensures next.solar >= 0.0
    ensures next.solar > 0.0 <==> sin(PI * Hour(next.quarter) / 12.0) > 0.0
    ensures var bal := prev.battery + (next.solar * 0.6 + next.wind * 0.3 + next.grid * 0.1 - next.load) * 0.015;
      0.0 <= bal <= 100.0 ==> next.battery == bal
    ensures next.risk == HIGH <==> next.battery < HIGH_BATTERY_BELOW || next.load > HIGH_LOAD_ABOVE
    ensures next.risk == MEDIUM <==> !(next.battery < HIGH_BATTERY_BELOW || next.load > HIGH_LOAD_ABOVE) && next.battery < ENGINE_MEDIUM_BELOW
  {
    var quarter := NextQuarter(prev.quarter);
    var hour := Hour(quarter);
    var solar := Solar(hour, sin);
    var wind := Wind(hour, sin, d.wind);
    var grid := GridBackup(prev.battery, d.grid);
    var load := Load(hour, d.load);
    var battery := Battery(prev.battery, Input(solar, wind, grid), load);
    var risk := Classify(battery, load, ENGINE_MEDIUM_BELOW);
    GridState(quarter, solar, wind, grid, battery, load, risk)
  }

  /** The ranges every field of a new state lies in, for any previous state. */
  lemma StepRanges(prev: GridState, sin: real -> real, d: Draws)
    requires UnitRange(sin) && ValidDraws(d)
    ensures var next := Step(prev, sin, d);
      && 0.0 <= next.solar <= 100.0
      && 20.0 <= next.wind < 75.0
      && (next.grid != 0.0 <==> prev.battery < HIGH_BATTERY_BELOW)
      && (prev.battery < HIGH_BATTERY_BELOW ==> 50.0 <= next.grid < 80.0)
      && BaseLoad(Hour(next.quarter)) <= next.load < BaseLoad(Hour(next.quarter)) + 10.0
      && next.load < 65.0
  {
  }

  /** Solar follows the NEW hour: after a step onto hours 12.25 to 24 no
      solar power is produced, and after a step onto hours 0 to 12 it is the
      unclamped sine of that hour. */
  lemma StepSolarFollowsHour(prev: GridState, sin: real -> real, d: Draws)
    requires SineSigns(sin)
    ensures var next := Step(prev, sin, d);
      && (48 < next.quarter <= LAST_QUARTER ==> next.solar == 0.0)
      && (next.quarter <= 48 ==> next.solar == 100.0 * sin(PI * Hour(next.quarter) / 12.0))
  {
    var next := Step(prev, sin, d);
    if 48 < next.quarter <= LAST_QUARTER {
      SolarNight(next.quarter, sin);
    } else if next.quarter <= 48 {
      SolarMorning(next.quarter, sin);
    }
  }

  /** The battery charges when the weighted input covers the load and
      discharges when it does not. */
  lemma StepBatteryDirection(prev: GridState, sin: real -> real, d: Draws)
    requires 0.0 <= prev.battery <= 100.0
    ensures var next := Step(prev, sin, d);
      && (Input(next.solar, next.wind, next.grid) >= next.load ==> next.battery >= prev.battery)
      && (Input(next.solar, next.wind, next.grid) <= next.load ==> next.battery <= prev.battery)
  {
  }

  /** The `load > 80` branch of the risk rule is unreachable: the risk is
      HIGH exactly when the new battery is below 25. */
  lemma StepHighRiskIsLowBattery(prev: GridState, sin: real -> real, d: Draws)
    requires IsDraw(d.load)
    ensures var next := Step(prev, sin, d);
      && (next.risk == HIGH <==> next.battery < HIGH_BATTERY_BELOW)
      && (next.risk == MEDIUM <==> HIGH_BATTERY_BELOW <= next.battery < ENGINE_MEDIUM_BELOW)
      && (next.risk == LOW <==> next.battery >= ENGINE_MEDIUM_BELOW)
  {
    var next := Step(prev, sin, d);
    HighOnlyFromBattery(next.battery, next.load, ENGINE_MEDIUM_BELOW);
  }

  /** The first tick from the initial state with every draw at zero: hour
      6.25, no grid backup, the morning base load of 40, and a battery that
      rises from 70 exactly when the weighted input exceeds that load. */
  lemma FirstTick(sin: real -> real)
    ensures var next := Step(Initial(), sin, Draws(0.0, 0.0, 0.0));
      && Hour(next.quarter) == 6.25
      && next.grid == 0.0
      && next.load == 40.0
      && next.wind == 40.0 + 20.0 * sin(5.0)
      && (next.battery > 70.0 <==> Input(next.solar, next.wind, 0.0) > 40.0)
  {
  }

  /** What holds of every state the provider ever holds. */
  predicate Healthy(s: GridState)
  {
    && s.quarter <= LAST_QUARTER
    && 0.0 <= s.battery <= 100.0
    && 0.0 <= s.solar <= 100.0
    && s.load < 65.0
    && (s.risk == HIGH <==> s.battery < HIGH_BATTERY_BELOW)
  }

  /** The initial state is healthy and every step keeps it so. */
  lemma StepKeepsHealthy(s: GridState, sin: real -> real, d: Draws)
    requires UnitRange(sin) && ValidDraws(d)
    ensures Healthy(Initial())
    ensures Healthy(s) ==> Healthy(Step(s, sin, d))
  {
    StepRanges(s, sin, d);
    StepHighRiskIsLowBattery(s, sin, d);
  }

  /** The provider's single state cell, replaced whole on every interval. */
  class EnergyProvider {
    var data: GridState

    ghost predicate Valid()
      reads this
    {
      Healthy(data)
    }

    constructor ()
      ensures Valid()
      ensures data == Initial()
    {
      data := Initial();
    }

    /** One interval: `setData(prev => ...)`. */
    method Tick(sin: real -> real, d: Draws)
      requires Valid() && UnitRange(sin) && ValidDraws(d)
      modifies this
      ensures Valid()
      ensures data == Step(old(data), sin, d)
    {
      StepKeepsHealthy(data, sin, d);
      data := Step(data, sin, d);
    }
  }
}
