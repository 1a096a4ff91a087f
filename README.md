# VoltPulse micro-grid model in Dafny

VoltPulse simulates a community micro-grid and shows an outage-risk level and
a feed of advisories. This project models the three pieces of the web app
that hold logic:

- **The engine** (`src/EnergyContext.jsx`, module `EnergyContext`). The
  provider keeps one `data` cell. Every interval it replaces that cell with a
  state computed from the previous one: the clock advances a quarter-hour,
  solar, wind, grid-backup supply and a time-banded load are computed, the
  battery moves by a weighted balance clamped to [0,100], and the risk is
  classified LOW, MEDIUM or HIGH. This computation is the pure function
  `Step`. The cell is the class `EnergyProvider`.
- **The Guardian monitor** (`src/pages/Guardian.jsx`, module `Guardian`).
  This page has its own solar-only copy of the step, with rate 0.02 and no
  wind or grid. It adds four advisory rules and a newest-first activity log.
  Its state cells form the class `GuardianMonitor`. `AdvanceHour` is the
  clock interval. `OnHourChange` is the effect that runs on every hour
  change, split into `UpdateEnergy` and `UpdateLog`. The page also maps a
  risk level to a colour.
- **The dashboard** (`src/pages/Dashboard.jsx`, module `Dashboard`). A tick
  counter and display values derived from it by closed formulas. The page
  has its own risk rule, which uses MEDIUM below 35, and its own text and
  colour per risk level.

Module `Common` holds what the three share: the `Risk` levels, the risk rule
`Classify` with its MEDIUM threshold as a parameter, the battery clamp and
`Math.round`.

Modelling choices:

- Numbers are mathematical reals.
- The hour is kept as a quarter count `q` with `hour = q/4`. Starting from
  hour 6, the source only visits 0, 0.25, …, 24, and all of these are exact
  in floating point.
- `Math.sin` and `Math.cos` are passed in as `real -> real` values.
  `UnitRange` says that their values lie in [-1,1]. `SineSigns` says that
  sine is non-negative on [0,`PI`] and non-positive on [3.1416,2·`PI`],
  where `PI` is the double `Math.PI` (just below π). Both facts hold of
  the real sine. Lemmas assume them only where they need them.
- Each `Math.random()` draw is a real parameter. `IsDraw` says it lies in
  [0,1).
- `Math.round` is `floor(x + 0.5)`, specified by `r - 0.5 <= x < r + 0.5`.
- Timestamps from `new Date().toLocaleTimeString()` are string parameters.
- On the Guardian page, the hour effect reads the battery left by the
  previous run of that effect. The model reads the current `battery` field,
  which holds exactly that value.

Facts about the code worth knowing:

- The clock visits hour 24 before it resets to 0, so one simulated day
  has 97 quarters (`DayCycle`).
- The solar curve `100·sin(π·h/12)` peaks at hour 6. At hour 12 it is
  `100·Math.sin(Math.PI)`, about 1.2e-14. From hour 12.25 to hour 24 it is
  clamped to zero (`SolarMorning`, `SolarNight`).
- The Guardian log keeps the new messages plus eight old entries. The
  comment beside that code at src/pages/Guardian.jsx:63 speaks of the
  latest nine entries, but the log can hold ten (`LogCanHoldTen`). Ten is
  also the most it can hold (`GuardianMonitor.Valid`).

## Model

| member | source | states |
|---|---|---|
| `Common.ClampPercent` | src/EnergyContext.jsx:38-41 | the clamp `max(0, min(100, x))` lies in [0,100], is `x` itself inside that range, and is the nearer end point outside it |
| `Common.Round` | src/pages/Guardian.jsx:37-38 | `Math.round` gives the integer within half a unit of its argument (halves round up) |
| `Common.RoundWithin` | src/pages/Dashboard.jsx:29-31 | rounding a value that lies between two integers gives a result between those integers |
| `Common.Classify` | src/EnergyContext.jsx:44-49 | risk is HIGH iff battery < 25 or load > 80; otherwise MEDIUM iff battery is below the page's threshold; otherwise LOW. All three directions are stated as iffs |
| `Common.HighOnlyFromBattery` | src/EnergyContext.jsx:44-49 | when the load cannot exceed 80, risk is HIGH exactly when the battery is below 25 |
| `Common.LowerMediumThresholdIsMilder` | src/pages/Dashboard.jsx:32 | the dashboard's threshold of 35 never makes a level worse than the engine's 40 would, and both thresholds agree on HIGH |
| `EnergyContext.NextQuarter` | src/EnergyContext.jsx:19 | the next hour is 0 when the previous hour is ≥ 24, otherwise previous + 0.25; on the dial [0,24] this is `q+1 mod 97` |
| `EnergyContext.AdvanceIsModular` | src/EnergyContext.jsx:19 | after n ticks from a quarter on the dial, the clock reads `(q+n) mod 97` |
| `EnergyContext.DayCycle` | src/EnergyContext.jsx:19 | from any hour in {0, 0.25, …, 24} the clock reaches 24, and returns to its start after exactly 97 ticks and no fewer |
| `EnergyContext.NoEarlyReturn` | src/EnergyContext.jsx:19 | from a quarter on the dial, the clock is somewhere else after any 1 to 96 ticks |
| `EnergyContext.ReachesEveryQuarter` | src/EnergyContext.jsx:19 | every quarter of the dial is reached from every other one within one day |
| `EnergyContext.Solar` | src/EnergyContext.jsx:22 | solar is never negative, at most 100 when sine lies in [-1,1], and positive exactly when the sine term is positive |
| `EnergyContext.SolarMorning` | src/EnergyContext.jsx:22 | from hour 0 to hour 12 the clamp is inactive, so solar is `100·sin(π·h/12)` |
| `EnergyContext.SolarNight` | src/EnergyContext.jsx:22 | from hour 12.25 to hour 24 solar is exactly 0 (at hour 12 it is the tiny positive `100·sin(PI)`) |
| `EnergyContext.Wind` | src/EnergyContext.jsx:25 | wind lies in [20,75) for a sine in [-1,1] and a draw in [0,1) |
| `EnergyContext.GridBackup` | src/EnergyContext.jsx:28 | backup is non-zero iff the previous battery is below 25; it then lies in [50,80); otherwise it is exactly 0 |
| `EnergyContext.BaseLoad` | src/EnergyContext.jsx:31-33 | base load is 55 for hours below 6 or from 18 on, 40 in [6,9) and 30 in [9,18) |
| `EnergyContext.Load` | src/EnergyContext.jsx:34 | load lies in [base, base+10) and therefore in [30,65) |
| `EnergyContext.Battery` | src/EnergyContext.jsx:37-41 | the new battery lies in [0,100]; it is the unclamped balance `prev + 1.5%·(input − load)` whenever that balance is in range; starting from [0,100], it does not fall when input ≥ load and does not rise when input ≤ load |
| `EnergyContext.Step` | src/EnergyContext.jsx:18-52 | the next state has the next hour, a battery in [0,100] and non-negative solar that is positive exactly when the sine of the NEW hour is, and its risk follows the rule applied to its own new battery and load; whenever the unclamped balance `prev.battery + 1.5%·(0.6·solar + 0.3·wind + 0.1·grid − load)` lies in [0,100], the new battery is exactly that balance |
| `EnergyContext.StepSolarFollowsHour` | src/EnergyContext.jsx:19-22 | solar is computed from the advanced hour: after a step onto hours 12.25 to 24 it is 0, after a step onto hours 0 to 12 it is the unclamped `100·sin(π·h/12)` of the new hour |
| `EnergyContext.StepRanges` | src/EnergyContext.jsx:22-34 | every supply and demand field of a new state lies in its range: solar [0,100], wind [20,75), grid by the previous battery, load in its band and below 65 |
| `EnergyContext.StepBatteryDirection` | src/EnergyContext.jsx:37-41 | across one step the battery charges when the weighted input covers the load and discharges when it does not |
| `EnergyContext.StepHighRiskIsLowBattery` | src/EnergyContext.jsx:34-49 | the `load > 80` branch is unreachable: risk is HIGH iff the new battery < 25, MEDIUM iff it lies in [25,40), and LOW iff it is ≥ 40 |
| `EnergyContext.FirstTick` | src/EnergyContext.jsx:6-52 | from the initial state with zero draws: hour 6.25, grid 0, load 40, wind `40 + 20·sin(5)`, and the battery rises iff the weighted input exceeds 40 |
| `EnergyContext.StepKeepsHealthy` | src/EnergyContext.jsx:6-52 | the initial state and every step keep the invariant `Healthy`: the quarter is on the dial, battery and solar lie in [0,100], load is below 65, and risk is HIGH iff battery < 25 |
| `EnergyContext.EnergyProvider.constructor` | src/EnergyContext.jsx:6-14 | the cell starts at hour 6, battery 70, load 50, risk LOW |
| `EnergyContext.EnergyProvider.Tick` | src/EnergyContext.jsx:16-53 | one interval replaces the cell with `Step` of its old value and keeps the ranges invariant |
| `Guardian.SolarOnlyBattery` | src/pages/Guardian.jsx:30-31 | the solar-only battery lies in [0,100], is the unclamped balance whenever that balance is in range, and rises or falls with the sign of solar − load |
| `Guardian.Advisories` | src/pages/Guardian.jsx:43-55 | an advisory is produced iff its rule's condition holds; advisories come in rule order (night, low battery, full battery, high demand); there are at most three |
| `Guardian.ExclusiveAdvisories` | src/pages/Guardian.jsx:44-51 | night and full battery never fire together, and neither do low battery and full battery |
| `Guardian.AtMostTwoAdvisories` | src/pages/Guardian.jsx:26-55 | with the load drawn as base + 10·r, high demand never fires, so a tick gives at most two advisories |
| `Guardian.Messages` | src/pages/Guardian.jsx:43-55 | the message list has one entry per advisory, and entry i is the text that advisory i pushes |
| `Guardian.Decide` | src/pages/Guardian.jsx:43-55 | the successive pushes produce exactly the messages of the fired advisories, in rule order |
| `Guardian.Stamp` | src/pages/Guardian.jsx:58-62 | each message becomes one entry with that text and the one shared timestamp |
| `Guardian.PrependLog` | src/pages/Guardian.jsx:57-63 | with no messages the log is unchanged; otherwise it is the stamped messages followed by the first eight old entries, with length k + min(old, 8) |
| `Guardian.LogStaysBounded` | src/pages/Guardian.jsx:63 | with at most two messages per update, a log of 1 to 10 entries stays within 1 to 10 |
| `Guardian.LogCanHoldTen` | src/pages/Guardian.jsx:63 | a night-time, low-battery tick on a ten-entry log leaves ten entries, more than the nine the comment mentions |
| `Guardian.RiskColor` | src/pages/Guardian.jsx:130-134 | gold iff HIGH, blue iff MEDIUM, green iff LOW |
| `Guardian.GuardianMonitor.constructor` | src/pages/Guardian.jsx:4-14 | battery 70, solar 0, load 40, risk LOW, hour 6, and a log holding only the start-up entry |
| `Guardian.GuardianMonitor.AdvanceHour` | src/pages/Guardian.jsx:16-21 | the hour advances by the engine's clock rule and always changes, so the hour effect runs after every tick; nothing else changes |
| `Guardian.GuardianMonitor.OnHourChange` | src/pages/Guardian.jsx:23-65 | a solar-only step from the current hour and the previous battery; rounded solar and load; risk from the new bounded battery and unrounded load, HIGH iff the battery is below 25; the log is updated with the advisories; the invariant holds (battery in [0,100], hour on the dial, 1 to 10 log entries) |
| `Guardian.GuardianMonitor.UpdateEnergy` | src/pages/Guardian.jsx:24-40 | overwrites battery, solar, load and risk as the energy logic computes them, and leaves the hour and the log alone |
| `Guardian.GuardianMonitor.UpdateLog` | src/pages/Guardian.jsx:42-64 | prepends the fired advisories' messages to the log and leaves the other cells alone |
| `Dashboard.Derive` | src/pages/Dashboard.jsx:28-34 | risk is HIGH iff battery < 25 or load > 80, MEDIUM iff the battery lies in [25,35) and load ≤ 80, and LOW iff battery ≥ 35 and load ≤ 80 |
| `Dashboard.DeriveRanges` | src/pages/Dashboard.jsx:29-32 | with sine and cosine in [-1,1]: solar lies in [35,85], battery in [-5,75] and load in [5,75], so HIGH comes only from battery < 25 |
| `Dashboard.BatteryNotClamped` | src/pages/Dashboard.jsx:30 | the displayed battery goes below 0 when its sine term is below −0.8875, and equals −5 at sine −1 |
| `Dashboard.Advice` | src/pages/Dashboard.jsx:56-60 | a total map from the three risk levels to three distinct advisory texts |
| `Dashboard.RiskClass` | src/pages/Dashboard.jsx:52 | gold only for HIGH; MEDIUM and LOW both green |
| `Dashboard.Counter.constructor` | src/pages/Dashboard.jsx:22 | the counter starts at 0 |
| `Dashboard.Counter.Tick` | src/pages/Dashboard.jsx:24 | each interval increases the counter by exactly 1 |

## Left out

- React rendering is not modelled: JSX markup, the `Stat` components, `toFixed` display formatting and context wiring (`useEnergy`).
- Timers are not modelled. Each `setInterval` firing is one call of the corresponding method, made by the caller.
- The Guardian hour effect also runs once on mount, at hour 6. The model leaves that ordering to the caller, which calls `OnHourChange` once after construction.
- `Math.random`, `Math.sin` and `Math.cos` are not computed. Draws and trig values are parameters, and only their ranges and the signs of sine are assumed.
- In the engine, the grid draw is only taken when the previous battery is below 25. The model takes all three draws as independent parameters, so it does not capture which physical draw feeds the load.
- IEEE-754 rounding is not modelled. Arithmetic is exact over the reals, and `Math.round` uses real `floor`.
- The timestamp text from `toLocaleTimeString` is not modelled. It is a parameter.
- src/App.jsx, src/pages/Landing.jsx, src/pages/About.jsx, src/pages/Loading.jsx and tailwind.config.js are not part of this model: they hold routing, static text, a timed phrase carousel and styling.
