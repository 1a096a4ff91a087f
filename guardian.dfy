/** The Guardian monitor page of `src/pages/Guardian.jsx`: its own solar-only
    copy of the grid step, four advisory rules and a newest-first activity
    log.

    The page keeps its state in separate cells (battery, solar, load, risk,
    hour, logs) that its two effects overwrite, so it is modelled as the class
    `GuardianMonitor`, whose methods are the two effects. */
module Guardian {
  import opened Common
  import opened EnergyContext

  // ---------------------------------------------------------------------
  // Energy logic of the solar-only copy
  // ---------------------------------------------------------------------

  /** Charge balance of the solar-only copy: 2% of the solar surplus (or
      deficit) against the load, clamped to [0,100]. */
  function SolarOnlyBattery(prev: real, solarInput: real, load: real): (b: real)
    ensures 0.0 <= b <= 100.0
    ensures 0.0 <= prev <= 100.0 && solarInput >= load ==> b >= prev
    ensures 0.0 <= prev <= 100.0 && solarInput <= load ==> b <= prev
    ensures 0.0 <= prev + (solarInput - load) * 0.02 <= 100.0 ==> b == prev + (solarInput - load) * 0.02
  {
    ClampPercent(prev + (solarInput - load) * 0.02)
  }

  // ---------------------------------------------------------------------
  // Advisory rules
  // ---------------------------------------------------------------------

  /** The four advisories, in the order the rules are checked. */
  datatype Advisory = Night | LowBattery | FullBattery | HighDemand

  /** Position of an advisory in the rule order. */
  function Rank(a: Advisory): nat
  {
    match a
    case Night => 0
    case LowBattery => 1
    case FullBattery => 2
    case HighDemand => 3
  }

  /** The message each advisory pushes. */
  function Message(a: Advisory): (m: string)
    ensures |m| > 0
  {
    match a
    case Night => "🌙 Night detected. Switching to battery reserve mode."
    case LowBattery => "⚠️ Battery low. Recommending reduced consumption."
    case FullBattery => "🔋 Battery full. Diverting excess to grid or storage."
    case HighDemand => "⚡ High demand detected. Prioritizing essential loads."
  }

  /** The readings the rules look at: the hour, the unrounded solar input,
      the new bounded battery and the unrounded load. */
  datatype Reading = Reading(hour: real, solarInput: real, battery: real, load: real)

  /** When each rule fires. */
  predicate Fires(a: Advisory, x: Reading)
  {
    match a
    case Night => x.solarInput < 20.0 && x.hour >= 18.0
    case LowBattery => x.battery < 30.0 && x.solarInput < 10.0
    case FullBattery => x.battery > 90.0 && x.solarInput > 80.0
    case HighDemand => x.load > 75.0
  }

  /** One rule applied: its advisory is pushed when it fires. */
  function Push(advs: seq<Advisory>, a: Advisory, x: Reading): seq<Advisory>
  {
    if Fires(a, x) then advs + [a] else advs
  }

  /** The advisories of one reading: the four rules applied in order. */
  function Advisories(x: Reading): (r: seq<Advisory>)
    ensures forall a :: a in r <==> Fires(a, x)
    ensures forall i, j :: 0 <= i < j < |r| ==> Rank(r[i]) < Rank(r[j])
    ensures |r| <= 3
  {
    Push(Push(Push(Push([], Night, x), LowBattery, x), FullBattery, x), HighDemand, x)
  }

  /** Night and full battery exclude each other, and so do low battery and
      full battery. */
  lemma ExclusiveAdvisories(x: Reading)
    ensures !(Fires(Night, x) && Fires(FullBattery, x))
    ensures !(Fires(LowBattery, x) && Fires(FullBattery, x))
  {
  }

  /** With a load drawn as base plus up to 10, the high-demand rule never
      fires, so a tick produces at most two advisories: night and low
      battery. */
  lemma AtMostTwoAdvisories(hour: real, solarInput: real, battery: real, r: real)
    requires IsDraw(r)
    ensures var adv := Advisories(Reading(hour, solarInput, battery, Load(hour, r)));
      && HighDemand !in adv
      && |adv| <= 2
  {
    var x := Reading(hour, solarInput, battery, Load(hour, r));
    assert !Fires(HighDemand, x);
    ExclusiveAdvisories(x);
  }

  /** The messages of a sequence of advisories. */
  function Messages(advs: seq<Advisory>): (ms: seq<string>)
    ensures |ms| == |advs|
    ensures forall i :: 0 <= i < |advs| ==> ms[i] == Message(advs[i])
  {
    if advs == [] then [] else [Message(advs[0])] + Messages(advs[1..])
  }

  /** Pushing one more message is taking the messages of one more advisory. */
  lemma MessagesPush(advs: seq<Advisory>, a: Advisory)
    ensures Messages(advs + [a]) == Messages(advs) + [Message(a)]
  {
    assert forall i :: 0 <= i < |advs| ==> (advs + [a])[i] == advs[i];
  }

  /** The rules applied one after another, each pushing its message when it
      fires. */
  method Decide(x: Reading) returns (newMessages: seq<string>)
    ensures newMessages == Messages(Advisories(x))
  {
    ghost var advs: seq<Advisory> := [];
    newMessages := [];
    if x.solarInput < 20.0 && x.hour >= 18.0 {
      MessagesPush(advs, Night);
      newMessages := newMessages + [Message(Night)];
    }
    advs := Push(advs, Night, x);
    if x.battery < 30.0 && x.solarInput < 10.0 {
      MessagesPush(advs, LowBattery);
      newMessages := newMessages + [Message(LowBattery)];
    }
    advs := Push(advs, LowBattery, x);
    if x.battery > 90.0 && x.solarInput > 80.0 {
      MessagesPush(advs, FullBattery);
      newMessages := newMessages + [Message(FullBattery)];
    }
    advs := Push(advs, FullBattery, x);
    if x.load > 75.0 {
      MessagesPush(advs, HighDemand);
      newMessages := newMessages + [Message(HighDemand)];
    }
    advs := Push(advs, HighDemand, x);
  }

  // ---------------------------------------------------------------------
  // Activity log
  // ---------------------------------------------------------------------

  /** A log entry; the timestamp is an opaque string supplied by the caller. */
  datatype LogEntry = LogEntry(text: string, time: string)

  /** The entry the log starts with. */
  const ONLINE_MESSAGE: string := "🧠 Guardian online. Monitoring systems in real time..."

  /** How many old entries survive a prepend. */
  const KEPT: nat := 8

  /** Every message stamped with one shared timestamp. */
  function Stamp(msgs: seq<string>, time: string): (es: seq<LogEntry>)
    ensures |es| == |msgs|
    ensures forall i :: 0 <= i < |msgs| ==> es[i] == LogEntry(msgs[i], time)
  {
    if msgs == [] then [] else [LogEntry(msgs[0], time)] + Stamp(msgs[1..], time)
  }

  /** The log update: nothing when no message was produced, otherwise the new
      messages, newest batch first in rule order, followed by the first eight
      entries of the old log. */
  function PrependLog(msgs: seq<string>, time: string, logs: seq<LogEntry>): (r: seq<LogEntry>)
    ensures msgs == [] ==> r == logs
    ensures msgs != [] ==> |r| == |msgs| + (if |logs| < KEPT then |logs| else KEPT)
    ensures msgs != [] ==> forall i :: 0 <= i < |msgs| ==> r[i] == LogEntry(msgs[i], time)
    ensures msgs != [] ==> forall i :: 0 <= i < |logs| && i < KEPT ==> r[|msgs| + i] == logs[i]
  {
    if |msgs| > 0 then
      Stamp(msgs, time) + logs[..if |logs| < KEPT then |logs| else KEPT]
    else
      logs
  }

  /** The log never holds more than ten entries once it starts within that
      bound, as long as each update brings at most two messages. */
  lemma LogStaysBounded(msgs: seq<string>, time: string, logs: seq<LogEntry>)
    requires |msgs| <= 2 && 1 <= |logs| <= 10
    ensures 1 <= |PrependLog(msgs, time, logs)| <= 10
  {
  }

  /** The comment beside the log update speaks of the latest nine entries,
      but a night-time, low-battery tick on a full log leaves ten. */
  lemma LogCanHoldTen(time: string)
    ensures var logs := seq(10, i => LogEntry(ONLINE_MESSAGE, time));
      var x := Reading(18.0, 0.0, 0.0, 55.0);
      |PrependLog(Messages(Advisories(x)), time, logs)| == 10
  {
    var x := Reading(18.0, 0.0, 0.0, 55.0);
    assert Advisories(x) == [Night, LowBattery];
  }

  // ---------------------------------------------------------------------
  // Display
  // ---------------------------------------------------------------------

  const GOLD: string := "text-vp_gold"
  const BLUE: string := "text-vp_blue"
  const GREEN: string := "text-vp_green"

  /** `riskColor`: gold for HIGH, blue for MEDIUM, green otherwise. */
  function RiskColor(risk: Risk): (c: string)
    ensures c == GOLD <==> risk == HIGH
    ensures c == BLUE <==> risk == MEDIUM
    ensures c == GREEN <==> risk == LOW
  {
    assert GOLD[9] != GREEN[9] && GOLD[8] != BLUE[8] && BLUE[8] != GREEN[8];
    if risk == HIGH then GOLD
    else if risk == MEDIUM then BLUE
    else assert risk == LOW; GREEN
  }

  // ---------------------------------------------------------------------
  // The page state
  // ---------------------------------------------------------------------

  class GuardianMonitor {
    var battery: real
    var solar: int
    var load: int
    var risk: Risk
    var quarter: nat
    var logs: seq<LogEntry>

    /** Battery within [0,100], displayed readings within their ranges, the
        clock on the dial and a log of one to ten entries. */
    ghost predicate Valid()
      reads this
    {
      && 0.0 <= battery <= 100.0
      && 0 <= solar <= 100
      && 30 <= load <= 65
      && quarter <= LAST_QUARTER
      && 1 <= |logs| <= 10
    }

    /** The initial cells: battery 70, solar 0, load 40, risk LOW, hour 6,
        and the start-up entry in the log. */
    constructor (time: string)
      ensures Valid()
      ensures battery == 70.0 && solar == 0 && load == 40 && risk == LOW
      ensures Hour(quarter) == 6.0
      ensures logs == [LogEntry(ONLINE_MESSAGE, time)]
    {
      battery, solar, load, risk := 70.0, 0, 40, LOW;
      quarter := 24;
      logs := [LogEntry(ONLINE_MESSAGE, time)];
    }

    /** The clock interval: `setHour(prev => prev >= 24 ? 0 : prev + 0.25)`.
        The hour always changes, so the hour effect runs after every tick. */
    method AdvanceHour()
      requires Valid()
      modifies this
      ensures Valid()
      ensures quarter == NextQuarter(old(quarter)) && quarter != old(quarter)
      ensures battery == old(battery) && solar == old(solar) && load == old(load)
      ensures risk == old(risk) && logs == old(logs)
    {
      quarter := NextQuarter(quarter);
    }

    /** The hour effect: one solar-only grid step from the current hour and
        the battery left by the previous run, followed by the advisory rules
        and the log update. `sin` stands for `Math.sin`, `r` for the load
        draw and `time` for the time of day the entries are stamped with. */
    method OnHourChange(sin: real -> real, r: real, time: string)
      requires Valid() && UnitRange(sin) && IsDraw(r)
      modifies this
      ensures Valid()
      ensures quarter == old(quarter)
      ensures var solarInput := Solar(Hour(quarter), sin);
        var loadVariation := Load(Hour(quarter), r);
        && battery == SolarOnlyBattery(old(battery), solarInput, loadVariation)
        && solar == Round(solarInput)
        && load == Round(loadVariation)
        && risk == Classify(battery, loadVariation, ENGINE_MEDIUM_BELOW)
        && (risk == HIGH <==> battery < HIGH_BATTERY_BELOW)
        && logs == PrependLog(Messages(Advisories(Reading(Hour(quarter), solarInput, battery, loadVariation))), time, old(logs))
    {
      var x := UpdateEnergy(sin, r);
      HighOnlyFromBattery(x.battery, x.load, ENGINE_MEDIUM_BELOW);
      AtMostTwoAdvisories(x.hour, x.solarInput, x.battery, r);
      UpdateLog(x, time);
    }

    /** The energy logic of the hour effect: overwrites battery, solar, load
        and risk, and returns the unrounded readings the rules look at. */
    method UpdateEnergy(sin: real -> real, r: real) returns (x: Reading)
      requires Valid() && UnitRange(sin) && IsDraw(r)
      modifies this
      ensures Valid()
      ensures quarter == old(quarter) && logs == old(logs)
      ensures x == Reading(Hour(quarter), Solar(Hour(quarter), sin), battery, Load(Hour(quarter), r))
      ensures battery == SolarOnlyBattery(old(battery), x.solarInput, x.load)
      ensures solar == Round(x.solarInput) && load == Round(x.load)
      ensures risk == Classify(battery, x.load, ENGINE_MEDIUM_BELOW)
    {
      var hour := Hour(quarter);
      var solarInput := Solar(hour, sin);
      var loadVariation := Load(hour, r);
      var newBattery := battery + (solarInput - loadVariation) * 0.02;
      var boundedBattery := ClampPercent(newBattery);

      var newRisk := LOW;
      if boundedBattery < HIGH_BATTERY_BELOW || loadVariation > HIGH_LOAD_ABOVE {
        newRisk := HIGH;
      } else if boundedBattery < ENGINE_MEDIUM_BELOW {
        newRisk := MEDIUM;
      }

      RoundWithin(solarInput, 0, 100);
      RoundWithin(loadVariation, 30, 65);
      solar := Round(solarInput);
      load := Round(loadVariation);
      battery := boundedBattery;
      risk := newRisk;
      x := Reading(hour, solarInput, boundedBattery, loadVariation);
    }

    /** The decision-making part of the hour effect: the fired advisories are
        stamped with one timestamp and prepended to the log. */
    method UpdateLog(x: Reading, time: string)
      requires Valid() && |Advisories(x)| <= 2
      modifies this
      ensures Valid()
      ensures logs == PrependLog(Messages(Advisories(x)), time, old(logs))
      ensures quarter == old(quarter) && battery == old(battery) && solar == old(solar)
      ensures load == old(load) && risk == old(risk)
    {
      var newMessages := Decide(x);
      if |newMessages| > 0 {
        logs := PrependLog(newMessages, time, logs);
      }
      LogStaysBounded(newMessages, time, old(logs));
    }
  }
}
