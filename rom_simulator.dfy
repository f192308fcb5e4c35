/**
 * The reduced-order turbine simulator: the global turbine state, the bounded fault log,
 * one simulation step and the control functions (start, stop, inject a fault, maintenance).
 *
 * The state is described twice: as the value `Twin` (what the specification functions and
 * lemmas talk about) and as the two mutable globals `TurbineState` and `FaultLog` that the
 * methods update in place. Every method ensures that the new `Snapshot` of the globals is a
 * specification function of the old one. The random draws of a step are the `Noise` argument.
 */
module RomSimulator {
  import opened Telemetry

  const CHART_MAX_HISTORY: nat := 20
  const FAULT_LOG_MAX: nat := 10
  const BASE_TORQUE_HEALTHY: real := 105.0
  const MAX_POWER: real := 1000.0
  const MAX_CURRENT: real := 100.0
  /** The cap `min(120, ...)` a step puts on the winding temperature. */
  const TEMP_CAP: real := 120.0
  const RUL_DAYS: nat := 30

  const LOCATION_NONE: string := "None"
  const LOCATION_OFFLINE: string := "Offline"
  const LOCATION_BEARING: string := "High-Speed Bearing"

  const MSG_STARTED: string := "Simulation started"
  const MSG_STOPPED: string := "Simulation stopped"
  const MSG_FAULT: string := "Catastrophic bearing fault injected → rapid health drop"
  const MSG_MAINTENANCE: string := "Maintenance performed → health restored to 100%"
  const MSG_EARLY_WEAR: string := "Early bearing wear detected → torque fluctuation increasing"

  function FaultActiveMessage(location: string): string {
    "Fault active at " + location + " → vibration increased"
  }

  /** The three random draws of one step: two `rand()` values and one `randint(-50, 50)`. */
  datatype Noise = Noise(torqueRand: real, vibrationRand: real, rpmOffset: int)

  predicate NoiseInRange(n: Noise) {
    && 0.0 <= n.torqueRand < 1.0
    && 0.0 <= n.vibrationRand < 1.0
    && -50 <= n.rpmOffset < 50
  }

  /** The simulator's whole state: the fields of the global turbine state and the fault log. */
  datatype Twin = Twin(
    isRunning: bool,
    healthScore: real,
    timeHistory: seq<Sample>,
    bearingStiffnessFactor: real,
    currentTemp: real,
    faultLocation: string,
    faultLog: seq<string>)

  /** The state at import time of the simulator. */
  const INITIAL: Twin := Twin(false, 100.0, [], 1.0, 50.0, LOCATION_NONE, [])

  /** What every reachable state satisfies. */
  predicate SampleInRange(s: Sample) {
    BASE_TORQUE_HEALTHY <= s.torque < BASE_TORQUE_HEALTHY + 45.0 && s.temp <= TEMP_CAP
  }

  predicate Inv(t: Twin) {
    && |t.timeHistory| <= CHART_MAX_HISTORY
    && |t.faultLog| <= FAULT_LOG_MAX
    && t.healthScore <= 100.0
    && (t.bearingStiffnessFactor == 1.0 || t.bearingStiffnessFactor == 0.4)
    && t.currentTemp <= TEMP_CAP
    && forall i :: 0 <= i < |t.timeHistory| ==> SampleInRange(t.timeHistory[i])
  }

  // ---------------------------------------------------------------------------
  // Arithmetic of one step

  /** Python's `max(0, x)`. */
  function Max0(x: real): (r: real)
    ensures r >= 0.0 && r >= x
    ensures r == 0.0 || r == x
  {
    if x > 0.0 then x else 0.0
  }

  /** Python's `min(cap, x)`. */
  function Min(cap: real, x: real): (r: real)
    ensures r <= cap && r <= x
    ensures r == cap || r == x
  {
    if cap <= x then cap else x
  }

  /** The health after one step of degradation. */
  function Degraded(health: real, factor: real): (h: real)
    ensures h >= 0.0
    ensures factor >= 0.0 ==> h <= Max0(health)
    ensures health > 0.0 && factor > 0.0 ==> h < health
  {
    Max0(health - factor * 0.05)
  }

  function DegradationLevel(health: real): real {
    (100.0 - health) / 100.0
  }

  /** The torque of a step: the healthy base, up to 5 of noise, and up to 40 more as health falls. */
  function Torque(health: real, rand: real): (r: real)
    ensures 0.0 <= health <= 100.0 && 0.0 <= rand < 1.0 ==> BASE_TORQUE_HEALTHY <= r < BASE_TORQUE_HEALTHY + 45.0
    ensures health == 100.0 ==> r == BASE_TORQUE_HEALTHY + rand * 5.0
  {
    BASE_TORQUE_HEALTHY + rand * 5.0 + DegradationLevel(health) * 40.0
  }

  /** The winding temperature after one step; it never passes the cap and moves by little. */
  function Heated(temp: real, health: real): (r: real)
    ensures r <= TEMP_CAP
    ensures 0.0 <= health <= 100.0 && temp <= TEMP_CAP ==> temp - 0.1 <= r <= temp + 0.4
  {
    Min(TEMP_CAP, temp + (DegradationLevel(health) * 0.5 - 0.1))
  }

  /** The vibration of a step: 2 at full health, up to 6 more as health falls, plus up to 1 of noise. */
  function Vibration(health: real, rand: real): (r: real)
    ensures 0.0 <= health <= 100.0 && 0.0 <= rand < 1.0 ==> 2.0 <= r < 9.0
    ensures health == 100.0 ==> r == 2.0 + rand
  {
    2.0 + DegradationLevel(health) * 6.0 + rand
  }

  /** The status word of a reading taken while running. */
  function StatusOf(health: real): (status: string)
    ensures status == STATUS_ALERT <==> health < 50.0
    ensures status == STATUS_WARNING <==> 50.0 <= health < 80.0
    ensures status == STATUS_HEALTHY <==> 80.0 <= health
  {
    if health < 50.0 then STATUS_ALERT
    else if health < 80.0 then STATUS_WARNING
    else STATUS_HEALTHY
  }

  /** How severe a status word is: higher is worse. */
  function StatusRank(status: string): nat {
    if status == STATUS_ALERT then 2 else if status == STATUS_WARNING then 1 else 0
  }

  // ---------------------------------------------------------------------------
  // The two bounded buffers

  /** `add_fault_log` on the list: append at the end, then drop the oldest once over the cap. */
  function AddedToLog(log: seq<string>, message: string): (r: seq<string>)
    ensures |r| == if |log| < FAULT_LOG_MAX then |log| + 1 else |log|
    ensures |log| <= FAULT_LOG_MAX ==> |r| <= FAULT_LOG_MAX
    ensures r == (log + [message])[|log| + 1 - |r|..]
    ensures r[|r| - 1] == message
  {
    var appended := log + [message];
    if |appended| > FAULT_LOG_MAX then appended[1..] else appended
  }

  /** The history update of a running step: drop the oldest when full, then append. */
  function PushedHistory(h: seq<Sample>, s: Sample): (r: seq<Sample>)
    ensures |r| == if |h| < CHART_MAX_HISTORY then |h| + 1 else |h|
    ensures |h| <= CHART_MAX_HISTORY ==> |r| <= CHART_MAX_HISTORY
    ensures r == (h + [s])[|h| + 1 - |r|..]
    ensures r[|r| - 1] == s
  {
    if |h| >= CHART_MAX_HISTORY then h[1..] + [s] else h + [s]
  }

  /** The fault-log entries a running step adds, given its new health and the fault location. */
  function StepLog(log: seq<string>, health: real, location: string): (r: seq<string>)
    ensures location == LOCATION_NONE && health < 80.0 ==> r == AddedToLog(log, MSG_EARLY_WEAR)
    ensures location == LOCATION_NONE && health >= 80.0 ==> r == log
    ensures location != LOCATION_NONE ==> r == AddedToLog(log, FaultActiveMessage(location))
  {
    var early := if health < 80.0 && location == LOCATION_NONE then AddedToLog(log, MSG_EARLY_WEAR) else log;
    if location != LOCATION_NONE then AddedToLog(early, FaultActiveMessage(location)) else early
  }

  // ---------------------------------------------------------------------------
  // Specification functions of the operations

  /** The state after `run_simulation_step`. */
  function Stepped(t: Twin, n: Noise): (r: Twin)
    ensures !t.isRunning ==> r == t
    ensures r.isRunning == t.isRunning && r.faultLocation == t.faultLocation
    ensures r.bearingStiffnessFactor == t.bearingStiffnessFactor
    ensures t.isRunning ==> 0.0 <= r.healthScore
    ensures t.isRunning && t.bearingStiffnessFactor >= 0.0 ==> r.healthScore <= Max0(t.healthScore)
    ensures t.isRunning ==> r.currentTemp <= TEMP_CAP
    ensures t.isRunning ==>
      && |r.timeHistory| > 0
      && r.timeHistory[|r.timeHistory| - 1] == Sample(Torque(r.healthScore, n.torqueRand), r.currentTemp)
    ensures |t.timeHistory| <= CHART_MAX_HISTORY ==> |r.timeHistory| <= CHART_MAX_HISTORY
    ensures |r.faultLog| <= |t.faultLog| + 1
  {
    if !t.isRunning then t
    else
      var health := Degraded(t.healthScore, t.bearingStiffnessFactor);
      var temp := Heated(t.currentTemp, health);
      t.(healthScore := health,
         currentTemp := temp,
         faultLog := StepLog(t.faultLog, health, t.faultLocation),
         timeHistory := PushedHistory(t.timeHistory, Sample(Torque(health, n.torqueRand), temp)))
  }

  /** The dictionary `run_simulation_step` returns. */
  function StepReading(t: Twin, n: Noise): (r: Reading)
    ensures !t.isRunning ==>
      && r.rpm == 0 && r.power == 0.0 && r.current == 0.0 && r.vibration == 0.0
      && r.status == STATUS_OFFLINE
      && r.health == t.healthScore && r.temp == t.currentTemp && r.torque == BASE_TORQUE_HEALTHY
    ensures r.faultLocation == t.faultLocation
    ensures t.isRunning ==>
      && r.health == Stepped(t, n).healthScore
      && r.temp == Stepped(t, n).currentTemp
      && r.torque == Stepped(t, n).timeHistory[|Stepped(t, n).timeHistory| - 1].torque
      && r.status == StatusOf(r.health)
      && r.power == 9.0 * r.health && r.current == 0.9 * r.health
    ensures t.isRunning && NoiseInRange(n) ==> 1450 <= r.rpm <= 1549
    ensures t.isRunning && Inv(t) ==> 0.0 <= r.power <= 900.0
  {
    if !t.isRunning then
      Reading(0, 0.0, 0.0, t.healthScore, t.currentTemp, BASE_TORQUE_HEALTHY, 0.0, STATUS_OFFLINE, t.faultLocation)
    else
      var next := Stepped(t, n);
      var health := next.healthScore;
      var efficiency := health / 100.0;
      Reading(1500 + n.rpmOffset,
              MAX_POWER * efficiency * 0.9,
              MAX_CURRENT * efficiency * 0.9,
              health,
              next.currentTemp,
              Torque(health, n.torqueRand),
              Vibration(health, n.vibrationRand),
              StatusOf(health),
              t.faultLocation)
  }

  /** The state after `start_simulation`. */
  function Started(t: Twin): Twin {
    t.(isRunning := true, faultLocation := LOCATION_NONE, faultLog := AddedToLog(t.faultLog, MSG_STARTED))
  }

  /** The state after `stop_simulation`. */
  function Stopped(t: Twin): Twin {
    t.(isRunning := false, faultLocation := LOCATION_OFFLINE, faultLog := AddedToLog(t.faultLog, MSG_STOPPED))
  }

  /** The state after `inject_fault`. */
  function FaultInjected(t: Twin): Twin {
    t.(bearingStiffnessFactor := 0.4,
       healthScore := t.healthScore - 20.0,
       faultLocation := LOCATION_BEARING,
       faultLog := AddedToLog(t.faultLog, MSG_FAULT))
  }

  /** The state after `perform_maintenance`. */
  function Maintained(t: Twin): Twin {
    t.(healthScore := 100.0,
       bearingStiffnessFactor := 1.0,
       currentTemp := 50.0,
       faultLocation := LOCATION_NONE,
       timeHistory := [],
       faultLog := AddedToLog([], MSG_MAINTENANCE))
  }

  /** One day of `get_rul_projection`. */
  function RulDay(health: real, factor: real, day: nat): (r: real)
    ensures r >= 0.0
    ensures day == 0 ==> r == Max0(health)
    ensures factor >= 0.0 ==> r <= Max0(health)
  {
    Max0(health - (day * 2) as real * factor)
  }

  /** `get_rul_projection` on the health and the stiffness factor it reads. */
  function RulProjection(health: real, factor: real): (r: seq<real>)
    ensures |r| == RUL_DAYS
    ensures r[0] == Max0(health)
    ensures forall i :: 0 <= i < |r| ==> r[i] >= 0.0
  {
    seq(RUL_DAYS, i requires 0 <= i => RulDay(health, factor, i))
  }

  // ---------------------------------------------------------------------------
  // Lemmas

  /** Every control function keeps the state invariant. */
  lemma ControlsPreserveInv(t: Twin)
    requires Inv(t)
    ensures Inv(Started(t)) && Inv(Stopped(t)) && Inv(FaultInjected(t)) && Inv(Maintained(t))
    ensures Inv(INITIAL)
  {
  }

  /** A simulation step keeps the state invariant, whatever its random draws. */
  lemma StepPreservesInv(t: Twin, n: Noise)
    requires Inv(t) && NoiseInRange(n)
    ensures Inv(Stepped(t, n))
  {
    if t.isRunning {
      var r := Stepped(t, n);
      var h := Degraded(t.healthScore, t.bearingStiffnessFactor);
      assert 0.0 <= h <= 100.0;
      var s := Sample(Torque(h, n.torqueRand), r.currentTemp);
      assert SampleInRange(s);
      assert r.timeHistory == PushedHistory(t.timeHistory, s);
      forall i | 0 <= i < |r.timeHistory| ensures SampleInRange(r.timeHistory[i]) {
        if i < |r.timeHistory| - 1 {
          assert r.timeHistory[i] == t.timeHistory[i + |t.timeHistory| + 1 - |r.timeHistory|];
        }
      }
    }
  }

  /** The status bands: lower health never shows a milder status. */
  lemma StatusMonotone(lower: real, higher: real)
    requires lower <= higher
    ensures StatusRank(StatusOf(higher)) <= StatusRank(StatusOf(lower))
  {
  }

  /** The projection never rises above today's clamped health and falls day by day. */
  lemma RulNonIncreasing(health: real, factor: real)
    requires factor >= 0.0
    ensures forall i, j :: 0 <= i <= j < RUL_DAYS ==> RulProjection(health, factor)[j] <= RulProjection(health, factor)[i]
    ensures forall i :: 0 <= i < RUL_DAYS ==> RulProjection(health, factor)[i] <= Max0(health)
  {
    var r := RulProjection(health, factor);
    forall i, j | 0 <= i <= j < RUL_DAYS ensures r[j] <= r[i] {
      assert r[i] == RulDay(health, factor, i) && r[j] == RulDay(health, factor, j);
      RulDayMonotone(health, factor, i, j);
    }
  }

  lemma RulDayMonotone(health: real, factor: real, i: nat, j: nat)
    requires factor >= 0.0 && i <= j
    ensures RulDay(health, factor, j) <= RulDay(health, factor, i)
  {
    var early, late := health - (i * 2) as real * factor, health - (j * 2) as real * factor;
    ScaledMonotone((i * 2) as real, (j * 2) as real, factor);
    assert late <= early;
    assert RulDay(health, factor, i) == Max0(early) && RulDay(health, factor, j) == Max0(late);
  }

  lemma ScaledMonotone(a: real, b: real, f: real)
    requires a <= b && f >= 0.0
    ensures a * f <= b * f
  {
    assert b * f - a * f == (b - a) * f;
  }

  /** A stopped step returns the offline reading and changes nothing. */
  lemma OfflineStep(t: Twin, n: Noise)
    requires !t.isRunning
    ensures Stepped(t, n) == t
    ensures StepReading(t, n) == Reading(0, 0.0, 0.0, t.healthScore, t.currentTemp, BASE_TORQUE_HEALTHY, 0.0, STATUS_OFFLINE, t.faultLocation)
  {
  }

  /** Maintenance restores the state of a fresh simulator, except for the running flag and one log entry. */
  lemma MaintenanceRestoresFreshState(t: Twin)
    ensures Maintained(t) == INITIAL.(isRunning := t.isRunning, faultLog := [MSG_MAINTENANCE])
  {
  }

  /** The state after `k` successive fault injections. */
  function Faults(t: Twin, k: nat): Twin
    decreases k
  {
    if k == 0 then t else FaultInjected(Faults(t, k - 1))
  }

  /** Every fault injection lowers health by exactly 20, from any state, with no floor. */
  lemma {:induction false} FaultsLowerHealth(t: Twin, k: nat)
    ensures Faults(t, k).healthScore == t.healthScore - 20.0 * k as real
    decreases k
  {
    if k > 0 {
      FaultsLowerHealth(t, k - 1);
    }
  }

  /** From any state, enough fault injections drive health below zero. */
  lemma FaultsDriveHealthNegative(t: Twin)
    ensures exists k: nat :: Faults(t, k).healthScore < 0.0
  {
    var k: nat := if t.healthScore < 0.0 then 0 else t.healthScore.Floor + 1;
    FaultsLowerHealth(t, k);
    assert Faults(t, k).healthScore < 0.0;
  }

  /** Injecting a fault lowers health by exactly 20 without a floor: six faults from a fresh state reach -20. */
  lemma InjectFaultHasNoFloor()
    ensures Faults(INITIAL, 6).healthScore == -20.0
  {
    FaultsLowerHealth(INITIAL, 6);
  }

  // ---------------------------------------------------------------------------
  // The mutable globals and the operations on them

  /** `GLOBAL_STATE`. */
  class TurbineState {
    var isRunning: bool
    var healthScore: real
    var timeHistory: seq<Sample>
    var bearingStiffnessFactor: real
    var currentTemp: real
    var faultLocation: string

    constructor ()
      ensures isRunning == INITIAL.isRunning && healthScore == INITIAL.healthScore
      ensures timeHistory == INITIAL.timeHistory && bearingStiffnessFactor == INITIAL.bearingStiffnessFactor
      ensures currentTemp == INITIAL.currentTemp && faultLocation == INITIAL.faultLocation
    {
      isRunning := false;
      healthScore := 100.0;
      timeHistory := [];
      bearingStiffnessFactor := 1.0;
      currentTemp := 50.0;
      faultLocation := LOCATION_NONE;
    }
  }

  /** The module-level `fault_log` list. */
  class FaultLog {
    var entries: seq<string>

    constructor ()
      ensures entries == []
    {
      entries := [];
    }
  }

  /** The value the two globals hold together. */
  function Snapshot(st: TurbineState, log: FaultLog): Twin
    reads st, log
  {
    Twin(st.isRunning, st.healthScore, st.timeHistory, st.bearingStiffnessFactor,
         st.currentTemp, st.faultLocation, log.entries)
  }

  method AddFaultLog(log: FaultLog, message: string)
    modifies log
    ensures log.entries == AddedToLog(old(log.entries), message)
  {
    log.entries := log.entries + [message];
    if |log.entries| > FAULT_LOG_MAX {
      log.entries := log.entries[1..];
    }
  }

  /** The two fault-log checks of a running step, on its new health and the current fault location. */
  method LogStepFaults(log: FaultLog, health: real, location: string)
    modifies log
    ensures log.entries == StepLog(old(log.entries), health, location)
  {
    if health < 80.0 && location == LOCATION_NONE {
      AddFaultLog(log, MSG_EARLY_WEAR);
    }
    if location != LOCATION_NONE {
      AddFaultLog(log, FaultActiveMessage(location));
    }
  }

  method RunSimulationStep(st: TurbineState, log: FaultLog, n: Noise) returns (reading: Reading)
    modifies st, log
    ensures Snapshot(st, log) == Stepped(old(Snapshot(st, log)), n)
    ensures reading == StepReading(old(Snapshot(st, log)), n)
  {
    if !st.isRunning {
      return Reading(0, 0.0, 0.0, st.healthScore, st.currentTemp, BASE_TORQUE_HEALTHY, 0.0, STATUS_OFFLINE, st.faultLocation);
    }
    ghost var before := Snapshot(st, log);
    ghost var after := Stepped(before, n);
    st.healthScore := Max0(st.healthScore - st.bearingStiffnessFactor * 0.05);
    assert st.healthScore == after.healthScore;
    var degradationLevel := (100.0 - st.healthScore) / 100.0;
    var actualTorque := BASE_TORQUE_HEALTHY + n.torqueRand * 5.0 + degradationLevel * 40.0;
    st.currentTemp := Min(TEMP_CAP, st.currentTemp + (degradationLevel * 0.5 - 0.1));
    assert st.currentTemp == after.currentTemp;
    var vibration := 2.0 + degradationLevel * 6.0 + n.vibrationRand;
    LogStepFaults(log, st.healthScore, st.faultLocation);
    assert log.entries == after.faultLog;
    var efficiency := st.healthScore / 100.0;
    var rpm := 1500 + n.rpmOffset;
    if |st.timeHistory| >= CHART_MAX_HISTORY {
      st.timeHistory := st.timeHistory[1..];
    }
    st.timeHistory := st.timeHistory + [Sample(actualTorque, st.currentTemp)];
    assert st.timeHistory == after.timeHistory;
    reading := Reading(rpm, MAX_POWER * efficiency * 0.9, MAX_CURRENT * efficiency * 0.9,
                       st.healthScore, st.currentTemp, actualTorque, vibration,
                       StatusOf(st.healthScore), st.faultLocation);
    assert reading == StepReading(before, n);
    assert Snapshot(st, log) == after;
  }

  method PerformMaintenance(st: TurbineState, log: FaultLog)
    modifies st, log
    ensures Snapshot(st, log) == Maintained(old(Snapshot(st, log)))
  {
    st.healthScore := 100.0;
    st.bearingStiffnessFactor := 1.0;
    st.currentTemp := 50.0;
    st.faultLocation := LOCATION_NONE;
    st.timeHistory := [];
    log.entries := [];
    AddFaultLog(log, MSG_MAINTENANCE);
  }

  method InjectFault(st: TurbineState, log: FaultLog)
    modifies st, log
    ensures Snapshot(st, log) == FaultInjected(old(Snapshot(st, log)))
  {
    st.bearingStiffnessFactor := 0.4;
    st.healthScore := st.healthScore - 20.0;
    st.faultLocation := LOCATION_BEARING;
    AddFaultLog(log, MSG_FAULT);
  }

  method StartSimulation(st: TurbineState, log: FaultLog)
    modifies st, log
    ensures Snapshot(st, log) == Started(old(Snapshot(st, log)))
  {
    st.isRunning := true;
    st.faultLocation := LOCATION_NONE;
    AddFaultLog(log, MSG_STARTED);
  }

  method StopSimulation(st: TurbineState, log: FaultLog)
    modifies st, log
    ensures Snapshot(st, log) == Stopped(old(Snapshot(st, log)))
  {
    st.isRunning := false;
    st.faultLocation := LOCATION_OFFLINE;
    AddFaultLog(log, MSG_STOPPED);
  }

  /** `get_rul_projection`: reads the global state and changes nothing. */
  method GetRulProjection(st: TurbineState) returns (r: seq<real>)
    ensures r == RulProjection(st.healthScore, st.bearingStiffnessFactor)
  {
    var health, factor := st.healthScore, st.bearingStiffnessFactor;
    r := seq(RUL_DAYS, i requires 0 <= i => RulDay(health, factor, i));
  }
}
