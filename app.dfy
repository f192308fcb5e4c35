/**
 * The HTTP handlers of the simulator server: each one reads or updates the simulator's
 * globals. Routing, JSON encoding and the background stepping thread are not part of this model.
 */
module App {
  import opened Telemetry
  import opened RomSimulator

  /** An HTTP response: status code and the message or error text of its JSON body. */
  datatype Response = Response(code: int, message: string)

  const MSG_RESP_STARTED: string := "Simulation started."
  const MSG_RESP_STOPPED: string := "Simulation stopped."
  const MSG_RESP_FAULT: string := "Catastrophic fault injected."
  const MSG_RESP_INVALID: string := "Invalid command"
  const MSG_RESP_MAINTENANCE: string := "Maintenance successfully performed. Health restored to 100%."

  /** The `torque` column of the history, in order. */
  function Torques(h: seq<Sample>): (r: seq<real>)
    ensures |r| == |h|
    ensures forall i :: 0 <= i < |h| ==> r[i] == h[i].torque
  {
    if h == [] then [] else [h[0].torque] + Torques(h[1..])
  }

  /** The `temp` column of the history, in order. */
  function Temps(h: seq<Sample>): (r: seq<real>)
    ensures |r| == |h|
    ensures forall i :: 0 <= i < |h| ==> r[i] == h[i].temp
  {
    if h == [] then [] else [h[0].temp] + Temps(h[1..])
  }

  /** `GET /api/kpi`: every call advances the simulation by exactly one step. */
  method GetKpis(st: TurbineState, log: FaultLog, n: Noise) returns (reading: Reading)
    modifies st, log
    ensures Snapshot(st, log) == Stepped(old(Snapshot(st, log)), n)
    ensures reading == StepReading(old(Snapshot(st, log)), n)
  {
    reading := RunSimulationStep(st, log, n);
  }

  /** `GET /api/charts`: two columns of the history and the health projection; changes nothing. */
  method GetChartData(st: TurbineState) returns (w: ChartWindow)
    ensures |w.torqueHistory| == |st.timeHistory| && |w.tempHistory| == |st.timeHistory|
    ensures forall i :: 0 <= i < |st.timeHistory| ==>
      w.torqueHistory[i] == st.timeHistory[i].torque && w.tempHistory[i] == st.timeHistory[i].temp
    ensures w.rulProjection == RulProjection(st.healthScore, st.bearingStiffnessFactor)
    ensures |w.rulProjection| == RUL_DAYS
  {
    var torqueData := Torques(st.timeHistory);
    var tempData := Temps(st.timeHistory);
    var rulProjection := GetRulProjection(st);
    w := ChartWindow(torqueData, tempData, rulProjection);
  }

  /** `POST /api/maintenance`: stop the simulation, then reset it. */
  method HandleMaintenance(st: TurbineState, log: FaultLog) returns (resp: Response)
    modifies st, log
    ensures Snapshot(st, log) == Maintained(Stopped(old(Snapshot(st, log))))
    ensures resp == Response(200, MSG_RESP_MAINTENANCE)
  {
    StopSimulation(st, log);
    PerformMaintenance(st, log);
    resp := Response(200, MSG_RESP_MAINTENANCE);
  }

  /** `POST /api/control`: `command` is the body's `command` key, absent when the key is missing. */
  method HandleControl(st: TurbineState, log: FaultLog, command: Option<string>) returns (resp: Response)
    modifies st, log
    ensures command == Some("START") ==>
      Snapshot(st, log) == Started(old(Snapshot(st, log))) && resp == Response(200, MSG_RESP_STARTED)
    ensures command == Some("STOP") ==>
      Snapshot(st, log) == Stopped(old(Snapshot(st, log))) && resp == Response(200, MSG_RESP_STOPPED)
    ensures command == Some("INJECT_FAULT") ==>
      Snapshot(st, log) == FaultInjected(old(Snapshot(st, log))) && resp == Response(200, MSG_RESP_FAULT)
    ensures command !in {Some("START"), Some("STOP"), Some("INJECT_FAULT")} ==>
      Snapshot(st, log) == old(Snapshot(st, log)) && resp == Response(400, MSG_RESP_INVALID)
  {
    if command == Some("START") {
      StartSimulation(st, log);
      return Response(200, MSG_RESP_STARTED);
    } else if command == Some("STOP") {
      StopSimulation(st, log);
      return Response(200, MSG_RESP_STOPPED);
    } else if command == Some("INJECT_FAULT") {
      InjectFault(st, log);
      return Response(200, MSG_RESP_FAULT);
    }
    return Response(400, MSG_RESP_INVALID);
  }

  /** After a maintenance request the simulator is stopped and as good as new, with one log entry. */
  lemma MaintenanceRequestOutcome(t: Twin)
    ensures var r := Maintained(Stopped(t));
      && !r.isRunning
      && r.faultLocation == LOCATION_NONE
      && r.healthScore == 100.0 && r.bearingStiffnessFactor == 1.0 && r.currentTemp == 50.0
      && r.timeHistory == []
      && r.faultLog == [MSG_MAINTENANCE]
  {
  }

  /** The chart lists of a reachable state: at most 20 points of history, 30 days of projection. */
  lemma ChartWindowBounds(t: Twin)
    requires Inv(t)
    ensures |Torques(t.timeHistory)| <= CHART_MAX_HISTORY && |Temps(t.timeHistory)| <= CHART_MAX_HISTORY
    ensures forall i :: 0 <= i < |t.timeHistory| ==> Temps(t.timeHistory)[i] <= TEMP_CAP
    ensures |RulProjection(t.healthScore, t.bearingStiffnessFactor)| == RUL_DAYS
  {
  }
}
