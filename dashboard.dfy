/**
 * The dashboard's control and polling logic: the power flag, the poll timers, the power-button
 * label, the backend-status text, the three chart series, the health colour and the fault log.
 *
 * A request's outcome is an argument: `ok` is true when the request resolved and its body read
 * as JSON. A command call is taken from its request to its resolution as one step, so a press
 * is assumed to resolve before the next click. The DOM writes are kept as the values they
 * store; formatting and styling are not modelled.
 */
module Frontend {
  import opened Telemetry

  const MAX_LOG_ENTRIES: nat := 8

  const CMD_START: string := "START"
  const CMD_STOP: string := "STOP"
  const CMD_INJECT_FAULT: string := "INJECT_FAULT"
  const CMD_MAINTENANCE: string := "MAINTENANCE"
  const COMMANDS: seq<string> := [CMD_START, CMD_STOP, CMD_INJECT_FAULT, CMD_MAINTENANCE]

  const LABEL_ON: string := "POWER ON"
  const LABEL_OFF: string := "POWER OFF"
  const TEXT_ONLINE: string := "Online"
  const TEXT_OFFLINE: string := "Offline"
  const TEXT_DISCONNECTED: string := "API DISCONNECTED"

  datatype Severity = Info | Warning | Alert
  datatype LogEntry = LogEntry(message: string, severity: Severity)

  const ENTRY_STARTED: LogEntry := LogEntry("Simulation started.", Info)
  const ENTRY_STOPPED: LogEntry := LogEntry("Simulation stopped.", Info)
  const ENTRY_FAULT_SENT: LogEntry := LogEntry("Fault signal sent to Digital Twin.", Warning)
  const ENTRY_MAINTAINED: LogEntry := LogEntry("Maintenance successfully performed. Health restored.", Info)
  const ENTRY_SEND_FAILED: LogEntry := LogEntry("Error sending command to API. Server may be down.", Alert)
  const ENTRY_POLL_FAILED: LogEntry := LogEntry("API connection failed. Check Flask server.", Alert)

  datatype Color = AlertRed | WarningYellow | PrimaryGreen
  datatype Endpoint = ControlEndpoint | MaintenanceEndpoint

  /** A POST the dashboard sends: the endpoint and the `command` of its body. */
  datatype Request = Request(endpoint: Endpoint, command: string)

  // ---------------------------------------------------------------------------
  // Pure parts of the protocol

  predicate IsCommand(command: string) {
    command in COMMANDS
  }

  /** The request a command produces; none for a command outside the whitelist. */
  function RequestFor(command: string): (r: Option<Request>)
    ensures r.None? <==> !IsCommand(command)
    ensures r.Some? ==> r.value.command == command
    ensures r.Some? ==> (r.value.endpoint == MaintenanceEndpoint <==> command == CMD_MAINTENANCE)
  {
    if !IsCommand(command) then None
    else Some(Request(if command == CMD_MAINTENANCE then MaintenanceEndpoint else ControlEndpoint, command))
  }

  /** The colour of the health readout for a reading's status word. */
  function HealthColor(status: string): (c: Color)
    ensures c == AlertRed <==> status == STATUS_ALERT
    ensures c == WarningYellow <==> status == STATUS_WARNING
    ensures c == PrimaryGreen <==> status != STATUS_ALERT && status != STATUS_WARNING
  {
    if status == STATUS_ALERT then AlertRed
    else if status == STATUS_WARNING then WarningYellow
    else PrimaryGreen
  }

  /** `part` occurs in `text` starting at index `k`. */
  predicate OccursAt(text: string, part: string, k: int) {
    0 <= k && k + |part| <= |text| && text[k..k + |part|] == part
  }

  /** JavaScript's `text.includes(part)`. */
  predicate Contains(text: string, part: string) {
    exists k :: 0 <= k <= |text| - |part| && OccursAt(text, part, k)
  }

  /** The command the power button sends, read from its label. */
  function CommandForLabel(caption: string): (command: string)
    ensures command == CMD_START || command == CMD_STOP
    ensures command == CMD_START <==> Contains(caption, "OFF")
  {
    if Contains(caption, "OFF") then CMD_START else CMD_STOP
  }

  /** The power-button label after the visuals are updated for a command. */
  function LabelAfter(caption: string, command: string): (r: string)
    ensures command == CMD_START ==> r == LABEL_ON
    ensures command == CMD_STOP || command == CMD_MAINTENANCE ==> r == LABEL_OFF
    ensures command != CMD_START && command != CMD_STOP && command != CMD_MAINTENANCE ==> r == caption
    ensures caption == LABEL_ON || caption == LABEL_OFF ==> r == LABEL_ON || r == LABEL_OFF
  {
    if command == CMD_START then LABEL_ON
    else if command == CMD_STOP || command == CMD_MAINTENANCE then LABEL_OFF
    else caption
  }

  /** The backend-status text after the visuals are updated for a command. */
  function StatusTextAfter(text: string, command: string): (r: string)
    ensures command == CMD_START ==> r == TEXT_ONLINE
    ensures command == CMD_STOP || command == CMD_MAINTENANCE ==> r == TEXT_OFFLINE
    ensures command != CMD_START && command != CMD_STOP && command != CMD_MAINTENANCE ==> r == text
  {
    if command == CMD_START then TEXT_ONLINE
    else if command == CMD_STOP || command == CMD_MAINTENANCE then TEXT_OFFLINE
    else text
  }

  /** The log after one message: prepended, and the last entry removed once over the cap. */
  function Logged(log: seq<LogEntry>, entry: LogEntry): (r: seq<LogEntry>)
    ensures |r| == if |log| < MAX_LOG_ENTRIES then |log| + 1 else |log|
    ensures |log| <= MAX_LOG_ENTRIES ==> |r| <= MAX_LOG_ENTRIES
    ensures r[0] == entry && r[1..] == log[..|r| - 1]
  {
    var prepended := [entry] + log;
    if |prepended| > MAX_LOG_ENTRIES then prepended[..|prepended| - 1] else prepended
  }

  // ---------------------------------------------------------------------------
  // The dashboard's state as a value, and the specification of its two operations

  datatype DashboardState = DashboardState(
    turbineIsOn: bool,
    simulationInterval: Option<nat>,  // the handle the script last stored
    activeIntervals: set<nat>,        // handles of the intervals still calling the poll every second
    nextHandle: nat,                  // the handle the next interval receives
    buttonLabel: string,
    backendStatus: string,
    rulSeries: seq<real>,
    torqueSeries: seq<real>,
    tempSeries: seq<real>,
    healthColor: Option<Color>,
    kpi: Option<Reading>,             // the reading the KPI cards show
    log: seq<LogEntry>,               // newest first
    refreshRequests: nat)             // polls started directly, outside an interval

  /** The state once the page has loaded: button reset as after a STOP, one poll started. */
  const STARTUP: DashboardState := DashboardState(
    false, None, {}, 0, LABEL_OFF, TEXT_OFFLINE,
    [], seq(20, _ => 0.0), seq(20, _ => 25.0),
    None, None, [], 1)

  predicate Inv(v: DashboardState) {
    && |v.log| <= MAX_LOG_ENTRIES
    && (v.buttonLabel == LABEL_ON || v.buttonLabel == LABEL_OFF)
    && (forall h :: h in v.activeIntervals ==> h < v.nextHandle)
    && (v.simulationInterval.Some? ==> v.simulationInterval.value < v.nextHandle)
  }

  /** The intervals still active after `clearInterval(simulationInterval)`. */
  function Cleared(v: DashboardState): (r: set<nat>)
    ensures r <= v.activeIntervals
    ensures v.simulationInterval.Some? ==> v.simulationInterval.value !in r
    ensures forall h :: h in v.activeIntervals && v.simulationInterval != Some(h) ==> h in r
  {
    if v.simulationInterval.Some? then v.activeIntervals - {v.simulationInterval.value} else v.activeIntervals
  }

  /** The flag, timer and log effect of a command whose request succeeded. */
  function Transition(v: DashboardState, command: string): DashboardState {
    if command == CMD_START then
      v.(turbineIsOn := true,
         simulationInterval := Some(v.nextHandle),
         activeIntervals := v.activeIntervals + {v.nextHandle},
         nextHandle := v.nextHandle + 1,
         log := Logged(v.log, ENTRY_STARTED))
    else if command == CMD_STOP then
      v.(turbineIsOn := false, activeIntervals := Cleared(v), log := Logged(v.log, ENTRY_STOPPED))
    else if command == CMD_INJECT_FAULT then
      v.(log := Logged(v.log, ENTRY_FAULT_SENT))
    else if command == CMD_MAINTENANCE then
      v.(log := Logged(v.log, ENTRY_MAINTAINED))
    else v
  }

  /** The state after a `sendControlCommand(command)` call whose request succeeds when `ok`. */
  function CommandOutcome(v: DashboardState, command: string, ok: bool): DashboardState {
    if !IsCommand(command) then v
    else if !ok then v.(log := Logged(v.log, ENTRY_SEND_FAILED))
    else
      Transition(v, command).(
        refreshRequests := v.refreshRequests + 1,
        buttonLabel := LabelAfter(v.buttonLabel, command),
        backendStatus := StatusTextAfter(v.backendStatus, command))
  }

  /** The state after a `fetchAndUpdateData()` call whose two fetches succeed when `ok`. */
  function PollOutcome(v: DashboardState, ok: bool, kpi: Reading, charts: ChartWindow): DashboardState {
    if ok then
      v.(kpi := Some(kpi),
         healthColor := Some(HealthColor(kpi.status)),
         rulSeries := charts.rulProjection,
         torqueSeries := charts.torqueHistory,
         tempSeries := charts.tempHistory)
    else
      v.(activeIntervals := Cleared(v),
         log := Logged(v.log, ENTRY_POLL_FAILED),
         backendStatus := TEXT_DISCONNECTED)
  }

  // ---------------------------------------------------------------------------
  // Lemmas

  /** The labels the button can carry decide the command: OFF sends START, ON sends STOP. */
  lemma LabelsDecideCommand()
    ensures CommandForLabel(LABEL_OFF) == CMD_START
    ensures CommandForLabel(LABEL_ON) == CMD_STOP
  {
    assert OccursAt(LABEL_OFF, "OFF", 6);
    forall k ensures !OccursAt(LABEL_ON, "OFF", k) {
      if 0 <= k && k + 3 <= |LABEL_ON| {
        assert LABEL_ON[k..k + 3][1] == LABEL_ON[k + 1] != 'F';
      }
    }
  }

  /** The commands sent by `n` successive power-button presses whose requests all succeed. */
  function Presses(caption: string, n: nat): (cs: seq<string>)
    ensures |cs| == n
    decreases n
  {
    if n == 0 then [] else
      var command := CommandForLabel(caption);
      [command] + Presses(LabelAfter(caption, command), n - 1)
  }

  function Caption(on: bool): string {
    if on then LABEL_ON else LABEL_OFF
  }

  /** The command of the `i`-th press in a strict START/STOP alternation that begins with STOP when `onFirst`. */
  function Alternation(onFirst: bool, i: nat): string
    decreases i
  {
    if i == 0 then (if onFirst then CMD_STOP else CMD_START) else Alternation(!onFirst, i - 1)
  }

  /** The alternation from START sends START exactly at the even presses. */
  lemma {:induction false} AlternationParity(onFirst: bool, i: nat)
    ensures Alternation(onFirst, i) == (if (i % 2 == 0) != onFirst then CMD_START else CMD_STOP)
    decreases i
  {
    if i > 0 {
      AlternationParity(!onFirst, i - 1);
    }
  }

  /** One successful press from either label sends the alternation's first command and flips the label. */
  lemma PressFlips(onFirst: bool, n: nat)
    requires n > 0
    ensures Presses(Caption(onFirst), n)[0] == Alternation(onFirst, 0)
    ensures forall i :: 1 <= i < n ==> Presses(Caption(onFirst), n)[i] == Presses(Caption(!onFirst), n - 1)[i - 1]
  {
    var caption := Caption(onFirst);
    var command := CommandForLabel(caption);
    var all := Presses(caption, n);
    assert all == [command] + Presses(LabelAfter(caption, command), n - 1);
    LabelsDecideCommand();
    assert command == Alternation(onFirst, 0);
    assert LabelAfter(caption, command) == Caption(!onFirst);
  }

  /** From either label, successful presses alternate between START and STOP. */
  lemma {:induction false} PressesAlternateFrom(onFirst: bool, n: nat)
    ensures forall i :: 0 <= i < n ==> Presses(Caption(onFirst), n)[i] == Alternation(onFirst, i)
    decreases n
  {
    if n > 0 {
      PressFlips(onFirst, n);
      PressesAlternateFrom(!onFirst, n - 1);
      forall i | 1 <= i < n ensures Presses(Caption(onFirst), n)[i] == Alternation(onFirst, i) {
        assert Alternation(onFirst, i) == Alternation(!onFirst, i - 1);
      }
    }
  }

  /** From the page-load label, presses send START, STOP, START, STOP, ... */
  lemma {:induction false} PressesAlternate(n: nat)
    ensures forall i :: 0 <= i < n ==>
      Presses(STARTUP.buttonLabel, n)[i] == (if i % 2 == 0 then CMD_START else CMD_STOP)
  {
    PressesAlternateFrom(false, n);
    assert STARTUP.buttonLabel == Caption(false);
    forall i | 0 <= i < n ensures Alternation(false, i) == (if i % 2 == 0 then CMD_START else CMD_STOP) {
      AlternationParity(false, i);
    }
  }

  /** The commands the dashboard state `v` sends when the power button is pressed `n` times, each press succeeding. */
  function PressCommands(v: DashboardState, n: nat): (cs: seq<string>)
    ensures |cs| == n
    decreases n
  {
    if n == 0 then [] else
      var command := CommandForLabel(v.buttonLabel);
      [command] + PressCommands(CommandOutcome(v, command, true), n - 1)
  }

  /** Pressing the power button on the dashboard state sends exactly the commands its label sequence decides. */
  lemma {:induction false} PressCommandsFollowLabel(v: DashboardState, n: nat)
    ensures PressCommands(v, n) == Presses(v.buttonLabel, n)
    decreases n
  {
    if n > 0 {
      var command := CommandForLabel(v.buttonLabel);
      var next := CommandOutcome(v, command, true);
      assert IsCommand(command);
      assert next.buttonLabel == LabelAfter(v.buttonLabel, command);
      PressCommandsFollowLabel(next, n - 1);
    }
  }

  /** From page load, n successful presses of the dashboard's power button send START, STOP, START, ... */
  lemma DashboardPressesAlternate(n: nat)
    ensures forall i :: 0 <= i < n ==>
      PressCommands(STARTUP, n)[i] == (if i % 2 == 0 then CMD_START else CMD_STOP)
  {
    PressCommandsFollowLabel(STARTUP, n);
    PressesAlternate(n);
  }

  /** Entries in the order `es` was logged, newest first. */
  function NewestFirst(es: seq<LogEntry>): (r: seq<LogEntry>)
    ensures |r| == |es|
  {
    if es == [] then [] else NewestFirst(es[1..]) + [es[0]]
  }

  /** Logging each of `es` in turn. */
  function LoggedAll(log: seq<LogEntry>, es: seq<LogEntry>): seq<LogEntry>
    decreases |es|
  {
    if es == [] then log else LoggedAll(Logged(log, es[0]), es[1..])
  }

  function MinNat(a: nat, b: nat): nat {
    if a <= b then a else b
  }

  /** After any run of messages the log holds the 8 most recent entries, newest first. */
  lemma {:induction false} LogKeepsNewest(log: seq<LogEntry>, es: seq<LogEntry>)
    requires |log| <= MAX_LOG_ENTRIES
    ensures LoggedAll(log, es) == (NewestFirst(es) + log)[..MinNat(MAX_LOG_ENTRIES, |es| + |log|)]
    decreases |es|
  {
    if es == [] {
      assert NewestFirst(es) + log == log;
    } else {
      var e, rest := es[0], es[1..];
      var next := Logged(log, e);
      LogKeepsNewest(next, rest);
      var k := MinNat(MAX_LOG_ENTRIES, |log| + 1);
      assert next == ([e] + log)[..k];
      assert NewestFirst(es) + log == NewestFirst(rest) + ([e] + log);
      PrefixOfTruncated(NewestFirst(rest), [e] + log, k, MinNat(MAX_LOG_ENTRIES, |rest| + |next|));
    }
  }

  lemma PrefixOfTruncated<T>(a: seq<T>, b: seq<T>, k: nat, m: nat)
    requires k <= |b| && m <= |a| + k
    ensures (a + b[..k])[..m] == (a + b)[..m]
  {
    assert forall i :: 0 <= i < m ==> (a + b[..k])[i] == (a + b)[i];
  }

  /** Both operations keep the invariant, and the page starts in it. */
  lemma InvariantPreserved(v: DashboardState, command: string, ok: bool, kpi: Reading, charts: ChartWindow)
    requires Inv(v)
    ensures Inv(CommandOutcome(v, command, ok))
    ensures Inv(PollOutcome(v, ok, kpi, charts))
    ensures Inv(STARTUP)
  {
  }

  /** A command outside the whitelist sends nothing and changes nothing. */
  lemma UnknownCommandIgnored(v: DashboardState, command: string, ok: bool)
    requires !IsCommand(command)
    ensures RequestFor(command) == None
    ensures CommandOutcome(v, command, ok) == v
  {
  }

  /** A failed command request adds exactly one alert entry and changes nothing else. */
  lemma FailedCommandOnlyLogs(v: DashboardState, command: string)
    requires IsCommand(command)
    ensures CommandOutcome(v, command, false) == v.(log := Logged(v.log, ENTRY_SEND_FAILED))
    ensures CommandOutcome(v, command, false).log[0].severity == Alert
  {
  }

  /** A successful START turns the flag on and adds a fresh interval, leaving earlier ones running. */
  lemma StartSchedulesPoll(v: DashboardState)
    requires Inv(v)
    ensures var r := CommandOutcome(v, CMD_START, true);
      && r.turbineIsOn
      && r.simulationInterval == Some(v.nextHandle)
      && v.nextHandle !in v.activeIntervals
      && r.activeIntervals == v.activeIntervals + {v.nextHandle}
      && r.nextHandle == v.nextHandle + 1
      && r.log == Logged(v.log, ENTRY_STARTED)
      && r.buttonLabel == LABEL_ON
      && r.backendStatus == TEXT_ONLINE
  {
  }

  /** A successful STOP turns the flag off and cancels the stored interval only. */
  lemma StopClearsInterval(v: DashboardState)
    ensures var r := CommandOutcome(v, CMD_STOP, true);
      && !r.turbineIsOn
      && r.simulationInterval == v.simulationInterval
      && (v.simulationInterval.Some? ==> v.simulationInterval.value !in r.activeIntervals)
      && r.activeIntervals == Cleared(v)
      && r.log == Logged(v.log, ENTRY_STOPPED)
      && r.buttonLabel == LABEL_OFF
      && r.backendStatus == TEXT_OFFLINE
  {
  }

  /** A successful INJECT_FAULT or MAINTENANCE leaves the flag and the timers alone and logs one entry. */
  lemma FaultAndMaintenanceKeepPolling(v: DashboardState, command: string)
    requires command == CMD_INJECT_FAULT || command == CMD_MAINTENANCE
    ensures var r := CommandOutcome(v, command, true);
      && r.turbineIsOn == v.turbineIsOn
      && r.simulationInterval == v.simulationInterval
      && r.activeIntervals == v.activeIntervals
      && r.log == Logged(v.log, if command == CMD_INJECT_FAULT then ENTRY_FAULT_SENT else ENTRY_MAINTAINED)
      && r.buttonLabel == (if command == CMD_INJECT_FAULT then v.buttonLabel else LABEL_OFF)
  {
  }

  /** A failed poll cancels the stored interval, logs an alert and shows the disconnected text. */
  lemma FailedPollDisconnects(v: DashboardState, kpi: Reading, charts: ChartWindow)
    ensures var r := PollOutcome(v, false, kpi, charts);
      && r.activeIntervals == Cleared(v)
      && r.log == Logged(v.log, ENTRY_POLL_FAILED)
      && r.backendStatus == TEXT_DISCONNECTED
      && r.turbineIsOn == v.turbineIsOn && r.buttonLabel == v.buttonLabel
      && r.torqueSeries == v.torqueSeries && r.tempSeries == v.tempSeries && r.rulSeries == v.rulSeries
  {
  }

  /** A successful poll replaces the three series wholesale and colours the health by status. */
  lemma SuccessfulPollReplacesCharts(v: DashboardState, kpi: Reading, charts: ChartWindow)
    ensures var r := PollOutcome(v, true, kpi, charts);
      && r.rulSeries == charts.rulProjection
      && r.torqueSeries == charts.torqueHistory
      && r.tempSeries == charts.tempHistory
      && r.kpi == Some(kpi)
      && r.healthColor == Some(HealthColor(kpi.status))
      && (r.healthColor == Some(AlertRed) <==> kpi.status == STATUS_ALERT)
      && (r.healthColor == Some(WarningYellow) <==> kpi.status == STATUS_WARNING)
      && (kpi.status != STATUS_ALERT && kpi.status != STATUS_WARNING ==> r.healthColor == Some(PrimaryGreen))
      && r.activeIntervals == v.activeIntervals && r.simulationInterval == v.simulationInterval
      && r.nextHandle == v.nextHandle && r.log == v.log && r.turbineIsOn == v.turbineIsOn
      && r.buttonLabel == v.buttonLabel && r.backendStatus == v.backendStatus
  {
  }

  /**
   * The maintenance button's two requests, resolved in either order: when both succeed the
   * dashboard ends powered off with the stored interval cancelled.
   */
  lemma MaintenanceButtonStops(v: DashboardState, stopFirst: bool)
    ensures var r := if stopFirst
      then CommandOutcome(CommandOutcome(v, CMD_STOP, true), CMD_MAINTENANCE, true)
      else CommandOutcome(CommandOutcome(v, CMD_MAINTENANCE, true), CMD_STOP, true);
      && !r.turbineIsOn
      && r.activeIntervals == Cleared(v)
      && r.buttonLabel == LABEL_OFF
      && r.backendStatus == TEXT_OFFLINE
  {
  }

  /**
   * When MAINTENANCE succeeds but its STOP fails while an interval polls, the button reads
   * POWER OFF and that interval keeps polling; the next press sends START and adds a second
   * interval, and the press after that sends STOP, which cancels only the second one.
   */
  lemma {:induction false} StaleIntervalSurvivesStop(v: DashboardState)
    requires Inv(v) && v.simulationInterval.Some? && v.simulationInterval.value in v.activeIntervals
    ensures var maintained := CommandOutcome(CommandOutcome(v, CMD_MAINTENANCE, true), CMD_STOP, false);
      var restarted := CommandOutcome(maintained, CommandForLabel(maintained.buttonLabel), true);
      var stopped := CommandOutcome(restarted, CommandForLabel(restarted.buttonLabel), true);
      && maintained.buttonLabel == LABEL_OFF
      && maintained.activeIntervals == v.activeIntervals
      && CommandForLabel(maintained.buttonLabel) == CMD_START
      && CommandForLabel(restarted.buttonLabel) == CMD_STOP
      && !stopped.turbineIsOn
      && v.simulationInterval.value in stopped.activeIntervals
  {
    LabelsDecideCommand();
    var maintenanceDone := CommandOutcome(v, CMD_MAINTENANCE, true);
    FaultAndMaintenanceKeepPolling(v, CMD_MAINTENANCE);
    var maintained := CommandOutcome(maintenanceDone, CMD_STOP, false);
    FailedCommandOnlyLogs(maintenanceDone, CMD_STOP);
    InvariantPreserved(v, CMD_MAINTENANCE, true, Reading(0, 0.0, 0.0, 0.0, 0.0, 0.0, 0.0, "", ""), ChartWindow([], [], []));
    InvariantPreserved(maintenanceDone, CMD_STOP, false, Reading(0, 0.0, 0.0, 0.0, 0.0, 0.0, 0.0, "", ""), ChartWindow([], [], []));
    var restarted := CommandOutcome(maintained, CMD_START, true);
    StartSchedulesPoll(maintained);
    StopClearsInterval(restarted);
    assert v.simulationInterval.value != maintained.nextHandle;
  }

  /**
   * Two clicks on "POWER OFF" before the first reply both send START (the label changes only
   * when a reply arrives); once both succeed, the following STOP cancels only the second
   * interval, and the first keeps polling with the flag off.
   */
  lemma DoublePressStrandsInterval(v: DashboardState)
    requires Inv(v) && v.buttonLabel == LABEL_OFF
    ensures var first := CommandOutcome(v, CommandForLabel(v.buttonLabel), true);
      var second := CommandOutcome(first, CommandForLabel(v.buttonLabel), true);
      var stopped := CommandOutcome(second, CommandForLabel(second.buttonLabel), true);
      && CommandForLabel(v.buttonLabel) == CMD_START
      && CommandForLabel(second.buttonLabel) == CMD_STOP
      && !stopped.turbineIsOn
      && v.nextHandle in stopped.activeIntervals
  {
    LabelsDecideCommand();
    var first := CommandOutcome(v, CMD_START, true);
    StartSchedulesPoll(v);
    InvariantPreserved(v, CMD_START, true, Reading(0, 0.0, 0.0, 0.0, 0.0, 0.0, 0.0, "", ""), ChartWindow([], [], []));
    var second := CommandOutcome(first, CMD_START, true);
    StartSchedulesPoll(first);
    StopClearsInterval(second);
  }

  // ---------------------------------------------------------------------------
  // The dashboard object

  class Dashboard {
    var turbineIsOn: bool
    var simulationInterval: Option<nat>
    var activeIntervals: set<nat>
    var nextHandle: nat
    var buttonLabel: string
    var backendStatus: string
    var rulSeries: seq<real>
    var torqueSeries: seq<real>
    var tempSeries: seq<real>
    var healthColor: Option<Color>
    var kpi: Option<Reading>
    var log: seq<LogEntry>
    var refreshRequests: nat

    function State(): DashboardState
      reads this
    {
      DashboardState(turbineIsOn, simulationInterval, activeIntervals, nextHandle, buttonLabel,
                     backendStatus, rulSeries, torqueSeries, tempSeries, healthColor, kpi, log,
                     refreshRequests)
    }

    /** The page-load setup: empty charts, the button reset as for STOP, one initial poll. */
    constructor ()
      ensures State() == STARTUP
    {
      turbineIsOn := false;
      simulationInterval := None;
      activeIntervals := {};
      nextHandle := 0;
      rulSeries := [];
      torqueSeries := seq(20, _ => 0.0);
      tempSeries := seq(20, _ => 25.0);
      healthColor := None;
      kpi := None;
      log := [];
      buttonLabel, backendStatus := "", "";
      new;
      UpdateControlPanelVisuals(CMD_STOP);
      refreshRequests := 1;
    }

    method LogMessage(entry: LogEntry)
      modifies this`log
      ensures log == Logged(old(log), entry)
    {
      log := [entry] + log;
      if |log| > MAX_LOG_ENTRIES {
        log := log[..|log| - 1];
      }
    }

    /** `setInterval(fetchAndUpdateData, 1000)`: a new handle; the period itself is not modelled. */
    method SetInterval() returns (handle: nat)
      modifies this`activeIntervals, this`nextHandle
      ensures handle == old(nextHandle) && nextHandle == old(nextHandle) + 1
      ensures activeIntervals == old(activeIntervals) + {handle}
    {
      handle := nextHandle;
      nextHandle := nextHandle + 1;
      activeIntervals := activeIntervals + {handle};
    }

    /** `clearInterval(simulationInterval)`. */
    method ClearInterval()
      modifies this`activeIntervals
      ensures activeIntervals == Cleared(old(State()))
    {
      if simulationInterval.Some? {
        activeIntervals := activeIntervals - {simulationInterval.value};
      }
    }

    method UpdateControlPanelVisuals(command: string)
      modifies this`buttonLabel, this`backendStatus
      ensures buttonLabel == LabelAfter(old(buttonLabel), command)
      ensures backendStatus == StatusTextAfter(old(backendStatus), command)
    {
      if command == CMD_START {
        buttonLabel := LABEL_ON;
        backendStatus := TEXT_ONLINE;
      } else if command == CMD_STOP || command == CMD_MAINTENANCE {
        buttonLabel := LABEL_OFF;
        backendStatus := TEXT_OFFLINE;
      }
    }

    /** The branch of `sendControlCommand` that a successful request runs before the refresh. */
    method ApplyTransition(command: string)
      modifies this
      ensures State() == Transition(old(State()), command)
    {
      if command == CMD_START {
        turbineIsOn := true;
        var handle := SetInterval();
        simulationInterval := Some(handle);
        LogMessage(ENTRY_STARTED);
      } else if command == CMD_STOP {
        turbineIsOn := false;
        ClearInterval();
        LogMessage(ENTRY_STOPPED);
      } else if command == CMD_INJECT_FAULT {
        LogMessage(ENTRY_FAULT_SENT);
      } else if command == CMD_MAINTENANCE {
        LogMessage(ENTRY_MAINTAINED);
      }
    }

    /** `sendControlCommand(command)`; returns the request it posted, if any. */
    method SendCommand(command: string, ok: bool) returns (request: Option<Request>)
      modifies this
      ensures request == RequestFor(command)
      ensures State() == CommandOutcome(old(State()), command, ok)
    {
      if !IsCommand(command) {
        return None;
      }
      ghost var before := State();
      var endpoint := if command == CMD_MAINTENANCE then MaintenanceEndpoint else ControlEndpoint;
      request := Some(Request(endpoint, command));
      if !ok {
        LogMessage(ENTRY_SEND_FAILED);
        assert State() == CommandOutcome(before, command, ok);
        return;
      }
      ApplyTransition(command);
      assert State() == Transition(before, command);
      refreshRequests := refreshRequests + 1;
      UpdateControlPanelVisuals(command);
      assert State() == CommandOutcome(before, command, ok);
    }

    /** The DOM updates of a successful poll: KPI cards, health colour and the three charts. */
    method ShowData(kpiData: Reading, chartData: ChartWindow)
      modifies this`kpi, this`healthColor, this`rulSeries, this`torqueSeries, this`tempSeries
      ensures kpi == Some(kpiData) && healthColor == Some(HealthColor(kpiData.status))
      ensures rulSeries == chartData.rulProjection
      ensures torqueSeries == chartData.torqueHistory && tempSeries == chartData.tempHistory
    {
      kpi := Some(kpiData);
      var status := kpiData.status;
      healthColor := Some(if status == STATUS_ALERT then AlertRed
                          else if status == STATUS_WARNING then WarningYellow
                          else PrimaryGreen);
      rulSeries := chartData.rulProjection;
      torqueSeries := chartData.torqueHistory;
      tempSeries := chartData.tempHistory;
    }

    /** `fetchAndUpdateData()`, resolved with the two bodies when `ok`. */
    method Poll(ok: bool, kpiData: Reading, chartData: ChartWindow)
      modifies this
      ensures State() == PollOutcome(old(State()), ok, kpiData, chartData)
    {
      ghost var before := State();
      if ok {
        ShowData(kpiData, chartData);
        assert State() == PollOutcome(before, ok, kpiData, chartData);
      } else {
        ClearInterval();
        LogMessage(ENTRY_POLL_FAILED);
        backendStatus := TEXT_DISCONNECTED;
        assert State() == PollOutcome(before, ok, kpiData, chartData);
      }
    }

    /** The power button: the command is read from the label. */
    method TogglePowerHandler(ok: bool) returns (request: Option<Request>)
      modifies this
      ensures request == Some(Request(ControlEndpoint, CommandForLabel(old(buttonLabel))))
      ensures State() == CommandOutcome(old(State()), CommandForLabel(old(buttonLabel)), ok)
    {
      var command := if Contains(buttonLabel, "OFF") then CMD_START else CMD_STOP;
      request := SendCommand(command, ok);
    }

    /** The fault button. */
    method SimulateFaultHandler(ok: bool) returns (request: Option<Request>)
      modifies this
      ensures request == Some(Request(ControlEndpoint, CMD_INJECT_FAULT))
      ensures State() == CommandOutcome(old(State()), CMD_INJECT_FAULT, ok)
    {
      request := SendCommand(CMD_INJECT_FAULT, ok);
    }

    /**
     * The maintenance button: a MAINTENANCE request and a STOP request, both sent at once;
     * `stopFirst` says which one resolves first.
     */
    method PerformMaintenanceHandler(maintenanceOk: bool, stopOk: bool, stopFirst: bool)
      returns (maintenance: Option<Request>, stop: Option<Request>)
      modifies this
      ensures maintenance == Some(Request(MaintenanceEndpoint, CMD_MAINTENANCE))
      ensures stop == Some(Request(ControlEndpoint, CMD_STOP))
      ensures State() == if stopFirst
        then CommandOutcome(CommandOutcome(old(State()), CMD_STOP, stopOk), CMD_MAINTENANCE, maintenanceOk)
        else CommandOutcome(CommandOutcome(old(State()), CMD_MAINTENANCE, maintenanceOk), CMD_STOP, stopOk)
    {
      if stopFirst {
        stop := SendCommand(CMD_STOP, stopOk);
        maintenance := SendCommand(CMD_MAINTENANCE, maintenanceOk);
      } else {
        maintenance := SendCommand(CMD_MAINTENANCE, maintenanceOk);
        stop := SendCommand(CMD_STOP, stopOk);
      }
    }
  }
}
