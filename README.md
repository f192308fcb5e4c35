# Wind-turbine digital twin: dashboard and simulator state machines

This project models the two cooperating state machines of a wind-turbine digital-twin demo and
proves properties about them.

- **The simulator server** (`backend/rom_simulator.py`, `backend/app.py`). The server holds one
  global turbine state and a fault log of at most 10 entries. A simulation step degrades health,
  updates the winding temperature and records a `{torque, temp}` sample in a 20-entry history. The control
  functions start, stop, inject a fault and perform maintenance. The HTTP handlers dispatch
  `START`/`STOP`/`INJECT_FAULT`, run maintenance, and project the history and a 30-day health
  forecast into chart lists.
- **The dashboard script** (`frontend/script.js`). It tracks the power flag, the poll timers
  (`setInterval`/`clearInterval`), the power-button label, the backend-status text, the three
  chart series, the health colour and a newest-first log of at most 8 entries. It sends commands.
  Page load fetches the data once; repeated polling every second starts only after a
  successful START.

How the model is built:

- `telemetry.dfy` (module `Telemetry`) holds the JSON bodies the two tiers exchange: `Sample`,
  `Reading` and `ChartWindow`.
- `rom_simulator.dfy` (module `RomSimulator`) describes the whole server state as the value
  `Twin` and as the two mutable globals, `TurbineState` and `FaultLog`.
  - Each control function and the step are a specification function on `Twin`: `Started`,
    `Stopped`, `FaultInjected`, `Maintained`, `Stepped` and `StepReading`.
  - Each one is also a method on the globals that ensures `Snapshot(st, log)` equals that
    function of the old snapshot.
  - The three random draws of a step are the `Noise` argument.
- `app.dfy` (module `App`) holds the four HTTP handlers as methods over the same globals.
- `dashboard.dfy` (module `Frontend`) holds the dashboard as the class `Dashboard`. Its methods
  `SendCommand` and `Poll` take the request outcome (`ok`) and the response bodies as arguments.
  They ensure that `State()` equals `CommandOutcome` or `PollOutcome` of the old state.
  - Timers are a set of active handles plus the next handle to hand out.
  - `ok` means that the fetch resolved and its body parsed as JSON. The script does not look at
    the HTTP status, so a 400 or 500 reply with a JSON body also counts as `ok`.

Some behaviour one might expect of such a dashboard is absent from the code, and the model
follows the code:

- START never clears an earlier interval. Every successful START calls `setInterval` again, so
  more than one interval can poll at once.
- Nothing discards a poll result that arrives after a STOP; a late result still updates the charts.
- The maintenance button sends its STOP whether or not the MAINTENANCE request succeeds.
- `frontend/script.js` never writes the rotation speed that the 3D view reads, so STOP and a
  disconnect do not reset it.
- `StaleIntervalSurvivesStop` shows the consequence of the first point. A successful
  MAINTENANCE followed by a failed STOP sets the label to "POWER OFF" while the old interval
  keeps polling. The next two presses then add a second interval and cancel only that second
  one, so the old interval is still polling afterwards.
- `DoublePressStrandsInterval` shows a second way to get there. The label changes only when a
  reply arrives, so two clicks on "POWER OFF" before the first reply both send START. The
  following STOP then cancels only the second interval.
- The server constant `TEMP_LIMIT = 100` is never used. The step caps temperature at 120.

## Model

| member | source | states |
|---|---|---|
| Frontend.HealthColor | frontend/script.js:115 | Red exactly for "alert", yellow exactly for "warning", green exactly for every other status word |
| Frontend.CommandForLabel | frontend/script.js:205 | The power button sends START or STOP, and START exactly when its label contains "OFF" |
| Frontend.LabelAfter | frontend/script.js:188-198 | START sets "POWER ON", STOP or MAINTENANCE sets "POWER OFF", any other command keeps the label; a label that is one of the two captions stays one of them |
| Frontend.StatusTextAfter | frontend/script.js:188-198 | START sets "Online", STOP or MAINTENANCE sets "Offline", any other command keeps the text |
| Frontend.Cleared | frontend/script.js:169 | `clearInterval(simulationInterval)` removes the stored handle, if any, and keeps every other active handle |
| Frontend.RequestFor | frontend/script.js:149-151 | No request exactly when the command is outside {START, STOP, INJECT_FAULT, MAINTENANCE}; a request carries the command; it goes to the maintenance endpoint exactly for MAINTENANCE, otherwise to control |
| Frontend.Logged | frontend/script.js:63-71 | Logging prepends the entry, keeps every older entry in order, drops only the oldest once over 8, and never lets the log grow past 8 |
| Frontend.LogKeepsNewest | frontend/script.js:63-71 | After any sequence of messages the log is exactly the newest min(8, total) entries, newest first |
| Frontend.LabelsDecideCommand | frontend/script.js:205 | "POWER OFF" contains "OFF" and sends START; "POWER ON" does not and sends STOP |
| Frontend.PressFlips | frontend/script.js:188-207 | From either label, one successful press that resolves before the next click sends that label's command and switches to the other label |
| Frontend.PressesAlternateFrom | frontend/script.js:188-207 | From either label, the commands of n successful presses that each resolve before the next alternate START and STOP, starting with the label's own command |
| Frontend.PressesAlternate | frontend/script.js:188-223 | From the page-load label, n successful presses that each resolve before the next send START at even positions and STOP at odd ones |
| Frontend.PressCommandsFollowLabel | frontend/script.js:160-207 | Pressing the power button on a dashboard state n times, each press going through the full command outcome, sends exactly the commands of the label sequence `Presses` |
| Frontend.DashboardPressesAlternate | frontend/script.js:160-226 | From the page-load dashboard state, n successful presses that each resolve before the next send START at even positions and STOP at odd ones |
| Frontend.InvariantPreserved | frontend/script.js:95-185 | Every command outcome and poll outcome keeps the log at most 8 long, keeps the label one of the two captions, and keeps every timer handle below the next handle; page load meets all three |
| Frontend.UnknownCommandIgnored | frontend/script.js:149 | A command outside the whitelist posts nothing and leaves the whole dashboard state unchanged |
| Frontend.FailedCommandOnlyLogs | frontend/script.js:181-184 | A failed command request adds exactly one alert entry; no flag, timer, label, status or refresh change |
| Frontend.StartSchedulesPoll | frontend/script.js:162-166 | A successful START sets the flag, stores a fresh handle that was not active, adds it to the active intervals without cancelling earlier ones, advances the handle counter, logs the start entry, and shows "POWER ON" and "Online" |
| Frontend.StopClearsInterval | frontend/script.js:167-170 | A successful STOP clears the flag, keeps the stored handle, leaves exactly `Cleared(v)` active (the stored interval cancelled, no other), logs the stop entry, and shows "POWER OFF" and "Offline" |
| Frontend.FaultAndMaintenanceKeepPolling | frontend/script.js:171-175 | A successful INJECT_FAULT or MAINTENANCE leaves the flag, stored handle and active intervals unchanged and logs one warning or info entry; only MAINTENANCE resets the label to "POWER OFF" |
| Frontend.FailedPollDisconnects | frontend/script.js:134-144 | A failed poll cancels the stored interval, logs the alert and shows "API DISCONNECTED"; the flag, label and chart series stay as they were |
| Frontend.SuccessfulPollReplacesCharts | frontend/script.js:113-124 | A successful poll replaces the three series wholesale with the server's arrays; the colour is `HealthColor` of the status: red exactly for "alert", yellow exactly for "warning", green otherwise; stored handle, active intervals, handle counter, log, flag, label and status text are untouched (a disconnected text stays) |
| Frontend.MaintenanceButtonStops | frontend/script.js:211-214 | When both requests of the maintenance button succeed, in either order, the dashboard ends with the flag off, the stored interval cancelled, "POWER OFF" and "Offline" |
| Frontend.StaleIntervalSurvivesStop | frontend/script.js:162-214 | After a successful MAINTENANCE and a failed STOP, the label reads "POWER OFF" while the old interval stays active; the next presses send START then STOP, and the old interval is still active afterwards |
| Frontend.DoublePressStrandsInterval | frontend/script.js:160-207 | From "POWER OFF", two clicks made before the first reply both send START; after both succeed, the next press sends STOP, the flag is off, and the first interval is still active |
| Frontend.Dashboard.constructor | frontend/script.js:222-226 | Page load: flag off, no timers, "POWER OFF", "Offline", the placeholder chart data, an empty log and one poll started |
| Frontend.Dashboard.LogMessage | frontend/script.js:63-71 | The log becomes `Logged` of the old log; nothing else changes |
| Frontend.Dashboard.SetInterval | frontend/script.js:165 | Returns the next handle, marks it active and advances the counter |
| Frontend.Dashboard.ClearInterval | frontend/script.js:169 | Removes the stored handle from the active intervals; a missing handle removes nothing |
| Frontend.Dashboard.UpdateControlPanelVisuals | frontend/script.js:188-198 | START shows "POWER ON"/"Online"; STOP or MAINTENANCE shows "POWER OFF"/"Offline"; any other command leaves both |
| Frontend.Dashboard.ApplyTransition | frontend/script.js:162-175 | The new state is `Transition` of the old: the flag, timer and log effect of each command |
| Frontend.Dashboard.SendCommand | frontend/script.js:148-185 | Returns `RequestFor(command)` and leaves the state at `CommandOutcome`; the lemmas above state what that outcome is for each command and result |
| Frontend.Dashboard.ShowData | frontend/script.js:106-126 | The KPI reading, the status colour and the three series take the values of the two response bodies |
| Frontend.Dashboard.Poll | frontend/script.js:95-145 | The new state is `PollOutcome` of the old; the poll lemmas above state what that is in each case |
| Frontend.Dashboard.TogglePowerHandler | frontend/script.js:203-207 | Posts to control the command read from the current label and leaves the state at that command's outcome |
| Frontend.Dashboard.SimulateFaultHandler | frontend/script.js:208-210 | Posts INJECT_FAULT to control and leaves the state at its outcome |
| Frontend.Dashboard.PerformMaintenanceHandler | frontend/script.js:211-214 | Posts MAINTENANCE to maintenance and STOP to control; the new state is the two outcomes in the order the requests resolve |
| RomSimulator.Max0 | backend/rom_simulator.py:58 | `max(0, x)`: at least 0 and at least x, and one of the two |
| RomSimulator.Min | backend/rom_simulator.py:66 | `min(cap, x)`: at most cap and at most x, and one of the two |
| RomSimulator.Degraded | backend/rom_simulator.py:58 | Health after degradation is non-negative, is at most max(0, old health) for a non-negative factor, and strictly drops when health and factor are positive |
| RomSimulator.Heated | backend/rom_simulator.py:60-66 | The new temperature never passes 120; for health in [0, 100] and temperature at most 120 it moves by at most -0.1/+0.4 |
| RomSimulator.Torque | backend/rom_simulator.py:60-63 | For health in [0, 100] and a draw in [0, 1), torque lies in [105, 150); at full health it is 105 plus the noise alone |
| RomSimulator.Vibration | backend/rom_simulator.py:60-69 | For health in [0, 100] and a draw in [0, 1), vibration lies in [2, 9); at full health it is 2 plus the noise alone |
| RomSimulator.RulDay | backend/rom_simulator.py:134 | One day of the projection is non-negative, is max(0, health) on day 0, and never exceeds max(0, health) for a non-negative factor |
| RomSimulator.AddedToLog | backend/rom_simulator.py:32-36 | The message is appended at the end; the result is the newest suffix of old log plus message; the length grows by one until it reaches 10 and stays at most 10 |
| RomSimulator.PushedHistory | backend/rom_simulator.py:82-88 | The new sample is last; the result is the newest suffix of old history plus sample; the length grows by one until it reaches 20 and stays at most 20 |
| RomSimulator.StepLog | backend/rom_simulator.py:71-75 | With no fault, health below 80 adds the early-wear entry and otherwise nothing; with a fault location, only the fault-active entry is added |
| RomSimulator.Stepped | backend/rom_simulator.py:39-88 | A stopped step changes nothing. A running step keeps the flag, fault location and factor; leaves health non-negative and at most max(0, old health); keeps temperature at most 120; puts the new torque/temperature sample last; keeps the history at most 20; adds at most one log entry |
| RomSimulator.StepReading | backend/rom_simulator.py:39-100 | Stopped: rpm 0, power 0, current 0, vibration 0, status "Offline", the current health and temperature, base torque. Running: the new health, temperature and torque, the status of the new health, power 9·health, current 0.9·health, rpm in 1450..1549, power in [0, 900] |
| RomSimulator.RulProjection | backend/rom_simulator.py:131-134 | Exactly 30 values, each non-negative, the first equal to max(0, health) |
| RomSimulator.RulNonIncreasing | backend/rom_simulator.py:134 | For a non-negative factor the projection never rises from one day to a later one and never exceeds max(0, health) |
| RomSimulator.RulDayMonotone | backend/rom_simulator.py:134 | One day's projected value is at least any later day's, for a non-negative factor |
| RomSimulator.ControlsPreserveInv | backend/rom_simulator.py:103-129 | Start, stop, fault injection and maintenance keep the state invariant: bounded history and log, health at most 100, factor 1.0 or 0.4, temperature at most 120, every sample in range; the import-time state meets it |
| RomSimulator.StepPreservesInv | backend/rom_simulator.py:57-88 | A step keeps that invariant for every in-range random draw |
| RomSimulator.StatusMonotone | backend/rom_simulator.py:98 | Lower health never yields a milder status |
| RomSimulator.StatusOf | backend/rom_simulator.py:98 | "alert" exactly below 50, "warning" exactly in [50, 80), "healthy" exactly from 80 |
| RomSimulator.OfflineStep | backend/rom_simulator.py:44-55 | A stopped step returns the offline reading and leaves the state unchanged |
| RomSimulator.MaintenanceRestoresFreshState | backend/rom_simulator.py:103-111 | Maintenance gives the import-time state except that the running flag is kept and the log holds exactly the maintenance entry |
| RomSimulator.FaultsLowerHealth | backend/rom_simulator.py:117 | From any state, k fault injections lower health by exactly 20·k |
| RomSimulator.FaultsDriveHealthNegative | backend/rom_simulator.py:117 | From any state, some number of fault injections makes health negative: there is no floor |
| RomSimulator.InjectFaultHasNoFloor | backend/rom_simulator.py:114-119 | A concrete witness: six faults from a fresh state give health -20 |
| RomSimulator.TurbineState.constructor | backend/rom_simulator.py:7-24 | The import-time fields: stopped, health 100, empty history, factor 1.0, temperature 50, location "None" |
| RomSimulator.FaultLog.constructor | backend/rom_simulator.py:30 | The fault log starts empty |
| RomSimulator.AddFaultLog | backend/rom_simulator.py:32-36 | The log becomes `AddedToLog` of the old log |
| RomSimulator.LogStepFaults | backend/rom_simulator.py:71-75 | The log becomes `StepLog` of the old log for the new health and the current location |
| RomSimulator.RunSimulationStep | backend/rom_simulator.py:39-100 | The globals become `Stepped` of the old state and the returned dictionary is `StepReading` of it |
| RomSimulator.PerformMaintenance | backend/rom_simulator.py:103-111 | The globals become `Maintained` of the old state |
| RomSimulator.InjectFault | backend/rom_simulator.py:114-119 | The globals become `FaultInjected` of the old state |
| RomSimulator.StartSimulation | backend/rom_simulator.py:121-124 | The globals become `Started` of the old state: running, location "None", one entry added |
| RomSimulator.StopSimulation | backend/rom_simulator.py:126-129 | The globals become `Stopped` of the old state: stopped, location "Offline", one entry added |
| RomSimulator.GetRulProjection | backend/rom_simulator.py:131-134 | Returns `RulProjection` of the current health and factor and changes nothing |
| App.Torques | backend/app.py:46 | Same length as the history, and element i is sample i's torque |
| App.Temps | backend/app.py:47 | Same length as the history, and element i is sample i's temperature |
| App.GetKpis | backend/app.py:37-40 | Exactly one simulation step: the globals become `Stepped` and the body is `StepReading` |
| App.GetChartData | backend/app.py:43-54 | Changes nothing; both history lists have the history's length and are its element-wise torque and temperature columns in order; the projection is `RulProjection`, 30 long |
| App.HandleMaintenance | backend/app.py:57-65 | Stop, then maintenance, and the success message with status 200 |
| App.HandleControl | backend/app.py:69-86 | START, STOP and INJECT_FAULT run their control function and answer 200 with their message; any other or missing command changes nothing and answers 400 "Invalid command" |
| App.MaintenanceRequestOutcome | backend/app.py:61-63 | After a maintenance request: stopped, location "None", health 100, factor 1.0, temperature 50, empty history, a log of exactly the maintenance entry |
| App.ChartWindowBounds | backend/app.py:46-48 | In every state meeting the invariant (which holds at import time and is preserved by every operation) the history lists have at most 20 entries, every temperature in them is at most 120, and the projection has 30 |

## Left out

- `frontend/three_view.js` is not part of this model. It is WebGL scene setup, asset loading and an animation loop. Its only shared value, the rotation speed, is never written by the dashboard code.
- DOM nodes, CSS classes, `data-status`, `toFixed`/`Math.round` formatting, and Chart.js construction and redraws are left out. A DOM write is kept only as the value it stores.
- The constant "max safe limit" temperature dataset is left out because nothing ever changes it.
- `toggleTheme` is left out. It only toggles a CSS class and redraws the charts.
- `generateRULData` is left out. It is never called, and it draws from `Math.random`.
- Real `fetch` and JSON parsing are replaced by the `ok` flag and the response bodies as arguments.
- A payload that parses but lacks a field makes the script throw part-way through its DOM updates. That partial update is not modelled: a successful poll applies all of its updates.
- `update3DHighlight` is not modelled. It is only called when such a function exists, and no shown file defines one.
- Each power-button press is assumed to resolve before the next click. `TogglePowerHandler` reads the label and applies the outcome in one step, so it cannot produce overlapping presses. `DoublePressStrandsInterval` states the effect of two overlapping clicks on the value model.
- Every DOM element and canvas the script looks up is assumed to exist. Without the first canvas, the fixed positions in `allCharts` would be off, and every successful poll would throw into the failure branch.
- The two requests of the maintenance button are unawaited and in flight at once. The model treats each as one atomic command in either resolution order. Interleavings with in-flight polls are not modelled.
- A poll started by a command or a timer is counted (`refreshRequests`, `activeIntervals`), not run. Its result is a later, separate `Poll` call.
- The log container is assumed to hold only log entries. The script counts element children but removes `lastChild`, which could be a whitespace text node; the model removes the oldest entry.
- The timestamps that `time.strftime` and `toLocaleTimeString` add to log entries are not modelled. Entries hold the message only.
- The `print` call in `perform_maintenance` is not modelled.
- `np.random` is replaced by the `Noise` argument. `NoiseInRange` bounds the two draws to [0, 1) and the integer to -50..49.
- The `simulation_loop` background thread is not modelled. It steps the simulator about once a second, alongside `/api/kpi`, and races with it.
- The Flask and CORS wiring is not modelled.
- The 500 reply of `handle_maintenance` is not modelled. Stop and maintenance cannot raise in the model.
- A `get_json()` failure on a body that is not JSON is not modelled. A missing `command` key is modelled as `None`.
- Floats are modelled as unbounded `real` numbers. IEEE rounding is not modelled.
- The server's integer `MAX_POWER`/`MAX_CURRENT` are `real` constants here. In Python the products with the float efficiency are floats anyway.
- RomSimulator.Stepped: health "never increases" holds as "new health ≤ max(0, old health)". `inject_fault` can drive health below 0, and the next running step lifts it back to 0.
