/** The JSON bodies that the simulator server sends and the dashboard consumes. */
module Telemetry {

  /** A value that may be absent: a missing JSON key, an unset timer handle. */
  datatype Option<T> = None | Some(value: T)

  /** One entry of the server's `time_history`: the `{torque, temp}` pair a running step records. */
  datatype Sample = Sample(torque: real, temp: real)

  /** The body of `GET /api/kpi`: the dictionary one simulation step returns. */
  datatype Reading = Reading(
    rpm: int,
    power: real,
    current: real,
    health: real,
    temp: real,
    torque: real,
    vibration: real,
    status: string,
    faultLocation: string)

  /** The body of `GET /api/charts`. */
  datatype ChartWindow = ChartWindow(
    torqueHistory: seq<real>,
    tempHistory: seq<real>,
    rulProjection: seq<real>)

  /** Status words the server puts in a reading. */
  const STATUS_ALERT: string := "alert"
  const STATUS_WARNING: string := "warning"
  const STATUS_HEALTHY: string := "healthy"
  const STATUS_OFFLINE: string := "Offline"
}
