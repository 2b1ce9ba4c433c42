/** Optional values, for the query parameters and the secret header that a
    client may leave out. */
module Options {
  datatype Option<+T> = None | Some(value: T)
}

/** The record model: a reading as a client posts it (`SensorData`) and the
    record the store keeps (`StoredSensorData`, the same fields plus an id). */
module Readings {

  /** A reading as posted. The five measurements are floats that the service
      only copies, never computes on; they are modelled as reals. */
  datatype Reading = Reading(
    deviceId: string,
    timestampMs: int,
    temperatureC: real,
    temperatureF: real,
    humidityPct: real,
    pressureHpa: real,
    altitudeM: real)

  /** A stored record: every field of the reading, unchanged, plus an id. */
  datatype Record = Record(
    deviceId: string,
    timestampMs: int,
    temperatureC: real,
    temperatureF: real,
    humidityPct: real,
    pressureHpa: real,
    altitudeM: real,
    id: string)

  /** The reading a record was built from: the record without its id. */
  function Payload(r: Record): Reading {
    Reading(r.deviceId, r.timestampMs, r.temperatureC, r.temperatureF,
            r.humidityPct, r.pressureHpa, r.altitudeM)
  }

  /** Builds the stored record for a reading, copying every field (the
      client's timestamp included) and attaching the id it is given. */
  function Stamp(data: Reading, id: string): (r: Record)
    ensures Payload(r) == data && r.id == id
    ensures r.deviceId == data.deviceId && r.timestampMs == data.timestampMs
  {
    Record(data.deviceId, data.timestampMs, data.temperatureC, data.temperatureF,
           data.humidityPct, data.pressureHpa, data.altitudeM, id)
  }

  /** A record is determined by its payload and its id. */
  lemma StampPayload(r: Record)
    ensures Stamp(Payload(r), r.id) == r
  {
  }
}
