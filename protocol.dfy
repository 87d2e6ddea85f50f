/** Shapes of the messages exchanged with the Syncplay server and of the
    client's own `_cstate` snapshot, as typed values.

    The Python code keeps these as nested dictionaries whose optional keys
    are tested with `in`; here an optional key is an `Option`, and the
    `ignoringOnTheFly` marker is a three-way datatype. */
module Protocol {

  datatype Option<T> = None | Some(value: T)

  /** The `ping` object of an inbound `State` message: `latencyCalculation` is
      always read, `clientLatencyCalculation` and `serverRtt` are optional. */
  datatype InboundPing = InboundPing(
    latencyCalculation: real,
    clientLatencyCalculation: Option<real>,
    serverRtt: Option<real>)

  /** The `playstate` object of an inbound message. `doSeek` is true exactly
      when the key is present and truthy. */
  datatype RemotePlay = RemotePlay(position: real, paused: bool, doSeek: bool, setBy: string)

  /** The inbound `ignoringOnTheFly` object: it may carry a `server` value,
      a `client` key, both or neither. */
  datatype RemoteIotf = RemoteIotf(server: Option<int>, client: bool)

  /** One inbound `State` message; `iotf` is absent when the server sent no
      `ignoringOnTheFly` key. */
  datatype RemoteState = RemoteState(ping: InboundPing, play: RemotePlay, iotf: Option<RemoteIotf>)

  /** The client's `ping` fields. */
  datatype Ping = Ping(latencyCalculation: real, clientLatencyCalculation: real, clientRtt: real)

  /** The client's `playstate`; `doSeek` is true exactly when the key is present. */
  datatype LocalPlay = LocalPlay(position: real, paused: bool, doSeek: bool)

  /** The client's own `ignoringOnTheFly` entry: absent, `{"client": 1}` or
      `{"server": v}`. Being one datatype value, at most one of the two kinds
      is ever held. */
  datatype Marker = NoMarker | ClientMarker | ServerMarker(v: int)

  /** The whole `_cstate` dictionary; every `send` transmits a copy of it. */
  datatype Snapshot = Snapshot(ping: Ping, play: LocalPlay, marker: Marker)

  /** `_cstate` as the module creates it: zero ping fields, position 0,
      paused, no marker and no `doSeek`. */
  const Initial: Snapshot := Snapshot(Ping(0.0, 0.0, 0.0), LocalPlay(0.0, true, false), NoMarker)
}
