# Syncplay for Kodi: playback reconciliation, modelled in Dafny

This project models the part of the Kodi Syncplay client that keeps the
local player in step with the group's playback state on the Syncplay
server:

- the client-state machine of `syncplay/handler/state.py`:
  - the `_cstate` snapshot (ping fields, playstate, the `ignoringOnTheFly`
    marker) and the `seeking` flag;
  - `handle`, run on every server `State` message;
  - `dispatch`, run on every local player event;
- the correction decision `setplaystate` of `syncplay/kodi.py`;
- the `_Player` callbacks that turn Kodi events into `dispatch` calls.

Files:

- `protocol.dfy` (module `Protocol`): the message and snapshot shapes as
  datatypes. The marker is `NoMarker | ClientMarker | ServerMarker(v)`, so
  the snapshot can never hold a client and a server marker at once.
- `kodi.dfy` (module `Kodi`): the settings, the pure decision `Decide` with
  its parts `RewindThreshold`, `DriftBand` and `SeekStep`, the `Player`
  class, and `SetPlayState`. `Player` is the Kodi player seen from outside
  (`playing`, `paused`, `time`) plus a log of every command issued to it.
  `SetPlayState` issues exactly the commands `Decide` lists.
- `state.dfy` (module `State`): the pure steps `NextPing`, `Clamp`,
  `DriftCorrects`, `BranchStep`, `HandleStep` and `DispatchStep`, and the
  class `Engine`. `Engine` holds the snapshot fields, `seeking`, the player
  and an `outbox` with a copy of every snapshot `send` transmitted. Its
  methods `Handle` and `Dispatch` are proved equal to the pure steps. The
  lemmas at the end of the file state what each branch of `handle` does.
- `events.dfy` (module `KodiEvents`): the callbacks `onAVStarted`,
  `onPlayBackPaused`, `onPlayBackResumed` and `onPlayBackSeek`. The Python
  modules `kodi.py` and `state.py` import each other; Dafny modules cannot,
  so the callbacks sit in a module above both.

Inputs taken as parameters:

- the clock `time()` is `now`;
- the latency estimator `getrtt` is an arbitrary function `(real, real) -> real`;
- the local user name `gs("user")` is `user`;
- the settings are a typed `Settings` value:
  - `toleranceMs` is the tolerance in milliseconds;
  - `rewindThreshold` is `None` when the setting is empty or does not
    parse, which gives the 3.0 s default;
  - `disableRewind` is already defaulted to false.

## Behaviour followed as coded

The model does what the code does, also where the protocol's evident
intent differs:

- A server message without a marker does not clear a local client marker.
  It only clears a server marker, and the drift check still runs while a
  client marker is held (`State.HandleUnmarked`). So after a local seek the
  client stays marked until a server message carries a marker.
- A remote client marker applies the remote playstate through
  `setplaystate` before it deletes the local marker. With no local marker
  the `del` raises `KeyError`: the player commands have already been
  issued, the clamped position stays, and nothing is sent
  (`State.HandleClientMarker`). This is modelled as the outcome `KeyError`.
- A ping that acknowledges `clientLatencyCalculation` without a `serverRtt`
  raises `KeyError` inside `_setping`, after `latencyCalculation` and
  `clientLatencyCalculation` were already stamped. Nothing else changes and
  nothing is sent.
- `setplaystate` checks drift again against the plain tolerance, without
  the half-RTT allowance that `handle` adds. The effective tolerance is never
  below the plain one, so every call from the drift branch on a playing
  player seeks to the remote position (`State.DriftCallSeeksToRemote`).
- `handle` refreshes only the position from the player, never `paused`,
  and the drift branch leaves the snapshot's `paused` as it was even when
  it calls `setplaystate` (`State.HandleUnmarked`). A client whose snapshot
  still holds the initial `paused = true` therefore toggles the pause along
  with the first correction it applies whenever the server reports playing
  (`paused` false); when the server reports paused, that correction only
  seeks.
- A negative tolerance setting is not rejected. With it, even a zero drift
  seeks, so `Kodi.RecheckAfterSeekIsQuiet` needs a non-negative tolerance.

Two scenario methods in `events.dfy` show this behaviour end to end:

- `KodiEvents.LocalSeekThenUnmarkedMessage`: a local seek to 50 s is sent
  with `doSeek` and the client marker. The server message that follows
  carries no marker and leaves the client marker in place.
- `KodiEvents.DriftSeekThenPause`: a client 10 s behind is paused and
  seeked to the server position by `handle`. The pause event that follows
  reports the new position.

## Model

| member | source | states |
|---|---|---|
| `Kodi.RewindThreshold` | syncplay/kodi.py:84-92 | the threshold used is the larger of twice the tolerance and the configured value (3.0 when unset), so it is always at least twice the tolerance |
| `Kodi.DriftBand` | syncplay/kodi.py:100-124 | snap forward exactly when the drift exceeds the tolerance; snap back only with rewind enabled and the client ahead past the rewind threshold; notify only with rewind disabled and the client ahead past the tolerance; never anything within the tolerance. Conversely, a client not behind but ahead past the rewind threshold with rewind enabled is snapped back, and one ahead past the tolerance with rewind disabled is only notified |
| `Kodi.SeekStep` | syncplay/kodi.py:67-124 | at most one command and never a pause; a truthy `doSeek` always seeks to the server position; any seek targets the server position; without `doSeek` the drift band fixes the list exactly: one seek to the server position iff the band snaps forward or back, only the notification iff it is the rewind-disabled band, nothing iff it is the dead zone |
| `Kodi.Decide` | syncplay/kodi.py:54-124 | no command when the player is not playing; the pause is toggled exactly when the pause states differ, and before any seek; at most one seek, always to the server position; `doSeek` on a playing player always seeks and never only notifies; without `doSeek` a playing player seeks iff it is behind by more than the tolerance or, with rewind enabled, ahead by more than the rewind threshold; the rewind-disabled notification is issued iff the player is playing, there is no `doSeek` and the drift is in that band; at most two commands, and two only as a toggle followed by a seek or the notification |
| `Kodi.Player.constructor` | syncplay/kodi.py:52 | a player with the given playing state, pause state and time, and no commands yet |
| `Kodi.Player.Pause` | syncplay/kodi.py:60 | `pause()` toggles the pause state and is logged; time and playing state unchanged |
| `Kodi.Player.SeekTime` | syncplay/kodi.py:69 | `seekTime(p)` moves the player to `p` and is logged |
| `Kodi.Player.ShowAheadNotice` | syncplay/kodi.py:116-122 | the rewind-disabled notification is logged and changes nothing else |
| `Kodi.SetPlayState` | syncplay/kodi.py:54-124 | appends exactly `Decide`'s commands to the player's log; the player's pause state flips iff a toggle was issued; its time becomes the server position iff a seek was issued; at most one seek per call |
| `Kodi.RecheckAfterSeekIsQuiet` | syncplay/kodi.py:100-124 | once the player is at the server position with the same pause state, deciding again issues nothing (non-negative tolerance) |
| `Kodi.AheadDeadZoneDoesNotRewind` | syncplay/kodi.py:108-124 | ahead by more than the tolerance but not past the rewind threshold, with rewind enabled, equal pause states and no `doSeek`, nothing is issued (non-negative tolerance) |
| `Kodi.DeadZoneOnlyPauses` | syncplay/kodi.py:100-124 | within the tolerance and without `doSeek`, the only possible command is the pause toggle |
| `Kodi.DefaultBands` | syncplay/kodi.py:100-124 | with 500 ms tolerance and the 3.0 s default: 0.3 s behind and 2 s ahead do nothing, 0.8 s behind snaps forward, 4 s ahead snaps back, or only notifies when rewind is disabled |
| `State.NextPing` | syncplay/handler/state.py:21-31 | `latencyCalculation` is echoed verbatim; `clientLatencyCalculation` is the current time; `clientRtt` changes only when the inbound ping carries both `clientLatencyCalculation` and `serverRtt`, and then it is `getrtt` of them |
| `State.Clamp` | syncplay/handler/state.py:37-38 | the recorded position is 0 when the player is not playing or reports a negative time, else the reported time; always at least 0 |
| `State.RttCompensation` | syncplay/handler/state.py:83 | the latency allowance is never negative and is half the round trip when that is positive and 0 otherwise |
| `State.EffectiveTolerance` | syncplay/handler/state.py:83-84 | the drift branch's tolerance is never below the plain tolerance |
| `State.DriftCorrects` | syncplay/handler/state.py:86-93 | the drift branch corrects only drifts beyond the effective tolerance; it always corrects when the client is behind by more than that; when the client is ahead it corrects only past the rewind threshold with rewind enabled, and it does correct there whenever the drift also exceeds the effective tolerance |
| `State.BranchStep` | syncplay/handler/state.py:40-93 | the branch choice keeps the ping and `doSeek`; `setplaystate` is always passed the clamped local playstate, and the playstate is unchanged unless another user's change arrives with a server marker; it never creates a client marker, and a new server marker carries the server's value |
| `State.HandleStep` | syncplay/handler/state.py:34-97 | the ping is always updated; a half-acknowledged ping raises before anything else changes; `setplaystate` sees the clamped position; without a call the playstate is the clamped one; `handle` never creates a client marker |
| `State.Commands` | syncplay/handler/state.py:48-93 | a `handle` call issues player commands only through `setplaystate`, and at most one seek |
| `State.DispatchStep` | syncplay/handler/state.py:100-117 | with any marker held nothing changes and nothing is sent; otherwise the position is stamped, the pause state changes only when not a seek, the client marker is set and one message is sent; `doSeek` is in the sent copy of a seek and removed afterwards |
| `State.Engine.constructor` | syncplay/handler/state.py:7-18 | the snapshot starts at zero ping fields, position 0, paused, no marker and no `doSeek`; `seeking` is false and nothing has been sent |
| `State.Engine.Send` | syncplay/handler/state.py:97 | `send` appends a copy of the current snapshot to the outbox and changes nothing else |
| `State.Engine.SetPing` | syncplay/handler/state.py:21-31 | the ping fields become `NextPing` of the old ones; the `KeyError` is reported exactly when `serverRtt` is missing from an acknowledging ping |
| `State.Engine.Handle` | syncplay/handler/state.py:34-97 | the new snapshot, the player commands and the outcome are those of `HandleStep`; the player's pause state flips iff a toggle was issued and its time becomes the server position iff a seek was issued; exactly one message (the new snapshot) is sent when it returns normally, none when it raises; the no-`doSeek` invariant is kept |
| `State.Engine.Branch` | syncplay/handler/state.py:40-95 | the four-way choice updates the snapshot and the player's log as `BranchStep` says; the player's pause state and time follow the commands issued; it sends nothing itself |
| `State.Engine.Marked` | syncplay/handler/state.py:40-55 | for a message with an `ignoringOnTheFly` object: adopts a server marker and, for another user's change, calls `setplaystate` and copies the remote pause state and position; for a client marker calls `setplaystate` and drops the local marker, failing as a missing key when none is held; all as `BranchStep` says |
| `State.Engine.DriftCheck` | syncplay/handler/state.py:60-95 | `setplaystate` is called exactly when `DriftCorrects` holds for the drift and the current `clientRtt`; the player's log, pause state and time are those that call leaves |
| `State.Engine.Dispatch` | syncplay/handler/state.py:100-117 | the new snapshot and the message sent, if any, are those of `DispatchStep`; `seeking` is untouched and the no-`doSeek` invariant is kept |
| `State.HandleSendsUnlessKeyError` | syncplay/handler/state.py:34-97 | `handle` raises, and so sends nothing, exactly on a half-acknowledged ping or on a remote client marker with no local marker; otherwise it sends exactly once, whichever branch ran |
| `State.HandleClampsPosition` | syncplay/handler/state.py:37-38 | unless another user's server-marked playstate is copied in, the position after `handle` is the clamped player time, which is at least 0 |
| `State.HandleServerMarker` | syncplay/handler/state.py:43-51 | a server-kind remote marker sets the local marker to `{server: v}`, replacing any client marker; the remote playstate is applied, and pause state and position copied, iff `setBy` is another user |
| `State.HandleClientMarker` | syncplay/handler/state.py:52-55 | a client-kind remote marker applies the remote playstate to the clamped local one and leaves no local marker; the call sends iff a local marker existed |
| `State.HandleEmptyMarker` | syncplay/handler/state.py:40-53 | a remote marker with neither key changes nothing but the ping and the clamped position, calls nothing and sends once |
| `State.HandleUnmarked` | syncplay/handler/state.py:56-93 | with no remote marker a local server marker is cleared and no correction runs; a local client marker is kept, and `setplaystate` runs iff not `seeking` and `DriftCorrects` holds; either way the snapshot's playstate is its own with only the clamped position, so `paused` is not refreshed |
| `State.DriftQuietWithinTolerance` | syncplay/handler/state.py:59-93 | with no remote marker, `setplaystate` is never called while `seeking` or when the drift is within the effective tolerance |
| `State.DriftCallSeeksToRemote` | syncplay/handler/state.py:87-93 | whenever the drift branch calls `setplaystate` on a playing player, exactly one seek is issued, to the remote position, and no notify-only |
| `State.DispatchDoSeekOneShot` | syncplay/handler/state.py:104-117 | from a snapshot without marker or `doSeek`, `dispatch` sends once; `doSeek` is in the sent message iff the event was a seek and never stays in the snapshot |
| `KodiEvents.OnAVStarted` | syncplay/kodi.py:12-18 | playback start is `dispatch(0.0, False, False)` |
| `KodiEvents.OnPlayBackPaused` | syncplay/kodi.py:20-22 | pause is `dispatch(getTime(), True, False)` |
| `KodiEvents.OnPlayBackResumed` | syncplay/kodi.py:24-26 | resume is `dispatch(getTime(), False, False)` |
| `KodiEvents.BeginSeek` | syncplay/kodi.py:33-34 | a seek first raises `seeking` and changes nothing else, so a `handle` running during the delay skips its drift check |
| `KodiEvents.FinishSeek` | syncplay/kodi.py:35-36 | after the delay, a seek is `dispatch(getTime(), False, True)` and then `seeking` is false |
| `KodiEvents.OnPlayBackSeek` | syncplay/kodi.py:28-36 | the whole seek callback is `dispatch(getTime(), False, True)` and leaves `seeking` false |

## Left out

- Transport (`syncplay/socket.py`): connection, reconnection, timeouts,
  JSON encoding and the `\r\n` framing. `send` is modelled as appending the
  snapshot to `outbox`; a failed send is not modelled.
- `onPlayBackStopped` and `onPlayBackEnded` (syncplay/kodi.py:39-49): they
  only disconnect, sleep, reconnect and call the `hello` handler, which is
  not part of this model.
- The `set.dispatch` calls in `onAVStarted`, `onPlayBackPaused` and
  `onPlayBackResumed`: the `set` handler is not part of this model.
- The text of every notification and the `timedelta` formatting. Only the
  rewind-disabled notification is kept, as the `NotifyAhead` action that
  `Player.ShowAheadNotice` logs, because it is the
  only effect of its branch.
- `getrtt`, `time()`, `gs`, `gsi` and `gsb` (`syncplay.util` is not part of
  this model): they are parameters, and the `try`/`except` parsing of the
  settings is folded into the typed `Settings` defaults.
- KodiEvents.OnPlayBackSeek: the `gsi("seek")` setting read, the `sleep`
  and `getTime()` are assumed to return. In syncplay/kodi.py:33-36 nothing
  resets `seeking` if one of them raises, so the flag would then stay set
  and every later `handle` would skip its drift check; the model always
  ends with `seeking` false.
- Concurrency between Kodi's callback thread and the receive loop. The
  `sleep(gsi("seek"))` delay is the point where `onPlayBackSeek` is split
  into `BeginSeek` and `FinishSeek`; a `Handle` may be called between them,
  but no other interleaving is modelled.
- Missing keys in the inbound `playstate`, a missing `ping` or a missing
  `latencyCalculation`, which raise `KeyError` in the code. The inbound
  message is a typed record in which these are always present. Only the
  optional `clientLatencyCalculation` and `serverRtt`, which the code
  tests, are optional here.
- Floating point: positions, tolerance and round-trip times are `real`.
  Rounding, NaN and infinite settings are not modelled.
- The player's own behaviour: `Player` toggles its pause state on `pause()`
  and moves to the target at once on `seekTime`. Kodi's delays are not
  modelled.
- The value of a remote `server` marker is modelled as an integer. A falsy
  value behaves the same as a truthy one in the code, because only key
  presence is tested.
