/** The client-state machine of `syncplay/handler/state.py`.

    `Engine` holds the `_cstate` snapshot, the `seeking` flag and the list of
    messages sent so far; its two entry points are `Handle` (every server
    message) and `Dispatch` (every local player event). Each is specified by
    a pure step function, `HandleStep` and `DispatchStep`, and the lemmas at
    the end state what those steps promise. */
module State {
  import opened Protocol
  import opened Kodi

  /** How an entry point ends: normally (after its `send`), or by the
      `KeyError` the Python code raises, in which case nothing is sent. */
  datatype Outcome = Sent | KeyError

  /** The ping echo of `_setping` raises when the server acknowledged our
      `clientLatencyCalculation` without sending a `serverRtt`. */
  predicate PingRaises(sping: InboundPing) {
    sping.clientLatencyCalculation.Some? && sping.serverRtt.None?
  }

  /** The ping fields after `_setping`: the server's `latencyCalculation` is
      echoed verbatim, `clientLatencyCalculation` is stamped with the current
      time, and `clientRtt` is recomputed by `getrtt` only from a full round
      trip. When `PingRaises`, the first two assignments have already
      happened, so this is also the state the error leaves behind. */
  function NextPing(p: Ping, sping: InboundPing, now: real, getrtt: (real, real) -> real): (r: Ping)
    ensures r.latencyCalculation == sping.latencyCalculation
    ensures r.clientLatencyCalculation == now
    ensures r.clientRtt != p.clientRtt ==> sping.clientLatencyCalculation.Some? && sping.serverRtt.Some?
    ensures sping.clientLatencyCalculation.Some? && sping.serverRtt.Some? ==>
      r.clientRtt == getrtt(sping.clientLatencyCalculation.value, sping.serverRtt.value)
  {
    var rtt :=
      if sping.clientLatencyCalculation.Some? && sping.serverRtt.Some?
      then getrtt(sping.clientLatencyCalculation.value, sping.serverRtt.value)
      else p.clientRtt;
    Ping(sping.latencyCalculation, now, rtt)
  }

  /** The local position `handle` records before choosing a branch: the
      player's time while it plays, never negative. */
  function Clamp(playing: bool, time: real): (r: real)
    ensures r >= 0.0
    ensures !playing || time < 0.0 ==> r == 0.0
    ensures playing && time >= 0.0 ==> r == time
  {
    var curtime := if playing then time else 0.0;
    if curtime < 0.0 then 0.0 else curtime
  }

  /** `clientRtt / 2` when positive, else 0: the latency allowance added to
      the tolerance in the drift branch. */
  function RttCompensation(clientRtt: real): (c: real)
    ensures c >= 0.0
    ensures clientRtt > 0.0 ==> c + c == clientRtt
    ensures clientRtt <= 0.0 ==> c == 0.0
  {
    if clientRtt > 0.0 then clientRtt / 2.0 else 0.0
  }

  /** The tolerance of the drift branch, widened by half the round trip. */
  function EffectiveTolerance(cfg: Settings, clientRtt: real): (e: real)
    ensures e >= ToleranceSeconds(cfg)
  {
    ToleranceSeconds(cfg) + RttCompensation(clientRtt)
  }

  /** Whether the drift branch of `handle` calls `setplaystate`: only when the
      drift exceeds the effective tolerance, and then either when the client
      is behind or when it is ahead past the rewind threshold with rewind
      enabled. */
  predicate DriftCorrects(diff: real, cfg: Settings, clientRtt: real)
    ensures DriftCorrects(diff, cfg, clientRtt) ==> Abs(diff) > EffectiveTolerance(cfg, clientRtt)
    ensures diff > EffectiveTolerance(cfg, clientRtt) ==> DriftCorrects(diff, cfg, clientRtt)
    ensures DriftCorrects(diff, cfg, clientRtt) && diff <= EffectiveTolerance(cfg, clientRtt) ==>
      diff < -RewindThreshold(cfg) && !cfg.disableRewind
    ensures Abs(diff) > EffectiveTolerance(cfg, clientRtt) && diff < -RewindThreshold(cfg) && !cfg.disableRewind ==>
      DriftCorrects(diff, cfg, clientRtt)
  {
    var effective := EffectiveTolerance(cfg, clientRtt);
    Abs(diff) > effective &&
    (diff > effective || (diff < -RewindThreshold(cfg) && !cfg.disableRewind))
  }

  /** What one `handle` call does to the snapshot: `next` is `_cstate`
      afterwards, `call` holds the local playstate passed to `setplaystate`
      when it was called, and `outcome` says whether the call reached its
      `send`, which then transmitted `next`. */
  datatype Transition = Transition(next: Snapshot, call: Option<LocalPlay>, outcome: Outcome)

  /** The four-way choice of `handle` once the ping is echoed and the
      position clamped; `base` is `_cstate` at that point, and its playstate
      is what `setplaystate` is passed when called. */
  function BranchStep(base: Snapshot, seeking: bool, msg: RemoteState, cfg: Settings, user: string): (t: Transition)
    ensures t.next.ping == base.ping && t.next.play.doSeek == base.play.doSeek
    ensures t.call.Some? ==> t.call.value == base.play
    ensures t.call.None? ==> t.next.play == base.play
    ensures !(msg.iotf.Some? && msg.iotf.value.server.Some? && msg.play.setBy != user) ==>
      t.next.play == base.play
    ensures t.next.marker == ClientMarker ==> base.marker == ClientMarker
    ensures t.next.marker.ServerMarker? ==>
      t.next.marker == base.marker || (msg.iotf.Some? && msg.iotf.value.server == Some(t.next.marker.v))
  {
    var cps := base.play;
    match msg.iotf
    case Some(iotf) =>
      if iotf.server.Some? then
        var marked := base.(marker := ServerMarker(iotf.server.value));
        if msg.play.setBy != user then
          Transition(marked.(play := cps.(paused := msg.play.paused, position := msg.play.position)),
                     Some(cps), Sent)
        else Transition(marked, None, Sent)
      else if iotf.client then
        if base.marker == NoMarker then Transition(base, Some(cps), KeyError)
        else Transition(base.(marker := NoMarker), Some(cps), Sent)
      else Transition(base, None, Sent)
    case None =>
      if base.marker.ServerMarker? then Transition(base.(marker := NoMarker), None, Sent)
      else if !seeking && DriftCorrects(msg.play.position - cps.position, cfg, base.ping.clientRtt) then
        Transition(base, Some(cps), Sent)
      else Transition(base, None, Sent)
  }

  /** `handle(sstate)` on snapshot `cs`, with the `seeking` flag, the
      player's `isPlaying()` and `getTime()`, the inbound message, the
      current time, the `getrtt` estimator, the settings and the local user
      name as inputs. */
  function HandleStep(cs: Snapshot, seeking: bool, playing: bool, time: real, msg: RemoteState,
                      now: real, getrtt: (real, real) -> real, cfg: Settings, user: string): (t: Transition)
    ensures t.next.ping == NextPing(cs.ping, msg.ping, now, getrtt)
    ensures t.next.play.doSeek == cs.play.doSeek
    ensures PingRaises(msg.ping) ==>
      t.outcome == KeyError && t.call.None? && t.next.play == cs.play && t.next.marker == cs.marker
    ensures t.call.Some? ==> t.call.value == cs.play.(position := Clamp(playing, time))
    ensures t.call.None? && !PingRaises(msg.ping) ==> t.next.play == cs.play.(position := Clamp(playing, time))
    ensures t.next.marker == ClientMarker ==> cs.marker == ClientMarker
  {
    var ping := NextPing(cs.ping, msg.ping, now, getrtt);
    if PingRaises(msg.ping) then Transition(cs.(ping := ping), None, KeyError)
    else BranchStep(Snapshot(ping, cs.play.(position := Clamp(playing, time)), cs.marker), seeking, msg, cfg, user)
  }

  /** The player commands a transition issues: those of `setplaystate` when
      it was called, none otherwise. */
  function Commands(t: Transition, msg: RemoteState, playing: bool, cfg: Settings): (acts: seq<Action>)
    ensures t.call.None? ==> acts == []
    ensures CountSeeks(acts) <= 1
  {
    if t.call.Some? then Decide(msg.play, t.call.value, playing, cfg) else []
  }

  /** What one `dispatch` call does: `next` is `_cstate` afterwards and
      `sent` the message it transmitted, if any. */
  datatype DispatchResult = DispatchResult(next: Snapshot, sent: Option<Snapshot>)

  /** `dispatch(position, paused, seeked)` on snapshot `cs`: suppressed while
      any marker is held; otherwise it stamps the playstate (keeping the
      pause state on a seek), sets the client marker and sends once, with
      `doSeek` present in the sent copy only for a seek and removed again
      right after. */
  function DispatchStep(cs: Snapshot, position: real, paused: bool, seeked: bool): (d: DispatchResult)
    ensures cs.marker != NoMarker ==> d.next == cs && d.sent.None?
    ensures cs.marker == NoMarker ==>
      d.sent.Some? && d.sent.value.marker == ClientMarker && d.next.marker == ClientMarker &&
      d.sent.value.play.position == position && d.next.play.position == position &&
      d.sent.value.play.paused == d.next.play.paused &&
      d.next.play.paused == (if seeked then cs.play.paused else paused) &&
      d.sent.value.ping == cs.ping && d.next.ping == cs.ping
    ensures seeked && cs.marker == NoMarker ==> d.sent.value.play.doSeek && !d.next.play.doSeek
    ensures !seeked ==> d.next.play.doSeek == cs.play.doSeek
    ensures d.sent.Some? && !seeked ==> d.sent.value == d.next
  {
    if cs.marker != NoMarker then DispatchResult(cs, None)
    else
      var stamped := LocalPlay(position,
                               if seeked then cs.play.paused else paused,
                               if seeked then true else cs.play.doSeek);
      var sent := Snapshot(cs.ping, stamped, ClientMarker);
      var next := if seeked then sent.(play := stamped.(doSeek := false)) else sent;
      DispatchResult(next, Some(sent))
  }

  /** The client's reconciliation state: the `_cstate` fields, the module's
      `seeking` flag, the messages `send` has transmitted (in order) and the
      player it drives. */
  class Engine {
    var ping: Ping
    var play: LocalPlay
    var marker: Marker
    var seeking: bool
    var outbox: seq<Snapshot>
    const player: Player

    /** Between calls `doSeek` is never held: `dispatch` removes it after
        its `send`. */
    ghost predicate Valid()
      reads this
    {
      !play.doSeek
    }

    function Current(): Snapshot
      reads this
    {
      Snapshot(ping, play, marker)
    }

    constructor (player: Player)
      ensures Valid() && Current() == Initial && !seeking && outbox == []
      ensures this.player == player
    {
      ping := Initial.ping;
      play := Initial.play;
      marker := Initial.marker;
      seeking := false;
      outbox := [];
      this.player := player;
    }

    /** `send({"State": _cstate})`: transmits a copy of the snapshot. */
    method Send()
      modifies this
      ensures outbox == old(outbox) + [Current()]
      ensures ping == old(ping) && play == old(play) && marker == old(marker) && seeking == old(seeking)
    {
      outbox := outbox + [Current()];
    }

    /** `_setping(sping)`; `raised` reports the `KeyError` of a missing
        `serverRtt`. */
    method SetPing(sping: InboundPing, now: real, getrtt: (real, real) -> real) returns (raised: bool)
      modifies this
      ensures ping == NextPing(old(ping), sping, now, getrtt)
      ensures raised == PingRaises(sping)
      ensures play == old(play) && marker == old(marker) && seeking == old(seeking) && outbox == old(outbox)
    {
      ping := ping.(latencyCalculation := sping.latencyCalculation);
      ping := ping.(clientLatencyCalculation := now);
      if sping.clientLatencyCalculation.Some? {
        if sping.serverRtt.None? {
          return true;
        }
        ping := ping.(clientRtt := getrtt(sping.clientLatencyCalculation.value, sping.serverRtt.value));
      }
      return false;
    }

    /** `handle(sstate)`: the new snapshot, the player commands and the one
        message sent on a normal return are those of `HandleStep`. */
    method Handle(msg: RemoteState, now: real, getrtt: (real, real) -> real, cfg: Settings, user: string)
      returns (outcome: Outcome)
      requires Valid()
      modifies this, player
      ensures Valid() && seeking == old(seeking)
      ensures
        var t := HandleStep(old(Current()), old(seeking), old(player.playing), old(player.time),
                            msg, now, getrtt, cfg, user);
        && outcome == t.outcome
        && Current() == t.next
        && outbox == old(outbox) + (if t.outcome == Sent then [t.next] else [])
        && player.log == old(player.log) + Commands(t, msg, old(player.playing), cfg)
        && player.playing == old(player.playing)
        && player.paused == (old(player.paused) != (TogglePause in Commands(t, msg, old(player.playing), cfg)))
        && player.time ==
             (if SeekTo(msg.play.position) in Commands(t, msg, old(player.playing), cfg)
              then msg.play.position else old(player.time))
    {
      var raised := SetPing(msg.ping, now, getrtt);
      if raised {
        return KeyError;
      }
      var curtime := if player.playing then player.time else 0.0;
      play := play.(position := if curtime < 0.0 then 0.0 else curtime);
      outcome := Branch(msg, cfg, user);
      if outcome == KeyError {
        return;
      }
      Send();
    }

    /** The branch choice of `handle`, as `BranchStep` describes it. */
    method Branch(msg: RemoteState, cfg: Settings, user: string) returns (outcome: Outcome)
      modifies this, player
      ensures seeking == old(seeking) && outbox == old(outbox)
      ensures
        var t := BranchStep(old(Current()), old(seeking), msg, cfg, user);
        && outcome == t.outcome
        && Current() == t.next
        && player.log == old(player.log) + Commands(t, msg, old(player.playing), cfg)
        && player.playing == old(player.playing)
        && player.paused == (old(player.paused) != (TogglePause in Commands(t, msg, old(player.playing), cfg)))
        && player.time ==
             (if SeekTo(msg.play.position) in Commands(t, msg, old(player.playing), cfg)
              then msg.play.position else old(player.time))
    {
      outcome := Sent;
      if msg.iotf.Some? {
        outcome := Marked(msg, cfg, user);
      } else if marker != NoMarker && marker != ClientMarker {
        marker := NoMarker;
      } else if !seeking {
        DriftCheck(msg, cfg);
      }
    }

    /** The branch of `handle` for a message that carries an
        `ignoringOnTheFly` object. */
    method Marked(msg: RemoteState, cfg: Settings, user: string) returns (outcome: Outcome)
      requires msg.iotf.Some?
      modifies this, player
      ensures seeking == old(seeking) && outbox == old(outbox)
      ensures
        var t := BranchStep(old(Current()), old(seeking), msg, cfg, user);
        && outcome == t.outcome
        && Current() == t.next
        && player.log == old(player.log) + Commands(t, msg, old(player.playing), cfg)
        && player.playing == old(player.playing)
        && player.paused == (old(player.paused) != (TogglePause in Commands(t, msg, old(player.playing), cfg)))
        && player.time ==
             (if SeekTo(msg.play.position) in Commands(t, msg, old(player.playing), cfg)
              then msg.play.position else old(player.time))
    {
      outcome := Sent;
      var iotf := msg.iotf.value;
      if iotf.server.Some? {
        marker := ServerMarker(iotf.server.value);
        if msg.play.setBy != user {
          SetPlayState(player, msg.play, play, cfg);
          play := play.(paused := msg.play.paused);
          play := play.(position := msg.play.position);
        }
      } else if iotf.client {
        SetPlayState(player, msg.play, play, cfg);
        if marker == NoMarker {
          return KeyError;
        }
        marker := NoMarker;
      }
    }

    /** The drift branch of `handle`: `setplaystate` is called exactly when
        `DriftCorrects` holds. */
    method DriftCheck(msg: RemoteState, cfg: Settings)
      modifies player
      ensures
        var corrects := DriftCorrects(msg.play.position - play.position, cfg, ping.clientRtt);
        var acts := if corrects then Decide(msg.play, play, old(player.playing), cfg) else [];
        && player.log == old(player.log) + acts
        && player.paused == (old(player.paused) != (TogglePause in acts))
        && player.time == (if SeekTo(msg.play.position) in acts then msg.play.position else old(player.time))
      ensures player.playing == old(player.playing)
    {
      var diff := msg.play.position - play.position;
      var tolerance := ToleranceSeconds(cfg);
      var rewind := RewindThreshold(cfg);
      var compensation := if ping.clientRtt > 0.0 then ping.clientRtt / 2.0 else 0.0;
      var effective := tolerance + compensation;
      if Abs(diff) > effective {
        if diff > effective {
          SetPlayState(player, msg.play, play, cfg);
        } else if diff < -rewind && !cfg.disableRewind {
          SetPlayState(player, msg.play, play, cfg);
        }
      }
    }

    /** `dispatch(position, paused, seeked)`: the new snapshot and the sent
        message are those of `DispatchStep`. */
    method Dispatch(position: real, paused: bool, seeked: bool)
      requires Valid()
      modifies this
      ensures Valid() && seeking == old(seeking)
      ensures
        var d := DispatchStep(old(Current()), position, paused, seeked);
        && Current() == d.next
        && outbox == old(outbox) + (if d.sent.Some? then [d.sent.value] else [])
    {
      if marker != NoMarker {
        return;
      }
      play := play.(position := position);
      if seeked {
        play := play.(paused := play.paused);
        play := play.(doSeek := seeked);
      } else {
        play := play.(paused := paused);
      }
      marker := ClientMarker;
      Send();
      if seeked {
        play := play.(doSeek := false);
      }
    }
  }

  // ---------------------------------------------------------------------
  // What `handle` promises, branch by branch.

  /** Every `handle` call that returns normally sends exactly one message; it
      raises (and sends nothing) only on a half-acknowledged ping or on a
      remote client marker when no local marker exists. */
  lemma HandleSendsUnlessKeyError(cs: Snapshot, seeking: bool, playing: bool, time: real, msg: RemoteState,
                                  now: real, getrtt: (real, real) -> real, cfg: Settings, user: string)
    ensures HandleStep(cs, seeking, playing, time, msg, now, getrtt, cfg, user).outcome == KeyError <==>
      PingRaises(msg.ping) ||
      (msg.iotf.Some? && msg.iotf.value.server.None? && msg.iotf.value.client && cs.marker == NoMarker)
  {
  }

  /** After the clamp, the position stays the clamped player time unless the
      server branch copied the remote position over it. */
  lemma HandleClampsPosition(cs: Snapshot, seeking: bool, playing: bool, time: real, msg: RemoteState,
                             now: real, getrtt: (real, real) -> real, cfg: Settings, user: string)
    requires !PingRaises(msg.ping)
    requires !(msg.iotf.Some? && msg.iotf.value.server.Some? && msg.play.setBy != user)
    ensures HandleStep(cs, seeking, playing, time, msg, now, getrtt, cfg, user).next.play.position
            == Clamp(playing, time) >= 0.0
  {
  }

  /** A server-kind remote marker replaces any local marker by `{server: v}`;
      the remote playstate is applied and copied exactly when another user
      set it. */
  lemma HandleServerMarker(cs: Snapshot, seeking: bool, playing: bool, time: real, msg: RemoteState,
                           now: real, getrtt: (real, real) -> real, cfg: Settings, user: string)
    requires !PingRaises(msg.ping) && msg.iotf.Some? && msg.iotf.value.server.Some?
    ensures
      var t := HandleStep(cs, seeking, playing, time, msg, now, getrtt, cfg, user);
      && t.outcome == Sent
      && t.next.marker == ServerMarker(msg.iotf.value.server.value)
      && (t.call.Some? <==> msg.play.setBy != user)
      && (msg.play.setBy != user ==>
            t.next.play.paused == msg.play.paused && t.next.play.position == msg.play.position)
      && (msg.play.setBy == user ==>
            t.next.play.paused == cs.play.paused && t.next.play.position == Clamp(playing, time))
  {
  }

  /** A client-kind remote marker (without a server key) applies the remote
      playstate and removes the local marker; with no local marker the
      removal raises, after the player commands, and nothing is sent. */
  lemma HandleClientMarker(cs: Snapshot, seeking: bool, playing: bool, time: real, msg: RemoteState,
                           now: real, getrtt: (real, real) -> real, cfg: Settings, user: string)
    requires !PingRaises(msg.ping) && msg.iotf.Some?
    requires msg.iotf.value.server.None? && msg.iotf.value.client
    ensures
      var t := HandleStep(cs, seeking, playing, time, msg, now, getrtt, cfg, user);
      && t.call == Some(cs.play.(position := Clamp(playing, time)))
      && t.next.marker == NoMarker
      && t.next.play == cs.play.(position := Clamp(playing, time))
      && (t.outcome == Sent <==> cs.marker != NoMarker)
  {
  }

  /** A remote marker with neither key changes nothing but the ping and the
      clamped position. */
  lemma HandleEmptyMarker(cs: Snapshot, seeking: bool, playing: bool, time: real, msg: RemoteState,
                          now: real, getrtt: (real, real) -> real, cfg: Settings, user: string)
    requires !PingRaises(msg.ping) && msg.iotf == Some(RemoteIotf(None, false))
    ensures HandleStep(cs, seeking, playing, time, msg, now, getrtt, cfg, user)
            == Transition(Snapshot(NextPing(cs.ping, msg.ping, now, getrtt),
                                   cs.play.(position := Clamp(playing, time)), cs.marker),
                          None, Sent)
  {
  }

  /** With no remote marker, a local server marker is cleared and no drift
      check runs; a local client marker is kept, and the drift check still
      runs unless `seeking`. Whether or not it calls `setplaystate`, the
      snapshot keeps its own `paused` and only takes the clamped position. */
  lemma HandleUnmarked(cs: Snapshot, seeking: bool, playing: bool, time: real, msg: RemoteState,
                       now: real, getrtt: (real, real) -> real, cfg: Settings, user: string)
    requires !PingRaises(msg.ping) && msg.iotf.None?
    ensures
      var t := HandleStep(cs, seeking, playing, time, msg, now, getrtt, cfg, user);
      var diff := msg.play.position - Clamp(playing, time);
      && t.outcome == Sent
      && t.next.play == cs.play.(position := Clamp(playing, time))
      && (cs.marker.ServerMarker? ==> t.next.marker == NoMarker && t.call.None?)
      && (!cs.marker.ServerMarker? ==> t.next.marker == cs.marker)
      && (t.call.Some? <==>
            !cs.marker.ServerMarker? && !seeking && DriftCorrects(diff, cfg, t.next.ping.clientRtt))
  {
  }

  /** The drift branch never corrects a drift within the effective
      tolerance, and a held `seeking` flag suppresses it altogether. */
  lemma DriftQuietWithinTolerance(cs: Snapshot, seeking: bool, playing: bool, time: real, msg: RemoteState,
                                  now: real, getrtt: (real, real) -> real, cfg: Settings, user: string)
    requires msg.iotf.None?
    ensures
      var t := HandleStep(cs, seeking, playing, time, msg, now, getrtt, cfg, user);
      var diff := msg.play.position - Clamp(playing, time);
      (seeking || Abs(diff) <= EffectiveTolerance(cfg, t.next.ping.clientRtt)) ==> t.call.None?
  {
  }

  /** The cross-file consequence of `setplaystate` re-checking the drift
      against plain tolerance: whenever the drift branch calls it on a
      playing player, the one seek it issues goes to the remote position,
      and it never only notifies. */
  lemma DriftCallSeeksToRemote(cs: Snapshot, seeking: bool, playing: bool, time: real, msg: RemoteState,
                               now: real, getrtt: (real, real) -> real, cfg: Settings, user: string)
    requires msg.iotf.None? && playing
    requires HandleStep(cs, seeking, playing, time, msg, now, getrtt, cfg, user).call.Some?
    ensures
      var t := HandleStep(cs, seeking, playing, time, msg, now, getrtt, cfg, user);
      var acts := Commands(t, msg, playing, cfg);
      && SeekTo(msg.play.position) in acts
      && CountSeeks(acts) == 1
      && NotifyAhead !in acts
  {
  }

  // ---------------------------------------------------------------------
  // What `dispatch` promises.

  /** A seek event sends `doSeek` once and leaves no trace of it; any other
      event sends exactly the stored snapshot. */
  lemma DispatchDoSeekOneShot(cs: Snapshot, position: real, paused: bool, seeked: bool)
    requires cs.marker == NoMarker && !cs.play.doSeek
    ensures
      var d := DispatchStep(cs, position, paused, seeked);
      && d.sent.Some?
      && (d.sent.value.play.doSeek <==> seeked)
      && !d.next.play.doSeek
      && d.sent.value == d.next.(play := d.next.play.(doSeek := seeked))
  {
  }
}
