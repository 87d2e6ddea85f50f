/** The correction decision of `setplaystate` and the player it drives.

    `Decide` is the pure part: given the server's playstate `sps`, the
    client's playstate `cps`, whether the player is playing and the
    settings, it lists the commands to issue. `SetPlayState` issues them on
    a `Player`, in the order the Python code does. */
module Kodi {
  import opened Protocol

  /** The settings `setplaystate` reads. `rewindThreshold` is `None` when the
      setting is empty or does not parse as a number (the code then uses
      3.0); `disableRewind` is already defaulted to false when unreadable. */
  datatype Settings = Settings(toleranceMs: int, rewindThreshold: Option<real>, disableRewind: bool)

  /** A command issued to the player, or the one notification that is the
      only visible effect of its branch ("ahead, rewind disabled"). */
  datatype Action = TogglePause | SeekTo(target: real) | NotifyAhead

  /** Where a drift falls with respect to the tolerance and rewind bands. */
  datatype Band = SnapForward | SnapBack | NotifyOnly | DeadZone

  function Abs(x: real): real {
    if x < 0.0 then -x else x
  }

  /** `float(gsi("tolerance")) / 1000`: the tolerance in seconds. */
  function ToleranceSeconds(cfg: Settings): real {
    cfg.toleranceMs as real / 1000.0
  }

  /** The configured rewind threshold, or 3.0 when it is unset or invalid. */
  function ConfiguredRewind(cfg: Settings): real {
    if cfg.rewindThreshold.Some? then cfg.rewindThreshold.value else 3.0
  }

  /** The rewind threshold actually used: never narrower than twice the
      tolerance, so the two bands cannot overlap. */
  function RewindThreshold(cfg: Settings): (r: real)
    ensures r >= 2.0 * ToleranceSeconds(cfg) && r >= ConfiguredRewind(cfg)
    ensures r == 2.0 * ToleranceSeconds(cfg) || r == ConfiguredRewind(cfg)
  {
    var twice := ToleranceSeconds(cfg) * 2.0;
    if twice >= ConfiguredRewind(cfg) then twice else ConfiguredRewind(cfg)
  }

  /** The band of `diff` (server position minus local position) under plain
      tolerance, the branch chain at the end of `setplaystate`. */
  function DriftBand(diff: real, cfg: Settings): (b: Band)
    ensures b == SnapForward <==> diff > ToleranceSeconds(cfg)
    ensures b == SnapBack ==> !cfg.disableRewind && diff < -RewindThreshold(cfg)
    ensures b == NotifyOnly ==> cfg.disableRewind && diff < -ToleranceSeconds(cfg)
    ensures diff <= ToleranceSeconds(cfg) && diff < -RewindThreshold(cfg) && !cfg.disableRewind ==> b == SnapBack
    ensures diff <= ToleranceSeconds(cfg) && diff < -ToleranceSeconds(cfg) && cfg.disableRewind ==> b == NotifyOnly
    ensures Abs(diff) <= ToleranceSeconds(cfg) ==> b == DeadZone
  {
    if diff > ToleranceSeconds(cfg) then SnapForward
    else if diff < -RewindThreshold(cfg) && !cfg.disableRewind then SnapBack
    else if diff < -ToleranceSeconds(cfg) && cfg.disableRewind then NotifyOnly
    else DeadZone
  }

  /** The seek half of the decision: an explicit `doSeek` wins, otherwise the
      drift band decides. */
  function SeekStep(sps: RemotePlay, cps: LocalPlay, cfg: Settings): (acts: seq<Action>)
    ensures |acts| <= 1 && TogglePause !in acts
    ensures forall a :: a in acts && a.SeekTo? ==> a.target == sps.position
    ensures sps.doSeek ==> acts == [SeekTo(sps.position)]
    ensures !sps.doSeek && Abs(sps.position - cps.position) <= ToleranceSeconds(cfg) ==> acts == []
    ensures !sps.doSeek ==>
      var band := DriftBand(sps.position - cps.position, cfg);
      && (acts == [SeekTo(sps.position)] <==> band == SnapForward || band == SnapBack)
      && (acts == [NotifyAhead] <==> band == NotifyOnly)
      && (acts == [] <==> band == DeadZone)
  {
    if sps.doSeek then [SeekTo(sps.position)]
    else match DriftBand(sps.position - cps.position, cfg)
      case SnapForward => [SeekTo(sps.position)]
      case SnapBack => [SeekTo(sps.position)]
      case NotifyOnly => [NotifyAhead]
      case DeadZone => []
  }

  /** The number of seeks among `acts`. */
  function CountSeeks(acts: seq<Action>): nat {
    if acts == [] then 0 else (if acts[0].SeekTo? then 1 else 0) + CountSeeks(acts[1..])
  }

  lemma {:induction false} CountSeeksAppend(a: seq<Action>, b: seq<Action>)
    ensures CountSeeks(a + b) == CountSeeks(a) + CountSeeks(b)
  {
    if a == [] {
      assert a + b == b;
    } else {
      assert (a + b)[1..] == a[1..] + b;
      CountSeeksAppend(a[1..], b);
    }
  }

  lemma {:induction false} CountSeeksNone(acts: seq<Action>)
    requires forall a :: a in acts ==> !a.SeekTo?
    ensures CountSeeks(acts) == 0
  {
    if acts != [] {
      assert acts[0] in acts;
      CountSeeksNone(acts[1..]);
    }
  }

  /** Everything one `setplaystate(sps, cps)` call does, as a list of
      commands: nothing when the player is not playing; otherwise a pause
      toggle when the pause states differ, followed by the seek decision. */
  function Decide(sps: RemotePlay, cps: LocalPlay, playing: bool, cfg: Settings): (acts: seq<Action>)
    ensures !playing ==> acts == []
    ensures TogglePause in acts <==> playing && sps.paused != cps.paused
    ensures TogglePause in acts ==> acts[0] == TogglePause
    ensures CountSeeks(acts) <= 1
    ensures |acts| <= 2 && (|acts| == 2 ==> acts[0] == TogglePause && acts[1] != TogglePause)
    ensures forall a :: a in acts && a.SeekTo? ==> a.target == sps.position
    ensures playing && sps.doSeek ==> SeekTo(sps.position) in acts && NotifyAhead !in acts
    ensures playing && !sps.doSeek ==>
      var d := sps.position - cps.position;
      (SeekTo(sps.position) in acts <==>
         d > ToleranceSeconds(cfg) || (d < -RewindThreshold(cfg) && !cfg.disableRewind))
    ensures NotifyAhead in acts <==>
      playing && !sps.doSeek && DriftBand(sps.position - cps.position, cfg) == NotifyOnly
  {
    if !playing then []
    else
      var pause := if sps.paused != cps.paused then [TogglePause] else [];
      var seek := SeekStep(sps, cps, cfg);
      CountSeeksAppend(pause, seek);
      assert CountSeeks(pause) == 0 by { CountSeeksNone(pause); }
      assert CountSeeks(seek) <= 1 by {
        if seek != [] { assert seek[1..] == []; }
      }
      pause + seek
  }

  /** The Kodi player as the core sees it, plus a log of the commands and
      notifications issued to it. `playing` is `isPlaying()`, `time` is
      `getTime()`. */
  class Player {
    var playing: bool
    var paused: bool
    var time: real
    var log: seq<Action>

    constructor (playing: bool, paused: bool, time: real)
      ensures this.playing == playing && this.paused == paused && this.time == time
      ensures log == []
    {
      this.playing := playing;
      this.paused := paused;
      this.time := time;
      log := [];
    }

    /** Kodi's `pause()` toggles between paused and playing. */
    method Pause()
      modifies this
      ensures paused == !old(paused) && log == old(log) + [TogglePause]
      ensures playing == old(playing) && time == old(time)
    {
      paused := !paused;
      log := log + [TogglePause];
    }

    method SeekTime(p: real)
      modifies this
      ensures time == p && log == old(log) + [SeekTo(p)]
      ensures playing == old(playing) && paused == old(paused)
    {
      time := p;
      log := log + [SeekTo(p)];
    }

    /** The "Ahead by ... (rewind disabled)" notification. */
    method ShowAheadNotice()
      modifies this
      ensures log == old(log) + [NotifyAhead]
      ensures playing == old(playing) && paused == old(paused) && time == old(time)
    {
      log := log + [NotifyAhead];
    }
  }

  /** `setplaystate(sps, cps)`: issues on `player` exactly the commands
      `Decide` lists, so the player is toggled iff the pause states differ
      and ends at `sps.position` iff a seek was issued. */
  method SetPlayState(player: Player, sps: RemotePlay, cps: LocalPlay, cfg: Settings)
    modifies player
    ensures player.log == old(player.log) + Decide(sps, cps, old(player.playing), cfg)
    ensures player.playing == old(player.playing)
    ensures player.paused == (old(player.paused) != (TogglePause in Decide(sps, cps, old(player.playing), cfg)))
    ensures player.time ==
      (if SeekTo(sps.position) in Decide(sps, cps, old(player.playing), cfg) then sps.position else old(player.time))
    ensures CountSeeks(player.log) <= CountSeeks(old(player.log)) + 1
  {
    ghost var acts := Decide(sps, cps, player.playing, cfg);
    CountSeeksAppend(player.log, acts);
    if !player.playing {
      return;
    }
    if sps.paused != cps.paused {
      player.Pause();
    }
    if sps.doSeek {
      player.SeekTime(sps.position);
    } else {
      var diff := sps.position - cps.position;
      var tolerance := ToleranceSeconds(cfg);
      var rewind := RewindThreshold(cfg);
      if diff > tolerance {
        player.SeekTime(sps.position);
      } else if diff < -rewind && !cfg.disableRewind {
        player.SeekTime(sps.position);
      } else if diff < -tolerance && cfg.disableRewind {
        player.ShowAheadNotice();
      }
    }
  }

  /** Seeking to the server position and deciding again with nothing else
      changed issues no command (given a non-negative tolerance). */
  lemma RecheckAfterSeekIsQuiet(sps: RemotePlay, cps: LocalPlay, cfg: Settings)
    requires cfg.toleranceMs >= 0 && !sps.doSeek
    requires cps.position == sps.position && cps.paused == sps.paused
    ensures Decide(sps, cps, true, cfg) == []
  {
  }

  /** A client ahead by more than the tolerance but not past the rewind
      threshold, with rewind enabled, is left alone: no micro-rewinds. */
  lemma AheadDeadZoneDoesNotRewind(sps: RemotePlay, cps: LocalPlay, playing: bool, cfg: Settings)
    requires cfg.toleranceMs >= 0 && !sps.doSeek && sps.paused == cps.paused && !cfg.disableRewind
    requires -RewindThreshold(cfg) <= sps.position - cps.position < -ToleranceSeconds(cfg)
    ensures Decide(sps, cps, playing, cfg) == []
  {
  }

  /** Within plain tolerance and without `doSeek`, the only possible command
      is the pause toggle. */
  lemma DeadZoneOnlyPauses(sps: RemotePlay, cps: LocalPlay, playing: bool, cfg: Settings)
    requires !sps.doSeek && Abs(sps.position - cps.position) <= ToleranceSeconds(cfg)
    ensures Decide(sps, cps, playing, cfg) == if playing && sps.paused != cps.paused then [TogglePause] else []
  {
  }

  /** The bands under a 500 ms tolerance and the default 3 s rewind
      threshold: 0.3 s behind is ignored, 0.8 s behind snaps forward, 2 s
      ahead is in the dead zone, and 4 s ahead snaps back, or only notifies
      when rewind is disabled. */
  lemma DefaultBands()
    ensures DriftBand(0.3, Settings(500, None, false)) == DeadZone
    ensures DriftBand(0.8, Settings(500, None, false)) == SnapForward
    ensures DriftBand(-2.0, Settings(500, None, false)) == DeadZone
    ensures DriftBand(-4.0, Settings(500, None, false)) == SnapBack
    ensures DriftBand(-4.0, Settings(500, None, true)) == NotifyOnly
  {
  }
}
