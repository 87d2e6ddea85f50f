/** The `_Player` callbacks of `syncplay/kodi.py`: each turns a Kodi
    playback event into one `dispatch` call, and a seek raises the `seeking`
    flag around its call.

    In the Python code `kodi.py` and `state.py` import each other; Dafny
    modules cannot, so the callbacks live here, above both. */
module KodiEvents {
  import opened Protocol
  import opened State

  /** `onAVStarted`: a fresh start is reported as position 0, playing. */
  method OnAVStarted(e: Engine)
    requires e.Valid()
    modifies e
    ensures e.Valid() && e.seeking == old(e.seeking)
    ensures
      var d := DispatchStep(old(e.Current()), 0.0, false, false);
      e.Current() == d.next && e.outbox == old(e.outbox) + (if d.sent.Some? then [d.sent.value] else [])
  {
    e.Dispatch(0.0, false, false);
  }

  /** `onPlayBackPaused`: reports the player's time, paused. */
  method OnPlayBackPaused(e: Engine)
    requires e.Valid()
    modifies e
    ensures e.Valid() && e.seeking == old(e.seeking)
    ensures
      var d := DispatchStep(old(e.Current()), old(e.player.time), true, false);
      e.Current() == d.next && e.outbox == old(e.outbox) + (if d.sent.Some? then [d.sent.value] else [])
  {
    e.Dispatch(e.player.time, true, false);
  }

  /** `onPlayBackResumed`: reports the player's time, playing. */
  method OnPlayBackResumed(e: Engine)
    requires e.Valid()
    modifies e
    ensures e.Valid() && e.seeking == old(e.seeking)
    ensures
      var d := DispatchStep(old(e.Current()), old(e.player.time), false, false);
      e.Current() == d.next && e.outbox == old(e.outbox) + (if d.sent.Some? then [d.sent.value] else [])
  {
    e.Dispatch(e.player.time, false, false);
  }

  /** The first half of `onPlayBackSeek`, up to its `sleep`: the drift check
      of any `handle` that runs before `FinishSeek` is suppressed. */
  method BeginSeek(e: Engine)
    modifies e
    ensures e.seeking
    ensures e.Current() == old(e.Current()) && e.outbox == old(e.outbox)
  {
    e.seeking := true;
  }

  /** The second half of `onPlayBackSeek`: reports the player's time read
      after the delay as a seek, then releases the flag. */
  method FinishSeek(e: Engine)
    requires e.Valid()
    modifies e
    ensures e.Valid() && !e.seeking
    ensures
      var d := DispatchStep(old(e.Current()), old(e.player.time), false, true);
      e.Current() == d.next && e.outbox == old(e.outbox) + (if d.sent.Some? then [d.sent.value] else [])
  {
    e.Dispatch(e.player.time, false, true);
    e.seeking := false;
  }

  /** `onPlayBackSeek` with no server message handled during its delay. */
  method OnPlayBackSeek(e: Engine)
    requires e.Valid()
    modifies e
    ensures e.Valid() && !e.seeking
    ensures
      var d := DispatchStep(old(e.Current()), old(e.player.time), false, true);
      e.Current() == d.next && e.outbox == old(e.outbox) + (if d.sent.Some? then [d.sent.value] else [])
  {
    BeginSeek(e);
    FinishSeek(e);
  }

  /** A local seek to 50 s from a fresh client, followed by a server message
      with no marker: the seek is sent with `doSeek` and the client marker,
      and the unmarked message does not clear that marker. */
  method LocalSeekThenUnmarkedMessage(getrtt: (real, real) -> real)
  {
    var player := new Kodi.Player(true, false, 50.0);
    var e := new Engine(player);
    OnPlayBackSeek(e);
    assert e.outbox == [Snapshot(Initial.ping, LocalPlay(50.0, true, true), ClientMarker)];
    assert e.marker == ClientMarker && !e.play.doSeek;

    var cfg := Kodi.Settings(500, None, false);
    var msg := RemoteState(InboundPing(7.0, None, None), RemotePlay(50.2, true, false, "peer"), None);
    var outcome := e.Handle(msg, 100.0, getrtt, cfg, "me");
    assert outcome == Sent && e.marker == ClientMarker;
    assert |e.outbox| == 2 && e.outbox[1].play.position == 50.0;
    assert player.log == [];
  }

  /** A fresh client playing at 10 s receives an unmarked message at 20 s
      under a 500 ms tolerance: `handle` toggles the pause (the snapshot
      starts paused) and seeks to 20 s, so a pause event that follows
      reports 20 s. */
  method DriftSeekThenPause(getrtt: (real, real) -> real)
  {
    var player := new Kodi.Player(true, false, 10.0);
    var e := new Engine(player);
    var cfg := Kodi.Settings(500, None, false);
    var msg := RemoteState(InboundPing(7.0, None, None), RemotePlay(20.0, false, false, "peer"), None);
    var outcome := e.Handle(msg, 100.0, getrtt, cfg, "me");
    assert outcome == Sent && e.marker == NoMarker;
    assert player.log == [Kodi.TogglePause, Kodi.SeekTo(20.0)];
    assert player.time == 20.0 && player.paused;

    OnPlayBackPaused(e);
    assert e.outbox[1] == Snapshot(Ping(7.0, 100.0, 0.0), LocalPlay(20.0, true, false), ClientMarker);
  }
}
