/** What every run of the ownership machine keeps: take-overs, yields, re-pauses and announcements. */
module HandoffRuns {
  import opened Prelude
  import opened Handoff

  // ---- reading an action list

  ghost predicate Takes(out: seq<Action>) {
    exists a :: a in out && a.Record? && a.kind == TookOver
  }

  ghost predicate Yields(out: seq<Action>) {
    exists a :: a in out && a.Record? && a.kind != TookOver
  }

  ghost predicate Repauses(out: seq<Action>) {
    exists a :: a in out && a.RepausePlayer?
  }

  /** Some host is told `HostStreamingState` YES or NO. */
  ghost predicate Says(out: seq<Action>, streaming: bool) {
    exists a :: a in out && a.SendMediaInfo? && a.streaming == streaming
  }

  ghost predicate Told(out: seq<Action>, host: Address, streaming: bool) {
    exists a :: a in out && a.SendMediaInfo? && a.streaming == streaming && a.target == host
  }

  /** The route goes to the AirPods before they are claimed, and off them before they are released. */
  ghost predicate RoutesFirst(out: seq<Action>) {
    forall i :: 0 <= i < |out| && out[i].SendOwnership? ==>
      if out[i].owns then SetAudioRoute(Own) in out[..i]
      else PauseLocalPlayers in out[..i] && SetAudioRoute(Yielded) in out[..i]
  }

  // ---- reading an event

  predicate Resets(event: Event) {
    event.LinkOpened? || event.LinkClosed?
  }

  /** A real request to give the audio up. */
  ghost predicate Requested(s: State, event: Event, now: Millis) {
    match event
    case Yield => true
    case AudioSource(a, source) =>
      source.Known? && source.status != Idle && s.local.Some? && !IsLocal(s, a) && s.enabled
      && !InOpening(s, now) && s.audioSource != Some(Source(a, source.status))
    case OwnsConnection(owns, opening) => !owns && s.enabled && !opening && !InOpening(s, now)
    case SmartRouting(sender, requestsYield) => requestsYield && !IsLocal(s, sender) && s.enabled
    case _ => false
  }

  function PlayerAfter(s: State, event: Event): Player
    requires event.Playback?
  {
    if event.player.Some? then event.player else s.playingPlayer
  }

  /** A Playing edge outside both hold windows, or from a player already paused again since the last request. */
  ghost predicate UserPlay(s: State, event: Event, now: Millis) {
    event.Playback? && event.playing && s.playing == Some(false)
    && (!InHoldWindow(s, now) || PlayerAfter(s, event) in s.repaused)
  }

  /** A play under way does not survive this step. */
  ghost predicate Disturbs(s: State, event: Event, now: Millis, out: seq<Action>) {
    Resets(event) || (event.Playback? && !event.playing) || Yields(out) || Takes(out) || Repauses(out)
    || (Requested(s, event, now) && !event.OwnsConnection?)
  }

  // ---- what one step can do

  /** A tick finds a play that has lasted the debounce. */
  predicate EdgeDue(s: State, event: Event, now: Millis) {
    event.Tick? && s.playEdge.Some? && Since(now, s.playEdge.value) >= PLAY_DEBOUNCE && s.playing == Some(true)
  }

  /** Everything but the play itself that a take-over needs. */
  predicate MayTakeOver(s: State) {
    s.enabled && s.takeOverOnPlay && s.linkUp && s.local.Some? && !OtherInCall(s) && OwnedElsewhere(s)
  }

  ghost predicate EdgeMoves(s: State, event: Event, now: Millis, out: seq<Action>, t: State) {
    (t.playEdge.Some? ==>
       (t.playEdge == s.playEdge && !Disturbs(s, event, now, out))
       || (t.playEdge == Some(now) && UserPlay(s, event, now)))
    && (Takes(out) ==> event.TakeOver? || event.Tick?)
    && (event.Tick? ==> (Takes(out) <==> EdgeDue(s, event, now) && MayTakeOver(s)))
    && (UserPlay(s, event, now) ==> t.playEdge == Some(now))
    && (s.playEdge.Some? && !Disturbs(s, event, now, out) && !EdgeDue(s, event, now) ==> t.playEdge == s.playEdge)
    && (EdgeDue(s, event, now) ==> t.playEdge.None?)
    && t.playing == (if Resets(event) then None else if event.Playback? then Some(event.playing) else s.playing)
    && t.audioSource == (if Resets(event) then None
                         else if event.AudioSource? && event.source.Known?
                         then Some(Source(event.address, event.source.status))
                         else s.audioSource)
  }

  ghost predicate ReleaseMoves(s: State, event: Event, now: Millis, out: seq<Action>, t: State) {
    !(Takes(out) && Yields(out))
    && (Yields(out) <==> (event.Yield? || !s.released) && Requested(s, event, now))
    && (Yields(out) ==> t.released)
    && (Takes(out) || Resets(event) ==> !t.released)
    && (!Yields(out) && !Takes(out) && !Resets(event) ==> t.released == s.released)
    && (Resets(event) ==> !Yields(out) && !Takes(out))
    && (SetAudioRoute(Own) in out <==> Takes(out))
    && (SetAudioRoute(Yielded) in out <==> Yields(out))
    && RoutesFirst(out)
    && (Repauses(out) ==> t.released)
  }

  ghost predicate RepauseMoves(s: State, event: Event, now: Millis, out: seq<Action>, t: State) {
    (forall p :: RepausePlayer(p) in out ==> p in t.repaused && (p !in s.repaused || Requested(s, event, now)))
    && (forall p :: p in s.repaused ==> p in t.repaused || Requested(s, event, now) || Resets(event))
    && (event.Playback? ==>
          (Repauses(out) <==> event.playing && s.playing == Some(false) && !UserPlay(s, event, now)))
    && (forall p :: p in t.repaused ==>
          RepausePlayer(p) in out || (p in s.repaused && !Requested(s, event, now) && !Resets(event)))
  }

  ghost predicate StreamMoves(s: State, event: Event, now: Millis, out: seq<Action>, t: State) {
    (Says(out, false) ==>
       event.Tick? && s.enabled && s.linkUp && OwnsAudio(s) && s.playing == Some(false) && s.stoppedAt.Some?
       && Since(now, s.stoppedAt.value) >= PLAYBACK_STOPPED && !InStreamGrace(s, now)
       && s.announced != Some(false) && t.announced == Some(false))
    && (t.stoppedAt.Some? && t.playing == Some(false) ==>
          (event.Playback? && !event.playing && s.playing == Some(true) && t.stoppedAt == Some(now))
          || (t.stoppedAt == s.stoppedAt && (s.playing == Some(false) || (event.Playback? && s.playing.None?))))
    && (Takes(out) ==> t.tookOverAt == Some(now))
    && (!Takes(out) ==> t.tookOverAt == s.tookOverAt || Yields(out) || Resets(event))
    && (s.announced == Some(false) && t.announced != Some(false) ==>
          Resets(event) || (t.announced == Some(true) && forall h :: h in Others(s) ==> Told(out, h, true)))
  }

  /** A hold implies having given the audio up, a stop was read from playback, and an edge means playing. */
  ghost predicate Sound(s: State) {
    (s.held ==> s.released) && (s.playing.None? ==> s.stoppedAt.None?) && (s.playEdge.Some? ==> s.playing == Some(true))
  }

  ghost predicate Moved(s: State, event: Event, now: Millis, n: Next) {
    Sound(n.state) && EdgeMoves(s, event, now, n.out, n.state) && ReleaseMoves(s, event, now, n.out, n.state)
    && RepauseMoves(s, event, now, n.out, n.state) && StreamMoves(s, event, now, n.out, n.state)
  }

  lemma YieldOut(s: State, now: Millis, announce: bool, kind: Kind, peer: Option<Address>)
    requires kind != TookOver
    ensures YieldSteps(s, now, announce, kind, peer).state
      == EndStreamStart(RenewHold(NoteRequest(s.(owner := Elsewhere, released := true), now), now))
    ensures var o := YieldSteps(s, now, announce, kind, peer).out;
      Yields(o) && !Takes(o) && !Repauses(o) && !Says(o, true) && !Says(o, false)
      && SetAudioRoute(Yielded) in o && SetAudioRoute(Own) !in o && RoutesFirst(o)
  {
    var o := YieldSteps(s, now, announce, kind, peer).out;
    assert o[0] == PauseLocalPlayers && o[1] == SetAudioRoute(Yielded);
    assert o[|o| - 1] == Record(kind, peer);
    if announce {
      assert o[..2][0] == PauseLocalPlayers && o[..2][1] == SetAudioRoute(Yielded);
    }
  }

  lemma TakeOut(s: State, now: Millis)
    ensures var t := TakeOverSteps(s, now).state;
      t == s.(owner := Here, released := false, held := false, playEdge := None, stoppedAt := None,
              tookOverAt := Some(now), streamCheck := t.streamCheck, reannounce := t.reannounce,
              announced := Some(true))
    ensures var o := TakeOverSteps(s, now).out;
      Takes(o) && !Yields(o) && !Repauses(o) && !Says(o, false)
      && SetAudioRoute(Own) in o && SetAudioRoute(Yielded) !in o && RoutesFirst(o)
      && forall h :: h in Others(s) ==> Told(o, h, true)
  {
    var o := TakeOverSteps(s, now).out;
    var others := Others(s);
    hide Others;
    var m, j := MediaInfos(others, true, App(s)), Hijacks(others);
    var head, tail := [SetAudioRoute(Own), SendOwnership(true)], [ClaimAudio, o[|o| - 1]];
    assert o == head + m + j + tail;
    assert o[0] == SetAudioRoute(Own) && o[|o| - 1].Record?;
    forall i | 0 <= i < |o|
      ensures o[i] == if i < 2 then head[i] else if i < 2 + |m| then m[i - 2]
                      else if i < 2 + |m| + |j| then j[i - 2 - |m|] else tail[i - 2 - |m| - |j|]
    {
    }
    assert o[..1][0] == SetAudioRoute(Own);
    forall h | h in others ensures Told(o, h, true) {
      var i :| 0 <= i < |others| && others[i] == h;
      assert o[2 + i] == m[i];
    }
  }

  lemma RepauseOut(s: State, now: Millis)
    ensures Repause(s, now).state == s.(holdFrom := Some(now), playEdge := None,
                                        repaused := s.repaused + [s.playingPlayer])
    ensures var o := Repause(s, now).out;
      Repauses(o) && !Takes(o) && !Yields(o) && !Says(o, true) && !Says(o, false) && RoutesFirst(o)
      && SetAudioRoute(Own) !in o && SetAudioRoute(Yielded) !in o
      && forall p :: RepausePlayer(p) in o <==> p == s.playingPlayer
  {
    assert Repause(s, now).out[0] == RepausePlayer(s.playingPlayer);
  }

  lemma AnnounceOut(s: State, streaming: bool)
    ensures Announce(s, streaming).state == s.(announced := Some(streaming))
    ensures var o := Announce(s, streaming).out;
      !Takes(o) && !Yields(o) && !Repauses(o) && RoutesFirst(o) && !Says(o, !streaming)
      && (forall a :: a in o ==> a.SendMediaInfo?)
      && forall h :: h in Others(s) ==> Told(o, h, streaming)
  {
    var o, others := Announce(s, streaming).out, Others(s);
    forall h | h in others ensures Told(o, h, streaming) {
      var i :| 0 <= i < |others| && others[i] == h;
      assert o[i].target == h;
    }
  }

  function PlayingAfter(s: State, event: Event): Option<bool> {
    if Resets(event) then None else if event.Playback? then Some(event.playing) else s.playing
  }

  function SourceAfter(s: State, event: Event): Option<Source> {
    if Resets(event) then None
    else if event.AudioSource? && event.source.Known? then Some(Source(event.address, event.source.status))
    else s.audioSource
  }

  /** `u` is `s` with only the reading the event carries folded in. */
  ghost predicate Folded(s: State, event: Event, u: State) {
    u.playing == PlayingAfter(s, event) && u.audioSource == SourceAfter(s, event)
    && u.released == s.released && u.held == s.held && u.playEdge == s.playEdge && u.repaused == s.repaused
    && u.stoppedAt == s.stoppedAt && u.tookOverAt == s.tookOverAt && u.announced == s.announced
  }

  /** The conditions under which a step without a request or a reset is harmless. */
  ghost predicate Calm(s: State, event: Event, now: Millis, u: State) {
    Sound(u) && !Resets(event) && !Requested(s, event, now)
    && u.playing == PlayingAfter(s, event) && u.audioSource == SourceAfter(s, event)
    && u.released == s.released && u.repaused == s.repaused && u.tookOverAt == s.tookOverAt
    && (u.playEdge.Some? ==>
          (u.playEdge == s.playEdge && !(event.Playback? && !event.playing))
          || (u.playEdge == Some(now) && UserPlay(s, event, now)))
    && (event.Playback? && event.playing && s.playing == Some(false) ==> UserPlay(s, event, now))
    && (UserPlay(s, event, now) ==> u.playEdge == Some(now))
    && (if EdgeDue(s, event, now) then u.playEdge.None? && !MayTakeOver(s)
        else s.playEdge.Some? && !(event.Playback? && !event.playing) ==> u.playEdge == s.playEdge)
    && (u.stoppedAt.Some? && u.playing == Some(false) ==>
          (event.Playback? && !event.playing && s.playing == Some(true) && u.stoppedAt == Some(now))
          || (u.stoppedAt == s.stoppedAt && (s.playing == Some(false) || (event.Playback? && s.playing.None?))))
  }

  lemma SilentMoved(s: State, event: Event, now: Millis, u: State)
    requires Sound(s) && Calm(s, event, now, u) && u.announced == s.announced
    ensures Moved(s, event, now, Next(u, []))
  {
    hide Requested, UserPlay;
  }

  lemma AnnounceMoved(s: State, event: Event, now: Millis, u: State)
    requires Sound(s) && Calm(s, event, now, u) && Others(u) == Others(s)
    ensures Moved(s, event, now, Announce(u, true))
  {
    AnnounceOut(u, true);
    hide Requested, UserPlay, Announce, Others;
  }

  lemma YieldMoved(s: State, event: Event, now: Millis, u: State, announce: bool, kind: Kind, peer: Option<Address>)
    requires Sound(s) && Folded(s, event, u) && !Resets(event) && Requested(s, event, now) && !event.Playback?
    requires kind != TookOver && (event.Yield? || !s.released)
    ensures Moved(s, event, now, YieldSteps(u, now, announce, kind, peer))
  {
    YieldOut(u, now, announce, kind, peer);
    hide YieldSteps, Requested;
  }

  lemma TakeMoved(s: State, event: Event, now: Millis, u: State)
    requires Sound(s) && !Resets(event) && !Requested(s, event, now) && (event.TakeOver? || event.Tick?)
    requires event.TakeOver? || (EdgeDue(s, event, now) && MayTakeOver(s))
    requires u.playing == s.playing && u.audioSource == s.audioSource && u.repaused == s.repaused
    requires Others(u) == Others(s)
    ensures Moved(s, event, now, TakeOverSteps(u, now))
  {
    TakeOut(u, now);
    hide TakeOverSteps, Requested, Others, MayTakeOver;
  }

  /** A request while the audio is already given up. */
  lemma RenewMoved(s: State, event: Event, now: Millis, u: State)
    requires Sound(s) && Folded(s, event, u) && !Resets(event) && Requested(s, event, now) && !event.Playback?
    requires s.released
    requires !event.Yield?
    ensures !event.OwnsConnection? ==> Moved(s, event, now, Next(RenewHold(NoteRequest(u, now), now), []))
    ensures event.OwnsConnection? ==> Moved(s, event, now, Next(NoteRequest(u, now), []))
  {
    assert !event.Tick?;
    hide Requested;
  }

  lemma RepauseMoved(s: State, event: Event, now: Millis, u: State)
    requires Sound(s) && Sound(u) && !Resets(event) && u.released && s.released
    requires u.playing == PlayingAfter(s, event) && u.audioSource == SourceAfter(s, event)
    requires u.stoppedAt == s.stoppedAt && u.tookOverAt == s.tookOverAt && u.announced == s.announced
    requires u.playing == s.playing || u.playing == Some(true)
    requires !event.Tick? && !event.Yield?
    requires event.Playback? ==> event.playing && s.playing == Some(false) && !UserPlay(s, event, now)
    requires if Requested(s, event, now) then u.repaused == []
             else u.repaused == s.repaused && u.playingPlayer !in s.repaused
    ensures Moved(s, event, now, Repause(u, now))
  {
    RepauseOut(u, now);
    assert !UserPlay(s, event, now) && !EdgeDue(s, event, now);
    hide Repause, Requested, UserPlay, EdgeDue;
  }

  lemma StreamTickFrame(s: State, now: Millis)
    ensures var a := StreamTick(s, now);
      a.state == s.(streamCheck := a.state.streamCheck) && (a.out == [] || a.out == [StreamNotStarted])
  {
  }

  lemma TickWhilePlayingMoved(s: State, u: State, now: Millis)
    requires Sound(s) && s.playing == Some(true) && u == s.(streamCheck := u.streamCheck)
    ensures var b := StopTick(u, now);
      b.out == [] && Moved(s, Tick, now, EdgeTick(b.state, now))
  {
    var b := StopTick(u, now).state;
    assert b == u.(stoppedAt := b.stoppedAt) && StopTick(u, now).out == [];
    EdgeTickMoved(s, b, now);
    hide StopTick, EdgeTick, Moved;
  }

  lemma EdgeTickMoved(s: State, b: State, now: Millis)
    requires Sound(s) && s.playing == Some(true)
    requires b == s.(streamCheck := b.streamCheck, stoppedAt := b.stoppedAt)
    ensures Moved(s, Tick, now, EdgeTick(b, now))
  {
    var e := b.(playEdge := None, held := false);
    if !EdgeDue(s, Tick, now) {
      SilentMoved(s, Tick, now, b);
    } else if !MayTakeOver(s) {
      SilentMoved(s, Tick, now, e);
    } else {
      TakeMoved(s, Tick, now, e);
    }
    hide TakeOverSteps, Moved;
  }

  lemma TickWhileQuietMoved(s: State, u: State, now: Millis)
    requires Sound(s) && s.playing != Some(true) && u == s.(streamCheck := u.streamCheck)
    ensures var b := StopTick(u, now);
      var c := EdgeTick(b.state, now);
      c == Next(b.state, []) && Moved(s, Tick, now, b)
  {
    AnnounceOut(u.(stoppedAt := None), false);
    hide Announce;
  }

  lemma PrefixMoved(s: State, now: Millis, a: seq<Action>, n: Next)
    requires Moved(s, Tick, now, n) && (a == [] || a == [StreamNotStarted])
    ensures Moved(s, Tick, now, Next(n.state, a + n.out))
  {
    PrefixOut(a, n.out);
  }

  lemma TickMoved(s: State, now: Millis)
    requires Sound(s)
    ensures Moved(s, Tick, now, OnTick(s, now))
  {
    hide StreamTick, StopTick, EdgeTick, Moved, Sound;
    var a := StreamTick(s, now);
    var b := StopTick(a.state, now);
    var c := EdgeTick(b.state, now);
    StreamTickFrame(s, now);
    if s.playing == Some(true) {
      TickWhilePlayingMoved(s, a.state, now);
      PrefixMoved(s, now, a.out, c);
      assert OnTick(s, now) == Next(c.state, a.out + c.out);
    } else {
      TickWhileQuietMoved(s, a.state, now);
      PrefixMoved(s, now, a.out, b);
      assert OnTick(s, now) == Next(b.state, a.out + b.out);
    }
  }

  /** A stream warning in front changes nothing an action list is read for. */
  lemma PrefixOut(a: seq<Action>, o: seq<Action>)
    requires a == [] || a == [StreamNotStarted]
    requires RoutesFirst(o)
    ensures var r := a + o;
      (Takes(r) <==> Takes(o)) && (Yields(r) <==> Yields(o)) && (Repauses(r) <==> Repauses(o))
      && (Says(r, false) <==> Says(o, false)) && (forall m :: SetAudioRoute(m) in r <==> SetAudioRoute(m) in o)
      && (forall p :: RepausePlayer(p) in r <==> RepausePlayer(p) in o)
      && (forall h :: Told(o, h, true) ==> Told(r, h, true)) && RoutesFirst(r)
  {
    var r := a + o;
    forall i | 0 <= i < |r| && r[i].SendOwnership?
      ensures if r[i].owns then SetAudioRoute(Own) in r[..i]
              else PauseLocalPlayers in r[..i] && SetAudioRoute(Yielded) in r[..i]
    {
      assert r[i] == o[i - |a|];
      assert r[..i] == a + o[..i - |a|];
    }
  }

  lemma PlayStartedMoved(s: State, e: Event, now: Millis)
    requires Sound(s) && e.Playback? && e.playing && s.playing == Some(false)
    ensures Moved(s, e, now, OnPlayStarted(Reading(s, true, e.app, e.player, now), now))
  {
    var t := Reading(s, true, e.app, e.player, now);
    if InHoldWindow(t, now) && MayRepause(t) {
      RepauseMoved(s, e, now, t);
    } else {
      var u := t.(playEdge := Some(now), stoppedAt := None);
      assert UserPlay(s, e, now);
      AnnounceMoved(s, e, now, u);
      if u.announced == s.announced { SilentMoved(s, e, now, u); }
    }
    hide Announce, Repause, Moved;
  }

  lemma ReadingMoved(s: State, e: Event, now: Millis, t: State)
    requires Sound(s) && e.Playback? && !(s.playing == Some(false) && e.playing)
    requires t.playing == Some(e.playing) && t.audioSource == s.audioSource && t.released == s.released
    requires t.held == s.held
    requires t.repaused == s.repaused && t.tookOverAt == s.tookOverAt && t.announced == s.announced
    requires if s.playing == Some(true) && !e.playing then t.playEdge.None? && t.stoppedAt == Some(now)
             else t.playEdge == s.playEdge && t.stoppedAt == s.stoppedAt
    ensures Moved(s, e, now, Next(t, []))
  {
    assert !UserPlay(s, e, now);
    hide Moved, UserPlay;
    if s.playing.Some? && s.playing != Some(true) {
      assert !s.playing.value;
    }
    SilentMoved(s, e, now, t);
  }

  lemma PlaybackMoved(s: State, e: Event, now: Millis)
    requires Sound(s) && e.Playback?
    ensures Moved(s, e, now, OnPlayback(s, e.playing, e.app, e.player, now))
  {
    hide Moved, OnPlayStarted;
    var t := Reading(s, e.playing, e.app, e.player, now);
    if s.playing == Some(false) && e.playing {
      hide Reading;
      PlayStartedMoved(s, e, now);
    } else if s.playing == Some(true) && !e.playing {
      ReadingMoved(s, e, now, t.(playEdge := None, stoppedAt := Some(now)));
    } else {
      ReadingMoved(s, e, now, t);
    }
  }

  lemma SourceMoved(s: State, address: Address, source: SourceState, now: Millis)
    requires Sound(s)
    ensures Moved(s, AudioSource(address, source), now, OnAudioSource(s, address, source, now))
  {
    var e := AudioSource(address, source);
    if source.Raw? {
      SilentMoved(s, e, now, s);
    } else {
      var t := s.(audioSource := Some(Source(address, source.status)));
      var u := t.(owner := Elsewhere);
      if s.local.None? {
        SilentMoved(s, e, now, t);
      } else if source.status == Idle || IsLocal(s, address) {
        QuietMoved(s, e, now, t);
      } else if !Requested(s, e, now) {
        SilentMoved(s, e, now, u);
      } else if s.released {
        RenewMoved(s, e, now, u);
      } else {
        YieldMoved(s, e, now, u, true, GaveUp, Some(address));
      }
    }
    hide YieldSteps, OnQuietSource, RenewHold, NoteRequest;
  }

  lemma QuietMoved(s: State, e: Event, now: Millis, t: State)
    requires Sound(s) && e.AudioSource? && e.source.Known? && (e.source.status == Idle || IsLocal(s, e.address))
    requires t == s.(audioSource := Some(Source(e.address, e.source.status)))
    ensures Moved(s, e, now, OnQuietSource(t, e.address, e.source.status, now))
  {
    hide Moved, InOpening, RecentRequest, Repause;
    var u :=
      if IsLocal(t, e.address) && e.source.status != Idle then t.(owner := Here, audioChanged := Some(now)) else t;
    HeldMoved(s, e, now, u);
  }

  lemma HeldMoved(s: State, e: Event, now: Millis, u: State)
    requires Sound(s) && e.AudioSource? && Folded(s, e, u) && !Requested(s, e, now)
    requires u.playingPlayer == s.playingPlayer
    ensures Moved(s, e, now, Next(u, [])) && Moved(s, e, now, Next(u.(held := false), []))
    ensures u.held && MayRepause(u) ==> Moved(s, e, now, Repause(u, now))
  {
    hide Moved, Requested, Repause;
    SilentMoved(s, e, now, u);
    SilentMoved(s, e, now, u.(held := false));
    if u.held && MayRepause(u) {
      RepauseMoved(s, e, now, u);
    }
  }

  lemma DisownedMoved(s: State, opening: bool, now: Millis)
    requires Sound(s)
    ensures Moved(s, OwnsConnection(false, opening), now, OnDisowned(s, opening, now))
  {
    var e, t := OwnsConnection(false, opening), s.(owner := Elsewhere);
    if !Requested(s, e, now) {
      SilentMoved(s, e, now, t);
    } else if s.released {
      RenewMoved(s, e, now, t);
    } else {
      YieldMoved(s, e, now, t, false, GaveUp, ActiveOtherSource(t));
    }
    hide YieldSteps, NoteRequest;
  }

  lemma RoutingMoved(s: State, sender: Address, requestsYield: bool, now: Millis)
    requires Sound(s)
    ensures Moved(s, SmartRouting(sender, requestsYield), now, OnSmartRouting(s, sender, requestsYield, now))
  {
    var e, t := SmartRouting(sender, requestsYield), s.(owner := Elsewhere);
    if !Requested(s, e, now) {
      SilentMoved(s, e, now, s);
      SilentMoved(s, e, now, t);
    } else if !s.released {
      YieldMoved(s, e, now, t, true, GaveUpOnRequest, Some(sender));
    } else {
      RenewMoved(s, e, now, t);
      var u := RenewHold(NoteRequest(t, now), now);
      if s.playing == Some(true) { RepauseMoved(s, e, now, u); }
    }
    hide YieldSteps, Repause;
  }

  lemma TransportMoved(s: State, active: bool, now: Millis)
    requires Sound(s)
    ensures Moved(s, A2dpTransport(active), now, OnTransport(s, active))
  {
    var e, t := A2dpTransport(active), s.(transportActive := Some(active));
    var u := t.(streamCheck := None);
    SilentMoved(s, e, now, t);
    SilentMoved(s, e, now, u);
    AnnounceMoved(s, e, now, u);
    AnnounceMoved(s, e, now, u.(reannounce := false));
    hide Announce, Moved;
  }

  lemma DevicesMoved(s: State, list: seq<Address>, now: Millis)
    requires Sound(s)
    ensures Moved(s, ConnectedDevices(list), now, OnDevices(s, list, now))
  {
  }

  lemma ResetMoved(s: State, event: Event, now: Millis)
    requires Sound(s) && Resets(event)
    ensures Moved(s, event, now, Step(s, event, now))
  {
  }

  lemma StepMoved(s: State, event: Event, now: Millis)
    requires Sound(s)
    ensures Moved(s, event, now, Step(s, event, now))
  {
    hide OnTick, OnPlayback, OnAudioSource, OnDisowned, OnSmartRouting, OnTransport, OnDevices;
    match event
    case Tick => TickMoved(s, now);
    case Playback(_, _, _) => PlaybackMoved(s, event, now);
    case AudioSource(address, source) => SourceMoved(s, address, source, now);
    case OwnsConnection(owns, opening) => if !owns { DisownedMoved(s, opening, now); }
    case SmartRouting(sender, requestsYield) => RoutingMoved(s, sender, requestsYield, now);
    case A2dpTransport(active) => TransportMoved(s, active, now);
    case ConnectedDevices(list) => DevicesMoved(s, list, now);
    case TakeOver => TakeMoved(s, event, now, s);
    case Yield => YieldMoved(s, event, now, s, true, GaveUp, None);
    case LinkOpened => ResetMoved(s, event, now);
    case LinkClosed => ResetMoved(s, event, now);
    case _ => SilentMoved(s, event, now, Step(s, event, now).state);
    hide TakeOverSteps, YieldSteps, Moved;
  }

  // ---- runs

  /** One event, the clock reading it was folded at, the actions it returned and the state it left. */
  datatype Entry = Entry(event: Event, now: Millis, out: seq<Action>, post: State)

  datatype Run = Run(init: State, es: seq<Entry>) {
    function At(k: nat): State
      requires k <= |es|
    {
      if k == 0 then init else es[k - 1].post
    }

    ghost predicate Linked(k: nat)
      requires k < |es|
    {
      Next(es[k].post, es[k].out) == Step(At(k), es[k].event, es[k].now)
    }

    ghost predicate Valid() {
      (exists enabled, onPlay :: init == NewState(enabled, onPlay))
      && (forall k {:trigger Linked(k)} :: 0 <= k < |es| ==> Linked(k))
      && (forall i, j :: 0 <= i <= j < |es| ==> es[i].now <= es[j].now)
    }

    /** No AAP link opened or closed between events `j` and `k`. */
    ghost predicate SameLink(j: nat, k: nat)
      requires k <= |es|
    {
      forall m :: j < m < k ==> !Resets(es[m].event)
    }

    ghost predicate Asks(k: nat)
      requires k < |es|
    {
      Requested(At(k), es[k].event, es[k].now)
    }

    ghost predicate Disturbed(k: nat)
      requires k < |es|
    {
      Disturbs(At(k), es[k].event, es[k].now, es[k].out)
    }

    /** The play of event `e` is the user's, nothing disturbed it before event `k`, and no tick found it due. */
    ghost predicate PlayStands(e: nat, k: nat)
      requires e < k <= |es|
    {
      UserPlay(At(e), es[e].event, es[e].now)
      && forall m :: e < m < k ==> !Disturbed(m) && !(es[m].event.Tick? && es[m].now - es[e].now >= PLAY_DEBOUNCE)
    }

    /** Every other host listed then is told YES, and the machine counts the round. */
    ghost predicate YesRound(k: nat)
      requires k < |es|
    {
      es[k].post.announced == Some(true) && forall h :: h in Others(At(k)) ==> Told(es[k].out, h, true)
    }

    /** The latest playback reading on this link, after `k` events. */
    function PlayingBy(k: nat): Option<bool>
      requires k <= |es|
    {
      if k == 0 || Resets(es[k - 1].event) then None
      else if es[k - 1].event.Playback? then Some(es[k - 1].event.playing)
      else PlayingBy(k - 1)
    }

    /** The latest audio source reported on this link, after `k` events. */
    function SourceBy(k: nat): Option<Source>
      requires k <= |es|
    {
      if k == 0 || Resets(es[k - 1].event) then None
      else if es[k - 1].event.AudioSource? && es[k - 1].event.source.Known?
      then Some(Source(es[k - 1].event.address, es[k - 1].event.source.status))
      else SourceBy(k - 1)
    }

    /** The latest audio route this machine asked for on this link, after `k` events. */
    ghost function RouteBy(k: nat): Option<RouteMode>
      requires k <= |es|
    {
      if k == 0 || Resets(es[k - 1].event) then None
      else if SetAudioRoute(Own) in es[k - 1].out then Some(Own)
      else if SetAudioRoute(Yielded) in es[k - 1].out then Some(Yielded)
      else RouteBy(k - 1)
    }
  }

  /** Any sequence of events at any non-decreasing clock readings is a run. */
  lemma {:induction false} EveryInputRuns(enabled: bool, onPlay: bool, events: seq<Event>,
                                          clock: seq<Millis>)
    returns (r: Run)
    requires |events| == |clock|
    requires forall i, j :: 0 <= i <= j < |clock| ==> clock[i] <= clock[j]
    ensures r.Valid() && r.init == NewState(enabled, onPlay) && |r.es| == |events|
    ensures forall k :: 0 <= k < |events| ==> r.es[k].event == events[k] && r.es[k].now == clock[k]
  {
    hide Step;
    var n := |events|;
    if n == 0 {
      r := Run(NewState(enabled, onPlay), []);
    } else {
      var p := EveryInputRuns(enabled, onPlay, events[..n - 1], clock[..n - 1]);
      var next := Step(p.At(n - 1), events[n - 1], clock[n - 1]);
      r := Run(p.init, p.es + [Entry(events[n - 1], clock[n - 1], next.out, next.state)]);
      assert r.Linked(n - 1);
      forall k | 0 <= k < n ensures r.Linked(k) {
        if k < n - 1 { assert p.Linked(k); }
      }
    }
  }

  lemma {:induction false} SoundAt(r: Run, k: nat)
    requires r.Valid() && k <= |r.es|
    ensures Sound(r.At(k))
  {
    hide Step;
    if k > 0 {
      SoundAt(r, k - 1);
      assert r.Linked(k - 1);
      StepMoved(r.At(k - 1), r.es[k - 1].event, r.es[k - 1].now);
    }
  }

  /** The step behind entry `k`. */
  lemma Took(r: Run, k: nat)
    requires r.Valid() && k < |r.es|
    ensures Moved(r.At(k), r.es[k].event, r.es[k].now, Next(r.es[k].post, r.es[k].out)) && Sound(r.At(k))
  {
    hide Step, Moved;
    SoundAt(r, k);
    assert r.Linked(k);
    StepMoved(r.At(k), r.es[k].event, r.es[k].now);
  }

  lemma {:induction false} ReadingsFollowEvents(r: Run, k: nat)
    requires r.Valid() && k <= |r.es|
    ensures r.At(k).playing == r.PlayingBy(k) && r.At(k).audioSource == r.SourceBy(k)
  {
    if k > 0 {
      ReadingsFollowEvents(r, k - 1);
      Took(r, k - 1);
      hide ReleaseMoves, RepauseMoves, StreamMoves;
    }
  }

  // ---- take-overs

  lemma {:induction false} EdgeHasSource(r: Run, k: nat) returns (e: nat)
    requires r.Valid() && k <= |r.es| && r.At(k).playEdge.Some?
    ensures e < k && UserPlay(r.At(e), r.es[e].event, r.es[e].now) && r.es[e].now == r.At(k).playEdge.value
    ensures forall m :: e < m < k ==> !r.Disturbed(m)
    ensures forall m :: e < m <= k ==> r.PlayingBy(m) == Some(true)
  {
    hide ReleaseMoves, RepauseMoves, StreamMoves, UserPlay;
    Took(r, k - 1);
    ReadingsFollowEvents(r, k);
    SoundAt(r, k);
    if UserPlay(r.At(k - 1), r.es[k - 1].event, r.es[k - 1].now) && r.At(k).playEdge == Some(r.es[k - 1].now) {
      e := k - 1;
    } else {
      e := EdgeHasSource(r, k - 1);
      assert !r.Disturbed(k - 1);
    }
  }

  /**
   A take-over on a tick answers one play of the user's that has lasted undisturbed for at least 1.5 s,
   with the AirPods owned elsewhere and no other host in a call.
   */
  lemma TakeOverAnswersAPlay(r: Run, k: nat) returns (e: nat)
    requires r.Valid() && k < |r.es| && r.es[k].event.Tick? && Takes(r.es[k].out)
    ensures e < k && UserPlay(r.At(e), r.es[e].event, r.es[e].now)
    ensures r.es[k].now - r.es[e].now >= PLAY_DEBOUNCE
    ensures forall m :: e < m < k ==> !r.Disturbed(m)
    ensures forall m :: e < m <= k ==> r.PlayingBy(m) == Some(true)
    ensures r.At(k).enabled && r.At(k).takeOverOnPlay && r.At(k).linkUp && OwnedElsewhere(r.At(k))
    ensures r.SourceBy(k).Some? && r.SourceBy(k).value.status == Call ==>
      r.At(k).local == Some(r.SourceBy(k).value.address)
  {
    hide ReleaseMoves, RepauseMoves, StreamMoves, UserPlay, OwnedElsewhere;
    Took(r, k);
    ReadingsFollowEvents(r, k);
    e := EdgeHasSource(r, k);
  }

  lemma {:induction false} EdgeRemembered(r: Run, e: nat, k: nat)
    requires r.Valid() && e < k <= |r.es| && r.PlayStands(e, k)
    ensures r.At(k).playEdge == Some(r.es[e].now)
  {
    hide ReleaseMoves, RepauseMoves, StreamMoves, UserPlay, Disturbs;
    Took(r, k - 1);
    if e < k - 1 {
      EdgeRemembered(r, e, k - 1);
      ReadingsFollowEvents(r, k - 1);
      SoundAt(r, k - 1);
    }
  }

  lemma {:induction false} EdgeIsStanding(r: Run, k: nat) returns (e: nat)
    requires r.Valid() && k <= |r.es| && r.At(k).playEdge.Some?
    ensures e < k && r.PlayStands(e, k) && r.es[e].now == r.At(k).playEdge.value
  {
    hide ReleaseMoves, RepauseMoves, StreamMoves, UserPlay, Disturbs;
    Took(r, k - 1);
    SoundAt(r, k);
    if UserPlay(r.At(k - 1), r.es[k - 1].event, r.es[k - 1].now) && r.At(k).playEdge == Some(r.es[k - 1].now) {
      e := k - 1;
    } else {
      SoundAt(r, k - 1);
      e := EdgeIsStanding(r, k - 1);
      assert !r.Disturbed(k - 1);
      assert !EdgeDue(r.At(k - 1), r.es[k - 1].event, r.es[k - 1].now);
    }
  }

  /**
   A tick takes the audio over exactly when a play of the user's has stood undisturbed for 1.5 s, no earlier tick has
   found it due, and nothing else forbids it.
   */
  lemma TickTakesIff(r: Run, k: nat)
    requires r.Valid() && k < |r.es| && r.es[k].event.Tick?
    ensures Takes(r.es[k].out)
       <==> MayTakeOver(r.At(k))
            && exists e :: 0 <= e < k && r.PlayStands(e, k) && r.es[k].now - r.es[e].now >= PLAY_DEBOUNCE
  {
    hide ReleaseMoves, RepauseMoves, StreamMoves, UserPlay, MayTakeOver, Run.PlayStands;
    Took(r, k);
    SoundAt(r, k);
    if Takes(r.es[k].out) {
      var e := EdgeIsStanding(r, k);
      assert r.es[k].now - r.es[e].now >= PLAY_DEBOUNCE;
    }
    if e: nat :| e < k && r.PlayStands(e, k) && r.es[k].now - r.es[e].now >= PLAY_DEBOUNCE {
      EdgeRemembered(r, e, k);
    }
  }

  // ---- yields and routes

  lemma {:induction false} RouteFollowsRelease(r: Run, k: nat)
    requires r.Valid() && k <= |r.es|
    ensures r.RouteBy(k) == Some(Yielded) <==> r.At(k).released
    ensures r.At(k).held ==> r.RouteBy(k) == Some(Yielded)
  {
    hide EdgeMoves, RepauseMoves, StreamMoves;
    if k > 0 {
      RouteFollowsRelease(r, k - 1);
      Took(r, k - 1);
      SoundAt(r, k);
    }
  }

  lemma {:induction false} ReleasedUntilTaken(r: Run, j: nat, k: nat)
    requires r.Valid() && j < k <= |r.es| && Yields(r.es[j].out) && r.SameLink(j, k)
    requires forall m :: j < m < k ==> !Takes(r.es[m].out)
    ensures r.At(k).released
  {
    hide EdgeMoves, RepauseMoves, StreamMoves;
    Took(r, k - 1);
    if j < k - 1 { ReleasedUntilTaken(r, j, k - 1); }
  }

  /** The audio is given up exactly on a request, and unless the user asks only while it is still held. */
  lemma YieldsIff(r: Run, k: nat)
    requires r.Valid() && k < |r.es|
    ensures Yields(r.es[k].out) <==> r.Asks(k) && (r.es[k].event.Yield? || r.RouteBy(k) != Some(Yielded))
  {
    hide EdgeMoves, RepauseMoves, StreamMoves, Requested;
    Took(r, k);
    RouteFollowsRelease(r, k);
  }

  /** On one link an automatic yield follows another yield only after a take-over. */
  lemma YieldsAlternate(r: Run, j: nat, k: nat)
    requires r.Valid() && j < k < |r.es| && r.SameLink(j, k)
    requires Yields(r.es[j].out) && Yields(r.es[k].out) && !r.es[k].event.Yield?
    ensures exists m :: j < m < k && Takes(r.es[m].out)
  {
    hide EdgeMoves, RepauseMoves, StreamMoves;
    Took(r, k);
    if !exists m :: j < m < k && Takes(r.es[m].out) {
      ReleasedUntilTaken(r, j, k);
    }
  }

  /** The card is switched before the ownership write it belongs to, in every output. */
  lemma OwnershipFollowsRoute(r: Run, k: nat)
    requires r.Valid() && k < |r.es|
    ensures RoutesFirst(r.es[k].out)
    ensures Yields(r.es[k].out) ==> r.RouteBy(k + 1) == Some(Yielded) && r.Asks(k)
    ensures Takes(r.es[k].out) ==> r.RouteBy(k + 1) == Some(Own)
  {
    hide EdgeMoves, RepauseMoves, StreamMoves, Requested, RoutesFirst;
    Took(r, k);
  }

  // ---- re-pauses

  lemma {:induction false} RepausedRemembered(r: Run, j: nat, k: nat, p: Player)
    requires r.Valid() && j < k <= |r.es| && RepausePlayer(p) in r.es[j].out
    requires forall m :: j < m < k ==> !r.Asks(m) && !Resets(r.es[m].event)
    ensures p in r.At(k).repaused
  {
    hide EdgeMoves, ReleaseMoves, StreamMoves, Requested;
    Took(r, k - 1);
    if j < k - 1 { RepausedRemembered(r, j, k - 1, p); }
  }

  /** The players a run remembers as paused again are those paused again since the last request or link change. */
  lemma {:induction false} RepausedHasSource(r: Run, k: nat, p: Player) returns (j: nat)
    requires r.Valid() && k <= |r.es| && p in r.At(k).repaused
    ensures j < k && RepausePlayer(p) in r.es[j].out
    ensures forall m :: j < m < k ==> !r.Asks(m) && !Resets(r.es[m].event)
  {
    hide EdgeMoves, ReleaseMoves, StreamMoves, Requested;
    Took(r, k - 1);
    if RepausePlayer(p) in r.es[k - 1].out {
      j := k - 1;
    } else {
      j := RepausedHasSource(r, k - 1, p);
      assert !r.Asks(k - 1);
    }
  }

  /** Between two requests on one link each player is paused again at most once. */
  lemma OneRepausePerRequest(r: Run, j: nat, k: nat, p: Player)
    requires r.Valid() && j < k < |r.es| && RepausePlayer(p) in r.es[j].out && RepausePlayer(p) in r.es[k].out
    ensures exists m :: j < m <= k && (r.Asks(m) || Resets(r.es[m].event))
  {
    hide EdgeMoves, ReleaseMoves, StreamMoves, Requested;
    Took(r, k);
    if forall m :: j < m < k ==> !r.Asks(m) && !Resets(r.es[m].event) {
      RepausedRemembered(r, j, k, p);
      assert r.Asks(k);
    }
  }

  /** A player that starts by itself is paused again exactly inside a hold window, and once per request. */
  lemma PlayRepausesIff(r: Run, k: nat)
    requires r.Valid() && k < |r.es| && r.es[k].event.Playback?
    ensures Repauses(r.es[k].out)
       <==> r.es[k].event.playing && r.PlayingBy(k) == Some(false) && InHoldWindow(r.At(k), r.es[k].now)
            && PlayerAfter(r.At(k), r.es[k].event) !in r.At(k).repaused
  {
    hide EdgeMoves, ReleaseMoves, StreamMoves;
    Took(r, k);
    ReadingsFollowEvents(r, k);
  }

  /** A player is paused again only while the audio is given up. */
  lemma RepausesOnlyWhileYielded(r: Run, k: nat)
    requires r.Valid() && k < |r.es| && Repauses(r.es[k].out)
    ensures r.RouteBy(k + 1) == Some(Yielded)
  {
    hide EdgeMoves, RepauseMoves, StreamMoves;
    Took(r, k);
    RouteFollowsRelease(r, k + 1);
  }

  // ---- announcements

  lemma {:induction false} StopHasSource(r: Run, k: nat) returns (e: nat)
    requires r.Valid() && k <= |r.es| && r.At(k).stoppedAt.Some? && r.At(k).playing == Some(false)
    ensures e < k && r.PlayingBy(e) == Some(true) && r.es[e].now == r.At(k).stoppedAt.value
    ensures forall m :: e < m <= k ==> r.PlayingBy(m) == Some(false)
  {
    hide EdgeMoves, ReleaseMoves, RepauseMoves;
    Took(r, k - 1);
    SoundAt(r, k - 1);
    ReadingsFollowEvents(r, k);
    ReadingsFollowEvents(r, k - 1);
    if r.At(k - 1).playing == Some(true) {
      e := k - 1;
    } else {
      e := StopHasSource(r, k - 1);
    }
  }

  lemma {:induction false} TakeOverRemembered(r: Run, m: nat, k: nat)
    requires r.Valid() && m < k <= |r.es| && Takes(r.es[m].out) && r.SameLink(m, k)
    ensures r.At(k).released || (r.At(k).tookOverAt.Some? && r.At(k).tookOverAt.value >= r.es[m].now)
  {
    hide EdgeMoves, RepauseMoves;
    Took(r, k - 1);
    if m < k - 1 { TakeOverRemembered(r, m, k - 1); }
  }

  /**
   `HostStreamingState NO` goes out on a tick, while this host owns the audio, 3 s or more into an
   unbroken stop of local playback and 8 s or more after every take-over on this link.
   */
  lemma StreamingNoIsJustified(r: Run, k: nat) returns (e: nat)
    requires r.Valid() && k < |r.es| && Says(r.es[k].out, false)
    ensures r.es[k].event.Tick? && r.At(k).enabled && r.At(k).linkUp && OwnsAudio(r.At(k))
    ensures r.RouteBy(k) != Some(Yielded)
    ensures e < k && r.PlayingBy(e) == Some(true) && forall m :: e < m <= k ==> r.PlayingBy(m) == Some(false)
    ensures r.es[k].now - r.es[e].now >= PLAYBACK_STOPPED
    ensures forall m :: 0 <= m < k && Takes(r.es[m].out) && r.SameLink(m, k) ==>
      r.es[k].now - r.es[m].now >= STREAM_GRACE
  {
    hide EdgeMoves, ReleaseMoves, RepauseMoves;
    Took(r, k);
    RouteFollowsRelease(r, k);
    e := StopHasSource(r, k);
    forall m | 0 <= m < k && Takes(r.es[m].out) && r.SameLink(m, k)
      ensures r.es[k].now - r.es[m].now >= STREAM_GRACE
    {
      TakeOverRemembered(r, m, k);
    }
  }

  lemma {:induction false} NoRemembered(r: Run, j: nat, k: nat)
    requires r.Valid() && j < k <= |r.es| && Says(r.es[j].out, false) && r.SameLink(j, k)
    requires forall m :: j < m < k ==> !r.YesRound(m)
    ensures r.At(k).announced == Some(false)
  {
    hide EdgeMoves, ReleaseMoves, RepauseMoves;
    Took(r, k - 1);
    if j < k - 1 {
      NoRemembered(r, j, k - 1);
      assert !r.YesRound(k - 1);
    }
  }

  /** On one link, between two rounds of NO, every other host listed at the time is told YES in one round. */
  lemma NoRoundsAlternate(r: Run, j: nat, k: nat)
    requires r.Valid() && j < k < |r.es| && r.SameLink(j, k)
    requires Says(r.es[j].out, false) && Says(r.es[k].out, false)
    ensures exists m :: j < m < k && r.YesRound(m)
  {
    hide EdgeMoves, ReleaseMoves, RepauseMoves;
    Took(r, k);
    if !exists m :: j < m < k && r.YesRound(m) {
      NoRemembered(r, j, k);
    }
  }
}
