/**
 What the ownership machine tells the other hosts and the players, read off the events and answers of a run alone: when
 YES and NO rounds go out and to whom, when a stream is reported missing, which player is paused again.
 */
module HandoffAnswers {
  import opened Prelude
  import opened Handoff
  import opened HandoffRuns
  import opened HandoffHistory
  import opened HandoffOutputs

  // ---- one step, read off the state

  predicate TakesNow(s: State, e: Event, now: Millis) {
    e.TakeOver? || (EdgeDue(s, e, now) && MayTakeOver(s))
  }

  /** A tick finds playback stopped for three seconds, with the grace of a take-over over. */
  predicate StopDue(s: State, e: Event, now: Millis) {
    e.Tick? && s.stoppedAt.Some? && s.playing == Some(false)
    && Since(now, s.stoppedAt.value) >= PLAYBACK_STOPPED && !InStreamGrace(s, now)
  }

  predicate NoNow(s: State, e: Event, now: Millis) {
    StopDue(s, e, now) && s.enabled && s.linkUp && OwnsAudio(s) && s.announced != Some(false)
  }

  /** The stream to the AirPods starts, over a link, to this host. */
  predicate StreamStarts(s: State, e: Event) {
    e.A2dpTransport? && e.active && s.transportActive != Some(true) && s.linkUp && OwnsAudio(s)
  }

  ghost predicate YesNow(s: State, e: Event, now: Millis) {
    (UserPlay(s, e, now) && s.enabled && s.linkUp && OwnsAudio(s) && s.transportActive == Some(true)
     && s.announced == Some(false))
    || (StreamStarts(s, e)
        && (s.reannounce || (s.enabled && s.playing == Some(true) && s.announced == Some(false))))
  }

  predicate CheckDue(s: State, e: Event, now: Millis) {
    e.Tick? && s.streamCheck.Some? && now >= s.streamCheck.value
  }

  predicate MissingNow(s: State, e: Event, now: Millis) {
    CheckDue(s, e, now) && s.linkUp && OwnsAudio(s) && s.transportActive == Some(false) && WantsStream(s, now)
  }

  ghost predicate RepausesNow(s: State, e: Event, now: Millis) {
    match e
    case Playback(playing, _, _) => playing && s.playing == Some(false) && !UserPlay(s, e, now)
    case SmartRouting(_, _) => Requested(s, e, now) && s.released && s.playing == Some(true)
    case AudioSource(a, source) =>
      source == Known(Media) && IsLocal(s, a) && s.held && !InOpening(s, now) && RecentRequest(s, now)
      && s.playEdge.None? && MayRepause(s)
    case _ => false
  }

  function PlayerThen(s: State, e: Event): Player {
    if e.Playback? then PlayerAfter(s, e) else s.playingPlayer
  }

  function AppThen(s: State, e: Event): string {
    if e.Playback? && e.app.Some? then e.app.value else App(s)
  }

  ghost predicate Speaks(s: State, e: Event, now: Millis, out: seq<Action>) {
    (Takes(out) <==> TakesNow(s, e, now))
    && (StreamNotStarted in out <==> MissingNow(s, e, now))
    && (forall p :: (RepausePlayer(p) in out <==> RepausesNow(s, e, now) && p == PlayerThen(s, e)))
    && (forall h: Address, app ::
          (SendMediaInfo(h, true, app) in out
           <==> h in Others(s) && app == AppThen(s, e) && (TakesNow(s, e, now) || YesNow(s, e, now))))
    && (forall h: Address, app ::
          (SendMediaInfo(h, false, app) in out <==> h in Others(s) && app == AppThen(s, e) && NoNow(s, e, now)))
  }

  ghost predicate Streams(s: State, e: Event, now: Millis, out: seq<Action>, t: State) {
    t.devices == (if Resets(e) then [] else if e.ConnectedDevices? then e.list else s.devices)
    && t.playingApp == (if e.Playback? && e.app.Some? then e.app else s.playingApp)
    && t.lastPlay == (if e.Playback? && (e.playing || s.playing == Some(true)) then Some(now) else s.lastPlay)
    && t.transportActive == (if e.A2dpTransport? then Some(e.active) else s.transportActive)
    && t.tookOverAt == (if TakesNow(s, e, now) then Some(now)
                        else if Yields(out) || Resets(e) then None else s.tookOverAt)
    && (t.playing == Some(false) ==>
          t.stoppedAt == if TakesNow(s, e, now) || Yields(out) || StopDue(s, e, now) then None
                         else if e.Playback? && s.playing == Some(true) then Some(now) else s.stoppedAt)
    && t.streamCheck == (if TakesNow(s, e, now) then
                           if s.transportActive.Some? then Some(now + STREAM_CHECK) else None
                         else if Yields(out) || Resets(e) || StreamStarts(s, e) || CheckDue(s, e, now) then None
                         else s.streamCheck)
    && t.reannounce == (if TakesNow(s, e, now) then s.transportActive == Some(false)
                        else s.reannounce && !Yields(out) && !Resets(e) && !StreamStarts(s, e))
    && t.announced == (if TakesNow(s, e, now) then Some(true) else if Resets(e) then None
                       else if NoNow(s, e, now) then Some(false) else if YesNow(s, e, now) then Some(true)
                       else s.announced)
  }

  // ---- shapes of an output

  lemma SilentSpeaks(s: State, e: Event, now: Millis, out: seq<Action>)
    requires !TakesNow(s, e, now) && !MissingNow(s, e, now) && !RepausesNow(s, e, now)
    requires !YesNow(s, e, now) && !NoNow(s, e, now)
    requires forall a :: a in out ==>
      !(a.Record? && a.kind == TookOver) && a != StreamNotStarted && !a.RepausePlayer? && !a.SendMediaInfo?
    ensures Speaks(s, e, now, out)
  {
    hide TakesNow, MissingNow, RepausesNow, YesNow, NoNow;
  }

  lemma RepauseSpeaks(s: State, e: Event, now: Millis)
    requires !TakesNow(s, e, now) && !MissingNow(s, e, now) && RepausesNow(s, e, now)
    requires !YesNow(s, e, now) && !NoNow(s, e, now)
    ensures Speaks(s, e, now, [RepausePlayer(PlayerThen(s, e))])
  {
    hide TakesNow, MissingNow, RepausesNow, YesNow, NoNow, Others, PlayerThen, AppThen;
  }

  /** A round to every other listed host, with the report of a missing stream in front or not. */
  lemma RoundSpeaks(s: State, e: Event, now: Millis, u: State, streaming: bool, pre: seq<Action>)
    requires !TakesNow(s, e, now) && !RepausesNow(s, e, now) && Others(u) == Others(s) && App(u) == AppThen(s, e)
    requires if streaming then YesNow(s, e, now) && !NoNow(s, e, now) else NoNow(s, e, now) && !YesNow(s, e, now)
    requires pre == if MissingNow(s, e, now) then [StreamNotStarted] else []
    ensures Speaks(s, e, now, pre + Announce(u, streaming).out)
  {
    hide TakesNow, MissingNow, RepausesNow, YesNow, NoNow, PlayerThen, AppThen, Others, App;
    var o := Announce(u, streaming).out;
    forall a: Action
      ensures a in o <==> a.SendMediaInfo? && a.target in Others(u) && a.streaming == streaming && a.app == App(u)
    {
      MediaInfosAre(Others(u), streaming, App(u), a);
    }
    assert forall a :: a in pre + o <==> a in pre || a in o;
  }

  lemma TakeSpeaks(s: State, e: Event, now: Millis, u: State, pre: seq<Action>)
    requires TakesNow(s, e, now) && !RepausesNow(s, e, now) && !YesNow(s, e, now) && !NoNow(s, e, now)
    requires Others(u) == Others(s) && App(u) == AppThen(s, e)
    requires pre == if MissingNow(s, e, now) then [StreamNotStarted] else []
    ensures Speaks(s, e, now, pre + TakeOverSteps(u, now).out)
  {
    hide TakesNow, MissingNow, RepausesNow, YesNow, NoNow, PlayerThen, AppThen, Others, App, TakeOverSteps, Speaks;
    hide TookOverRecord;
    assert TookOverRecord(u).Record? && TookOverRecord(u).kind == TookOver by { RecordIs(u); }
    var o := TakeOverSteps(u, now).out;
    forall a: Action
      ensures a in o <==> (a in {SetAudioRoute(Own), SendOwnership(true), ClaimAudio, TookOverRecord(u)}
                           || (a.SendMediaInfo? && a.target in Others(u) && a.streaming && a.app == App(u))
                           || (a.SendHijack? && a.target in Others(u)))
    {
      TakeOverActions(u, now, a);
    }
    assert forall a :: a in pre + o <==> a in pre || a in o;
    TakeLists(s, e, now, pre + o, TookOverRecord(u));
  }

  lemma RecordIs(u: State)
    ensures TookOverRecord(u).Record? && TookOverRecord(u).kind == TookOver
  {}

  lemma TakeLists(s: State, e: Event, now: Millis, out: seq<Action>, record: Action)
    requires TakesNow(s, e, now) && !RepausesNow(s, e, now) && !YesNow(s, e, now) && !NoNow(s, e, now)
    requires record.Record? && record.kind == TookOver
    requires forall a ::
      (a in out <==> (MissingNow(s, e, now) && a == StreamNotStarted)
                     || a in {SetAudioRoute(Own), SendOwnership(true), ClaimAudio, record}
                     || (a.SendMediaInfo? && a.target in Others(s) && a.streaming && a.app == AppThen(s, e))
                     || (a.SendHijack? && a.target in Others(s)))
    ensures Speaks(s, e, now, out)
  {
    hide TakesNow, MissingNow, RepausesNow, YesNow, NoNow, PlayerThen, AppThen, Others;
    assert record in out;
  }

  lemma YieldSpeaks(s: State, e: Event, now: Millis, u: State, announce: bool, kind: Kind, peer: Option<Address>)
    requires !TakesNow(s, e, now) && !MissingNow(s, e, now) && !RepausesNow(s, e, now)
    requires !YesNow(s, e, now) && !NoNow(s, e, now) && kind != TookOver
    ensures Speaks(s, e, now, YieldSteps(u, now, announce, kind, peer).out)
  {
    hide YieldSteps, TakesNow, MissingNow, RepausesNow, YesNow, NoNow;
    var o := YieldSteps(u, now, announce, kind, peer).out;
    forall a | a in o
      ensures !(a.Record? && a.kind == TookOver) && a != StreamNotStarted && !a.RepausePlayer? && !a.SendMediaInfo?
    {
      YieldActions(u, now, announce, kind, peer, a);
    }
    SilentSpeaks(s, e, now, o);
  }

  // ---- event by event

  ghost predicate Answers(s: State, e: Event, now: Millis, n: Next) {
    Speaks(s, e, now, n.out) && Streams(s, e, now, n.out, n.state)
  }

  /** An event that none of the answers here is for. */
  lemma Quietly(s: State, e: Event, now: Millis)
    requires !e.Tick? && !e.TakeOver?
    ensures !TakesNow(s, e, now) && !MissingNow(s, e, now) && !NoNow(s, e, now)
    ensures !e.Playback? && !e.A2dpTransport? ==> !YesNow(s, e, now)
    ensures !e.Playback? && !e.SmartRouting? && !e.AudioSource? ==> !RepausesNow(s, e, now)
    ensures !StopDue(s, e, now) && !CheckDue(s, e, now) && (!e.A2dpTransport? ==> !StreamStarts(s, e))
  {}

  /** A step that changes nothing kept here. */
  lemma SilentAnswers(s: State, e: Event, now: Millis, t: State)
    requires !e.Tick? && !e.TakeOver? && !e.Playback? && !e.A2dpTransport? && !Resets(e) && !RepausesNow(s, e, now)
    requires t.devices == if e.ConnectedDevices? then e.list else s.devices
    requires t.playingApp == s.playingApp && t.lastPlay == s.lastPlay && t.transportActive == s.transportActive
    requires t.tookOverAt == s.tookOverAt && t.stoppedAt == s.stoppedAt && t.streamCheck == s.streamCheck
    requires t.reannounce == s.reannounce && t.announced == s.announced
    ensures Answers(s, e, now, Next(t, []))
  {
    Quietly(s, e, now);
    SilentSpeaks(s, e, now, []);
    hide TakesNow, MissingNow, RepausesNow, YesNow, NoNow, StopDue, CheckDue, StreamStarts, Speaks;
  }

  lemma YieldAnswers(s: State, e: Event, now: Millis, u: State, announce: bool, kind: Kind, peer: Option<Address>)
    requires !e.Tick? && !e.TakeOver? && !e.Playback? && !e.A2dpTransport? && !e.ConnectedDevices? && !Resets(e)
    requires !RepausesNow(s, e, now) && kind != TookOver
    requires u == s.(audioSource := u.audioSource, owner := u.owner)
    ensures Answers(s, e, now, YieldSteps(u, now, announce, kind, peer))
  {
    Quietly(s, e, now);
    YieldSpeaks(s, e, now, u, announce, kind, peer);
    YieldOut(u, now, announce, kind, peer);
    hide TakesNow, MissingNow, RepausesNow, YesNow, NoNow, StopDue, CheckDue, StreamStarts, Speaks, YieldSteps;
  }

  lemma RepauseAnswers(s: State, e: Event, now: Millis, u: State)
    requires (e.SmartRouting? || e.AudioSource?) && RepausesNow(s, e, now) && u.playingPlayer == s.playingPlayer
    requires u.devices == s.devices && u.playingApp == s.playingApp && u.lastPlay == s.lastPlay
    requires u.transportActive == s.transportActive && u.tookOverAt == s.tookOverAt && u.stoppedAt == s.stoppedAt
    requires u.streamCheck == s.streamCheck && u.reannounce == s.reannounce && u.announced == s.announced
    ensures Answers(s, e, now, Repause(u, now))
  {
    Quietly(s, e, now);
    RepauseSpeaks(s, e, now);
    RepauseOut(u, now);
    hide TakesNow, MissingNow, RepausesNow, YesNow, NoNow, StopDue, CheckDue, StreamStarts, Speaks;
  }

  lemma SourceAnswers(s: State, e: Event, now: Millis)
    requires e.AudioSource?
    ensures Answers(s, e, now, OnAudioSource(s, e.address, e.source, now))
  {
    hide Answers, InOpening, RecentRequest, YieldSteps, Repause, MayRepause, RenewHold, NoteRequest;
    if e.source.Raw? {
      SilentAnswers(s, e, now, s);
    } else {
      var t := s.(audioSource := Some(Source(e.address, e.source.status)));
      var u := t.(owner := Elsewhere);
      if s.local.None? {
        SilentAnswers(s, e, now, t);
      } else if e.source.status == Idle || IsLocal(s, e.address) {
        QuietAnswers(s, e, now);
      } else {
        YieldAnswers(s, e, now, u, true, GaveUp, Some(e.address));
        SilentAnswers(s, e, now, u);
        RenewKeeps(u, now);
        SilentAnswers(s, e, now, RenewHold(NoteRequest(u, now), now));
      }
    }
  }

  lemma RenewKeeps(u: State, now: Millis)
    ensures RenewHold(NoteRequest(u, now), now)
      == u.(lastRequest := Some(now), repaused := [], held := true, holdFrom := Some(now), playEdge := None)
    ensures NoteRequest(u, now) == u.(lastRequest := Some(now), repaused := [])
  {}

  /** What a quiet source does: nothing, the end of the hold, or a re-pause. */
  lemma QuietCases(s: State, e: Event, now: Millis, t: State, u: State)
    requires e.AudioSource? && e.source.Known? && s.local.Some? && (e.source.status == Idle || IsLocal(s, e.address))
    requires t == s.(audioSource := Some(Source(e.address, e.source.status)))
    requires u ==
      if IsLocal(t, e.address) && e.source.status != Idle then t.(owner := Here, audioChanged := Some(now)) else t
    ensures var n := OnQuietSource(t, e.address, e.source.status, now);
      if RepausesNow(s, e, now) then n == Repause(u, now)
      else n == Next(u, []) || n == Next(u.(held := false), [])
  {
    assert InOpening(u, now) == InOpening(s, now) && RecentRequest(u, now) == RecentRequest(s, now);
    assert MayRepause(u) == MayRepause(s);
    hide Repause, InOpening, RecentRequest, MayRepause;
  }

  lemma QuietAnswers(s: State, e: Event, now: Millis)
    requires e.AudioSource? && e.source.Known? && s.local.Some? && (e.source.status == Idle || IsLocal(s, e.address))
    ensures var t := s.(audioSource := Some(Source(e.address, e.source.status)));
      Answers(s, e, now, OnQuietSource(t, e.address, e.source.status, now))
  {
    hide Answers, Repause, RepausesNow, OnQuietSource;
    var t := s.(audioSource := Some(Source(e.address, e.source.status)));
    var u :=
      if IsLocal(t, e.address) && e.source.status != Idle then t.(owner := Here, audioChanged := Some(now)) else t;
    QuietCases(s, e, now, t, u);
    if RepausesNow(s, e, now) {
      RepauseAnswers(s, e, now, u);
    } else {
      SilentAnswers(s, e, now, u);
      SilentAnswers(s, e, now, u.(held := false));
    }
  }

  lemma DisownedAnswers(s: State, opening: bool, now: Millis)
    ensures Answers(s, OwnsConnection(false, opening), now, OnDisowned(s, opening, now))
  {
    hide Answers, InOpening, YieldSteps, NoteRequest, ActiveOtherSource;
    var e, t := OwnsConnection(false, opening), s.(owner := Elsewhere);
    RenewKeeps(t, now);
    SilentAnswers(s, e, now, t);
    SilentAnswers(s, e, now, NoteRequest(t, now));
    YieldAnswers(s, e, now, t, false, GaveUp, ActiveOtherSource(t));
  }

  lemma RoutingAnswers(s: State, e: Event, now: Millis)
    requires e.SmartRouting?
    ensures Answers(s, e, now, OnSmartRouting(s, e.sender, e.requestsYield, now))
  {
    hide Answers, YieldSteps, NoteRequest, RenewHold, Repause;
    var t := s.(owner := Elsewhere);
    RenewKeeps(t, now);
    if RepausesNow(s, e, now) {
      RepauseAnswers(s, e, now, RenewHold(NoteRequest(t, now), now));
    } else {
      SilentAnswers(s, e, now, s);
      SilentAnswers(s, e, now, t);
      SilentAnswers(s, e, now, RenewHold(NoteRequest(t, now), now));
      YieldAnswers(s, e, now, t, true, GaveUpOnRequest, Some(e.sender));
    }
  }

  lemma SameOthersApp(s: State, e: Event, u: State)
    requires u.devices == s.devices && u.local == s.local
    requires u.playingApp == if e.Playback? && e.app.Some? then e.app else s.playingApp
    ensures Others(u) == Others(s) && App(u) == AppThen(s, e)
  {}

  lemma PlaybackAnswers(s: State, e: Event, now: Millis)
    requires e.Playback?
    ensures Answers(s, e, now, OnPlayback(s, e.playing, e.app, e.player, now))
  {
    var t := Reading(s, e.playing, e.app, e.player, now);
    Quietly(s, e, now);
    if s.playing == Some(false) && e.playing {
      StartAnswers(s, e, now, t);
      hide Answers, Reading;
    } else {
      assert !YesNow(s, e, now) && !RepausesNow(s, e, now);
      SilentSpeaks(s, e, now, []);
      hide TakesNow, MissingNow, RepausesNow, YesNow, NoNow, StopDue, CheckDue, StreamStarts, Speaks;
      assert s.playing.Some? ==> s.playing == Some(s.playing.value);
    }
    hide OnPlayStarted;
  }

  lemma StartAnswers(s: State, e: Event, now: Millis, t: State)
    requires e.Playback? && s.playing == Some(false) && e.playing && t == Reading(s, true, e.app, e.player, now)
    ensures Answers(s, e, now, OnPlayStarted(t, now))
  {
    Quietly(s, e, now);
    var u := t.(playEdge := Some(now), stoppedAt := None);
    assert InHoldWindow(t, now) == InHoldWindow(s, now) && t.playingPlayer == PlayerAfter(s, e);
    assert RepausesNow(s, e, now) <==> InHoldWindow(t, now) && MayRepause(t);
    SameOthersApp(s, e, u);
    hide Others, App, EdgeDue;
    if RepausesNow(s, e, now) {
      RepauseSpeaks(s, e, now);
      RepauseOut(t, now);
      assert !YesNow(s, e, now);
    } else if YesNow(s, e, now) {
      RoundSpeaks(s, e, now, u, true, []);
      AnnounceOut(u, true);
      assert [] + Announce(u, true).out == Announce(u, true).out;
    } else {
      SilentSpeaks(s, e, now, []);
    }
    assert RepausesNow(s, e, now) || UserPlay(s, e, now);
    assert UserPlay(s, e, now) ==> (YesNow(s, e, now) <==>
      u.enabled && u.linkUp && OwnsAudio(u) && u.transportActive == Some(true) && u.announced == Some(false));
    hide TakesNow, MissingNow, RepausesNow, YesNow, NoNow, StopDue, CheckDue, StreamStarts, Speaks, Announce;
    hide InHoldWindow, Repause, OwnsAudio, UserPlay, MayRepause;
  }

  lemma TransportAnswers(s: State, active: bool, now: Millis)
    ensures Answers(s, A2dpTransport(active), now, OnTransport(s, active))
  {
    var e := A2dpTransport(active);
    var u := s.(transportActive := Some(active), streamCheck := None);
    Quietly(s, e, now);
    SameOthersApp(s, e, u);
    SameOthersApp(s, e, u.(reannounce := false));
    if YesNow(s, e, now) {
      RoundSpeaks(s, e, now, u, true, []);
      RoundSpeaks(s, e, now, u.(reannounce := false), true, []);
      AnnounceOut(u, true);
      AnnounceOut(u.(reannounce := false), true);
      assert [] + Announce(u, true).out == Announce(u, true).out;
      assert [] + Announce(u.(reannounce := false), true).out == Announce(u.(reannounce := false), true).out;
    } else {
      SilentSpeaks(s, e, now, []);
    }
    hide TakesNow, MissingNow, RepausesNow, NoNow, StopDue, CheckDue, Speaks, Announce, OwnsAudio, UserPlay;
  }

  // ---- ticks

  lemma CheckTicks(s: State, now: Millis)
    ensures var a := StreamTick(s, now);
      a.state == s.(streamCheck := if CheckDue(s, Tick, now) then None else s.streamCheck)
      && a.out == if MissingNow(s, Tick, now) then [StreamNotStarted] else []
  {
    hide OwnsAudio, WantsStream;
  }

  lemma TickAnswers(s: State, now: Millis)
    requires Sound(s)
    ensures Answers(s, Tick, now, OnTick(s, now))
  {
    var a := StreamTick(s, now);
    var b := StopTick(a.state, now);
    var c := EdgeTick(b.state, now);
    CheckTicks(s, now);
    hide StreamTick, StopTick, EdgeTick, Answers;
    if s.playing == Some(true) {
      PlayingTick(s, now, a.state);
      assert OnTick(s, now) == Next(c.state, a.out + c.out);
    } else {
      StoppedTick(s, now, a.state);
      assert OnTick(s, now) == Next(b.state, a.out + b.out);
    }
  }

  lemma NoYield(pre: seq<Action>, o: seq<Action>)
    requires pre == [] || pre == [StreamNotStarted]
    ensures Yields(pre + o) <==> Yields(o)
    ensures !Yields([])
  {
    assert forall a :: a in pre + o <==> a in pre || a in o;
  }

  /** A tick while something plays: only the play can matter. */
  lemma PlayingCases(s: State, now: Millis, u: State)
    requires Sound(s) && s.playing == Some(true)
    requires u == s.(streamCheck := if CheckDue(s, Tick, now) then None else s.streamCheck)
    ensures var b := StopTick(u, now);
      var v := u.(stoppedAt := None, playEdge := None, held := false);
      b.out == [] && b.state == u.(stoppedAt := None)
      && (if TakesNow(s, Tick, now) then EdgeTick(b.state, now) == TakeOverSteps(v, now)
          else EdgeTick(b.state, now) == Next(b.state, []) || EdgeTick(b.state, now) == Next(v, []))
  {
    var b := u.(stoppedAt := None);
    var v := b.(playEdge := None, held := false);
    assert StopTick(u, now) == Next(b, []);
    assert MayTakeOver(v) == MayTakeOver(s) && EdgeDue(b, Tick, now) == EdgeDue(s, Tick, now);
    hide StopTick, TakeOverSteps, OtherInCall, OwnedElsewhere;
  }

  lemma PlayingTick(s: State, now: Millis, u: State)
    requires Sound(s) && s.playing == Some(true)
    requires u == s.(streamCheck := if CheckDue(s, Tick, now) then None else s.streamCheck)
    ensures var b := StopTick(u, now);
      var c := EdgeTick(b.state, now);
      var pre := if MissingNow(s, Tick, now) then [StreamNotStarted] else [];
      b.out == [] && Answers(s, Tick, now, Next(c.state, pre + c.out))
  {
    var pre := if MissingNow(s, Tick, now) then [StreamNotStarted] else [];
    var v := u.(stoppedAt := None, playEdge := None, held := false);
    PlayingCases(s, now, u);
    assert !NoNow(s, Tick, now) && !YesNow(s, Tick, now) && !RepausesNow(s, Tick, now) && !StopDue(s, Tick, now);
    assert !StreamStarts(s, Tick);
    hide StopTick, EdgeTick, MissingNow, RepausesNow, NoNow, StopDue, CheckDue, Speaks, YesNow, TakeOverSteps;
    hide StreamStarts, TakesNow, Others, Yields;
    NoYield(pre, []);
    NoYield(pre, TakeOverSteps(v, now).out);
    if TakesNow(s, Tick, now) {
      SameOthersApp(s, Tick, v);
      TakeSpeaks(s, Tick, now, v, pre);
      TakeOut(v, now);
      TakeFields(v, now);
    } else {
      NothingSpeaks(s, now, pre);
    }
  }

  lemma NothingSpeaks(s: State, now: Millis, pre: seq<Action>)
    requires pre == if MissingNow(s, Tick, now) then [StreamNotStarted] else []
    requires !TakesNow(s, Tick, now) && !NoNow(s, Tick, now)
    ensures Speaks(s, Tick, now, pre + [])
  {
    assert pre + [] == pre;
    hide MissingNow, NoNow, TakesNow;
  }

  lemma TakeFields(v: State, now: Millis)
    ensures var t := TakeOverSteps(v, now).state;
      t.streamCheck == (if v.transportActive.Some? then Some(now + STREAM_CHECK) else None)
      && t.reannounce == (v.transportActive == Some(false)) && t.tookOverAt == Some(now) && t.announced == Some(true)
      && t.devices == v.devices && t.playingApp == v.playingApp && t.lastPlay == v.lastPlay
      && t.transportActive == v.transportActive && t.stoppedAt.None? && t.playing == v.playing
  {}

  /** A tick while nothing plays: only the stop can matter. */
  lemma StoppedCases(s: State, now: Millis, u: State)
    requires Sound(s) && s.playing != Some(true)
    requires u == s.(streamCheck := if CheckDue(s, Tick, now) then None else s.streamCheck)
    ensures var b := StopTick(u, now);
      EdgeTick(b.state, now) == Next(b.state, [])
      && (if NoNow(s, Tick, now) then b == Announce(u.(stoppedAt := None), false)
          else if StopDue(s, Tick, now) then b == Next(u.(stoppedAt := None), [])
          else b.out == [] && b.state == u.(stoppedAt := b.state.stoppedAt)
               && (s.playing == Some(false) ==> b.state == u))
  {
    assert InStreamGrace(u, now) == InStreamGrace(s, now) && OwnsAudio(u.(stoppedAt := None)) == OwnsAudio(s);
    AnnounceOut(u.(stoppedAt := None), false);
    hide Announce, InStreamGrace, OwnsAudio;
  }

  lemma StoppedTick(s: State, now: Millis, u: State)
    requires Sound(s) && s.playing != Some(true)
    requires u == s.(streamCheck := if CheckDue(s, Tick, now) then None else s.streamCheck)
    ensures var b := StopTick(u, now);
      var c := EdgeTick(b.state, now);
      var pre := if MissingNow(s, Tick, now) then [StreamNotStarted] else [];
      c == Next(b.state, []) && Answers(s, Tick, now, Next(b.state, pre + b.out))
  {
    var pre := if MissingNow(s, Tick, now) then [StreamNotStarted] else [];
    var v := u.(stoppedAt := None);
    StoppedCases(s, now, u);
    assert !TakesNow(s, Tick, now) && !YesNow(s, Tick, now) && !RepausesNow(s, Tick, now) && !StreamStarts(s, Tick);
    assert NoNow(s, Tick, now) ==> StopDue(s, Tick, now);
    SameOthersApp(s, Tick, v);
    hide Announce, MissingNow, RepausesNow, CheckDue, Speaks, YesNow, StreamStarts, NoNow, StopDue, TakesNow;
    hide StopTick, EdgeTick, Others, Yields;
    NoYield(pre, []);
    if NoNow(s, Tick, now) {
      RoundSpeaks(s, Tick, now, v, false, pre);
      StoppedRound(s, now, v, pre);
      hide Streams;
    } else {
      NothingSpeaks(s, now, pre);
    }
  }

  lemma StoppedRound(s: State, now: Millis, v: State, pre: seq<Action>)
    requires NoNow(s, Tick, now) && v == s.(stoppedAt := None, streamCheck := v.streamCheck)
    requires v.streamCheck == if CheckDue(s, Tick, now) then None else s.streamCheck
    requires pre == [] || pre == [StreamNotStarted]
    ensures Streams(s, Tick, now, pre + Announce(v, false).out, Announce(v, false).state)
  {
    AnnounceOut(v, false);
    NoYield(pre, Announce(v, false).out);
    assert !TakesNow(s, Tick, now) && !StreamStarts(s, Tick);
    hide Announce, Yields, TakesNow, StreamStarts, CheckDue, OwnsAudio, InStreamGrace;
  }

  // ---- every step

  lemma TakeOverAnswers(s: State, now: Millis)
    ensures Answers(s, TakeOver, now, TakeOverSteps(s, now))
  {
    SameOthersApp(s, TakeOver, s);
    TakeSpeaks(s, TakeOver, now, s, []);
    TakeFields(s, now);
    TakeOut(s, now);
    assert [] + TakeOverSteps(s, now).out == TakeOverSteps(s, now).out;
    hide TakeOverSteps, Speaks;
  }

  lemma ResetAnswers(s: State, e: Event, now: Millis)
    requires Resets(e)
    ensures Answers(s, e, now, Step(s, e, now))
  {
    Quietly(s, e, now);
    SilentSpeaks(s, e, now, []);
    hide TakesNow, MissingNow, RepausesNow, YesNow, NoNow, StopDue, CheckDue, StreamStarts, Speaks;
  }

  lemma DevicesAnswers(s: State, list: seq<Address>, now: Millis)
    ensures Answers(s, ConnectedDevices(list), now, OnDevices(s, list, now))
  {
    var e, n := ConnectedDevices(list), OnDevices(s, list, now);
    Quietly(s, e, now);
    SilentSpeaks(s, e, now, n.out);
    hide TakesNow, MissingNow, RepausesNow, YesNow, NoNow, StopDue, CheckDue, StreamStarts, Speaks, Joined, InOpening;
  }

  lemma StepAnswers(s: State, e: Event, now: Millis)
    requires Sound(s)
    ensures Answers(s, e, now, Step(s, e, now))
  {
    hide Answers, OnTick, OnPlayback, OnAudioSource, OnDisowned, OnSmartRouting, OnTransport, OnDevices;
    hide TakeOverSteps, YieldSteps;
    match e
    case Tick => TickAnswers(s, now);
    case Playback(_, _, _) => PlaybackAnswers(s, e, now);
    case AudioSource(_, _) => SourceAnswers(s, e, now);
    case OwnsConnection(owns, opening) =>
      if owns {
        SilentAnswers(s, e, now, s.(owner := Here));
      } else {
        DisownedAnswers(s, opening, now);
      }
    case SmartRouting(_, _) => RoutingAnswers(s, e, now);
    case A2dpTransport(active) => TransportAnswers(s, active, now);
    case ConnectedDevices(list) => DevicesAnswers(s, list, now);
    case TakeOver => TakeOverAnswers(s, now);
    case Yield => YieldAnswers(s, e, now, s, true, GaveUp, None);
    case LinkOpened => ResetAnswers(s, e, now);
    case LinkClosed => ResetAnswers(s, e, now);
    case _ => SilentAnswers(s, e, now, Step(s, e, now).state);
  }

  // ---- the history

  /** The hosts listed last on this link. */
  function DevicesBy(r: Run, k: nat): seq<Address>
    requires k <= |r.es|
  {
    if k == 0 || Resets(r.es[k - 1].event) then []
    else if r.es[k - 1].event.ConnectedDevices? then r.es[k - 1].event.list
    else DevicesBy(r, k - 1)
  }

  /** The other hosts listed last on this link. */
  function OthersBy(r: Run, k: nat): seq<Address>
    requires k <= |r.es|
  {
    Foreign(LocalBy(r, k), DevicesBy(r, k))
  }

  /** The application last named by a reading. */
  function AppBy(r: Run, k: nat): Option<string>
    requires k <= |r.es|
  {
    if k == 0 then None
    else if r.es[k - 1].event.Playback? && r.es[k - 1].event.app.Some? then r.es[k - 1].event.app
    else AppBy(r, k - 1)
  }

  /** When something was last heard playing or stopping. */
  function LastPlayBy(r: Run, k: nat): Option<Millis>
    requires k <= |r.es|
  {
    if k == 0 then None
    else if r.es[k - 1].event.Playback? && (r.es[k - 1].event.playing || r.PlayingBy(k - 1) == Some(true))
    then Some(r.es[k - 1].now)
    else LastPlayBy(r, k - 1)
  }

  /** Whether the audio stream to the AirPods was last seen running. */
  function StreamBy(r: Run, k: nat): Option<bool>
    requires k <= |r.es|
  {
    if k == 0 then None
    else if r.es[k - 1].event.A2dpTransport? then Some(r.es[k - 1].event.active)
    else StreamBy(r, k - 1)
  }

  ghost predicate OwnsBy(r: Run, k: nat)
    requires k <= |r.es|
  {
    OpenedBy(r, k).Some? && OwnerBy(r, k) == Here && r.RouteBy(k) != Some(Yielded)
  }

  /** The stream starts, over a link, to this host. */
  ghost predicate StartsBy(r: Run, k: nat)
    requires k < |r.es|
  {
    r.es[k].event == A2dpTransport(true) && StreamBy(r, k) != Some(true) && OwnsBy(r, k)
  }

  /** A take-over of event `m` that neither another one, a yield nor a new link has replaced before event `k`. */
  ghost predicate TakeStands(r: Run, m: nat, k: nat)
    requires m < k <= |r.es|
  {
    Takes(r.es[m].out)
    && forall j :: m < j < k ==> !Takes(r.es[j].out) && !Yields(r.es[j].out) && !Resets(r.es[j].event)
  }

  /** The take-over in force is less than eight seconds old. */
  ghost predicate GraceBy(r: Run, k: nat, now: Millis)
    requires k <= |r.es|
  {
    exists m :: 0 <= m < k && TakeStands(r, m, k) && Since(now, r.es[m].now) < STREAM_GRACE
  }

  /** The stream has not started since the take-over in force, before which it was known not to run. */
  ghost predicate AnewBy(r: Run, k: nat)
    requires k <= |r.es|
  {
    exists m :: 0 <= m < k && TakeStands(r, m, k) && StreamBy(r, m) == Some(false)
                && forall j :: m < j < k ==> !StartsBy(r, j)
  }

  /** The take-over of event `m` is still waiting for its stream, and no tick of three seconds later has looked. */
  ghost predicate AwaitsStream(r: Run, m: nat, k: nat)
    requires m < k <= |r.es|
  {
    TakeStands(r, m, k) && StreamBy(r, m).Some?
    && forall j :: m < j < k ==>
      !StartsBy(r, j) && !(r.es[j].event.Tick? && r.es[j].now >= r.es[m].now + STREAM_CHECK)
  }

  /** Playback stopped at `e`; nothing played, took over or yielded since, and no tick found it three seconds old. */
  ghost predicate StopStands(r: Run, e: nat, k: nat)
    requires e < k <= |r.es|
  {
    r.es[e].event.Playback? && !r.es[e].event.playing && r.PlayingBy(e) == Some(true)
    && (forall m :: e < m <= k ==> r.PlayingBy(m) == Some(false))
    && forall m :: e < m < k ==>
      !Takes(r.es[m].out) && !Yields(r.es[m].out) && !StopLasted(r, e, m)
  }

  ghost predicate StopLasted(r: Run, e: nat, m: nat)
    requires e < m < |r.es|
  {
    r.es[m].event.Tick? && r.es[m].now - r.es[e].now >= PLAYBACK_STOPPED && !GraceBy(r, m, r.es[m].now)
  }

  /** The tick at `k` is the first to find a stop three seconds old, out of the grace. */
  ghost predicate StopDueBy(r: Run, k: nat)
    requires k < |r.es|
  {
    exists e :: 0 <= e < k && StopStands(r, e, k) && StopLasted(r, e, k)
  }

  /** What the other hosts were last told on this link. */
  ghost function AnnouncedBy(r: Run, k: nat): Option<bool>
    requires k <= |r.es|
    decreases k, 0
  {
    if k == 0 || Resets(r.es[k - 1].event) then None
    else if Takes(r.es[k - 1].out) then Some(true)
    else if SaysNoBy(r, k - 1) then Some(false)
    else if SaysYesBy(r, k - 1) then Some(true)
    else AnnouncedBy(r, k - 1)
  }

  /** Event `k` is the time to tell the other hosts NO. */
  ghost predicate SaysNoBy(r: Run, k: nat)
    requires k < |r.es|
    decreases k, 1
  {
    StopDueBy(r, k) && EnabledBy(r, k) && OwnsBy(r, k) && AnnouncedBy(r, k) != Some(false)
  }

  /** Event `k` is the time to tell them YES again: a play or a stream that starts after a NO, or after a take-over. */
  ghost predicate SaysYesBy(r: Run, k: nat)
    requires k < |r.es|
    decreases k, 1
  {
    (UserPlays(r, k) && EnabledBy(r, k) && OwnsBy(r, k) && StreamBy(r, k) == Some(true)
     && AnnouncedBy(r, k) == Some(false))
    || (StartsBy(r, k)
        && (AnewBy(r, k)
            || (EnabledBy(r, k) && r.PlayingBy(k) == Some(true) && AnnouncedBy(r, k) == Some(false))))
  }

  /** Event `k` is the time to take over: on command, or for a play of the user's that has lasted. */
  ghost predicate TakesBy(r: Run, k: nat)
    requires k < |r.es|
  {
    r.es[k].event.TakeOver? || (PlayLasted(r, k) && TakeOverAllowed(r, k))
  }

  /** The tick at `k` finds the stream of a take-over missing, with something to stream. */
  ghost predicate MissesBy(r: Run, k: nat)
    requires k < |r.es|
  {
    r.es[k].event.Tick? && OwnsBy(r, k) && StreamBy(r, k) == Some(false)
    && (exists m :: 0 <= m < k && AwaitsStream(r, m, k) && r.es[k].now >= r.es[m].now + STREAM_CHECK)
    && (r.PlayingBy(k) == Some(true) || EdgeBy(r, k) || Within(r.es[k].now, LastPlayBy(r, k), PLAYBACK_STOPPED))
  }

  /** A play of the user's is waiting to last. */
  ghost predicate EdgeBy(r: Run, k: nat)
    requires k <= |r.es|
  {
    exists e :: 0 <= e < k && Stands(r, e, k)
  }

  /** A hold stands. */
  ghost predicate HeldBy(r: Run, k: nat)
    requires k <= |r.es|
  {
    exists j :: 0 <= j < k && HoldStands(r, j, k)
  }

  /** Event `k` is the time to pause a player again. */
  ghost predicate RepausesBy(r: Run, k: nat)
    requires k < |r.es|
  {
    match r.es[k].event
    case Playback(playing, _, _) => playing && r.PlayingBy(k) == Some(false) && !UserPlays(r, k)
    case SmartRouting(_, _) => AsksBy(r, k) && r.RouteBy(k) == Some(Yielded) && r.PlayingBy(k) == Some(true)
    case AudioSource(a, source) =>
      source == Known(Media) && LocalBy(r, k) == Some(a) && HeldBy(r, k)
      && !OpeningBy(r, k, r.es[k].now) && RecentBy(r, k, r.es[k].now) && !EdgeBy(r, k)
      && !RepausedBy(r, k, PlayerBy(r, k))
    case _ => false
  }

  // ---- the machine follows the history

  /** The step behind event `k`. */
  lemma Answered(r: Run, k: nat)
    requires r.Valid() && k < |r.es|
    ensures Speaks(r.At(k), r.es[k].event, r.es[k].now, r.es[k].out)
    ensures Streams(r.At(k), r.es[k].event, r.es[k].now, r.es[k].out, r.At(k + 1))
  {
    hide Step, Speaks, Streams;
    SoundAt(r, k);
    assert r.Linked(k);
    StepAnswers(r.At(k), r.es[k].event, r.es[k].now);
  }

  /** The readings and lists kept are what the latest events said. */
  lemma {:induction false} ListsFollow(r: Run, k: nat)
    requires r.Valid() && k <= |r.es|
    ensures r.At(k).devices == DevicesBy(r, k) && r.At(k).playingApp == AppBy(r, k)
    ensures r.At(k).lastPlay == LastPlayBy(r, k) && r.At(k).transportActive == StreamBy(r, k)
  {
    if k > 0 {
      ListsFollow(r, k - 1);
      Answered(r, k - 1);
      ReadingsFollowEvents(r, k - 1);
      hide Speaks, TakesNow, NoNow, YesNow, StreamStarts, CheckDue, StopDue;
    }
  }

  lemma OwnsIff(r: Run, k: nat)
    requires r.Valid() && k <= |r.es|
    ensures r.At(k).linkUp && OwnsAudio(r.At(k)) <==> OwnsBy(r, k)
  {
    hide Run.Valid, OwnerBy, OpenedBy, Run.RouteBy;
    OwnerFollowsEvents(r, k);
    RouteFollowsRelease(r, k);
  }

  lemma StartsIff(r: Run, k: nat)
    requires r.Valid() && k < |r.es|
    ensures StreamStarts(r.At(k), r.es[k].event) <==> StartsBy(r, k)
  {
    hide Run.Valid, OwnsBy, OwnsAudio, StreamBy;
    ListsFollow(r, k);
    OwnsIff(r, k);
  }

  lemma TakesIff(r: Run, k: nat)
    requires r.Valid() && k < |r.es|
    ensures Takes(r.es[k].out) <==> TakesBy(r, k)
    ensures TakesNow(r.At(k), r.es[k].event, r.es[k].now) <==> Takes(r.es[k].out)
  {
    hide Run.Valid, PlayLasted, EdgeDue, MayTakeOver, TakeOverAllowed, Takes, Streams;
    Answered(r, k);
    PlayLastedIff(r, k);
    AllowedIff(r, k);
  }

  ghost predicate Replaced(r: Run, k: nat)
    requires k < |r.es|
  {
    Takes(r.es[k].out) || Yields(r.es[k].out) || Resets(r.es[k].event)
  }

  /** The take-over in force. */
  ghost predicate GraceTold(r: Run, k: nat)
    requires k <= |r.es|
  {
    var s := r.At(k);
    (s.tookOverAt.Some? ==> exists m :: 0 <= m < k && TakeStands(r, m, k) && s.tookOverAt == Some(r.es[m].now))
    && (forall m :: 0 <= m < k && TakeStands(r, m, k) ==> s.tookOverAt == Some(r.es[m].now))
  }

  /** Whether it still has to be repeated when the stream starts. */
  ghost predicate AnewTold(r: Run, k: nat)
    requires k <= |r.es|
  {
    r.At(k).reannounce <==> AnewBy(r, k)
  }

  /** When its stream is looked for. */
  ghost predicate CheckTold(r: Run, k: nat)
    requires k <= |r.es|
  {
    var s := r.At(k);
    (s.streamCheck.Some? ==>
       exists m :: 0 <= m < k && AwaitsStream(r, m, k) && s.streamCheck == Some(r.es[m].now + STREAM_CHECK))
    && (forall m :: 0 <= m < k && AwaitsStream(r, m, k) ==> s.streamCheck == Some(r.es[m].now + STREAM_CHECK))
  }

  lemma TakeStandsStep(r: Run, m: nat, k: nat)
    requires m <= k < |r.es|
    ensures TakeStands(r, m, k + 1) <==> if m == k then Takes(r.es[k].out) else TakeStands(r, m, k) && !Replaced(r, k)
  {
    hide Takes, Yields;
  }

  lemma GraceStep(r: Run, k: nat)
    requires r.Valid() && k < |r.es| && GraceTold(r, k)
    ensures GraceTold(r, k + 1)
  {
    Answered(r, k);
    TakesIff(r, k);
    var n := k + 1;
    forall m | 0 <= m < n
      ensures TakeStands(r, m, n) <==> if m == k then Takes(r.es[k].out) else TakeStands(r, m, k) && !Replaced(r, k)
    {
      TakeStandsStep(r, m, k);
    }
    hide Speaks, Takes, Yields, TakesNow, NoNow, YesNow, StreamStarts, StopDue, CheckDue, Run.Valid, TakeStands;
  }

  lemma AnewHolds(r: Run, k: nat) returns (m: nat)
    requires k <= |r.es| && AnewBy(r, k)
    ensures m < k && TakeStands(r, m, k) && StreamBy(r, m) == Some(false) && forall j :: m < j < k ==> !StartsBy(r, j)
  {
    m :| m < k && TakeStands(r, m, k) && StreamBy(r, m) == Some(false) && forall j :: m < j < k ==> !StartsBy(r, j);
  }

  lemma AnewIs(r: Run, m: nat, k: nat)
    requires m < k <= |r.es| && TakeStands(r, m, k) && StreamBy(r, m) == Some(false)
    requires forall j :: m < j < k ==> !StartsBy(r, j)
    ensures AnewBy(r, k)
  {}

  lemma AnewMoves(r: Run, k: nat)
    requires r.Valid() && k < |r.es|
    ensures r.At(k + 1).reannounce
       <==> if Takes(r.es[k].out) then StreamBy(r, k) == Some(false)
            else r.At(k).reannounce && !Replaced(r, k) && !StartsBy(r, k)
  {
    Answered(r, k);
    TakesIff(r, k);
    StartsIff(r, k);
    ListsFollow(r, k);
    hide Speaks, Takes, Yields, TakesNow, NoNow, YesNow, StreamStarts, StartsBy, StopDue, CheckDue, Run.Valid, StreamBy;
  }

  lemma AnewStep(r: Run, k: nat)
    requires r.Valid() && k < |r.es| && AnewTold(r, k)
    ensures AnewTold(r, k + 1)
  {
    AnewMoves(r, k);
    hide Takes, StartsBy, Run.Valid, StreamBy, TakeStands, AnewBy;
    if AnewBy(r, k + 1) {
      var m := AnewHolds(r, k + 1);
      TakeStandsStep(r, m, k);
      if m < k { AnewIs(r, m, k); }
    }
    if Takes(r.es[k].out) {
      TakeStandsStep(r, k, k);
      if StreamBy(r, k) == Some(false) { AnewIs(r, k, k + 1); }
    } else if AnewBy(r, k) && !Replaced(r, k) && !StartsBy(r, k) {
      var m := AnewHolds(r, k);
      TakeStandsStep(r, m, k);
      AnewIs(r, m, k + 1);
    }
  }

  lemma AwaitsStep(r: Run, m: nat, k: nat)
    requires m <= k < |r.es|
    ensures AwaitsStream(r, m, k + 1)
       <==> if m == k then Takes(r.es[k].out) && StreamBy(r, k).Some?
            else AwaitsStream(r, m, k) && !Replaced(r, k) && !StartsBy(r, k)
                 && !(r.es[k].event.Tick? && r.es[k].now >= r.es[m].now + STREAM_CHECK)
  {
    TakeStandsStep(r, m, k);
    hide TakeStands, StartsBy, StreamBy, Takes, Yields, Replaced;
  }

  lemma CheckStep(r: Run, k: nat)
    requires r.Valid() && k < |r.es| && CheckTold(r, k)
    ensures CheckTold(r, k + 1)
  {
    Answered(r, k);
    TakesIff(r, k);
    StartsIff(r, k);
    ListsFollow(r, k);
    var n := k + 1;
    forall m | 0 <= m < n
      ensures AwaitsStream(r, m, n)
         <==> if m == k then Takes(r.es[k].out) && StreamBy(r, k).Some?
              else AwaitsStream(r, m, k) && !Replaced(r, k) && !StartsBy(r, k)
                   && !(r.es[k].event.Tick? && r.es[k].now >= r.es[m].now + STREAM_CHECK)
    {
      AwaitsStep(r, m, k);
    }
    hide Speaks, Takes, Yields, TakesNow, NoNow, YesNow, StreamStarts, StartsBy, StopDue, Run.Valid, StreamBy;
    hide AwaitsStream;
  }

  /** The take-over in force, and what it still waits for, are those of the history. */
  lemma {:induction false} TakeOverFollows(r: Run, k: nat)
    requires r.Valid() && k <= |r.es|
    ensures GraceTold(r, k) && AnewTold(r, k) && CheckTold(r, k)
  {
    if k == 0 {
      NothingYet(r);
    } else {
      hide GraceTold, AnewTold, CheckTold;
      TakeOverFollows(r, k - 1);
      GraceStep(r, k - 1);
      AnewStep(r, k - 1);
      CheckStep(r, k - 1);
    }
  }

  lemma NothingYet(r: Run)
    requires r.Valid()
    ensures GraceTold(r, 0) && AnewTold(r, 0) && CheckTold(r, 0) && r.At(0).announced.None?
  {}

  lemma GraceIff(r: Run, k: nat, now: Millis)
    requires r.Valid() && k <= |r.es|
    ensures InStreamGrace(r.At(k), now) <==> GraceBy(r, k, now)
  {
    TakeOverFollows(r, k);
    hide TakeStands, Run.Valid, AnewTold, CheckTold;
  }

  // ---- stops

  /** A stop that stands is remembered with its time. */
  lemma {:induction false} StopRemembered(r: Run, e: nat, k: nat)
    requires r.Valid() && e < k <= |r.es| && StopStands(r, e, k)
    ensures r.At(k).stoppedAt == Some(r.es[e].now) && r.At(k).playing == Some(false)
  {
    hide Speaks, Takes, Yields, TakesNow, NoNow, YesNow, StreamStarts, CheckDue, Run.Valid;
    ReadingsFollowEvents(r, k);
    ReadingsFollowEvents(r, k - 1);
    Answered(r, k - 1);
    TakesIff(r, k - 1);
    if e < k - 1 {
      StopStandsBefore(r, e, k);
      StopRemembered(r, e, k - 1);
      GraceIff(r, k - 1, r.es[k - 1].now);
      ClockRuns(r, e, k - 1);
      hide StopStands, GraceBy, InStreamGrace, Run.PlayingBy;
    } else {
      StopIsNoTake(r, e);
    }
  }

  lemma StopStandsBefore(r: Run, e: nat, k: nat)
    requires e + 1 < k <= |r.es| && StopStands(r, e, k)
    ensures StopStands(r, e, k - 1) && !Takes(r.es[k - 1].out) && !Yields(r.es[k - 1].out) && !StopLasted(r, e, k - 1)
    ensures r.PlayingBy(k - 1) == Some(false) && r.PlayingBy(k) == Some(false)
  {
    hide Takes, Yields, StopLasted, Run.PlayingBy;
  }

  lemma ClockRuns(r: Run, e: nat, k: nat)
    requires r.Valid() && e <= k < |r.es|
    ensures r.es[e].now <= r.es[k].now
  {}

  /** A reading neither takes over nor yields. */
  lemma StopIsNoTake(r: Run, e: nat)
    requires r.Valid() && e < |r.es| && r.es[e].event.Playback?
    ensures !Takes(r.es[e].out) && !Yields(r.es[e].out)
  {
    hide EdgeMoves, RepauseMoves, StreamMoves;
    Took(r, e);
    TakesIff(r, e);
  }

  /** A stop that is remembered stands. */
  lemma {:induction false} StopIsStanding(r: Run, k: nat) returns (e: nat)
    requires r.Valid() && k <= |r.es| && r.At(k).stoppedAt.Some? && r.At(k).playing == Some(false)
    ensures e < k && StopStands(r, e, k) && r.es[e].now == r.At(k).stoppedAt.value
  {
    hide Speaks, Takes, Yields, TakesNow, NoNow, YesNow, StreamStarts, CheckDue, Run.Valid;
    assert k > 0 by { NoStopYet(r); }
    ReadingsFollowEvents(r, k);
    ReadingsFollowEvents(r, k - 1);
    SoundAt(r, k - 1);
    Answered(r, k - 1);
    TakesIff(r, k - 1);
    if r.es[k - 1].event.Playback? && r.At(k - 1).playing == Some(true) {
      e := k - 1;
    } else {
      PlayingStays(r, k);
      e := StopIsStanding(r, k - 1);
      GraceIff(r, k - 1, r.es[k - 1].now);
      ClockRuns(r, e, k - 1);
      StopStandsOn(r, e, k - 1);
      hide StopStands, GraceBy, InStreamGrace, Run.PlayingBy;
    }
  }

  lemma NoStopYet(r: Run)
    requires r.Valid()
    ensures r.At(0).stoppedAt.None?
  {}

  /** Playback that has stopped before an event and after it had stopped all along, or just did. */
  lemma PlayingStays(r: Run, k: nat)
    requires r.Valid() && 0 < k <= |r.es| && r.At(k).playing == Some(false) && r.At(k).stoppedAt.Some?
    requires !(r.es[k - 1].event.Playback? && r.At(k - 1).playing == Some(true))
    ensures r.At(k - 1).playing == Some(false) && r.At(k - 1).stoppedAt == r.At(k).stoppedAt
  {
    hide EdgeMoves, ReleaseMoves, RepauseMoves;
    Took(r, k - 1);
    ReadingsFollowEvents(r, k);
    ReadingsFollowEvents(r, k - 1);
  }

  lemma StopStandsOn(r: Run, e: nat, k: nat)
    requires e < k < |r.es| && StopStands(r, e, k) && r.PlayingBy(k + 1) == Some(false)
    requires !Takes(r.es[k].out) && !Yields(r.es[k].out) && !StopLasted(r, e, k)
    ensures StopStands(r, e, k + 1)
  {
    hide Takes, Yields, StopLasted, Run.PlayingBy;
  }

  /** A tick finds a stop due exactly when the history does. */
  lemma StopDueIff(r: Run, k: nat)
    requires r.Valid() && k < |r.es|
    ensures StopDue(r.At(k), r.es[k].event, r.es[k].now) <==> StopDueBy(r, k)
  {
    hide Run.Valid, StopStands, GraceBy, InStreamGrace;
    GraceIff(r, k, r.es[k].now);
    if StopDue(r.At(k), r.es[k].event, r.es[k].now) {
      var e := StopIsStanding(r, k);
      ClockRuns(r, e, k);
      assert StopLasted(r, e, k);
    }
    if StopDueBy(r, k) {
      var e: nat :| e < k && StopStands(r, e, k) && StopLasted(r, e, k);
      StopRemembered(r, e, k);
      ClockRuns(r, e, k);
    }
  }

  // ---- every answer, told by the history

  lemma NoIff(r: Run, k: nat)
    requires r.Valid() && k < |r.es| && r.At(k).announced == AnnouncedBy(r, k)
    ensures NoNow(r.At(k), r.es[k].event, r.es[k].now) <==> SaysNoBy(r, k)
  {
    hide Run.Valid, StopDue, StopDueBy, OwnsBy, OwnsAudio, EnabledBy, AnnouncedBy;
    StopDueIff(r, k);
    OwnsIff(r, k);
    LatestFollowsEvents(r, k);
  }

  lemma YesIff(r: Run, k: nat)
    requires r.Valid() && k < |r.es| && r.At(k).announced == AnnouncedBy(r, k)
    ensures YesNow(r.At(k), r.es[k].event, r.es[k].now) <==> SaysYesBy(r, k)
  {
    hide Run.Valid, OwnsBy, OwnsAudio, EnabledBy, AnnouncedBy, UserPlay, UserPlays, StreamStarts, StartsBy, StreamBy;
    hide AnewBy, Run.PlayingBy;
    UserPlaysIff(r, k);
    OwnsIff(r, k);
    StartsIff(r, k);
    ListsFollow(r, k);
    TakeOverFollows(r, k);
    LatestFollowsEvents(r, k);
    ReadingsFollowEvents(r, k);
  }

  /** What the other hosts were last told is what the history says. */
  lemma {:induction false} AnnouncedFollows(r: Run, k: nat)
    requires r.Valid() && k <= |r.es|
    ensures r.At(k).announced == AnnouncedBy(r, k)
  {
    if k == 0 {
      NothingYet(r);
    } else {
      AnnouncedFollows(r, k - 1);
      Answered(r, k - 1);
      TakesIff(r, k - 1);
      NoIff(r, k - 1);
      YesIff(r, k - 1);
      hide Speaks, Takes, Yields, TakesNow, NoNow, YesNow, SaysNoBy, SaysYesBy, Run.Valid;
      hide StopDue, CheckDue, StreamStarts;
    }
  }

  /** The application an answer to event `k` names. */
  lemma NamesApp(r: Run, k: nat)
    requires r.Valid() && k < |r.es|
    ensures AppThen(r.At(k), r.es[k].event) == AppName(AppBy(r, k + 1))
    ensures PlayerThen(r.At(k), r.es[k].event) == PlayerBy(r, k + 1)
    ensures Others(r.At(k)) == OthersBy(r, k)
  {
    ListsFollow(r, k);
    LatestFollowsEvents(r, k);
    hide Run.Valid;
  }

  /**
   NO goes out exactly to the other hosts listed, exactly on the first tick to find playback stopped for three seconds
   out of the grace of the latest take-over, while switched on, linked and owning the audio, unless NO was said last.
   */
  lemma SaysNoIff(r: Run, k: nat, h: Address, app: string)
    requires r.Valid() && k < |r.es|
    ensures SendMediaInfo(h, false, app) in r.es[k].out
       <==> SaysNoBy(r, k) && h in OthersBy(r, k) && app == AppName(AppBy(r, k + 1))
  {
    Answered(r, k);
    AnnouncedFollows(r, k);
    NoIff(r, k);
    NamesApp(r, k);
    hide Streams, Takes, TakesNow, NoNow, YesNow, SaysNoBy, Run.Valid, Others, OthersBy, AppThen, AppBy, RepausesNow;
  }

  /**
   YES goes out exactly to the other hosts listed, exactly with a take-over, or when a play or a stream starts after a
   NO, or when the stream first starts after a take-over that found it standing still.
   */
  lemma SaysYesIff(r: Run, k: nat, h: Address, app: string)
    requires r.Valid() && k < |r.es|
    ensures SendMediaInfo(h, true, app) in r.es[k].out
       <==> (TakesBy(r, k) || SaysYesBy(r, k)) && h in OthersBy(r, k) && app == AppName(AppBy(r, k + 1))
  {
    Answered(r, k);
    AnnouncedFollows(r, k);
    YesIff(r, k);
    TakesIff(r, k);
    NamesApp(r, k);
    hide Streams, Takes, TakesNow, NoNow, YesNow, SaysYesBy, TakesBy, Run.Valid, Others, OthersBy, AppThen, AppBy;
    hide RepausesNow;
  }

  lemma EdgeIff(r: Run, k: nat)
    requires r.Valid() && k <= |r.es|
    ensures r.At(k).playEdge.Some? <==> EdgeBy(r, k)
  {
    hide Run.PlayStands, Stands, Run.Valid;
    if r.At(k).playEdge.Some? {
      var e := EdgeIsStanding(r, k);
      StandsIff(r, e, k);
    }
    if EdgeBy(r, k) {
      var e: nat :| e < k && Stands(r, e, k);
      StandsIff(r, e, k);
      EdgeRemembered(r, e, k);
    }
  }

  /** A player is paused again exactly when it starts by itself in a hold, another host asks, or the source leaks. */
  lemma RepausesIff(r: Run, k: nat, p: Player)
    requires r.Valid() && k < |r.es|
    ensures RepausePlayer(p) in r.es[k].out <==> RepausesBy(r, k) && p == PlayerBy(r, k + 1)
  {
    Answered(r, k);
    NamesApp(r, k);
    RepausesNowIff(r, k);
    hide Streams, Takes, TakesNow, NoNow, YesNow, RepausesNow, RepausesBy, Run.Valid, Others, AppThen;
    hide PlayerThen, PlayerBy;
  }

  lemma HeldByIff(r: Run, k: nat)
    requires r.Valid() && k <= |r.es|
    ensures r.At(k).held <==> HeldBy(r, k)
  {
    HeldIff(r, k);
    if HeldBy(r, k) {
      var j: nat :| j < k && HoldStands(r, j, k);
      HeldFrom(r, j, k);
    }
    if r.At(k).held {
      var j :| 0 <= j < k && HoldStands(r, j, k);
      HeldByIs(r, j, k);
    }
  }

  lemma HeldFrom(r: Run, j: nat, k: nat)
    requires r.Valid() && j < k <= |r.es| && HoldStands(r, j, k)
    ensures r.At(k).held
  {
    hide HoldStands;
    HeldIff(r, k);
  }

  lemma HeldByIs(r: Run, j: nat, k: nat)
    requires j < k <= |r.es| && HoldStands(r, j, k)
    ensures HeldBy(r, k)
  {}

  lemma RepausesNowIff(r: Run, k: nat)
    requires r.Valid() && k < |r.es|
    ensures RepausesNow(r.At(k), r.es[k].event, r.es[k].now) <==> RepausesBy(r, k)
  {
    hide Run.Valid, UserPlay, UserPlays, Requested, AsksBy, InOpening, OpeningBy, RecentRequest, RecentBy, HeldBy;
    hide EdgeBy, RepausedBy, LocalBy, PlayerBy, Run.PlayingBy, Run.RouteBy;
    var now := r.es[k].now;
    LatestFollowsEvents(r, k);
    ReadingsFollowEvents(r, k);
    UserPlaysIff(r, k);
    AsksIff(r, k);
    RouteFollowsRelease(r, k);
    HeldByIff(r, k);
    InOpeningIff(r, k, now);
    RecentRequestIff(r, k, now);
    EdgeIff(r, k);
    RepausedIff(r, k, PlayerBy(r, k));
  }

  /** A missing stream is reported exactly on the first tick three seconds after a take-over that still waits for it. */
  lemma MissesIff(r: Run, k: nat)
    requires r.Valid() && k < |r.es|
    ensures StreamNotStarted in r.es[k].out <==> MissesBy(r, k)
  {
    Answered(r, k);
    TakeOverFollows(r, k);
    OwnsIff(r, k);
    ListsFollow(r, k);
    ReadingsFollowEvents(r, k);
    EdgeIff(r, k);
    hide Streams, Takes, TakesNow, NoNow, YesNow, RepausesNow, Run.Valid, OwnsBy, OwnsAudio, StreamBy;
    hide LastPlayBy, EdgeBy, AwaitsStream, Run.PlayingBy, AnewTold, GraceTold, AppThen, PlayerThen, Others;
  }

  /** A host is introduced exactly when it newly appears in the list while this host owns the audio. */
  lemma IntroducesIff(r: Run, k: nat, h: Address)
    requires r.Valid() && k < |r.es|
    ensures (SendNewTipi(h) in r.es[k].out <==> IntroducesBy(r, k, h))
            && (SendNewDeviceMediaInfo(h) in r.es[k].out <==> IntroducesBy(r, k, h))
  {
    MessagesReachWhomTheyShould(r, k);
    LatestFollowsEvents(r, k);
    OwnerFollowsEvents(r, k);
    ListsFollow(r, k);
    InOpeningIff(r, k, r.es[k].now);
    hide Run.Valid, InOpening, OpeningBy, OwnerBy, DevicesBy, LocalBy, EnabledBy, Takes, Yields, Told, Others;
  }

  ghost predicate IntroducesBy(r: Run, k: nat, h: Address)
    requires k < |r.es|
  {
    var e := r.es[k].event;
    e.ConnectedDevices? && h in e.list && h !in DevicesBy(r, k) && LocalBy(r, k) != Some(h) && LocalBy(r, k).Some?
    && EnabledBy(r, k) && OwnerBy(r, k) == Here && !OpeningBy(r, k, r.es[k].now)
  }

  // ---- what is put on record

  /** Whom a change of hands at event `e` is put down to. */
  function PeerThen(s: State, e: Event): Option<Address> {
    match e
    case AudioSource(a, _) => Some(a)
    case SmartRouting(sender, _) => Some(sender)
    case OwnsConnection(_, _) => ActiveOtherSource(s)
    case Yield => None
    case _ => if Others(s) != [] then Some(Others(s)[0]) else ActiveOtherSource(s)
  }

  function KindThen(e: Event): Kind {
    match e
    case Tick => TookOver
    case TakeOver => TookOver
    case SmartRouting(_, _) => GaveUpOnRequest
    case _ => GaveUp
  }

  predicate Recorded(s: State, e: Event, out: seq<Action>) {
    forall a :: a in out && a.Record? ==> a == Record(KindThen(e), PeerThen(s, e))
  }

  lemma YieldRecords(s: State, e: Event, now: Millis, u: State, announce: bool)
    requires !e.Tick? && !e.TakeOver?
    ensures Recorded(s, e, YieldSteps(u, now, announce, KindThen(e), PeerThen(s, e)).out)
  {
    hide YieldSteps, KindThen, PeerThen;
    forall a | a in YieldSteps(u, now, announce, KindThen(e), PeerThen(s, e)).out && a.Record?
      ensures a == Record(KindThen(e), PeerThen(s, e))
    {
      YieldActions(u, now, announce, KindThen(e), PeerThen(s, e), a);
    }
  }

  lemma TakeRecords(s: State, e: Event, now: Millis, u: State, pre: seq<Action>)
    requires (e.Tick? || e.TakeOver?) && Others(u) == Others(s) && u.audioSource == s.audioSource && u.local == s.local
    requires pre == [] || pre == [StreamNotStarted]
    ensures Recorded(s, e, pre + TakeOverSteps(u, now).out)
  {
    hide TakeOverSteps, Others;
    forall a | a in pre + TakeOverSteps(u, now).out && a.Record? ensures a == Record(KindThen(e), PeerThen(s, e)) {
      TakeOverActions(u, now, a);
    }
  }

  lemma TickRecords(s: State, now: Millis)
    ensures Recorded(s, Tick, OnTick(s, now).out)
  {
    var a := StreamTick(s, now);
    var b := StopTick(a.state, now);
    var c := EdgeTick(b.state, now);
    var u := b.state.(playEdge := None, held := false);
    StreamTickFrame(s, now);
    AnnounceOut(a.state.(stoppedAt := None), false);
    SameOthers(s, u);
    if c.out != [] {
      assert b.out == [] && a.out + [] == a.out by { hide Announce, TakeOverSteps; }
      TakeRecords(s, Tick, now, u, a.out);
    }
    hide Announce, TakeOverSteps, StreamTick, OwnedElsewhere, OtherInCall, InStreamGrace, Others, OwnsAudio, PeerThen;
  }

  /** Any change of hands is put on record with the kind and the peer its event gives. */
  lemma StepRecords(s: State, e: Event, now: Millis)
    ensures Recorded(s, e, Step(s, e, now).out)
  {
    hide Recorded, Announce, TakeOverSteps, YieldSteps, OnTick, OnDevices, InOpening, RecentRequest, OnPlayback;
    hide OnTransport, ActiveOtherSource, MayRepause, PeerThen, Others;
    match e
    case Tick => TickRecords(s, now);
    case TakeOver =>
      TakeRecords(s, e, now, s, []);
      assert [] + TakeOverSteps(s, now).out == TakeOverSteps(s, now).out;
    case Yield =>
      PeerIs(s, e);
      YieldRecords(s, e, now, s, true);
    case AudioSource(a, source) =>
      PeerIs(s, e);
      NoRecord(s, e, []);
      NoRecord(s, e, [RepausePlayer(s.playingPlayer)]);
      if source.Known? {
        YieldRecords(s, e, now, s.(audioSource := Some(Source(a, source.status)), owner := Elsewhere), true);
      }
    case OwnsConnection(_, _) =>
      PeerIs(s, e);
      NoRecord(s, e, []);
      YieldRecords(s, e, now, s.(owner := Elsewhere), false);
    case SmartRouting(sender, _) =>
      PeerIs(s, e);
      NoRecord(s, e, []);
      NoRecord(s, e, [RepausePlayer(s.playingPlayer)]);
      YieldRecords(s, e, now, s.(owner := Elsewhere), true);
    case Playback(_, _, _) => PlaybackRecords(s, e, now);
    case A2dpTransport(active) => TransportRecords(s, active, now);
    case ConnectedDevices(list) => DevicesRecords(s, list, now);
    case _ => NoRecord(s, e, []);
  }

  lemma PeerIs(s: State, e: Event)
    ensures e.Yield? ==> PeerThen(s, e) == None
    ensures e.AudioSource? ==> PeerThen(s, e) == Some(e.address)
    ensures e.SmartRouting? ==> PeerThen(s, e) == Some(e.sender)
    ensures e.OwnsConnection? ==> PeerThen(s, e) == ActiveOtherSource(s)
    ensures ActiveOtherSource(s.(owner := Elsewhere)) == ActiveOtherSource(s)
  {}

  lemma NoRecord(s: State, e: Event, out: seq<Action>)
    requires forall a :: a in out ==> !a.Record?
    ensures Recorded(s, e, out)
  {}

  lemma PlaybackRecords(s: State, e: Event, now: Millis)
    requires e.Playback?
    ensures Recorded(s, e, OnPlayback(s, e.playing, e.app, e.player, now).out)
  {
    hide Announce, OwnsAudio, InHoldWindow, MayRepause;
    var u := Reading(s, e.playing, e.app, e.player, now).(playEdge := Some(now), stoppedAt := None);
    AnnounceOut(u, true);
  }

  lemma TransportRecords(s: State, active: bool, now: Millis)
    ensures Recorded(s, A2dpTransport(active), OnTransport(s, active).out)
  {
    hide Announce, OwnsAudio;
    var u := s.(transportActive := Some(active), streamCheck := None);
    AnnounceOut(u, true);
    AnnounceOut(u.(reannounce := false), true);
  }

  lemma DevicesRecords(s: State, list: seq<Address>, now: Millis)
    ensures Recorded(s, ConnectedDevices(list), OnDevices(s, list, now).out)
  {
    hide Joined, InOpening;
  }

  /** The active source of another host, by the latest report of this link. */
  function ActiveOtherBy(r: Run, k: nat): Option<Address>
    requires k <= |r.es|
  {
    var source := r.SourceBy(k);
    if source.Some? && source.value.status != Idle && Some(source.value.address) != LocalBy(r, k)
    then Some(source.value.address) else None
  }

  /** Whom a change of hands at event `k` is put down to, by the history. */
  function PeerBy(r: Run, k: nat): Option<Address>
    requires k < |r.es|
  {
    match r.es[k].event
    case AudioSource(a, _) => Some(a)
    case SmartRouting(sender, _) => Some(sender)
    case OwnsConnection(_, _) => ActiveOtherBy(r, k)
    case Yield => None
    case _ => if OthersBy(r, k) != [] then Some(OthersBy(r, k)[0]) else ActiveOtherBy(r, k)
  }

  /** A change of hands is put on record exactly when it happens, with its kind and its peer. */
  lemma RecordsIff(r: Run, k: nat, kind: Kind, peer: Option<Address>)
    requires r.Valid() && k < |r.es|
    ensures Record(kind, peer) in r.es[k].out
       <==> (if kind == TookOver then Takes(r.es[k].out) else Yields(r.es[k].out))
            && kind == KindThen(r.es[k].event) && peer == PeerBy(r, k)
  {
    hide Step, Recorded, Run.Valid, Others, OthersBy, LocalBy, Run.SourceBy;
    RecordsOf(r, k);
    NamesApp(r, k);
    LatestFollowsEvents(r, k);
    ReadingsFollowEvents(r, k);
  }

  lemma RecordsOf(r: Run, k: nat)
    requires r.Valid() && k < |r.es|
    ensures forall a :: a in r.es[k].out && a.Record? ==>
      a == Record(KindThen(r.es[k].event), PeerThen(r.At(k), r.es[k].event))
  {
    hide Step, PeerThen;
    assert r.Linked(k);
    StepRecords(r.At(k), r.es[k].event, r.es[k].now);
  }
}
