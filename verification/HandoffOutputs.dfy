/** Whom the ownership machine talks to: which hosts hear of a take-over, a yield or their own arrival. */
module HandoffOutputs {
  import opened Prelude
  import opened Handoff
  import opened HandoffRuns

  // ---- lists addressed to hosts

  lemma MediaInfosAre(targets: seq<Address>, streaming: bool, app: string, a: Action)
    ensures a in MediaInfos(targets, streaming, app)
       <==> a.SendMediaInfo? && a.target in targets && a.streaming == streaming && a.app == app
  {
    var m := MediaInfos(targets, streaming, app);
    if a.SendMediaInfo? && a.target in targets && a.streaming == streaming && a.app == app {
      var i :| 0 <= i < |targets| && targets[i] == a.target;
      assert m[i] == a;
    }
  }

  lemma HijacksAre(targets: seq<Address>, a: Action)
    ensures a in Hijacks(targets) <==> a.SendHijack? && a.target in targets
  {
    var m := Hijacks(targets);
    if a.SendHijack? && a.target in targets {
      var i :| 0 <= i < |targets| && targets[i] == a.target;
      assert m[i] == a;
    }
  }

  lemma IntroductionsAre(targets: seq<Address>, a: Action)
    ensures a in Introductions(targets) <==> (a.SendNewDeviceMediaInfo? || a.SendNewTipi?) && a.target in targets
  {
    var m := Introductions(targets);
    if (a.SendNewDeviceMediaInfo? || a.SendNewTipi?) && a.target in targets {
      var i :| 0 <= i < |targets| && targets[i] == a.target;
      assert m[2 * i] == SendNewDeviceMediaInfo(targets[i]);
      assert m[2 * i + 1] == SendNewTipi(targets[i]);
    }
  }

  // ---- what one step sends

  /** A report of connected hosts in which this host, owning the audio, finds newcomers. */
  predicate Introduces(s: State, event: Event, now: Millis, h: Address) {
    event.ConnectedDevices? && h in event.list && h !in s.devices && !IsLocal(s, h)
    && s.enabled && s.owner == Here && s.local.Some? && !InOpening(s, now)
  }

  /** Every action that leaves this host, and exactly when it does. */
  ghost predicate Sends(s: State, event: Event, now: Millis, out: seq<Action>) {
    (SendOwnership(true) in out <==> Takes(out))
    && (SendOwnership(false) in out <==> Yields(out) && !event.OwnsConnection?)
    && (PauseLocalPlayers in out <==> Yields(out))
    && (ClaimAudio in out <==> Takes(out))
    && (forall h: Address :: SendHijack(h) in out <==> Takes(out) && h in Others(s))
    && (Takes(out) ==> forall h: Address :: Told(out, h, true) <==> h in Others(s))
    && (forall a :: a in out && a.SendMediaInfo? ==> a.target in Others(s))
    && (forall h: Address :: SendNewTipi(h) in out <==> Introduces(s, event, now, h))
    && (forall h: Address :: SendNewDeviceMediaInfo(h) in out <==> Introduces(s, event, now, h))
  }

  /** An output that is silent towards other hosts but for media information to those listed. */
  ghost predicate Plain(s: State, out: seq<Action>) {
    forall a :: a in out ==>
      a.RepausePlayer? || a == StreamNotStarted || (a.SendMediaInfo? && a.target in Others(s))
  }

  lemma PlainSends(s: State, event: Event, now: Millis, out: seq<Action>)
    requires Plain(s, out) && !event.ConnectedDevices?
    ensures Sends(s, event, now, out)
  {}

  lemma AnnouncePlain(s: State, u: State, streaming: bool)
    requires Others(u) == Others(s)
    ensures Plain(s, Announce(u, streaming).out)
  {
    forall a | a in Announce(u, streaming).out ensures a.SendMediaInfo? && a.target in Others(s) {
      MediaInfosAre(Others(u), streaming, App(u), a);
    }
  }

  /** A yield action by action. */
  lemma YieldActions(u: State, now: Millis, announce: bool, kind: Kind, peer: Option<Address>, a: Action)
    ensures a in YieldSteps(u, now, announce, kind, peer).out
       <==> a in {PauseLocalPlayers, SetAudioRoute(Yielded), Record(kind, peer)}
            || (announce && a == SendOwnership(false))
  {
    hide EndStreamStart, RenewHold, NoteRequest;
  }

  lemma YieldSends(s: State, event: Event, now: Millis, u: State, announce: bool, kind: Kind, peer: Option<Address>)
    requires kind != TookOver && announce == !event.OwnsConnection? && !event.ConnectedDevices?
    ensures Sends(s, event, now, YieldSteps(u, now, announce, kind, peer).out)
  {
    hide Others, Introduces, YieldSteps;
    forall h: Address ensures !Introduces(s, event, now, h) {
      NoNewcomers(s, event, now, h);
    }
    var o := YieldSteps(u, now, announce, kind, peer).out;
    forall a: Action
      ensures a in o <==> (a in {PauseLocalPlayers, SetAudioRoute(Yielded), Record(kind, peer)}
                           || (announce && a == SendOwnership(false)))
    {
      YieldActions(u, now, announce, kind, peer, a);
    }
    assert Record(kind, peer) in o;
  }

  /** A take-over action by action. */
  lemma TakeOverActions(u: State, now: Millis, a: Action)
    ensures a in TakeOverSteps(u, now).out
       <==> a in {SetAudioRoute(Own), SendOwnership(true), ClaimAudio, TookOverRecord(u)}
            || (a.SendMediaInfo? && a.target in Others(u) && a.streaming && a.app == App(u))
            || (a.SendHijack? && a.target in Others(u))
  {
    var others := Others(u);
    var o := TakeOverSteps(u, now).out;
    MediaInfosAre(others, true, App(u), a);
    HijacksAre(others, a);
    var head, tail := [SetAudioRoute(Own), SendOwnership(true)], [ClaimAudio, TookOverRecord(u)];
    assert o == head + MediaInfos(others, true, App(u)) + Hijacks(others) + tail;
    hide TakeOverSteps, MediaInfos, Hijacks, Others, TookOverRecord;
  }

  function TookOverRecord(u: State): Action {
    Record(TookOver, if Others(u) != [] then Some(Others(u)[0]) else ActiveOtherSource(u))
  }

  lemma TakeSends(s: State, event: Event, now: Millis, u: State, pre: seq<Action>)
    requires Others(u) == Others(s) && (pre == [] || pre == [StreamNotStarted]) && !event.ConnectedDevices?
    ensures Sends(s, event, now, pre + TakeOverSteps(u, now).out)
  {
    hide TakeOverSteps, Others, App, Introduces;
    var out := pre + TakeOverSteps(u, now).out;
    forall a: Action
      ensures a in out <==> ((pre != [] && a == StreamNotStarted)
                             || a in {SetAudioRoute(Own), SendOwnership(true), ClaimAudio, TookOverRecord(u)}
                             || (a.SendMediaInfo? && a.target in Others(s) && a.streaming && a.app == App(u))
                             || (a.SendHijack? && a.target in Others(s)))
    {
      TakeOverActions(u, now, a);
    }
    assert TookOverRecord(u) in out && Takes(out);
    forall h: Address ensures Told(out, h, true) <==> h in Others(s) {
      assert h in Others(s) ==> SendMediaInfo(h, true, App(u)) in out;
    }
    forall h: Address ensures !Introduces(s, event, now, h) {
      NoNewcomers(s, event, now, h);
    }
  }

  lemma NoNewcomers(s: State, event: Event, now: Millis, h: Address)
    ensures !event.ConnectedDevices? ==> !Introduces(s, event, now, h)
  {}

  lemma TickSends(s: State, now: Millis)
    ensures Sends(s, Tick, now, OnTick(s, now).out)
  {
    hide Announce, TakeOverSteps, Sends, Others, OwnedElsewhere, OtherInCall, WantsStream, InStreamGrace, OwnsAudio;
    var a := StreamTick(s, now);
    var b := StopTick(a.state, now);
    var c := EdgeTick(b.state, now);
    AnnounceOut(a.state.(stoppedAt := None), false);
    SameOthers(s, a.state.(stoppedAt := None));
    SameOthers(s, b.state.(playEdge := None, held := false));
    AnnouncePlain(s, a.state.(stoppedAt := None), false);
    if c.out == [] {
      assert Plain(s, a.out) && Plain(s, b.out);
      PlainSends(s, Tick, now, a.out + b.out + c.out);
    } else {
      assert b.out == [] && a.out + [] == a.out;
      TakeSends(s, Tick, now, b.state.(playEdge := None, held := false), a.out);
    }
  }

  lemma SameOthers(s: State, t: State)
    ensures s.devices == t.devices && s.local == t.local ==> Others(s) == Others(t)
  {}

  lemma DevicesSend(s: State, list: seq<Address>, now: Millis)
    ensures Sends(s, ConnectedDevices(list), now, OnDevices(s, list, now).out)
  {
    var joined := Joined(s.local, s.devices, list);
    var out := OnDevices(s, list, now).out;
    forall a: Action
      ensures a in Introductions(joined) <==> (a.SendNewDeviceMediaInfo? || a.SendNewTipi?) && a.target in joined
    {
      IntroductionsAre(joined, a);
    }
    hide Introductions;
  }

  lemma StepSends(s: State, event: Event, now: Millis)
    ensures Sends(s, event, now, Step(s, event, now).out)
  {
    hide Sends, Announce, TakeOverSteps, YieldSteps, OnTick, OnDevices;
    hide InOpening, RecentRequest, MayRepause, InHoldWindow;
    match event
    case Tick => TickSends(s, now);
    case ConnectedDevices(list) => DevicesSend(s, list, now);
    case TakeOver =>
      TakeSends(s, event, now, s, []);
      assert [] + TakeOverSteps(s, now).out == TakeOverSteps(s, now).out;
    case Yield => YieldSends(s, event, now, s, true, GaveUp, None);
    case AudioSource(address, source) =>
      var t := s.(audioSource := if source.Raw? then s.audioSource else Some(Source(address, source.status)));
      YieldSends(s, event, now, t.(owner := Elsewhere), true, GaveUp, Some(address));
      QuietPlain(s, t, address, if source.Raw? then Idle else source.status, now);
      NothingPlain(s, event, now);
      PlainSends(s, event, now, OnQuietSource(t, address, if source.Raw? then Idle else source.status, now).out);
      hide OnQuietSource;
    case OwnsConnection(owns, opening) =>
      var t := s.(owner := Elsewhere);
      YieldSends(s, event, now, t, false, GaveUp, ActiveOtherSource(t));
      NothingPlain(s, event, now);
    case SmartRouting(sender, requestsYield) =>
      var t := s.(owner := Elsewhere);
      YieldSends(s, event, now, t, true, GaveUpOnRequest, Some(sender));
      NothingPlain(s, event, now);
      PlainSends(s, event, now, [RepausePlayer(s.playingPlayer)]);
    case Playback(playing, app, player) => PlaybackPlain(s, event, now);
    case A2dpTransport(active) => TransportPlain(s, active, now);
    case _ => NothingPlain(s, event, now);
  }

  lemma NothingPlain(s: State, event: Event, now: Millis)
    requires !event.ConnectedDevices?
    ensures Sends(s, event, now, [])
  {}

  lemma QuietPlain(s: State, t: State, address: Address, status: Status, now: Millis)
    ensures Plain(s, OnQuietSource(t, address, status, now).out)
  {}

  lemma PlaybackPlain(s: State, e: Event, now: Millis)
    requires e.Playback?
    ensures Sends(s, e, now, OnPlayback(s, e.playing, e.app, e.player, now).out)
  {
    hide Announce, Others, OwnsAudio, InHoldWindow, MayRepause;
    var t := Reading(s, e.playing, e.app, e.player, now);
    var u := t.(playEdge := Some(now), stoppedAt := None);
    SameOthers(s, u);
    AnnouncePlain(s, u, true);
    PlainSends(s, e, now, OnPlayback(s, e.playing, e.app, e.player, now).out);
  }

  lemma TransportPlain(s: State, active: bool, now: Millis)
    ensures Sends(s, A2dpTransport(active), now, OnTransport(s, active).out)
  {
    hide Announce, Others, OwnsAudio;
    var u := s.(transportActive := Some(active), streamCheck := None);
    SameOthers(s, u);
    SameOthers(s, u.(reannounce := false));
    AnnouncePlain(s, u, true);
    AnnouncePlain(s, u.(reannounce := false), true);
    PlainSends(s, A2dpTransport(active), now, OnTransport(s, active).out);
  }

  /**
   In every run the messages reach exactly whom they should: a take-over claims the audio and tells and hijacks every
   other listed host and nobody else; a yield pauses first and is not echoed to the AirPods that asked for it; a
   newcomer is introduced exactly while this host owns the audio; and media information goes to listed hosts only.
   */
  lemma MessagesReachWhomTheyShould(r: Run, k: nat)
    requires r.Valid() && k < |r.es|
    ensures Sends(r.At(k), r.es[k].event, r.es[k].now, r.es[k].out)
  {
    hide Step, Sends;
    assert r.Linked(k);
    StepSends(r.At(k), r.es[k].event, r.es[k].now);
  }
}
