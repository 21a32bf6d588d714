/**
 Apple multi-host switching: who owns the AirPods, when this host yields, holds, pauses a player
 again, takes over and announces that it streams.
 */
module Handoff {
  import opened Prelude

  const PLAY_DEBOUNCE: Millis := 1_500
  const PAUSE_HOLD: Millis := 2_500
  const AUDIO_CHANGE_HOLD: Millis := 2_500
  const OPENING_WINDOW: Millis := 3_000
  const OPENING_WINDOW_MAX: Millis := 10_000
  const REQUEST_RECENT: Millis := 10_000
  const STREAM_CHECK: Millis := 3_000
  const STREAM_GRACE: Millis := 8_000
  const PLAYBACK_STOPPED: Millis := 3_000
  const PLAYING_APP_UNKNOWN := "NA"

  datatype Owner = Unowned | Here | Elsewhere

  datatype Status = Idle | Call | Media

  datatype SourceState = Known(status: Status) | Raw(code: byte)

  datatype Source = Source(address: Address, status: Status)

  datatype RouteMode = Own | Yielded

  datatype Kind = TookOver | GaveUp | GaveUpOnRequest

  /** A player's bus name, when it was ever learned. */
  type Player = Option<string>

  datatype Event =
    | LinkOpened
    | OpeningSettled
    | LinkClosed
    | AudioSource(address: Address, source: SourceState)
    | ConnectedDevices(list: seq<Address>)
    | OwnsConnection(owns: bool, opening: bool)
    | SmartRouting(sender: Address, requestsYield: bool)
    | Playback(playing: bool, app: Option<string>, player: Player)
    | AudioLinkChanged
    | A2dpTransport(active: bool)
    | Tick
    | TakeOver
    | Yield
    /** The session stores these two public fields directly. */
    | SetLocal(adapter: Address)
    | SetEnabled(on: bool)

  datatype Action =
    | SendOwnership(owns: bool)
    | SendMediaInfo(target: Address, streaming: bool, app: string)
    | SendNewDeviceMediaInfo(target: Address)
    | SendHijack(target: Address)
    | SendNewTipi(target: Address)
    | PauseLocalPlayers
    | RepausePlayer(player: Player)
    | ClaimAudio
    | SetAudioRoute(mode: RouteMode)
    | StreamNotStarted
    | Record(kind: Kind, peer: Option<Address>)

  datatype State = State(
    enabled: bool,
    takeOverOnPlay: bool,
    local: Option<Address>,
    linkUp: bool,
    owner: Owner,
    audioSource: Option<Source>,
    devices: seq<Address>,
    released: bool,
    held: bool,
    holdFrom: Option<Millis>,
    openedAt: Option<Millis>,
    openingSettled: bool,
    lastRequest: Option<Millis>,
    repaused: seq<Player>,
    audioChanged: Option<Millis>,
    playing: Option<bool>,
    playingApp: Option<string>,
    playingPlayer: Player,
    playEdge: Option<Millis>,
    lastPlay: Option<Millis>,
    stoppedAt: Option<Millis>,
    transportActive: Option<bool>,
    tookOverAt: Option<Millis>,
    streamCheck: Option<Millis>,
    reannounce: bool,
    announced: Option<bool>)

  datatype Next = Next(state: State, out: seq<Action>)

  function NewState(enabled: bool, takeOverOnPlay: bool): State {
    State(enabled, takeOverOnPlay, None, false, Unowned, None, [], false, false, None, None, false, None, [],
          None, None, None, None, None, None, None, None, None, None, false, None)
  }

  // ---- readings of the state

  predicate OwnsAudio(s: State) {
    s.owner == Here && !s.released
  }

  predicate IsLocal(s: State, a: Address) {
    s.local == Some(a)
  }

  /** Drops the local address from a list and keeps the order. */
  function Foreign(local: Option<Address>, list: seq<Address>): (f: seq<Address>)
    ensures forall a :: a in f <==> a in list && local != Some(a)
  {
    if list == [] then []
    else if local == Some(list[0]) then Foreign(local, list[1..])
    else [list[0]] + Foreign(local, list[1..])
  }

  function Others(s: State): seq<Address> {
    Foreign(s.local, s.devices)
  }

  /** The listed hosts that are neither known already nor this one. */
  function Joined(local: Option<Address>, known: seq<Address>, list: seq<Address>): (f: seq<Address>)
    ensures forall a :: a in f <==> a in list && a !in known && local != Some(a)
  {
    if list == [] then []
    else if list[0] in known || local == Some(list[0]) then Joined(local, known, list[1..])
    else [list[0]] + Joined(local, known, list[1..])
  }

  function ActiveOtherSource(s: State): Option<Address> {
    if s.audioSource.Some? && s.audioSource.value.status != Idle && !IsLocal(s, s.audioSource.value.address)
    then Some(s.audioSource.value.address) else None
  }

  predicate OtherInCall(s: State) {
    s.audioSource.Some? && s.audioSource.value.status == Call && !IsLocal(s, s.audioSource.value.address)
  }

  predicate OwnedElsewhere(s: State) {
    s.released || s.owner == Elsewhere || ActiveOtherSource(s).Some?
  }

  /** A start of playback would count as automatic: a hold stands and something just happened to it. */
  predicate InHoldWindow(s: State, now: Millis) {
    s.held && (Within(now, s.holdFrom, PAUSE_HOLD) || Within(now, s.audioChanged, AUDIO_CHANGE_HOLD))
  }

  /** What the AirPods say may still describe how things were when the link came up. */
  predicate InOpening(s: State, now: Millis) {
    s.openedAt.Some?
    && Since(now, s.openedAt.value) < OPENING_WINDOW_MAX
    && (Since(now, s.openedAt.value) < OPENING_WINDOW || !s.openingSettled)
  }

  predicate RecentRequest(s: State, now: Millis) {
    Within(now, s.lastRequest, REQUEST_RECENT)
  }

  predicate MayRepause(s: State) {
    s.playingPlayer !in s.repaused
  }

  function AppName(app: Option<string>): string {
    if app.Some? then app.value else PLAYING_APP_UNKNOWN
  }

  function App(s: State): string {
    AppName(s.playingApp)
  }

  predicate InStreamGrace(s: State, now: Millis) {
    Within(now, s.tookOverAt, STREAM_GRACE)
  }

  predicate WantsStream(s: State, now: Millis) {
    s.playing == Some(true) || s.playEdge.Some? || Within(now, s.lastPlay, PLAYBACK_STOPPED)
  }

  // ---- building blocks of the transition

  function EndStreamStart(s: State): State {
    s.(stoppedAt := None, tookOverAt := None, streamCheck := None, reannounce := false)
  }

  function ResetLink(s: State): State {
    EndStreamStart(s).(owner := Unowned, audioSource := None, devices := [], released := false, held := false,
                       holdFrom := None, openedAt := None, openingSettled := false, lastRequest := None,
                       repaused := [], playing := None, playEdge := None, announced := None)
  }

  function NoteRequest(s: State, now: Millis): State {
    s.(lastRequest := Some(now), repaused := [])
  }

  function RenewHold(s: State, now: Millis): State {
    s.(held := true, holdFrom := Some(now), playEdge := None)
  }

  function Repause(s: State, now: Millis): Next {
    Next(s.(holdFrom := Some(now), playEdge := None, repaused := s.repaused + [s.playingPlayer]),
         [RepausePlayer(s.playingPlayer)])
  }

  function MediaInfos(targets: seq<Address>, streaming: bool, app: string): seq<Action> {
    seq(|targets|, i requires 0 <= i < |targets| => SendMediaInfo(targets[i], streaming, app))
  }

  function Hijacks(targets: seq<Address>): seq<Action> {
    seq(|targets|, i requires 0 <= i < |targets| => SendHijack(targets[i]))
  }

  function Introductions(targets: seq<Address>): seq<Action> {
    seq(2 * |targets|, i requires 0 <= i < 2 * |targets| =>
      if i % 2 == 0 then SendNewDeviceMediaInfo(targets[i / 2]) else SendNewTipi(targets[i / 2]))
  }

  function Announce(s: State, streaming: bool): Next {
    Next(s.(announced := Some(streaming)), MediaInfos(Others(s), streaming, App(s)))
  }

  /** The steps of a yield; the announcement comes after pause and card. */
  function YieldSteps(s: State, now: Millis, announce: bool, kind: Kind, peer: Option<Address>): Next {
    var t := s.(owner := Elsewhere, released := true);
    Next(EndStreamStart(RenewHold(NoteRequest(t, now), now)),
         [PauseLocalPlayers, SetAudioRoute(Yielded)]
         + (if announce then [SendOwnership(false)] else [])
         + [Record(kind, peer)])
  }

  /** The steps of a take-over; the card comes first. */
  function TakeOverSteps(s: State, now: Millis): Next {
    var others := Others(s);
    Next(s.(owner := Here, released := false, held := false, playEdge := None, stoppedAt := None,
            tookOverAt := Some(now),
            streamCheck := if s.transportActive.Some? then Some(now + STREAM_CHECK) else None,
            reannounce := s.transportActive == Some(false),
            announced := Some(true)),
         [SetAudioRoute(Own), SendOwnership(true)]
         + MediaInfos(others, true, App(s)) + Hijacks(others)
         + [ClaimAudio, Record(TookOver, if others != [] then Some(others[0]) else ActiveOtherSource(s))])
  }

  // ---- one function per event with branches

  function OnAudioSource(s: State, address: Address, source: SourceState, now: Millis): Next {
    if source.Raw? then Next(s, [])
    else
      var t := s.(audioSource := Some(Source(address, source.status)));
      if s.local.None? then Next(t, [])
      else if source.status == Idle || IsLocal(s, address) then OnQuietSource(t, address, source.status, now)
      else
        var u := t.(owner := Elsewhere);
        if InOpening(s, now) || s.audioSource == t.audioSource || !s.enabled then Next(u, [])
        else if s.released then Next(RenewHold(NoteRequest(u, now), now), [])
        else YieldSteps(u, now, true, GaveUp, Some(address))
  }

  /** An idle report, or one naming this host: it can end a hold or catch a leaked stream. */
  function OnQuietSource(t: State, address: Address, status: Status, now: Millis): Next {
    var u := if IsLocal(t, address) && status != Idle then t.(owner := Here, audioChanged := Some(now)) else t;
    if !u.held || InOpening(u, now) then Next(u, [])
    else if !RecentRequest(u, now) then Next(u.(held := false), [])
    else if IsLocal(u, address) && status == Media && u.playEdge.None? && MayRepause(u) then Repause(u, now)
    else Next(u, [])
  }

  function OnDevices(s: State, list: seq<Address>, now: Millis): Next {
    var joined := Joined(s.local, s.devices, list);
    var t := s.(devices := list);
    Next(t, if InOpening(s, now) || !(s.enabled && s.owner == Here && s.local.Some?) then [] else Introductions(joined))
  }

  function OnDisowned(s: State, opening: bool, now: Millis): Next {
    var t := s.(owner := Elsewhere);
    if !s.enabled || opening || InOpening(s, now) then Next(t, [])
    else if s.released then Next(NoteRequest(t, now), [])
    else YieldSteps(t, now, false, GaveUp, ActiveOtherSource(t))
  }

  function OnSmartRouting(s: State, sender: Address, requestsYield: bool, now: Millis): Next {
    if !requestsYield || IsLocal(s, sender) then Next(s, [])
    else
      var t := s.(owner := Elsewhere);
      if !s.enabled then Next(t, [])
      else if !s.released then YieldSteps(t, now, true, GaveUpOnRequest, Some(sender))
      else
        var u := RenewHold(NoteRequest(t, now), now);
        if s.playing == Some(true) then Repause(u, now) else Next(u, [])
  }

  function Reading(s: State, playing: bool, app: Option<string>, player: Player, now: Millis): State {
    s.(playing := Some(playing),
       playingApp := if app.Some? then app else s.playingApp,
       playingPlayer := if player.Some? then player else s.playingPlayer,
       lastPlay := if playing || s.playing == Some(true) then Some(now) else s.lastPlay)
  }

  /** A player started: resuming itself inside a hold window, else the user's play. */
  function OnPlayStarted(t: State, now: Millis): Next {
    if InHoldWindow(t, now) && MayRepause(t) then Repause(t, now)
    else
      var u := t.(playEdge := Some(now), stoppedAt := None);
      if u.enabled && u.linkUp && OwnsAudio(u) && u.transportActive == Some(true) && u.announced == Some(false)
      then Announce(u, true) else Next(u, [])
  }

  function OnPlayback(s: State, playing: bool, app: Option<string>, player: Player, now: Millis): Next {
    var t := Reading(s, playing, app, player, now);
    if s.playing == Some(false) && playing then OnPlayStarted(t, now)
    else if s.playing == Some(true) && !playing then Next(t.(playEdge := None, stoppedAt := Some(now)), [])
    else Next(t, [])
  }

  function OnTransport(s: State, active: bool): Next {
    var t := s.(transportActive := Some(active));
    if !active || s.transportActive == Some(true) || !s.linkUp || !OwnsAudio(s) then Next(t, [])
    else
      var u := t.(streamCheck := None);
      if u.reannounce then Announce(u.(reannounce := false), true)
      else if u.enabled && u.playing == Some(true) && u.announced == Some(false) then Announce(u, true)
      else Next(u, [])
  }

  function StreamTick(s: State, now: Millis): Next {
    if s.streamCheck.None? || now < s.streamCheck.value then Next(s, [])
    else
      Next(s.(streamCheck := None),
           if !s.linkUp || !OwnsAudio(s) || s.transportActive != Some(false) || !WantsStream(s, now) then []
           else [StreamNotStarted])
  }

  function StopTick(s: State, now: Millis): Next {
    if s.stoppedAt.None? then Next(s, [])
    else if s.playing != Some(false) then Next(s.(stoppedAt := None), [])
    else if Since(now, s.stoppedAt.value) < PLAYBACK_STOPPED || InStreamGrace(s, now) then Next(s, [])
    else
      var t := s.(stoppedAt := None);
      if t.enabled && t.linkUp && OwnsAudio(t) && t.announced != Some(false) then Announce(t, false) else Next(t, [])
  }

  /** The play edge has lasted: take over if that is allowed and needed. */
  function EdgeTick(s: State, now: Millis): Next {
    if s.playEdge.None? || Since(now, s.playEdge.value) < PLAY_DEBOUNCE then Next(s, [])
    else if s.playing != Some(true) then Next(s.(playEdge := None), [])
    else
      var t := s.(playEdge := None, held := false);
      if t.enabled && t.takeOverOnPlay && t.linkUp && t.local.Some? && !OtherInCall(t) && OwnedElsewhere(t)
      then TakeOverSteps(t, now) else Next(t, [])
  }

  function OnTick(s: State, now: Millis): Next {
    var a := StreamTick(s, now);
    var b := StopTick(a.state, now);
    var c := EdgeTick(b.state, now);
    Next(c.state, a.out + b.out + c.out)
  }

  function Step(s: State, event: Event, now: Millis): Next {
    match event
    case LinkOpened => Next(ResetLink(s).(linkUp := true, openedAt := Some(now)), [])
    case OpeningSettled => Next(s.(openingSettled := true), [])
    case LinkClosed => Next(ResetLink(s).(linkUp := false), [])
    case AudioSource(address, source) => OnAudioSource(s, address, source, now)
    case ConnectedDevices(list) => OnDevices(s, list, now)
    case OwnsConnection(owns, opening) =>
      if owns then Next(s.(owner := Here), []) else OnDisowned(s, opening, now)
    case SmartRouting(sender, requestsYield) => OnSmartRouting(s, sender, requestsYield, now)
    case Playback(playing, app, player) => OnPlayback(s, playing, app, player, now)
    case AudioLinkChanged => Next(s.(audioChanged := Some(now)), [])
    case A2dpTransport(active) => OnTransport(s, active)
    case Tick => OnTick(s, now)
    case TakeOver => TakeOverSteps(s, now)
    case Yield => YieldSteps(s, now, true, GaveUp, None)
    case SetLocal(adapter) => Next(s.(local := Some(adapter)), [])
    case SetEnabled(on) => Next(s.(enabled := on), [])
  }

  // ---- the machine

  /** The fields of the machine, grouped by what resets them together. */
  datatype LinkPart = LinkPart(
    linkUp: bool, owner: Owner, audioSource: Option<Source>, devices: seq<Address>,
    openedAt: Option<Millis>, openingSettled: bool)

  datatype HoldPart = HoldPart(
    released: bool, held: bool, holdFrom: Option<Millis>, lastRequest: Option<Millis>,
    repaused: seq<Player>, audioChanged: Option<Millis>)

  datatype PlayPart = PlayPart(
    playing: Option<bool>, playingApp: Option<string>, playingPlayer: Player,
    playEdge: Option<Millis>, lastPlay: Option<Millis>)

  datatype StreamPart = StreamPart(
    stoppedAt: Option<Millis>, transportActive: Option<bool>, tookOverAt: Option<Millis>,
    streamCheck: Option<Millis>, reannounce: bool, announced: Option<bool>)

  class HandoffState {
    var enabled: bool
    const takeOverOnPlay: bool
    var local: Option<Address>
    var link: LinkPart
    var hold: HoldPart
    var play: PlayPart
    var stream: StreamPart

    function View(): State
      reads this
    {
      State(enabled, takeOverOnPlay, local, link.linkUp, link.owner, link.audioSource, link.devices, hold.released,
            hold.held, hold.holdFrom, link.openedAt, link.openingSettled, hold.lastRequest, hold.repaused,
            hold.audioChanged, play.playing, play.playingApp, play.playingPlayer, play.playEdge, play.lastPlay,
            stream.stoppedAt, stream.transportActive, stream.tookOverAt, stream.streamCheck, stream.reannounce,
            stream.announced)
    }

    constructor (enabled: bool, takeOverOnPlay: bool)
      ensures View() == NewState(enabled, takeOverOnPlay)
    {
      this.enabled, this.takeOverOnPlay, local := enabled, takeOverOnPlay, None;
      link := LinkPart(false, Unowned, None, [], None, false);
      hold := HoldPart(false, false, None, None, [], None);
      play := PlayPart(None, None, None, None, None);
      stream := StreamPart(None, None, None, None, false, None);
    }

    /** Nothing is owed any more to the last take-over. */
    method ForgetStreamStart()
      modifies `stream
      ensures stream == old(stream).(stoppedAt := None, tookOverAt := None, streamCheck := None, reannounce := false)
    {
      stream := stream.(stoppedAt := None, tookOverAt := None, streamCheck := None, reannounce := false);
    }

    method Reset()
      modifies this
      ensures View() == ResetLink(old(View()))
    {
      link := link.(owner := Unowned, audioSource := None, devices := [], openedAt := None, openingSettled := false);
      hold := hold.(released := false, held := false, holdFrom := None, lastRequest := None, repaused := []);
      play := play.(playing := None, playEdge := None);
      ForgetStreamStart();
      stream := stream.(announced := None);
    }

    method Noted(now: Millis)
      modifies `hold
      ensures hold == old(hold).(lastRequest := Some(now), repaused := [])
    {
      hold := hold.(lastRequest := Some(now), repaused := []);
    }

    method Renew(now: Millis)
      modifies `hold, `play
      ensures hold == old(hold).(held := true, holdFrom := Some(now)) && play == old(play).(playEdge := None)
    {
      hold := hold.(held := true, holdFrom := Some(now));
      play := play.(playEdge := None);
    }

    method PauseAgain(now: Millis) returns (out: seq<Action>)
      modifies `hold, `play
      ensures hold == old(hold).(holdFrom := Some(now), repaused := old(hold.repaused + [play.playingPlayer]))
      ensures play == old(play).(playEdge := None) && out == [RepausePlayer(play.playingPlayer)]
    {
      hold := hold.(holdFrom := Some(now));
      play := play.(playEdge := None);
      hold := hold.(repaused := hold.repaused + [play.playingPlayer]);
      out := [RepausePlayer(play.playingPlayer)];
    }

    method Tell(streaming: bool) returns (out: seq<Action>)
      modifies `stream
      ensures stream == old(stream).(announced := Some(streaming))
      ensures out == MediaInfos(Foreign(local, link.devices), streaming, AppName(play.playingApp))
    {
      stream := stream.(announced := Some(streaming));
      out := MediaInfos(Foreign(local, link.devices), streaming, AppName(play.playingApp));
    }

    method GiveUp(now: Millis, announce: bool, kind: Kind, peer: Option<Address>) returns (out: seq<Action>)
      modifies this
      ensures Next(View(), out) == YieldSteps(old(View()), now, announce, kind, peer)
    {
      link := link.(owner := Elsewhere);
      hold := hold.(released := true);
      Noted(now);
      Renew(now);
      ForgetStreamStart();
      out := [PauseLocalPlayers, SetAudioRoute(Yielded)];
      if announce {
        out := out + [SendOwnership(false)];
      }
      out := out + [Record(kind, peer)];
    }

    method Take(now: Millis) returns (out: seq<Action>)
      modifies this
      ensures Next(View(), out) == TakeOverSteps(old(View()), now)
    {
      var others := Foreign(local, link.devices);
      var peer := if others != [] then Some(others[0]) else ActiveOtherSource(View());
      link := link.(owner := Here);
      hold := hold.(released := false, held := false);
      play := play.(playEdge := None);
      stream := stream.(stoppedAt := None, tookOverAt := Some(now),
                        streamCheck := if stream.transportActive.Some? then Some(now + STREAM_CHECK) else None,
                        reannounce := stream.transportActive == Some(false), announced := Some(true));
      out := [SetAudioRoute(Own), SendOwnership(true)];
      out := out + MediaInfos(others, true, AppName(play.playingApp));
      out := out + Hijacks(others);
      out := out + [ClaimAudio, Record(TookOver, peer)];
    }

    /** Takes the transition `Step` in place, arm by arm. */
    method Decide(event: Event, now: Millis) returns (out: seq<Action>)
      modifies this
      ensures Next(View(), out) == Step(old(View()), event, now)
    {
      out := [];
      match event {
        case LinkOpened =>
          Reset();
          link := link.(linkUp := true, openedAt := Some(now));
        case OpeningSettled =>
          link := link.(openingSettled := true);
        case LinkClosed =>
          Reset();
          link := link.(linkUp := false);
        case AudioSource(address, source) =>
          out := HearSource(address, source, now);
        case ConnectedDevices(list) =>
          var joined := Joined(local, link.devices, list);
          link := link.(devices := list);
          if !InOpening(View(), now) && enabled && link.owner == Here && local.Some? {
            out := Introductions(joined);
          }
        case OwnsConnection(owns, opening) =>
          out := HearOwnership(owns, opening, now);
        case SmartRouting(sender, requestsYield) =>
          out := HearRelay(sender, requestsYield, now);
        case Playback(nowPlaying, app, player) =>
          out := Hear(nowPlaying, app, player, now);
        case AudioLinkChanged =>
          hold := hold.(audioChanged := Some(now));
        case A2dpTransport(active) =>
          out := HearTransport(active);
        case Tick =>
          out := Ticked(now);
        case TakeOver =>
          out := Take(now);
        case Yield =>
          out := GiveUp(now, true, GaveUp, None);
        case SetLocal(adapter) =>
          local := Some(adapter);
        case SetEnabled(on) =>
          enabled := on;
      }
    }

    method HearSource(address: Address, source: SourceState, now: Millis) returns (out: seq<Action>)
      modifies this
      ensures Next(View(), out) == OnAudioSource(old(View()), address, source, now)
    {
      if source.Raw? {
        return [];
      }
      var status := source.status;
      var previous := link.audioSource;
      link := link.(audioSource := Some(Source(address, status)));
      if local.None? {
        return [];
      }
      if status == Idle || local == Some(address) {
        out := HearQuiet(address, status, now);
        return;
      }
      var opening := InOpening(View(), now);
      link := link.(owner := Elsewhere);
      if opening || previous == link.audioSource || !enabled {
        return [];
      }
      if hold.released {
        Noted(now);
        Renew(now);
        return [];
      }
      out := GiveUp(now, true, GaveUp, Some(address));
    }

    method HearQuiet(address: Address, status: Status, now: Millis) returns (out: seq<Action>)
      modifies this
      ensures Next(View(), out) == OnQuietSource(old(View()), address, status, now)
    {
      hide InOpening, RecentRequest, MayRepause;
      if local == Some(address) && status != Idle {
        link := link.(owner := Here);
        hold := hold.(audioChanged := Some(now));
      }
      if !hold.held || InOpening(View(), now) {
        return [];
      }
      if !RecentRequest(View(), now) {
        hold := hold.(held := false);
        return [];
      }
      if local == Some(address) && status == Media && play.playEdge.None? && MayRepause(View()) {
        out := PauseAgain(now);
        return;
      }
      out := [];
    }

    method HearOwnership(owns: bool, opening: bool, now: Millis) returns (out: seq<Action>)
      modifies this
      ensures Next(View(), out) == Step(old(View()), OwnsConnection(owns, opening), now)
    {
      if owns {
        link := link.(owner := Here);
        return [];
      }
      link := link.(owner := Elsewhere);
      if !enabled || opening || InOpening(View(), now) {
        return [];
      }
      if hold.released {
        Noted(now);
        return [];
      }
      out := GiveUp(now, false, GaveUp, ActiveOtherSource(View()));
    }

    method HearRelay(sender: Address, requestsYield: bool, now: Millis) returns (out: seq<Action>)
      modifies this
      ensures Next(View(), out) == OnSmartRouting(old(View()), sender, requestsYield, now)
    {
      if !requestsYield || local == Some(sender) {
        return [];
      }
      link := link.(owner := Elsewhere);
      if !enabled {
        return [];
      }
      if hold.released {
        Noted(now);
        Renew(now);
        if play.playing == Some(true) {
          out := PauseAgain(now);
          return;
        }
        return [];
      }
      out := GiveUp(now, true, GaveUpOnRequest, Some(sender));
    }

    method TakeReading(nowPlaying: bool, app: Option<string>, player: Player, now: Millis)
      modifies `play
      ensures View() == Reading(old(View()), nowPlaying, app, player, now)
    {
      var previous := play.playing;
      play := play.(playing := Some(nowPlaying));
      if app.Some? {
        play := play.(playingApp := app);
      }
      if player.Some? {
        play := play.(playingPlayer := player);
      }
      if nowPlaying || previous == Some(true) {
        play := play.(lastPlay := Some(now));
      }
    }

    method HearStart(now: Millis) returns (out: seq<Action>)
      modifies this
      ensures Next(View(), out) == OnPlayStarted(old(View()), now)
    {
      if InHoldWindow(View(), now) && MayRepause(View()) {
        out := PauseAgain(now);
        return;
      }
      play := play.(playEdge := Some(now));
      stream := stream.(stoppedAt := None);
      out := [];
      if enabled && link.linkUp && link.owner == Here && !hold.released
         && stream.transportActive == Some(true) && stream.announced == Some(false) {
        out := Tell(true);
      }
    }

    method Hear(nowPlaying: bool, app: Option<string>, player: Player, now: Millis) returns (out: seq<Action>)
      modifies this
      ensures Next(View(), out) == OnPlayback(old(View()), nowPlaying, app, player, now)
    {
      var previous := play.playing;
      TakeReading(nowPlaying, app, player, now);
      out := [];
      if previous == Some(false) && nowPlaying {
        out := HearStart(now);
      } else if previous == Some(true) && !nowPlaying {
        play := play.(playEdge := None);
        stream := stream.(stoppedAt := Some(now));
      }
    }

    method HearTransport(active: bool) returns (out: seq<Action>)
      modifies this
      ensures Next(View(), out) == OnTransport(old(View()), active)
    {
      var previous := stream.transportActive;
      stream := stream.(transportActive := Some(active));
      if !active || previous == Some(true) || !link.linkUp || link.owner != Here || hold.released {
        return [];
      }
      stream := stream.(streamCheck := None);
      if stream.reannounce {
        stream := stream.(reannounce := false);
        out := Tell(true);
        return;
      }
      if enabled && play.playing == Some(true) && stream.announced == Some(false) {
        out := Tell(true);
        return;
      }
      out := [];
    }

    method CheckStream(now: Millis) returns (out: seq<Action>)
      modifies this
      ensures Next(View(), out) == StreamTick(old(View()), now)
    {
      if stream.streamCheck.None? || now < stream.streamCheck.value {
        return [];
      }
      stream := stream.(streamCheck := None);
      if !link.linkUp || !OwnsAudio(View()) || stream.transportActive != Some(false) || !WantsStream(View(), now) {
        return [];
      }
      out := [StreamNotStarted];
    }

    method CheckStopped(now: Millis) returns (out: seq<Action>)
      modifies this
      ensures Next(View(), out) == StopTick(old(View()), now)
    {
      if stream.stoppedAt.None? {
        return [];
      }
      if play.playing != Some(false) {
        stream := stream.(stoppedAt := None);
        return [];
      }
      if Since(now, stream.stoppedAt.value) < PLAYBACK_STOPPED || InStreamGrace(View(), now) {
        return [];
      }
      stream := stream.(stoppedAt := None);
      if enabled && link.linkUp && link.owner == Here && !hold.released && stream.announced != Some(false) {
        out := Tell(false);
      } else {
        out := [];
      }
    }

    method Ticked(now: Millis) returns (out: seq<Action>)
      modifies this
      ensures Next(View(), out) == OnTick(old(View()), now)
    {
      out := CheckStream(now);
      var stop := CheckStopped(now);
      out := out + stop;
      if play.playEdge.None? || Since(now, play.playEdge.value) < PLAY_DEBOUNCE {
        return;
      }
      play := play.(playEdge := None);
      if play.playing != Some(true) {
        return;
      }
      hold := hold.(held := false);
      if enabled && takeOverOnPlay && link.linkUp && local.Some? && !OtherInCall(View()) && OwnedElsewhere(View()) {
        var take := Take(now);
        out := out + take;
      }
    }
  }
}
