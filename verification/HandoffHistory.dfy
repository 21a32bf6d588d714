/**
 The conditions the ownership machine remembers, read off the events and answers of a run alone: the opening window, the
 requests, the hold, and the plays that count as the user's.
 */
module HandoffHistory {
  import opened Prelude
  import opened Handoff
  import opened HandoffRuns

  // ---- latest values

  function LocalBy(r: Run, k: nat): Option<Address>
    requires k <= |r.es|
  {
    if k == 0 then None
    else if r.es[k - 1].event.SetLocal? then Some(r.es[k - 1].event.adapter)
    else LocalBy(r, k - 1)
  }

  function EnabledBy(r: Run, k: nat): bool
    requires k <= |r.es|
  {
    if k == 0 then r.init.enabled
    else if r.es[k - 1].event.SetEnabled? then r.es[k - 1].event.on
    else EnabledBy(r, k - 1)
  }

  /** The player last named by a reading. */
  function PlayerBy(r: Run, k: nat): Player
    requires k <= |r.es|
  {
    if k == 0 then None
    else if r.es[k - 1].event.Playback? && r.es[k - 1].event.player.Some? then r.es[k - 1].event.player
    else PlayerBy(r, k - 1)
  }

  /** When the link that is up was opened. */
  function OpenedBy(r: Run, k: nat): Option<Millis>
    requires k <= |r.es|
  {
    if k == 0 || r.es[k - 1].event.LinkClosed? then None
    else if r.es[k - 1].event.LinkOpened? then Some(r.es[k - 1].now)
    else OpenedBy(r, k - 1)
  }

  /** The opening state dump of this link has settled. */
  predicate SettledBy(r: Run, k: nat)
    requires k <= |r.es|
  {
    k > 0 && !Resets(r.es[k - 1].event) && (r.es[k - 1].event.OpeningSettled? || SettledBy(r, k - 1))
  }

  /** Three seconds from the opening, and up to ten until the dump has settled. */
  predicate OpeningBy(r: Run, k: nat, now: Millis)
    requires k <= |r.es|
  {
    var from := OpenedBy(r, k);
    from.Some? && Since(now, from.value) < if SettledBy(r, k) then OPENING_WINDOW else OPENING_WINDOW_MAX
  }

  /** Whom the AirPods' reports and this host's own decisions make the owner of the audio. */
  ghost function OwnerBy(r: Run, k: nat): Owner
    requires k <= |r.es|
  {
    if k == 0 then Unowned
    else
      var before := OwnerBy(r, k - 1);
      match r.es[k - 1].event
      case LinkOpened => Unowned
      case LinkClosed => Unowned
      case OwnsConnection(owns, _) => if owns then Here else Elsewhere
      case AudioSource(address, source) =>
        if source.Raw? || LocalBy(r, k - 1).None? || source.status == Idle then before
        else if LocalBy(r, k - 1) == Some(address) then Here else Elsewhere
      case SmartRouting(sender, asks) => if asks && LocalBy(r, k - 1) != Some(sender) then Elsewhere else before
      case Yield => Elsewhere
      case _ => if Takes(r.es[k - 1].out) then Here else before
  }

  /** Switched on, linked and addressed, with another host the owner and none in a call. */
  ghost predicate TakeOverAllowed(r: Run, k: nat)
    requires k <= |r.es|
  {
    var local, source := LocalBy(r, k), r.SourceBy(k);
    var other := source.Some? && Some(source.value.address) != local;
    EnabledBy(r, k) && r.init.takeOverOnPlay && OpenedBy(r, k).Some? && local.Some?
    && !(other && source.value.status == Call)
    && (r.RouteBy(k) == Some(Yielded) || OwnerBy(r, k) == Elsewhere || (other && source.value.status != Idle))
  }

  // ---- requests

  /** Event `k` really asks this host to give the audio up. */
  predicate AsksBy(r: Run, k: nat)
    requires k < |r.es|
  {
    var now := r.es[k].now;
    match r.es[k].event
    case Yield => true
    case AudioSource(a, source) =>
      source.Known? && source.status != Idle && LocalBy(r, k).Some? && LocalBy(r, k) != Some(a) && EnabledBy(r, k)
      && !OpeningBy(r, k, now) && r.SourceBy(k) != Some(Source(a, source.status))
    case OwnsConnection(owns, opening) => !owns && EnabledBy(r, k) && !opening && !OpeningBy(r, k, now)
    case SmartRouting(sender, requestsYield) => requestsYield && LocalBy(r, k) != Some(sender) && EnabledBy(r, k)
    case _ => false
  }

  /** This link heard a request less than ten seconds ago. */
  ghost predicate RecentBy(r: Run, k: nat, now: Millis)
    requires k <= |r.es|
  {
    exists j :: 0 <= j < k && AsksBy(r, j) && r.SameLink(j, k) && Since(now, r.es[j].now) < REQUEST_RECENT
  }

  // ---- the hold

  /** Event `j` starts or renews the hold; an ownership report on audio already given up does not. */
  ghost predicate Holds(r: Run, j: nat)
    requires j < |r.es|
  {
    AsksBy(r, j) && (r.es[j].event.OwnsConnection? ==> Yields(r.es[j].out))
  }

  /** A source report that names nobody else, with no recent request: no host renews the hold any more. */
  ghost predicate NobodyAsks(r: Run, m: nat)
    requires m < |r.es|
  {
    var e, now := r.es[m].event, r.es[m].now;
    e.AudioSource? && e.source.Known? && LocalBy(r, m).Some?
    && (e.source.status == Idle || LocalBy(r, m) == Some(e.address))
    && !OpeningBy(r, m, now) && !RecentBy(r, m, now)
  }

  /** Event `m` ends a hold: a new link or none, a take-over, a play of the user's that lasted, or nobody asking. */
  ghost predicate Frees(r: Run, m: nat)
    requires m < |r.es|
    decreases m, 3
  {
    Resets(r.es[m].event) || Takes(r.es[m].out) || PlayLasted(r, m) || NobodyAsks(r, m)
  }

  ghost predicate HoldStands(r: Run, j: nat, k: nat)
    requires j < k <= |r.es|
    decreases k, 0
  {
    Holds(r, j) && forall m :: j < m < k ==> !Frees(r, m)
  }

  /** The card was switched by somebody, or the AirPods report this host as their source. */
  predicate MovesAudio(r: Run, i: nat)
    requires i < |r.es|
  {
    var e := r.es[i].event;
    e.AudioLinkChanged?
    || (e.AudioSource? && e.source.Known? && e.source.status != Idle && LocalBy(r, i) == Some(e.address))
  }

  ghost predicate PausesAnew(r: Run, i: nat)
    requires i < |r.es|
  {
    Holds(r, i) || Repauses(r.es[i].out)
  }

  /** A hold stands, and a pause, a renewal or a change of the audio link is less than 2.5 s old. */
  ghost predicate HoldWindowBy(r: Run, k: nat, now: Millis)
    requires k <= |r.es|
    decreases k, 1
  {
    (exists j :: 0 <= j < k && HoldStands(r, j, k))
    && ((exists i :: 0 <= i < k && PausesAnew(r, i) && Since(now, r.es[i].now) < PAUSE_HOLD)
        || (exists i :: 0 <= i < k && MovesAudio(r, i) && Since(now, r.es[i].now) < AUDIO_CHANGE_HOLD))
  }

  // ---- plays

  /** The player was paused again after the last request of this link. */
  ghost predicate RepausedBy(r: Run, k: nat, p: Player)
    requires k <= |r.es|
  {
    exists j :: 0 <= j < k && RepausePlayer(p) in r.es[j].out
                && forall m :: j < m < k ==> !AsksBy(r, m) && !Resets(r.es[m].event)
  }

  /** Event `e` starts playback outside a hold window, or insists on a player that was paused again. */
  ghost predicate UserPlays(r: Run, e: nat)
    requires e < |r.es|
    decreases e, 2
  {
    var event := r.es[e].event;
    event.Playback? && event.playing && r.PlayingBy(e) == Some(false)
    && (!HoldWindowBy(r, e, r.es[e].now)
        || RepausedBy(r, e, if event.player.Some? then event.player else PlayerBy(r, e)))
  }

  ghost predicate Cuts(r: Run, m: nat)
    requires m < |r.es|
  {
    var e, out := r.es[m].event, r.es[m].out;
    Resets(e) || (e.Playback? && !e.playing) || Yields(out) || Takes(out) || Repauses(out)
    || (AsksBy(r, m) && !e.OwnsConnection?)
  }

  ghost predicate Stands(r: Run, e: nat, k: nat)
    requires e < k <= |r.es|
    decreases e, 3
  {
    UserPlays(r, e)
    && forall m :: e < m < k ==> !Cuts(r, m) && !(r.es[m].event.Tick? && r.es[m].now - r.es[e].now >= PLAY_DEBOUNCE)
  }

  /** A tick finds a play of the user's 1.5 s old. */
  ghost predicate PlayLasted(r: Run, m: nat)
    requires m < |r.es|
    decreases m, 2
  {
    r.es[m].event.Tick? && exists e :: 0 <= e < m && Stands(r, e, m) && r.es[m].now - r.es[e].now >= PLAY_DEBOUNCE
  }

  // ---- what one step does to the fields behind the windows

  ghost predicate QuietEnds(s: State, event: Event, now: Millis) {
    event.AudioSource? && event.source.Known? && s.local.Some?
    && (event.source.status == Idle || IsLocal(s, event.address))
    && !InOpening(s, now) && !RecentRequest(s, now)
  }

  ghost predicate Renews(s: State, event: Event, now: Millis, out: seq<Action>) {
    Requested(s, event, now) && (event.OwnsConnection? ==> Yields(out))
  }

  predicate Routed(s: State, event: Event) {
    event.AudioLinkChanged?
    || (event.AudioSource? && event.source.Known? && event.source.status != Idle && IsLocal(s, event.address))
  }

  ghost function OwnerAfter(s: State, event: Event, out: seq<Action>): Owner {
    match event
    case LinkOpened => Unowned
    case LinkClosed => Unowned
    case OwnsConnection(owns, _) => if owns then Here else Elsewhere
    case AudioSource(address, source) =>
      if source.Raw? || s.local.None? || source.status == Idle then s.owner
      else if IsLocal(s, address) then Here else Elsewhere
    case SmartRouting(sender, requestsYield) => if requestsYield && !IsLocal(s, sender) then Elsewhere else s.owner
    case Yield => Elsewhere
    case _ => if Takes(out) then Here else s.owner
  }

  ghost predicate OwnerMoves(s: State, event: Event, out: seq<Action>, t: State) {
    t.owner == OwnerAfter(s, event, out) && t.takeOverOnPlay == s.takeOverOnPlay
    && t.linkUp == (if event.LinkOpened? then true else if event.LinkClosed? then false else s.linkUp)
  }

  ghost predicate LatestMoves(s: State, event: Event, now: Millis, t: State) {
    t.local == (if event.SetLocal? then Some(event.adapter) else s.local)
    && t.enabled == (if event.SetEnabled? then event.on else s.enabled)
    && t.playingPlayer == (if event.Playback? then PlayerAfter(s, event) else s.playingPlayer)
    && t.openedAt == (if event.LinkOpened? then Some(now) else if event.LinkClosed? then None else s.openedAt)
    && (t.openingSettled <==> !Resets(event) && (event.OpeningSettled? || s.openingSettled))
  }

  ghost predicate HoldMoves(s: State, event: Event, now: Millis, out: seq<Action>, t: State) {
    t.lastRequest == (if Resets(event) then None else if Requested(s, event, now) then Some(now) else s.lastRequest)
    && t.audioChanged == (if Routed(s, event) then Some(now) else s.audioChanged)
    && t.holdFrom == (if Resets(event) then None
                      else if Renews(s, event, now, out) || Repauses(out) then Some(now) else s.holdFrom)
    && (t.held <==> Renews(s, event, now, out)
                    || (s.held && !Resets(event) && !Takes(out) && !EdgeDue(s, event, now)
                        && !QuietEnds(s, event, now)))
  }

  ghost predicate WindowMoves(s: State, event: Event, now: Millis, n: Next) {
    LatestMoves(s, event, now, n.state) && OwnerMoves(s, event, n.out, n.state)
    && HoldMoves(s, event, now, n.out, n.state)
  }

  lemma NoOut()
    ensures !Takes([]) && !Yields([]) && !Repauses([])
  {}

  /** A source report that names nobody else, before it does anything to the hold. */
  lemma QuietSteps(s: State, e: Event, now: Millis, u: State)
    requires e.AudioSource? && e.source.Known? && s.local.Some? && (e.source.status == Idle || IsLocal(s, e.address))
    requires u == s.(audioSource := u.audioSource, owner := u.owner, audioChanged := u.audioChanged)
    requires u.owner == if Routed(s, e) then Here else s.owner
    requires u.audioChanged == if Routed(s, e) then Some(now) else s.audioChanged
    ensures !s.held || InOpening(s, now) || RecentRequest(s, now) ==> WindowMoves(s, e, now, Next(u, []))
    ensures !InOpening(s, now) && !RecentRequest(s, now) ==> WindowMoves(s, e, now, Next(u.(held := false), []))
    ensures RecentRequest(s, now) ==> WindowMoves(s, e, now, Repause(u, now))
  {
    RepauseOut(u, now);
    NoOut();
    assert !Requested(s, e, now) && !EdgeDue(s, e, now);
    hide Repause, InOpening, RecentRequest, Requested, EdgeDue, Routed, Takes, Yields, Repauses;
  }

  lemma QuietHolds(s: State, e: Event, now: Millis)
    requires e.AudioSource? && e.source.Known? && s.local.Some? && (e.source.status == Idle || IsLocal(s, e.address))
    ensures var t := s.(audioSource := Some(Source(e.address, e.source.status)));
      WindowMoves(s, e, now, OnQuietSource(t, e.address, e.source.status, now))
  {
    var t := s.(audioSource := Some(Source(e.address, e.source.status)));
    var u :=
      if IsLocal(t, e.address) && e.source.status != Idle then t.(owner := Here, audioChanged := Some(now)) else t;
    QuietSteps(s, e, now, u);
    assert InOpening(u, now) == InOpening(s, now) && RecentRequest(u, now) == RecentRequest(s, now);
    hide WindowMoves, Repause, InOpening, RecentRequest, MayRepause;
  }

  lemma ForeignSteps(s: State, e: Event, now: Millis, u: State)
    requires e.AudioSource? && e.source.Known? && s.local.Some? && e.source.status != Idle && !IsLocal(s, e.address)
    requires u == s.(audioSource := u.audioSource, owner := Elsewhere)
    ensures if Requested(s, e, now)
            then WindowMoves(s, e, now, Next(RenewHold(NoteRequest(u, now), now), []))
                 && WindowMoves(s, e, now, YieldSteps(u, now, true, GaveUp, Some(e.address)))
            else WindowMoves(s, e, now, Next(u, []))
  {
    YieldOut(u, now, true, GaveUp, Some(e.address));
    NoOut();
    assert !Routed(s, e) && !QuietEnds(s, e, now) && !EdgeDue(s, e, now);
    hide YieldSteps, Requested, Routed, QuietEnds, EdgeDue, Takes, Yields, Repauses;
  }

  lemma ForeignHolds(s: State, e: Event, now: Millis)
    requires e.AudioSource? && e.source.Known? && s.local.Some? && e.source.status != Idle && !IsLocal(s, e.address)
    ensures WindowMoves(s, e, now, OnAudioSource(s, e.address, e.source, now))
  {
    ForeignSteps(s, e, now, s.(audioSource := Some(Source(e.address, e.source.status)), owner := Elsewhere));
    hide YieldSteps, InOpening, WindowMoves;
  }

  lemma SourceHolds(s: State, e: Event, now: Millis)
    requires e.AudioSource?
    ensures WindowMoves(s, e, now, OnAudioSource(s, e.address, e.source, now))
  {
    if e.source.Known? && s.local.Some? {
      if e.source.status == Idle || IsLocal(s, e.address) {
        QuietHolds(s, e, now);
      } else {
        ForeignHolds(s, e, now);
      }
      hide WindowMoves;
    }
    hide OnQuietSource, YieldSteps, InOpening;
  }

  lemma DisownedHolds(s: State, opening: bool, now: Millis)
    ensures WindowMoves(s, OwnsConnection(false, opening), now, OnDisowned(s, opening, now))
  {
    var t := s.(owner := Elsewhere);
    if Requested(s, OwnsConnection(false, opening), now) && !s.released {
      YieldOut(t, now, false, GaveUp, ActiveOtherSource(t));
    }
    hide YieldSteps, InOpening, ActiveOtherSource, QuietEnds, Routed, EdgeDue;
  }

  lemma RoutingHolds(s: State, sender: Address, requestsYield: bool, now: Millis)
    ensures WindowMoves(s, SmartRouting(sender, requestsYield), now, OnSmartRouting(s, sender, requestsYield, now))
  {
    var t := s.(owner := Elsewhere);
    YieldOut(t, now, true, GaveUpOnRequest, Some(sender));
    RepauseOut(RenewHold(NoteRequest(t, now), now), now);
    hide YieldSteps, Repause;
  }

  lemma StartHolds(s: State, e: Event, now: Millis, t: State)
    requires e.Playback? && t == Reading(s, e.playing, e.app, e.player, now)
    ensures WindowMoves(s, e, now, OnPlayStarted(t, now))
  {
    RepauseOut(t, now);
    AnnounceOut(t.(playEdge := Some(now), stoppedAt := None), true);
    NoOut();
    assert !Requested(s, e, now) && !Routed(s, e) && !QuietEnds(s, e, now) && !EdgeDue(s, e, now);
    hide Requested, Routed, QuietEnds, EdgeDue, Takes, Yields, Repauses;
    hide Repause, Announce, InHoldWindow, MayRepause, OwnsAudio;
  }

  lemma PlaybackHolds(s: State, e: Event, now: Millis)
    requires e.Playback?
    ensures WindowMoves(s, e, now, OnPlayback(s, e.playing, e.app, e.player, now))
  {
    var t := Reading(s, e.playing, e.app, e.player, now);
    if s.playing == Some(false) && e.playing {
      StartHolds(s, e, now, t);
      hide WindowMoves, Reading;
    }
    NoOut();
    hide OnPlayStarted, Takes, Yields, Repauses;
  }

  lemma TransportHolds(s: State, active: bool, now: Millis)
    ensures WindowMoves(s, A2dpTransport(active), now, OnTransport(s, active))
  {
    var u := s.(transportActive := Some(active), streamCheck := None);
    AnnounceOut(u, true);
    AnnounceOut(u.(reannounce := false), true);
    NoOut();
    hide Announce, OwnsAudio, Takes, Yields, Repauses;
  }

  lemma StopFrame(s: State, now: Millis)
    ensures var b := StopTick(s, now);
      b.state == s.(stoppedAt := b.state.stoppedAt, announced := b.state.announced) && !Repauses(b.out) && !Takes(b.out)
  {
    AnnounceOut(s.(stoppedAt := None), false);
    hide Announce, OwnsAudio;
  }

  lemma EdgeFrame(s: State, now: Millis)
    ensures var c := EdgeTick(s, now);
      c.state == s.(playEdge := c.state.playEdge, held := c.state.held, owner := c.state.owner,
                    released := c.state.released, stoppedAt := c.state.stoppedAt,
                    tookOverAt := c.state.tookOverAt, streamCheck := c.state.streamCheck,
                    reannounce := c.state.reannounce, announced := c.state.announced)
      && (c.state.held <==> s.held && !EdgeDue(s, Tick, now))
      && c.state.owner == (if Takes(c.out) then Here else s.owner)
      && (Takes(c.out) ==> EdgeDue(s, Tick, now)) && !Repauses(c.out)
  {
    TakeOut(s.(playEdge := None, held := false), now);
    hide TakeOverSteps, OtherInCall, OwnedElsewhere;
  }

  lemma TickHolds(s: State, now: Millis)
    requires Sound(s)
    ensures WindowMoves(s, Tick, now, OnTick(s, now))
  {
    TickMoved(s, now);
    StopFrame(StreamTick(s, now).state, now);
    StreamTickFrame(s, now);
    EdgeFrame(StopTick(StreamTick(s, now).state, now).state, now);
    hide StreamTick, StopTick, EdgeTick;
  }

  lemma PlainHolds(s: State, e: Event, now: Millis)
    requires e.LinkOpened? || e.OpeningSettled? || e.LinkClosed? || e.ConnectedDevices? || e.AudioLinkChanged?
             || e.SetLocal? || e.SetEnabled? || (e.OwnsConnection? && e.owns)
    ensures WindowMoves(s, e, now, Step(s, e, now))
  {
    hide InOpening, OwnsAudio;
  }

  lemma TakeHolds(s: State, now: Millis)
    ensures WindowMoves(s, TakeOver, now, TakeOverSteps(s, now))
  {
    TakeOut(s, now);
    hide TakeOverSteps;
  }

  lemma YieldHolds(s: State, now: Millis)
    ensures WindowMoves(s, Yield, now, YieldSteps(s, now, true, GaveUp, None))
  {
    YieldOut(s, now, true, GaveUp, None);
    hide YieldSteps;
  }

  lemma HoldMoved(s: State, event: Event, now: Millis)
    requires Sound(s)
    ensures WindowMoves(s, event, now, Step(s, event, now))
  {
    hide WindowMoves, OnTick, OnPlayback, OnAudioSource, OnDisowned, OnSmartRouting, OnTransport;
    match event
    case Tick => TickHolds(s, now);
    case Playback(_, _, _) => PlaybackHolds(s, event, now);
    case AudioSource(_, _) => SourceHolds(s, event, now);
    case OwnsConnection(owns, opening) =>
      if owns {
        PlainHolds(s, event, now);
      } else {
        DisownedHolds(s, opening, now);
      }
    case SmartRouting(sender, requestsYield) => RoutingHolds(s, sender, requestsYield, now);
    case A2dpTransport(active) => TransportHolds(s, active, now);
    case TakeOver => TakeHolds(s, now);
    case Yield => YieldHolds(s, now);
    case _ => PlainHolds(s, event, now);
  }

  // ---- the windows are what the history says

  /** The step behind event `k`. */
  lemma Stepped(r: Run, k: nat)
    requires r.Valid() && k < |r.es|
    ensures WindowMoves(r.At(k), r.es[k].event, r.es[k].now, Next(r.es[k].post, r.es[k].out))
  {
    hide Step, WindowMoves;
    SoundAt(r, k);
    assert r.Linked(k);
    HoldMoved(r.At(k), r.es[k].event, r.es[k].now);
  }

  /** Settings, the last named player and the opening window are what the latest events said. */
  lemma {:induction false} LatestFollowsEvents(r: Run, k: nat)
    requires r.Valid() && k <= |r.es|
    ensures r.At(k).local == LocalBy(r, k) && r.At(k).enabled == EnabledBy(r, k)
    ensures r.At(k).playingPlayer == PlayerBy(r, k)
    ensures r.At(k).openedAt == OpenedBy(r, k) && (r.At(k).openingSettled <==> SettledBy(r, k))
  {
    if k > 0 {
      LatestFollowsEvents(r, k - 1);
      Stepped(r, k - 1);
      hide HoldMoves;
    }
  }

  /** Reports belong to the opening dump exactly when the link's opening, by the events, is recent enough. */
  lemma InOpeningIff(r: Run, k: nat, now: Millis)
    requires r.Valid() && k <= |r.es|
    ensures InOpening(r.At(k), now) <==> OpeningBy(r, k, now)
  {
    LatestFollowsEvents(r, k);
  }

  /** What the machine takes for a request is one by the history of the run. */
  lemma AsksIff(r: Run, k: nat)
    requires r.Valid() && k < |r.es|
    ensures r.Asks(k) <==> AsksBy(r, k)
  {
    LatestFollowsEvents(r, k);
    ReadingsFollowEvents(r, k);
    InOpeningIff(r, k, r.es[k].now);
    hide InOpening, OpeningBy, OpenedBy, SettledBy, LocalBy, EnabledBy, Run.SourceBy, Run.Valid;
  }

  lemma AskingIsNoReset(r: Run, k: nat)
    requires k < |r.es| && AsksBy(r, k)
    ensures !Resets(r.es[k].event)
  {}

  lemma {:induction false} RequestRemembered(r: Run, k: nat)
    requires r.Valid() && k <= |r.es|
    ensures r.At(k).lastRequest.Some? ==>
      exists j :: 0 <= j < k && AsksBy(r, j) && r.SameLink(j, k) && r.At(k).lastRequest == Some(r.es[j].now)
    ensures forall j :: 0 <= j < k && AsksBy(r, j) && r.SameLink(j, k) ==>
      r.At(k).lastRequest.Some? && r.At(k).lastRequest.value >= r.es[j].now
  {
    hide AsksBy, LatestMoves, Requested;
    if k > 0 {
      RequestRemembered(r, k - 1);
      Stepped(r, k - 1);
      AsksIff(r, k - 1);
      if AsksBy(r, k - 1) { AskingIsNoReset(r, k - 1); }
      var last := r.At(k).lastRequest;
      if last.Some? {
        if AsksBy(r, k - 1) {
          assert r.SameLink(k - 1, k);
        } else {
          var j :| 0 <= j < k - 1 && AsksBy(r, j) && r.SameLink(j, k - 1) && last == Some(r.es[j].now);
          assert r.SameLink(j, k);
        }
      }
      forall j | 0 <= j < k && AsksBy(r, j) && r.SameLink(j, k) ensures last.Some? && last.value >= r.es[j].now {
        if j < k - 1 {
          assert r.SameLink(j, k - 1);
          assert !Resets(r.es[k - 1].event);
        }
      }
    }
  }

  lemma RecentRequestIff(r: Run, k: nat, now: Millis)
    requires r.Valid() && k <= |r.es|
    ensures RecentRequest(r.At(k), now) <==> RecentBy(r, k, now)
  {
    hide AsksBy, Run.Valid, Run.SameLink;
    RequestRemembered(r, k);
  }

  // ---- holds and plays

  /** The players remembered as paused again are those paused again since the last request or link change. */
  lemma RepausedIff(r: Run, k: nat, p: Player)
    requires r.Valid() && k <= |r.es|
    ensures p in r.At(k).repaused <==> RepausedBy(r, k, p)
  {
    hide AsksBy, Requested, Run.Valid;
    forall m | 0 <= m < k ensures r.Asks(m) <==> AsksBy(r, m) { AsksIff(r, m); }
    if p in r.At(k).repaused {
      var j := RepausedHasSource(r, k, p);
      assert RepausePlayer(p) in r.es[j].out;
    }
    if RepausedBy(r, k, p) {
      var j: nat :| j < k && RepausePlayer(p) in r.es[j].out
                    && forall m :: j < m < k ==> !AsksBy(r, m) && !Resets(r.es[m].event);
      RepausedRemembered(r, j, k, p);
    }
  }

  lemma CutsIff(r: Run, m: nat)
    requires r.Valid() && m < |r.es|
    ensures r.Disturbed(m) <==> Cuts(r, m)
  {
    hide AsksBy, Requested, Run.Valid, Yields, Takes, Repauses;
    AsksIff(r, m);
  }

  lemma HoldsIff(r: Run, j: nat)
    requires r.Valid() && j < |r.es|
    ensures Renews(r.At(j), r.es[j].event, r.es[j].now, r.es[j].out) <==> Holds(r, j)
  {
    hide AsksBy, Requested, Run.Valid, Yields;
    AsksIff(r, j);
  }

  lemma NobodyAsksIff(r: Run, m: nat)
    requires r.Valid() && m < |r.es|
    ensures QuietEnds(r.At(m), r.es[m].event, r.es[m].now) <==> NobodyAsks(r, m)
  {
    hide InOpening, OpeningBy, RecentRequest, RecentBy, Run.Valid, LocalBy;
    LatestFollowsEvents(r, m);
    InOpeningIff(r, m, r.es[m].now);
    RecentRequestIff(r, m, r.es[m].now);
  }

  lemma {:induction false} HeldIff(r: Run, k: nat)
    requires r.Valid() && k <= |r.es|
    ensures r.At(k).held <==> exists j :: 0 <= j < k && HoldStands(r, j, k)
    decreases k, 0
  {
    hide Holds, Frees, QuietEnds, NobodyAsks, PlayLasted, EdgeDue, LatestMoves, Renews, Run.Valid;
    if k > 0 {
      HeldIff(r, k - 1);
      HeldStep(r, k - 1);
      if Holds(r, k - 1) {
        assert HoldStands(r, k - 1, k);
      } else if !Frees(r, k - 1) && r.At(k - 1).held {
        var j :| 0 <= j < k - 1 && HoldStands(r, j, k - 1);
        assert HoldStands(r, j, k);
      }
      if j :| 0 <= j < k && HoldStands(r, j, k) {
        assert j < k - 1 ==> HoldStands(r, j, k - 1) && !Frees(r, k - 1);
      }
    } else {
      NotHeldAtFirst(r);
    }
  }

  lemma NotHeldAtFirst(r: Run)
    requires r.Valid()
    ensures !r.At(0).held
  {}

  lemma HeldStep(r: Run, m: nat)
    requires r.Valid() && m < |r.es|
    ensures r.At(m + 1).held <==> Holds(r, m) || (r.At(m).held && !Frees(r, m))
    decreases m, 5
  {
    hide Holds, QuietEnds, NobodyAsks, PlayLasted, EdgeDue, LatestMoves, Renews, Run.Valid, Takes, Repauses, Requested;
    Stepped(r, m);
    HoldsIff(r, m);
    NobodyAsksIff(r, m);
    PlayLastedIff(r, m);
  }

  lemma PlayLastedIff(r: Run, m: nat)
    requires r.Valid() && m < |r.es|
    ensures EdgeDue(r.At(m), r.es[m].event, r.es[m].now) <==> PlayLasted(r, m)
    decreases m, 4
  {
    hide Run.PlayStands, Stands, Run.Valid;
    SoundAt(r, m);
    if EdgeDue(r.At(m), r.es[m].event, r.es[m].now) {
      var e := EdgeIsStanding(r, m);
      StandsIff(r, e, m);
    }
    if PlayLasted(r, m) {
      var e: nat :| e < m && Stands(r, e, m) && r.es[m].now - r.es[e].now >= PLAY_DEBOUNCE;
      StandsIff(r, e, m);
      EdgeRemembered(r, e, m);
    }
  }

  lemma StandsIff(r: Run, e: nat, k: nat)
    requires r.Valid() && e < k <= |r.es|
    ensures r.PlayStands(e, k) <==> Stands(r, e, k)
    decreases e, 3
  {
    hide UserPlay, UserPlays, Run.Disturbed, Cuts, Run.Valid;
    UserPlaysIff(r, e);
    forall m | e < m < k ensures r.Disturbed(m) <==> Cuts(r, m) { CutsIff(r, m); }
  }

  /** A start of playback is taken for the user's exactly when the history makes it one. */
  lemma UserPlaysIff(r: Run, e: nat)
    requires r.Valid() && e < |r.es|
    ensures UserPlay(r.At(e), r.es[e].event, r.es[e].now) <==> UserPlays(r, e)
    decreases e, 2
  {
    hide InHoldWindow, HoldWindowBy, RepausedBy, PlayerBy, Run.PlayingBy, Run.Valid;
    var event := r.es[e].event;
    LatestFollowsEvents(r, e);
    ReadingsFollowEvents(r, e);
    InHoldWindowIff(r, e, r.es[e].now);
    if event.Playback? {
      RepausedIff(r, e, if event.player.Some? then event.player else PlayerBy(r, e));
    }
  }

  /**
   A start of playback counts as a player resuming itself exactly while a request or a yield stands unanswered by a
   take-over, a lasting play, a new link or a quiet source, and a pause, a renewal or a change of the audio link is less
   than 2.5 s old.
   */
  lemma InHoldWindowIff(r: Run, k: nat, now: Millis)
    requires r.Valid() && k <= |r.es|
    ensures InHoldWindow(r.At(k), now) <==> HoldWindowBy(r, k, now)
    decreases k, 1
  {
    hide PausesAnew, MovesAudio, Run.Valid, Holds, Frees;
    HeldIff(r, k);
    AudioRemembered(r, k);
    PauseRemembered(r, k);
    var s := r.At(k);
    if InHoldWindow(s, now) {
      if Within(now, s.holdFrom, PAUSE_HOLD) {
        var i :| 0 <= i < k && PausesAnew(r, i) && s.holdFrom == Some(r.es[i].now);
        assert Since(now, r.es[i].now) < PAUSE_HOLD;
      } else {
        var i :| 0 <= i < k && MovesAudio(r, i) && s.audioChanged == Some(r.es[i].now);
        assert Since(now, r.es[i].now) < AUDIO_CHANGE_HOLD;
      }
    }
    if HoldWindowBy(r, k, now) {
      var i := WindowParts(r, k, now);
      assert PausesAnew(r, i) ==> Within(now, s.holdFrom, PAUSE_HOLD);
    }
  }

  lemma WindowParts(r: Run, k: nat, now: Millis) returns (i: nat)
    requires k <= |r.es| && HoldWindowBy(r, k, now)
    ensures exists j :: 0 <= j < k && HoldStands(r, j, k)
    ensures i < k && ((PausesAnew(r, i) && Since(now, r.es[i].now) < PAUSE_HOLD)
                      || (MovesAudio(r, i) && Since(now, r.es[i].now) < AUDIO_CHANGE_HOLD))
  {
    hide HoldStands, PausesAnew, MovesAudio;
    if j :| 0 <= j < k && PausesAnew(r, j) && Since(now, r.es[j].now) < PAUSE_HOLD {
      i := j;
    } else {
      i :| 0 <= i < k && MovesAudio(r, i) && Since(now, r.es[i].now) < AUDIO_CHANGE_HOLD;
    }
  }

  lemma {:induction false} AudioRemembered(r: Run, k: nat)
    requires r.Valid() && k <= |r.es|
    ensures r.At(k).audioChanged.Some? ==>
      exists i :: 0 <= i < k && MovesAudio(r, i) && r.At(k).audioChanged == Some(r.es[i].now)
    ensures forall i :: 0 <= i < k && MovesAudio(r, i) ==>
      r.At(k).audioChanged.Some? && r.At(k).audioChanged.value >= r.es[i].now
  {
    hide LatestMoves, Requested, Renews, EdgeDue, QuietEnds, LocalBy;
    if k > 0 {
      AudioRemembered(r, k - 1);
      Stepped(r, k - 1);
      LatestFollowsEvents(r, k - 1);
      assert MovesAudio(r, k - 1) <==> Routed(r.At(k - 1), r.es[k - 1].event);
      hide MovesAudio, Routed;
    }
  }

  /** Under a hold the last pause or renewal of the run is one of this link. */
  lemma {:induction false} PauseRemembered(r: Run, k: nat)
    requires r.Valid() && k <= |r.es|
    ensures r.At(k).holdFrom.Some? ==>
      exists i :: 0 <= i < k && PausesAnew(r, i) && r.At(k).holdFrom == Some(r.es[i].now)
    ensures r.At(k).held ==> forall i :: 0 <= i < k && PausesAnew(r, i) ==>
      r.At(k).holdFrom.Some? && r.At(k).holdFrom.value >= r.es[i].now
  {
    hide LatestMoves, Requested, EdgeDue, QuietEnds, Holds, Renews, Repauses, Takes;
    if k > 0 {
      PauseRemembered(r, k - 1);
      Stepped(r, k - 1);
      HoldsIff(r, k - 1);
      if Holds(r, k - 1) { HoldIsNoReset(r, k - 1); }
    }
  }

  lemma HoldIsNoReset(r: Run, k: nat)
    requires k < |r.es| && Holds(r, k)
    ensures !Resets(r.es[k].event)
  {}

  // ---- take-overs

  lemma {:induction false} OwnerFollowsEvents(r: Run, k: nat)
    requires r.Valid() && k <= |r.es|
    ensures r.At(k).owner == OwnerBy(r, k) && r.At(k).takeOverOnPlay == r.init.takeOverOnPlay
    ensures r.At(k).linkUp <==> OpenedBy(r, k).Some?
  {
    hide LatestMoves, HoldMoves, Takes;
    if k > 0 {
      OwnerFollowsEvents(r, k - 1);
      LatestFollowsEvents(r, k - 1);
      Stepped(r, k - 1);
    }
  }

  /**
   A tick takes the audio over exactly when a play of the user's has stood undisturbed for 1.5 s, no earlier tick has
   found it due, and the history allows it: every condition is about events and answers of the run.
   */
  lemma TickTakesByHistory(r: Run, k: nat)
    requires r.Valid() && k < |r.es| && r.es[k].event.Tick?
    ensures Takes(r.es[k].out)
       <==> TakeOverAllowed(r, k)
            && exists e :: 0 <= e < k && Stands(r, e, k) && r.es[k].now - r.es[e].now >= PLAY_DEBOUNCE
  {
    hide Stands, Run.PlayStands, Takes, MayTakeOver, TakeOverAllowed;
    TickTakesIff(r, k);
    AllowedIff(r, k);
    forall e: nat | e < k ensures r.PlayStands(e, k) <==> Stands(r, e, k) { StandsIff(r, e, k); }
  }

  lemma AllowedIff(r: Run, k: nat)
    requires r.Valid() && k <= |r.es|
    ensures MayTakeOver(r.At(k)) <==> TakeOverAllowed(r, k)
  {
    OwnerFollowsEvents(r, k);
    LatestFollowsEvents(r, k);
    ReadingsFollowEvents(r, k);
    RouteFollowsRelease(r, k);
    hide OwnerBy, LocalBy, EnabledBy, OpenedBy, Run.SourceBy, Run.RouteBy, Run.Valid;
  }
}
