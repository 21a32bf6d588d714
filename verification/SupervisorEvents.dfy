/**
 What the supervisor passes on: every input, in the phase it is handled in, tells each part exactly the events it
 carries, at its clock reading, and no part is told anything else.
 */
module SupervisorEvents {
  import opened Prelude
  import opened Supervisor
  import opened SupervisorCrews
  import opened SupervisorSteps
  import Settings
  import Codec
  import Rejoin
  import RejoinRuns
  import AutoConnect
  import AutoConnectRuns
  import Handoff
  import HandoffRuns
  import EarMedia
  import EarMediaRuns
  import Store
  import StoreRuns

  // ---- what is told

  /** What one step tells the five parts, each in order. */
  datatype Carried = Carried(rejoin: seq<Rejoin.Event>, auto: seq<AutoConnect.Event>, handoff: seq<Handoff.Event>,
                             ear: seq<EarMedia.Event>, store: seq<Store.Update>)

  const NOTHING := Carried([], [], [], [], [])

  function Plus(a: Carried, b: Carried): Carried {
    Carried(a.rejoin + b.rejoin, a.auto + b.auto, a.handoff + b.handoff, a.ear + b.ear, a.store + b.store)
  }

  function RejoinTold(log: seq<RejoinRuns.Entry>): seq<(Rejoin.Event, Millis)> {
    seq(|log|, i requires 0 <= i < |log| => (log[i].event, log[i].now))
  }

  function AutoTold(log: seq<AutoConnectRuns.Entry>): seq<(AutoConnect.Event, Millis)> {
    seq(|log|, i requires 0 <= i < |log| => (log[i].event, log[i].now))
  }

  function HandoffTold(log: seq<HandoffRuns.Entry>): seq<(Handoff.Event, Millis)> {
    seq(|log|, i requires 0 <= i < |log| => (log[i].event, log[i].now))
  }

  function EarTold(log: seq<EarMediaRuns.Entry>): seq<(EarMedia.Event, Millis)> {
    seq(|log|, i requires 0 <= i < |log| => (log[i].event, log[i].now))
  }

  /** The updates of the store but for the announcements of the reconnect sequence, which no input carries. */
  function StoreTold(log: seq<StoreRuns.Entry>): seq<Store.Update> {
    if log == [] then []
    else StoreTold(log[..|log| - 1])
         + if log[|log| - 1].update.SetActivity? then [] else [log[|log| - 1].update]
  }

  /** All of `events` at one clock reading. */
  function Stamped<E>(events: seq<E>, now: Millis): seq<(E, Millis)> {
    seq(|events|, i requires 0 <= i < |events| => (events[i], now))
  }

  /** From `s` to `t` the parts are told exactly `x`, at the clock reading `now`. */
  ghost predicate Tells(s: State, t: State, x: Carried, now: Millis) {
    RejoinTold(t.log.rejoin) == RejoinTold(s.log.rejoin) + Stamped(x.rejoin, now)
    && AutoTold(t.log.auto) == AutoTold(s.log.auto) + Stamped(x.auto, now)
    && HandoffTold(t.desk.log.handoff) == HandoffTold(s.desk.log.handoff) + Stamped(x.handoff, now)
    && EarTold(t.desk.log.ear) == EarTold(s.desk.log.ear) + Stamped(x.ear, now)
    && StoreTold(t.log.store) == StoreTold(s.log.store) + x.store
  }

  /** So they are, and meanwhile no worker is lost. */
  ghost predicate Hears(s: State, t: State, x: Carried, now: Millis) {
    Tells(s, t, x, now) && (Manned(s) ==> Manned(t))
  }

  /** Neither a machine nor its workers have moved. */
  predicate SameCrews(s: State, t: State) {
    t.rejoin == s.rejoin && t.auto == s.auto && t.rejoinCrew == s.rejoinCrew && t.autoCrew == s.autoCrew
  }

  lemma StampedPlus<E>(a: seq<E>, b: seq<E>, now: Millis)
    ensures Stamped(a + b, now) == Stamped(a, now) + Stamped(b, now)
  {}

  lemma TellsThen(s: State, t: State, u: State, x: Carried, y: Carried, now: Millis)
    requires Tells(s, t, x, now) && Tells(t, u, y, now)
    ensures Tells(s, u, Plus(x, y), now)
  {
    StampedPlus(x.rejoin, y.rejoin, now);
    StampedPlus(x.auto, y.auto, now);
    StampedPlus(x.handoff, y.handoff, now);
    StampedPlus(x.ear, y.ear, now);
  }

  lemma HearsThen(s: State, t: State, u: State, x: Carried, y: Carried, now: Millis)
    requires Hears(s, t, x, now) && Hears(t, u, y, now)
    ensures Hears(s, u, Plus(x, y), now)
  {
    hide Tells, Manned, Plus;
    TellsThen(s, t, u, x, y, now);
  }

  /** The same, with the sum written out. */
  lemma Then(s: State, t: State, u: State, x: Carried, y: Carried, z: Carried, now: Millis)
    requires Hears(s, t, x, now) && Hears(t, u, y, now) && z == Plus(x, y)
    ensures Hears(s, u, z, now)
  {
    hide Hears, Plus;
    HearsThen(s, t, u, x, y, now);
  }

  /** What touches no log and no worker tells nothing more. */
  lemma Still(s: State, t: State, u: State, x: Carried, now: Millis)
    requires Hears(s, t, x, now) && u.log == t.log && u.desk.log == t.desk.log && SameCrews(t, u)
    ensures Hears(s, u, x, now)
  {
    hide RejoinManned, AutoManned;
  }

  lemma HearsNothing(s: State, t: State, now: Millis)
    requires t.log == s.log && t.desk.log == s.desk.log && SameCrews(s, t)
    ensures Hears(s, t, NOTHING, now)
  {
    hide RejoinManned, AutoManned;
  }

  // ---- telling one part

  predicate Same(s: State, t: State) {
    t.host == s.host && t.radio == s.radio && t.timers == s.timers && t.phase == s.phase
    && t.desk.route == s.desk.route && t.desk.playback == s.desk.playback
  }

  lemma ApplyTells(s: State, update: Store.Update, now: Millis)
    ensures Hears(s, Apply(s, update), if update.SetActivity? then NOTHING else Carried([], [], [], [], [update]), now)
    ensures Same(s, Apply(s, update)) && Apply(s, update).desk == s.desk && Apply(s, update).rejoin == s.rejoin
  {
    var log := s.log.store + [StoreRuns.Entry(update, Store.Step(s.store, update))];
    assert log[..|log| - 1] == s.log.store;
    hide Store.Step, RejoinManned, AutoManned;
  }

  lemma HandoffTells(s: State, event: Handoff.Event, c: Clock)
    ensures Hears(s, HandoffEvent(s, event, c), Carried([], [], [event], [], []), c.now)
    ensures Same(s, HandoffEvent(s, event, c)) && HandoffEvent(s, event, c).rejoin == s.rejoin
    ensures HandoffEvent(s, event, c).store == s.store
  {
    hide Handoff.Step, Queued, RejoinManned, AutoManned;
  }

  lemma EarTells(s: State, event: EarMedia.Event, c: Clock)
    ensures Hears(s, EarEvent(s, event, c), Carried([], [], [], [event], []), c.now)
    ensures Same(s, EarEvent(s, event, c)) && EarEvent(s, event, c).rejoin == s.rejoin
    ensures EarEvent(s, event, c).store == s.store
  {
    hide EarMedia.Step, AudioOnAirPods, RejoinManned, AutoManned;
  }

  lemma PublishTells(s: State, c: Clock)
    ensures Hears(s, PublishLink(s, c), NOTHING, c.now) && Same(s, PublishLink(s, c))
    ensures PublishLink(s, c).rejoin == s.rejoin && PublishLink(s, c).desk == s.desk
  {
    hide NextSequence, Shown, Apply;
    var sequence := NextSequence(s, c);
    var view := Shown(s.rejoin, s.auto, sequence);
    var t := s.(panel := s.panel.(sequence := sequence, published := view));
    HearsNothing(s, t, c.now);
    ApplyTells(t, Store.SetActivity(view), c.now);
    HearsThen(s, t, Apply(t, Store.SetActivity(view)), NOTHING, NOTHING, c.now);
    PlusNothing(NOTHING);
  }

  lemma PlusNothing(x: Carried)
    ensures Plus(NOTHING, x) == x && Plus(x, NOTHING) == x
  {}

  /** A machine about to hear an outcome has lost the worker that brings it, and no other. */
  ghost predicate RejoinReady(s: State, event: Rejoin.Event) {
    AutoManned(s.autoCrew, s.auto, s.log.auto)
    && if event.ConnectFinished? then RejoinShort(s.rejoinCrew, s.rejoin, s.log.rejoin, event.seqNo)
       else RejoinManned(s.rejoinCrew, s.rejoin, s.log.rejoin)
  }

  ghost predicate AutoReady(s: State, event: AutoConnect.Event) {
    RejoinManned(s.rejoinCrew, s.rejoin, s.log.rejoin)
    && if event.ConnectFinished? then AutoShort(s.autoCrew, s.auto, s.log.auto, event.seqNo)
       else AutoManned(s.autoCrew, s.auto, s.log.auto)
  }

  lemma RejoinFoldTells(s: State, event: Rejoin.Event, c: Clock)
    ensures Tells(s, RejoinFold(s, event, c), ToRejoin(event), c.now) && Same(s, RejoinFold(s, event, c))
    ensures RejoinReady(s, event) ==> Manned(RejoinFold(s, event, c))
    ensures RejoinFold(s, event, c).desk == s.desk
    ensures RejoinFold(s, event, c).rejoin == Rejoin.Step(s.rejoin, event, c.now).state
  {
    hide Rejoin.Step, RejoinActs, RejoinManned, AutoManned, RejoinShort;
    if RejoinReady(s, event) {
      RejoinFoldMans(s, event, c);
    }
  }

  /** Hearing an event, or an outcome whose worker has just left. */
  lemma RejoinHears(s: State, event: Rejoin.Event, c: Clock)
    ensures Tells(s, RejoinEvent(s, event, c), ToRejoin(event), c.now)
    ensures RejoinReady(s, event) ==> Manned(RejoinEvent(s, event, c))
    ensures Same(s, RejoinEvent(s, event, c)) && RejoinEvent(s, event, c).desk == s.desk
    ensures RejoinEvent(s, event, c).rejoin == Rejoin.Step(s.rejoin, event, c.now).state
  {
    hide Rejoin.Step, RejoinFold, PublishLink, Tells, Manned, RejoinReady;
    var t := RejoinFold(s, event, c);
    RejoinFoldTells(s, event, c);
    PublishTells(t, c);
    TellsThen(s, t, PublishLink(t, c), ToRejoin(event), NOTHING, c.now);
    PlusNothing(ToRejoin(event));
  }

  lemma RejoinTells(s: State, event: Rejoin.Event, c: Clock)
    requires !event.ConnectFinished?
    ensures Hears(s, RejoinFold(s, event, c), ToRejoin(event), c.now) && Same(s, RejoinFold(s, event, c))
    ensures Hears(s, RejoinEvent(s, event, c), ToRejoin(event), c.now)
    ensures Same(s, RejoinEvent(s, event, c)) && RejoinEvent(s, event, c).desk == s.desk
    ensures RejoinEvent(s, event, c).rejoin == Rejoin.Step(s.rejoin, event, c.now).state
  {
    hide Rejoin.Step, RejoinFold, RejoinEvent, Tells, RejoinManned, AutoManned;
    RejoinFoldTells(s, event, c);
    RejoinHears(s, event, c);
  }

  lemma AutoFoldTells(s: State, event: AutoConnect.Event, c: Clock)
    ensures Tells(s, AutoFold(s, event, c), Carried([], [event], [], [], []), c.now) && Same(s, AutoFold(s, event, c))
    ensures AutoReady(s, event) ==> Manned(AutoFold(s, event, c))
    ensures AutoFold(s, event, c).desk == s.desk && AutoFold(s, event, c).rejoin == s.rejoin
  {
    hide AutoConnect.Step, AutoActs, RejoinManned, AutoManned, AutoShort;
    if AutoReady(s, event) {
      AutoFoldMans(s, event, c);
    }
  }

  /** The flag moves no sequence, so that a worker that is missing is still the one missing. */
  lemma FlagKeepsShort(s: State, pending: bool, event: AutoConnect.Event, c: Clock)
    requires AutoReady(s, event)
    ensures AutoReady(AutoFold(s, AutoConnect.SetRejoinPending(pending), c), event)
  {
    var flag := AutoConnect.SetRejoinPending(pending);
    var n := AutoConnect.Step(s.auto, flag, c.now);
    AutoStepShape(s.auto, flag, c.now);
    hide AutoConnect.Step;
    var t := AutoFold(s, flag, c);
    assert t.log.auto[..|t.log.auto| - 1] == s.log.auto;
    NothingToDo(s.autoCrew, s.host);
    assert t.autoCrew == s.autoCrew && t.auto.pending == s.auto.pending;
    hide Staffed, AutoActs;
    forall q: nat ensures AutoAsked(t.log.auto, q) == AutoAsked(s.log.auto, q)
                       && AutoHeard(t.log.auto, q) == AutoHeard(s.log.auto, q) {}
  }

  /** Auto-connect is told the event, and before it whether a rejoin is pending. */
  lemma AutoHears(s: State, event: AutoConnect.Event, c: Clock)
    ensures Tells(s, AutoEvent(s, event, c), ToAuto(s.rejoin.pending.Some?, event), c.now)
    ensures AutoReady(s, event) ==> Manned(AutoEvent(s, event, c))
    ensures Same(s, AutoEvent(s, event, c)) && AutoEvent(s, event, c).desk == s.desk
    ensures AutoEvent(s, event, c).rejoin == s.rejoin
  {
    hide AutoFold, PublishLink, Tells, Manned, AutoReady;
    var flag := AutoConnect.SetRejoinPending(s.rejoin.pending.Some?);
    var t := AutoFold(s, flag, c);
    var u := AutoFold(t, event, c);
    var x, y := Carried([], [flag], [], [], []), Carried([], [event], [], [], []);
    AutoFoldTells(s, flag, c);
    AutoFoldTells(t, event, c);
    PublishTells(u, c);
    TellsThen(s, t, u, x, y, c.now);
    TellsThen(s, u, PublishLink(u, c), Plus(x, y), NOTHING, c.now);
    PlusNothing(Plus(x, y));
    assert Plus(x, y) == ToAuto(s.rejoin.pending.Some?, event);
    if AutoReady(s, event) {
      FlagKeepsShort(s, s.rejoin.pending.Some?, event, c);
    }
  }

  lemma AutoTells(s: State, event: AutoConnect.Event, c: Clock)
    requires !event.ConnectFinished?
    ensures Hears(s, AutoEvent(s, event, c), ToAuto(s.rejoin.pending.Some?, event), c.now)
    ensures Same(s, AutoEvent(s, event, c)) && AutoEvent(s, event, c).desk == s.desk
    ensures AutoEvent(s, event, c).rejoin == s.rejoin
  {
    hide AutoEvent, Tells, RejoinManned, AutoManned;
    AutoHears(s, event, c);
  }

  function ToAuto(pending: bool, event: AutoConnect.Event): Carried {
    Carried([], [AutoConnect.SetRejoinPending(pending), event], [], [], [])
  }

  // ---- what an input carries

  /** A socket that goes. */
  function LostSocket(): Carried {
    Carried([], [], [Handoff.LinkClosed], [EarMedia.LinkClosed], [Store.AapLink(false)])
  }

  function ToStore(update: Store.Update): Carried {
    Carried([], [], [], [], [update])
  }

  function ToHandoff(event: Handoff.Event): Carried {
    Carried([], [], [event], [], [])
  }

  function ToRejoin(event: Rejoin.Event): Carried {
    Carried([event], [], [], [], [])
  }

  /** The link, or the adapter under it, is gone. */
  function OfDown(event: Rejoin.Event, pending: bool): Carried {
    Carried([event], [AutoConnect.SetRejoinPending(pending), AutoConnect.LocalDisconnected(Rejoin.Unknown)],
            [Handoff.AudioLinkChanged, Handoff.LinkClosed], [EarMedia.LinkClosed],
            [Store.AapLink(false), Store.AclConnected(false)])
  }

  /** A link event, where it is handled; `before` and `after` it a rejoin is pending or not. */
  function OfLink(s: State, event: LinkEvent, before: bool, after: bool): Carried {
    match event
    case Identity(adapter, address, name, modelId, pinned) =>
      var update := Store.Identity(Codec.AddressText(address), name, modelId);
      if s.host.adapter == Some(adapter) && s.host.device == Some(address) && s.host.pinned == pinned
      then Carried([Rejoin.SetLocal(adapter)], [], [Handoff.SetLocal(adapter)], [], [update])
      else Carried([Rejoin.IdentityChanged, Rejoin.SetLocal(adapter)], [],
                   [Handoff.LinkClosed, Handoff.SetLocal(adapter)], [EarMedia.LinkClosed],
                   [Store.AapLink(false), Store.AclConnected(false), update])
    case Disconnected(reason, facts, lidClosed) =>
      Carried([Rejoin.Disconnected(reason, facts, lidClosed)],
              [AutoConnect.SetRejoinPending(before), AutoConnect.LocalDisconnected(reason)], [], [], [])
    case Connected(up) =>
      if up then
        Carried(if s.radio.acl then [Rejoin.LinkConnected(true)]
                else [Rejoin.LinkConnected(true), Rejoin.LinkSessionStarted],
                [AutoConnect.SetRejoinPending(after), AutoConnect.LocalConnected],
                [Handoff.AudioLinkChanged], [], [Store.AclConnected(true)])
      else OfDown(Rejoin.LinkConnected(false), after)
    case AdapterGone => OfDown(Rejoin.AdapterGone, after)
    case AudioTransport => ToHandoff(Handoff.AudioLinkChanged)
    case A2dpTransport(active) => ToHandoff(Handoff.A2dpTransport(active))
    case OtherLinkEvent => NOTHING
  }

  function OfPacket(s: State, packet: Packet): Carried {
    match packet
    case BatteryPacket =>
      if s.timers.readbackAt.None? then NOTHING
      else Carried([], [], [Handoff.OpeningSettled], [], [Store.VerifyCompleted])
    case EarPacket(bothInCase, left, right) =>
      Carried([Rejoin.Ear(bothInCase)], [], [], [EarMedia.Ear(left, right)], [])
    case SettingPacket(setting) => ToStore(Store.SettingReport(setting))
    case MetadataPacket(name) => ToStore(Store.Metadata(name))
    case DevicesPacket(hosts) =>
      Carried([Rejoin.ConnectedDevices(hosts)], [], [Handoff.ConnectedDevices(Addresses(hosts))], [], [])
    case RelayPacket(sender, requestsYield) =>
      Carried([Rejoin.Relay(sender)], [], [Handoff.SmartRouting(sender, requestsYield)], [], [])
    case OwnershipPacket(owns) => ToHandoff(Handoff.OwnsConnection(owns, !s.radio.sock || s.timers.readbackAt.Some?))
    case SourcePacket(source, doing) => ToHandoff(Handoff.AudioSource(source, doing))
    case _ => NOTHING
  }

  /** A command that is still current. */
  function OfCommand(s: State, request: Request, after: bool): Carried {
    var interrupts := Carried([Rejoin.ManualCommand], [AutoConnect.SetRejoinPending(after), AutoConnect.ManualCommand],
                              [], [], []);
    var reachable := s.radio.sock && s.host.adapter.Some?;
    match request
    case Reconnect => interrupts
    case ConnectOnce => interrupts
    case TakeOver => if reachable then ToHandoff(Handoff.TakeOver) else NOTHING
    case Yield => if reachable then ToHandoff(Handoff.Yield) else NOTHING
    case SetHandoff(enabled) => Carried([Rejoin.SetEnabled(enabled)], [], [Handoff.SetEnabled(enabled)], [], [])
    case _ => NOTHING
  }

  /** A tick: every machine, and the readback timers that are due. */
  function OfTick(s: State, now: Millis, after: bool): Carried {
    var settled := Due(s.timers.readbackAt, now);
    Carried([Rejoin.Tick], [AutoConnect.SetRejoinPending(after), AutoConnect.Tick],
            [Handoff.Tick] + (if settled then [Handoff.OpeningSettled] else []), [EarMedia.Tick],
            (if settled then [Store.VerifyCompleted] else [])
            + (if Due(s.timers.verifyAt, now)
               then if s.radio.acl || s.radio.sock then [] else [Store.VerifyFailed]
               else if !settled && Due(s.timers.verifyBudget, now) then [Store.VerifyFailed] else []))
  }

  /** The players are heard. */
  function OfReading(reading: Reading): Carried {
    Carried([], [], [Handoff.Playback(reading.playing, reading.app, reading.player)],
            [EarMedia.Playback(reading.playing, reading.player)], [])
  }

  function OfReport(s: State, rejoin: bool, job: nat): Carried {
    var crew := if rejoin then s.rejoinCrew else s.autoCrew;
    if !Reports(crew, job) then NOTHING
    else
      var done := crew.jobs[job];
      if rejoin then ToRejoin(Rejoin.ConnectFinished(done.seqNo, done.stage.outcome))
      else ToAuto(s.rejoin.pending.Some?, AutoConnect.ConnectFinished(done.seqNo, done.stage.outcome))
  }

  // ---- sockets

  lemma RouteTells(s: State, mode: Handoff.RouteMode, now: Millis)
    ensures Hears(s, Route(s, mode), NOTHING, now)
    ensures Route(s, mode) == s.(desk := s.desk.(route := Route(s, mode).desk.route))
  {
    HearsNothing(s, Route(s, mode), now);
  }

  /** What a dropped socket changes besides the machines. */
  predicate Dropped(s: State, t: State) {
    t.host == s.host && t.radio == s.radio.(sock := false) && t.timers == s.timers.(readbackAt := None)
    && t.phase == s.phase && t.rejoin == s.rejoin
  }

  lemma DropTells(s: State, c: Clock)
    ensures Hears(s, DropSocket(s, c), LostSocket(), c.now) && Dropped(s, DropSocket(s, c))
  {
    hide Hears, Apply, HandoffEvent, EarEvent, Route;
    var p := s.(radio := s.radio.(sock := false));
    var q := Apply(p, Store.AapLink(false));
    var t := Unplug(s);
    var u := HandoffEvent(t, Handoff.LinkClosed, c);
    var v := EarEvent(u, EarMedia.LinkClosed, c);
    var x, y := ToStore(Store.AapLink(false)), ToHandoff(Handoff.LinkClosed);
    var xy, z := Carried([], [], [Handoff.LinkClosed], [], x.store), Carried([], [], [], [EarMedia.LinkClosed], []);
    HearsNothing(s, p, c.now);
    ApplyTells(p, Store.AapLink(false), c.now);
    Then(s, p, q, NOTHING, x, x, c.now);
    Still(s, q, t, x, c.now);
    HandoffTells(t, Handoff.LinkClosed, c);
    Then(s, t, u, x, y, xy, c.now);
    EarTells(u, EarMedia.LinkClosed, c);
    Then(s, u, v, xy, z, LostSocket(), c.now);
    RouteTells(v, Handoff.Own, c.now);
    Then(s, v, Route(v, Handoff.Own), LostSocket(), NOTHING, LostSocket(), c.now);
    Still(s, v, v.(desk := v.desk.(route := None)), LostSocket(), c.now);
  }

  lemma SuppressTells(s: State, c: Clock)
    ensures Hears(s, Suppress(s, c), LostSocket(), c.now)
    ensures var t := Suppress(s, c);
      t.phase == s.phase && t.rejoin == s.rejoin && t.host == s.host && t.timers == s.timers.(readbackAt := None)
  {
    hide Hears, DropSocket;
    var p := s.(radio := s.radio.(suppressed := true, dialAt := None, dialKind := None));
    HearsNothing(s, p, c.now);
    DropTells(p, c);
    Then(s, p, DropSocket(p, c), NOTHING, LostSocket(), LostSocket(), c.now);
  }

  lemma ReopenTells(s: State, c: Clock)
    ensures Hears(s, Reopen(s, c), LostSocket(), c.now)
    ensures var t := Reopen(s, c);
      t.phase == s.phase && t.host == s.host && t.timers == s.timers.(readbackAt := None) && t.rejoin == s.rejoin
  {
    hide Hears, DropSocket;
    DropTells(s, c);
    Still(s, DropSocket(s, c), Reopen(s, c), LostSocket(), c.now);
  }

  // ---- link events

  lemma DisownTells(s: State, pinned: bool, c: Clock)
    ensures Hears(s, Disown(s, pinned, c),
                  Carried([Rejoin.IdentityChanged], [], [Handoff.LinkClosed], [EarMedia.LinkClosed],
                          [Store.AapLink(false), Store.AclConnected(false)]), c.now)
  {
    hide Hears, DropSocket, Apply, RejoinEvent;
    var p := s.(radio := s.radio.(generation := s.radio.generation + 1, acl := false, dialAt := None, dialKind := None),
                host := s.host.(pinned := pinned));
    var t := DropSocket(p, c);
    var u := Apply(t, Store.AclConnected(false));
    var x := LostSocket().(store := [Store.AapLink(false), Store.AclConnected(false)]);
    HearsNothing(s, p, c.now);
    DropTells(p, c);
    Then(s, p, t, NOTHING, LostSocket(), LostSocket(), c.now);
    ApplyTells(t, Store.AclConnected(false), c.now);
    Then(s, t, u, LostSocket(), ToStore(Store.AclConnected(false)), x, c.now);
    RejoinTells(u, Rejoin.IdentityChanged, c);
    Then(s, u, RejoinEvent(u, Rejoin.IdentityChanged, c), x, ToRejoin(Rejoin.IdentityChanged),
         x.(rejoin := [Rejoin.IdentityChanged]), c.now);
  }

  lemma AdoptTells(s: State, event: LinkEvent, c: Clock)
    requires event.Identity?
    ensures Hears(s, Adopt(s, event, c),
                  Carried([Rejoin.SetLocal(event.adapter)], [], [Handoff.SetLocal(event.adapter)], [],
                          [Store.Identity(Codec.AddressText(event.address), event.name, event.modelId)]), c.now)
  {
    hide Hears, Apply, RejoinFold, HandoffEvent, Codec.AddressText;
    var update := Store.Identity(Codec.AddressText(event.address), event.name, event.modelId);
    var t := RejoinFold(s, Rejoin.SetLocal(event.adapter), c);
    var u := HandoffEvent(t, Handoff.SetLocal(event.adapter), c);
    var v := u.(host := u.host.(adapter := Some(event.adapter), device := Some(event.address)));
    var x := ToRejoin(Rejoin.SetLocal(event.adapter));
    var y := x.(handoff := [Handoff.SetLocal(event.adapter)]);
    RejoinTells(s, Rejoin.SetLocal(event.adapter), c);
    HandoffTells(t, Handoff.SetLocal(event.adapter), c);
    Then(s, t, u, x, ToHandoff(Handoff.SetLocal(event.adapter)), y, c.now);
    Still(s, u, v, y, c.now);
    ApplyTells(v, update, c.now);
    Then(s, v, Apply(v, update), y, ToStore(update), y.(store := [update]), c.now);
  }

  lemma IdentityTells(s: State, event: LinkEvent, c: Clock)
    requires event.Identity?
    ensures Hears(s, OnIdentity(s, event, c), OfLink(s, event, false, false), c.now)
  {
    hide Hears, Disown, Adopt, Codec.AddressText;
    var x := Carried([Rejoin.IdentityChanged], [], [Handoff.LinkClosed], [EarMedia.LinkClosed],
                     [Store.AapLink(false), Store.AclConnected(false)]);
    var y := Carried([Rejoin.SetLocal(event.adapter)], [], [Handoff.SetLocal(event.adapter)], [],
                     [Store.Identity(Codec.AddressText(event.address), event.name, event.modelId)]);
    AdoptTells(s, event, c);
    if ChangesIdentity(s, event) {
      var t := Disown(s, event.pinned, c);
      DisownTells(s, event.pinned, c);
      AdoptTells(t, event, c);
      Then(s, t, Adopt(t, event, c), x, y, OfLink(s, event, false, false), c.now);
    }
  }

  lemma PeriodTells(s: State, c: Clock)
    ensures Hears(s, StartPeriod(s, c), ToRejoin(Rejoin.LinkSessionStarted), c.now)
    ensures StartPeriod(s, c).rejoin.pending == s.rejoin.pending
  {
    hide Hears, RejoinEvent;
    var p := s.(radio := s.radio.(acl := true, generation := s.radio.generation + 1, suppressed := false),
                panel := s.panel.(buds := []));
    var t := RejoinEvent(p, Rejoin.LinkSessionStarted, c);
    var x := ToRejoin(Rejoin.LinkSessionStarted);
    HearsNothing(s, p, c.now);
    RejoinTells(p, Rejoin.LinkSessionStarted, c);
    Then(s, p, t, NOTHING, x, x, c.now);
    Still(s, t, StartPeriod(s, c), x, c.now);
  }

  lemma UpTells(s: State, c: Clock)
    ensures var t := OnConnected(s, c);
      Hears(s, t, OfLink(s, Connected(true), false, t.rejoin.pending.Some?), c.now)
  {
    hide Hears, RejoinEvent, AutoEvent, HandoffEvent, Apply, StartPeriod, Rejoin.Step;
    var e := Rejoin.LinkConnected(true);
    var t := RejoinEvent(s, e, c);
    var u := AutoEvent(t, AutoConnect.LocalConnected, c);
    var v := HandoffEvent(u, Handoff.AudioLinkChanged, c);
    var w := Apply(v, Store.AclConnected(true));
    var x := ToAuto(t.rejoin.pending.Some?, AutoConnect.LocalConnected).(rejoin := [e]);
    var y := x.(handoff := [Handoff.AudioLinkChanged]);
    var z := y.(store := [Store.AclConnected(true)]);
    RejoinTells(s, e, c);
    AutoTells(t, AutoConnect.LocalConnected, c);
    Then(s, t, u, ToRejoin(e), ToAuto(t.rejoin.pending.Some?, AutoConnect.LocalConnected), x, c.now);
    HandoffTells(u, Handoff.AudioLinkChanged, c);
    Then(s, u, v, x, ToHandoff(Handoff.AudioLinkChanged), y, c.now);
    ApplyTells(v, Store.AclConnected(true), c.now);
    Then(s, v, w, y, ToStore(Store.AclConnected(true)), z, c.now);
    PeriodTells(w, c);
    Then(s, w, StartPeriod(w, c), z, ToRejoin(Rejoin.LinkSessionStarted),
         z.(rejoin := [e, Rejoin.LinkSessionStarted]), c.now);
  }

  lemma LoseTells(s: State, c: Clock)
    ensures Hears(s, LoseLink(s, c), LostSocket().(store := [Store.AapLink(false), Store.AclConnected(false)]), c.now)
    ensures LoseLink(s, c).rejoin == s.rejoin
  {
    hide Hears, DropSocket, Apply;
    var changed := s.radio.acl || s.host.adapter.Some?;
    var p := s.(radio := s.radio.(acl := false, dialAt := None, dialKind := None,
                                  generation := s.radio.generation + if changed then 1 else 0));
    var t := DropSocket(p, c);
    HearsNothing(s, p, c.now);
    DropTells(p, c);
    Then(s, p, t, NOTHING, LostSocket(), LostSocket(), c.now);
    ApplyTells(t, Store.AclConnected(false), c.now);
    Then(s, t, Apply(t, Store.AclConnected(false)), LostSocket(), ToStore(Store.AclConnected(false)),
         LostSocket().(store := [Store.AapLink(false), Store.AclConnected(false)]), c.now);
  }

  lemma DownTells(s: State, e: Rejoin.Event, c: Clock)
    requires !e.ConnectFinished?
    ensures Hears(s, OnDown(s, e, c), OfDown(e, OnDown(s, e, c).rejoin.pending.Some?), c.now)
  {
    hide Hears, RejoinEvent, AutoEvent, HandoffEvent, LoseLink, Rejoin.Step;
    var away := AutoConnect.LocalDisconnected(Rejoin.Unknown);
    var t := RejoinEvent(s, e, c);
    var u := AutoEvent(t, away, c);
    var v := HandoffEvent(u, Handoff.AudioLinkChanged, c);
    var x := ToAuto(t.rejoin.pending.Some?, away).(rejoin := [e]);
    var y := x.(handoff := [Handoff.AudioLinkChanged]);
    var z := LostSocket().(store := [Store.AapLink(false), Store.AclConnected(false)]);
    RejoinTells(s, e, c);
    AutoTells(t, away, c);
    Then(s, t, u, ToRejoin(e), ToAuto(t.rejoin.pending.Some?, away), x, c.now);
    HandoffTells(u, Handoff.AudioLinkChanged, c);
    Then(s, u, v, x, ToHandoff(Handoff.AudioLinkChanged), y, c.now);
    LoseTells(v, c);
    Then(s, v, LoseLink(v, c), y, z, OfDown(e, t.rejoin.pending.Some?), c.now);
  }

  lemma DisconnectTells(s: State, event: LinkEvent, c: Clock)
    requires event.Disconnected?
    ensures Hears(s, OnLink(s, event, c), OfLink(s, event, s.rejoin.pending.Some?, false), c.now)
  {
    hide Hears, RejoinEvent, AutoEvent;
    var p := s.(desk := s.desk.(route := None));
    var away := AutoConnect.LocalDisconnected(event.reason);
    var e := Rejoin.Disconnected(event.reason, event.facts, event.lidClosed);
    var t := AutoEvent(p, away, c);
    var x := ToAuto(s.rejoin.pending.Some?, away);
    HearsNothing(s, p, c.now);
    AutoTells(p, away, c);
    Then(s, p, t, NOTHING, x, x, c.now);
    RejoinTells(t, e, c);
    Then(s, t, RejoinEvent(t, e, c), x, ToRejoin(e), x.(rejoin := [e]), c.now);
  }

  /** A link event tells every part what it carries. */
  lemma LinkTells(s: State, event: LinkEvent, c: Clock)
    ensures var t := OnLink(s, event, c);
      Hears(s, t, OfLink(s, event, s.rejoin.pending.Some?, t.rejoin.pending.Some?), c.now)
  {
    hide Hears, OnIdentity, OnConnected, OnDown, HandoffEvent, Codec.AddressText;
    match event
    case Identity(_, _, _, _, _) => IdentityTells(s, event, c);
    case Disconnected(_, _, _) => DisconnectTells(s, event, c);
    case Connected(up) => if up { UpTells(s, c); } else { DownTells(s, Rejoin.LinkConnected(false), c); }
    case AdapterGone => DownTells(s, Rejoin.AdapterGone, c);
    case AudioTransport => HandoffTells(s, Handoff.AudioLinkChanged, c);
    case A2dpTransport(active) => HandoffTells(s, Handoff.A2dpTransport(active), c);
    case OtherLinkEvent => HearsNothing(s, s, c.now);
  }

  // ---- packets, readings and ticks

  lemma SettledTells(s: State, c: Clock)
    ensures Hears(s, FinishReadback(s, c),
                  Carried([], [], [Handoff.OpeningSettled], [], [Store.VerifyCompleted]), c.now)
    ensures var t := FinishReadback(s, c);
      t.timers == s.timers.(readbackAt := None, verifyBudget := None) && t.radio == s.radio && t.rejoin == s.rejoin
      && t.phase == s.phase
  {
    hide Hears, Apply, HandoffEvent;
    var p := s.(timers := s.timers.(readbackAt := None, verifyBudget := None));
    var t := Apply(p, Store.VerifyCompleted);
    var x := ToStore(Store.VerifyCompleted);
    HearsNothing(s, p, c.now);
    ApplyTells(p, Store.VerifyCompleted, c.now);
    Then(s, p, t, NOTHING, x, x, c.now);
    HandoffTells(t, Handoff.OpeningSettled, c);
    Then(s, t, HandoffEvent(t, Handoff.OpeningSettled, c), x, ToHandoff(Handoff.OpeningSettled),
         x.(handoff := [Handoff.OpeningSettled]), c.now);
  }

  lemma ForsakeTells(s: State, now: Millis)
    ensures Hears(s, AbandonReadback(s), ToStore(Store.VerifyFailed), now)
    ensures var t := AbandonReadback(s);
      t.timers == s.timers.(verifyAt := None, verifyBudget := None) && t.radio == s.radio && t.rejoin == s.rejoin
      && t.host == s.host && t.phase == s.phase
  {
    hide Hears, Apply;
    var p := s.(timers := s.timers.(verifyAt := None, verifyBudget := None));
    var x := ToStore(Store.VerifyFailed);
    HearsNothing(s, p, now);
    ApplyTells(p, Store.VerifyFailed, now);
    Then(s, p, Apply(p, Store.VerifyFailed), NOTHING, x, x, now);
  }

  lemma OwnershipTells(s: State, owns: bool, c: Clock)
    ensures Hears(s, OnOwnership(s, owns, c), OfPacket(s, OwnershipPacket(owns)), c.now)
  {
    hide Hears, HandoffEvent, Route;
    var e := Handoff.OwnsConnection(owns, !s.radio.sock || s.timers.readbackAt.Some?);
    var t, mode := HandoffEvent(s, e, c), if owns then Handoff.Own else Handoff.Yielded;
    HandoffTells(s, e, c);
    RouteTells(t, mode, c.now);
    Then(s, t, Route(t, mode), ToHandoff(e), NOTHING, ToHandoff(e), c.now);
  }

  lemma PacketTells(s: State, packet: Packet, c: Clock)
    ensures Hears(s, OnPacket(s, packet, c), OfPacket(s, packet), c.now)
  {
    hide Hears, RejoinEvent, HandoffEvent, EarEvent, Apply, FinishReadback, OnOwnership, Addresses;
    match packet
    case BatteryPacket =>
      SettledTells(s, c);
      HearsNothing(s, s, c.now);
    case EarPacket(bothInCase, left, right) =>
      var e, f := Rejoin.Ear(bothInCase), EarMedia.Ear(left, right);
      var t := RejoinEvent(s, e, c);
      RejoinTells(s, e, c);
      EarTells(t, f, c);
      Then(s, t, EarEvent(t, f, c), ToRejoin(e), Carried([], [], [], [f], []), OfPacket(s, packet), c.now);
    case SettingPacket(setting) => ApplyTells(s, Store.SettingReport(setting), c.now);
    case MetadataPacket(name) => ApplyTells(s, Store.Metadata(name), c.now);
    case AddressPacket(bud, trailer) => HearsNothing(s, NoteBud(s, bud, trailer, c.now), c.now);
    case DevicesPacket(hosts) =>
      TwoTell(s, Rejoin.ConnectedDevices(hosts), Handoff.ConnectedDevices(Addresses(hosts)), c);
    case RelayPacket(sender, asks) => TwoTell(s, Rejoin.Relay(sender), Handoff.SmartRouting(sender, asks), c);
    case OwnershipPacket(owns) => OwnershipTells(s, owns, c);
    case SourcePacket(source, doing) => HandoffTells(s, Handoff.AudioSource(source, doing), c);
    case OtherPacket => HearsNothing(s, s, c.now);
  }

  lemma TwoTell(s: State, e: Rejoin.Event, f: Handoff.Event, c: Clock)
    requires !e.ConnectFinished?
    ensures Hears(s, HandoffEvent(RejoinEvent(s, e, c), f, c), Carried([e], [], [f], [], []), c.now)
    ensures HandoffEvent(RejoinEvent(s, e, c), f, c).rejoin == Rejoin.Step(s.rejoin, e, c.now).state
  {
    hide Hears, RejoinEvent, HandoffEvent, Rejoin.Step;
    var t := RejoinEvent(s, e, c);
    RejoinTells(s, e, c);
    HandoffTells(t, f, c);
    Then(s, t, HandoffEvent(t, f, c), ToRejoin(e), ToHandoff(f), Carried([e], [], [f], [], []), c.now);
  }

  lemma ReadingTells(s: State, reading: Reading, c: Clock)
    ensures Hears(s, OnPlayback(s, reading, c), OfReading(reading), c.now)
  {
    hide Hears, HandoffEvent, EarEvent;
    var e := EarMedia.Playback(reading.playing, reading.player);
    var f := Handoff.Playback(reading.playing, reading.app, reading.player);
    var p := s.(desk := s.desk.(playback := Some(reading)));
    var t := EarEvent(p, e, c);
    var x := Carried([], [], [], [e], []);
    HearsNothing(s, p, c.now);
    EarTells(p, e, c);
    Then(s, p, t, NOTHING, x, x, c.now);
    HandoffTells(t, f, c);
    Then(s, t, HandoffEvent(t, f, c), x, ToHandoff(f), OfReading(reading), c.now);
  }

  lemma BudgetTells(s: State, started: Millis, c: Clock)
    ensures Hears(s, AfterVerify(s, started, c),
                  if Due(s.timers.verifyBudget, started) then ToStore(Store.VerifyFailed) else NOTHING, c.now)
    ensures AfterVerify(s, started, c).rejoin == s.rejoin
  {
    hide Hears, AbandonReadback;
    ForsakeTells(s, c.now);
    HearsNothing(s, s, c.now);
    var t := CheckBudget(s, started);
    Still(s, t, EndTick(t, c), if Due(s.timers.verifyBudget, started) then ToStore(Store.VerifyFailed) else NOTHING,
          c.now);
  }

  /** The readback timers of a tick. */
  function OfTimers(s: State, now: Millis): Carried {
    var settled := Due(s.timers.readbackAt, now);
    Carried([], [], if settled then [Handoff.OpeningSettled] else [], [],
            (if settled then [Store.VerifyCompleted] else [])
            + (if Due(s.timers.verifyAt, now)
               then if s.radio.acl || s.radio.sock then [] else [Store.VerifyFailed]
               else if !settled && Due(s.timers.verifyBudget, now) then [Store.VerifyFailed] else []))
  }

  lemma TimersTell(s: State, c: Clock)
    ensures Hears(s, TickVerification(s, c), OfTimers(s, c.now), c.now)
    ensures TickVerification(s, c).rejoin == s.rejoin
  {
    hide Hears, FinishReadback, AfterVerify, AbandonReadback;
    var settled := Due(s.timers.readbackAt, c.now);
    var t := if settled then FinishReadback(s, c) else s;
    var x := if settled then Carried([], [], [Handoff.OpeningSettled], [], [Store.VerifyCompleted]) else NOTHING;
    SettledTells(s, c);
    HearsNothing(s, s, c.now);
    TimersRest(t, c);
    Then(s, t, TickVerification(s, c), x, OfRest(t, c.now), OfTimers(s, c.now), c.now);
  }

  /** What of a tick's timers is left after the readback window. */
  function OfRest(t: State, now: Millis): Carried {
    Carried([], [], [], [],
            if Due(t.timers.verifyAt, now) then if t.radio.acl || t.radio.sock then [] else [Store.VerifyFailed]
            else if Due(t.timers.verifyBudget, now) then [Store.VerifyFailed] else [])
  }

  function RestOfTimers(t: State, c: Clock): State {
    if !Due(t.timers.verifyAt, c.now) then AfterVerify(t, c.now, c)
    else
      var u := t.(timers := t.timers.(verifyAt := None));
      if !u.radio.acl && !u.radio.sock then AfterVerify(AbandonReadback(u), c.now, c)
      else u.(phase := VerifyCheck(c.now))
  }

  lemma TimersRest(t: State, c: Clock)
    ensures Hears(t, RestOfTimers(t, c), OfRest(t, c.now), c.now) && RestOfTimers(t, c).rejoin == t.rejoin
  {
    hide Hears, AfterVerify, AbandonReadback;
    var x := ToStore(Store.VerifyFailed);
    BudgetTells(t, c.now, c);
    var u := t.(timers := t.timers.(verifyAt := None));
    var v := AbandonReadback(u);
    HearsNothing(t, u, c.now);
    ForsakeTells(u, c.now);
    Then(t, u, v, NOTHING, x, x, c.now);
    BudgetTells(v, c.now, c);
    Then(t, v, AfterVerify(v, c.now, c), x, NOTHING, x, c.now);
    HearsNothing(t, u.(phase := VerifyCheck(c.now)), c.now);
  }

  lemma TickTells(s: State, c: Clock)
    ensures var t := OnTick(s, c); Hears(s, t, OfTick(s, c.now, t.rejoin.pending.Some?), c.now)
  {
    hide Hears, HandoffEvent, EarEvent, RejoinEvent, AutoEvent, TickVerification, Rejoin.Step;
    var t := HandoffEvent(s, Handoff.Tick, c);
    var u := EarEvent(t, EarMedia.Tick, c);
    var v := RejoinEvent(u, Rejoin.Tick, c);
    var w := AutoEvent(v, AutoConnect.Tick, c);
    var x := Carried([], [], [Handoff.Tick], [EarMedia.Tick], []);
    var y := x.(rejoin := [Rejoin.Tick]);
    var b := v.rejoin.pending.Some?;
    var z := y.(auto := [AutoConnect.SetRejoinPending(b), AutoConnect.Tick]);
    HandoffTells(s, Handoff.Tick, c);
    EarTells(t, EarMedia.Tick, c);
    Then(s, t, u, ToHandoff(Handoff.Tick), Carried([], [], [], [EarMedia.Tick], []), x, c.now);
    RejoinTells(u, Rejoin.Tick, c);
    Then(s, u, v, x, ToRejoin(Rejoin.Tick), y, c.now);
    AutoTells(v, AutoConnect.Tick, c);
    Then(s, v, w, y, ToAuto(b, AutoConnect.Tick), z, c.now);
    TimersTell(w, c);
    Then(s, w, TickVerification(w, c), z, OfTimers(w, c.now), OfTick(s, c.now, b), c.now);
  }

  // ---- commands

  lemma InterruptTells(s: State, c: Clock)
    ensures var t := ManualCommand(s, c);
      Hears(s, t, Carried([Rejoin.ManualCommand],
                          [AutoConnect.SetRejoinPending(t.rejoin.pending.Some?), AutoConnect.ManualCommand],
                          [], [], []),
            c.now)
  {
    hide Hears, RejoinEvent, AutoEvent, Rejoin.Step;
    var t := RejoinEvent(s, Rejoin.ManualCommand, c);
    var b := t.rejoin.pending.Some?;
    RejoinTells(s, Rejoin.ManualCommand, c);
    AutoTells(t, AutoConnect.ManualCommand, c);
    Then(s, t, AutoEvent(t, AutoConnect.ManualCommand, c), ToRejoin(Rejoin.ManualCommand),
         ToAuto(b, AutoConnect.ManualCommand),
         ToAuto(b, AutoConnect.ManualCommand).(rejoin := [Rejoin.ManualCommand]), c.now);
  }

  lemma SwitchTells(s: State, enabled: bool, c: Clock)
    ensures Hears(s, SwitchHandoff(s, enabled, c), OfCommand(s, SetHandoff(enabled), false), c.now)
  {
    hide Hears, HandoffEvent, RejoinEvent, Route;
    var e, f := Handoff.SetEnabled(enabled), Rejoin.SetEnabled(enabled);
    var t := HandoffEvent(s, e, c);
    var u := if !enabled && t.desk.route == Some(Handoff.Yielded) then Route(t, Handoff.Own) else t;
    HandoffTells(s, e, c);
    RouteTells(t, Handoff.Own, c.now);
    HearsNothing(t, t, c.now);
    Then(s, t, u, ToHandoff(e), NOTHING, ToHandoff(e), c.now);
    RejoinTells(u, f, c);
    Then(s, u, RejoinEvent(u, f, c), ToHandoff(e), ToRejoin(f), Carried([f], [], [e], [], []), c.now);
  }

  lemma CommandTells(s: State, request: Request, context: Store.Context, deadline: Millis, c: Clock)
    ensures var t := OnCommand(s, request, context, deadline, c);
      Hears(s, t, if c.now < deadline && context == Store.ContextOf(s.store)
                  then OfCommand(s, request, t.rejoin.pending.Some?) else NOTHING, c.now)
  {
    hide Hears, ManualCommand, SwitchHandoff, HandoffEvent, StartWrite, Settings.ValidSetting;
    HearsNothing(s, s, c.now);
    match request
    case Reconnect =>
      var t := ManualCommand(s, c);
      InterruptTells(s, c);
      Still(s, t, t.(phase := CommandCheck(Order(context, deadline, false))),
            OfCommand(s, request, t.rejoin.pending.Some?),
            c.now);
    case ConnectOnce =>
      var t := ManualCommand(s, c);
      InterruptTells(s, c);
      Still(s, t, t.(phase := CommandCheck(Order(context, deadline, true))),
            OfCommand(s, request, t.rejoin.pending.Some?),
            c.now);
    case TakeOver => HandoffTells(s, Handoff.TakeOver, c);
    case Yield => HandoffTells(s, Handoff.Yield, c);
    case SetHandoff(enabled) => SwitchTells(s, enabled, c);
    case Control => HearsNothing(s, s.(phase := Sending(Store.Unrelated)), c.now);
    case Write(setting) => WriteTells(s, Store.SettingRequested(setting), c.now);
    case Rename(name) => WriteTells(s, Store.RenameRequested(name), c.now);
  }

  lemma WriteTells(s: State, update: Store.Update, now: Millis)
    ensures Hears(s, StartWrite(s, update), NOTHING, now)
  {
    hide Hears;
    HearsNothing(s, StartWrite(s, update), now);
  }

  lemma ReportTells(s: State, rejoin: bool, job: nat, c: Clock)
    requires s.phase.Loop?
    ensures Hears(s, OnReport(s, rejoin, job, c), OfReport(s, rejoin, job), c.now)
  {
    hide RejoinEvent, AutoEvent, Tells, RejoinManned, AutoManned, RejoinShort, AutoShort, Without;
    HearsNothing(s, s, c.now);
    var crew := if rejoin then s.rejoinCrew else s.autoCrew;
    if Reports(crew, job) {
      var done := crew.jobs[job];
      if rejoin {
        var p, e := s.(rejoinCrew := Without(crew, job)), Rejoin.ConnectFinished(done.seqNo, done.stage.outcome);
        RejoinHears(p, e, c);
        SameLogs(s, p, RejoinEvent(p, e, c), ToRejoin(e), c.now);
        if Manned(s) {
          RejoinLeaves(s, job);
        }
      } else {
        var p, e := s.(autoCrew := Without(crew, job)), AutoConnect.ConnectFinished(done.seqNo, done.stage.outcome);
        AutoHears(p, e, c);
        SameLogs(s, p, AutoEvent(p, e, c), ToAuto(s.rejoin.pending.Some?, e), c.now);
        if Manned(s) {
          AutoLeaves(s, job);
        }
      }
    }
  }

  lemma SameLogs(s: State, p: State, t: State, x: Carried, now: Millis)
    requires Tells(p, t, x, now) && p.log == s.log && p.desk.log == s.desk.log
    ensures Tells(s, t, x, now)
  {}

  // ---- waits

  /** The awaited read of BlueZ: a readback that cannot be verified is given up, an unattended dial suppressed. */
  function OfFresh(s: State, answer: Answer): Carried {
    match s.phase
    case VerifyCheck(_) => if answer.Yes? then NOTHING else ToStore(Store.VerifyFailed)
    case Authorizing(kind, _) => if answer.Yes? || kind.Manual? then NOTHING else LostSocket()
    case _ => NOTHING
  }

  /** What waited goes on: a reopening drops the socket. */
  function OfProceed(s: State, gone: bool, now: Millis): Carried {
    match s.phase
    case CommandDrain(order) =>
      if gone || now >= order.deadline || order.context != Store.ContextOf(s.store) || order.connectOnce then NOTHING
      else LostSocket()
    case VerifyDrain(started) =>
      if s.radio.acl then
        LostSocket().(store := [Store.VerifyReopening, Store.AapLink(false)]
                               + if Due(s.timers.verifyBudget, started) then [Store.VerifyFailed] else [])
      else ToStore(Store.VerifyFailed)
    case DialDrain =>
      if s.radio.acl && s.radio.dialKind.Some? && (s.host.adapter.None? || s.host.device.None?) then LostSocket()
      else NOTHING
    case _ => NOTHING
  }

  /** An answer of the opening: a socket that connects is greeted, one that fails is dropped, the last one promotes. */
  function OfOpening(s: State, input: Input): Carried
    requires s.phase.OpeningLink?
  {
    var alive := s.radio.acl && s.radio.generation == s.phase.generation;
    match input
    case SocketOpened(ok) =>
      if s.phase.opening != Connecting then NOTHING
      else if !ok then LostSocket()
      else if !alive then NOTHING
      else
        Carried([], [], [Handoff.LinkOpened]
                        + (if s.desk.playback.None? then []
                           else [Handoff.Playback(s.desk.playback.value.playing, s.desk.playback.value.app,
                                                  s.desk.playback.value.player)]), [], [])
    case AckArrived(ack) =>
      if (s.phase.opening == AwaitHandshake && !ack.Got?) || (s.phase.opening == AwaitFeatures && ack.Broken?)
      then LostSocket() else NOTHING
    case Subscribed(ok) =>
      if s.phase.opening != Subscribing then NOTHING
      else if !ok then LostSocket()
      else if alive then ToStore(Store.AapLink(true)) else NOTHING
    case _ => NOTHING
  }

  /** A queued side effect that does not go out takes the socket with it. */
  function OfFlush(s: State, sent: bool): Carried
    requires s.phase.Flushing?
  {
    if s.phase.rest != [] && Sendable(s, s.phase.rest[0]) && !sent then LostSocket() else NOTHING
  }

  lemma FreshTells(s: State, answer: Answer, c: Clock)
    ensures Hears(s, OnFresh(s, answer, c), OfFresh(s, answer), c.now)
  {
    hide Hears, Suppress, AbandonReadback, AfterVerify;
    HearsNothing(s, s, c.now);
    match s.phase
    case CommandCheck(order) => HearsNothing(s, OnFresh(s, answer, c), c.now);
    case VerifyCheck(started) =>
      HearsNothing(s, s.(phase := VerifyDrain(started)), c.now);
      var t, x := AbandonReadback(s), ToStore(Store.VerifyFailed);
      ForsakeTells(s, c.now);
      BudgetTells(t, started, c);
      Then(s, t, AfterVerify(t, started, c), x, NOTHING, x, c.now);
    case Authorizing(kind, generation) =>
      HearsNothing(s, s.(phase := OpeningLink(kind, generation, Authorized)), c.now);
      HearsNothing(s, s.(phase := Loop), c.now);
      SuppressTells(s, c);
      Still(s, Suppress(s, c), Suppress(s, c).(phase := Loop), LostSocket(), c.now);
    case _ =>
  }

  lemma ObeyTells(s: State, gone: bool, c: Clock)
    requires s.phase.CommandDrain?
    ensures Hears(s, Obey(s, gone, c), OfProceed(s, gone, c.now), c.now)
  {
    hide Hears, Reopen;
    var t := s.(phase := Loop);
    HearsNothing(s, t, c.now);
    ReopenTells(t, c);
    Then(s, t, Reopen(t, c), NOTHING, LostSocket(), LostSocket(), c.now);
  }

  lemma ReadBackTells(s: State, c: Clock)
    requires s.phase.VerifyDrain?
    ensures Hears(s, ReadBack(s, c), OfProceed(s, false, c.now), c.now)
  {
    hide Hears, Reopen, Apply, AbandonReadback, AfterVerify;
    var started := s.phase.started;
    if s.radio.acl {
      var t := Apply(s, Store.VerifyReopening);
      var u := Reopen(t, c);
      var x := LostSocket().(store := [Store.VerifyReopening, Store.AapLink(false)]);
      var y := if Due(u.timers.verifyBudget, started) then ToStore(Store.VerifyFailed) else NOTHING;
      ApplyTells(s, Store.VerifyReopening, c.now);
      ReopenTells(t, c);
      Then(s, t, u, ToStore(Store.VerifyReopening), LostSocket(), x, c.now);
      BudgetTells(u, started, c);
      Then(s, u, AfterVerify(u, started, c), x, y, OfProceed(s, false, c.now), c.now);
    } else {
      var t, x := AbandonReadback(s), ToStore(Store.VerifyFailed);
      ForsakeTells(s, c.now);
      BudgetTells(t, started, c);
      Then(s, t, AfterVerify(t, started, c), x, NOTHING, x, c.now);
    }
  }

  lemma DialTells(s: State, c: Clock)
    requires s.phase.DialDrain?
    ensures Hears(s, StartDial(s, c), OfProceed(s, false, c.now), c.now)
  {
    hide Hears, Suppress;
    var t := s.(radio := s.radio.(dialKind := None));
    var u := Suppress(t, c);
    HearsNothing(s, s.(phase := Loop), c.now);
    HearsNothing(s, t, c.now);
    SuppressTells(t, c);
    Then(s, t, u, NOTHING, LostSocket(), LostSocket(), c.now);
    Still(s, u, u.(phase := Loop), LostSocket(), c.now);
    if s.radio.dialKind.Some? {
      HearsNothing(s, t.(radio := t.radio.(dialAt := None),
                         phase := Authorizing(s.radio.dialKind.value, t.radio.generation)), c.now);
    }
  }

  lemma ProceedTells(s: State, gone: bool, c: Clock)
    ensures Hears(s, OnProceed(s, gone, c), OfProceed(s, gone, c.now), c.now)
  {
    hide Hears, Obey, ReadBack, StartDial;
    match s.phase
    case CommandDrain(_) => ObeyTells(s, gone, c);
    case VerifyDrain(_) => ReadBackTells(s, c);
    case DialDrain => DialTells(s, c);
    case OpeningLink(_, _, _) => HearsNothing(s, OnProceed(s, gone, c), c.now);
    case _ => HearsNothing(s, s, c.now);
  }

  lemma FailTells(s: State, c: Clock)
    ensures Hears(s, Suppress(s, c).(phase := Loop), LostSocket(), c.now)
  {
    hide Hears, Suppress;
    SuppressTells(s, c);
    Still(s, Suppress(s, c), Suppress(s, c).(phase := Loop), LostSocket(), c.now);
  }

  lemma GreetTells(s: State, c: Clock)
    ensures Hears(s, Greet(s, c),
                  Carried([], [], [Handoff.LinkOpened]
                                  + (if s.desk.playback.None? then []
                                     else [Handoff.Playback(s.desk.playback.value.playing, s.desk.playback.value.app,
                                                            s.desk.playback.value.player)]), [], []), c.now)
  {
    hide Hears, HandoffEvent;
    var t, x := HandoffEvent(s, Handoff.LinkOpened, c), ToHandoff(Handoff.LinkOpened);
    HandoffTells(s, Handoff.LinkOpened, c);
    assert [Handoff.LinkOpened] + [] == [Handoff.LinkOpened];
    if s.desk.playback.Some? {
      var p := s.desk.playback.value;
      var f := Handoff.Playback(p.playing, p.app, p.player);
      HandoffTells(t, f, c);
      Then(s, t, HandoffEvent(t, f, c), x, ToHandoff(f), Carried([], [], [Handoff.LinkOpened, f], [], []), c.now);
    }
  }

  lemma PromoteTells(s: State, c: Clock)
    ensures Hears(s, Promote(s, c), ToStore(Store.AapLink(true)), c.now)
  {
    hide Hears, Apply;
    var p := s.(radio := s.radio.(sock := true));
    var t, x := Apply(p, Store.AapLink(true)), ToStore(Store.AapLink(true));
    HearsNothing(s, p, c.now);
    ApplyTells(p, Store.AapLink(true), c.now);
    Then(s, p, t, NOTHING, x, x, c.now);
    Still(s, t, Promote(s, c), x, c.now);
  }

  lemma AdvanceTells(s: State, ok: bool, next: Opening, c: Clock)
    requires s.phase.OpeningLink?
    ensures Hears(s, Advance(s, ok, next, c), if ok then NOTHING else LostSocket(), c.now)
  {
    hide Hears, Suppress;
    FailTells(s, c);
    if ok { HearsNothing(s, Advance(s, ok, next, c), c.now); }
  }

  lemma OpeningTells(s: State, input: Input, c: Clock)
    requires s.phase.OpeningLink?
    ensures Hears(s, OnOpening(s, input, c), OfOpening(s, input), c.now)
  {
    hide Hears, Suppress, Greet, Promote, Advance;
    HearsNothing(s, s, c.now);
    match input
    case SocketOpened(ok) =>
      AdvanceTells(s, ok, AwaitHandshake, c);
      var t := s.(phase := s.phase.(opening := AwaitHandshake));
      HearsNothing(s, t, c.now);
      GreetTells(t, c);
      PlusNothing(OfOpening(s, SocketOpened(true)));
      if ok && s.phase.opening == Connecting && Alive(s, s.phase.generation) {
        Then(s, t, Greet(t, c), NOTHING, OfOpening(s, input), OfOpening(s, input), c.now);
      }
    case AckArrived(ack) =>
      AdvanceTells(s, ack.Got?, AwaitFeatures, c);
      AdvanceTells(s, !ack.Broken?, Subscribing, c);
    case Subscribed(ok) =>
      FailTells(s, c);
      PromoteTells(s, c);
      HearsNothing(s, s.(phase := Loop), c.now);
    case _ =>
  }

  lemma SentTells(s: State, ok: bool, c: Clock)
    requires s.phase.Sending?
    ensures Hears(s, OnSent(s, ok, c),
                  if !ok then LostSocket()
                  else if s.phase.update.SetActivity? then NOTHING else ToStore(s.phase.update), c.now)
  {
    hide Hears, Suppress, Apply;
    FailTells(s, c);
    ApplyTells(s, s.phase.update, c.now);
    var t := Apply(s, s.phase.update);
    var x := if s.phase.update.SetActivity? then NOTHING else ToStore(s.phase.update);
    Still(s, t, t.(phase := Loop), x, c.now);
    Still(s, t, t.(phase := Loop).(timers := t.timers.(verifyAt := Some(c.now + VERIFY_DEBOUNCE),
                                                       verifyBudget := Some(c.now + VERIFY_BUDGET))), x, c.now);
  }

  lemma FlushTells(s: State, sent: bool, c: Clock)
    requires s.phase.Flushing?
    ensures Hears(s, OnFlush(s, sent, c), OfFlush(s, sent), c.now)
  {
    hide Hears, Suppress, Route, Sendable;
    if s.phase.rest == [] {
      HearsNothing(s, s.(phase := Loop), c.now);
    } else {
      var a := s.phase.rest[0];
      var t := Perform(s, a, sent, c);
      HearsNothing(s, s, c.now);
      SuppressTells(s, c);
      if a.SetAudioRoute? {
        RouteTells(s, a.mode, c.now);
        RouteIsNoMessage(s, a);
      }
      Still(s, t, OnFlush(s, sent, c), OfFlush(s, sent), c.now);
    }
  }

  lemma RouteIsNoMessage(s: State, a: Handoff.Action)
    requires a.SetAudioRoute?
    ensures !Sendable(s, a)
  {}

  // ---- every step

  /** Where link events are taken off the queue. */
  predicate TakesLinkEvents(phase: Phase) {
    match phase
    case Loop => true
    case CommandDrain(_) => true
    case VerifyDrain(_) => true
    case DialDrain => true
    case OpeningLink(_, _, _) => true
    case _ => false
  }

  /** Where packets are read: off the promoted link, and while the two handshakes of an opening are awaited. */
  predicate ReadsPackets(s: State) {
    match s.phase
    case Loop => s.radio.sock
    case OpeningLink(_, _, opening) => opening.AwaitHandshake? || opening.AwaitFeatures?
    case _ => false
  }

  /** A yield waits for what still plays here to stop. */
  predicate AwaitsSilence(s: State) {
    match s.phase
    case Flushing(rest) =>
      rest != [] && rest[0] == Handoff.SetAudioRoute(Handoff.Yielded)
      && s.desk.playback.Some? && s.desk.playback.value.playing
    case _ => false
  }

  /** What the input carries to the parts, in the state it finds; `after` it a rejoin is pending or not. */
  function Carries(s: State, input: Input, now: Millis, after: bool): Carried {
    match input
    case Link(event) => if TakesLinkEvents(s.phase) then OfLink(s, event, s.rejoin.pending.Some?, after) else NOTHING
    case Received(packet) => if ReadsPackets(s) then OfPacket(s, packet) else NOTHING
    case Playing(reading) => if s.phase.Loop? || AwaitsSilence(s) then OfReading(reading) else NOTHING
    case Command(request, context, deadline) =>
      if s.phase.Loop? && now < deadline && context == Store.ContextOf(s.store) then OfCommand(s, request, after)
      else NOTHING
    case LinkDied => if s.phase.Loop? && s.radio.sock then LostSocket() else NOTHING
    case Seen(rssi) =>
      if s.phase.Loop? then ToAuto(s.rejoin.pending.Some?, AutoConnect.Seen(rssi)) else NOTHING
    case Tick => if s.phase.Loop? then OfTick(s, now, after) else NOTHING
    case WorkerReports(rejoin, job) => if s.phase.Loop? then OfReport(s, rejoin, job) else NOTHING
    case Fresh(answer) => OfFresh(s, answer)
    case Proceed(gone) => OfProceed(s, gone, now)
    case SendDone(ok) =>
      if !s.phase.Sending? then NOTHING
      else if !ok then LostSocket()
      else if s.phase.update.SetActivity? then NOTHING else ToStore(s.phase.update)
    case Flush(sent) => if s.phase.Flushing? then OfFlush(s, sent) else NOTHING
    case WorkerChecks(_, _) => NOTHING
    case WorkerEnds(_, _, _) => NOTHING
    case _ => if s.phase.OpeningLink? then OfOpening(s, input) else NOTHING
  }

  lemma AttendTells(s: State, input: Input, c: Clock)
    requires s.phase.Loop? && !input.Link? && !input.Received? && !input.WorkerChecks? && !input.WorkerEnds?
    ensures var t := Attend(s, input, c); Hears(s, t, Carries(s, input, c.now, t.rejoin.pending.Some?), c.now)
  {
    hide Hears, OnCommand, Suppress, AutoEvent, OnPlayback, OnTick, OnReport;
    HearsNothing(s, s, c.now);
    match input
    case Command(request, context, deadline) => CommandTells(s, request, context, deadline, c);
    case LinkDied => SuppressTells(s, c);
    case Seen(rssi) => AutoTells(s, AutoConnect.Seen(rssi), c);
    case Playing(reading) => ReadingTells(s, reading, c);
    case Tick => TickTells(s, c);
    case WorkerReports(rejoin, job) => ReportTells(s, rejoin, job, c);
    case _ =>
  }

  lemma ResumeTells(s: State, input: Input, c: Clock)
    requires !s.phase.Loop? && !input.Link? && !input.Received? && !input.WorkerChecks? && !input.WorkerEnds?
    ensures Hears(s, Resume(s, input, c), Carries(s, input, c.now, false), c.now)
  {
    hide Hears, OnFresh, OnProceed, OnSent, OnPlayback, OnFlush, OnOpening;
    HearsNothing(s, s, c.now);
    match input
    case Fresh(answer) => FreshTells(s, answer, c);
    case Proceed(gone) => ProceedTells(s, gone, c);
    case _ =>
      if s.phase.OpeningLink? {
        OpeningTells(s, input, c);
        OpeningOnly(s, input);
      } else {
        WorkTells(s, input, c);
      }
  }

  lemma OpeningOnly(s: State, input: Input)
    requires s.phase.OpeningLink? && !input.Fresh? && !input.Proceed?
    requires !input.Link? && !input.Received? && !input.WorkerChecks? && !input.WorkerEnds?
    ensures Carries(s, input, 0, false) == OfOpening(s, input)
    ensures forall now :: Carries(s, input, now, false) == OfOpening(s, input)
  {}

  lemma WorkTells(s: State, input: Input, c: Clock)
    requires !s.phase.Loop? && !s.phase.OpeningLink? && !input.Fresh? && !input.Proceed?
    requires !input.Link? && !input.Received? && !input.WorkerChecks? && !input.WorkerEnds?
    ensures Hears(s, Work(s, input, c), Carries(s, input, c.now, false), c.now)
  {
    hide Hears, OnSent, OnPlayback, OnFlush;
    HearsNothing(s, s, c.now);
    match input
    case SendDone(ok) => if s.phase.Sending? { SentTells(s, ok, c); }
    case Playing(reading) => ReadingTells(s, reading, c);
    case Flush(sent) => if s.phase.Flushing? { FlushTells(s, sent, c); }
    case _ =>
  }

  lemma LinkInputTells(s: State, event: LinkEvent, c: Clock)
    ensures var t := OnLinkInput(s, event, c);
      Hears(s, t, Carries(s, Link(event), c.now, t.rejoin.pending.Some?), c.now)
  {
    hide Hears, OnLink, OfLink;
    HearsNothing(s, s, c.now);
    var t := OnLink(s, event, c);
    LinkTells(s, event, c);
    Still(s, t, t.(phase := Loop), OfLink(s, event, s.rejoin.pending.Some?, t.rejoin.pending.Some?), c.now);
  }

  lemma HandleTells(s: State, input: Input, c: Clock)
    ensures var t := Handle(s, input, c); Hears(s, t, Carries(s, input, c.now, t.rejoin.pending.Some?), c.now)
  {
    hide Hears, OnLinkInput, OnPacket, Attend, Resume, OnWorker;
    HearsNothing(s, s, c.now);
    match input
    case Link(event) => LinkInputTells(s, event, c);
    case Received(packet) => PacketTells(s, packet, c);
    case WorkerChecks(_, _) => WorkerTells(s, input, c.now);
    case WorkerEnds(_, _, _) => WorkerTells(s, input, c.now);
    case _ =>
      if s.phase.Loop? {
        AttendTells(s, input, c);
      } else {
        ResumeTells(s, input, c);
        AfterIsIdle(s, input, c.now);
      }
  }

  /** Outside the main loop nothing that is carried depends on what rejoin does now. */
  lemma AfterIsIdle(s: State, input: Input, now: Millis)
    requires !s.phase.Loop? && !input.Link?
    ensures Carries(s, input, now, true) == Carries(s, input, now, false)
  {}

  lemma WorkerTells(s: State, input: Input, now: Millis)
    ensures Hears(s, OnWorker(s, input), NOTHING, now)
  {
    hide Check, End, RejoinManned, AutoManned;
    if Manned(s) {
      WorkerMans(s, input);
    }
  }

  lemma EndTells(s: State, t: State, x: Carried, now: Millis)
    requires Hears(s, t, x, now)
    ensures Hears(s, EndWake(t), x, now) && EndWake(t).rejoin == t.rejoin
  {
    hide RejoinManned, AutoManned;
  }

  /** Every step tells every part exactly what its input carries, and nothing else. */
  lemma StepTells(s: State, input: Input, c: Clock)
    ensures var t := Step(s, input, c); Hears(s, t, Carries(s, input, c.now, t.rejoin.pending.Some?), c.now)
  {
    hide Hears, Handle, Carries, EndWake, Wakes;
    var t := Handle(s, input, c);
    HandleTells(s, input, c);
    EndTells(s, t, Carries(s, input, c.now, t.rejoin.pending.Some?), c.now);
  }

  // ---- the link and the identity

  /** Only a link event that is handled moves the link or the identity. */
  predicate NetMoves(s: State, input: Input, t: State) {
    if !input.Link? || !TakesLinkEvents(s.phase) then Net(s, t)
    else
      match input.event
      case Connected(up) => t.host == s.host && t.radio.acl == up
      case AdapterGone => t.host == s.host && !t.radio.acl
      case Identity(adapter, address, _, _, pinned) =>
        t.host == s.host.(adapter := Some(adapter), device := Some(address), pinned := pinned)
        && t.radio.acl == (s.radio.acl && t.host == s.host)
      case _ => Net(s, t)
  }

  predicate Net(s: State, t: State) {
    t.host == s.host && t.radio.acl == s.radio.acl
  }

  lemma NetPacket(s: State, packet: Packet, c: Clock)
    ensures Net(s, OnPacket(s, packet, c))
  {
    hide Rejoin.Step, AutoConnect.Step, Handoff.Step, EarMedia.Step, Store.Step, Queued, RejoinActs, AutoActs;
    hide NextSequence, Shown, AudioOnAirPods, Addresses;
  }

  lemma NetCommand(s: State, request: Request, context: Store.Context, deadline: Millis, c: Clock)
    ensures Net(s, OnCommand(s, request, context, deadline, c))
  {
    hide Rejoin.Step, AutoConnect.Step, Handoff.Step, EarMedia.Step, Store.Step, Queued, RejoinActs, AutoActs;
    hide NextSequence, Shown, AudioOnAirPods, Settings.ValidSetting;
  }

  lemma NetTick(s: State, c: Clock)
    ensures Net(s, OnTick(s, c))
  {
    hide Rejoin.Step, AutoConnect.Step, Handoff.Step, EarMedia.Step, Store.Step, Queued, RejoinActs, AutoActs;
    hide NextSequence, Shown, AudioOnAirPods;
  }

  lemma NetAttend(s: State, input: Input, c: Clock)
    ensures Net(s, Attend(s, input, c))
  {
    hide OnCommand, OnTick, OnReport, OnPlayback, AutoEvent, Suppress;
    match input
    case Command(request, context, deadline) => NetCommand(s, request, context, deadline, c);
    case Tick => NetTick(s, c);
    case LinkDied => NetSuppress(s, c);
    case Seen(rssi) => NetAuto(s, AutoConnect.Seen(rssi), c);
    case Playing(reading) => NetReading(s, reading, c);
    case WorkerReports(rejoin, job) => NetReport(s, rejoin, job, c);
    case _ =>
  }

  lemma NetSuppress(s: State, c: Clock)
    ensures Net(s, Suppress(s, c))
  {
    hide Rejoin.Step, AutoConnect.Step, Handoff.Step, EarMedia.Step, Store.Step, Queued, RejoinActs, AutoActs;
    hide AudioOnAirPods;
  }

  lemma NetAuto(s: State, event: AutoConnect.Event, c: Clock)
    ensures Net(s, AutoEvent(s, event, c))
  {
    hide Rejoin.Step, AutoConnect.Step, Handoff.Step, EarMedia.Step, Store.Step, Queued, RejoinActs, AutoActs;
    hide NextSequence, Shown;
  }

  lemma NetReading(s: State, reading: Reading, c: Clock)
    ensures Net(s, OnPlayback(s, reading, c))
  {
    hide Rejoin.Step, AutoConnect.Step, Handoff.Step, EarMedia.Step, Store.Step, Queued, RejoinActs, AutoActs;
    hide AudioOnAirPods;
  }

  lemma NetReport(s: State, rejoin: bool, job: nat, c: Clock)
    ensures Net(s, OnReport(s, rejoin, job, c))
  {
    hide Rejoin.Step, AutoConnect.Step, Handoff.Step, EarMedia.Step, Store.Step, Queued, RejoinActs, AutoActs;
    hide NextSequence, Shown, Without;
  }

  lemma NetResume(s: State, input: Input, c: Clock)
    ensures Net(s, Resume(s, input, c))
  {
    hide Rejoin.Step, AutoConnect.Step, Handoff.Step, EarMedia.Step, Store.Step, Queued, RejoinActs, AutoActs;
    hide NextSequence, Shown, AudioOnAirPods, Sendable, OnOpening;
    if s.phase.OpeningLink? {
      NetOpening(s, input, c);
    }
  }

  lemma NetOpening(s: State, input: Input, c: Clock)
    requires s.phase.OpeningLink?
    ensures Net(s, OnOpening(s, input, c))
  {
    hide Rejoin.Step, AutoConnect.Step, Handoff.Step, EarMedia.Step, Store.Step, Queued, RejoinActs, AutoActs;
    hide AudioOnAirPods;
  }

  lemma NetDisown(s: State, pinned: bool, c: Clock)
    ensures var t := Disown(s, pinned, c); t.host == s.host.(pinned := pinned) && !t.radio.acl
  {
    hide Rejoin.Step, AutoConnect.Step, Handoff.Step, EarMedia.Step, Store.Step, Queued, RejoinActs, AutoActs;
    hide NextSequence, Shown, AudioOnAirPods;
  }

  lemma NetAdopt(s: State, event: LinkEvent, c: Clock)
    requires event.Identity?
    ensures var t := Adopt(s, event, c);
      t.host == s.host.(adapter := Some(event.adapter), device := Some(event.address)) && t.radio.acl == s.radio.acl
  {
    hide Rejoin.Step, AutoConnect.Step, Handoff.Step, EarMedia.Step, Store.Step, Queued, RejoinActs, AutoActs;
    hide Codec.AddressText;
  }

  lemma NetIdentity(s: State, event: LinkEvent, c: Clock)
    requires event.Identity?
    ensures var t := OnIdentity(s, event, c);
      t.host == s.host.(adapter := Some(event.adapter), device := Some(event.address), pinned := event.pinned)
      && t.radio.acl == (s.radio.acl && t.host == s.host)
  {
    hide Disown, Adopt;
    NetDisown(s, event.pinned, c);
    NetAdopt(if ChangesIdentity(s, event) then Disown(s, event.pinned, c) else s, event, c);
  }

  lemma NetLink(s: State, event: LinkEvent, c: Clock)
    ensures NetMoves(s, Link(event), OnLinkInput(s, event, c))
  {
    hide Rejoin.Step, AutoConnect.Step, Handoff.Step, EarMedia.Step, Store.Step, Queued, RejoinActs, AutoActs;
    hide NextSequence, Shown, AudioOnAirPods, OnIdentity;
    if event.Identity? { NetIdentity(s, event, c); }
  }

  lemma StepNet(s: State, input: Input, c: Clock)
    ensures NetMoves(s, input, Step(s, input, c))
  {
    hide OnLinkInput, OnPacket, Attend, Resume, Check, End;
    match input
    case Link(event) => NetLink(s, event, c);
    case Received(packet) => NetPacket(s, packet, c);
    case _ =>
      NetAttend(s, input, c);
      NetResume(s, input, c);
  }

  // ---- whether local audio is heard on the AirPods

  /** The input tells the ear-media machine something it may act on. */
  predicate TellsEar(s: State, input: Input) {
    (input.Received? && input.packet.EarPacket? && ReadsPackets(s))
    || (input.Playing? && (s.phase.Loop? || AwaitsSilence(s)))
    || (input.Tick? && s.phase.Loop?)
  }

  /** Linked, not taken off the AirPods, and owned unless ownership does not matter. */
  predicate Audible(s: State, t: State) {
    s.radio.acl && s.desk.route != Some(Handoff.Yielded)
    && (!t.desk.handoff.enabled || (t.desk.handoff.owner == Handoff.Here && !t.desk.handoff.released))
  }

  /** The last thing told the ear-media machine came with this. */
  predicate ToldWith(log: seq<EarMediaRuns.Entry>, audio: bool) {
    |log| > 0 && log[|log| - 1].audio == audio
  }

  /** Ear media is told with every event whether local audio goes to the AirPods; on a tick, ownership goes first. */
  lemma EarIsToldAudio(s: State, input: Input, c: Clock)
    requires TellsEar(s, input)
    ensures var t := Step(s, input, c); ToldWith(t.desk.log.ear, Audible(s, if input.Tick? then t else s))
  {
    hide OnTick, OnPlayback, OnPacket;
    if input.Tick? {
      TickAudio(s, c);
    } else if input.Playing? {
      ReadingAudio(s, input.reading, c);
    } else {
      PacketAudio(s, input.packet, c);
    }
  }

  lemma PacketAudio(s: State, packet: Packet, c: Clock)
    requires packet.EarPacket?
    ensures ToldWith(OnPacket(s, packet, c).desk.log.ear, Audible(s, s))
  {
    hide Rejoin.Step, Handoff.Step, EarMedia.Step, Store.Step, Queued, RejoinActs, NextSequence, Shown;
  }

  lemma ReadingAudio(s: State, reading: Reading, c: Clock)
    ensures ToldWith(OnPlayback(s, reading, c).desk.log.ear, Audible(s, s))
  {
    hide Handoff.Step, EarMedia.Step, Queued;
  }

  lemma TickAudio(s: State, c: Clock)
    ensures var t := OnTick(s, c); ToldWith(t.desk.log.ear, Audible(s, t))
  {
    var t := HandoffEvent(s, Handoff.Tick, c);
    var u := EarEvent(t, EarMedia.Tick, c);
    var v := AutoEvent(RejoinEvent(u, Rejoin.Tick, c), AutoConnect.Tick, c);
    assert v.desk == u.desk by {
      RejoinTells(u, Rejoin.Tick, c);
      AutoTells(RejoinEvent(u, Rejoin.Tick, c), AutoConnect.Tick, c);
    }
    TimersLeaveAudio(v, c);
    hide Handoff.Step, EarMedia.Step, Queued, RejoinEvent, AutoEvent, TickVerification;
  }

  lemma TimersLeaveAudio(s: State, c: Clock)
    ensures var t := TickVerification(s, c);
      t.desk.log.ear == s.desk.log.ear && t.desk.handoff.enabled == s.desk.handoff.enabled
      && t.desk.handoff.owner == s.desk.handoff.owner && t.desk.handoff.released == s.desk.handoff.released
  {
    hide Store.Step, Queued;
  }
}
