/**
 The supervisor: one task that owns the link, feeds the four decision machines, publishes into the store, and runs
 connects, dials, readbacks and queued side effects that other events interleave with.

 `Step` is one uninterrupted piece of that loop or of a connect worker, as a function of the old state; class
 `Supervisor` takes exactly those steps with the machines and the store as objects. Everything the supervisor awaits is
 a phase it can be found in, and the outcome of the wait is an input.
 */
module Supervisor {
  import opened Prelude
  import Settings
  import Rejoin
  import RejoinRuns
  import AutoConnect
  import AutoConnectRuns
  import Handoff
  import HandoffRuns
  import EarMedia
  import EarMediaRuns
  import Store
  import StoreRuns
  import Codec

  const SETTLE: Millis := 800
  const BUD_SWITCH_WINDOW: Millis := 15_000
  const VERIFY_DEBOUNCE: Millis := 1_500
  const VERIFY_BUDGET: Millis := 10_000
  const READBACK_WINDOW: Millis := 2_000
  const SUPPORTED_MODEL: string := "201B"

  // ---- inputs

  datatype LinkEvent =
    | Identity(adapter: Address, address: Address, name: Option<string>, modelId: Option<string>, pinned: bool)
    | Disconnected(reason: Rejoin.Reason, facts: Option<Rejoin.LinkFacts>, lidClosed: bool)
    | Connected(up: bool)
    | AdapterGone
    | AudioTransport
    | A2dpTransport(active: bool)
    /** Host identifiers, hands-free transports and the end of the watch: none of them touches this state. */
    | OtherLinkEvent

  /** A reading of the local players. */
  datatype Reading = Reading(playing: bool, app: Option<string>, player: Option<string>)

  datatype Packet =
    | BatteryPacket
    /** `left` and `right`: the buds as the store resolves primary and secondary. */
    | EarPacket(bothInCase: bool, left: EarMedia.EarState, right: EarMedia.EarState)
    | SettingPacket(setting: Settings.Setting)
    | MetadataPacket(mdName: Option<string>)
    | AddressPacket(bud: Address, trailer: byte)
    | DevicesPacket(hosts: seq<Rejoin.ListedHost>)
    | RelayPacket(sender: Address, requestsYield: bool)
    | OwnershipPacket(owns: bool)
    | SourcePacket(source: Address, doing: Handoff.SourceState)
    | OtherPacket

  datatype Request =
    | Reconnect
    | ConnectOnce
    | TakeOver
    | Yield
    | SetHandoff(enabled: bool)
    /** Noise control, conversational awareness or adaptive level: sent, and never read back. */
    | Control
    | Write(setting: Settings.Setting)
    /** A name the codec accepts. */
    | Rename(newName: string)

  /** What a fresh read of BlueZ says: connected, not connected, or nothing in time. */
  datatype Answer = Yes | No | Unavailable

  datatype Ack = Got | TimedOut | Broken

  datatype Input =
    | Link(event: LinkEvent)
    | Command(request: Request, context: Store.Context, deadline: Millis)
    /** The awaited read of BlueZ returns. */
    | Fresh(answer: Answer)
    /** No link event is queued any more; `gone`: the client has hung up. */
    | Proceed(gone: bool)
    /** The datagram of a write went out in full, or did not. */
    | SendDone(ok: bool)
    | SocketOpened(ok: bool)
    | AckArrived(ack: Ack)
    | Subscribed(ok: bool)
    | Received(packet: Packet)
    /** The peer closed, a receive or a send failed, or a watchdog ran out. */
    | LinkDied
    | Seen(rssi: Option<int>)
    | Playing(reading: Reading)
    /** The next queued side effect is carried out; `sent`: its datagram, if it has one, went out. */
    | Flush(sent: bool)
    | Tick
    | WorkerChecks(rejoin: bool, job: nat)
    | WorkerEnds(rejoin: bool, job: nat, outcome: Rejoin.Outcome)
    | WorkerReports(rejoin: bool, job: nat)

  /** The clock reading and the wall-clock text of one step. */
  datatype Clock = Clock(now: Millis, stamp: string)

  // ---- state

  datatype DialKind = Automatic | Manual

  datatype Sequence = Sequence(rejoin: bool, seqNo: nat, reason: Store.LinkReason, since: string)

  /** A spawned connect: still checking BlueZ, inside `Device1.Connect`, or waiting to be heard. */
  datatype Stage = Checking | Calling | Done(outcome: Rejoin.Outcome)

  datatype Job = Job(seqNo: nat, stage: Stage)

  /** One machine's workers and the epoch they compare their sequence with before they call; 0 matches none. */
  datatype Crew = Crew(epoch: nat, jobs: seq<Job>)

  datatype Order = Order(context: Store.Context, deadline: Millis, connectOnce: bool)

  datatype Opening = Authorized | Connecting | AwaitHandshake | AwaitFeatures | Subscribing

  /** Where the supervisor is. */
  datatype Phase =
    | Loop
    | CommandCheck(order: Order)
    | CommandDrain(order: Order)
    | Sending(update: Store.Update)
    | VerifyCheck(started: Millis)
    | VerifyDrain(started: Millis)
    | DialDrain
    | Authorizing(kind: DialKind, generation: nat)
    | OpeningLink(kind: DialKind, generation: nat, opening: Opening)
    | Flushing(rest: seq<Handoff.Action>)

  datatype Radio = Radio(acl: bool, sock: bool, dialAt: Option<Millis>, dialKind: Option<DialKind>, generation: nat,
                         suppressed: bool)

  datatype Timers = Timers(verifyAt: Option<Millis>, verifyBudget: Option<Millis>, readbackAt: Option<Millis>)

  datatype Host = Host(adapter: Option<Address>, device: Option<Address>, pinned: bool, controlLink: bool,
                       autoControlLink: bool, controlAudio: bool)

  datatype BudSeen = BudSeen(bud: Address, at: Millis)

  datatype Panel = Panel(buds: seq<BudSeen>, sequence: Option<Sequence>, published: Option<Store.LinkActivity>)

  /** Everything folded into the parts so far, as runs of their own. */
  datatype Log = Log(rejoin: seq<RejoinRuns.Entry>, auto: seq<AutoConnectRuns.Entry>, store: seq<StoreRuns.Entry>)

  /** The runs of the two machines, and every side effect ever taken from the queue. */
  datatype DeskLog = DeskLog(handoff: seq<HandoffRuns.Entry>, ear: seq<EarMediaRuns.Entry>, taken: seq<Handoff.Action>)

  /** The desktop's side: who owns the audio, what ear detection did, where the card points, what is left to do. */
  datatype Desk = Desk(handoff: Handoff.State, ear: EarMedia.State, route: Option<Handoff.RouteMode>,
                       playback: Option<Reading>, queue: seq<Handoff.Action>, log: DeskLog)

  datatype State = State(
    rejoin: Rejoin.State,
    auto: AutoConnect.State,
    store: Store.State,
    desk: Desk,
    host: Host,
    radio: Radio,
    timers: Timers,
    rejoinCrew: Crew,
    autoCrew: Crew,
    panel: Panel,
    phase: Phase,
    log: Log)

  function NewDesk(enabled: bool, takeOverOnPlay: bool, ear: EarMedia.Config): Desk {
    Desk(Handoff.NewState(enabled, takeOverOnPlay), EarMedia.NewState(ear), None, None, [], DeskLog([], [], []))
  }

  function NewState(rejoin: Rejoin.State, auto: AutoConnect.Config, desk: Desk, address: string, host: Host): State {
    State(rejoin, AutoConnect.NewState(auto), Store.NewState(address), desk, host,
          Radio(false, false, None, None, 0, false), Timers(None, None, None), Crew(0, []), Crew(0, []),
          Panel([], None, None), Loop, Log([], [], []))
  }

  // ---- the store, the sockets and the panel

  function Apply(s: State, update: Store.Update): State {
    var t := Store.Step(s.store, update);
    s.(store := t, log := s.log.(store := s.log.store + [StoreRuns.Entry(update, t)]))
  }

  // ---- the desktop's side

  /** What plays here is heard on the AirPods: a link, no yielded route, and ownership where handoff decides it. */
  predicate AudioOnAirPods(s: State) {
    s.radio.acl && s.desk.route != Some(Handoff.Yielded)
    && (!s.desk.handoff.enabled || Handoff.OwnsAudio(s.desk.handoff))
  }

  /** The side effects to be carried out later: records and warnings are not. */
  function Queued(out: seq<Handoff.Action>): seq<Handoff.Action> {
    if out == [] then []
    else Queued(out[..|out| - 1])
         + if out[|out| - 1].Record? || out[|out| - 1].StreamNotStarted? then [] else [out[|out| - 1]]
  }

  /** The ownership machine hears an event; its actions wait in the queue. */
  function HandoffEvent(s: State, event: Handoff.Event, c: Clock): State {
    var n := Handoff.Step(s.desk.handoff, event, c.now);
    s.(desk := s.desk.(handoff := n.state, queue := s.desk.queue + Queued(n.out),
                       log := s.desk.log.(
                         handoff := s.desk.log.handoff + [HandoffRuns.Entry(event, c.now, n.out, n.state)])))
  }

  /** The ear-media machine hears an event; its requests need no queue. */
  function EarEvent(s: State, event: EarMedia.Event, c: Clock): State {
    var audio := AudioOnAirPods(s);
    var n := EarMedia.Step(s.desk.ear, event, audio, c.now);
    s.(desk := s.desk.(ear := n.state,
                       log := s.desk.log.(
                         ear := s.desk.log.ear + [EarMediaRuns.Entry(event, audio, c.now, n.out, n.state)])))
  }

  /** A route is asked for only if the device is known and card switching is on. */
  function Route(s: State, mode: Handoff.RouteMode): State {
    if s.host.controlAudio && s.host.device.Some? then s.(desk := s.desk.(route := Some(mode))) else s
  }

  function OnPlayback(s: State, reading: Reading, c: Clock): State {
    var t := s.(desk := s.desk.(playback := Some(reading)));
    HandoffEvent(EarEvent(t, EarMedia.Playback(reading.playing, reading.player), c),
                 Handoff.Playback(reading.playing, reading.app, reading.player), c)
  }

  /** Without a link there is no handoff left to put the card back after a yield. */
  function RestoreRoute(s: State): State {
    if s.desk.route != Some(Handoff.Yielded) then s
    else if s.radio.acl then Route(s, Handoff.Own)
    else s.(desk := s.desk.(route := None))
  }

  // ---- sockets and dials

  /** Also for a socket that was never promoted: what its opening brought is taken back. */
  function Unplug(s: State): State {
    var t := Apply(s.(radio := s.radio.(sock := false)), Store.AapLink(false));
    t.(timers := t.timers.(readbackAt := None))
  }

  function DropSocket(s: State, c: Clock): State {
    RestoreRoute(EarEvent(HandoffEvent(Unplug(s), Handoff.LinkClosed, c), EarMedia.LinkClosed, c))
  }

  function ArmDial(s: State, kind: DialKind, at: Millis): State {
    s.(radio := s.radio.(dialKind := Some(kind), dialAt := Some(at)))
  }

  /** Unattended dialling ends until the next edge of the link or a command. */
  function Suppress(s: State, c: Clock): State {
    DropSocket(s.(radio := s.radio.(suppressed := true, dialAt := None, dialKind := None)), c)
  }

  /** The sequence to be shown: rejoin first. */
  function Current(rejoin: Rejoin.State, auto: AutoConnect.State): Option<(bool, nat)> {
    if rejoin.pending.Some? then Some((true, rejoin.pending.value.seqNo))
    else if auto.pending.Some? then Some((false, auto.pending.value.seqNo))
    else None
  }

  /** The other bud became primary a moment ago. */
  predicate BudSwitched(buds: seq<BudSeen>, now: Millis) {
    |buds| == 2 && Since(now, buds[1].at) <= BUD_SWITCH_WINDOW
  }

  function RejoinReason(s: State, now: Millis): Store.LinkReason {
    if BudSwitched(s.panel.buds, now) then Store.BudSwitch
    else if s.rejoin.pending.Some? && s.rejoin.pending.value.kind == Rejoin.LinkLost then Store.LinkLost
    else Store.TakenOver
  }

  function NextSequence(s: State, c: Clock): Option<Sequence> {
    match Current(s.rejoin, s.auto)
    case None => None
    case Some((rejoin, seqNo)) =>
      if s.panel.sequence.Some? && s.panel.sequence.value.rejoin == rejoin && s.panel.sequence.value.seqNo == seqNo
      then s.panel.sequence
      else Some(Sequence(rejoin, seqNo, if rejoin then RejoinReason(s, c.now) else Store.AutoConnect, c.stamp))
  }

  /** What the panel says about a sequence. */
  function Shown(rejoin: Rejoin.State, auto: AutoConnect.State,
                 sequence: Option<Sequence>): Option<Store.LinkActivity> {
    if sequence.None? then None
    else Some(Store.LinkActivity(sequence.value.reason,
                                 if sequence.value.rejoin then rejoin.PendingAttempt() else auto.PendingAttempt(),
                                 sequence.value.since))
  }

  function PublishLink(s: State, c: Clock): State {
    var sequence := NextSequence(s, c);
    var view := Shown(s.rejoin, s.auto, sequence);
    var t := s.(panel := s.panel.(sequence := sequence, published := view));
    if view != s.panel.published then Apply(t, Store.SetActivity(view)) else t
  }

  // ---- the two machines

  /** A worker, or without an identity or the right to connect an immediate answer. */
  function Spawn(crew: Crew, known: bool, allowed: bool, seqNo: nat): Crew {
    if !known then crew.(jobs := crew.jobs + [Job(seqNo, Done(Rejoin.NotReady(Rejoin.DeviceUnknown)))])
    else if !allowed then crew.(jobs := crew.jobs + [Job(seqNo, Done(Rejoin.NotReady(Rejoin.LinkControlOff)))])
    else Crew(seqNo, crew.jobs + [Job(seqNo, Checking)])
  }

  predicate Known(host: Host) {
    host.adapter.Some? && host.device.Some?
  }

  function RejoinActs(crew: Crew, host: Host, out: seq<Rejoin.Action>): Crew {
    if out == [] then crew
    else
      var before := RejoinActs(crew, host, out[..|out| - 1]);
      match out[|out| - 1]
      case Cancelled(_) => before.(epoch := 0)
      case Connect(seqNo, _) => Spawn(before, Known(host), host.controlLink, seqNo)
      case _ => before
  }

  function AutoActs(crew: Crew, host: Host, out: seq<AutoConnect.Action>): Crew {
    if out == [] then crew
    else
      var before := AutoActs(crew, host, out[..|out| - 1]);
      match out[|out| - 1]
      case Cancelled(_) => before.(epoch := 0)
      case GaveUp => before.(epoch := 0)
      case Connect(seqNo, _) => Spawn(before, Known(host), host.autoControlLink, seqNo)
      case _ => before
  }

  /** The rejoin machine hears an event, and what it decides is done. */
  function RejoinFold(s: State, event: Rejoin.Event, c: Clock): State {
    var n := Rejoin.Step(s.rejoin, event, c.now);
    s.(rejoin := n.state,
       rejoinCrew := RejoinActs(s.rejoinCrew, s.host, n.out),
       log := s.log.(rejoin := s.log.rejoin + [RejoinRuns.Entry(event, c.now, n.out, n.state)]))
  }

  function RejoinEvent(s: State, event: Rejoin.Event, c: Clock): State {
    PublishLink(RejoinFold(s, event, c), c)
  }

  function AutoFold(s: State, event: AutoConnect.Event, c: Clock): State {
    var n := AutoConnect.Step(s.auto, event, c.now);
    s.(auto := n.state,
       autoCrew := AutoActs(s.autoCrew, s.host, n.out),
       log := s.log.(auto := s.log.auto + [AutoConnectRuns.Entry(event, c.now, n.out, n.state)]))
  }

  /** Rejoin owns eviction recovery: auto-connect is told first whether one is pending. */
  function AutoEvent(s: State, event: AutoConnect.Event, c: Clock): State {
    PublishLink(AutoFold(AutoFold(s, AutoConnect.SetRejoinPending(s.rejoin.pending.Some?), c), event, c), c)
  }

  // ---- link events

  predicate ChangesIdentity(s: State, event: LinkEvent)
    requires event.Identity?
  {
    s.host.adapter != Some(event.adapter) || s.host.device != Some(event.address) || s.host.pinned != event.pinned
  }

  /** Permissions and pending sequences end with the identity they were given under. */
  function Disown(s: State, pinned: bool, c: Clock): State {
    var t := s.(radio := s.radio.(generation := s.radio.generation + 1, acl := false, dialAt := None, dialKind := None),
                host := s.host.(pinned := pinned));
    RejoinEvent(Apply(DropSocket(t, c), Store.AclConnected(false)), Rejoin.IdentityChanged, c)
  }

  function OnIdentity(s: State, event: LinkEvent, c: Clock): State
    requires event.Identity?
  {
    var t := if ChangesIdentity(s, event) then Disown(s, event.pinned, c) else s;
    Adopt(t, event, c)
  }

  /** The identity in force from now on. */
  function Adopt(s: State, event: LinkEvent, c: Clock): State
    requires event.Identity?
  {
    var u := RejoinFold(s, Rejoin.SetLocal(event.adapter), c);
    var v := HandoffEvent(u, Handoff.SetLocal(event.adapter), c);
    Apply(v.(host := v.host.(adapter := Some(event.adapter), device := Some(event.address))),
          Store.Identity(Codec.AddressText(event.address), event.name, event.modelId))
  }

  /** The link was seen down and is up: one automatic dial is allowed again. */
  function StartPeriod(s: State, c: Clock): State {
    var t := s.(radio := s.radio.(acl := true, generation := s.radio.generation + 1, suppressed := false),
                panel := s.panel.(buds := []));
    ArmDial(RejoinEvent(t, Rejoin.LinkSessionStarted, c), Automatic, c.now + SETTLE)
  }

  function OnConnected(s: State, c: Clock): State {
    var t := RejoinEvent(s, Rejoin.LinkConnected(true), c);
    var v := HandoffEvent(AutoEvent(t, AutoConnect.LocalConnected, c), Handoff.AudioLinkChanged, c);
    var u := Apply(v, Store.AclConnected(true));
    if u.radio.acl then u else StartPeriod(u, c)
  }

  function OnDown(s: State, event: Rejoin.Event, c: Clock): State {
    var t := RejoinEvent(s, event, c);
    var u := HandoffEvent(AutoEvent(t, AutoConnect.LocalDisconnected(Rejoin.Unknown), c), Handoff.AudioLinkChanged, c);
    LoseLink(u, c)
  }

  /** Nothing begun on the old link may be completed. */
  function LoseLink(s: State, c: Clock): State {
    var changed := s.radio.acl || s.host.adapter.Some?;
    var t := s.(radio := s.radio.(acl := false, dialAt := None, dialKind := None,
                                  generation := s.radio.generation + if changed then 1 else 0));
    Apply(DropSocket(t, c), Store.AclConnected(false))
  }

  function OnLink(s: State, event: LinkEvent, c: Clock): State {
    match event
    case Identity(_, _, _, _, _) => OnIdentity(s, event, c)
    case Disconnected(reason, facts, lidClosed) =>
      RejoinEvent(AutoEvent(s.(desk := s.desk.(route := None)), AutoConnect.LocalDisconnected(reason), c),
                  Rejoin.Disconnected(reason, facts, lidClosed), c)
    case Connected(up) => if up then OnConnected(s, c) else OnDown(s, Rejoin.LinkConnected(false), c)
    case AdapterGone => OnDown(s, Rejoin.AdapterGone, c)
    case AudioTransport => HandoffEvent(s, Handoff.AudioLinkChanged, c)
    case A2dpTransport(active) => HandoffEvent(s, Handoff.A2dpTransport(active), c)
    case OtherLinkEvent => s
  }

  // ---- packets and the readback

  function FinishReadback(s: State, c: Clock): State {
    var t := Apply(s.(timers := s.timers.(readbackAt := None, verifyBudget := None)), Store.VerifyCompleted);
    HandoffEvent(t, Handoff.OpeningSettled, c)
  }

  function AbandonReadback(s: State): State {
    Apply(s.(timers := s.timers.(verifyAt := None, verifyBudget := None)), Store.VerifyFailed)
  }

  /** Remember the accessory's last two distinct addresses; its own entries end in 02. */
  function NoteBud(s: State, bud: Address, trailer: byte, now: Millis): State {
    if trailer != 2 || s.host.adapter == Some(bud) then s
    else if s.panel.buds != [] && s.panel.buds[|s.panel.buds| - 1].bud == bud then s
    else
      var buds := s.panel.buds + [BudSeen(bud, now)];
      s.(panel := s.panel.(buds := if |buds| > 2 then buds[1..] else buds))
  }

  /** An ownership report: it also turns the card, unless it belongs to the opening. */
  function OnOwnership(s: State, owns: bool, c: Clock): State {
    var opening := !s.radio.sock || s.timers.readbackAt.Some?;
    var t := HandoffEvent(s, Handoff.OwnsConnection(owns, opening), c);
    if t.desk.handoff.enabled then Route(t, if owns then Handoff.Own else Handoff.Yielded) else t
  }

  function Addresses(hosts: seq<Rejoin.ListedHost>): seq<Address> {
    seq(|hosts|, i requires 0 <= i < |hosts| => hosts[i].address)
  }

  function OnPacket(s: State, packet: Packet, c: Clock): State {
    match packet
    case BatteryPacket => if s.timers.readbackAt.Some? then FinishReadback(s, c) else s
    case EarPacket(bothInCase, left, right) =>
      EarEvent(RejoinEvent(s, Rejoin.Ear(bothInCase), c), EarMedia.Ear(left, right), c)
    case SettingPacket(setting) => Apply(s, Store.SettingReport(setting))
    case MetadataPacket(name) => Apply(s, Store.Metadata(name))
    case AddressPacket(bud, trailer) => NoteBud(s, bud, trailer, c.now)
    case DevicesPacket(hosts) =>
      HandoffEvent(RejoinEvent(s, Rejoin.ConnectedDevices(hosts), c), Handoff.ConnectedDevices(Addresses(hosts)), c)
    case RelayPacket(sender, requestsYield) =>
      HandoffEvent(RejoinEvent(s, Rejoin.Relay(sender), c), Handoff.SmartRouting(sender, requestsYield), c)
    case OwnershipPacket(owns) => OnOwnership(s, owns, c)
    case SourcePacket(source, doing) => HandoffEvent(s, Handoff.AudioSource(source, doing), c)
    case OtherPacket => s
  }

  /** The socket goes, and one manual dial is due at once. */
  function Reopen(s: State, c: Clock): State {
    ArmDial(DropSocket(s, c), Manual, c.now)
  }

  // ---- ticks

  predicate Due(at: Option<Millis>, now: Millis) {
    at.Some? && now >= at.value
  }

  /** The budget check that ends every pass over the readback timers, with the clock reading it began with. */
  function CheckBudget(s: State, started: Millis): State {
    if Due(s.timers.verifyBudget, started) then AbandonReadback(s) else s
  }

  /** What is left of a tick after the readback timers: a due dial, or nothing. */
  function EndTick(s: State, c: Clock): State {
    s.(phase := if s.radio.acl && !s.radio.sock && Due(s.radio.dialAt, c.now) then DialDrain else Loop)
  }

  function AfterVerify(s: State, started: Millis, c: Clock): State {
    EndTick(CheckBudget(s, started), c)
  }

  function TickVerification(s: State, c: Clock): State {
    var t := if Due(s.timers.readbackAt, c.now) then FinishReadback(s, c) else s;
    if !Due(t.timers.verifyAt, c.now) then AfterVerify(t, c.now, c)
    else
      var u := t.(timers := t.timers.(verifyAt := None));
      if !u.radio.acl && !u.radio.sock then AfterVerify(AbandonReadback(u), c.now, c)
      else u.(phase := VerifyCheck(c.now))
  }

  function OnTick(s: State, c: Clock): State {
    var t := EarEvent(HandoffEvent(s, Handoff.Tick, c), EarMedia.Tick, c);
    TickVerification(AutoEvent(RejoinEvent(t, Rejoin.Tick, c), AutoConnect.Tick, c), c)
  }

  // ---- commands

  predicate IsCurrent(s: State, context: Store.Context, deadline: Millis, c: Clock) {
    c.now < deadline && Store.ContextOf(s.store) == context
  }

  function ManualCommand(s: State, c: Clock): State {
    AutoEvent(RejoinEvent(s, Rejoin.ManualCommand, c), AutoConnect.ManualCommand, c)
  }

  /** An update asks for a verdict. */
  predicate Asks(update: Store.Update) {
    update.SettingRequested? || update.RenameRequested?
  }

  /** The user's word goes through the ownership machine whatever its switch says. */
  function ManualHandoff(s: State, event: Handoff.Event, c: Clock): State {
    if !s.radio.sock || s.host.adapter.None? then s else HandoffEvent(s, event, c)
  }

  function SwitchHandoff(s: State, enabled: bool, c: Clock): State {
    var t := HandoffEvent(s, Handoff.SetEnabled(enabled), c);
    RejoinEvent(if !enabled && t.desk.route == Some(Handoff.Yielded) then Route(t, Handoff.Own) else t,
                Rejoin.SetEnabled(enabled), c)
  }

  /** A write needs a link and a model known to take it. */
  function StartWrite(s: State, update: Store.Update): State {
    if !s.radio.sock || s.store.device.modelId != SUPPORTED_MODEL then s else s.(phase := Sending(update))
  }

  /** A write that went out is pending from now on; one that failed leaves the link unusable. */
  function OnSent(s: State, ok: bool, c: Clock): State
    requires s.phase.Sending?
  {
    if !ok then Suppress(s, c).(phase := Loop)
    else
      var t := Apply(s, s.phase.update).(phase := Loop);
      if !Asks(s.phase.update) then t
      else t.(timers := t.timers.(verifyAt := Some(c.now + VERIFY_DEBOUNCE),
                                  verifyBudget := Some(c.now + VERIFY_BUDGET)))
  }

  function OnCommand(s: State, request: Request, context: Store.Context, deadline: Millis, c: Clock): State {
    if !IsCurrent(s, context, deadline, c) then s
    else
      match request
      case Reconnect => ManualCommand(s, c).(phase := CommandCheck(Order(context, deadline, false)))
      case ConnectOnce =>
        var t := ManualCommand(s, c);
        if t.host.pinned && Known(t.host) then t.(phase := CommandCheck(Order(context, deadline, true))) else t
      case TakeOver => ManualHandoff(s, Handoff.TakeOver, c)
      case Yield => ManualHandoff(s, Handoff.Yield, c)
      case SetHandoff(enabled) => SwitchHandoff(s, enabled, c)
      case Control => if s.radio.sock then s.(phase := Sending(Store.Unrelated)) else s
      case Write(setting) =>
        if Settings.ValidSetting(setting) then StartWrite(s, Store.SettingRequested(setting)) else s
      case Rename(name) => StartWrite(s, Store.RenameRequested(name))
  }

  // ---- waits

  /** A fresh read of BlueZ returns. */
  function OnFresh(s: State, answer: Answer, c: Clock): State {
    match s.phase
    case CommandCheck(order) => s.(phase := if answer.Yes? then CommandDrain(order) else Loop)
    case VerifyCheck(started) =>
      if answer.Yes? then s.(phase := VerifyDrain(started)) else AfterVerify(AbandonReadback(s), started, c)
    case Authorizing(kind, generation) =>
      if answer.Yes? then s.(phase := OpeningLink(kind, generation, Authorized))
      else (if kind == Automatic then Suppress(s, c) else s).(phase := Loop)
    case _ => s
  }

  predicate Alive(s: State, generation: nat) {
    s.radio.acl && s.radio.generation == generation
  }

  /** The dial takes the one permission there is. */
  function StartDial(s: State, c: Clock): State {
    if !s.radio.acl || s.radio.dialKind.None? then s.(phase := Loop)
    else
      var kind := s.radio.dialKind.value;
      var t := s.(radio := s.radio.(dialKind := None));
      if !Known(t.host) then Suppress(t, c).(phase := Loop)
      else t.(radio := t.radio.(dialAt := None), phase := Authorizing(kind, t.radio.generation))
  }

  /** The last check is behind: the socket becomes the link. */
  function Promote(s: State, c: Clock): State {
    var t := Apply(s.(radio := s.radio.(sock := true)), Store.AapLink(true));
    t.(timers := t.timers.(readbackAt := Some(c.now + READBACK_WINDOW)), phase := Loop)
  }

  /** The client still waits and nothing has moved: reopen. A `connect-once` is BlueZ's business from here. */
  function Obey(s: State, gone: bool, c: Clock): State
    requires s.phase.CommandDrain?
  {
    var order := s.phase.order;
    var t := s.(phase := Loop);
    if gone || !IsCurrent(s, order.context, order.deadline, c) || order.connectOnce then t else Reopen(t, c)
  }

  /** The reopening is announced before the socket drops, so that the loss is not read as a failed readback. */
  function ReadBack(s: State, c: Clock): State
    requires s.phase.VerifyDrain?
  {
    AfterVerify(if s.radio.acl then Reopen(Apply(s, Store.VerifyReopening), c) else AbandonReadback(s),
                s.phase.started, c)
  }

  /** The dial goes on to the socket if nothing has come between. */
  function Depart(s: State): State
    requires s.phase.OpeningLink?
  {
    s.(phase := if Alive(s, s.phase.generation) then s.phase.(opening := Connecting) else Loop)
  }

  /** The queue of link events is empty at a point where the supervisor looks. */
  function OnProceed(s: State, gone: bool, c: Clock): State {
    match s.phase
    case CommandDrain(_) => Obey(s, gone, c)
    case VerifyDrain(_) => ReadBack(s, c)
    case DialDrain => StartDial(s, c)
    case OpeningLink(_, _, _) => if s.phase.opening == Authorized then Depart(s) else s
    case _ => s
  }

  /** An answer in the opening sequence: the next stage, or the end of the attempt. */
  function Advance(s: State, ok: bool, next: Opening, c: Clock): State
    requires s.phase.OpeningLink?
  {
    if !ok then Suppress(s, c).(phase := Loop)
    else if Alive(s, s.phase.generation) then s.(phase := s.phase.(opening := next))
    else s.(phase := Loop)
  }

  /** The socket is there: ownership reports can come, and a player already playing must not look like an edge. */
  function Greet(s: State, c: Clock): State {
    var t := HandoffEvent(s, Handoff.LinkOpened, c);
    if s.desk.playback.None? then t
    else HandoffEvent(t, Handoff.Playback(s.desk.playback.value.playing, s.desk.playback.value.app,
                                          s.desk.playback.value.player), c)
  }

  function Connect(s: State, ok: bool, c: Clock): State
    requires s.phase.OpeningLink?
  {
    if ok && Alive(s, s.phase.generation) then Greet(s.(phase := s.phase.(opening := AwaitHandshake)), c)
    else Advance(s, ok, AwaitHandshake, c)
  }

  function LastStage(s: State, ok: bool, c: Clock): State
    requires s.phase.OpeningLink?
  {
    if !ok then Suppress(s, c).(phase := Loop)
    else if Alive(s, s.phase.generation) then Promote(s, c)
    else s.(phase := Loop)
  }

  function OnOpening(s: State, input: Input, c: Clock): State
    requires s.phase.OpeningLink?
  {
    match input
    case SocketOpened(ok) => if s.phase.opening == Connecting then Connect(s, ok, c) else s
    case AckArrived(ack) =>
      if s.phase.opening == AwaitHandshake then Advance(s, ack.Got?, AwaitFeatures, c)
      else if s.phase.opening == AwaitFeatures then Advance(s, !ack.Broken?, Subscribing, c)
      else s
    case Subscribed(ok) => if s.phase.opening == Subscribing then LastStage(s, ok, c) else s
    case _ => s
  }

  /** Where the supervisor takes link events off the queue. */
  predicate Listens(phase: Phase) {
    phase.Loop? || phase.CommandDrain? || phase.VerifyDrain? || phase.DialDrain? || phase.OpeningLink?
  }

  /** Where packets are read: the promoted socket, or the one being opened. */
  predicate Receives(phase: Phase, sock: bool) {
    (phase.Loop? && sock)
    || (phase.OpeningLink? && (phase.opening == AwaitHandshake || phase.opening == AwaitFeatures))
  }

  /** Every link event handled while a link is being opened is followed by the check that it may still be. */
  function OnLinkInput(s: State, event: LinkEvent, c: Clock): State {
    if !Listens(s.phase) then s
    else
      var t := OnLink(s, event, c);
      if t.phase.OpeningLink? && !Alive(t, t.phase.generation) then t.(phase := Loop) else t
  }

  // ---- workers

  /** A job ends its checks: the epoch decides whether it may call `Device1.Connect`. */
  function Check(crew: Crew, job: nat): Crew {
    if job >= |crew.jobs| || !crew.jobs[job].stage.Checking? then crew
    else crew.(jobs := crew.jobs[job := Job(crew.jobs[job].seqNo,
                                            if crew.epoch == crew.jobs[job].seqNo then Calling
                                            else Done(Rejoin.NotReady(Rejoin.Superseded)))])
  }

  /** A job ends: one that never called cannot have connected or met a busy profile. */
  function End(crew: Crew, job: nat, outcome: Rejoin.Outcome): Crew {
    if job >= |crew.jobs| || crew.jobs[job].stage.Done? then crew
    else if crew.jobs[job].stage.Checking? && (outcome.Connected? || outcome.Busy?) then crew
    else crew.(jobs := crew.jobs[job := Job(crew.jobs[job].seqNo, Done(outcome))])
  }

  predicate Reports(crew: Crew, job: nat) {
    job < |crew.jobs| && crew.jobs[job].stage.Done?
  }

  function Without(crew: Crew, job: nat): Crew
    requires job < |crew.jobs|
  {
    crew.(jobs := crew.jobs[..job] + crew.jobs[job + 1..])
  }

  function OnReport(s: State, rejoin: bool, job: nat, c: Clock): State {
    var crew := if rejoin then s.rejoinCrew else s.autoCrew;
    if !s.phase.Loop? || !Reports(crew, job) then s
    else
      var done := crew.jobs[job];
      if rejoin then
        RejoinEvent(s.(rejoinCrew := Without(crew, job)), Rejoin.ConnectFinished(done.seqNo, done.stage.outcome), c)
      else
        AutoEvent(s.(autoCrew := Without(crew, job)), AutoConnect.ConnectFinished(done.seqNo, done.stage.outcome), c)
  }

  // ---- queued side effects

  /** Something to be sent to the AirPods. */
  predicate IsMessage(a: Handoff.Action) {
    a.SendOwnership? || a.SendMediaInfo? || a.SendNewDeviceMediaInfo? || a.SendHijack? || a.SendNewTipi?
  }

  /** Media information names this host's own address, which must be known. */
  predicate Sendable(s: State, a: Handoff.Action) {
    IsMessage(a) && s.radio.sock && (a.SendOwnership? || a.SendHijack? || s.host.adapter.Some?)
  }

  /** The first queued side effect, if it is one this state feels. */
  function Perform(s: State, a: Handoff.Action, sent: bool, c: Clock): State {
    if a.SetAudioRoute? then Route(s, a.mode)
    else if Sendable(s, a) && !sent then Suppress(s, c)
    else s
  }

  /** One side effect; the last one ends the round, and what it queued waits for the next wake. */
  function OnFlush(s: State, sent: bool, c: Clock): State
    requires s.phase.Flushing?
  {
    if s.phase.rest == [] then s.(phase := Loop)
    else
      var rest := s.phase.rest[1..];
      Perform(s, s.phase.rest[0], sent, c).(phase := if rest == [] then Loop else Flushing(rest))
  }

  /** While players settle after a pause, their readings are folded in before the card is switched. */
  predicate Drains(s: State) {
    s.phase.Flushing? && s.phase.rest != [] && s.phase.rest[0] == Handoff.SetAudioRoute(Handoff.Yielded)
    && s.desk.playback.Some? && s.desk.playback.value.playing
  }

  /** An input the supervisor wakes up for; afterwards it carries out what has been queued. */
  predicate Wakes(s: State, input: Input) {
    match input
    case Link(_) => Listens(s.phase)
    case Command(_, _, _) => s.phase.Loop?
    case Received(_) => Receives(s.phase, s.radio.sock)
    case LinkDied => s.phase.Loop? && s.radio.sock
    case Seen(_) => s.phase.Loop?
    case Playing(_) => s.phase.Loop?
    case Tick => s.phase.Loop?
    case WorkerReports(rejoin, job) => s.phase.Loop? && Reports(if rejoin then s.rejoinCrew else s.autoCrew, job)
    case WorkerChecks(_, _) => false
    case WorkerEnds(_, _, _) => false
    case Flush(_) => false
    case _ => !s.phase.Loop? && !s.phase.Flushing?
  }

  /** At the end of a wake the queue is taken and worked off. */
  function EndWake(s: State): State {
    if s.phase.Loop? && s.desk.queue != [] then
      s.(phase := Flushing(s.desk.queue),
         desk := s.desk.(queue := [], log := s.desk.log.(taken := s.desk.log.taken + s.desk.queue)))
    else s
  }

  // ---- one step

  /** An input of the main loop, which waits for it in no other phase. */
  function Attend(s: State, input: Input, c: Clock): State {
    match input
    case Command(request, context, deadline) => OnCommand(s, request, context, deadline, c)
    case LinkDied => if s.radio.sock then Suppress(s, c) else s
    case Seen(rssi) => AutoEvent(s, AutoConnect.Seen(rssi), c)
    case Playing(reading) => OnPlayback(s, reading, c)
    case Tick => OnTick(s, c)
    case WorkerReports(rejoin, job) => OnReport(s, rejoin, job, c)
    case _ => s
  }

  /** The end of a wait outside the opening sequence. */
  function Resume(s: State, input: Input, c: Clock): State {
    match input
    case Fresh(answer) => OnFresh(s, answer, c)
    case Proceed(gone) => OnProceed(s, gone, c)
    case _ => if s.phase.OpeningLink? then OnOpening(s, input, c) else Work(s, input, c)
  }

  /** What was to be sent goes out, and while the players stop they are heard. */
  function Work(s: State, input: Input, c: Clock): State {
    match input
    case SendDone(ok) => if s.phase.Sending? then OnSent(s, ok, c) else s
    case Playing(reading) => if Drains(s) then OnPlayback(s, reading, c) else s
    case Flush(sent) => if s.phase.Flushing? then OnFlush(s, sent, c) else s
    case _ => s
  }

  /** A worker moves by itself. */
  function OnWorker(s: State, input: Input): State {
    match input
    case WorkerChecks(rejoin, job) =>
      if rejoin then s.(rejoinCrew := Check(s.rejoinCrew, job)) else s.(autoCrew := Check(s.autoCrew, job))
    case WorkerEnds(rejoin, job, outcome) =>
      if rejoin then s.(rejoinCrew := End(s.rejoinCrew, job, outcome))
      else s.(autoCrew := End(s.autoCrew, job, outcome))
    case _ => s
  }

  /** What an input does before the queue is looked at. */
  function Handle(s: State, input: Input, c: Clock): State {
    match input
    case Link(event) => OnLinkInput(s, event, c)
    case Received(packet) => if Receives(s.phase, s.radio.sock) then OnPacket(s, packet, c) else s
    case _ => OnRest(s, input, c)
  }

  /** A worker's step, or what the main loop or a wait is to hear. */
  function OnRest(s: State, input: Input, c: Clock): State {
    if input.WorkerChecks? || input.WorkerEnds? then OnWorker(s, input)
    else if s.phase.Loop? then Attend(s, input, c)
    else Resume(s, input, c)
  }

  function Step(s: State, input: Input, c: Clock): State {
    var t := Handle(s, input, c);
    if Wakes(s, input) then EndWake(t) else t
  }

  // ---- the supervisor

  class Supervisor {
    const rejoin: Rejoin.RejoinState
    const auto: AutoConnect.AutoConnectState
    const handoff: Handoff.HandoffState
    const ear: EarMedia.EarMediaState
    const store: Store.Store
    var route: Option<Handoff.RouteMode>
    var playback: Option<Reading>
    var queue: seq<Handoff.Action>
    ghost var deskLog: DeskLog
    var host: Host
    var radio: Radio
    var timers: Timers
    var rejoinCrew: Crew
    var autoCrew: Crew
    var panel: Panel
    var phase: Phase
    ghost var log: Log

    ghost function View(): State
      reads this, rejoin, auto, handoff, ear, store
    {
      State(rejoin.View(), auto.View(), store.View(),
            Desk(handoff.View(), ear.View(), route, playback, queue, deskLog), host, radio, timers, rejoinCrew,
            autoCrew, panel, phase, log)
    }

    ghost predicate Valid()
      reads this, rejoin
    {
      rejoin.Valid()
    }

    constructor (enabled: bool, allowed: bool, known: seq<Address>, ouis: set<Oui>, config: AutoConnect.Config,
                 takeOverOnPlay: bool, earConfig: EarMedia.Config, address: string, host: Host)
      ensures Valid()
      ensures View() == NewState(Rejoin.NewState(enabled, allowed, known, ouis), config,
                                 NewDesk(enabled, takeOverOnPlay, earConfig), address, host)
    {
      rejoin := new Rejoin.RejoinState(enabled, allowed, known, ouis);
      auto := new AutoConnect.AutoConnectState(config);
      handoff := new Handoff.HandoffState(enabled, takeOverOnPlay);
      ear := new EarMedia.EarMediaState(earConfig);
      store := new Store.Store(address);
      route, playback, queue, deskLog := None, None, [], DeskLog([], [], []);
      this.host := host;
      radio := Radio(false, false, None, None, 0, false);
      timers := Timers(None, None, None);
      rejoinCrew, autoCrew := Crew(0, []), Crew(0, []);
      panel, phase, log := Panel([], None, None), Loop, Log([], [], []);
    }

    method Publish(update: Store.Update)
      modifies store, `log
      ensures View() == Apply(old(View()), update)
    {
      store.Apply(update);
      log := log.(store := log.store + [StoreRuns.Entry(update, store.View())]);
    }

    /** The ownership machine hears an event; its actions wait in the queue. */
    method TellHandoff(event: Handoff.Event, c: Clock)
      modifies handoff, `queue, `deskLog
      ensures View() == HandoffEvent(old(View()), event, c)
    {
      hide Handoff.Step, Queued;
      var out := handoff.Decide(event, c.now);
      deskLog := deskLog.(handoff := deskLog.handoff + [HandoffRuns.Entry(event, c.now, out, handoff.View())]);
      Enqueue(out);
    }

    method Enqueue(out: seq<Handoff.Action>)
      modifies `queue
      ensures queue == old(queue) + Queued(out)
    {
      for i := 0 to |out|
        invariant queue == old(queue) + Queued(out[..i])
      {
        assert out[..i + 1][..i] == out[..i];
        if !out[i].Record? && !out[i].StreamNotStarted? {
          queue := queue + [out[i]];
        }
      }
      assert out[..|out|] == out;
    }

    method TellEar(event: EarMedia.Event, c: Clock)
      modifies ear, `deskLog
      ensures View() == EarEvent(old(View()), event, c)
    {
      hide EarMedia.Step;
      var audio := radio.acl && route != Some(Handoff.Yielded)
                   && (!handoff.enabled || Handoff.OwnsAudio(handoff.View()));
      var out := ear.Decide(event, audio, c.now);
      deskLog := deskLog.(ear := deskLog.ear + [EarMediaRuns.Entry(event, audio, c.now, out, ear.View())]);
    }

    method SetRoute(mode: Handoff.RouteMode)
      modifies `route
      ensures View() == Route(old(View()), mode)
    {
      if host.controlAudio && host.device.Some? {
        route := Some(mode);
      }
    }

    method HearPlayer(reading: Reading, c: Clock)
      modifies this, handoff, ear
      ensures View() == OnPlayback(old(View()), reading, c)
    {
      hide HandoffEvent, EarEvent;
      playback := Some(reading);
      TellEar(EarMedia.Playback(reading.playing, reading.player), c);
      TellHandoff(Handoff.Playback(reading.playing, reading.app, reading.player), c);
    }

    method Pull()
      modifies this, store
      ensures View() == Unplug(old(View()))
    {
      hide Apply;
      radio := radio.(sock := false);
      Publish(Store.AapLink(false));
      timers := timers.(readbackAt := None);
    }

    method PutBack()
      modifies `route
      ensures View() == RestoreRoute(old(View()))
    {
      if route == Some(Handoff.Yielded) {
        if radio.acl {
          SetRoute(Handoff.Own);
        } else {
          route := None;
        }
      }
    }

    method Drop(c: Clock)
      modifies this, handoff, ear, store
      ensures View() == DropSocket(old(View()), c)
    {
      hide HandoffEvent, EarEvent, Unplug, RestoreRoute;
      Pull();
      TellHandoff(Handoff.LinkClosed, c);
      TellEar(EarMedia.LinkClosed, c);
      PutBack();
    }

    method Stop(c: Clock)
      modifies this, handoff, ear, store
      ensures View() == Suppress(old(View()), c)
    {
      hide DropSocket;
      radio := radio.(suppressed := true, dialAt := None, dialKind := None);
      Drop(c);
    }

    method Arm(kind: DialKind, at: Millis)
      modifies `radio
      ensures View() == ArmDial(old(View()), kind, at)
    {
      radio := radio.(dialKind := Some(kind), dialAt := Some(at));
    }

    /** Publish the reconnect sequence; an unchanged view stays quiet. */
    method ShowLink(c: Clock)
      modifies store, `log, `panel
      ensures View() == PublishLink(old(View()), c)
    {
      hide Apply;
      var sequence := panel.sequence;
      var p, q := rejoin.pending, auto.pending;
      if p.None? && q.None? {
        sequence := None;
      } else {
        var current := if p.Some? then (true, p.value.seqNo) else (false, q.value.seqNo);
        if sequence.None? || (sequence.value.rejoin, sequence.value.seqNo) != current {
          var reason := if !current.0 then Store.AutoConnect
                        else if BudSwitched(panel.buds, c.now) then Store.BudSwitch
                        else if p.value.kind == Rejoin.LinkLost then Store.LinkLost
                        else Store.TakenOver;
          sequence := Some(Sequence(current.0, current.1, reason, c.stamp));
        }
      }
      var before := panel.published;
      var view: Option<Store.LinkActivity> := None;
      if sequence.Some? {
        var attempt := if sequence.value.rejoin then rejoin.View().PendingAttempt() else auto.View().PendingAttempt();
        view := Some(Store.LinkActivity(sequence.value.reason, attempt, sequence.value.since));
      }
      panel := panel.(sequence := sequence, published := view);
      if view != before {
        Publish(Store.SetActivity(view));
      }
    }

    /** Carry out the decisions of the rejoin machine that concern its workers. */
    method ActOnRejoin(out: seq<Rejoin.Action>)
      modifies `rejoinCrew
      ensures rejoinCrew == RejoinActs(old(rejoinCrew), host, out)
    {
      for i := 0 to |out|
        invariant rejoinCrew == RejoinActs(old(rejoinCrew), host, out[..i])
      {
        assert out[..i + 1][..i] == out[..i];
        match out[i] {
          case Cancelled(_) => rejoinCrew := rejoinCrew.(epoch := 0);
          case Connect(seqNo, _) => rejoinCrew := Spawn(rejoinCrew, Known(host), host.controlLink, seqNo);
          case _ =>
        }
      }
      assert out[..|out|] == out;
    }

    method ActOnAuto(out: seq<AutoConnect.Action>)
      modifies `autoCrew
      ensures autoCrew == AutoActs(old(autoCrew), host, out)
    {
      for i := 0 to |out|
        invariant autoCrew == AutoActs(old(autoCrew), host, out[..i])
      {
        assert out[..i + 1][..i] == out[..i];
        match out[i] {
          case Cancelled(_) => autoCrew := autoCrew.(epoch := 0);
          case GaveUp => autoCrew := autoCrew.(epoch := 0);
          case Connect(seqNo, _) => autoCrew := Spawn(autoCrew, Known(host), host.autoControlLink, seqNo);
          case _ =>
        }
      }
      assert out[..|out|] == out;
    }

    method FoldRejoin(event: Rejoin.Event, c: Clock)
      requires Valid()
      modifies rejoin, `rejoinCrew, `log
      ensures Valid() && View() == RejoinFold(old(View()), event, c)
    {
      hide Rejoin.Step, RejoinActs;
      var out := rejoin.Decide(event, c.now);
      log := log.(rejoin := log.rejoin + [RejoinRuns.Entry(event, c.now, out, rejoin.View())]);
      ActOnRejoin(out);
    }

    method TellRejoin(event: Rejoin.Event, c: Clock)
      requires Valid()
      modifies this, rejoin, store
      ensures Valid() && View() == RejoinEvent(old(View()), event, c)
    {
      hide RejoinFold, PublishLink;
      FoldRejoin(event, c);
      ShowLink(c);
    }

    method FoldAuto(event: AutoConnect.Event, c: Clock)
      modifies auto, `autoCrew, `log
      ensures View() == AutoFold(old(View()), event, c)
    {
      hide AutoConnect.Step, AutoActs;
      var out := auto.Decide(event, c.now);
      log := log.(auto := log.auto + [AutoConnectRuns.Entry(event, c.now, out, auto.View())]);
      ActOnAuto(out);
    }

    method TellAuto(event: AutoConnect.Event, c: Clock)
      modifies this, auto, store
      ensures View() == AutoEvent(old(View()), event, c)
    {
      hide AutoFold, PublishLink;
      FoldAuto(AutoConnect.SetRejoinPending(rejoin.pending.Some?), c);
      FoldAuto(event, c);
      ShowLink(c);
    }

    method LoseIdentity(pinned: bool, c: Clock)
      requires Valid()
      modifies this, rejoin, handoff, ear, store
      ensures Valid() && View() == Disown(old(View()), pinned, c)
    {
      hide DropSocket, Apply, RejoinEvent;
      radio := radio.(generation := radio.generation + 1, acl := false, dialAt := None, dialKind := None);
      host := host.(pinned := pinned);
      Drop(c);
      Publish(Store.AclConnected(false));
      TellRejoin(Rejoin.IdentityChanged, c);
    }

    method Identified(event: LinkEvent, c: Clock)
      requires Valid() && event.Identity?
      modifies this, rejoin, handoff, ear, store
      ensures Valid() && View() == OnIdentity(old(View()), event, c)
    {
      hide Disown, Adopt;
      if host.adapter != Some(event.adapter) || host.device != Some(event.address) || host.pinned != event.pinned {
        LoseIdentity(event.pinned, c);
      }
      TakeIdentity(event, c);
    }

    method TakeIdentity(event: LinkEvent, c: Clock)
      requires Valid() && event.Identity?
      modifies this, rejoin, handoff, store
      ensures Valid() && View() == Adopt(old(View()), event, c)
    {
      hide RejoinFold, HandoffEvent, Apply, Codec.AddressText;
      FoldRejoin(Rejoin.SetLocal(event.adapter), c);
      TellHandoff(Handoff.SetLocal(event.adapter), c);
      host := host.(adapter := Some(event.adapter), device := Some(event.address));
      Publish(Store.Identity(Codec.AddressText(event.address), event.name, event.modelId));
    }

    method BeginPeriod(c: Clock)
      requires Valid()
      modifies this, rejoin, handoff, ear, store
      ensures Valid() && View() == StartPeriod(old(View()), c)
    {
      hide RejoinEvent;
      radio := radio.(acl := true, generation := radio.generation + 1, suppressed := false);
      panel := panel.(buds := []);
      TellRejoin(Rejoin.LinkSessionStarted, c);
      Arm(Automatic, c.now + SETTLE);
    }

    method WentUp(c: Clock)
      requires Valid()
      modifies this, rejoin, auto, handoff, ear, store
      ensures Valid() && View() == OnConnected(old(View()), c)
    {
      hide RejoinEvent, AutoEvent, HandoffEvent, Apply, StartPeriod;
      TellRejoin(Rejoin.LinkConnected(true), c);
      TellAuto(AutoConnect.LocalConnected, c);
      TellHandoff(Handoff.AudioLinkChanged, c);
      Publish(Store.AclConnected(true));
      if !radio.acl {
        BeginPeriod(c);
      }
    }

    method WentDown(event: Rejoin.Event, c: Clock)
      requires Valid()
      modifies this, rejoin, auto, handoff, ear, store
      ensures Valid() && View() == OnDown(old(View()), event, c)
    {
      hide RejoinEvent, AutoEvent, HandoffEvent, LoseLink;
      TellRejoin(event, c);
      TellAuto(AutoConnect.LocalDisconnected(Rejoin.Unknown), c);
      TellHandoff(Handoff.AudioLinkChanged, c);
      Cut(c);
    }

    method Cut(c: Clock)
      modifies this, handoff, ear, store
      ensures View() == LoseLink(old(View()), c)
    {
      hide Apply, DropSocket;
      var changed := radio.acl || host.adapter.Some?;
      radio := radio.(acl := false, dialAt := None, dialKind := None);
      if changed {
        radio := radio.(generation := radio.generation + 1);
      }
      Drop(c);
      Publish(Store.AclConnected(false));
    }

    method HandleLink(event: LinkEvent, c: Clock)
      requires Valid()
      modifies this, rejoin, auto, handoff, ear, store
      ensures Valid() && View() == OnLink(old(View()), event, c)
    {
      hide RejoinEvent, AutoEvent, HandoffEvent, OnIdentity, OnConnected, OnDown;
      match event {
        case Identity(_, _, _, _, _) => Identified(event, c);
        case Disconnected(reason, facts, lidClosed) =>
          route := None;
          TellAuto(AutoConnect.LocalDisconnected(reason), c);
          TellRejoin(Rejoin.Disconnected(reason, facts, lidClosed), c);
        case Connected(up) =>
          if up {
            WentUp(c);
          } else {
            WentDown(Rejoin.LinkConnected(false), c);
          }
        case AdapterGone => WentDown(Rejoin.AdapterGone, c);
        case AudioTransport => TellHandoff(Handoff.AudioLinkChanged, c);
        case A2dpTransport(active) => TellHandoff(Handoff.A2dpTransport(active), c);
        case OtherLinkEvent =>
      }
    }

    /** The window's timer is cleared and every open key judged. */
    method Settle(c: Clock)
      modifies this, handoff, store
      ensures View() == FinishReadback(old(View()), c)
    {
      hide Apply, HandoffEvent;
      timers := timers.(readbackAt := None, verifyBudget := None);
      Publish(Store.VerifyCompleted);
      TellHandoff(Handoff.OpeningSettled, c);
    }

    method Forsake()
      modifies store, `log, `timers
      ensures View() == AbandonReadback(old(View()))
    {
      timers := timers.(verifyAt := None, verifyBudget := None);
      Publish(Store.VerifyFailed);
    }

    method HandlePacket(packet: Packet, c: Clock)
      requires Valid()
      modifies this, rejoin, handoff, ear, store
      ensures Valid() && View() == OnPacket(old(View()), packet, c)
    {
      hide RejoinEvent, HandoffEvent, EarEvent, Apply, FinishReadback, OnOwnership, NoteBud, Addresses;
      match packet {
        case BatteryPacket =>
          if timers.readbackAt.Some? {
            Settle(c);
          }
        case EarPacket(bothInCase, left, right) =>
          TellRejoin(Rejoin.Ear(bothInCase), c);
          TellEar(EarMedia.Ear(left, right), c);
        case SettingPacket(setting) => Publish(Store.SettingReport(setting));
        case MetadataPacket(name) => Publish(Store.Metadata(name));
        case AddressPacket(bud, trailer) => SeeBud(bud, trailer, c.now);
        case DevicesPacket(hosts) =>
          TellRejoin(Rejoin.ConnectedDevices(hosts), c);
          TellHandoff(Handoff.ConnectedDevices(Addresses(hosts)), c);
        case RelayPacket(sender, requestsYield) =>
          TellRejoin(Rejoin.Relay(sender), c);
          TellHandoff(Handoff.SmartRouting(sender, requestsYield), c);
        case OwnershipPacket(owns) => HearOwnership(owns, c);
        case SourcePacket(source, doing) => TellHandoff(Handoff.AudioSource(source, doing), c);
        case OtherPacket =>
      }
    }

    method SeeBud(bud: Address, trailer: byte, now: Millis)
      modifies `panel
      ensures View() == NoteBud(old(View()), bud, trailer, now)
    {
      if trailer != 2 || host.adapter == Some(bud) {
        return;
      }
      if panel.buds != [] && panel.buds[|panel.buds| - 1].bud == bud {
        return;
      }
      var buds := panel.buds + [BudSeen(bud, now)];
      if |buds| > 2 {
        buds := buds[1..];
      }
      panel := panel.(buds := buds);
    }

    method HearOwnership(owns: bool, c: Clock)
      modifies this, handoff
      ensures View() == OnOwnership(old(View()), owns, c)
    {
      hide HandoffEvent, Route;
      var opening := !radio.sock || timers.readbackAt.Some?;
      TellHandoff(Handoff.OwnsConnection(owns, opening), c);
      if handoff.enabled {
        SetRoute(if owns then Handoff.Own else Handoff.Yielded);
      }
    }

    method ReopenLink(c: Clock)
      modifies this, handoff, ear, store
      ensures View() == Reopen(old(View()), c)
    {
      hide DropSocket;
      Drop(c);
      Arm(Manual, c.now);
    }

    /** End the pass over the readback timers and go on with the tick. */
    method LeaveVerify(started: Millis, c: Clock)
      modifies this, store
      ensures View() == AfterVerify(old(View()), started, c)
    {
      hide AbandonReadback;
      if Due(timers.verifyBudget, started) {
        Forsake();
      }
      phase := if radio.acl && !radio.sock && Due(radio.dialAt, c.now) then DialDrain else Loop;
    }

    method VerifyTimers(c: Clock)
      modifies this, handoff, store
      ensures View() == TickVerification(old(View()), c)
    {
      hide AfterVerify, AbandonReadback, FinishReadback;
      if Due(timers.readbackAt, c.now) {
        Settle(c);
      }
      if !Due(timers.verifyAt, c.now) {
        LeaveVerify(c.now, c);
        return;
      }
      timers := timers.(verifyAt := None);
      if !radio.acl && !radio.sock {
        Forsake();
        LeaveVerify(c.now, c);
        return;
      }
      phase := VerifyCheck(c.now);
    }

    method HandleTick(c: Clock)
      requires Valid()
      modifies this, rejoin, auto, handoff, ear, store
      ensures Valid() && View() == OnTick(old(View()), c)
    {
      hide RejoinEvent, AutoEvent, HandoffEvent, EarEvent, TickVerification;
      TellHandoff(Handoff.Tick, c);
      TellEar(EarMedia.Tick, c);
      TellRejoin(Rejoin.Tick, c);
      TellAuto(AutoConnect.Tick, c);
      VerifyTimers(c);
    }

    method Intervene(c: Clock)
      requires Valid()
      modifies this, rejoin, auto, handoff, ear, store
      ensures Valid() && View() == ManualCommand(old(View()), c)
    {
      hide RejoinEvent, AutoEvent;
      TellRejoin(Rejoin.ManualCommand, c);
      TellAuto(AutoConnect.ManualCommand, c);
    }

    method BeginWrite(update: Store.Update)
      modifies `phase
      ensures View() == StartWrite(old(View()), update)
    {
      if radio.sock && store.device.modelId == SUPPORTED_MODEL {
        phase := Sending(update);
      }
    }

    method Overrule(event: Handoff.Event, c: Clock)
      modifies handoff, `queue, `deskLog
      ensures View() == ManualHandoff(old(View()), event, c)
    {
      hide HandoffEvent;
      if radio.sock && host.adapter.Some? {
        TellHandoff(event, c);
      }
    }

    method Switch(enabled: bool, c: Clock)
      requires Valid()
      modifies this, rejoin, handoff, store
      ensures Valid() && View() == SwitchHandoff(old(View()), enabled, c)
    {
      hide HandoffEvent, RejoinEvent, Route;
      TellHandoff(Handoff.SetEnabled(enabled), c);
      if !enabled && route == Some(Handoff.Yielded) {
        SetRoute(Handoff.Own);
      }
      TellRejoin(Rejoin.SetEnabled(enabled), c);
    }

    method HandleCommand(request: Request, context: Store.Context, deadline: Millis, c: Clock)
      requires Valid()
      modifies this, rejoin, auto, handoff, ear, store
      ensures Valid() && View() == OnCommand(old(View()), request, context, deadline, c)
    {
      hide RejoinEvent, ManualCommand, ManualHandoff, SwitchHandoff, StartWrite;
      var here := store.ConnectionContext();
      if c.now >= deadline || here != context {
        return;
      }
      match request {
        case Reconnect =>
          Intervene(c);
          phase := CommandCheck(Order(context, deadline, false));
        case ConnectOnce =>
          Intervene(c);
          if host.pinned && Known(host) {
            phase := CommandCheck(Order(context, deadline, true));
          }
        case TakeOver => Overrule(Handoff.TakeOver, c);
        case Yield => Overrule(Handoff.Yield, c);
        case SetHandoff(enabled) => Switch(enabled, c);
        case Control =>
          if radio.sock {
            phase := Sending(Store.Unrelated);
          }
        case Write(setting) =>
          if Settings.ValidSetting(setting) {
            BeginWrite(Store.SettingRequested(setting));
          }
        case Rename(name) => BeginWrite(Store.RenameRequested(name));
      }
    }

    method HandleSent(ok: bool, c: Clock)
      requires phase.Sending?
      modifies this, handoff, ear, store
      ensures View() == OnSent(old(View()), ok, c)
    {
      hide Suppress, Apply;
      if ok {
        var update := phase.update;
        Publish(update);
        if Asks(update) {
          timers := timers.(verifyAt := Some(c.now + VERIFY_DEBOUNCE), verifyBudget := Some(c.now + VERIFY_BUDGET));
        }
      } else {
        Stop(c);
      }
      phase := Loop;
    }

    method HandleFresh(answer: Answer, c: Clock)
      modifies this, handoff, ear, store
      ensures View() == OnFresh(old(View()), answer, c)
    {
      hide Suppress, AbandonReadback, AfterVerify;
      match phase {
        case CommandCheck(order) => phase := if answer.Yes? then CommandDrain(order) else Loop;
        case VerifyCheck(started) =>
          if answer.Yes? {
            phase := VerifyDrain(started);
          } else {
            Forsake();
            LeaveVerify(started, c);
          }
        case Authorizing(kind, generation) =>
          if answer.Yes? {
            phase := OpeningLink(kind, generation, Authorized);
          } else {
            if kind == Automatic {
              Stop(c);
            }
            phase := Loop;
          }
        case _ =>
      }
    }

    method Dial(c: Clock)
      modifies this, handoff, ear, store
      ensures View() == StartDial(old(View()), c)
    {
      hide Suppress;
      if !radio.acl || radio.dialKind.None? {
        phase := Loop;
        return;
      }
      var kind := radio.dialKind.value;
      radio := radio.(dialKind := None);
      if !Known(host) {
        Stop(c);
        phase := Loop;
        return;
      }
      radio := radio.(dialAt := None);
      phase := Authorizing(kind, radio.generation);
    }

    method HandleProceed(gone: bool, c: Clock)
      modifies this, handoff, ear, store
      ensures View() == OnProceed(old(View()), gone, c)
    {
      hide Obey, ReadBack, StartDial, Depart;
      match phase {
        case CommandDrain(_) => DoAsTold(gone, c);
        case VerifyDrain(_) => StartReadback(c);
        case _ => GoOnDialing(c);
      }
    }

    method GoOnDialing(c: Clock)
      requires !phase.CommandDrain? && !phase.VerifyDrain?
      modifies this, handoff, ear, store
      ensures View() == OnProceed(old(View()), false, c)
    {
      hide StartDial, Depart;
      if phase.DialDrain? {
        Dial(c);
      } else if phase.OpeningLink? && phase.opening == Authorized {
        Leave();
      }
    }

    method Leave()
      requires phase.OpeningLink?
      modifies `phase
      ensures View() == Depart(old(View()))
    {
      phase := if radio.acl && radio.generation == phase.generation then phase.(opening := Connecting) else Loop;
    }

    method DoAsTold(gone: bool, c: Clock)
      requires phase.CommandDrain?
      modifies this, handoff, ear, store
      ensures View() == Obey(old(View()), gone, c)
    {
      hide Reopen;
      var order := phase.order;
      var here := store.ConnectionContext();
      phase := Loop;
      if !gone && c.now < order.deadline && here == order.context && !order.connectOnce {
        ReopenLink(c);
      }
    }

    method StartReadback(c: Clock)
      requires phase.VerifyDrain?
      modifies this, handoff, ear, store
      ensures View() == ReadBack(old(View()), c)
    {
      hide Reopen, Apply, AbandonReadback, AfterVerify;
      var started := phase.started;
      if radio.acl {
        Publish(Store.VerifyReopening);
        ReopenLink(c);
      } else {
        Forsake();
      }
      LeaveVerify(started, c);
    }

    method Become(c: Clock)
      modifies this, handoff, ear, store
      ensures View() == Promote(old(View()), c)
    {
      hide Apply;
      radio := radio.(sock := true);
      Publish(Store.AapLink(true));
      timers := timers.(readbackAt := Some(c.now + READBACK_WINDOW));
      phase := Loop;
    }

    method HandleOpening(input: Input, c: Clock)
      requires phase.OpeningLink?
      modifies this, handoff, ear, store
      ensures View() == OnOpening(old(View()), input, c)
    {
      hide Connect, LastStage, Advance;
      match input {
        case SocketOpened(ok) =>
          if phase.opening == Connecting {
            Reach(ok, c);
          }
        case AckArrived(ack) =>
          if phase.opening == AwaitHandshake {
            GoOn(ack.Got?, AwaitFeatures, c);
          } else if phase.opening == AwaitFeatures {
            GoOn(!ack.Broken?, Subscribing, c);
          }
        case Subscribed(ok) =>
          if phase.opening == Subscribing {
            Conclude(ok, c);
          }
        case _ =>
      }
    }

    /** The socket connects: tell the ownership machine, and prime it with what already plays. */
    method Reach(ok: bool, c: Clock)
      requires phase.OpeningLink?
      modifies this, handoff, ear, store
      ensures View() == Connect(old(View()), ok, c)
    {
      hide HandoffEvent, Advance;
      if ok && radio.acl && radio.generation == phase.generation {
        phase := phase.(opening := AwaitHandshake);
        TellHandoff(Handoff.LinkOpened, c);
        if playback.Some? {
          TellHandoff(Handoff.Playback(playback.value.playing, playback.value.app, playback.value.player), c);
        }
      } else {
        GoOn(ok, AwaitHandshake, c);
      }
    }

    method Conclude(ok: bool, c: Clock)
      requires phase.OpeningLink?
      modifies this, handoff, ear, store
      ensures View() == LastStage(old(View()), ok, c)
    {
      hide Suppress, Promote;
      if !ok {
        Stop(c);
        phase := Loop;
      } else if radio.acl && radio.generation == phase.generation {
        Become(c);
      } else {
        phase := Loop;
      }
    }

    method GoOn(ok: bool, next: Opening, c: Clock)
      requires phase.OpeningLink?
      modifies this, handoff, ear, store
      ensures View() == Advance(old(View()), ok, next, c)
    {
      hide Suppress;
      if !ok {
        Stop(c);
        phase := Loop;
      } else if radio.acl && radio.generation == phase.generation {
        phase := phase.(opening := next);
      } else {
        phase := Loop;
      }
    }

    method HandleReport(fromRejoin: bool, job: nat, c: Clock)
      requires Valid()
      modifies this, rejoin, auto, handoff, ear, store
      ensures Valid() && View() == OnReport(old(View()), fromRejoin, job, c)
    {
      hide RejoinEvent, AutoEvent;
      var crew := if fromRejoin then rejoinCrew else autoCrew;
      if !phase.Loop? || !Reports(crew, job) {
        return;
      }
      var done := crew.jobs[job];
      if fromRejoin {
        rejoinCrew := Without(crew, job);
        TellRejoin(Rejoin.ConnectFinished(done.seqNo, done.stage.outcome), c);
      } else {
        autoCrew := Without(crew, job);
        TellAuto(AutoConnect.ConnectFinished(done.seqNo, done.stage.outcome), c);
      }
    }

    /** A link event, and in an opening the check that follows it. */
    method Listen(event: LinkEvent, c: Clock)
      requires Valid()
      modifies this, rejoin, auto, handoff, ear, store
      ensures Valid() && View() == OnLinkInput(old(View()), event, c)
    {
      hide OnLink;
      if Listens(phase) {
        HandleLink(event, c);
        if phase.OpeningLink? && !(radio.acl && radio.generation == phase.generation) {
          phase := Loop;
        }
      }
    }

    /** A worker passes or fails its last check, or ends with an outcome. */
    method HandleWorker(input: Input)
      modifies `rejoinCrew, `autoCrew
      ensures View() == OnWorker(old(View()), input)
    {
      hide Check, End;
      match input {
        case WorkerChecks(ofRejoin, job) =>
          if ofRejoin {
            rejoinCrew := Check(rejoinCrew, job);
          } else {
            autoCrew := Check(autoCrew, job);
          }
        case WorkerEnds(ofRejoin, job, outcome) =>
          if ofRejoin {
            rejoinCrew := End(rejoinCrew, job, outcome);
          } else {
            autoCrew := End(autoCrew, job, outcome);
          }
        case _ =>
      }
    }

    /** Carry out one queued side effect. */
    method FlushOne(sent: bool, c: Clock)
      requires phase.Flushing?
      modifies this, handoff, ear, store
      ensures View() == OnFlush(old(View()), sent, c)
    {
      hide Suppress, Route;
      if phase.rest == [] {
        phase := Loop;
        return;
      }
      var a, rest := phase.rest[0], phase.rest[1..];
      if a.SetAudioRoute? {
        SetRoute(a.mode);
      } else if IsMessage(a) && radio.sock && (a.SendOwnership? || a.SendHijack? || host.adapter.Some?) && !sent {
        Stop(c);
      }
      phase := if rest == [] then Loop else Flushing(rest);
    }

    /** Take one step: handle the input, and at the end of a wake take the queue. */
    method Take(input: Input, c: Clock)
      requires Valid()
      modifies this, rejoin, auto, handoff, ear, store
      ensures Valid() && View() == Step(old(View()), input, c)
    {
      hide Handle;
      var wakes := Stirs(input);
      Respond(input, c);
      if wakes && phase.Loop? && queue != [] {
        phase := Flushing(queue);
        deskLog := deskLog.(taken := deskLog.taken + queue);
        queue := [];
      }
    }

    method Stirs(input: Input) returns (wakes: bool)
      ensures wakes == Wakes(View(), input)
    {
      match input {
        case Link(_) => wakes := Listens(phase);
        case Received(_) => wakes := Receives(phase, radio.sock);
        case LinkDied => wakes := phase.Loop? && radio.sock;
        case WorkerReports(ofRejoin, job) =>
          wakes := phase.Loop? && Reports(if ofRejoin then rejoinCrew else autoCrew, job);
        case WorkerChecks(_, _) => wakes := false;
        case WorkerEnds(_, _, _) => wakes := false;
        case Flush(_) => wakes := false;
        case Command(_, _, _) => wakes := phase.Loop?;
        case Seen(_) => wakes := phase.Loop?;
        case Playing(_) => wakes := phase.Loop?;
        case Tick => wakes := phase.Loop?;
        case _ => wakes := !phase.Loop? && !phase.Flushing?;
      }
    }

    function MayDrain(): bool
      reads this
    {
      phase.Flushing? && phase.rest != [] && phase.rest[0] == Handoff.SetAudioRoute(Handoff.Yielded)
      && playback.Some? && playback.value.playing
    }

    /** Do what an input asks for, before the queue is looked at. */
    method Respond(input: Input, c: Clock)
      requires Valid()
      modifies this, rejoin, auto, handoff, ear, store
      ensures Valid() && View() == Handle(old(View()), input, c)
    {
      hide OnLinkInput, OnPacket, OnRest;
      match input {
        case Link(event) => Listen(event, c);
        case Received(packet) =>
          if Receives(phase, radio.sock) {
            HandlePacket(packet, c);
          }
        case _ => HandleRest(input, c);
      }
    }

    method HandleRest(input: Input, c: Clock)
      requires Valid() && !input.Link? && !input.Received?
      modifies this, rejoin, auto, handoff, ear, store
      ensures Valid()
      ensures View() == OnRest(old(View()), input, c)
    {
      hide OnWorker, Attend, Resume;
      if input.WorkerChecks? || input.WorkerEnds? {
        HandleWorker(input);
      } else {
        Onward(input, c);
      }
    }

    method Onward(input: Input, c: Clock)
      requires Valid()
      modifies this, rejoin, auto, handoff, ear, store
      ensures Valid()
      ensures View() == if old(phase).Loop? then Attend(old(View()), input, c) else Resume(old(View()), input, c)
    {
      hide Attend, Resume;
      if phase.Loop? {
        Serve(input, c);
      } else {
        Continue(input, c);
      }
    }

    /** An input of the main loop. */
    method Serve(input: Input, c: Clock)
      requires Valid()
      modifies this, rejoin, auto, handoff, ear, store
      ensures Valid() && View() == Attend(old(View()), input, c)
    {
      hide OnPlayback, OnCommand, Suppress, AutoEvent, OnTick, OnReport;
      match input {
        case Command(request, context, deadline) => HandleCommand(request, context, deadline, c);
        case Tick => HandleTick(c);
        case WorkerReports(ofRejoin, job) => HandleReport(ofRejoin, job, c);
        case _ => Observe(input, c);
      }
    }

    method Observe(input: Input, c: Clock)
      requires !input.Command? && !input.Tick? && !input.WorkerReports?
      modifies this, auto, handoff, ear, store
      ensures View() == Attend(old(View()), input, c)
    {
      hide OnPlayback, Suppress, AutoEvent;
      match input {
        case LinkDied =>
          if radio.sock {
            Stop(c);
          }
        case Seen(rssi) => TellAuto(AutoConnect.Seen(rssi), c);
        case Playing(reading) => HearPlayer(reading, c);
        case _ =>
      }
    }

    /** The end of a wait. */
    method Continue(input: Input, c: Clock)
      modifies this, handoff, ear, store
      ensures View() == Resume(old(View()), input, c)
    {
      hide Work, OnFresh, OnProceed, OnOpening;
      match input {
        case Fresh(answer) => HandleFresh(answer, c);
        case Proceed(gone) => HandleProceed(gone, c);
        case _ => CarryOn(input, c);
      }
    }

    /** An answer to an opening, or to work under way. */
    method CarryOn(input: Input, c: Clock)
      requires !input.Fresh? && !input.Proceed?
      modifies this, handoff, ear, store
      ensures View() == Resume(old(View()), input, c)
    {
      hide Work, OnOpening;
      if phase.OpeningLink? {
        HandleOpening(input, c);
      } else {
        HandleWork(input, c);
      }
    }

    method HandleWork(input: Input, c: Clock)
      modifies this, handoff, ear, store
      ensures View() == Work(old(View()), input, c)
    {
      hide OnPlayback, OnFlush, OnSent;
      match input {
        case SendDone(ok) =>
          if phase.Sending? {
            HandleSent(ok, c);
          }
        case Playing(reading) =>
          if MayDrain() {
            HearPlayer(reading, c);
          }
        case Flush(sent) =>
          if phase.Flushing? {
            FlushOne(sent, c);
          }
        case _ =>
      }
    }
  }
}
