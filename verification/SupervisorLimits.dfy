/** Where the supervisor's guarantees end: concrete runs that show a stronger claim would be false. */
module SupervisorLimits {
  import opened Prelude
  import opened Supervisor
  import opened SupervisorSteps
  import opened SupervisorRuns
  import Settings
  import Rejoin
  import AutoConnect
  import Handoff
  import EarMedia
  import Store
  import Codec

  const ADAPTER: Address := Address(2, 0, 0, 0, 0, 1)
  const DEVICE: Address := Address(2, 0, 0, 0, 0, 2)

  /** Page at once, and only once. */
  const EAGER: AutoConnect.Config := AutoConnect.Config(true, -100, 0, 0, 0, 1, 1)

  const DROP: LinkEvent := Disconnected(Rejoin.Remote, None, false)

  const PICKED: LinkEvent := Identity(ADAPTER, DEVICE, None, Some(SUPPORTED_MODEL), false)

  function Origin0(): State {
    NewState(Rejoin.NewState(true, true, [], {}), EAGER, NewDesk(true, true, EarMedia.Config(true, true, true)), "",
             Host(None, None, false, true, true, false))
  }

  function Selected(): Input {
    Link(PICKED)
  }

  function At0(now: Millis): Clock {
    Clock(now, "")
  }

  /** A run and one more step. */
  lemma Extended(r: Run, input: Input, c: Clock) returns (t: Run)
    requires r.Valid() && r.Now(|r.es|) <= c.now
    ensures t.Valid() && t.init == r.init && |t.es| == |r.es| + 1 && t.es[..|r.es|] == r.es
    ensures t.es[|r.es|].input == input && t.es[|r.es|].clock == c
    ensures t.At(|t.es|) == Step(r.At(|r.es|), input, c) && t.Now(|t.es|) == c.now
    ensures forall k :: 0 <= k <= |r.es| ==> t.At(k) == r.At(k)
  {
    hide Step, Initial;
    t := Run(r.init, r.es + [Entry(input, c, Step(r.At(|r.es|), input, c))]);
    forall k | 0 <= k < |t.es| ensures t.Linked(k) {
      assert t.At(k) == r.At(k);
      assert k < |r.es| ==> r.Linked(k);
    }
  }

  // ---- a desk on which nothing happens

  /** Nothing plays, nothing is counted down, and nothing is queued. */
  predicate Quiet(desk: Desk) {
    desk.queue == [] && desk.playback.None? && desk.handoff.playEdge.None? && desk.handoff.stoppedAt.None?
    && desk.handoff.streamCheck.None?
  }

  predicate Harmless(event: Handoff.Event) {
    event.LinkOpened? || event.LinkClosed? || event.AudioLinkChanged? || event.OpeningSettled? || event.Tick?
    || event.SetLocal?
  }

  lemma HandoffQuiet(s: State, event: Handoff.Event, c: Clock)
    requires Quiet(s.desk) && Harmless(event)
    ensures Quiet(HandoffEvent(s, event, c).desk)
  {
    var n := Handoff.Step(s.desk.handoff, event, c.now);
    assert n.out == [];
  }

  lemma EarQuiet(s: State, event: EarMedia.Event, c: Clock)
    requires Quiet(s.desk)
    ensures Quiet(EarEvent(s, event, c).desk)
  {
    hide EarMedia.Step;
  }

  lemma DropQuiet(s: State, c: Clock)
    requires Quiet(s.desk)
    ensures Quiet(DropSocket(s, c).desk)
  {
    hide HandoffEvent, EarEvent, Unplug;
    var t := Unplug(s);
    assert t.desk == s.desk by { UnplugKeepsDesk(s); }
    HandoffQuiet(t, Handoff.LinkClosed, c);
    EarQuiet(HandoffEvent(t, Handoff.LinkClosed, c), EarMedia.LinkClosed, c);
  }

  lemma UnplugKeepsDesk(s: State)
    ensures Unplug(s).desk == s.desk && Unplug(s).auto == s.auto && Unplug(s).autoCrew == s.autoCrew
    ensures Unplug(s).rejoin == s.rejoin
  {
    hide Store.Step;
  }

  /** What dropping the socket leaves alone. */
  lemma DropKeeps(s: State, c: Clock)
    ensures var t := DropSocket(s, c);
            t.auto == s.auto && t.autoCrew == s.autoCrew && t.rejoin == s.rejoin
  {
    hide Handoff.Step, EarMedia.Step, Unplug;
    UnplugKeepsDesk(s);
  }

  // ---- the beginning of all runs

  ghost predicate Fresh0(s: State) {
    s.phase.Loop? && Known(s.host) && s.host.autoControlLink && !s.radio.acl && !s.radio.sock
    && s.timers == Timers(None, None, None) && s.auto == AutoConnect.NewState(EAGER) && s.autoCrew == Crew(0, [])
    && s.rejoin.pending.None? && Quiet(s.desk) && s.store.device.modelId == SUPPORTED_MODEL
  }

  lemma Initially()
    ensures Initial(Origin0())
    ensures Ok(Origin0(), OriginOf(Origin0()), 0) && Task(Origin0())
  {
    hide Ok;
    InitialOk(Origin0());
  }

  /** The first identity: everything is dropped and nothing was there. */
  lemma Disowned(c: Clock)
    requires c == At0(0)
    ensures var s := Origin0(); var o := OriginOf(s); var t := Disown(s, false, c);
            Ok(t, o, 0) && Quiet(t.desk) && t.phase.Loop? && t.auto == s.auto && t.autoCrew == s.autoCrew
            && t.rejoin.pending.None? && !t.radio.acl && !t.radio.sock && t.timers == s.timers && t.host == s.host
  {
    hide Ok, Apply, RejoinEvent, DropSocket;
    var s, o := Origin0(), OriginOf(Origin0());
    Initially();
    var t := s.(radio := s.radio.(generation := 1, acl := false, dialAt := None, dialKind := None));
    Sets(s, t, o, 0);
    var u := DropSocket(t, c);
    DropGoes(t, c, o);
    DropQuiet(t, c);
    DropKeeps(t, c);
    var v := Apply(u, Store.AclConnected(false));
    ApplyGoes(u, Store.AclConnected(false), o, 0);
    ApplyFrame(u, Store.AclConnected(false));
    RejoinEventOk(v, Rejoin.IdentityChanged, c, o);
    DisownOk(s, false, c, o);
  }

  lemma AfterSelection()
    ensures var s := Step(Origin0(), Selected(), At0(0)); Fresh0(s) && Ok(s, OriginOf(Origin0()), 0)
  {
    hide Ok, Apply, Disown, HandoffEvent, RejoinFold, Codec.AddressText;
    var s, o, c := Origin0(), OriginOf(Origin0()), At0(0);
    Disowned(c);
    var w := Disown(s, false, c);
    var x := RejoinFold(w, Rejoin.SetLocal(ADAPTER), c);
    SetLocalOk(w, ADAPTER, c, o);
    RejoinFoldFrame(w, Rejoin.SetLocal(ADAPTER), c, o);
    var h := HandoffEvent(x, Handoff.SetLocal(ADAPTER), c);
    HandoffGoes(x, Handoff.SetLocal(ADAPTER), c, o);
    HandoffQuiet(x, Handoff.SetLocal(ADAPTER), c);
    var y := h.(host := h.host.(adapter := Some(ADAPTER), device := Some(DEVICE)));
    Sets(h, y, o, 0);
    var update := Store.Identity(Codec.AddressText(DEVICE), None, Some(SUPPORTED_MODEL));
    ApplyGoes(y, update, o, 0);
    ApplyFrame(y, update);
    GivesModel(y);
    assert OnLinkInput(s, PICKED, c) == Apply(y, update);
    assert Handle(s, Selected(), c) == Apply(y, update);
  }

  lemma GivesModel(s: State)
    ensures Apply(s, Store.Identity(Codec.AddressText(DEVICE), None, Some(SUPPORTED_MODEL))).store.device.modelId
         == SUPPORTED_MODEL
  {
    hide Codec.AddressText;
  }

  lemma RejoinFoldFrame(s: State, event: Rejoin.Event, c: Clock, o: Origin)
    requires Ok(s, o, c.now) && event.SetLocal?
    ensures var t := RejoinFold(s, event, c);
            t.auto == s.auto && t.autoCrew == s.autoCrew && (s.rejoin.pending.None? ==> t.rejoin.pending.None?)
  {
    hide Steady, RejoinActs, Rejoin.Step;
    RejoinFoldSteady(s, event, c, o);
  }

  /** The link comes up: a dial is armed, and auto-connect hears of it. */
  lemma Up(s: State, c: Clock, o: Origin)
    requires Ok(s, o, c.now) && s.phase.Loop? && !s.radio.acl && s.rejoin.pending.None? && Quiet(s.desk)
    ensures var t := Step(s, Link(Connected(true)), c);
            Ok(t, o, c.now) && t.phase.Loop? && t.host == s.host && t.timers == s.timers && t.radio.sock == s.radio.sock
            && t.radio.acl && t.radio.dialKind == Some(Automatic) && t.radio.dialAt == Some(c.now + SETTLE)
            && t.auto.pending.None? && Quiet(t.desk) && t.store.device.modelId == s.store.device.modelId
            && t.rejoin.pending.None?
            && (!s.auto.rejoinPending ==>
                  t.autoCrew == AutoFold(AutoFlagged(s, c), AutoConnect.LocalConnected, c).autoCrew)
  {
    hide Ok, RejoinEvent, AutoEvent, HandoffEvent, Apply, Quiet;
    var t := RejoinEvent(s, Rejoin.LinkConnected(true), c);
    RejoinEventOk(s, Rejoin.LinkConnected(true), c, o);
    var u := AutoEvent(t, AutoConnect.LocalConnected, c);
    AutoEventOk(t, AutoConnect.LocalConnected, c, o);
    AutoEventCrew(t, s, c, o);
    var h := HandoffEvent(u, Handoff.AudioLinkChanged, c);
    HandoffGoes(u, Handoff.AudioLinkChanged, c, o);
    HandoffQuiet(u, Handoff.AudioLinkChanged, c);
    var v := Apply(h, Store.AclConnected(true));
    ApplyGoes(h, Store.AclConnected(true), o, c.now);
    ApplyFrame(h, Store.AclConnected(true));
    ApplyDevice(h, Store.AclConnected(true));
    var w := v.(radio := v.radio.(acl := true, generation := v.radio.generation + 1, suppressed := false),
                panel := v.panel.(buds := []));
    Sets(v, w, o, c.now);
    var x := RejoinEvent(w, Rejoin.LinkSessionStarted, c);
    RejoinEventOk(w, Rejoin.LinkSessionStarted, c, o);
    Sets(x, ArmDial(x, Automatic, c.now + SETTLE), o, c.now);
    QuietQueue(x.desk);
    assert Handle(s, Link(Connected(true)), c) == ArmDial(x, Automatic, c.now + SETTLE);
  }

  lemma QuietQueue(desk: Desk)
    ensures Quiet(desk) ==> desk.queue == [] && desk.playback.None?
  {}

  /** Auto-connect once it has been told that no rejoin is pending. */
  function AutoFlagged(s: State, c: Clock): State {
    AutoFold(s, AutoConnect.SetRejoinPending(false), c)
  }

  lemma AutoEventCrew(t: State, s: State, c: Clock, o: Origin)
    requires Ok(t, o, c.now) && t.auto == s.auto && t.autoCrew == s.autoCrew && t.host == s.host
    requires t.rejoin.pending.None?
    ensures AutoEvent(t, AutoConnect.LocalConnected, c).autoCrew
         == AutoFold(AutoFlagged(s, c), AutoConnect.LocalConnected, c).autoCrew
  {
    hide Steady, AutoConnect.Step, AutoActs;
    var a := AutoFold(t, AutoConnect.SetRejoinPending(false), c);
    var b := AutoFold(a, AutoConnect.LocalConnected, c);
    AutoFoldSteady(t, AutoConnect.SetRejoinPending(false), c, o);
    AutoFoldSteady(a, AutoConnect.LocalConnected, c, o);
    PublishShows(b, c, o);
  }

  // ---- a link that opens

  /** A tick with no timer running: the machines hear it, and a due dial begins. */
  lemma TickDials(s: State, c: Clock, o: Origin)
    requires Ok(s, o, c.now) && s.phase.Loop? && s.timers == Timers(None, None, None) && s.radio.acl && !s.radio.sock
    requires Due(s.radio.dialAt, c.now) && Quiet(s.desk)
    ensures var t := Step(s, Tick, c);
            Ok(t, o, c.now) && t.phase.DialDrain? && t.radio == s.radio && t.host == s.host && t.timers == s.timers
            && Quiet(t.desk) && t.store.device.modelId == s.store.device.modelId
  {
    hide Ok, RejoinEvent, AutoEvent, HandoffEvent, EarEvent, Quiet;
    var h := HandoffEvent(s, Handoff.Tick, c);
    HandoffGoes(s, Handoff.Tick, c, o);
    HandoffQuiet(s, Handoff.Tick, c);
    var e := EarEvent(h, EarMedia.Tick, c);
    EarGoes(h, EarMedia.Tick, c, o);
    EarQuiet(h, EarMedia.Tick, c);
    var t := RejoinEvent(e, Rejoin.Tick, c);
    RejoinEventOk(e, Rejoin.Tick, c, o);
    var u := AutoEvent(t, AutoConnect.Tick, c);
    AutoEventOk(t, AutoConnect.Tick, c, o);
    Sets(u, u.(phase := DialDrain), o, c.now);
    QuietQueue(u.desk);
    assert Handle(s, Tick, c) == u.(phase := DialDrain);
  }

  lemma DialBegins(s: State, c: Clock)
    requires s.phase.DialDrain? && s.radio.acl && s.radio.dialKind == Some(Automatic) && Known(s.host)
    ensures var t := Step(s, Proceed(false), c);
            t.phase == Authorizing(Automatic, s.radio.generation) && t.radio.generation == s.radio.generation
    ensures var t := Step(Step(s, Proceed(false), c), Fresh(Yes), c);
            t == s.(phase := OpeningLink(Automatic, s.radio.generation, Authorized), radio := t.radio) && t.radio.acl
            && t.radio.generation == s.radio.generation && t.radio.sock == s.radio.sock
  {}

  /** From the checks on, with every answer as hoped: the socket is promoted. */
  lemma OpeningEnds(s: State, c: Clock)
    requires s.phase.OpeningLink? && s.phase.opening == Authorized && Alive(s, s.phase.generation) && !s.radio.sock
    requires Quiet(s.desk)
    ensures var t := Step(Step(Step(Step(s, Proceed(false), c), SocketOpened(true), c), AckArrived(Got), c),
                          AckArrived(Got), c);
            t == s.(phase := OpeningLink(s.phase.kind, s.phase.generation, Subscribing), desk := t.desk)
            && Quiet(t.desk)
    ensures var t := Step(Step(Step(Step(s, Proceed(false), c), SocketOpened(true), c), AckArrived(Got), c),
                          AckArrived(Got), c);
            var u := Step(t, Subscribed(true), c);
            u.radio == s.radio.(sock := true) && u.phase.Loop? && u.desk == t.desk && u.host == s.host
            && u.timers == s.timers.(readbackAt := Some(c.now + READBACK_WINDOW))
            && u.store.device.modelId == s.store.device.modelId
  {
    hide Apply, HandoffEvent, Quiet;
    var t := s.(phase := s.phase.(opening := Connecting));
    assert Step(s, Proceed(false), c) == t;
    var u := HandoffEvent(s.(phase := s.phase.(opening := AwaitHandshake)), Handoff.LinkOpened, c);
    HandoffQuiet(s.(phase := s.phase.(opening := AwaitHandshake)), Handoff.LinkOpened, c);
    QuietQueue(s.desk);
    QuietQueue(u.desk);
    HandoffOnlyDesk(s.(phase := s.phase.(opening := AwaitHandshake)), Handoff.LinkOpened, c);
    assert Step(t, SocketOpened(true), c) == u;
    var v := u.(phase := u.phase.(opening := AwaitFeatures));
    assert Step(u, AckArrived(Got), c) == v;
    var w := v.(phase := v.phase.(opening := Subscribing));
    assert Step(v, AckArrived(Got), c) == w;
    var x := w.(radio := w.radio.(sock := true));
    ApplyFrame(x, Store.AapLink(true));
    ApplyDevice(x, Store.AapLink(true));
  }

  lemma HandoffOnlyDesk(s: State, event: Handoff.Event, c: Clock)
    ensures OnlyDesk(s, HandoffEvent(s, event, c))
  {
    hide Handoff.Step, Queued;
  }

  /** A run that has got as far as the checked dial: identity, link, tick, and BlueZ's yes. */
  lemma Authorised() returns (r: Run)
    ensures r.Valid() && r.init == Origin0() && |r.es| == 5 && r.Now(5) == SETTLE && r.Dials(3, Automatic)
    ensures var s := r.At(5);
            s.phase.OpeningLink? && s.phase.kind == Automatic && s.phase.opening == Authorized
            && Alive(s, s.phase.generation) && !s.radio.sock && s.timers == Timers(None, None, None)
            && Quiet(s.desk) && s.store.device.modelId == SUPPORTED_MODEL && Known(s.host)
  {
    hide Ok, Step, Initial, Fresh0, Quiet;
    Initially();
    var o, c, d := OriginOf(Origin0()), At0(0), At0(SETTLE);
    r := Run(Origin0(), []);
    assert r.Valid();
    r := Extended(r, Selected(), c);
    AfterSelection();
    FreshFacts(r.At(1));
    r := Extended(r, Link(Connected(true)), c);
    Up(r.At(1), c, o);
    Later(r.At(2), o, 0, SETTLE);
    r := Extended(r, Tick, d);
    TickDials(r.At(2), d, o);
    r := Extended(r, Proceed(false), d);
    DialBegins(r.At(3), d);
    r := Extended(r, Fresh(Yes), d);
  }

  lemma FreshFacts(s: State)
    requires Fresh0(s)
    ensures s.phase.Loop? && Known(s.host) && !s.radio.acl && !s.radio.sock && s.timers == Timers(None, None, None)
    ensures s.rejoin.pending.None? && Quiet(s.desk) && s.store.device.modelId == SUPPORTED_MODEL
  {}

  /** The rest of the opening. */
  lemma Opened(p: Run) returns (r: Run)
    requires p.Valid() && p.At(|p.es|).phase.OpeningLink? && p.At(|p.es|).phase.opening == Authorized
    requires var s := p.At(|p.es|); Alive(s, s.phase.generation) && !s.radio.sock && Quiet(s.desk)
    requires p.Now(|p.es|) == SETTLE
    ensures r.Valid() && r.init == p.init && |r.es| == |p.es| + 5 && r.es[..|p.es|] == p.es && r.Now(|r.es|) == SETTLE
    ensures forall k :: 0 <= k <= |p.es| ==> r.At(k) == p.At(k)
    ensures r.Promotes(|p.es| + 4)
    ensures var s, t := p.At(|p.es|), r.At(|r.es|);
            t.radio == s.radio.(sock := true) && t.phase.Loop? && Quiet(t.desk) && t.host == s.host
            && t.timers == s.timers.(readbackAt := Some(SETTLE + READBACK_WINDOW))
            && t.store.device.modelId == s.store.device.modelId
  {
    hide Ok, Step, Initial, Quiet, Run.Valid;
    var n, c := |p.es|, At0(SETTLE);
    r := Extended(p, Proceed(false), c);
    r := Extended(r, SocketOpened(true), c);
    r := Extended(r, AckArrived(Got), c);
    r := Extended(r, AckArrived(Got), c);
    r := Extended(r, Subscribed(true), c);
    OpeningEnds(p.At(n), c);
  }

  // ---- a drop that only the signal reports

  lemma DropIsNoBoundary(s: State)
    ensures !Boundary(s, DROP)
  {}

  lemma DropKeepsDial(r: Run, k: nat)
    requires r.Valid() && k < |r.es| && r.At(k).phase.OpeningLink? && r.es[k].input == Link(DROP) && !r.At(k).radio.sock
    ensures r.At(k + 1).phase == r.At(k).phase && Alive(r.At(k + 1), r.At(k).phase.generation)
    ensures !r.At(k + 1).radio.sock
  {
    hide Ok, OnLink, Initial;
    Took(r, k);
    Reached(r, k);
    assert r.Linked(k);
    DropIsNoBoundary(r.At(k));
    DialEndsIff(r, k);
    LinkOk(r.At(k), DROP, r.es[k].clock, OriginOf(r.init));
  }

  lemma DropQuietly(s: State, c: Clock, o: Origin)
    requires Ok(s, o, c.now) && s.phase.OpeningLink? && Alive(s, s.phase.generation) && Quiet(s.desk)
    ensures Quiet(Step(s, Link(DROP), c).desk)
  {
    hide Ok, RejoinEvent, AutoEvent, HandoffEvent;
    var u := s.(desk := s.desk.(route := None));
    DeskSets(s, u, o, c.now);
    AutoEventOk(u, AutoConnect.LocalDisconnected(Rejoin.Remote), c, o);
    RejoinEventOk(AutoEvent(u, AutoConnect.LocalDisconnected(Rejoin.Remote), c),
                  Rejoin.Disconnected(Rejoin.Remote, None, false), c, o);
  }

  /**
   A drop known only from the `Disconnected` signal does not end a dial: in this run the signal is handled after the
   dial captured its generation, and the socket is promoted all the same.
   */
  lemma SignalAloneEndsNoDial() returns (r: Run)
    ensures r.Valid() && |r.es| == 11 && r.Dials(3, Automatic) && r.es[5].input == Link(DROP) && r.Promotes(10)
  {
    hide Ok, Step, Initial, Quiet;
    var p := Authorised();
    var q := Extended(p, Link(DROP), At0(SETTLE));
    DropKeepsDial(q, 5);
    Reached(q, 5);
    DropQuietly(q.At(5), At0(SETTLE), OriginOf(q.init));
    r := Opened(q);
    assert r.es[5] == r.es[..6][5] == q.es[5];
  }

  // ---- a reopening without a deadline

  const ASKED: Settings.Setting := Settings.PersonalizedVolume(true)

  const LATE: Millis := 20_000

  /** A write on the open link, and the first battery packet right behind it. */
  lemma WriteAndBattery(s: State, c: Clock)
    requires s.phase.Loop? && s.radio.sock && s.store.device.modelId == SUPPORTED_MODEL && s.timers.readbackAt.Some?
    requires Quiet(s.desk)
    ensures var t := Step(s, Command(Write(ASKED), Store.ContextOf(s.store), c.now + 1), c);
            var u := Step(t, SendDone(true), c);
            var v := Step(u, Received(BatteryPacket), c);
            Writes(t, SendDone(true)) && u.timers.readbackAt.Some? && u.phase.Loop? && u.radio.sock
            && v.phase.Loop? && v.radio == s.radio && v.host == s.host && Quiet(v.desk)
            && v.timers == Timers(Some(c.now + VERIFY_DEBOUNCE), None, None)
  {
    hide Apply, HandoffEvent, Quiet;
    QuietQueue(s.desk);
    var t := s.(phase := Sending(Store.SettingRequested(ASKED)));
    assert Step(s, Command(Write(ASKED), Store.ContextOf(s.store), c.now + 1), c) == t;
    var a := Apply(t, Store.SettingRequested(ASKED));
    ApplyFrame(t, Store.SettingRequested(ASKED));
    var u := Step(t, SendDone(true), c);
    assert u == a.(phase := Loop, timers := u.timers);
    var b := Apply(u.(timers := u.timers.(readbackAt := None, verifyBudget := None)), Store.VerifyCompleted);
    ApplyFrame(u.(timers := u.timers.(readbackAt := None, verifyBudget := None)), Store.VerifyCompleted);
    var v := HandoffEvent(b, Handoff.OpeningSettled, c);
    HandoffQuiet(b, Handoff.OpeningSettled, c);
    HandoffOnlyDesk(b, Handoff.OpeningSettled, c);
    QuietQueue(v.desk);
    assert Step(u, Received(BatteryPacket), c) == v;
  }

  /** A tick finds the debounce over and asks BlueZ. */
  lemma TickChecks(s: State, c: Clock, o: Origin)
    requires Ok(s, o, c.now) && s.phase.Loop? && s.radio.acl && s.radio.sock && Quiet(s.desk)
    requires s.timers.readbackAt.None? && Due(s.timers.verifyAt, c.now)
    ensures var t := Step(s, Tick, c);
            t.phase == VerifyCheck(c.now) && t.radio == s.radio && t.host == s.host && Quiet(t.desk)
            && t.timers == s.timers.(verifyAt := None)
  {
    hide Ok, RejoinEvent, AutoEvent, HandoffEvent, EarEvent, Quiet;
    var h := HandoffEvent(s, Handoff.Tick, c);
    HandoffGoes(s, Handoff.Tick, c, o);
    HandoffQuiet(s, Handoff.Tick, c);
    var e := EarEvent(h, EarMedia.Tick, c);
    EarGoes(h, EarMedia.Tick, c, o);
    EarQuiet(h, EarMedia.Tick, c);
    var t := RejoinEvent(e, Rejoin.Tick, c);
    RejoinEventOk(e, Rejoin.Tick, c, o);
    AutoEventOk(t, AutoConnect.Tick, c, o);
  }

  /** BlueZ says yes, and the link is reopened. */
  lemma CheckReopens(s: State, c: Clock, o: Origin)
    requires Ok(s, o, c.now) && s.phase.VerifyCheck? && s.radio.acl && s.radio.sock && s.timers.verifyBudget.None?
    ensures var t := Step(s, Fresh(Yes), c);
            var u := Step(t, Proceed(false), c);
            t == s.(phase := VerifyDrain(s.phase.started))
            && u.radio == s.radio.(sock := false, dialKind := Some(Manual), dialAt := Some(c.now))
  {
    hide Ok, Apply, Reopen, AbandonReadback;
    var t := s.(phase := VerifyDrain(s.phase.started));
    Sets(s, t, o, c.now);
    assert Step(s, Fresh(Yes), c) == t;
    ApplyGoes(t, Store.VerifyReopening, o, c.now);
    ReopenGoes(Apply(t, Store.VerifyReopening), c, o);
    var v := Reopen(Apply(t, Store.VerifyReopening), c);
    assert AfterVerify(v, s.phase.started, c).radio == v.radio;
  }

  /**
   A reopening may come after the deadline, with nothing left to verify: here a battery packet closes the window right
   after the write. The debounce stands without a deadline, and a tick past the ten seconds reopens the link.
   */
  lemma LateReopening() returns (r: Run, w: nat, b: nat, k: nat)
    ensures r.Valid() && w < b < k < |r.es|
    ensures r.Wrote(w) && Finishes(r.At(b), r.es[b].input, r.es[b].clock)
    ensures r.At(b + 1).timers.verifyAt.Some? && r.At(b + 1).timers.verifyBudget.None?
    ensures r.es[k].clock.now >= r.es[w].clock.now + VERIFY_BUDGET && !Verifying(r.At(k).store)
    ensures r.At(k).radio.sock && !r.At(k + 1).radio.sock && r.At(k + 1).radio.dialKind == Some(Manual)
  {
    hide Ok, Step, Initial, Quiet, Run.Valid;
    var p := Authorised();
    r := Opened(p);
    var s, c, d := r.At(10), At0(SETTLE), At0(LATE);
    r := Extended(r, Command(Write(ASKED), Store.ContextOf(s.store), c.now + 1), c);
    r := Extended(r, SendDone(true), c);
    r := Extended(r, Received(BatteryPacket), c);
    WriteAndBattery(s, c);
    w, b := 11, 12;
    r := Extended(r, Tick, d);
    Reached(r, 13);
    Later(r.At(13), OriginOf(r.init), SETTLE, LATE);
    TickChecks(r.At(13), d, OriginOf(r.init));
    r := Extended(r, Fresh(Yes), d);
    r := Extended(r, Proceed(false), d);
    Reached(r, 14);
    CheckReopens(r.At(14), d, OriginOf(r.init));
    k := 15;
    if Verifying(r.At(15).store) {
      VerifyingHasDeadline(r, 15);
    }
  }

  // ---- a worker whose sequence a local connect retired

  ghost predicate Paged(s: State) {
    s.phase.Loop? && !s.radio.acl && s.rejoin.pending.None? && Quiet(s.desk)
    && s.autoCrew == Crew(1, [Job(1, Checking)]) && s.auto.pending == Some(AutoConnect.Pending(1, 1, 0, true, true))
    && !s.auto.rejoinPending
  }

  /** With no delay configured the first tick pages. */
  lemma FirstTickPages(s: State, o: Origin)
    requires Fresh0(s) && Ok(s, o, 0)
    ensures Paged(Step(s, Tick, At0(0)))
  {
    hide Ok, RejoinEvent, HandoffEvent, EarEvent, AutoEvent, Quiet;
    var c := At0(0);
    var h := HandoffEvent(s, Handoff.Tick, c);
    HandoffGoes(s, Handoff.Tick, c, o);
    HandoffQuiet(s, Handoff.Tick, c);
    var e := EarEvent(h, EarMedia.Tick, c);
    EarGoes(h, EarMedia.Tick, c, o);
    EarQuiet(h, EarMedia.Tick, c);
    var t := RejoinEvent(e, Rejoin.Tick, c);
    RejoinEventOk(e, Rejoin.Tick, c, o);
    FirstAutoTick(t, o);
    QuietQueue(AutoEvent(t, AutoConnect.Tick, c).desk);
  }

  lemma FirstAutoTick(t: State, o: Origin)
    requires t.phase.Loop? && Known(t.host) && t.host.autoControlLink && !t.radio.acl && Quiet(t.desk) && Ok(t, o, 0)
    requires t.timers == Timers(None, None, None) && t.rejoin.pending.None?
    requires t.auto == AutoConnect.NewState(EAGER) && t.autoCrew == Crew(0, [])
    ensures var u := AutoEvent(t, AutoConnect.Tick, At0(0));
            Paged(u) && u.timers == t.timers && u.radio == t.radio
  {
    hide Ok, PublishLink, AutoConnect.Step, Quiet;
    var c := At0(0);
    var a := AutoFold(t, AutoConnect.SetRejoinPending(false), c);
    var b := AutoFold(a, AutoConnect.Tick, c);
    FirstPage();
    OkIsSteady(t, o, 0);
    AutoFoldSteady(t, AutoConnect.SetRejoinPending(false), c, o);
    AutoFoldSteady(a, AutoConnect.Tick, c, o);
    PublishShows(b, c, o);
    AutoEventOk(t, AutoConnect.Tick, c, o);
    PageActs(a.autoCrew, a.host);
    QuietQueue(b.desk);
  }

  lemma OkIsSteady(s: State, o: Origin, now: Millis)
    requires Ok(s, o, now)
    ensures Steady(CoreOf(s), o, now)
  {}

  lemma FirstPage()
    ensures var n := AutoConnect.Step(AutoConnect.NewState(EAGER), AutoConnect.SetRejoinPending(false), 0);
            n.state == AutoConnect.NewState(EAGER) && n.out == []
    ensures var n := AutoConnect.Step(AutoConnect.NewState(EAGER), AutoConnect.Tick, 0);
            n.state.pending == Some(AutoConnect.Pending(1, 1, 0, true, true)) && !n.state.rejoinPending
            && n.out == PageOut()
  {}

  function PageOut(): seq<AutoConnect.Action> {
    [AutoConnect.FallbackPage(0, 1), AutoConnect.Connect(1, 1)]
  }

  lemma PageActs(crew: Crew, host: Host)
    requires crew == Crew(0, []) && Known(host) && host.autoControlLink
    ensures AutoActs(crew, host, PageOut()) == Crew(1, [Job(1, Checking)])
  {
    var first := PageOut()[..1];
    assert first[..0] == [];
    assert AutoActs(crew, host, first) == crew;
  }

  lemma ConnectLeavesEpoch(s: State, c: Clock)
    requires Paged(s)
    ensures AutoFold(AutoFlagged(s, c), AutoConnect.LocalConnected, c).autoCrew == s.autoCrew
  {
    var a := AutoFlagged(s, c);
    assert a.autoCrew == s.autoCrew;
    var out := AutoConnect.Step(a.auto, AutoConnect.LocalConnected, c.now).out;
    assert out == [AutoConnect.Connected] && out[..0] == [];
  }

  /**
   An auto-connect worker may call `Device1.Connect` after its sequence is gone: here the device connects by itself
   while the worker is still checking, and the epoch keeps naming the sequence that this retired.
   */
  lemma RetiredWorkerCalls() returns (r: Run)
    ensures r.Valid() && |r.es| == 4 && r.Calls(3, false, 0) && r.At(3).auto.pending.None?
  {
    hide Ok, Step, Initial, Fresh0, Paged;
    Initially();
    var o, c := OriginOf(Origin0()), At0(0);
    r := Run(Origin0(), []);
    assert r.Valid();
    r := Extended(r, Selected(), c);
    AfterSelection();
    r := Extended(r, Tick, c);
    FirstTickPages(r.At(1), o);
    r := Extended(r, Link(Connected(true)), c);
    Reached(r, 2);
    PagedFacts(r.At(2));
    Up(r.At(2), c, o);
    ConnectLeavesEpoch(r.At(2), c);
    assert r.At(3).autoCrew == Crew(1, [Job(1, Checking)]);
    r := Extended(r, WorkerChecks(false, 0), c);
    WantedCalls(r.At(3), c);
  }

  lemma PagedFacts(s: State)
    requires Paged(s)
    ensures s.phase.Loop? && !s.radio.acl && s.rejoin.pending.None? && !s.auto.rejoinPending && Quiet(s.desk)
    ensures s.autoCrew == Crew(1, [Job(1, Checking)])
  {}

  lemma WantedCalls(s: State, c: Clock)
    requires s.autoCrew == Crew(1, [Job(1, Checking)])
    ensures Step(s, WorkerChecks(false, 0), c).autoCrew == Crew(1, [Job(1, Calling)])
  {}
}
