/**
 The sockets, the dial, the card and the addresses the accessory was seen under, each told by what was handled: when a
 dial is armed, when the socket is open, where the card points, and why a reconnect is shown.
 */
module SupervisorHistory {
  import opened Prelude
  import opened Supervisor
  import opened SupervisorRuns
  import opened SupervisorEvents
  import SupervisorSteps
  import Settings
  import Codec
  import Rejoin
  import AutoConnect
  import Handoff
  import EarMedia
  import Store

  // ---- what an input amounts to

  /** The link is lost, or is another device's now. */
  predicate Cuts(s: State, input: Input) {
    input.Link? && TakesLinkEvents(s.phase)
    && match input.event
       case Connected(up) => !up
       case AdapterGone => true
       case Identity(adapter, address, _, _, pinned) =>
         s.host != s.host.(adapter := Some(adapter), device := Some(address), pinned := pinned)
       case _ => false
  }

  /** The link is seen to come up. */
  predicate Rises(s: State, input: Input) {
    input == Link(Connected(true)) && TakesLinkEvents(s.phase) && !s.radio.acl
  }

  /** A message to the AirPods that could go out: there is a socket, and the address it has to name is known. */
  predicate CouldSend(s: State, a: Handoff.Action) {
    s.radio.sock
    && match a
       case SendOwnership(_) => true
       case SendHijack(_) => true
       case SendMediaInfo(_, _, _) => s.host.adapter.Some?
       case SendNewDeviceMediaInfo(_) => s.host.adapter.Some?
       case SendNewTipi(_) => s.host.adapter.Some?
       case _ => false
  }

  /**
   Something failed on the link, or an automatic dial was turned down: nothing is dialled unasked until the next edge.
   */
  predicate Fails(s: State, input: Input) {
    match s.phase
    case Loop => input.LinkDied? && s.radio.sock
    case Sending(_) => input == SendDone(false)
    case DialDrain => input.Proceed? && s.radio.acl && s.radio.dialKind.Some? && !Known(s.host)
    case Authorizing(kind, _) => kind.Automatic? && input.Fresh? && !input.answer.Yes?
    case OpeningLink(_, _, stage) =>
      (stage.Connecting? && input == SocketOpened(false))
      || (stage.AwaitHandshake? && input.AckArrived? && !input.ack.Got?)
      || (stage.AwaitFeatures? && input == AckArrived(Broken))
      || (stage.Subscribing? && input == Subscribed(false))
    case Flushing(rest) => input == Flush(false) && rest != [] && CouldSend(s, rest[0])
    case _ => false
  }

  /** The socket is dropped for a new one: on a command that is still wanted, or to read back what was written. */
  predicate Reopens(s: State, input: Input, now: Millis) {
    input.Proceed?
    && match s.phase
       case CommandDrain(order) =>
         !input.gone && !order.connectOnce && now < order.deadline && order.context == Store.ContextOf(s.store)
       case VerifyDrain(_) => s.radio.acl
       case _ => false
  }

  /** A dial begins. */
  predicate Begins(s: State, input: Input) {
    s.phase.DialDrain? && input.Proceed? && s.radio.acl && s.radio.dialKind.Some? && Known(s.host)
  }

  /** The last stage of an opening is answered well. */
  predicate Opens(s: State, input: Input) {
    s.phase.OpeningLink? && s.phase.opening == Subscribing && input == Subscribed(true) && Alive(s, s.phase.generation)
  }

  // ---- how one step moves the sockets, the card and the addresses seen

  predicate RadioMoves(s: State, input: Input, now: Millis, t: State) {
    t.radio.sock == (Opens(s, input)
                     || (s.radio.sock && !Cuts(s, input) && !Fails(s, input) && !Reopens(s, input, now)))
    && (if Rises(s, input) then t.radio.dialKind == Some(Automatic) && t.radio.dialAt == Some(now + SETTLE)
        else if Cuts(s, input) || Fails(s, input) || Begins(s, input) then
          t.radio.dialKind.None? && t.radio.dialAt.None?
        else if Reopens(s, input, now) then t.radio.dialKind == Some(Manual) && t.radio.dialAt == Some(now)
        else t.radio.dialKind == s.radio.dialKind && t.radio.dialAt == s.radio.dialAt)
  }

  /** The card is this daemon's to switch. */
  predicate MaySwitch(s: State) {
    s.host.controlAudio && s.host.device.Some?
  }

  function Switched(s: State, mode: Handoff.RouteMode): Option<Handoff.RouteMode> {
    if MaySwitch(s) then Some(mode) else s.desk.route
  }

  /** The card after a socket has gone: nobody is left to give it back after a yield. */
  function PutBackAfter(s: State, up: bool): Option<Handoff.RouteMode> {
    if s.desk.route != Some(Handoff.Yielded) then s.desk.route
    else if up then Switched(s, Handoff.Own)
    else None
  }

  /** Where the card is told to point by an input, if by any. */
  function RouteAfter(s: State, input: Input, c: Clock): Option<Handoff.RouteMode> {
    if Cuts(s, input) then PutBackAfter(s, false)
    else if Fails(s, input) || Reopens(s, input, c.now) then PutBackAfter(s, s.radio.acl)
    else
      match input
      case Link(event) =>
        if event.Disconnected? && TakesLinkEvents(s.phase) then None else s.desk.route
      case Received(packet) =>
        if packet.OwnershipPacket? && ReadsPackets(s) && s.desk.handoff.enabled
        then Switched(s, if packet.owns then Handoff.Own else Handoff.Yielded)
        else s.desk.route
      case Command(request, context, deadline) =>
        if request == SetHandoff(false) && s.phase.Loop? && IsCurrent(s, context, deadline, c)
           && s.desk.route == Some(Handoff.Yielded)
        then Switched(s, Handoff.Own)
        else s.desk.route
      case Flush(_) =>
        if s.phase.Flushing? && s.phase.rest != [] && s.phase.rest[0].SetAudioRoute?
        then Switched(s, s.phase.rest[0].mode)
        else s.desk.route
      case _ => s.desk.route
  }

  /** The accessory's addresses in view: its last two different ones since the link came up. */
  function BudsAfter(s: State, input: Input, now: Millis): seq<BudSeen> {
    if Rises(s, input) then []
    else if input.Received? && input.packet.AddressPacket? && ReadsPackets(s) && input.packet.trailer == 2
            && s.host.adapter != Some(input.packet.bud)
            && (s.panel.buds == [] || s.panel.buds[|s.panel.buds| - 1].bud != input.packet.bud) then
      (if |s.panel.buds| >= 2 then s.panel.buds[1..] else s.panel.buds) + [BudSeen(input.packet.bud, now)]
    else s.panel.buds
  }

  predicate Moves(s: State, input: Input, c: Clock, t: State) {
    RadioMoves(s, input, c.now, t) && t.desk.route == RouteAfter(s, input, c)
    && t.panel.buds == BudsAfter(s, input, c.now)
    && t.desk.playback == (if input.Playing? && (s.phase.Loop? || AwaitsSilence(s)) then Some(input.reading)
                           else s.desk.playback)
  }

  lemma MovesPacket(s: State, packet: Packet, c: Clock)
    requires Receives(s.phase, s.radio.sock)
    ensures Moves(s, Received(packet), c, OnPacket(s, packet, c))
  {
    hide Rejoin.Step, AutoConnect.Step, EarMedia.Step, Store.Step, Queued, RejoinActs, AutoActs;
    hide NextSequence, Shown, AudioOnAirPods, Addresses;
  }

  lemma MovesCommand(s: State, input: Input, c: Clock)
    requires s.phase.Loop? && input.Command?
    ensures Moves(s, input, c, OnCommand(s, input.request, input.context, input.deadline, c))
  {
    hide Rejoin.Step, AutoConnect.Step, Handoff.Step, EarMedia.Step, Store.Step, Queued, RejoinActs, AutoActs;
    hide NextSequence, Shown, AudioOnAirPods, Settings.ValidSetting;
  }

  lemma MovesTick(s: State, c: Clock)
    requires s.phase.Loop?
    ensures Moves(s, Tick, c, OnTick(s, c))
  {
    hide Rejoin.Step, AutoConnect.Step, Handoff.Step, EarMedia.Step, Store.Step, Queued, RejoinActs, AutoActs;
    hide NextSequence, Shown, AudioOnAirPods;
  }

  lemma MovesHeard(s: State, input: Input, c: Clock)
    requires s.phase.Loop? && (input.LinkDied? || input.Seen? || input.Playing? || input.WorkerReports?)
    ensures Moves(s, input, c, Attend(s, input, c))
  {
    hide Rejoin.Step, AutoConnect.Step, Handoff.Step, EarMedia.Step, Store.Step, Queued, RejoinActs, AutoActs;
    hide NextSequence, Shown, AudioOnAirPods, Without, OnCommand, OnTick;
  }

  lemma MovesIdle(s: State, input: Input, c: Clock)
    requires s.phase.Loop? && !input.Link? && !input.Received? && !input.Playing? && !input.LinkDied?
    requires !input.Command?
    ensures Moves(s, input, c, s)
  {}

  lemma MovesAttend(s: State, input: Input, c: Clock)
    requires s.phase.Loop? && !input.Link? && !input.Received? && !input.WorkerChecks? && !input.WorkerEnds?
    ensures Moves(s, input, c, Attend(s, input, c))
  {
    hide OnCommand, OnTick, OnReport, OnPlayback, AutoEvent, Suppress, Moves;
    match input
    case Command(_, _, _) => MovesCommand(s, input, c);
    case Tick => MovesTick(s, c);
    case LinkDied => MovesHeard(s, input, c);
    case Seen(_) => MovesHeard(s, input, c);
    case Playing(_) => MovesHeard(s, input, c);
    case WorkerReports(_, _) => MovesHeard(s, input, c);
    case _ => MovesIdle(s, input, c);
  }

  lemma MovesFresh(s: State, answer: Answer, c: Clock)
    requires !s.phase.Loop?
    ensures Moves(s, Fresh(answer), c, OnFresh(s, answer, c))
  {
    hide Rejoin.Step, AutoConnect.Step, Handoff.Step, EarMedia.Step, Store.Step, Queued, RejoinActs, AutoActs;
    hide AudioOnAirPods;
  }

  lemma MovesObey(s: State, gone: bool, c: Clock)
    requires s.phase.CommandDrain?
    ensures Moves(s, Proceed(gone), c, Obey(s, gone, c))
  {
    hide Rejoin.Step, AutoConnect.Step, Handoff.Step, EarMedia.Step, Store.Step, Queued, RejoinActs, AutoActs;
    hide AudioOnAirPods;
  }

  lemma MovesReadBack(s: State, gone: bool, c: Clock)
    requires s.phase.VerifyDrain?
    ensures Moves(s, Proceed(gone), c, ReadBack(s, c))
  {
    hide Rejoin.Step, AutoConnect.Step, Handoff.Step, EarMedia.Step, Store.Step, Queued, RejoinActs, AutoActs;
    hide AudioOnAirPods;
  }

  lemma MovesDial(s: State, gone: bool, c: Clock)
    requires s.phase.DialDrain?
    ensures Moves(s, Proceed(gone), c, StartDial(s, c))
  {
    hide Rejoin.Step, AutoConnect.Step, Handoff.Step, EarMedia.Step, Store.Step, Queued, RejoinActs, AutoActs;
    hide AudioOnAirPods;
  }

  lemma MovesProceed(s: State, gone: bool, c: Clock)
    requires !s.phase.Loop?
    ensures Moves(s, Proceed(gone), c, OnProceed(s, gone, c))
  {
    hide Obey, ReadBack, StartDial;
    if s.phase.CommandDrain? || s.phase.VerifyDrain? || s.phase.DialDrain? {
      hide Moves;
      match s.phase
      case CommandDrain(_) => MovesObey(s, gone, c);
      case VerifyDrain(_) => MovesReadBack(s, gone, c);
      case DialDrain => MovesDial(s, gone, c);
      case _ =>
    }
  }

  lemma MovesSocket(s: State, ok: bool, c: Clock)
    requires s.phase.OpeningLink?
    ensures Moves(s, SocketOpened(ok), c, OnOpening(s, SocketOpened(ok), c))
  {
    hide Rejoin.Step, AutoConnect.Step, Handoff.Step, EarMedia.Step, Store.Step, Queued, RejoinActs, AutoActs;
    hide AudioOnAirPods;
  }

  lemma MovesAck(s: State, ack: Ack, c: Clock)
    requires s.phase.OpeningLink?
    ensures Moves(s, AckArrived(ack), c, OnOpening(s, AckArrived(ack), c))
  {
    hide Rejoin.Step, AutoConnect.Step, Handoff.Step, EarMedia.Step, Store.Step, Queued, RejoinActs, AutoActs;
    hide AudioOnAirPods, Greet, Promote;
  }

  lemma MovesSubscribed(s: State, ok: bool, c: Clock)
    requires s.phase.OpeningLink?
    ensures Moves(s, Subscribed(ok), c, OnOpening(s, Subscribed(ok), c))
  {
    hide Rejoin.Step, AutoConnect.Step, Handoff.Step, EarMedia.Step, Store.Step, Queued, RejoinActs, AutoActs;
    hide AudioOnAirPods, Greet;
  }

  lemma MovesOpening(s: State, input: Input, c: Clock)
    requires s.phase.OpeningLink? && !input.Link? && !input.Received? && !input.Fresh? && !input.Proceed?
    ensures Moves(s, input, c, OnOpening(s, input, c))
  {
    if input.SocketOpened? || input.AckArrived? || input.Subscribed? {
      hide Moves, OnOpening;
      match input
      case SocketOpened(ok) => MovesSocket(s, ok, c);
      case AckArrived(ack) => MovesAck(s, ack, c);
      case Subscribed(ok) => MovesSubscribed(s, ok, c);
      case _ =>
    } else {
      hide Connect, Advance, LastStage;
    }
  }

  lemma MovesWork(s: State, input: Input, c: Clock)
    requires !s.phase.Loop? && !s.phase.OpeningLink? && !input.Link? && !input.Received?
    requires !input.Fresh? && !input.Proceed?
    ensures Moves(s, input, c, Work(s, input, c))
  {
    hide Rejoin.Step, AutoConnect.Step, Handoff.Step, EarMedia.Step, Store.Step, Queued, RejoinActs, AutoActs;
    hide AudioOnAirPods;
  }

  lemma MovesResume(s: State, input: Input, c: Clock)
    requires !s.phase.Loop? && !input.Link? && !input.Received? && !input.WorkerChecks? && !input.WorkerEnds?
    ensures Moves(s, input, c, Resume(s, input, c))
  {
    hide Moves, OnFresh, OnProceed, OnOpening, Work;
    match input
    case Fresh(answer) => MovesFresh(s, answer, c);
    case Proceed(gone) => MovesProceed(s, gone, c);
    case _ =>
      if s.phase.OpeningLink? {
        MovesOpening(s, input, c);
      } else {
        MovesWork(s, input, c);
      }
  }

  lemma MovesIdentity(s: State, event: LinkEvent, c: Clock)
    requires event.Identity? && TakesLinkEvents(s.phase)
    ensures Moves(s, Link(event), c, OnIdentity(s, event, c))
  {
    hide Rejoin.Step, AutoConnect.Step, Handoff.Step, EarMedia.Step, Store.Step, Queued, RejoinActs, AutoActs;
    hide NextSequence, Shown, AudioOnAirPods, Codec.AddressText;
  }

  lemma MovesUp(s: State, c: Clock)
    requires TakesLinkEvents(s.phase)
    ensures Moves(s, Link(Connected(true)), c, OnConnected(s, c))
  {
    hide Rejoin.Step, AutoConnect.Step, Handoff.Step, EarMedia.Step, Store.Step, Queued, RejoinActs, AutoActs;
    hide NextSequence, Shown, AudioOnAirPods;
  }

  lemma MovesDown(s: State, input: Input, e: Rejoin.Event, c: Clock)
    requires TakesLinkEvents(s.phase) && input in {Link(Connected(false)), Link(AdapterGone)}
    ensures Moves(s, input, c, OnDown(s, e, c))
  {
    hide Rejoin.Step, AutoConnect.Step, Handoff.Step, EarMedia.Step, Store.Step, Queued, RejoinActs, AutoActs;
    hide NextSequence, Shown, AudioOnAirPods;
  }

  lemma MovesTaken(s: State, event: LinkEvent, c: Clock)
    requires TakesLinkEvents(s.phase)
    ensures Moves(s, Link(event), c, OnLink(s, event, c))
  {
    hide Moves, OnIdentity, OnConnected, OnDown, HandoffEvent;
    match event
    case Identity(_, _, _, _, _) => MovesIdentity(s, event, c);
    case Connected(up) => if up { MovesUp(s, c); } else { MovesDown(s, Link(event), Rejoin.LinkConnected(false), c); }
    case AdapterGone => MovesDown(s, Link(event), Rejoin.AdapterGone, c);
    case _ => MovesOther(s, event, c);
  }

  lemma MovesLink(s: State, event: LinkEvent, c: Clock)
    ensures Moves(s, Link(event), c, OnLinkInput(s, event, c))
  {
    hide OnLink;
    if TakesLinkEvents(s.phase) {
      MovesTaken(s, event, c);
      PhaseIsFree(s, Link(event), c, OnLink(s, event, c));
      hide Moves;
    }
  }

  lemma MovesOther(s: State, event: LinkEvent, c: Clock)
    requires TakesLinkEvents(s.phase) && !event.Identity? && !event.Connected? && !event.AdapterGone?
    ensures Moves(s, Link(event), c, OnLink(s, event, c))
  {
    hide Rejoin.Step, AutoConnect.Step, Handoff.Step, EarMedia.Step, Store.Step, Queued, RejoinActs, AutoActs;
    hide NextSequence, Shown, AudioOnAirPods, OnIdentity, OnConnected, OnDown;
  }

  lemma PhaseIsFree(s: State, input: Input, c: Clock, t: State)
    requires Moves(s, input, c, t)
    ensures forall phase :: Moves(s, input, c, t.(phase := phase))
  {}

  lemma MovesWorker(s: State, input: Input, c: Clock)
    requires input.WorkerChecks? || input.WorkerEnds?
    ensures Moves(s, input, c, OnWorker(s, input))
  {
    hide Check, End;
  }

  lemma MovesOn(s: State, input: Input, c: Clock, t: State)
    requires Moves(s, input, c, t)
    ensures Moves(s, input, c, EndWake(t))
  {}

  /** Packets and link events that nobody reads at the moment move nothing. */
  lemma MovesNot(s: State, input: Input, c: Clock)
    requires input.Received? && !Receives(s.phase, s.radio.sock)
    ensures Moves(s, input, c, s)
  {}

  lemma HandleMoves(s: State, input: Input, c: Clock)
    ensures Moves(s, input, c, Handle(s, input, c))
  {
    hide Moves, OnLinkInput, OnPacket, Attend, Resume, OnWorker, Receives;
    if input.Link? {
      MovesLink(s, input.event, c);
    } else if input.Received? {
      if Receives(s.phase, s.radio.sock) {
        MovesPacket(s, input.packet, c);
      } else {
        MovesNot(s, input, c);
      }
    } else if input.WorkerChecks? || input.WorkerEnds? {
      MovesWorker(s, input, c);
    } else if s.phase.Loop? {
      MovesAttend(s, input, c);
    } else {
      MovesResume(s, input, c);
    }
  }

  lemma StepMoves(s: State, input: Input, c: Clock)
    ensures Moves(s, input, c, Step(s, input, c))
  {
    hide Moves, Handle, EndWake, Wakes;
    HandleMoves(s, input, c);
    MovesOn(s, input, c, Handle(s, input, c));
  }

  // ---- over every run

  lemma Moved(r: Run, k: nat)
    requires r.Valid() && k < |r.es|
    ensures Moves(r.At(k), r.es[k].input, r.es[k].clock, r.At(k + 1))
  {
    hide Moves, Step, Initial;
    assert r.Linked(k);
    StepMoves(r.At(k), r.es[k].input, r.es[k].clock);
  }

  lemma StartsBare(init: State)
    requires Initial(init)
    ensures !init.radio.sock && init.radio.dialKind.None? && init.radio.dialAt.None?
    ensures init.desk.route.None? && init.panel.buds == []
  {}

  /** Step `k` ends what the socket and a dial to come rest on. */
  predicate Ends(r: Run, k: nat)
    requires k < |r.es|
  {
    Cuts(r.At(k), r.es[k].input) || Fails(r.At(k), r.es[k].input)
  }

  predicate ReopensAt(r: Run, k: nat)
    requires k < |r.es|
  {
    Reopens(r.At(k), r.es[k].input, r.es[k].clock.now)
  }

  predicate OpensAt(r: Run, k: nat)
    requires k < |r.es|
  {
    r.At(k).phase.OpeningLink? && r.At(k).phase.opening == Subscribing && r.es[k].input == Subscribed(true)
  }

  /**
   There is a socket exactly when an opening was answered to its end and nothing has cut, failed or reopened it since.
   */
  lemma {:induction false} SocketIff(r: Run, k: nat)
    requires r.Valid() && k <= |r.es|
    ensures r.At(k).radio.sock
       <==> (exists j :: 0 <= j < k && OpensAt(r, j) && forall m :: j < m < k ==> !Ends(r, m) && !ReopensAt(r, m))
  {
    if k == 0 {
      StartsBare(r.init);
    } else {
      SocketIff(r, k - 1);
      Moved(r, k - 1);
      LinkStands(r, k - 1);
      hide Run.Valid;
      SocketStep(r, k - 1);
    }
  }

  /** A link that is being opened is one that still may be. */
  lemma LinkStands(r: Run, k: nat)
    requires r.Valid() && k < |r.es|
    ensures OpensAt(r, k) <==> Opens(r.At(k), r.es[k].input)
    ensures OpensAt(r, k) ==> !Ends(r, k) && !ReopensAt(r, k)
  {
    hide Initial, SupervisorSteps.Ok;
    Reached(r, k);
  }

  lemma SocketStep(r: Run, k: nat)
    requires k < |r.es|
    requires r.At(k + 1).radio.sock == (OpensAt(r, k) || (r.At(k).radio.sock && !Ends(r, k) && !ReopensAt(r, k)))
    requires r.At(k).radio.sock
        <==> (exists j :: 0 <= j < k && OpensAt(r, j) && forall m :: j < m < k ==> !Ends(r, m) && !ReopensAt(r, m))
    ensures r.At(k + 1).radio.sock
       <==> (exists j :: 0 <= j < k + 1 && OpensAt(r, j)
                         && forall m :: j < m < k + 1 ==> !Ends(r, m) && !ReopensAt(r, m))
  {
    hide Ends, ReopensAt, OpensAt;
    if exists j :: 0 <= j < k + 1 && OpensAt(r, j) && forall m :: j < m < k + 1 ==> !Ends(r, m) && !ReopensAt(r, m) {
      var j :| 0 <= j < k + 1 && OpensAt(r, j) && forall m :: j < m < k + 1 ==> !Ends(r, m) && !ReopensAt(r, m);
      if j < k {
        assert !Ends(r, k) && !ReopensAt(r, k);
      }
    }
    if r.At(k + 1).radio.sock && !OpensAt(r, k) {
      var j :| 0 <= j < k && OpensAt(r, j) && forall m :: j < m < k ==> !Ends(r, m) && !ReopensAt(r, m);
      assert forall m :: j < m < k + 1 ==> !Ends(r, m) && !ReopensAt(r, m);
    }
  }

  // ---- the one dial allowed

  /** Step `k` allows one dial of this kind from this reading on. */
  predicate Arms(r: Run, k: nat, kind: DialKind, at: Millis)
    requires k < |r.es|
  {
    if Rises(r.At(k), r.es[k].input) then kind.Automatic? && at == r.es[k].clock.now + SETTLE
    else ReopensAt(r, k) && kind.Manual? && at == r.es[k].clock.now
  }

  /** Step `k` uses up or takes away what was allowed, or allows another. */
  predicate Spends(r: Run, k: nat)
    requires k < |r.es|
  {
    Ends(r, k) || Begins(r.At(k), r.es[k].input) || ReopensAt(r, k) || Rises(r.At(k), r.es[k].input)
  }

  predicate Armed(s: State, kind: DialKind, at: Millis) {
    s.radio.dialKind == Some(kind) && s.radio.dialAt == Some(at)
  }

  /**
   A dial is allowed exactly when an edge of the link or a reopening allowed it and nothing since has used it up, taken
   it away or replaced it: what fails once is not dialled again by itself.
   */
  lemma {:induction false} DialIsArmedIff(r: Run, k: nat, kind: DialKind, at: Millis)
    requires r.Valid() && k <= |r.es|
    ensures Armed(r.At(k), kind, at)
       <==> (exists j :: 0 <= j < k && Arms(r, j, kind, at) && forall m :: j < m < k ==> !Spends(r, m))
  {
    hide Moves, Initial, Arms, Spends;
    if k == 0 {
      StartsBare(r.init);
    } else {
      DialIsArmedIff(r, k - 1, kind, at);
      Moved(r, k - 1);
      hide Run.Valid, Armed;
      ArmStep(r, k - 1, kind, at);
      DialStep(r, k - 1, kind, at);
    }
  }

  lemma ArmStep(r: Run, k: nat, kind: DialKind, at: Millis)
    requires k < |r.es| && Moves(r.At(k), r.es[k].input, r.es[k].clock, r.At(k + 1))
    ensures Armed(r.At(k + 1), kind, at) <==> Arms(r, k, kind, at) || (Armed(r.At(k), kind, at) && !Spends(r, k))
  {
    OneAtATime(r.At(k), r.es[k].input, r.es[k].clock.now);
    hide Cuts, Fails, Begins, Reopens, Rises, Opens, RouteAfter, BudsAfter, AwaitsSilence;
  }

  /** What reopens a link neither cuts it, nor fails it, nor dials. */
  lemma OneAtATime(s: State, input: Input, now: Millis)
    ensures Reopens(s, input, now) ==>
      !Cuts(s, input) && !Fails(s, input) && !Begins(s, input) && !Rises(s, input)
    ensures Rises(s, input) ==> !Cuts(s, input) && !Fails(s, input) && !Begins(s, input)
  {}

  lemma DialStep(r: Run, k: nat, kind: DialKind, at: Millis)
    requires k < |r.es|
    requires Armed(r.At(k + 1), kind, at) <==> Arms(r, k, kind, at) || (Armed(r.At(k), kind, at) && !Spends(r, k))
    requires Armed(r.At(k), kind, at)
        <==> (exists j :: 0 <= j < k && Arms(r, j, kind, at) && forall m :: j < m < k ==> !Spends(r, m))
    ensures Armed(r.At(k + 1), kind, at)
       <==> (exists j :: 0 <= j < k + 1 && Arms(r, j, kind, at) && forall m :: j < m < k + 1 ==> !Spends(r, m))
  {
    hide Armed, Arms, Spends;
    if exists j :: 0 <= j < k + 1 && Arms(r, j, kind, at) && forall m :: j < m < k + 1 ==> !Spends(r, m) {
      var j :| 0 <= j < k + 1 && Arms(r, j, kind, at) && forall m :: j < m < k + 1 ==> !Spends(r, m);
      if j < k {
        assert !Spends(r, k);
      }
    }
    if Armed(r.At(k + 1), kind, at) && !Arms(r, k, kind, at) {
      var j :| 0 <= j < k && Arms(r, j, kind, at) && forall m :: j < m < k ==> !Spends(r, m);
      assert forall m :: j < m < k + 1 ==> !Spends(r, m);
    }
  }

  // ---- the card

  /** The card is told to leave the AirPods: by the ownership machine's own queue, or by a report of another owner. */
  predicate TurnsAway(r: Run, k: nat)
    requires k < |r.es|
  {
    var s, input := r.At(k), r.es[k].input;
    MaySwitch(s)
    && ((input.Flush? && s.phase.Flushing? && s.phase.rest != []
         && s.phase.rest[0] == Handoff.SetAudioRoute(Handoff.Yielded) && !Fails(s, input))
        || (input == Received(OwnershipPacket(false)) && ReadsPackets(s) && s.desk.handoff.enabled))
  }

  /** It is told to come back, or left to itself because no link or no socket is there. */
  predicate TurnsBack(r: Run, k: nat)
    requires k < |r.es|
  {
    var s, input := r.At(k), r.es[k].input;
    Cuts(s, input)
    || ((Fails(s, input) || ReopensAt(r, k)) && (MaySwitch(s) || !s.radio.acl))
    || (input.Link? && input.event.Disconnected? && TakesLinkEvents(s.phase))
    || (MaySwitch(s)
        && ((input.Flush? && s.phase.Flushing? && s.phase.rest != []
             && s.phase.rest[0] == Handoff.SetAudioRoute(Handoff.Own))
            || (input == Received(OwnershipPacket(true)) && ReadsPackets(s) && s.desk.handoff.enabled)
            || (input.Command? && input.request == SetHandoff(false) && s.phase.Loop?
                && IsCurrent(s, input.context, input.deadline, r.es[k].clock))))
  }

  predicate Away(s: State) {
    s.desk.route == Some(Handoff.Yielded)
  }

  /** The card points away from the AirPods exactly when it was told to and nothing since has turned it back. */
  lemma {:induction false} CardIsAwayIff(r: Run, k: nat)
    requires r.Valid() && k <= |r.es|
    ensures Away(r.At(k))
       <==> (exists j :: 0 <= j < k && TurnsAway(r, j) && forall m :: j < m < k ==> !TurnsBack(r, m))
  {
    hide Moves, Initial, TurnsAway, TurnsBack;
    if k == 0 {
      StartsBare(r.init);
    } else {
      CardIsAwayIff(r, k - 1);
      Moved(r, k - 1);
      hide Run.Valid, Away;
      TurnStep(r, k - 1);
      CardStep(r, k - 1);
    }
  }

  lemma TurnStep(r: Run, k: nat)
    requires k < |r.es| && Moves(r.At(k), r.es[k].input, r.es[k].clock, r.At(k + 1))
    ensures Away(r.At(k + 1)) <==> TurnsAway(r, k) || (Away(r.At(k)) && !TurnsBack(r, k))
  {
    hide RadioMoves, BudsAfter, AwaitsSilence;
    var s := r.At(k);
    if s.phase.Flushing? && s.phase.rest != [] && s.phase.rest[0].SetAudioRoute? {
      assert s.phase.rest[0].mode.Own? || s.phase.rest[0].mode.Yielded?;
      assert s.phase.rest[0] == Handoff.SetAudioRoute(s.phase.rest[0].mode);
    }
    if r.es[k].input.Received? && r.es[k].input.packet.OwnershipPacket? {
      assert r.es[k].input == Received(OwnershipPacket(r.es[k].input.packet.owns));
    }
  }

  lemma CardStep(r: Run, k: nat)
    requires k < |r.es|
    requires Away(r.At(k + 1)) <==> TurnsAway(r, k) || (Away(r.At(k)) && !TurnsBack(r, k))
    requires Away(r.At(k))
        <==> (exists j :: 0 <= j < k && TurnsAway(r, j) && forall m :: j < m < k ==> !TurnsBack(r, m))
    ensures Away(r.At(k + 1))
       <==> (exists j :: 0 <= j < k + 1 && TurnsAway(r, j) && forall m :: j < m < k + 1 ==> !TurnsBack(r, m))
  {
    hide Away, TurnsAway, TurnsBack;
    if exists j :: 0 <= j < k + 1 && TurnsAway(r, j) && forall m :: j < m < k + 1 ==> !TurnsBack(r, m) {
      var j :| 0 <= j < k + 1 && TurnsAway(r, j) && forall m :: j < m < k + 1 ==> !TurnsBack(r, m);
      if j < k {
        assert !TurnsBack(r, k);
      }
    }
    if Away(r.At(k + 1)) && !TurnsAway(r, k) {
      var j :| 0 <= j < k && TurnsAway(r, j) && forall m :: j < m < k ==> !TurnsBack(r, m);
      assert forall m :: j < m < k + 1 ==> !TurnsBack(r, m);
    }
  }

  // ---- why a reconnect is shown

  /** Step `k` hears the accessory under this address, which is not this host's own. */
  predicate HearsBud(r: Run, k: nat)
    requires k < |r.es|
  {
    var s, input := r.At(k), r.es[k].input;
    input.Received? && input.packet.AddressPacket? && ReadsPackets(s) && input.packet.trailer == 2
    && s.host.adapter != Some(input.packet.bud)
  }

  /** The address it was last heard under since the link came up. */
  function LastBud(r: Run, k: nat): Option<Address>
    requires k <= |r.es|
  {
    if k == 0 || Rises(r.At(k - 1), r.es[k - 1].input) then None
    else if HearsBud(r, k - 1) then Some(r.es[k - 1].input.packet.bud)
    else LastBud(r, k - 1)
  }

  /** When it was last heard under another address than before, since the link came up: the other bud took over. */
  function LastSwitch(r: Run, k: nat): Option<Millis>
    requires k <= |r.es|
  {
    if k == 0 || Rises(r.At(k - 1), r.es[k - 1].input) then None
    else if HearsBud(r, k - 1) && LastBud(r, k - 1).Some? && LastBud(r, k - 1) != Some(r.es[k - 1].input.packet.bud)
    then Some(r.es[k - 1].clock.now)
    else LastSwitch(r, k - 1)
  }

  ghost predicate BudsAre(buds: seq<BudSeen>, last: Option<Address>, switch: Option<Millis>) {
    |buds| <= 2 && (buds == [] <==> last.None?) && (buds != [] ==> last == Some(buds[|buds| - 1].bud))
    && (|buds| == 2 <==> switch.Some?) && (|buds| == 2 ==> switch == Some(buds[1].at))
  }

  lemma {:induction false} BudsFollow(r: Run, k: nat)
    requires r.Valid() && k <= |r.es|
    ensures BudsAre(r.At(k).panel.buds, LastBud(r, k), LastSwitch(r, k))
  {
    if k == 0 {
      StartsBare(r.init);
    } else {
      BudsFollow(r, k - 1);
      Moved(r, k - 1);
      hide Run.Valid, RadioMoves, RouteAfter, AwaitsSilence, Rises, ReadsPackets;
      BudsStep(r, k - 1);
    }
  }

  lemma BudsStep(r: Run, k: nat)
    requires k < |r.es| && BudsAre(r.At(k).panel.buds, LastBud(r, k), LastSwitch(r, k))
    requires r.At(k + 1).panel.buds == BudsAfter(r.At(k), r.es[k].input, r.es[k].clock.now)
    ensures BudsAre(r.At(k + 1).panel.buds, LastBud(r, k + 1), LastSwitch(r, k + 1))
  {
    hide Rises, ReadsPackets;
  }

  /** The buds changed places at most 15 s ago. */
  predicate SwitchedBy(r: Run, k: nat, now: Millis)
    requires k <= |r.es|
  {
    LastSwitch(r, k).Some? && Since(now, LastSwitch(r, k).value) <= BUD_SWITCH_WINDOW
  }

  /** Why the panel says a reconnect was begun by a drop. */
  function ReasonBy(r: Run, k: nat, reason: Rejoin.Reason): Store.LinkReason
    requires k < |r.es|
  {
    if SwitchedBy(r, k, r.es[k].clock.now) then Store.BudSwitch
    else if reason == Rejoin.Timeout then Store.LinkLost
    else Store.TakenOver
  }

  /**
   A drop that starts a reconnect shows it at once, under the reason its history gives: the buds changed places, the
   link was lost, or another host took it.
   */
  lemma DropShowsReason(r: Run, k: nat)
    requires r.Valid() && k < |r.es| && TakesLinkEvents(r.At(k).phase)
    requires r.es[k].input.Link? && r.es[k].input.event.Disconnected?
    requires r.At(k + 1).rejoin.pending.Some?
    ensures var s, t := r.At(k), r.At(k + 1);
      t.panel.sequence == Some(Sequence(true, s.rejoin.seqNo + 1, ReasonBy(r, k, r.es[k].input.event.reason),
                                        r.es[k].clock.stamp))
  {
    hide Initial, Step, BudsAre, LastBud, LastSwitch, SwitchedBy, BudSwitched;
    BudsFollow(r, k);
    NumberIsNew(r, k);
    assert r.Linked(k);
    hide Run.Valid, Run.Linked;
    ShowsDrop(r.At(k), r.es[k].input.event, r.es[k].clock);
    ReasonIs(r, k);
  }

  lemma ReasonIs(r: Run, k: nat)
    requires k < |r.es| && BudsAre(r.At(k).panel.buds, LastBud(r, k), LastSwitch(r, k))
    ensures BudSwitched(r.At(k).panel.buds, r.es[k].clock.now) <==> SwitchedBy(r, k, r.es[k].clock.now)
  {}

  /** No sequence so far, shown or pending, has the number the next one gets. */
  predicate Numbered(s: State) {
    (s.panel.sequence.Some? && s.panel.sequence.value.rejoin ==> s.panel.sequence.value.seqNo <= s.rejoin.seqNo)
    && (s.rejoin.pending.Some? ==> s.rejoin.pending.value.seqNo <= s.rejoin.seqNo)
  }

  lemma NumberIsNew(r: Run, k: nat)
    requires r.Valid() && k <= |r.es|
    ensures Numbered(r.At(k))
  {
    hide Initial, SupervisorSteps.AutoWork, SupervisorSteps.Verifying, SupervisorSteps.Logged, Step;
    Reached(r, k);
  }

  lemma ShowsDrop(s: State, event: LinkEvent, c: Clock)
    requires event.Disconnected? && TakesLinkEvents(s.phase) && Numbered(s)
    ensures var t := Step(s, Link(event), c);
      t.rejoin.pending.Some? ==>
        t.panel.sequence == Some(Sequence(true, s.rejoin.seqNo + 1,
                                          if BudSwitched(s.panel.buds, c.now) then Store.BudSwitch
                                          else if event.reason == Rejoin.Timeout then Store.LinkLost
                                          else Store.TakenOver, c.stamp))
  {
    hide AutoEvent, RejoinEvent, BudSwitched, Numbered;
    var p := s.(desk := s.desk.(route := None));
    var q := AutoEvent(p, AutoConnect.LocalDisconnected(event.reason), c);
    SameNumbers(s, p);
    AutoKeepsNumbers(p, AutoConnect.LocalDisconnected(event.reason), c);
    DropShows(q, event, c);
  }

  lemma SameNumbers(s: State, p: State)
    requires Numbered(s) && p.rejoin == s.rejoin && p.panel == s.panel
    ensures Numbered(p)
  {}

  lemma AutoKeepsNumbers(s: State, event: AutoConnect.Event, c: Clock)
    requires Numbered(s)
    ensures var t := AutoEvent(s, event, c);
      Numbered(t) && t.rejoin == s.rejoin && t.panel.buds == s.panel.buds && t.phase == s.phase
  {
    hide AutoConnect.Step, Store.Step, AutoActs;
  }

  lemma DropShows(s: State, event: LinkEvent, c: Clock)
    requires event.Disconnected? && Numbered(s)
    ensures var t := RejoinEvent(s, Rejoin.Disconnected(event.reason, event.facts, event.lidClosed), c);
      t.phase == s.phase
      && (t.rejoin.pending.Some? ==>
            t.panel.sequence == Some(Sequence(true, s.rejoin.seqNo + 1,
                                              if BudSwitched(s.panel.buds, c.now) then Store.BudSwitch
                                              else if event.reason == Rejoin.Timeout then Store.LinkLost
                                              else Store.TakenOver, c.stamp)))
  {
    hide Store.Step, RejoinActs, BudSwitched;
    DropNumbers(s.rejoin, event, c.now);
    hide Rejoin.Step;
  }

  /** A drop leaves nothing pending but a sequence of its own, with the next number and the kind of its reason. */
  lemma DropNumbers(m: Rejoin.State, event: LinkEvent, now: Millis)
    requires event.Disconnected?
    ensures var t := Rejoin.Step(m, Rejoin.Disconnected(event.reason, event.facts, event.lidClosed), now).state;
      t.pending.Some? ==>
        t.pending.value.seqNo == m.seqNo + 1
        && (t.pending.value.kind == Rejoin.LinkLost <==> event.reason == Rejoin.Timeout)
  {
    hide Rejoin.Pick, Rejoin.MatchHost;
  }

  /** Whatever auto-connect does is shown as auto-connect's. */
  lemma AutoShowsItself(r: Run, k: nat)
    requires r.Valid() && k <= |r.es|
    ensures var q := r.At(k).panel.sequence;
      q.Some? && !q.value.rejoin ==> q.value.reason == Store.AutoConnect
  {
    hide Initial, Step, SupervisorSteps.RejoinWork, SupervisorSteps.AutoWork, SupervisorSteps.Logged;
    Reached(r, k);
  }
}
