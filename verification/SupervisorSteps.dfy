/**
 What the supervisor's parts keep for one another, whatever step is taken: the workers and the machines agree on
 which sequence may connect, the panel shows the pending sequence, and a pending verdict always has a deadline.
 */
module SupervisorSteps {
  import opened Prelude
  import opened Supervisor
  import Rejoin
  import RejoinRuns
  import AutoConnect
  import AutoConnectRuns
  import Handoff
  import HandoffRuns
  import EarMedia
  import EarMediaRuns
  import Store
  import StoreRuns
  import Codec

  /** The part of the state the invariant speaks about. */
  datatype Core = Core(
    rejoin: Rejoin.State,
    auto: AutoConnect.State,
    store: Store.State,
    desk: Desk,
    rejoinCrew: Crew,
    autoCrew: Crew,
    sequence: Option<Sequence>,
    published: Option<Store.LinkActivity>,
    budget: Option<Millis>,
    log: Log)

  function CoreOf(s: State): Core {
    Core(s.rejoin, s.auto, s.store, s.desk, s.rejoinCrew, s.autoCrew, s.panel.sequence, s.panel.published,
         s.timers.verifyBudget, s.log)
  }

  // ---- workers

  /** Jobs belong to different sequences that have begun, and to the pending one only while it is in flight. */
  ghost predicate JobsFit(crew: Crew, seqNo: nat, pending: Option<nat>, inFlight: bool) {
    (forall i :: 0 <= i < |crew.jobs| ==> 1 <= crew.jobs[i].seqNo <= seqNo)
    && (forall i, j :: 0 <= i < j < |crew.jobs| ==> crew.jobs[i].seqNo != crew.jobs[j].seqNo)
    && (pending.Some? ==> 1 <= pending.value <= seqNo)
    && (pending.Some? && !inFlight ==> forall i :: 0 <= i < |crew.jobs| ==> crew.jobs[i].seqNo != pending.value)
  }

  function RejoinPending(s: Rejoin.State): Option<nat> {
    if s.pending.None? then None else Some(s.pending.value.seqNo)
  }

  predicate RejoinInFlight(s: Rejoin.State) {
    s.pending.Some? && s.pending.value.inFlight
  }

  function AutoPending(s: AutoConnect.State): Option<nat> {
    if s.pending.None? then None else Some(s.pending.value.seqNo)
  }

  predicate AutoInFlight(s: AutoConnect.State) {
    s.pending.Some? && s.pending.value.inFlight
  }

  /** A live rejoin worker that finds itself wanted belongs to the pending sequence, and that one is in flight. */
  ghost predicate RejoinWork(crew: Crew, s: Rejoin.State) {
    JobsFit(crew, s.seqNo, RejoinPending(s), RejoinInFlight(s))
    && forall i :: 0 <= i < |crew.jobs| && crew.jobs[i].seqNo == crew.epoch ==>
         RejoinInFlight(s) && RejoinPending(s) == Some(crew.epoch)
  }

  /** A local connect ended sequence `q` while its worker was out: that alone leaves the epoch standing. */
  ghost predicate Retired(log: seq<AutoConnectRuns.Entry>, init: AutoConnect.State, q: nat) {
    exists k :: 0 <= k < |log| && RetiredAt(log, init, q, k)
  }

  ghost predicate RetiredAt(log: seq<AutoConnectRuns.Entry>, init: AutoConnect.State, q: nat, k: nat)
    requires k < |log|
  {
    var before := if k == 0 then init else log[k - 1].post;
    log[k].event.LocalConnected? && AutoInFlight(before) && AutoPending(before) == Some(q)
  }

  ghost predicate AutoWork(crew: Crew, s: AutoConnect.State, log: seq<AutoConnectRuns.Entry>, init: AutoConnect.State) {
    JobsFit(crew, s.seqNo, AutoPending(s), AutoInFlight(s))
    && forall i :: 0 <= i < |crew.jobs| && crew.jobs[i].seqNo == crew.epoch ==>
         (AutoInFlight(s) && AutoPending(s) == Some(crew.epoch)) || Retired(log, init, crew.epoch)
  }

  // ---- what a rejoin step means for its workers

  ghost predicate CancelledIn(out: seq<Rejoin.Action>) {
    exists a :: a in out && a.Cancelled?
  }

  ghost predicate RejoinShape(s: Rejoin.State, event: Rejoin.Event, n: Rejoin.Next) {
    var t := n.state;
    if RejoinRuns.ConnectsIn(n.out) then
      s.pending.Some? && !s.pending.value.inFlight && t.seqNo == s.seqNo
      && n.out == [Rejoin.Connect(s.pending.value.seqNo, s.pending.value.attempt)]
      && t.pending == Some(s.pending.value.(inFlight := true))
    else
      (s.pending.Some? && !CancelledIn(n.out) ==>
         t.pending == s.pending
         || (event.ConnectFinished? && event.seqNo == s.pending.value.seqNo && t.seqNo == s.seqNo
             && !RejoinInFlight(t) && (t.pending.Some? ==> t.pending.value.seqNo == s.pending.value.seqNo)))
      && (t.pending.Some? && t.pending != s.pending ==>
            !t.pending.value.inFlight
            && ((t.seqNo == s.seqNo + 1 && t.pending.value.seqNo == t.seqNo && event.Disconnected?)
                || (s.pending.Some? && event.ConnectFinished? && event.seqNo == s.pending.value.seqNo
                    && t.pending.value.seqNo == s.pending.value.seqNo)))
      && s.seqNo <= t.seqNo
  }

  lemma RejoinStepShape(s: Rejoin.State, event: Rejoin.Event, now: Millis)
    ensures RejoinShape(s, event, Rejoin.Step(s, event, now))
  {
    var n := Rejoin.Step(s, event, now);
    assert n.out != [] ==> n.out[0] in n.out && n.out[|n.out| - 1] in n.out;
    hide Rejoin.Qualify, Rejoin.PingPong, Rejoin.Newest, Rejoin.BusyRetry;
    if !event.Disconnected? {
      assert forall a :: a in n.out ==> a == n.out[0];
    }
  }

  lemma {:induction false} RejoinActsQuietly(crew: Crew, host: Host, out: seq<Rejoin.Action>)
    requires !RejoinRuns.ConnectsIn(out)
    ensures RejoinActs(crew, host, out) == crew.(epoch := if CancelledIn(out) then 0 else crew.epoch)
  {
    if out != [] {
      var last := out[|out| - 1];
      assert out == out[..|out| - 1] + [last] && last in out;
      RejoinActsQuietly(crew, host, out[..|out| - 1]);
    }
  }

  /** One connect: a job for the pending sequence, and at most that sequence becomes the wanted one. */
  lemma SpawnFits(crew: Crew, known: bool, allowed: bool, seqNo: nat, q: nat)
    requires JobsFit(crew, seqNo, Some(q), false)
    ensures JobsFit(Spawn(crew, known, allowed, q), seqNo, Some(q), true)
    ensures var t := Spawn(crew, known, allowed, q);
            t.epoch in {crew.epoch, q}
            && |t.jobs| == |crew.jobs| + 1 && t.jobs[..|crew.jobs|] == crew.jobs && t.jobs[|crew.jobs|].seqNo == q
  {
  }

  lemma RejoinFoldWork(s: State, event: Rejoin.Event, c: Clock)
    requires RejoinWork(s.rejoinCrew, s.rejoin)
    requires event.ConnectFinished? ==> NoJob(s.rejoinCrew, event.seqNo)
    ensures var t := RejoinFold(s, event, c); RejoinWork(t.rejoinCrew, t.rejoin)
  {
    hide Rejoin.Step;
    var n := Rejoin.Step(s.rejoin, event, c.now);
    RejoinStepShape(s.rejoin, event, c.now);
    if RejoinRuns.ConnectsIn(n.out) {
      var q := s.rejoin.pending.value.seqNo;
      SpawnFits(s.rejoinCrew, Known(s.host), s.host.controlLink, s.rejoin.seqNo, q);
      assert n.out[..0] == [];
      assert RejoinActs(s.rejoinCrew, s.host, n.out) == Spawn(s.rejoinCrew, Known(s.host), s.host.controlLink, q);
    } else {
      RejoinActsQuietly(s.rejoinCrew, s.host, n.out);
    }
  }

  ghost predicate NoJob(crew: Crew, q: nat) {
    forall i :: 0 <= i < |crew.jobs| ==> crew.jobs[i].seqNo != q
  }

  /** A report takes the job away, and with it the only one of its sequence. */
  lemma ReportLeavesNone(crew: Crew, job: nat, seqNo: nat, pending: Option<nat>, inFlight: bool)
    requires JobsFit(crew, seqNo, pending, inFlight) && job < |crew.jobs|
    ensures JobsFit(Without(crew, job), seqNo, pending, inFlight)
    ensures NoJob(Without(crew, job), crew.jobs[job].seqNo)
    ensures forall i :: 0 <= i < |crew.jobs| - 1 ==>
      Without(crew, job).jobs[i] == crew.jobs[if i < job then i else i + 1]
  {
  }

  // ---- what an auto-connect step means for its workers

  ghost predicate ZeroesIn(out: seq<AutoConnect.Action>) {
    exists a :: a in out && (a.Cancelled? || a.GaveUp?)
  }

  ghost predicate AutoShape(s: AutoConnect.State, event: AutoConnect.Event, n: AutoConnect.Next) {
    var t := n.state;
    (if AutoConnectRuns.ConnectsIn(n.out) then
       t.pending.Some? && t.pending.value.inFlight
       && if s.pending.Some? then
            !s.pending.value.inFlight && t.seqNo == s.seqNo && t.pending.value.seqNo == s.pending.value.seqNo
            && n.out == [AutoConnect.Connect(s.pending.value.seqNo, s.pending.value.attempt)]
          else
            t.seqNo == s.seqNo + 1 && t.pending.value.seqNo == t.seqNo
            && |n.out| == 2 && n.out[0].FallbackPage? && n.out[1] == AutoConnect.Connect(t.seqNo, 1)
     else
       (s.pending.Some? && !ZeroesIn(n.out) ==>
          t.pending == s.pending
          || (event.ConnectFinished? && event.seqNo == s.pending.value.seqNo && t.seqNo == s.seqNo
              && !AutoInFlight(t) && (t.pending.Some? ==> t.pending.value.seqNo == s.pending.value.seqNo))
          || (event.LocalConnected? && AutoInFlight(s) && t.pending.None?))
       && (t.pending.Some? && t.pending != s.pending ==>
             !t.pending.value.inFlight
             && ((t.seqNo == s.seqNo + 1 && t.pending.value.seqNo == t.seqNo)
                 || (s.pending.Some? && event.ConnectFinished? && event.seqNo == s.pending.value.seqNo
                     && t.pending.value.seqNo == s.pending.value.seqNo))))
    && s.seqNo <= t.seqNo
    && (s.pending.None? && t.pending.Some? ==> !s.rejoinPending)
    && t.rejoinPending == (if event.SetRejoinPending? then event.pending else s.rejoinPending)
    && (event.SetRejoinPending? ==> t.pending == s.pending && n.out == [])
    && (AutoConnectRuns.LinkChange(event) || event.ManualCommand? ==> t.pending.None?)
  }

  lemma AutoTickShape(s: AutoConnect.State, now: Millis)
    ensures AutoShape(s, AutoConnect.Tick, AutoConnect.Step(s, AutoConnect.Tick, now))
  {
    var n := AutoConnect.Step(s, AutoConnect.Tick, now);
    assert n.out != [] ==> n.out[0] in n.out && n.out[|n.out| - 1] in n.out;
    assert forall a :: a in n.out ==> a == n.out[0] || a == n.out[|n.out| - 1];
  }

  lemma AutoSeenShape(s: AutoConnect.State, rssi: Option<int>, now: Millis)
    ensures AutoShape(s, AutoConnect.Seen(rssi), AutoConnect.Step(s, AutoConnect.Seen(rssi), now))
  {
    hide AutoConnect.Absent, AutoConnect.Weak;
    var n := AutoConnect.Step(s, AutoConnect.Seen(rssi), now);
    assert forall a :: a in n.out ==> a == n.out[0] || a == n.out[|n.out| - 1];
  }

  lemma AutoFinishedShape(s: AutoConnect.State, q: nat, outcome: Rejoin.Outcome, now: Millis)
    ensures AutoShape(s, AutoConnect.ConnectFinished(q, outcome),
                      AutoConnect.Step(s, AutoConnect.ConnectFinished(q, outcome), now))
  {
    hide AutoConnect.NotAFailure, AutoConnect.Backoff;
    var n := AutoConnect.Step(s, AutoConnect.ConnectFinished(q, outcome), now);
    assert n.out != [] ==> n.out[0] in n.out;
    assert forall a :: a in n.out ==> a == n.out[0];
  }

  lemma AutoDownShape(s: AutoConnect.State, reason: Rejoin.Reason, now: Millis)
    ensures AutoShape(s, AutoConnect.LocalDisconnected(reason),
                      AutoConnect.Step(s, AutoConnect.LocalDisconnected(reason), now))
  {
    var n := AutoConnect.Step(s, AutoConnect.LocalDisconnected(reason), now);
    assert n.out != [] ==> n.out[0] in n.out;
    assert forall a :: a in n.out ==> a == n.out[0] || a == n.out[|n.out| - 1];
  }

  lemma AutoLinkShape(s: AutoConnect.State, event: AutoConnect.Event, now: Millis)
    requires event.LocalConnected? || event.ManualCommand? || event.SetRejoinPending?
    ensures AutoShape(s, event, AutoConnect.Step(s, event, now))
  {
    var n := AutoConnect.Step(s, event, now);
    assert n.out != [] ==> n.out[0] in n.out && n.out[|n.out| - 1] in n.out;
    assert forall a :: a in n.out ==> a == n.out[0] || a == n.out[|n.out| - 1];
  }

  lemma AutoStepShape(s: AutoConnect.State, event: AutoConnect.Event, now: Millis)
    ensures AutoShape(s, event, AutoConnect.Step(s, event, now))
  {
    hide AutoShape, AutoConnect.Step;
    match event
    case Tick => AutoTickShape(s, now);
    case Seen(rssi) => AutoSeenShape(s, rssi, now);
    case ConnectFinished(q, outcome) => AutoFinishedShape(s, q, outcome, now);
    case LocalDisconnected(reason) => AutoDownShape(s, reason, now);
    case _ => AutoLinkShape(s, event, now);
  }

  lemma {:induction false} AutoActsQuietly(crew: Crew, host: Host, out: seq<AutoConnect.Action>)
    requires !AutoConnectRuns.ConnectsIn(out)
    ensures AutoActs(crew, host, out) == crew.(epoch := if ZeroesIn(out) then 0 else crew.epoch)
  {
    if out != [] {
      var last := out[|out| - 1];
      assert out == out[..|out| - 1] + [last] && last in out;
      AutoActsQuietly(crew, host, out[..|out| - 1]);
    }
  }

  lemma AutoActsConnect(crew: Crew, host: Host, s: AutoConnect.State, event: AutoConnect.Event, n: AutoConnect.Next)
    requires AutoShape(s, event, n) && AutoConnectRuns.ConnectsIn(n.out)
    ensures AutoActs(crew, host, n.out) == Spawn(crew, Known(host), host.autoControlLink, n.state.pending.value.seqNo)
  {
    hide Spawn;
    assert n.out[..0] == [];
    if s.pending.None? {
      var first := n.out[..1];
      assert first[..0] == [];
      assert AutoActs(crew, host, first) == crew;
    }
  }

  /** A page takes its number and its worker in one step. */
  lemma PageFits(crew: Crew, seqNo: nat)
    requires JobsFit(crew, seqNo, None, false)
    ensures JobsFit(crew, seqNo + 1, Some(seqNo + 1), false)
  {
  }

  lemma AutoFoldWork(s: State, event: AutoConnect.Event, c: Clock, init: AutoConnect.State)
    requires AutoWork(s.autoCrew, s.auto, s.log.auto, init)
    requires event.ConnectFinished? ==> NoJob(s.autoCrew, event.seqNo)
    requires s.auto == if s.log.auto == [] then init else s.log.auto[|s.log.auto| - 1].post
    ensures var t := AutoFold(s, event, c); AutoWork(t.autoCrew, t.auto, t.log.auto, init)
  {
    hide AutoConnect.Step;
    var n := AutoConnect.Step(s.auto, event, c.now);
    var t := AutoFold(s, event, c);
    AutoStepShape(s.auto, event, c.now);
    var k := |s.log.auto|;
    RetiredStays(s.log.auto, t.log.auto[k], init);
    if AutoConnectRuns.ConnectsIn(n.out) {
      var q := n.state.pending.value.seqNo;
      AutoActsConnect(s.autoCrew, s.host, s.auto, event, n);
      if s.auto.pending.None? {
        PageFits(s.autoCrew, s.auto.seqNo);
      }
      hide AutoActs, Retired, AutoShape;
      SpawnFits(s.autoCrew, Known(s.host), s.host.autoControlLink, n.state.seqNo, q);
    } else {
      AutoActsQuietly(s.autoCrew, s.host, n.out);
      if event.LocalConnected? && AutoInFlight(s.auto) {
        assert RetiredAt(t.log.auto, init, s.auto.pending.value.seqNo, k);
      }
      hide AutoActs, Retired;
    }
  }

  lemma RetiredStays(log: seq<AutoConnectRuns.Entry>, e: AutoConnectRuns.Entry, init: AutoConnect.State)
    ensures forall q: nat :: Retired(log, init, q) ==> Retired(log + [e], init, q)
  {
    forall q: nat | Retired(log, init, q) ensures Retired(log + [e], init, q) {
      var k :| 0 <= k < |log| && RetiredAt(log, init, q, k);
      assert RetiredAt(log + [e], init, q, k);
    }
  }

  // ---- the invariant

  /** The machines, the store and the address a run begins with. */
  datatype Origin = Origin(rejoin: Rejoin.State, auto: AutoConnect.State, handoff: Handoff.State, ear: EarMedia.State,
                           address: string)

  ghost predicate RejoinLogged(log: seq<RejoinRuns.Entry>, state: Rejoin.State, init: Rejoin.State, now: Millis) {
    var r := RejoinRuns.Run(init, log);
    r.Valid() && r.At(|log|) == state && forall i :: 0 <= i < |log| ==> log[i].now <= now
  }

  ghost predicate AutoLogged(log: seq<AutoConnectRuns.Entry>, state: AutoConnect.State, init: AutoConnect.State,
                             now: Millis) {
    var r := AutoConnectRuns.Run(init, log);
    r.Valid() && r.At(|log|) == state && forall i :: 0 <= i < |log| ==> log[i].now <= now
  }

  ghost predicate StoreLogged(log: seq<StoreRuns.Entry>, state: Store.State, address: string) {
    var r := StoreRuns.Run(address, log);
    r.Valid() && r.At(|log|) == state
  }

  ghost predicate HandoffLogged(log: seq<HandoffRuns.Entry>, state: Handoff.State, init: Handoff.State, now: Millis) {
    var r := HandoffRuns.Run(init, log);
    r.Valid() && r.At(|log|) == state && forall i :: 0 <= i < |log| ==> log[i].now <= now
  }

  ghost predicate EarLogged(log: seq<EarMediaRuns.Entry>, state: EarMedia.State, init: EarMedia.State, now: Millis) {
    var r := EarMediaRuns.Run(init, log);
    r.Valid() && r.At(|log|) == state && forall i :: 0 <= i < |log| ==> log[i].now <= now
  }

  ghost predicate DeskLogged(desk: Desk, o: Origin, now: Millis) {
    HandoffLogged(desk.log.handoff, desk.handoff, o.handoff, now) && EarLogged(desk.log.ear, desk.ear, o.ear, now)
    && Paired(desk.queue) && AllQueued(desk.log.handoff) == desk.log.taken + desk.queue
  }

  /** Every side effect the ownership machine has asked for, in order. */
  function AllQueued(log: seq<HandoffRuns.Entry>): seq<Handoff.Action> {
    if log == [] then [] else AllQueued(log[..|log| - 1]) + Queued(log[|log| - 1].out)
  }

  /** Where the card must point when this ownership write goes out. */
  function RouteFor(owns: bool): Handoff.RouteMode {
    if owns then Handoff.Own else Handoff.Yielded
  }

  /** Every ownership write comes straight after the card switch it belongs to. */
  predicate Paired(queue: seq<Handoff.Action>) {
    forall i :: 0 <= i < |queue| && queue[i].SendOwnership? ==>
      i > 0 && queue[i - 1] == Handoff.SetAudioRoute(RouteFor(queue[i].owns))
  }

  lemma PairedAppend(a: seq<Handoff.Action>, b: seq<Handoff.Action>)
    requires Paired(a) && Paired(b)
    ensures Paired(a + b)
  {}

  /** What the ownership machine asks for is in that order, whatever the event. */
  lemma StepPaired(s: Handoff.State, event: Handoff.Event, now: Millis)
    ensures Paired(Handoff.Step(s, event, now).out)
  {
    hide Handoff.InOpening, Handoff.RecentRequest, Handoff.MayRepause, Handoff.InHoldWindow, Handoff.OwnedElsewhere,
         Handoff.OtherInCall, Handoff.WantsStream, Handoff.InStreamGrace, Handoff.OnTick, Handoff.TakeOverSteps,
         Handoff.Announce, Handoff.OnDevices, Handoff.YieldSteps;
    match event
    case Tick => TickPaired(s, now);
    case TakeOver => TakePaired(s, now);
    case Yield => YieldPaired(s, now, true, Handoff.GaveUp, None);
    case ConnectedDevices(list) => DevicesPaired(s, list, now);
    case AudioSource(address, source) =>
      if source.Known? {
        var t := s.(audioSource := Some(Handoff.Source(address, source.status)), owner := Handoff.Elsewhere);
        YieldPaired(t, now, true, Handoff.GaveUp, Some(address));
      }
    case OwnsConnection(_, _) =>
      var t := s.(owner := Handoff.Elsewhere);
      YieldPaired(t, now, false, Handoff.GaveUp, Handoff.ActiveOtherSource(t));
    case SmartRouting(sender, _) =>
      YieldPaired(s.(owner := Handoff.Elsewhere), now, true, Handoff.GaveUpOnRequest, Some(sender));
    case Playback(playing, app, player) =>
      var t := Handoff.Reading(s, playing, app, player, now);
      AnnouncePaired(t.(playEdge := Some(now), stoppedAt := None), true);
    case A2dpTransport(active) =>
      var u := s.(transportActive := Some(active), streamCheck := None);
      AnnouncePaired(u, true);
      AnnouncePaired(u.(reannounce := false), true);
    case _ =>
  }

  lemma AnnouncePaired(s: Handoff.State, streaming: bool)
    ensures Paired(Handoff.Announce(s, streaming).out)
    ensures Handoff.Announce(s, streaming).state == s.(announced := Some(streaming))
  {}

  lemma YieldPaired(s: Handoff.State, now: Millis, announce: bool, kind: Handoff.Kind, peer: Option<Address>)
    ensures Paired(Handoff.YieldSteps(s, now, announce, kind, peer).out)
  {
    hide Handoff.EndStreamStart, Handoff.RenewHold, Handoff.NoteRequest;
  }

  lemma TakePaired(s: Handoff.State, now: Millis)
    ensures Paired(Handoff.TakeOverSteps(s, now).out)
  {
    var others := Handoff.Others(s);
    var o := Handoff.TakeOverSteps(s, now).out;
    var m, j := Handoff.MediaInfos(others, true, Handoff.App(s)), Handoff.Hijacks(others);
    var head: seq<Handoff.Action> := [Handoff.SetAudioRoute(Handoff.Own), Handoff.SendOwnership(true)];
    var tail := [Handoff.ClaimAudio, o[|o| - 1]];
    assert o == head + m + j + tail;
    PairedAppend(head, m);
    PairedAppend(head + m, j);
    PairedAppend(head + m + j, tail);
  }

  lemma DevicesPaired(s: Handoff.State, list: seq<Address>, now: Millis)
    ensures Paired(Handoff.OnDevices(s, list, now).out)
  {}

  lemma TickPaired(s: Handoff.State, now: Millis)
    ensures Paired(Handoff.OnTick(s, now).out)
  {
    hide Handoff.Announce, Handoff.TakeOverSteps, Handoff.OwnedElsewhere, Handoff.OtherInCall, Handoff.WantsStream,
         Handoff.InStreamGrace, Handoff.OwnsAudio;
    var a := Handoff.StreamTick(s, now);
    var b := Handoff.StopTick(a.state, now);
    var c := Handoff.EdgeTick(b.state, now);
    AnnouncePaired(a.state.(stoppedAt := None), false);
    TakePaired(b.state.(playEdge := None, held := false), now);
    PairedAppend(a.out, b.out);
    PairedAppend(a.out + b.out, c.out);
  }

  /** Records and warnings fall out of the queue without parting what belongs together. */
  lemma {:induction false} QueuedPaired(out: seq<Handoff.Action>)
    requires Paired(out)
    ensures Paired(Queued(out))
    ensures out != [] && !out[|out| - 1].Record? && !out[|out| - 1].StreamNotStarted? ==>
      Queued(out) != [] && Queued(out)[|Queued(out)| - 1] == out[|out| - 1]
  {
    if out != [] {
      QueuedPaired(out[..|out| - 1]);
    }
  }

  ghost predicate Logged(k: Core, o: Origin, now: Millis) {
    RejoinLogged(k.log.rejoin, k.rejoin, o.rejoin, now) && AutoLogged(k.log.auto, k.auto, o.auto, now)
    && StoreLogged(k.log.store, k.store, o.address) && DeskLogged(k.desk, o, now)
  }

  /** Some key is waiting for its verdict. */
  ghost predicate Verifying(store: Store.State) {
    exists key :: key in store.status && store.status[key] == Store.Verifying
  }

  /** What auto-connect does is shown as its own. */
  predicate Reasoned(sequence: Option<Sequence>) {
    sequence.Some? && !sequence.value.rejoin ==> sequence.value.reason == Store.AutoConnect
  }

  /** Everything that also holds between folding an event and publishing its effect. */
  ghost predicate Steady(k: Core, o: Origin, now: Millis) {
    RejoinWork(k.rejoinCrew, k.rejoin)
    && AutoWork(k.autoCrew, k.auto, k.log.auto, o.auto)
    && !(k.rejoin.pending.Some? && k.auto.pending.Some?)
    && k.store.activity == k.published
    && k.store.link == Store.ResolveLink(k.store.device.connected, k.store.activity)
    && (Verifying(k.store) ==> k.budget.Some?)
    && Reasoned(k.sequence)
    && Logged(k, o, now)
  }

  /** The panel shows the pending sequence, with the connects made so far. */
  predicate Shows(k: Core) {
    (k.sequence.None? <==> Current(k.rejoin, k.auto).None?)
    && (k.sequence.Some? ==> Current(k.rejoin, k.auto) == Some((k.sequence.value.rejoin, k.sequence.value.seqNo)))
    && k.published == Shown(k.rejoin, k.auto, k.sequence)
  }

  ghost predicate Ok(s: State, o: Origin, now: Millis) {
    Steady(CoreOf(s), o, now) && Shows(CoreOf(s))
  }

  // ---- the logs are runs

  lemma RejoinLogGrows(log: seq<RejoinRuns.Entry>, state: Rejoin.State, init: Rejoin.State, event: Rejoin.Event,
                       now: Millis)
    requires RejoinLogged(log, state, init, now)
    ensures var n := Rejoin.Step(state, event, now);
            RejoinLogged(log + [RejoinRuns.Entry(event, now, n.out, n.state)], n.state, init, now)
  {
    hide Rejoin.Step;
    var n := Rejoin.Step(state, event, now);
    var p := RejoinRuns.Run(init, log);
    var r := RejoinRuns.Run(init, log + [RejoinRuns.Entry(event, now, n.out, n.state)]);
    forall k | 0 <= k < |r.es| ensures r.Linked(k) {
      assert r.At(k) == p.At(k);
      assert k < |log| ==> p.Linked(k);
    }
  }

  lemma AutoLogGrows(log: seq<AutoConnectRuns.Entry>, state: AutoConnect.State, init: AutoConnect.State,
                     event: AutoConnect.Event, now: Millis)
    requires AutoLogged(log, state, init, now)
    ensures var n := AutoConnect.Step(state, event, now);
            AutoLogged(log + [AutoConnectRuns.Entry(event, now, n.out, n.state)], n.state, init, now)
  {
    hide AutoConnect.Step;
    var n := AutoConnect.Step(state, event, now);
    var p := AutoConnectRuns.Run(init, log);
    var r := AutoConnectRuns.Run(init, log + [AutoConnectRuns.Entry(event, now, n.out, n.state)]);
    forall k | 0 <= k < |r.es| ensures r.Linked(k) {
      assert r.At(k) == p.At(k);
      assert k < |log| ==> p.Linked(k);
    }
  }

  lemma StoreLogGrows(log: seq<StoreRuns.Entry>, state: Store.State, address: string, update: Store.Update)
    requires StoreLogged(log, state, address)
    ensures var t := Store.Step(state, update); StoreLogged(log + [StoreRuns.Entry(update, t)], t, address)
  {
    hide Store.Step;
    var p := StoreRuns.Run(address, log);
    var r := StoreRuns.Run(address, log + [StoreRuns.Entry(update, Store.Step(state, update))]);
    forall k | 0 <= k < |r.es| ensures r.Linked(k) {
      assert r.At(k) == p.At(k);
      assert k < |log| ==> p.Linked(k);
    }
  }

  lemma HandoffLogGrows(log: seq<HandoffRuns.Entry>, state: Handoff.State, init: Handoff.State, event: Handoff.Event,
                        now: Millis)
    requires HandoffLogged(log, state, init, now)
    ensures var n := Handoff.Step(state, event, now);
            HandoffLogged(log + [HandoffRuns.Entry(event, now, n.out, n.state)], n.state, init, now)
  {
    hide Handoff.Step;
    var n := Handoff.Step(state, event, now);
    var p := HandoffRuns.Run(init, log);
    var r := HandoffRuns.Run(init, log + [HandoffRuns.Entry(event, now, n.out, n.state)]);
    forall k | 0 <= k < |r.es| ensures r.Linked(k) {
      assert r.At(k) == p.At(k);
      assert k < |log| ==> p.Linked(k);
    }
  }

  lemma EarLogGrows(log: seq<EarMediaRuns.Entry>, state: EarMedia.State, init: EarMedia.State, event: EarMedia.Event,
                    audio: bool, now: Millis)
    requires EarLogged(log, state, init, now)
    ensures var n := EarMedia.Step(state, event, audio, now);
            EarLogged(log + [EarMediaRuns.Entry(event, audio, now, n.out, n.state)], n.state, init, now)
  {
    hide EarMedia.Step;
    var n := EarMedia.Step(state, event, audio, now);
    var p := EarMediaRuns.Run(init, log);
    var r := EarMediaRuns.Run(init, log + [EarMediaRuns.Entry(event, audio, now, n.out, n.state)]);
    forall k | 0 <= k < |r.es| ensures r.Linked(k) {
      assert r.At(k) == p.At(k);
      assert k < |log| ==> p.Linked(k);
    }
  }

  /** Time passes. */
  lemma Later(s: State, o: Origin, now: Millis, later: Millis)
    requires Ok(s, o, now) && now <= later
    ensures Ok(s, o, later)
  {
    hide RejoinWork, AutoWork, Verifying, Shows;
  }

  // ---- parts of a step

  lemma NothingAsked(s: Store.State, update: Store.Update)
    requires !Asks(update)
    ensures Verifying(Store.Step(s, update)) ==> Verifying(s)
  {
    hide Store.Step;
    var t := Store.Step(s, update);
    if Verifying(t) {
      var key :| key in t.status && t.status[key] == Store.Verifying;
      StoreRuns.RequestsStep(s, update, key);
      assert key in s.status && s.status[key] == Store.Verifying;
    }
  }

  lemma ApplySteady(s: State, update: Store.Update, o: Origin, now: Millis)
    requires Steady(CoreOf(s), o, now)
             || (update.SetActivity? && Steady(CoreOf(s).(published := s.store.activity), o, now))
    requires update.SetActivity? ==> update.activity == s.panel.published
    requires Asks(update) ==> s.timers.verifyBudget.Some?
    ensures Steady(CoreOf(Apply(s, update)), o, now)
  {
    hide RejoinWork, AutoWork, Store.Step, RejoinLogged, AutoLogged, StoreLogged, DeskLogged, Verifying;
    StoreRuns.ConnectionStep(s.store, update);
    StoreLogGrows(s.log.store, s.store, o.address, update);
    if !Asks(update) {
      NothingAsked(s.store, update);
    }
  }

  /** Publishing shows the pending sequence; one already shown keeps its reason and start. */
  lemma PublishShows(s: State, c: Clock, o: Origin)
    requires Steady(CoreOf(s), o, c.now)
    ensures Ok(PublishLink(s, c), o, c.now)
    ensures var t := PublishLink(s, c);
            t.rejoin == s.rejoin && t.auto == s.auto && t.rejoinCrew == s.rejoinCrew && t.autoCrew == s.autoCrew
            && t.log.rejoin == s.log.rejoin && t.log.auto == s.log.auto
            && t.host == s.host && t.radio == s.radio && t.timers == s.timers && t.phase == s.phase && t.desk == s.desk
            && t.panel.buds == s.panel.buds && s.log.store <= t.log.store && t.store.device == s.store.device
            && t.panel.sequence == NextSequence(s, c)
  {
    hide Steady, Apply, RejoinReason, Shown;
    var sequence := NextSequence(s, c);
    var view := Shown(s.rejoin, s.auto, sequence);
    var t := s.(panel := s.panel.(sequence := sequence, published := view));
    SteadyReasons(s, o, c.now);
    PublishSteady(s, t, o, c.now);
    if view != s.panel.published {
      ApplyFrame(t, Store.SetActivity(view));
      ApplyDevice(t, Store.SetActivity(view));
    }
  }

  lemma ApplyFrame(s: State, update: Store.Update)
    ensures var t := Apply(s, update);
            t == s.(store := t.store, log := t.log) && t.log.rejoin == s.log.rejoin && t.log.auto == s.log.auto
            && s.log.store <= t.log.store
  {
    hide Store.Step;
  }

  /** Announcing touches no device field, and only an identity gives another model. */
  lemma ApplyDevice(s: State, update: Store.Update)
    ensures update.SetActivity? ==> Apply(s, update).store.device == s.store.device
    ensures !update.Identity? ==> Apply(s, update).store.device.modelId == s.store.device.modelId
  {
    hide Store.Judge, Store.GivenUp, Store.Open, Store.Bump;
    hide Store.BumpsEpoch, Store.ResolveLink, Store.OnIdentity;
  }

  lemma SteadyReasons(s: State, o: Origin, now: Millis)
    requires Steady(CoreOf(s), o, now)
    ensures Reasoned(s.panel.sequence)
  {
    hide RejoinWork, AutoWork, Logged, Verifying, Reasoned;
  }

  lemma PublishSteady(s: State, t: State, o: Origin, now: Millis)
    requires Steady(CoreOf(s), o, now) && t == s.(panel := t.panel) && Reasoned(t.panel.sequence)
    ensures t.panel.published == s.panel.published ==> Steady(CoreOf(t), o, now)
    ensures Steady(CoreOf(Apply(t, Store.SetActivity(t.panel.published))), o, now)
  {
    hide Apply, RejoinWork, AutoWork, RejoinLogged, AutoLogged, StoreLogged, DeskLogged, Verifying;
    assert Steady(CoreOf(t).(published := t.store.activity), o, now);
    ApplySteady(t, Store.SetActivity(t.panel.published), o, now);
  }

  // ---- events

  /** Sequences are numbered upwards, and one that was shown keeps everything shown about it. */
  predicate Advances(s: State, t: State) {
    s.rejoin.seqNo <= t.rejoin.seqNo && s.auto.seqNo <= t.auto.seqNo
    && (t.panel.sequence.Some? && t.panel.sequence != s.panel.sequence ==>
          t.panel.sequence.value.seqNo > if t.panel.sequence.value.rejoin then s.rejoin.seqNo else s.auto.seqNo)
    && s.log.store <= t.log.store && s.log.rejoin <= t.log.rejoin
  }

  lemma AdvancesOn(s: State, t: State, u: State)
    requires Advances(s, t) && Advances(t, u)
    ensures Advances(s, u)
  {
    assert s.log.store == t.log.store[..|s.log.store|] == u.log.store[..|s.log.store|];
    assert s.log.rejoin == t.log.rejoin[..|s.log.rejoin|] == u.log.rejoin[..|s.log.rejoin|];
  }

  /** Everything but the machines, their workers, the store and the panel. */
  predicate SameTask(s: State, t: State) {
    t.host == s.host && t.radio == s.radio && t.timers == s.timers && t.phase == s.phase && t.desk == s.desk
    && t.panel.buds == s.panel.buds
  }

  lemma RejoinFoldSteady(s: State, event: Rejoin.Event, c: Clock, o: Origin)
    requires Steady(CoreOf(s), o, c.now)
    requires event.ConnectFinished? ==> NoJob(s.rejoinCrew, event.seqNo)
    requires event.Disconnected? ==> s.auto.pending.None?
    ensures Steady(CoreOf(RejoinFold(s, event, c)), o, c.now)
    ensures var t := RejoinFold(s, event, c);
            t.auto == s.auto && t.autoCrew == s.autoCrew && SameTask(s, t) && t.panel == s.panel
            && s.rejoin.seqNo <= t.rejoin.seqNo && t.store == s.store && t.log.auto == s.log.auto
            && t.log.store == s.log.store && s.log.rejoin <= t.log.rejoin
            && (t.rejoin.pending.Some? ==>
                  RejoinPending(t.rejoin) == RejoinPending(s.rejoin) || t.rejoin.pending.value.seqNo > s.rejoin.seqNo)
            && (!event.Disconnected? && s.rejoin.pending.None? ==> t.rejoin.pending.None?)
  {
    hide RejoinWork, AutoWork, AutoLogged, StoreLogged, DeskLogged, Verifying, RejoinLogged, Rejoin.Step, RejoinActs;
    RejoinFoldWork(s, event, c);
    RejoinStepShape(s.rejoin, event, c.now);
    RejoinLogGrows(s.log.rejoin, s.rejoin, o.rejoin, event, c.now);
  }

  lemma AutoFoldSteady(s: State, event: AutoConnect.Event, c: Clock, o: Origin)
    requires Steady(CoreOf(s), o, c.now)
    requires event.ConnectFinished? ==> NoJob(s.autoCrew, event.seqNo)
    requires event.SetRejoinPending? || s.auto.rejoinPending == s.rejoin.pending.Some?
    ensures Steady(CoreOf(AutoFold(s, event, c)), o, c.now)
    ensures var t := AutoFold(s, event, c);
            t.rejoin == s.rejoin && t.rejoinCrew == s.rejoinCrew && SameTask(s, t) && t.panel == s.panel
            && s.auto.seqNo <= t.auto.seqNo && t.store == s.store && t.log.rejoin == s.log.rejoin
            && t.log.store == s.log.store
            && (t.auto.pending.Some? ==>
                  AutoPending(t.auto) == AutoPending(s.auto) || t.auto.pending.value.seqNo > s.auto.seqNo)
            && (event.SetRejoinPending? ==>
                  t.auto.rejoinPending == event.pending && t.auto.pending == s.auto.pending && t.autoCrew == s.autoCrew)
            && (AutoConnectRuns.LinkChange(event) || event.ManualCommand? ==> t.auto.pending.None?)
  {
    hide RejoinWork, AutoWork, AutoLogged, StoreLogged, DeskLogged, Verifying, RejoinLogged, AutoConnect.Step, AutoActs;
    LastAuto(s, o, c.now);
    AutoFoldWork(s, event, c, o.auto);
    AutoStepShape(s.auto, event, c.now);
    AutoLogGrows(s.log.auto, s.auto, o.auto, event, c.now);
    if event.SetRejoinPending? {
      NothingToDo(s.autoCrew, s.host);
    }
  }

  lemma NothingToDo(crew: Crew, host: Host)
    ensures AutoActs(crew, host, []) == crew
  {}

  lemma LastAuto(s: State, o: Origin, now: Millis)
    requires Steady(CoreOf(s), o, now)
    ensures s.auto == if s.log.auto == [] then o.auto else s.log.auto[|s.log.auto| - 1].post
    ensures AutoWork(s.autoCrew, s.auto, s.log.auto, o.auto)
  {
    hide AutoWork, RejoinWork, StoreLogged, RejoinLogged, DeskLogged, Verifying;
    var r := AutoConnectRuns.Run(o.auto, s.log.auto);
    assert r.At(|s.log.auto|) == s.auto;
  }

  lemma RejoinEventOk(s: State, event: Rejoin.Event, c: Clock, o: Origin)
    requires Ok(s, o, c.now)
    requires event.ConnectFinished? ==> NoJob(s.rejoinCrew, event.seqNo)
    requires event.Disconnected? ==> s.auto.pending.None?
    ensures var t := RejoinEvent(s, event, c);
            Ok(t, o, c.now) && Advances(s, t) && SameTask(s, t) && t.auto == s.auto && t.autoCrew == s.autoCrew
            && (!event.Disconnected? && s.rejoin.pending.None? ==> t.rejoin.pending.None?)
            && t.store.device == s.store.device && SeqFits(t)
  {
    hide Steady, RejoinFold, PublishLink, Shown, RejoinReason;
    RejoinFoldSteady(s, event, c, o);
    Disjoint(s, o, c.now);
    Disjoint(RejoinFold(s, event, c), o, c.now);
    PublishShows(RejoinFold(s, event, c), c, o);
  }

  /** What the panel shows has begun. */
  predicate SeqFits(s: State) {
    s.panel.sequence.Some? ==>
      s.panel.sequence.value.seqNo <= if s.panel.sequence.value.rejoin then s.rejoin.seqNo else s.auto.seqNo
  }

  lemma Disjoint(s: State, o: Origin, now: Millis)
    requires Steady(CoreOf(s), o, now)
    ensures !(s.rejoin.pending.Some? && s.auto.pending.Some?)
    ensures s.rejoin.pending.Some? ==> s.rejoin.pending.value.seqNo <= s.rejoin.seqNo
    ensures s.auto.pending.Some? ==> s.auto.pending.value.seqNo <= s.auto.seqNo
  {
    hide Logged, Verifying;
  }

  lemma AutoEventOk(s: State, event: AutoConnect.Event, c: Clock, o: Origin)
    requires Ok(s, o, c.now) && !event.SetRejoinPending?
    requires event.ConnectFinished? ==> NoJob(s.autoCrew, event.seqNo)
    ensures var t := AutoEvent(s, event, c);
            Ok(t, o, c.now) && Advances(s, t) && SameTask(s, t) && t.rejoin == s.rejoin && t.rejoinCrew == s.rejoinCrew
            && (AutoConnectRuns.LinkChange(event) || event.ManualCommand? ==> t.auto.pending.None?)
            && t.store.device == s.store.device && SeqFits(t)
  {
    hide Steady, AutoFold, PublishLink, Shown, RejoinReason;
    var flag := AutoConnect.SetRejoinPending(s.rejoin.pending.Some?);
    var t := AutoFold(s, flag, c);
    AutoFoldSteady(s, flag, c, o);
    AutoFoldSteady(t, event, c, o);
    Disjoint(s, o, c.now);
    Disjoint(AutoFold(t, event, c), o, c.now);
    PublishShows(AutoFold(t, event, c), c, o);
  }

  /** An update of the store that is not about the panel. */
  lemma ApplyOk(s: State, update: Store.Update, o: Origin, now: Millis)
    requires Ok(s, o, now) && !update.SetActivity?
    requires Asks(update) ==> s.timers.verifyBudget.Some?
    ensures Ok(Apply(s, update), o, now)
    ensures var t := Apply(s, update);
            t == s.(store := t.store, log := t.log) && t.log.rejoin == s.log.rejoin && t.log.auto == s.log.auto
            && s.log.store <= t.log.store
  {
    hide Steady;
    ApplySteady(s, update, o, now);
    ApplyFrame(s, update);
  }

  /** The supervisor's own fields are not the invariant's business. */
  lemma SameCore(s: State, t: State, o: Origin, now: Millis)
    requires Ok(s, o, now) && CoreOf(t) == CoreOf(s)
    ensures Ok(t, o, now)
  {}

  // ---- link events

  /** After this event nothing begun before it may be completed: the link, the adapter or the identity is another. */
  predicate Boundary(s: State, event: LinkEvent) {
    event.AdapterGone? || event == Connected(false) || (event.Identity? && ChangesIdentity(s, event))
  }

  /** How a link event moves the radio: away at a boundary, up at a real connect, and not at all otherwise. */
  predicate RadioMoved(s: State, event: LinkEvent, t: State) {
    var a, b := s.radio, t.radio;
    if Boundary(s, event) then
      !b.acl && b.dialKind.None? && a.generation <= b.generation
      && (a.acl ==> b.generation == a.generation + 1) && !b.sock
    else if event == Connected(true) && !a.acl then
      b.acl && b.dialKind == Some(Automatic) && b.generation == a.generation + 1 && b.sock == a.sock
    else b == a
  }

  /** A part of a step: the invariant again, and the numbering. */
  ghost predicate Goes(s: State, t: State, o: Origin, now: Millis) {
    Keeps(s, t, o, now) && t.desk.log.taken == s.desk.log.taken && (t.phase.Flushing? ==> s.phase.Flushing?)
  }

  ghost predicate Keeps(s: State, t: State, o: Origin, now: Millis) {
    Ok(t, o, now) && Advances(s, t) && SeqFits(t)
  }

  lemma GoesOn(s: State, t: State, u: State, o: Origin, now: Millis)
    requires Goes(s, t, o, now) && Goes(t, u, o, now)
    ensures Goes(s, u, o, now)
  {
    hide Ok;
  }

  lemma SeqFitsAlways(s: State, o: Origin, now: Millis)
    requires Ok(s, o, now)
    ensures SeqFits(s) && Goes(s, s, o, now)
  {
    hide Steady;
    Disjoint(s, o, now);
  }

  /** A change of the supervisor's own fields. */
  lemma Sets(s: State, t: State, o: Origin, now: Millis)
    requires Ok(s, o, now) && CoreOf(t) == CoreOf(s) && (t.phase.Flushing? ==> s.phase.Flushing?)
    ensures Goes(s, t, o, now)
  {
    hide Ok;
    SameCore(s, t, o, now);
    SeqFitsAlways(s, o, now);
  }

  lemma ApplyGoes(s: State, update: Store.Update, o: Origin, now: Millis)
    requires Ok(s, o, now) && !update.SetActivity?
    requires Asks(update) ==> s.timers.verifyBudget.Some?
    ensures Goes(s, Apply(s, update), o, now)
    ensures var t := Apply(s, update); t == s.(store := t.store, log := t.log)
  {
    hide Ok;
    ApplyOk(s, update, o, now);
    SeqFitsAlways(s, o, now);
  }

  // ---- the desktop's side

  /** Everything but the desktop's side. */
  predicate OnlyDesk(s: State, t: State) {
    t == s.(desk := t.desk)
  }

  lemma HandoffGoes(s: State, event: Handoff.Event, c: Clock, o: Origin)
    requires Ok(s, o, c.now)
    ensures Goes(s, HandoffEvent(s, event, c), o, c.now) && OnlyDesk(s, HandoffEvent(s, event, c))
    ensures HandoffEvent(s, event, c).desk.route == s.desk.route
  {
    hide RejoinWork, AutoWork, RejoinLogged, AutoLogged, StoreLogged, Verifying, EarLogged, HandoffLogged, Handoff.Step,
         Queued, Paired;
    var out := Handoff.Step(s.desk.handoff, event, c.now).out;
    StepPaired(s.desk.handoff, event, c.now);
    QueuedPaired(out);
    PairedAppend(s.desk.queue, Queued(out));
    HandoffLogGrows(s.desk.log.handoff, s.desk.handoff, o.handoff, event, c.now);
    SeqFitsAlways(s, o, c.now);
  }

  lemma EarGoes(s: State, event: EarMedia.Event, c: Clock, o: Origin)
    requires Ok(s, o, c.now)
    ensures Goes(s, EarEvent(s, event, c), o, c.now) && OnlyDesk(s, EarEvent(s, event, c))
    ensures EarEvent(s, event, c).desk.route == s.desk.route
  {
    hide RejoinWork, AutoWork, RejoinLogged, AutoLogged, StoreLogged, Verifying;
    hide EarLogged, HandoffLogged, EarMedia.Step, AudioOnAirPods, AllQueued, Paired;
    EarLogGrows(s.desk.log.ear, s.desk.ear, o.ear, event, AudioOnAirPods(s), c.now);
    SeqFitsAlways(s, o, c.now);
  }

  /** A change of the card or of the playback reading. */
  lemma DeskSets(s: State, t: State, o: Origin, now: Millis)
    requires Ok(s, o, now) && OnlyDesk(s, t)
    requires t.desk == s.desk.(route := t.desk.route, playback := t.desk.playback)
    ensures Goes(s, t, o, now)
  {
    hide RejoinWork, AutoWork, RejoinLogged, AutoLogged, StoreLogged, Verifying, EarLogged, HandoffLogged;
    SeqFitsAlways(s, o, now);
  }

  lemma PlaybackGoes(s: State, reading: Reading, c: Clock, o: Origin)
    requires Ok(s, o, c.now)
    ensures Goes(s, OnPlayback(s, reading, c), o, c.now) && OnlyDesk(s, OnPlayback(s, reading, c))
  {
    hide Ok, HandoffEvent, EarEvent, Advances, SeqFits;
    var t := s.(desk := s.desk.(playback := Some(reading)));
    DeskSets(s, t, o, c.now);
    var u := EarEvent(t, EarMedia.Playback(reading.playing, reading.player), c);
    EarGoes(t, EarMedia.Playback(reading.playing, reading.player), c, o);
    HandoffGoes(u, Handoff.Playback(reading.playing, reading.app, reading.player), c, o);
    GoesOn(s, t, u, o, c.now);
    GoesOn(s, u, OnPlayback(s, reading, c), o, c.now);
  }

  // ---- sockets

  lemma UnplugGoes(s: State, o: Origin, now: Millis)
    requires Ok(s, o, now)
    ensures Goes(s, Unplug(s), o, now)
    ensures var t := Unplug(s);
            t == s.(store := t.store, log := t.log, radio := s.radio.(sock := false),
                    timers := s.timers.(readbackAt := None))
  {
    hide Ok, Apply, Advances, SeqFits;
    var t := s.(radio := s.radio.(sock := false));
    Sets(s, t, o, now);
    var u := Apply(t, Store.AapLink(false));
    ApplyGoes(t, Store.AapLink(false), o, now);
    Sets(u, Unplug(s), o, now);
    GoesOn(s, t, u, o, now);
    GoesOn(s, u, Unplug(s), o, now);
  }

  /** What dropping the socket touches. */
  predicate Dropped(s: State, t: State) {
    t.host == s.host && t.phase == s.phase && t.radio == s.radio.(sock := false)
    && t.timers == s.timers.(readbackAt := None)
  }

  lemma DropGoes(s: State, c: Clock, o: Origin)
    requires Ok(s, o, c.now)
    ensures Goes(s, DropSocket(s, c), o, c.now) && Dropped(s, DropSocket(s, c))
  {
    hide Ok, Unplug, HandoffEvent, EarEvent, Advances, SeqFits;
    var t := Unplug(s);
    UnplugGoes(s, o, c.now);
    var u := HandoffEvent(t, Handoff.LinkClosed, c);
    HandoffGoes(t, Handoff.LinkClosed, c, o);
    var v := EarEvent(u, EarMedia.LinkClosed, c);
    EarGoes(u, EarMedia.LinkClosed, c, o);
    DeskSets(v, RestoreRoute(v), o, c.now);
    GoesOn(s, t, u, o, c.now);
    GoesOn(s, u, v, o, c.now);
    GoesOn(s, v, DropSocket(s, c), o, c.now);
  }

  lemma SuppressGoes(s: State, c: Clock, o: Origin)
    requires Ok(s, o, c.now)
    ensures Goes(s, Suppress(s, c), o, c.now)
    ensures Dropped(s.(radio := s.radio.(suppressed := true, dialAt := None, dialKind := None)), Suppress(s, c))
  {
    hide Ok, DropSocket, Advances, SeqFits;
    var t := s.(radio := s.radio.(suppressed := true, dialAt := None, dialKind := None));
    Sets(s, t, o, c.now);
    DropGoes(t, c, o);
    GoesOn(s, t, Suppress(s, c), o, c.now);
  }

  lemma DisownOk(s: State, pinned: bool, c: Clock, o: Origin)
    requires Ok(s, o, c.now)
    ensures var t := Disown(s, pinned, c);
            Goes(s, t, o, c.now) && t.phase == s.phase && t.timers == s.timers.(readbackAt := None)
            && !t.radio.acl && t.radio.dialKind.None? && t.radio.generation == s.radio.generation + 1 && !t.radio.sock
  {
    hide Ok, Apply, DropSocket, RejoinEvent, Advances, SeqFits;
    var t := s.(radio := s.radio.(generation := s.radio.generation + 1, acl := false, dialAt := None, dialKind := None),
                host := s.host.(pinned := pinned));
    Sets(s, t, o, c.now);
    DropGoes(t, c, o);
    var u := DropSocket(t, c);
    ApplyGoes(u, Store.AclConnected(false), o, c.now);
    var v := Apply(u, Store.AclConnected(false));
    RejoinEventOk(v, Rejoin.IdentityChanged, c, o);
    GoesOn(s, t, u, o, c.now);
    GoesOn(s, u, v, o, c.now);
    GoesOn(s, v, Disown(s, pinned, c), o, c.now);
  }

  /** Noting the local address changes no sequence, so the panel stays right without publishing. */
  lemma SetLocalOk(s: State, adapter: Address, c: Clock, o: Origin)
    requires Ok(s, o, c.now)
    ensures var t := RejoinFold(s, Rejoin.SetLocal(adapter), c);
            Goes(s, t, o, c.now) && SameTask(s, t)
  {
    hide Steady, RejoinActs;
    RejoinFoldSteady(s, Rejoin.SetLocal(adapter), c, o);
    SeqFitsAlways(s, o, c.now);
  }

  lemma AdoptOk(s: State, event: LinkEvent, c: Clock, o: Origin)
    requires Ok(s, o, c.now) && event.Identity?
    ensures var t := Adopt(s, event, c);
            Goes(s, t, o, c.now) && t.phase == s.phase && t.radio == s.radio && t.timers == s.timers
  {
    hide Ok, Apply, RejoinFold, HandoffEvent, Advances, SeqFits, Codec.AddressText;
    var u := RejoinFold(s, Rejoin.SetLocal(event.adapter), c);
    SetLocalOk(s, event.adapter, c, o);
    var v := HandoffEvent(u, Handoff.SetLocal(event.adapter), c);
    HandoffGoes(u, Handoff.SetLocal(event.adapter), c, o);
    var w := v.(host := v.host.(adapter := Some(event.adapter), device := Some(event.address)));
    Sets(v, w, o, c.now);
    ApplyGoes(w, Store.Identity(Codec.AddressText(event.address), event.name, event.modelId), o, c.now);
    GoesOn(s, u, v, o, c.now);
    GoesOn(s, v, w, o, c.now);
    GoesOn(s, w, Adopt(s, event, c), o, c.now);
  }

  lemma IdentityOk(s: State, event: LinkEvent, c: Clock, o: Origin)
    requires Ok(s, o, c.now) && event.Identity?
    ensures var t := OnIdentity(s, event, c);
            Goes(s, t, o, c.now) && t.phase == s.phase && RadioMoved(s, event, t)
            && t.timers == s.timers.(readbackAt := t.timers.readbackAt)
  {
    hide Ok, Disown, Adopt, Advances, SeqFits;
    var t := if ChangesIdentity(s, event) then Disown(s, event.pinned, c) else s;
    if ChangesIdentity(s, event) {
      DisownOk(s, event.pinned, c, o);
    } else {
      Sets(s, t, o, c.now);
    }
    AdoptOk(t, event, c, o);
    GoesOn(s, t, OnIdentity(s, event, c), o, c.now);
  }

  lemma StartPeriodOk(s: State, c: Clock, o: Origin)
    requires Ok(s, o, c.now)
    ensures var t := StartPeriod(s, c);
            Goes(s, t, o, c.now) && t.phase == s.phase && t.timers == s.timers && t.radio.sock == s.radio.sock
            && t.radio.acl && t.radio.dialKind == Some(Automatic) && t.radio.generation == s.radio.generation + 1
  {
    hide Ok, RejoinEvent, Advances, SeqFits;
    var t := s.(radio := s.radio.(acl := true, generation := s.radio.generation + 1, suppressed := false),
                panel := s.panel.(buds := []));
    Sets(s, t, o, c.now);
    RejoinEventOk(t, Rejoin.LinkSessionStarted, c, o);
    var u := RejoinEvent(t, Rejoin.LinkSessionStarted, c);
    Sets(u, StartPeriod(s, c), o, c.now);
    GoesOn(s, t, u, o, c.now);
    GoesOn(s, u, StartPeriod(s, c), o, c.now);
  }

  lemma ConnectedOk(s: State, c: Clock, o: Origin)
    requires Ok(s, o, c.now)
    ensures var t := OnConnected(s, c);
            Goes(s, t, o, c.now) && t.phase == s.phase && t.timers == s.timers && RadioMoved(s, Connected(true), t)
  {
    hide Ok, RejoinEvent, AutoEvent, HandoffEvent, Apply, StartPeriod, Advances, SeqFits;
    var t := RejoinEvent(s, Rejoin.LinkConnected(true), c);
    RejoinEventOk(s, Rejoin.LinkConnected(true), c, o);
    var u := AutoEvent(t, AutoConnect.LocalConnected, c);
    AutoEventOk(t, AutoConnect.LocalConnected, c, o);
    var w := HandoffEvent(u, Handoff.AudioLinkChanged, c);
    HandoffGoes(u, Handoff.AudioLinkChanged, c, o);
    var v := Apply(w, Store.AclConnected(true));
    ApplyGoes(w, Store.AclConnected(true), o, c.now);
    GoesOn(s, t, u, o, c.now);
    GoesOn(s, u, w, o, c.now);
    GoesOn(s, w, v, o, c.now);
    if !v.radio.acl {
      StartPeriodOk(v, c, o);
      GoesOn(s, v, StartPeriod(v, c), o, c.now);
    }
  }

  lemma LoseLinkOk(s: State, c: Clock, o: Origin)
    requires Ok(s, o, c.now)
    ensures var t := LoseLink(s, c);
            Goes(s, t, o, c.now) && t.phase == s.phase && t.timers == s.timers.(readbackAt := None)
            && RadioMoved(s, AdapterGone, t)
  {
    hide Ok, Apply, DropSocket, Advances, SeqFits;
    var changed := s.radio.acl || s.host.adapter.Some?;
    var v := s.(radio := s.radio.(acl := false, dialAt := None, dialKind := None,
                                  generation := s.radio.generation + if changed then 1 else 0));
    Sets(s, v, o, c.now);
    var w := DropSocket(v, c);
    DropGoes(v, c, o);
    ApplyGoes(w, Store.AclConnected(false), o, c.now);
    GoesOn(s, v, w, o, c.now);
    GoesOn(s, w, LoseLink(s, c), o, c.now);
  }

  lemma DownOk(s: State, event: Rejoin.Event, c: Clock, o: Origin)
    requires Ok(s, o, c.now) && (event.AdapterGone? || event == Rejoin.LinkConnected(false))
    ensures var t := OnDown(s, event, c);
            Goes(s, t, o, c.now) && t.phase == s.phase && t.timers == s.timers.(readbackAt := None)
            && RadioMoved(s, AdapterGone, t)
  {
    hide Ok, RejoinEvent, AutoEvent, HandoffEvent, LoseLink, Advances, SeqFits;
    var t := RejoinEvent(s, event, c);
    RejoinEventOk(s, event, c, o);
    var u := AutoEvent(t, AutoConnect.LocalDisconnected(Rejoin.Unknown), c);
    AutoEventOk(t, AutoConnect.LocalDisconnected(Rejoin.Unknown), c, o);
    var v := HandoffEvent(u, Handoff.AudioLinkChanged, c);
    HandoffGoes(u, Handoff.AudioLinkChanged, c, o);
    LoseLinkOk(v, c, o);
    GoesOn(s, t, u, o, c.now);
    GoesOn(s, u, v, o, c.now);
    GoesOn(s, v, OnDown(s, event, c), o, c.now);
  }

  lemma LinkOk(s: State, event: LinkEvent, c: Clock, o: Origin)
    requires Ok(s, o, c.now)
    ensures var t := OnLink(s, event, c);
            Goes(s, t, o, c.now) && t.phase == s.phase && RadioMoved(s, event, t)
            && t.timers == s.timers.(readbackAt := t.timers.readbackAt)
  {
    hide Ok, RejoinEvent, AutoEvent, HandoffEvent, OnIdentity, OnConnected, OnDown, Advances, SeqFits;
    match event
    case Identity(_, _, _, _, _) => IdentityOk(s, event, c, o);
    case Disconnected(reason, facts, lidClosed) =>
      var u := s.(desk := s.desk.(route := None));
      DeskSets(s, u, o, c.now);
      var t := AutoEvent(u, AutoConnect.LocalDisconnected(reason), c);
      AutoEventOk(u, AutoConnect.LocalDisconnected(reason), c, o);
      RejoinEventOk(t, Rejoin.Disconnected(reason, facts, lidClosed), c, o);
      GoesOn(s, u, t, o, c.now);
      GoesOn(s, t, OnLink(s, event, c), o, c.now);
    case Connected(up) =>
      if up {
        ConnectedOk(s, c, o);
      } else {
        DownOk(s, Rejoin.LinkConnected(false), c, o);
      }
    case AdapterGone => DownOk(s, Rejoin.AdapterGone, c, o);
    case AudioTransport => HandoffGoes(s, Handoff.AudioLinkChanged, c, o);
    case A2dpTransport(active) => HandoffGoes(s, Handoff.A2dpTransport(active), c, o);
    case OtherLinkEvent => SeqFitsAlways(s, o, c.now);
  }

  // ---- the supervisor

  predicate Dialing(phase: Phase) {
    phase.Authorizing? || phase.OpeningLink?
  }

  /** The card switch is allowed, and there is a device to switch for. */
  predicate Routes(host: Host) {
    host.controlAudio && host.device.Some?
  }

  /** What is left of the queue keeps its order: an ownership write at the front finds the card switched. */
  predicate RestFits(s: State, rest: seq<Handoff.Action>) {
    (rest != [] && rest[0].SendOwnership? && s.radio.sock && Routes(s.host) ==>
       s.desk.route == Some(RouteFor(rest[0].owns)))
    && (forall i :: 0 < i < |rest| && rest[i].SendOwnership? ==>
          rest[i - 1] == Handoff.SetAudioRoute(RouteFor(rest[i].owns)))
  }

  /** What is left is the end of what was taken. */
  predicate IsRest(taken: seq<Handoff.Action>, rest: seq<Handoff.Action>) {
    |rest| <= |taken| && taken[|taken| - |rest|..] == rest
  }

  /** A write that is out asks for a verdict, a link being opened may still be, and side effects are in order. */
  predicate Task(s: State) {
    (s.phase.Flushing? ==> RestFits(s, s.phase.rest) && IsRest(s.desk.log.taken, s.phase.rest))
    && (s.phase.Sending? ==> Asks(s.phase.update) || s.phase.update.Unrelated?)
    && (Dialing(s.phase) ==> Alive(s, s.phase.generation))
  }

  /** The pass over the readback timers the supervisor is in the middle of. */
  function VerifyStarted(phase: Phase): Option<Millis> {
    if phase.VerifyCheck? || phase.VerifyDrain? then Some(phase.started) else None
  }

  /** A write that asks for a verdict has gone out. */
  predicate Writes(s: State, input: Input) {
    s.phase.Sending? && Asks(s.phase.update) && input == SendDone(true)
  }

  /** How a step moves the deadline of the pending verdicts. */
  predicate BudgetMoved(s: State, input: Input, c: Clock, t: State) {
    if Writes(s, input) then t.timers.verifyBudget == Some(c.now + VERIFY_BUDGET)
    else t.timers.verifyBudget == s.timers.verifyBudget || t.timers.verifyBudget.None?
  }

  /** A pass over the readback timers begins in a tick and does not end with a deadline behind it. */
  predicate VerifyMoved(s: State, input: Input, c: Clock, t: State) {
    var a, b := VerifyStarted(s.phase), VerifyStarted(t.phase);
    (b.Some? ==> a == b || (s.phase.Loop? && input.Tick? && b.value == c.now))
    && (a.Some? && b.None? ==> !Due(t.timers.verifyBudget, a.value))
    && (s.phase.Loop? && input.Tick? && b.None? ==> !Due(t.timers.verifyBudget, c.now))
  }

  /** How a step moves a dial: begun with the one permission there is, and over at every boundary. */
  predicate DialMoved(s: State, input: Input, t: State) {
    (t.radio.dialKind == Some(Automatic) ==> s.radio.dialKind == Some(Automatic) || (!s.radio.acl && t.radio.acl))
    && (Dialing(t.phase) ==>
          if Dialing(s.phase) then
            t.phase.kind == s.phase.kind && t.phase.generation == s.phase.generation
            && (t.phase.Authorizing? ==> s.phase.Authorizing?)
            && (input.Link? && Listens(s.phase) ==> !Boundary(s, input.event))
          else
            s.phase.DialDrain? && t.phase.Authorizing? && s.radio.acl && t.radio.acl
            && s.radio.dialKind == Some(t.phase.kind) && t.radio.dialKind.None?)
    && (t.radio.sock && !s.radio.sock ==>
          s.phase.OpeningLink? && s.phase.opening == Subscribing && input == Subscribed(true)
          && Alive(s, s.phase.generation))
  }

  /** The update that a write request is sent for. */
  function UpdateFor(request: Request): Option<Store.Update> {
    match request
    case Control => Some(Store.Unrelated)
    case Write(setting) => Some(Store.SettingRequested(setting))
    case Rename(name) => Some(Store.RenameRequested(name))
    case _ => None
  }

  /** A write goes out for a command that was current, and the store stands still while it does. */
  predicate WriteMoved(s: State, input: Input, c: Clock, t: State) {
    t.phase.Sending? ==>
      t.store == s.store
      && (t.phase == s.phase
          || (s.phase.Loop? && input.Command? && IsCurrent(s, input.context, input.deadline, c)
              && UpdateFor(input.request) == Some(t.phase.update)))
  }

  /** A readback window that stands open is closed: by the first battery packet, or by the tick past its end. */
  predicate Finishes(s: State, input: Input, c: Clock) {
    s.timers.readbackAt.Some?
    && ((input == Received(BatteryPacket) && Receives(s.phase, s.radio.sock))
        || (input.Tick? && s.phase.Loop? && c.now >= s.timers.readbackAt.value))
  }

  /** How a step moves the debounce of the readback against its deadline. */
  predicate TimersMoved(s: State, input: Input, c: Clock, t: State) {
    var a, b := s.timers, t.timers;
    if Writes(s, input) then b.verifyAt == Some(c.now + VERIFY_DEBOUNCE)
    else if Finishes(s, input, c) then b.verifyBudget.None? && b.verifyAt in {a.verifyAt, None}
    else b.verifyAt.None? || (b.verifyAt == a.verifyAt && b.verifyBudget == a.verifyBudget)
  }

  predicate TaskMoved(s: State, input: Input, c: Clock, t: State) {
    Task(t) && BudgetMoved(s, input, c, t) && VerifyMoved(s, input, c, t) && DialMoved(s, input, t)
    && WriteMoved(s, input, c, t) && TimersMoved(s, input, c, t)
  }

  // ---- the readback

  lemma FinishGoes(s: State, c: Clock, o: Origin)
    requires Ok(s, o, c.now)
    ensures var t := FinishReadback(s, c);
            Goes(s, t, o, c.now) && t.radio == s.radio && t.phase == s.phase
            && t.timers == s.timers.(readbackAt := None, verifyBudget := None)
  {
    hide Ok, Apply, HandoffEvent, Advances, SeqFits;
    var timers := s.timers.(readbackAt := None, verifyBudget := None);
    VerdictSteady(s, Store.VerifyCompleted, timers, o, c.now);
    var t := Apply(s.(timers := timers), Store.VerifyCompleted);
    HandoffGoes(t, Handoff.OpeningSettled, c, o);
    GoesOn(s, t, FinishReadback(s, c), o, c.now);
  }

  lemma AbandonGoes(s: State, o: Origin, now: Millis)
    requires Ok(s, o, now)
    ensures var t := AbandonReadback(s);
            Goes(s, t, o, now) && t.radio == s.radio && t.phase == s.phase
            && t.timers == s.timers.(verifyAt := None, verifyBudget := None)
  {
    hide Ok, Apply;
    VerdictSteady(s, Store.VerifyFailed, s.timers.(verifyAt := None, verifyBudget := None), o, now);
  }

  lemma NobodyWaits(s: Store.State, update: Store.Update)
    requires update.VerifyCompleted? || update.VerifyFailed?
    ensures !Verifying(Store.Step(s, update))
  {
    hide Store.Step;
    var t := Store.Step(s, update);
    if Verifying(t) {
      var key :| key in t.status && t.status[key] == Store.Verifying;
      StoreRuns.RequestsStep(s, update, key);
      assert false;
    }
  }

  lemma VerdictSteady(s: State, update: Store.Update, timers: Timers, o: Origin, now: Millis)
    requires Ok(s, o, now) && (update.VerifyCompleted? || update.VerifyFailed?) && timers.verifyBudget.None?
    ensures Goes(s, Apply(s.(timers := timers), update), o, now)
    ensures var t := Apply(s.(timers := timers), update); t.radio == s.radio && t.phase == s.phase && t.timers == timers
  {
    hide RejoinWork, AutoWork, Store.Step, RejoinLogged, AutoLogged, StoreLogged, DeskLogged, Verifying;
    StoreRuns.ConnectionStep(s.store, update);
    StoreLogGrows(s.log.store, s.store, o.address, update);
    NobodyWaits(s.store, update);
    SeqFitsAlways(s, o, now);
  }

  lemma ReopenGoes(s: State, c: Clock, o: Origin)
    requires Ok(s, o, c.now)
    ensures var t := Reopen(s, c);
            Goes(s, t, o, c.now) && t.phase == s.phase && t.timers == s.timers.(readbackAt := None)
            && t.radio == s.radio.(sock := false, dialKind := Some(Manual), dialAt := Some(c.now))
  {
    hide Ok, DropSocket, Advances, SeqFits;
    DropGoes(s, c, o);
    Sets(DropSocket(s, c), Reopen(s, c), o, c.now);
    GoesOn(s, DropSocket(s, c), Reopen(s, c), o, c.now);
  }

  /** The end of a pass over the readback timers. */
  lemma AfterVerifyGoes(s: State, started: Millis, c: Clock, o: Origin)
    requires Ok(s, o, c.now)
    ensures var t := AfterVerify(s, started, c);
            Goes(s, t, o, c.now) && t.radio == s.radio && (t.phase.Loop? || t.phase.DialDrain?)
            && (t.timers == s.timers || (t.timers.verifyAt.None? && t.timers.verifyBudget.None?))
            && !Due(t.timers.verifyBudget, started)
  {
    hide Ok, AbandonReadback, Advances, SeqFits;
    AbandonGoes(s, o, c.now);
    var t := CheckBudget(s, started);
    Sets(s, s, o, c.now);
    Sets(t, EndTick(t, c), o, c.now);
    GoesOn(s, t, EndTick(t, c), o, c.now);
  }

  lemma VerificationOk(s: State, c: Clock, o: Origin)
    requires Ok(s, o, c.now) && s.phase.Loop?
    ensures var t := TickVerification(s, c);
            Goes(s, t, o, c.now) && t.radio == s.radio
            && (t.phase == VerifyCheck(c.now)
                || ((t.phase.Loop? || t.phase.DialDrain?) && !Due(t.timers.verifyBudget, c.now)))
            && t.timers.verifyBudget in {s.timers.verifyBudget, None}
            && (if Due(s.timers.readbackAt, c.now) then
                  t.timers.verifyBudget.None? && t.timers.verifyAt in {s.timers.verifyAt, None}
                else
                  t.timers.verifyAt.None?
                  || (t.timers.verifyAt == s.timers.verifyAt && t.timers.verifyBudget == s.timers.verifyBudget))
  {
    hide Ok, AbandonReadback, FinishReadback, AfterVerify, Advances, SeqFits;
    FinishGoes(s, c, o);
    var t := if Due(s.timers.readbackAt, c.now) then FinishReadback(s, c) else s;
    Sets(s, s, o, c.now);
    if !Due(t.timers.verifyAt, c.now) {
      AfterVerifyGoes(t, c.now, c, o);
      GoesOn(s, t, AfterVerify(t, c.now, c), o, c.now);
    } else {
      var u := t.(timers := t.timers.(verifyAt := None));
      Sets(t, u, o, c.now);
      GoesOn(s, t, u, o, c.now);
      if !u.radio.acl && !u.radio.sock {
        AbandonGoes(u, o, c.now);
        var v := AbandonReadback(u);
        AfterVerifyGoes(v, c.now, c, o);
        GoesOn(s, u, v, o, c.now);
        GoesOn(s, v, AfterVerify(v, c.now, c), o, c.now);
      } else {
        Sets(u, u.(phase := VerifyCheck(c.now)), o, c.now);
        GoesOn(s, u, u.(phase := VerifyCheck(c.now)), o, c.now);
      }
    }
  }

  lemma TickOk(s: State, c: Clock, o: Origin)
    requires Ok(s, o, c.now) && Task(s) && s.phase.Loop?
    ensures Goes(s, OnTick(s, c), o, c.now) && TaskMoved(s, Tick, c, OnTick(s, c))
  {
    hide Ok, RejoinEvent, AutoEvent, HandoffEvent, EarEvent, TickVerification, Advances, SeqFits;
    var h := HandoffEvent(s, Handoff.Tick, c);
    HandoffGoes(s, Handoff.Tick, c, o);
    var e := EarEvent(h, EarMedia.Tick, c);
    EarGoes(h, EarMedia.Tick, c, o);
    var t := RejoinEvent(e, Rejoin.Tick, c);
    RejoinEventOk(e, Rejoin.Tick, c, o);
    GoesOn(s, h, e, o, c.now);
    GoesOn(s, e, t, o, c.now);
    var u := AutoEvent(t, AutoConnect.Tick, c);
    AutoEventOk(t, AutoConnect.Tick, c, o);
    VerificationOk(u, c, o);
    GoesOn(s, t, u, o, c.now);
    GoesOn(s, u, OnTick(s, c), o, c.now);
  }

  // ---- the other inputs

  lemma OwnershipGoes(s: State, owns: bool, c: Clock, o: Origin)
    requires Ok(s, o, c.now)
    ensures Goes(s, OnOwnership(s, owns, c), o, c.now) && OnlyDesk(s, OnOwnership(s, owns, c))
  {
    hide Ok, HandoffEvent, Advances, SeqFits;
    var event := Handoff.OwnsConnection(owns, !s.radio.sock || s.timers.readbackAt.Some?);
    var t := HandoffEvent(s, event, c);
    HandoffGoes(s, event, c, o);
    DeskSets(t, OnOwnership(s, owns, c), o, c.now);
    GoesOn(s, t, OnOwnership(s, owns, c), o, c.now);
  }

  /** A packet for two machines in turn. */
  lemma TwoGoes(s: State, packet: Packet, c: Clock, o: Origin)
    requires Ok(s, o, c.now) && (packet.EarPacket? || packet.DevicesPacket? || packet.RelayPacket?)
    ensures var t := OnPacket(s, packet, c);
            Goes(s, t, o, c.now) && t.phase == s.phase && t.radio == s.radio && t.timers == s.timers
  {
    hide Ok, RejoinEvent, HandoffEvent, EarEvent, Advances, SeqFits, Addresses;
    match packet {
      case EarPacket(both, left, right) =>
        var t := RejoinEvent(s, Rejoin.Ear(both), c);
        RejoinEventGoes(s, Rejoin.Ear(both), c, o);
        EarGoes(t, EarMedia.Ear(left, right), c, o);
        GoesOn(s, t, OnPacket(s, packet, c), o, c.now);
      case DevicesPacket(hosts) =>
        var t := RejoinEvent(s, Rejoin.ConnectedDevices(hosts), c);
        RejoinEventGoes(s, Rejoin.ConnectedDevices(hosts), c, o);
        HandoffGoes(t, Handoff.ConnectedDevices(Addresses(hosts)), c, o);
        GoesOn(s, t, OnPacket(s, packet, c), o, c.now);
      case RelayPacket(sender, requestsYield) =>
        var t := RejoinEvent(s, Rejoin.Relay(sender), c);
        RejoinEventGoes(s, Rejoin.Relay(sender), c, o);
        HandoffGoes(t, Handoff.SmartRouting(sender, requestsYield), c, o);
        GoesOn(s, t, OnPacket(s, packet, c), o, c.now);
    }
  }

  lemma PacketOk(s: State, packet: Packet, c: Clock, o: Origin)
    requires Ok(s, o, c.now) && Task(s)
    ensures Goes(s, OnPacket(s, packet, c), o, c.now)
    ensures Receives(s.phase, s.radio.sock) ==> TaskMoved(s, Received(packet), c, OnPacket(s, packet, c))
  {
    hide Ok, RejoinEvent, HandoffEvent, EarEvent, Apply, FinishReadback, OnOwnership;
    hide Advances, SeqFits, Goes, Addresses;
    var t := OnPacket(s, packet, c);
    Sets(s, s, o, c.now);
    match packet {
      case BatteryPacket => FinishGoes(s, c, o);
      case SettingPacket(setting) => ApplyGoes(s, Store.SettingReport(setting), o, c.now);
      case MetadataPacket(name) => ApplyGoes(s, Store.Metadata(name), o, c.now);
      case AddressPacket(_, _) => Sets(s, t, o, c.now);
      case OwnershipPacket(owns) => OwnershipGoes(s, owns, c, o);
      case SourcePacket(source, doing) => HandoffGoes(s, Handoff.AudioSource(source, doing), c, o);
      case OtherPacket =>
      case _ => TwoGoes(s, packet, c, o);
    }
    assert t.phase == s.phase && t.radio == s.radio && t.timers.verifyBudget in {s.timers.verifyBudget, None};
  }

  lemma RejoinEventGoes(s: State, event: Rejoin.Event, c: Clock, o: Origin)
    requires Ok(s, o, c.now) && !event.Disconnected? && !event.ConnectFinished?
    ensures Goes(s, RejoinEvent(s, event, c), o, c.now) && SameTask(s, RejoinEvent(s, event, c))
  {
    hide Ok, RejoinEvent;
    RejoinEventOk(s, event, c, o);
  }

  lemma ManualGoes(s: State, c: Clock, o: Origin)
    requires Ok(s, o, c.now)
    ensures Goes(s, ManualCommand(s, c), o, c.now) && SameTask(s, ManualCommand(s, c))
  {
    hide Ok, RejoinEvent, AutoEvent, Advances, SeqFits;
    var t := RejoinEvent(s, Rejoin.ManualCommand, c);
    RejoinEventOk(s, Rejoin.ManualCommand, c, o);
    AutoEventOk(t, AutoConnect.ManualCommand, c, o);
    GoesOn(s, t, ManualCommand(s, c), o, c.now);
  }

  lemma SwitchGoes(s: State, enabled: bool, c: Clock, o: Origin)
    requires Ok(s, o, c.now)
    ensures var t := SwitchHandoff(s, enabled, c);
            Goes(s, t, o, c.now) && t.phase == s.phase && t.radio == s.radio && t.timers == s.timers
  {
    hide Ok, RejoinEvent, HandoffEvent, Advances, SeqFits;
    var t := HandoffEvent(s, Handoff.SetEnabled(enabled), c);
    HandoffGoes(s, Handoff.SetEnabled(enabled), c, o);
    var u := if !enabled && t.desk.route == Some(Handoff.Yielded) then Route(t, Handoff.Own) else t;
    DeskSets(t, u, o, c.now);
    RejoinEventGoes(u, Rejoin.SetEnabled(enabled), c, o);
    GoesOn(s, t, u, o, c.now);
    GoesOn(s, u, SwitchHandoff(s, enabled, c), o, c.now);
  }

  lemma CommandOk(s: State, request: Request, context: Store.Context, deadline: Millis, c: Clock, o: Origin)
    requires Ok(s, o, c.now) && Task(s) && s.phase.Loop?
    ensures var t := OnCommand(s, request, context, deadline, c);
            Goes(s, t, o, c.now) && TaskMoved(s, Command(request, context, deadline), c, t)
  {
    hide Ok, RejoinEvent, HandoffEvent, ManualCommand, SwitchHandoff, Advances, SeqFits;
    var t := OnCommand(s, request, context, deadline, c);
    Sets(s, s, o, c.now);
    if IsCurrent(s, context, deadline, c) {
      match request {
        case SetHandoff(enabled) => SwitchGoes(s, enabled, c, o);
        case TakeOver => HandoffGoes(s, Handoff.TakeOver, c, o);
        case Yield => HandoffGoes(s, Handoff.Yield, c, o);
        case Control => Sets(s, t, o, c.now);
        case Write(_) => Sets(s, t, o, c.now);
        case Rename(_) => Sets(s, t, o, c.now);
        case _ =>
          var m := ManualCommand(s, c);
          ManualGoes(s, c, o);
          Sets(m, t, o, c.now);
          GoesOn(s, m, t, o, c.now);
      }
    }
  }

  lemma SuppressOk(s: State, input: Input, c: Clock, o: Origin)
    requires Ok(s, o, c.now) && !Writes(s, input) && !input.Tick? && !input.Received?
    requires VerifyStarted(s.phase).None?
    ensures var t := Suppress(s, c).(phase := Loop); Goes(s, t, o, c.now) && TaskMoved(s, input, c, t)
  {
    hide Ok, Suppress, Advances, SeqFits;
    SuppressGoes(s, c, o);
    Sets(Suppress(s, c), Suppress(s, c).(phase := Loop), o, c.now);
    GoesOn(s, Suppress(s, c), Suppress(s, c).(phase := Loop), o, c.now);
  }

  lemma SentOk(s: State, ok: bool, c: Clock, o: Origin)
    requires Ok(s, o, c.now) && Task(s) && s.phase.Sending?
    ensures Goes(s, OnSent(s, ok, c), o, c.now) && TaskMoved(s, SendDone(ok), c, OnSent(s, ok, c))
  {
    hide Ok, Suppress, Apply, Advances, SeqFits;
    if !ok {
      SuppressOk(s, SendDone(ok), c, o);
    } else if !Asks(s.phase.update) {
      var t := Apply(s, s.phase.update);
      ApplyGoes(s, s.phase.update, o, c.now);
      Sets(t, OnSent(s, ok, c), o, c.now);
      GoesOn(s, t, OnSent(s, ok, c), o, c.now);
    } else {
      var timers := s.timers.(verifyAt := Some(c.now + VERIFY_DEBOUNCE), verifyBudget := Some(c.now + VERIFY_BUDGET));
      var armed := s.(timers := timers);
      BudgetSet(s, armed, o, c.now);
      ApplyGoes(armed, s.phase.update, o, c.now);
      var t := Apply(armed, s.phase.update);
      ApplyFrame(s, s.phase.update);
      ApplyIgnoresTimers(s, timers, s.phase.update);
      Sets(t, OnSent(s, ok, c), o, c.now);
      GoesOn(s, armed, t, o, c.now);
      GoesOn(s, t, OnSent(s, ok, c), o, c.now);
    }
  }

  lemma ApplyIgnoresTimers(s: State, timers: Timers, update: Store.Update)
    ensures Apply(s.(timers := timers), update) == Apply(s, update).(timers := timers)
  {
    hide Store.Step;
  }

  lemma BudgetSet(s: State, t: State, o: Origin, now: Millis)
    requires Ok(s, o, now) && t == s.(timers := t.timers) && t.timers.verifyBudget.Some?
    ensures Goes(s, t, o, now)
  {
    hide RejoinWork, AutoWork, RejoinLogged, AutoLogged, StoreLogged, DeskLogged, Verifying;
    SeqFitsAlways(s, o, now);
  }

  lemma FreshOk(s: State, answer: Answer, c: Clock, o: Origin)
    requires Ok(s, o, c.now) && Task(s)
    ensures Goes(s, OnFresh(s, answer, c), o, c.now) && TaskMoved(s, Fresh(answer), c, OnFresh(s, answer, c))
  {
    hide Ok, Suppress, AbandonReadback, AfterVerify, Advances, SeqFits;
    var t := OnFresh(s, answer, c);
    match s.phase {
      case VerifyCheck(started) =>
        if answer.Yes? {
          Sets(s, t, o, c.now);
        } else {
          AbandonGoes(s, o, c.now);
          var u := AbandonReadback(s);
          AfterVerifyGoes(u, started, c, o);
          GoesOn(s, u, t, o, c.now);
        }
      case Authorizing(kind, _) =>
        if answer.Yes? || kind != Automatic {
          Sets(s, t, o, c.now);
        } else {
          SuppressOk(s, Fresh(answer), c, o);
        }
      case _ => Sets(s, t, o, c.now);
    }
  }

  lemma VerifyProceedOk(s: State, gone: bool, c: Clock, o: Origin)
    requires Ok(s, o, c.now) && Task(s) && s.phase.VerifyDrain?
    ensures Goes(s, OnProceed(s, gone, c), o, c.now) && TaskMoved(s, Proceed(gone), c, OnProceed(s, gone, c))
  {
    hide Ok, Apply, Reopen, AbandonReadback, AfterVerify, Advances, SeqFits;
    if s.radio.acl {
      var t := Apply(s, Store.VerifyReopening);
      ApplyGoes(s, Store.VerifyReopening, o, c.now);
      var u := Reopen(t, c);
      ReopenGoes(t, c, o);
      AfterVerifyGoes(u, s.phase.started, c, o);
      GoesOn(s, t, u, o, c.now);
      GoesOn(s, u, OnProceed(s, gone, c), o, c.now);
    } else {
      AbandonGoes(s, o, c.now);
      var t := AbandonReadback(s);
      AfterVerifyGoes(t, s.phase.started, c, o);
      GoesOn(s, t, OnProceed(s, gone, c), o, c.now);
    }
  }

  lemma StartDialOk(s: State, gone: bool, c: Clock, o: Origin)
    requires Ok(s, o, c.now) && Task(s) && s.phase.DialDrain?
    ensures Goes(s, StartDial(s, c), o, c.now) && TaskMoved(s, Proceed(gone), c, StartDial(s, c))
  {
    hide Ok, Suppress, Advances, SeqFits;
    if s.radio.acl && s.radio.dialKind.Some? && !Known(s.host) {
      var t := s.(radio := s.radio.(dialKind := None));
      Sets(s, t, o, c.now);
      SuppressOk(t, Proceed(gone), c, o);
      GoesOn(s, t, StartDial(s, c), o, c.now);
    } else {
      Sets(s, StartDial(s, c), o, c.now);
    }
  }

  lemma ProceedOk(s: State, gone: bool, c: Clock, o: Origin)
    requires Ok(s, o, c.now) && Task(s)
    ensures Goes(s, OnProceed(s, gone, c), o, c.now) && TaskMoved(s, Proceed(gone), c, OnProceed(s, gone, c))
  {
    hide Ok, Reopen, StartDial, Advances, SeqFits;
    var t := OnProceed(s, gone, c);
    match s.phase {
      case CommandDrain(order) =>
        var u := s.(phase := Loop);
        Sets(s, u, o, c.now);
        if t != u {
          ReopenGoes(u, c, o);
          GoesOn(s, u, t, o, c.now);
        }
      case VerifyDrain(_) => VerifyProceedOk(s, gone, c, o);
      case DialDrain => StartDialOk(s, gone, c, o);
      case _ => Sets(s, t, o, c.now);
    }
  }

  lemma PromoteGoes(s: State, c: Clock, o: Origin)
    requires Ok(s, o, c.now)
    ensures var t := Promote(s, c);
            Goes(s, t, o, c.now) && t.phase.Loop? && t.radio == s.radio.(sock := true)
            && t.timers == s.timers.(readbackAt := t.timers.readbackAt)
  {
    hide Ok, Apply, Advances, SeqFits;
    var t := s.(radio := s.radio.(sock := true));
    Sets(s, t, o, c.now);
    var u := Apply(t, Store.AapLink(true));
    ApplyGoes(t, Store.AapLink(true), o, c.now);
    Sets(u, Promote(s, c), o, c.now);
    GoesOn(s, t, u, o, c.now);
    GoesOn(s, u, Promote(s, c), o, c.now);
  }

  lemma GreetGoes(s: State, c: Clock, o: Origin)
    requires Ok(s, o, c.now)
    ensures Goes(s, Greet(s, c), o, c.now) && OnlyDesk(s, Greet(s, c))
  {
    hide Ok, HandoffEvent, Advances, SeqFits;
    var t := HandoffEvent(s, Handoff.LinkOpened, c);
    HandoffGoes(s, Handoff.LinkOpened, c, o);
    if s.desk.playback.Some? {
      var p := s.desk.playback.value;
      HandoffGoes(t, Handoff.Playback(p.playing, p.app, p.player), c, o);
      GoesOn(s, t, Greet(s, c), o, c.now);
    }
  }

  lemma ConnectOk(s: State, ok: bool, c: Clock, o: Origin)
    requires Ok(s, o, c.now) && Task(s) && s.phase.OpeningLink? && s.phase.opening == Connecting
    ensures Goes(s, Connect(s, ok, c), o, c.now) && TaskMoved(s, SocketOpened(ok), c, Connect(s, ok, c))
  {
    hide Ok, Suppress, Greet, Advances, SeqFits;
    var t := s.(phase := s.phase.(opening := AwaitHandshake));
    Sets(s, t, o, c.now);
    GreetGoes(t, c, o);
    GoesOn(s, t, Greet(t, c), o, c.now);
    Sets(s, s.(phase := Loop), o, c.now);
    SuppressOk(s, SocketOpened(ok), c, o);
  }

  lemma OpeningOk(s: State, input: Input, c: Clock, o: Origin)
    requires Ok(s, o, c.now) && Task(s) && s.phase.OpeningLink? && !input.Link? && !input.Tick?
    requires !input.Received?
    ensures Goes(s, OnOpening(s, input, c), o, c.now) && TaskMoved(s, input, c, OnOpening(s, input, c))
  {
    hide Ok, Suppress, Promote, Connect, Advances, SeqFits;
    var t := OnOpening(s, input, c);
    if !t.phase.Flushing? {
      Sets(s, s.(phase := t.phase), o, c.now);
    }
    Sets(s, s, o, c.now);
    SuppressOk(s, input, c, o);
    PromoteGoes(s, c, o);
    if input.SocketOpened? && s.phase.opening == Connecting {
      ConnectOk(s, input.ok, c, o);
    }
  }

  lemma LinkInputOk(s: State, event: LinkEvent, c: Clock, o: Origin)
    requires Ok(s, o, c.now) && Task(s)
    ensures Goes(s, OnLinkInput(s, event, c), o, c.now) && TaskMoved(s, Link(event), c, OnLinkInput(s, event, c))
  {
    hide Ok, OnLink, Advances, SeqFits;
    Sets(s, s, o, c.now);
    if Listens(s.phase) {
      var t := OnLink(s, event, c);
      LinkOk(s, event, c, o);
      Sets(t, OnLinkInput(s, event, c), o, c.now);
      GoesOn(s, t, OnLinkInput(s, event, c), o, c.now);
    }
  }

  // ---- workers

  /** A job that moves on keeps its place. */
  lemma CheckFits(crew: Crew, job: nat, outcome: Rejoin.Outcome)
    ensures SameJobs(crew, Check(crew, job)) && SameJobs(crew, End(crew, job, outcome))
  {}

  predicate SameJobs(a: Crew, b: Crew) {
    a.epoch == b.epoch && |a.jobs| == |b.jobs| && forall i :: 0 <= i < |a.jobs| ==> a.jobs[i].seqNo == b.jobs[i].seqNo
  }

  lemma CrewsGo(s: State, t: State, o: Origin, now: Millis)
    requires Ok(s, o, now) && SameJobs(s.rejoinCrew, t.rejoinCrew) && SameJobs(s.autoCrew, t.autoCrew)
    requires t == s.(rejoinCrew := t.rejoinCrew, autoCrew := t.autoCrew)
    ensures Goes(s, t, o, now)
  {
    hide RejoinLogged, AutoLogged, StoreLogged, DeskLogged, Verifying, Retired;
    SeqFitsAlways(s, o, now);
  }

  lemma WorkerOk(s: State, input: Input, c: Clock, o: Origin)
    requires Ok(s, o, c.now) && Task(s) && (input.WorkerChecks? || input.WorkerEnds?)
    ensures Goes(s, OnWorker(s, input), o, c.now) && TaskMoved(s, input, c, OnWorker(s, input))
  {
    hide Ok, Check, End, Advances, SeqFits, Goes;
    var outcome := if input.WorkerEnds? then input.outcome else Rejoin.Busy;
    CheckFits(s.rejoinCrew, input.job, outcome);
    CheckFits(s.autoCrew, input.job, outcome);
    CrewsGo(s, OnWorker(s, input), o, c.now);
  }

  /** A job that is done leaves the crew in order, before its outcome is heard. */
  lemma LeaveGoes(s: State, t: State, job: nat, o: Origin, now: Millis)
    requires Ok(s, o, now)
    requires (job < |s.rejoinCrew.jobs| && t == s.(rejoinCrew := Without(s.rejoinCrew, job)))
          || (job < |s.autoCrew.jobs| && t == s.(autoCrew := Without(s.autoCrew, job)))
    ensures Goes(s, t, o, now)
  {
    hide RejoinLogged, AutoLogged, StoreLogged, DeskLogged, Verifying, Retired, JobsFit, Without;
    SeqFitsAlways(s, o, now);
    if t.rejoinCrew != s.rejoinCrew {
      ReportLeavesNone(s.rejoinCrew, job, s.rejoin.seqNo, RejoinPending(s.rejoin), RejoinInFlight(s.rejoin));
      assert Without(s.rejoinCrew, job).epoch == s.rejoinCrew.epoch
             && |t.rejoinCrew.jobs| == |s.rejoinCrew.jobs| - 1 by {
        WithoutShape(s.rejoinCrew, job);
      }
    } else if t.autoCrew != s.autoCrew {
      ReportLeavesNone(s.autoCrew, job, s.auto.seqNo, AutoPending(s.auto), AutoInFlight(s.auto));
      assert Without(s.autoCrew, job).epoch == s.autoCrew.epoch && |t.autoCrew.jobs| == |s.autoCrew.jobs| - 1 by {
        WithoutShape(s.autoCrew, job);
      }
    }
  }

  lemma WithoutShape(crew: Crew, job: nat)
    requires job < |crew.jobs|
    ensures Without(crew, job).epoch == crew.epoch && |Without(crew, job).jobs| == |crew.jobs| - 1
  {}

  lemma JobsOk(s: State, o: Origin, now: Millis)
    requires Ok(s, o, now)
    ensures JobsFit(s.rejoinCrew, s.rejoin.seqNo, RejoinPending(s.rejoin), RejoinInFlight(s.rejoin))
    ensures JobsFit(s.autoCrew, s.auto.seqNo, AutoPending(s.auto), AutoInFlight(s.auto))
  {
    hide JobsFit, Logged, Verifying, Retired;
  }

  lemma ReportOk(s: State, rejoin: bool, job: nat, c: Clock, o: Origin)
    requires Ok(s, o, c.now) && Task(s)
    ensures var t := OnReport(s, rejoin, job, c);
            Goes(s, t, o, c.now) && TaskMoved(s, WorkerReports(rejoin, job), c, t)
  {
    hide Ok, RejoinEvent, AutoEvent, Without, Advances, SeqFits, JobsFit, NoJob;
    Sets(s, s, o, c.now);
    JobsOk(s, o, c.now);
    var crew := if rejoin then s.rejoinCrew else s.autoCrew;
    if s.phase.Loop? && Reports(crew, job) {
      var done := crew.jobs[job];
      if rejoin {
        var t := s.(rejoinCrew := Without(crew, job));
        LeaveGoes(s, t, job, o, c.now);
        ReportLeavesNone(crew, job, s.rejoin.seqNo, RejoinPending(s.rejoin), RejoinInFlight(s.rejoin));
        RejoinEventOk(t, Rejoin.ConnectFinished(done.seqNo, done.stage.outcome), c, o);
        GoesOn(s, t, OnReport(s, rejoin, job, c), o, c.now);
      } else {
        var t := s.(autoCrew := Without(crew, job));
        LeaveGoes(s, t, job, o, c.now);
        ReportLeavesNone(crew, job, s.auto.seqNo, AutoPending(s.auto), AutoInFlight(s.auto));
        AutoEventOk(t, AutoConnect.ConnectFinished(done.seqNo, done.stage.outcome), c, o);
        GoesOn(s, t, OnReport(s, rejoin, job, c), o, c.now);
      }
    }
  }

  // ---- queued side effects

  lemma FlushOk(s: State, sent: bool, c: Clock, o: Origin)
    requires Ok(s, o, c.now) && Task(s) && s.phase.Flushing?
    ensures Goes(s, OnFlush(s, sent, c), o, c.now) && TaskMoved(s, Flush(sent), c, OnFlush(s, sent, c))
  {
    hide Ok, Suppress, Advances, SeqFits, RestFits;
    Sets(s, s, o, c.now);
    Sets(s, s.(phase := Loop), o, c.now);
    if s.phase.rest != [] {
      var a := s.phase.rest[0];
      var t := Perform(s, a, sent, c);
      SuppressGoes(s, c, o);
      if a.SetAudioRoute? {
        DeskSets(s, Route(s, a.mode), o, c.now);
      }
      Sets(t, OnFlush(s, sent, c), o, c.now);
      GoesOn(s, t, OnFlush(s, sent, c), o, c.now);
      RestFitsOn(s, t, s.phase.rest);
      RestIsRest(s.desk.log.taken, s.phase.rest);
      var u := OnFlush(s, sent, c);
      assert t.desk.log.taken == s.desk.log.taken;
      assert u == t.(phase := u.phase);
      SameFits(t, u, s.phase.rest[1..]);
    }
  }

  lemma SameFits(s: State, t: State, rest: seq<Handoff.Action>)
    requires t == s.(phase := t.phase)
    ensures RestFits(s, rest) ==> RestFits(t, rest)
  {}

  lemma RestIsRest(taken: seq<Handoff.Action>, rest: seq<Handoff.Action>)
    requires IsRest(taken, rest) && rest != []
    ensures IsRest(taken, rest[1..])
  {}

  /** After the first side effect the others are still in order. */
  lemma RestFitsOn(s: State, t: State, rest: seq<Handoff.Action>)
    requires rest != [] && RestFits(s, rest)
    requires if rest[0].SetAudioRoute? then t == Route(s, rest[0].mode) else t == s || !t.radio.sock
    ensures RestFits(t, rest[1..])
  {
    assert forall i :: 0 <= i < |rest[1..]| ==> rest[1..][i] == rest[i + 1];
    assert |rest| > 1 && rest[1].SendOwnership? ==> rest[1 - 1] == Handoff.SetAudioRoute(RouteFor(rest[1].owns));
  }

  /** What is queued waits for the end of the wake. */
  lemma EndWakeGoes(s: State, o: Origin, now: Millis)
    requires Ok(s, o, now)
    ensures Keeps(s, EndWake(s), o, now)
    ensures EndWake(s).radio == s.radio && EndWake(s).timers == s.timers && EndWake(s).store == s.store
    ensures EndWake(s).phase == s.phase || (s.phase.Loop? && EndWake(s).phase.Flushing?)
    ensures Task(s) ==> Task(EndWake(s))
  {
    hide RejoinWork, AutoWork, RejoinLogged, AutoLogged, StoreLogged, Verifying, EarLogged, HandoffLogged, AllQueued;
    SeqFitsAlways(s, o, now);
  }

  lemma AttendOk(s: State, input: Input, c: Clock, o: Origin)
    requires Ok(s, o, c.now) && Task(s) && s.phase.Loop? && !input.Link? && !input.Received?
    ensures Goes(s, Attend(s, input, c), o, c.now) && TaskMoved(s, input, c, Attend(s, input, c))
  {
    hide Ok, OnCommand, OnPlayback, Suppress, AutoEvent, OnTick, OnReport, Advances, SeqFits;
    Sets(s, s, o, c.now);
    match input {
      case Command(request, context, deadline) => CommandOk(s, request, context, deadline, c, o);
      case LinkDied =>
        if s.radio.sock {
          SuppressOk(s, LinkDied, c, o);
          SuppressGoes(s, c, o);
        }
      case Seen(rssi) => AutoEventOk(s, AutoConnect.Seen(rssi), c, o);
      case Playing(reading) => PlaybackGoes(s, reading, c, o);
      case Tick => TickOk(s, c, o);
      case WorkerReports(rejoin, job) => ReportOk(s, rejoin, job, c, o);
      case _ =>
    }
  }

  lemma ResumeOk(s: State, input: Input, c: Clock, o: Origin)
    requires Ok(s, o, c.now) && Task(s) && !s.phase.Loop? && !input.Link? && !input.Tick? && !input.Received?
    ensures Goes(s, Resume(s, input, c), o, c.now) && TaskMoved(s, input, c, Resume(s, input, c))
  {
    hide Ok, OnFresh, OnProceed, OnSent, OnPlayback, OnFlush, OnOpening, Advances, SeqFits;
    Sets(s, s, o, c.now);
    match input {
      case Fresh(answer) => FreshOk(s, answer, c, o);
      case Proceed(gone) => ProceedOk(s, gone, c, o);
      case _ =>
        if s.phase.OpeningLink? {
          OpeningOk(s, input, c, o);
        } else {
          WorkOk(s, input, c, o);
        }
    }
  }

  lemma WorkOk(s: State, input: Input, c: Clock, o: Origin)
    requires Ok(s, o, c.now) && Task(s) && !s.phase.Loop? && !input.Link? && !input.Tick? && !input.Received?
    ensures Goes(s, Work(s, input, c), o, c.now) && TaskMoved(s, input, c, Work(s, input, c))
  {
    hide Ok, OnSent, OnPlayback, OnFlush, Advances, SeqFits;
    Sets(s, s, o, c.now);
    match input {
      case SendDone(ok) =>
        if s.phase.Sending? {
          SentOk(s, ok, c, o);
        }
      case Playing(reading) => PlaybackGoes(s, reading, c, o);
      case Flush(sent) =>
        if s.phase.Flushing? {
          FlushOk(s, sent, c, o);
        }
      case _ =>
    }
  }

  lemma HandleOk(s: State, input: Input, c: Clock, o: Origin)
    requires Ok(s, o, c.now) && Task(s)
    ensures Goes(s, Handle(s, input, c), o, c.now) && TaskMoved(s, input, c, Handle(s, input, c))
  {
    hide Ok, OnLinkInput, OnPacket, OnWorker, Attend, Resume, Advances, SeqFits;
    Sets(s, s, o, c.now);
    match input {
      case Link(event) => LinkInputOk(s, event, c, o);
      case Received(packet) => PacketOk(s, packet, c, o);
      case WorkerChecks(_, _) => WorkerOk(s, input, c, o);
      case WorkerEnds(_, _, _) => WorkerOk(s, input, c, o);
      case _ =>
        if s.phase.Loop? {
          AttendOk(s, input, c, o);
        } else if !input.Tick? {
          ResumeOk(s, input, c, o);
        } else {
          TickElsewhere(s, c);
        }
    }
  }

  /** A tick is taken in the main loop only. */
  lemma TickElsewhere(s: State, c: Clock)
    requires !s.phase.Loop?
    ensures Resume(s, Tick, c) == s
  {}

  /** Every step keeps the invariant, the numbering and the rules of dial, write and deadline. */
  lemma StepOk(s: State, input: Input, c: Clock, o: Origin)
    requires Ok(s, o, c.now) && Task(s)
    ensures Keeps(s, Step(s, input, c), o, c.now) && TaskMoved(s, input, c, Step(s, input, c))
  {
    hide Ok, Handle, EndWake, Wakes, Advances, SeqFits;
    HandleOk(s, input, c, o);
    var t := Handle(s, input, c);
    EndWakeGoes(t, o, c.now);
    if Wakes(s, input) {
      AdvancesOn(s, t, EndWake(t));
    }
  }

  /** What is taken from the queue in a step, and what of it is then left. */
  lemma TakenStep(s: State, input: Input, c: Clock, o: Origin)
    requires Ok(s, o, c.now) && Task(s)
    ensures var t := Step(s, input, c);
            if s.phase.Flushing? then
              t.desk.log.taken == s.desk.log.taken
              && Rest(t) == if input.Flush? && s.phase.rest != [] then s.phase.rest[1..] else Rest(s)
            else t.desk.log.taken == s.desk.log.taken + Rest(t)
  {
    hide Ok, Attend, Resume, OnLinkInput, OnPacket, Advances, SeqFits;
    HandleOk(s, input, c, o);
    if s.phase.Flushing? {
      FlushKeepsRest(s, input, c);
    }
    hide Handle;
    assert Rest(Handle(s, input, c)) == [] || s.phase.Flushing?;
  }

  lemma FlushKeepsRest(s: State, input: Input, c: Clock)
    requires s.phase.Flushing?
    ensures Rest(Handle(s, input, c)) == if input.Flush? && s.phase.rest != [] then s.phase.rest[1..] else s.phase.rest
  {
    hide Apply, Handoff.Step, EarMedia.Step, Queued, Suppress;
  }

  /** What has been taken from the queue and not been carried out yet. */
  function Rest(s: State): seq<Handoff.Action> {
    if s.phase.Flushing? then s.phase.rest else []
  }
}
