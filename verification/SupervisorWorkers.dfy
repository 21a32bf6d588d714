/**
 Over every run: no connect is asked for without a worker, no worker is lost or heard twice, and exactly the worker of
 the sequence in flight gets to call.
 */
module SupervisorWorkers {
  import opened Prelude
  import opened Supervisor
  import opened SupervisorSteps
  import opened SupervisorCrews
  import opened SupervisorEvents
  import opened SupervisorRuns
  import Rejoin
  import RejoinRuns
  import AutoConnect
  import AutoConnectRuns
  import Handoff
  import EarMedia
  import SupervisorRouting

  lemma NobodyYet(r: Run)
    requires r.Valid()
    ensures Manned(r.At(0))
  {
    StartsIdle(r.init);
  }

  lemma StartsIdle(init: State)
    requires Initial(init)
    ensures init.rejoin.pending.None? && init.auto.pending.None? && init.log == Log([], [], [])
    ensures init.rejoinCrew == Crew(0, []) && init.autoCrew == Crew(0, [])
  {}

  lemma {:induction false} AlwaysManned(r: Run, k: nat)
    requires r.Valid() && k <= |r.es|
    ensures Manned(r.At(k))
  {
    hide Manned, Tells, Run.Valid, SupervisorRouting.CarriedAt;
    if k == 0 {
      NobodyYet(r);
    } else {
      AlwaysManned(r, k - 1);
      SupervisorRouting.StepHears(r, k - 1);
    }
  }

  /** Every connect asked for is a worker still out or an outcome heard, sequence by sequence, for both machines. */
  lemma WorkersConserved(r: Run, k: nat, q: nat)
    requires r.Valid() && k <= |r.es|
    ensures var s := r.At(k);
      RejoinAsked(s.log.rejoin, q) == WorkersFor(s.rejoinCrew.jobs, q) + RejoinHeard(s.log.rejoin, q)
      && AutoAsked(s.log.auto, q) == WorkersFor(s.autoCrew.jobs, q) + AutoHeard(s.log.auto, q)
  {
    hide Run.Valid, RejoinAsked, RejoinHeard, AutoAsked, AutoHeard, WorkersFor, Staffed;
    AlwaysManned(r, k);
  }

  // ---- the sequence in flight

  lemma {:induction false} NoneOf(jobs: seq<Job>, q: nat)
    requires forall i :: 0 <= i < |jobs| ==> jobs[i].seqNo != q
    ensures WorkersFor(jobs, q) == 0
  {
    if jobs != [] {
      NoneOf(jobs[..|jobs| - 1], q);
    }
  }

  lemma {:induction false} OneOf(jobs: seq<Job>, i: nat, q: nat)
    requires forall j, k :: 0 <= j < k < |jobs| ==> jobs[j].seqNo != jobs[k].seqNo
    requires i < |jobs| && jobs[i].seqNo == q
    ensures WorkersFor(jobs, q) == 1
  {
    var last := |jobs| - 1;
    if i < last {
      OneOf(jobs[..last], i, q);
    } else {
      NoneOf(jobs[..last], q);
    }
  }

  /** A rejoin sequence in flight has exactly one worker, which alone has not been heard. */
  lemma RejoinHasItsWorker(r: Run, k: nat)
    requires r.Valid() && k <= |r.es| && RejoinInFlight(r.At(k).rejoin)
    ensures var s, q := r.At(k), r.At(k).rejoin.pending.value.seqNo;
      WorkersFor(s.rejoinCrew.jobs, q) == 1 && RejoinAsked(s.log.rejoin, q) == RejoinHeard(s.log.rejoin, q) + 1
  {
    hide Initial, AutoWork, Verifying, Shows, Logged, AutoManned, Step, RejoinAsked, RejoinHeard, WorkersFor, Manned;
    var s, q := r.At(k), r.At(k).rejoin.pending.value.seqNo;
    WorkersConserved(r, k, q);
    StaffedAt(r, k);
    Reached(r, k);
    var i: nat :| i < |s.rejoinCrew.jobs| && Serves(s.rejoinCrew, i, q);
    OneOf(s.rejoinCrew.jobs, i, q);
  }

  lemma AutoHasItsWorker(r: Run, k: nat)
    requires r.Valid() && k <= |r.es| && AutoInFlight(r.At(k).auto)
    ensures var s, q := r.At(k), r.At(k).auto.pending.value.seqNo;
      WorkersFor(s.autoCrew.jobs, q) == 1 && AutoAsked(s.log.auto, q) == AutoHeard(s.log.auto, q) + 1
  {
    hide Initial, RejoinWork, Verifying, Shows, Logged, RejoinManned, Step, AutoAsked, AutoHeard, WorkersFor, Manned;
    hide Retired;
    var s, q := r.At(k), r.At(k).auto.pending.value.seqNo;
    WorkersConserved(r, k, q);
    StaffedAt(r, k);
    Reached(r, k);
    var i: nat :| i < |s.autoCrew.jobs| && Serves(s.autoCrew, i, q);
    OneOf(s.autoCrew.jobs, i, q);
  }

  lemma StaffedAt(r: Run, k: nat)
    requires r.Valid() && k <= |r.es|
    ensures RejoinInFlight(r.At(k).rejoin) ==> Staffed(r.At(k).rejoinCrew, r.At(k).rejoin.pending.value.seqNo)
    ensures AutoInFlight(r.At(k).auto) ==> Staffed(r.At(k).autoCrew, r.At(k).auto.pending.value.seqNo)
  {
    hide Run.Valid, RejoinAsked, RejoinHeard, AutoAsked, AutoHeard, WorkersFor, Staffed;
    AlwaysManned(r, k);
  }

  /** The worker of a sequence is the only one of it. */
  lemma OnlyWorker(crew: Crew, i: nat, j: nat, q: nat)
    requires forall a, b :: 0 <= a < b < |crew.jobs| ==> crew.jobs[a].seqNo != crew.jobs[b].seqNo
    requires i < |crew.jobs| && Serves(crew, i, q) && j < |crew.jobs| && crew.jobs[j].seqNo == q
    ensures i == j
  {}

  // ---- who calls

  lemma CheckDecides(r: Run, k: nat, rejoin: bool, j: nat)
    requires r.Valid() && k < |r.es| && r.es[k].input == WorkerChecks(rejoin, j)
    requires var crew := if rejoin then r.At(k).rejoinCrew else r.At(k).autoCrew;
             j < |crew.jobs| && crew.jobs[j].stage.Checking?
    ensures var crew := if rejoin then r.At(k).rejoinCrew else r.At(k).autoCrew;
            r.Calls(k, rejoin, j) <==> crew.epoch == crew.jobs[j].seqNo
    ensures !r.Calls(k, rejoin, j) ==>
      var after := if rejoin then r.At(k + 1).rejoinCrew else r.At(k + 1).autoCrew;
      j < |after.jobs| && after.jobs[j].stage == Done(Rejoin.NotReady(Rejoin.Superseded))
  {
    hide Initial;
    assert r.Linked(k);
  }

  /**
   A rejoin worker whose checks are over calls `Device1.Connect` if and only if its sequence is the one pending and in
   flight at that step.
   */
  lemma RejoinCallsIff(r: Run, k: nat, j: nat)
    requires r.Valid() && k < |r.es| && r.es[k].input == WorkerChecks(true, j)
    requires j < |r.At(k).rejoinCrew.jobs| && r.At(k).rejoinCrew.jobs[j].stage.Checking?
    ensures r.Calls(k, true, j)
       <==> RejoinInFlight(r.At(k).rejoin) && r.At(k).rejoin.pending.value.seqNo == r.At(k).rejoinCrew.jobs[j].seqNo
  {
    hide Initial, AutoWork, Verifying, Shows, Logged, Step, Run.Calls;
    var s := r.At(k);
    CheckDecides(r, k, true, j);
    Reached(r, k);
    StaffedAt(r, k);
    if RejoinInFlight(s.rejoin) && s.rejoin.pending.value.seqNo == s.rejoinCrew.jobs[j].seqNo {
      var i: nat :| i < |s.rejoinCrew.jobs| && Serves(s.rejoinCrew, i, s.rejoin.pending.value.seqNo);
      OnlyWorker(s.rejoinCrew, i, j, s.rejoin.pending.value.seqNo);
    }
  }

  /**
   An auto-connect worker calls whenever its sequence is in flight, and otherwise only if a local connect retired it.
   */
  lemma AutoCallsIff(r: Run, k: nat, j: nat)
    requires r.Valid() && k < |r.es| && r.es[k].input == WorkerChecks(false, j)
    requires j < |r.At(k).autoCrew.jobs| && r.At(k).autoCrew.jobs[j].stage.Checking?
    ensures var q := r.At(k).autoCrew.jobs[j].seqNo;
      (AutoWanted(r.At(k).auto, q) ==> r.Calls(k, false, j))
      && (!Retired(r.AutoRun(k).es, r.init.auto, q) ==> (r.Calls(k, false, j) <==> AutoWanted(r.At(k).auto, q)))
  {
    hide Initial, RejoinWork, Verifying, Shows, Logged, Step, Run.Calls, Retired;
    var s := r.At(k);
    CheckDecides(r, k, false, j);
    Reached(r, k);
    StaffedAt(r, k);
    var q := s.autoCrew.jobs[j].seqNo;
    if AutoWanted(s.auto, q) {
      var i: nat :| i < |s.autoCrew.jobs| && Serves(s.autoCrew, i, q);
      OnlyWorker(s.autoCrew, i, j, q);
    }
    if r.Calls(k, false, j) {
      AutoCallIsWanted(r, k, j);
    }
  }

  // ---- how a worker starts and ends

  /** A worker that may connect goes to its checks; without an identity or the right it ends at once. */
  function FirstStage(known: bool, allowed: bool): Stage {
    if !known then Done(Rejoin.NotReady(Rejoin.DeviceUnknown))
    else if !allowed then Done(Rejoin.NotReady(Rejoin.LinkControlOff))
    else Checking
  }

  /** A connect put in flight by a step starts one worker behind the others, at the stage its permissions allow. */
  lemma RejoinConnectStarts(r: Run, k: nat)
    requires r.Valid() && k < |r.es| && r.es[k].input.Tick? && r.At(k).phase.Loop?
    requires !RejoinInFlight(r.At(k).rejoin) && RejoinInFlight(r.At(k + 1).rejoin)
    ensures var s, t, host := r.At(k), r.At(k + 1), SupervisorRouting.HostBy(r, k);
      t.rejoinCrew.jobs == s.rejoinCrew.jobs + [Job(t.rejoin.pending.value.seqNo,
                                                    FirstStage(Known(host), host.controlLink))]
  {
    var s, c := r.At(k), r.es[k].clock;
    assert r.Linked(k);
    hide Run.Valid, Step, Rejoin.Step, RejoinActs;
    SupervisorRouting.NetFollowsEvents(r, k);
    TickActs(s, c);
    RejoinStepShape(s.rejoin, Rejoin.Tick, c.now);
    hide Spawn;
    var n := Rejoin.Step(s.rejoin, Rejoin.Tick, c.now);
    ActsOnce(s.rejoinCrew, s.host, s.rejoin, n);
    SpawnStarts(s.rejoinCrew, Known(s.host), s.host.controlLink, n.state.pending.value.seqNo);
  }

  lemma ActsOnce(crew: Crew, host: Host, m: Rejoin.State, n: Rejoin.Next)
    requires RejoinShape(m, Rejoin.Tick, n) && !RejoinInFlight(m) && RejoinInFlight(n.state)
    ensures RejoinActs(crew, host, n.out) == Spawn(crew, Known(host), host.controlLink, n.state.pending.value.seqNo)
  {
    hide Spawn;
    assert n.out[..0] == [];
  }

  lemma SpawnStarts(crew: Crew, known: bool, allowed: bool, q: nat)
    ensures Spawn(crew, known, allowed, q).jobs == crew.jobs + [Job(q, FirstStage(known, allowed))]
  {}

  /** The same for auto-connect. */
  lemma AutoConnectStarts(r: Run, k: nat)
    requires r.Valid() && k < |r.es| && r.es[k].input.Tick? && r.At(k).phase.Loop?
    requires !AutoInFlight(r.At(k).auto) && AutoInFlight(r.At(k + 1).auto)
    ensures var s, t, host := r.At(k), r.At(k + 1), SupervisorRouting.HostBy(r, k);
      t.autoCrew.jobs == s.autoCrew.jobs + [Job(t.auto.pending.value.seqNo,
                                                FirstStage(Known(host), host.autoControlLink))]
  {
    var s, c := r.At(k), r.es[k].clock;
    assert r.Linked(k);
    hide Run.Valid, Step, AutoConnect.Step, AutoActs;
    SupervisorRouting.NetFollowsEvents(r, k);
    AutoTickActs(s, c);
    var flag := AutoConnect.SetRejoinPending(r.At(k + 1).rejoin.pending.Some?);
    var m := AutoConnect.Step(s.auto, flag, c.now);
    var n := AutoConnect.Step(m.state, AutoConnect.Tick, c.now);
    AutoStepShape(s.auto, flag, c.now);
    AutoStepShape(m.state, AutoConnect.Tick, c.now);
    hide Spawn;
    NothingToDo(s.autoCrew, s.host);
    AutoActsOnce(s.autoCrew, s.host, m.state, n);
    SpawnStarts(s.autoCrew, Known(s.host), s.host.autoControlLink, n.state.pending.value.seqNo);
  }

  lemma AutoActsOnce(crew: Crew, host: Host, m: AutoConnect.State, n: AutoConnect.Next)
    requires AutoShape(m, AutoConnect.Tick, n) && !AutoInFlight(m) && AutoInFlight(n.state)
    ensures AutoActs(crew, host, n.out) == Spawn(crew, Known(host), host.autoControlLink, n.state.pending.value.seqNo)
  {
    hide Spawn, AutoActs;
    AutoActsConnect(crew, host, m, AutoConnect.Tick, n);
  }

  /** What a tick of the main loop has done when its readback timers are looked at. */
  function Ticked(s: State, c: Clock): State {
    var t := EarEvent(HandoffEvent(s, Handoff.Tick, c), EarMedia.Tick, c);
    AutoEvent(RejoinEvent(t, Rejoin.Tick, c), AutoConnect.Tick, c)
  }

  lemma TimersKeepCrews(s: State, c: Clock)
    ensures var t := EndWake(TickVerification(s, c));
      t.rejoin == s.rejoin && t.rejoinCrew == s.rejoinCrew && t.auto == s.auto && t.autoCrew == s.autoCrew
  {
    hide HandoffEvent, Store.Step;
    HandoffKeeps(s, c);
    HandoffKeeps(Apply(s.(timers := s.timers.(readbackAt := None, verifyBudget := None)), Store.VerifyCompleted), c);
  }

  lemma HandoffKeeps(s: State, c: Clock)
    ensures var t := HandoffEvent(s, Handoff.OpeningSettled, c);
      t.rejoin == s.rejoin && t.rejoinCrew == s.rejoinCrew && t.auto == s.auto && t.autoCrew == s.autoCrew
      && t.log == s.log
  {
    hide Queued, Handoff.Step;
  }

  lemma TickIsTicked(s: State, c: Clock)
    requires s.phase.Loop?
    ensures var t, u := Step(s, Tick, c), Ticked(s, c);
      t.rejoin == u.rejoin && t.rejoinCrew == u.rejoinCrew && t.auto == u.auto && t.autoCrew == u.autoCrew
  {
    hide Ticked, TickVerification, EndWake;
    TimersKeepCrews(Ticked(s, c), c);
    assert OnTick(s, c) == TickVerification(Ticked(s, c), c) by { TickUnfolds(s, c); }
  }

  lemma TickUnfolds(s: State, c: Clock)
    ensures OnTick(s, c) == TickVerification(Ticked(s, c), c)
  {
    hide TickVerification, HandoffEvent, EarEvent, RejoinEvent, AutoEvent;
  }

  /** A tick that the main loop hears moves each crew by what its machine answers. */
  lemma TickActs(s: State, c: Clock)
    requires s.phase.Loop?
    ensures var t, n := Step(s, Tick, c), Rejoin.Step(s.rejoin, Rejoin.Tick, c.now);
      t.rejoin == n.state && t.rejoinCrew == RejoinActs(s.rejoinCrew, s.host, n.out)
  {
    hide Rejoin.Step, AutoConnect.Step, RejoinActs, AutoActs, NextSequence, Shown, Step, Queued, AudioOnAirPods;
    TickIsTicked(s, c);
    hide EarEvent, HandoffEvent;
    TickStays(s, c);
  }

  lemma AutoTickActs(s: State, c: Clock)
    requires s.phase.Loop?
    ensures var t := Step(s, Tick, c);
      var m := AutoConnect.Step(s.auto, AutoConnect.SetRejoinPending(t.rejoin.pending.Some?), c.now);
      var n := AutoConnect.Step(m.state, AutoConnect.Tick, c.now);
      t.auto == n.state && t.autoCrew == AutoActs(AutoActs(s.autoCrew, s.host, m.out), s.host, n.out)
  {
    hide Rejoin.Step, AutoConnect.Step, RejoinActs, AutoActs, NextSequence, Shown, Step, Queued, AudioOnAirPods;
    TickIsTicked(s, c);
    hide EarEvent, HandoffEvent;
    TickStays(s, c);
  }

  lemma TickStays(s: State, c: Clock)
    ensures var t := EarEvent(HandoffEvent(s, Handoff.Tick, c), EarMedia.Tick, c);
      t.rejoin == s.rejoin && t.rejoinCrew == s.rejoinCrew && t.auto == s.auto && t.autoCrew == s.autoCrew
      && t.host == s.host
  {
    hide Queued, AudioOnAirPods;
  }

  // ---- what becomes of a call

  /** The last thing its machine has heard is this outcome of this sequence. */
  ghost predicate LastHeard(s: State, rejoin: bool, q: nat, outcome: Rejoin.Outcome) {
    if rejoin then
      s.log.rejoin != [] && s.log.rejoin[|s.log.rejoin| - 1].event == Rejoin.ConnectFinished(q, outcome)
    else
      s.log.auto != [] && s.log.auto[|s.log.auto| - 1].event == AutoConnect.ConnectFinished(q, outcome)
  }

  /** What a call ends with is what its machine is told, for the sequence the call was made for. */
  lemma OutcomeIsHeard(r: Run, k: nat, rejoin: bool, j: nat, outcome: Rejoin.Outcome)
    requires r.Valid() && k + 1 < |r.es| && r.es[k].input == WorkerEnds(rejoin, j, outcome)
    requires var crew := if rejoin then r.At(k).rejoinCrew else r.At(k).autoCrew;
             j < |crew.jobs| && crew.jobs[j].stage.Calling?
    requires r.es[k + 1].input == WorkerReports(rejoin, j) && r.At(k + 1).phase.Loop?
    ensures var crew := if rejoin then r.At(k).rejoinCrew else r.At(k).autoCrew;
            LastHeard(r.At(k + 2), rejoin, crew.jobs[j].seqNo, outcome)
  {
    hide Step, Initial, LastHeard;
    assert r.Linked(k);
    var crew := if rejoin then r.At(k).rejoinCrew else r.At(k).autoCrew;
    EndIsKept(r.At(k), rejoin, j, outcome, r.es[k].clock);
    ReportIsHeard(r, k + 1, rejoin, j, crew.jobs[j].seqNo, outcome);
  }

  lemma ReportIsHeard(r: Run, k: nat, rejoin: bool, j: nat, q: nat, outcome: Rejoin.Outcome)
    requires r.Valid() && k < |r.es| && r.es[k].input == WorkerReports(rejoin, j) && r.At(k).phase.Loop?
    requires var crew := if rejoin then r.At(k).rejoinCrew else r.At(k).autoCrew;
             j < |crew.jobs| && crew.jobs[j] == Job(q, Done(outcome))
    ensures LastHeard(r.At(k + 1), rejoin, q, outcome)
  {
    hide Step, Manned, Run.Valid, Run.Linked;
    SupervisorRouting.StepHears(r, k);
    var now := r.es[k].clock.now;
    if rejoin {
      var e := Rejoin.ConnectFinished(q, outcome);
      assert SupervisorRouting.CarriedAt(r, k).rejoin == [e];
      RejoinLast(r.At(k).log.rejoin, r.At(k + 1).log.rejoin, [], e, now);
    } else {
      var e := AutoConnect.ConnectFinished(q, outcome);
      var flag := AutoConnect.SetRejoinPending(r.At(k).rejoin.pending.Some?);
      assert SupervisorRouting.CarriedAt(r, k).auto == [flag, e];
      AutoLast(r.At(k).log.auto, r.At(k + 1).log.auto, [flag], e, now);
    }
  }

  lemma RejoinLast(a: seq<RejoinRuns.Entry>, b: seq<RejoinRuns.Entry>, before: seq<Rejoin.Event>, e: Rejoin.Event,
                   now: Millis)
    requires RejoinTold(b) == RejoinTold(a) + Stamped(before + [e], now)
    ensures b != [] && b[|b| - 1].event == e
  {
    assert |RejoinTold(b)| == |b|;
    assert RejoinTold(b)[|b| - 1] == (e, now);
  }

  lemma AutoLast(a: seq<AutoConnectRuns.Entry>, b: seq<AutoConnectRuns.Entry>, before: seq<AutoConnect.Event>,
                 e: AutoConnect.Event, now: Millis)
    requires AutoTold(b) == AutoTold(a) + Stamped(before + [e], now)
    ensures b != [] && b[|b| - 1].event == e
  {
    assert |AutoTold(b)| == |b|;
    assert AutoTold(b)[|b| - 1] == (e, now);
  }

  lemma EndIsKept(s: State, rejoin: bool, j: nat, outcome: Rejoin.Outcome, c: Clock)
    requires var crew := if rejoin then s.rejoinCrew else s.autoCrew;
             j < |crew.jobs| && crew.jobs[j].stage.Calling?
    ensures var t := Step(s, WorkerEnds(rejoin, j, outcome), c);
      var crew, after := if rejoin then s.rejoinCrew else s.autoCrew, if rejoin then t.rejoinCrew else t.autoCrew;
      j < |after.jobs| && after.jobs[j] == Job(crew.jobs[j].seqNo, Done(outcome))
      && t.log == s.log && t.phase == s.phase && t.rejoin == s.rejoin
  {}
}
