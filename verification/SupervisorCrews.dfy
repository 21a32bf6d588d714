/**
 The connect workers beside the decisions of the two machines: every connect asked for is one worker, every worker ends
 in one outcome that is heard, and the sequence in flight always has its own.
 */
module SupervisorCrews {
  import opened Prelude
  import opened Supervisor
  import opened SupervisorSteps
  import Rejoin
  import RejoinRuns
  import AutoConnect
  import AutoConnectRuns

  // ---- counting

  /** Connects for sequence `q` among the actions. */
  function RejoinConnects(out: seq<Rejoin.Action>, q: nat): nat {
    if out == [] then 0
    else
      var last := out[|out| - 1];
      RejoinConnects(out[..|out| - 1], q) + if last.Connect? && last.seqNo == q then 1 else 0
  }

  function AutoConnects(out: seq<AutoConnect.Action>, q: nat): nat {
    if out == [] then 0
    else
      var last := out[|out| - 1];
      AutoConnects(out[..|out| - 1], q) + if last.Connect? && last.seqNo == q then 1 else 0
  }

  /** Connects for `q` the rejoin machine has asked for. */
  function RejoinAsked(log: seq<RejoinRuns.Entry>, q: nat): nat {
    if log == [] then 0 else RejoinAsked(log[..|log| - 1], q) + RejoinConnects(log[|log| - 1].out, q)
  }

  function AutoAsked(log: seq<AutoConnectRuns.Entry>, q: nat): nat {
    if log == [] then 0 else AutoAsked(log[..|log| - 1], q) + AutoConnects(log[|log| - 1].out, q)
  }

  /** Outcomes for `q` the rejoin machine has heard. */
  function RejoinHeard(log: seq<RejoinRuns.Entry>, q: nat): nat {
    if log == [] then 0
    else
      var event := log[|log| - 1].event;
      RejoinHeard(log[..|log| - 1], q) + if event.ConnectFinished? && event.seqNo == q then 1 else 0
  }

  function AutoHeard(log: seq<AutoConnectRuns.Entry>, q: nat): nat {
    if log == [] then 0
    else
      var event := log[|log| - 1].event;
      AutoHeard(log[..|log| - 1], q) + if event.ConnectFinished? && event.seqNo == q then 1 else 0
  }

  /** Workers of `q`. */
  function WorkersFor(jobs: seq<Job>, q: nat): nat {
    if jobs == [] then 0
    else WorkersFor(jobs[..|jobs| - 1], q) + if jobs[|jobs| - 1].seqNo == q then 1 else 0
  }

  // ---- what holds

  /** A worker of `q` is there, and if it is still checking it will find itself wanted. */
  ghost predicate Staffed(crew: Crew, q: nat) {
    exists i :: 0 <= i < |crew.jobs| && Serves(crew, i, q)
  }

  predicate Serves(crew: Crew, i: nat, q: nat)
    requires i < |crew.jobs|
  {
    crew.jobs[i].seqNo == q && (crew.jobs[i].stage.Checking? ==> crew.epoch == q)
  }

  ghost predicate RejoinManned(crew: Crew, m: Rejoin.State, log: seq<RejoinRuns.Entry>) {
    (forall q: nat :: RejoinAsked(log, q) == WorkersFor(crew.jobs, q) + RejoinHeard(log, q))
    && (RejoinInFlight(m) ==> Staffed(crew, m.pending.value.seqNo))
  }

  ghost predicate AutoManned(crew: Crew, m: AutoConnect.State, log: seq<AutoConnectRuns.Entry>) {
    (forall q: nat :: AutoAsked(log, q) == WorkersFor(crew.jobs, q) + AutoHeard(log, q))
    && (AutoInFlight(m) ==> Staffed(crew, m.pending.value.seqNo))
  }

  ghost predicate Manned(s: State) {
    RejoinManned(s.rejoinCrew, s.rejoin, s.log.rejoin) && AutoManned(s.autoCrew, s.auto, s.log.auto)
  }

  /** As `RejoinManned`, but for one worker of `q0` that has just left. */
  ghost predicate RejoinShort(crew: Crew, m: Rejoin.State, log: seq<RejoinRuns.Entry>, q0: nat) {
    (forall q: nat :: RejoinAsked(log, q) == WorkersFor(crew.jobs, q) + RejoinHeard(log, q) + if q == q0 then 1 else 0)
    && (RejoinInFlight(m) && m.pending.value.seqNo != q0 ==> Staffed(crew, m.pending.value.seqNo))
  }

  ghost predicate AutoShort(crew: Crew, m: AutoConnect.State, log: seq<AutoConnectRuns.Entry>, q0: nat) {
    (forall q: nat :: AutoAsked(log, q) == WorkersFor(crew.jobs, q) + AutoHeard(log, q) + if q == q0 then 1 else 0)
    && (AutoInFlight(m) && m.pending.value.seqNo != q0 ==> Staffed(crew, m.pending.value.seqNo))
  }

  // ---- spawning

  lemma SpawnCounts(crew: Crew, known: bool, allowed: bool, seqNo: nat, q: nat)
    ensures WorkersFor(Spawn(crew, known, allowed, seqNo).jobs, q)
         == WorkersFor(crew.jobs, q) + if q == seqNo then 1 else 0
  {
    var t := Spawn(crew, known, allowed, seqNo);
    assert t.jobs[..|t.jobs| - 1] == crew.jobs;
  }

  lemma SpawnStaffs(crew: Crew, known: bool, allowed: bool, seqNo: nat)
    ensures Staffed(Spawn(crew, known, allowed, seqNo), seqNo)
  {
    assert Serves(Spawn(crew, known, allowed, seqNo), |crew.jobs|, seqNo);
  }

  lemma {:induction false} RejoinActsCount(crew: Crew, host: Host, out: seq<Rejoin.Action>, q: nat)
    ensures WorkersFor(RejoinActs(crew, host, out).jobs, q) == WorkersFor(crew.jobs, q) + RejoinConnects(out, q)
  {
    hide Spawn;
    if out != [] {
      var before := out[..|out| - 1];
      RejoinActsCount(crew, host, before, q);
      var last := out[|out| - 1];
      if last.Connect? {
        SpawnCounts(RejoinActs(crew, host, before), Known(host), host.controlLink, last.seqNo, q);
      }
    }
  }

  lemma {:induction false} AutoActsCount(crew: Crew, host: Host, out: seq<AutoConnect.Action>, q: nat)
    ensures WorkersFor(AutoActs(crew, host, out).jobs, q) == WorkersFor(crew.jobs, q) + AutoConnects(out, q)
  {
    hide Spawn;
    if out != [] {
      var before := out[..|out| - 1];
      AutoActsCount(crew, host, before, q);
      var last := out[|out| - 1];
      if last.Connect? {
        SpawnCounts(AutoActs(crew, host, before), Known(host), host.autoControlLink, last.seqNo, q);
      }
    }
  }

  // ---- one event of a machine

  /** A sequence that is cancelled or answered is not in flight afterwards. */
  lemma RejoinLands(m: Rejoin.State, event: Rejoin.Event, now: Millis)
    ensures var n := Rejoin.Step(m, event, now);
      RejoinInFlight(n.state) && !RejoinRuns.ConnectsIn(n.out) ==>
        n.state.pending == m.pending && !CancelledIn(n.out)
        && (event.ConnectFinished? ==> event.seqNo != m.pending.value.seqNo)
  {
    var n := Rejoin.Step(m, event, now);
    hide Rejoin.Qualify, Rejoin.PingPong, Rejoin.Newest, Rejoin.BusyRetry;
    assert n.out != [] ==> n.out[0] in n.out && n.out[|n.out| - 1] in n.out;
    assert forall a :: a in n.out ==> a == n.out[0] || a == n.out[|n.out| - 1];
  }

  lemma AutoLands(m: AutoConnect.State, event: AutoConnect.Event, now: Millis)
    ensures var n := AutoConnect.Step(m, event, now);
      AutoInFlight(n.state) && !AutoConnectRuns.ConnectsIn(n.out) ==>
        n.state.pending == m.pending && !ZeroesIn(n.out)
        && (event.ConnectFinished? ==> event.seqNo != m.pending.value.seqNo)
  {
    if event.ConnectFinished? {
      AutoLandsFinished(m, event, now);
    } else {
      AutoLandsOther(m, event, now);
    }
  }

  lemma AutoLandsFinished(m: AutoConnect.State, event: AutoConnect.Event, now: Millis)
    requires event.ConnectFinished?
    ensures var n := AutoConnect.Step(m, event, now);
      AutoInFlight(n.state) && !AutoConnectRuns.ConnectsIn(n.out) ==>
        n.state.pending == m.pending && !ZeroesIn(n.out) && event.seqNo != m.pending.value.seqNo
  {
    hide AutoConnect.NotAFailure, AutoConnect.Backoff;
    var n := AutoConnect.Step(m, event, now);
    assert n.out != [] ==> n.out[0] in n.out && forall a :: a in n.out ==> a == n.out[0];
  }

  lemma AutoLandsOther(m: AutoConnect.State, event: AutoConnect.Event, now: Millis)
    requires !event.ConnectFinished?
    ensures var n := AutoConnect.Step(m, event, now);
      AutoInFlight(n.state) && !AutoConnectRuns.ConnectsIn(n.out) ==>
        n.state.pending == m.pending && !ZeroesIn(n.out)
  {
    hide AutoConnect.Absent, AutoConnect.Weak;
    var n := AutoConnect.Step(m, event, now);
    assert n.out != [] ==> n.out[0] in n.out && n.out[|n.out| - 1] in n.out;
    assert forall a :: a in n.out ==> a == n.out[0] || a == n.out[|n.out| - 1];
  }

  lemma RejoinFoldMans(s: State, event: Rejoin.Event, c: Clock)
    requires if event.ConnectFinished? then RejoinShort(s.rejoinCrew, s.rejoin, s.log.rejoin, event.seqNo)
             else RejoinManned(s.rejoinCrew, s.rejoin, s.log.rejoin)
    ensures var t := RejoinFold(s, event, c); RejoinManned(t.rejoinCrew, t.rejoin, t.log.rejoin)
  {
    var n := Rejoin.Step(s.rejoin, event, c.now);
    var t := RejoinFold(s, event, c);
    hide Rejoin.Step, Staffed;
    assert t.log.rejoin[..|t.log.rejoin| - 1] == s.log.rejoin;
    forall q: nat
      ensures RejoinAsked(t.log.rejoin, q) == WorkersFor(t.rejoinCrew.jobs, q) + RejoinHeard(t.log.rejoin, q)
    {
      RejoinActsCount(s.rejoinCrew, s.host, n.out, q);
    }
    if RejoinInFlight(t.rejoin) {
      RejoinStaffs(s, event, c);
    }
  }

  lemma RejoinStaffs(s: State, event: Rejoin.Event, c: Clock)
    requires RejoinInFlight(RejoinFold(s, event, c).rejoin)
    requires RejoinInFlight(s.rejoin) && (event.ConnectFinished? ==> s.rejoin.pending.value.seqNo != event.seqNo) ==>
      Staffed(s.rejoinCrew, s.rejoin.pending.value.seqNo)
    ensures var t := RejoinFold(s, event, c); Staffed(t.rejoinCrew, t.rejoin.pending.value.seqNo)
  {
    var n := Rejoin.Step(s.rejoin, event, c.now);
    RejoinStepShape(s.rejoin, event, c.now);
    RejoinLands(s.rejoin, event, c.now);
    hide Rejoin.Step, Staffed, Spawn;
    if RejoinRuns.ConnectsIn(n.out) {
      var q := s.rejoin.pending.value.seqNo;
      assert n.out[..0] == [];
      assert RejoinActs(s.rejoinCrew, s.host, n.out) == Spawn(s.rejoinCrew, Known(s.host), s.host.controlLink, q);
      SpawnStaffs(s.rejoinCrew, Known(s.host), s.host.controlLink, q);
    } else {
      RejoinActsQuietly(s.rejoinCrew, s.host, n.out);
    }
  }

  lemma AutoFoldMans(s: State, event: AutoConnect.Event, c: Clock)
    requires if event.ConnectFinished? then AutoShort(s.autoCrew, s.auto, s.log.auto, event.seqNo)
             else AutoManned(s.autoCrew, s.auto, s.log.auto)
    ensures var t := AutoFold(s, event, c); AutoManned(t.autoCrew, t.auto, t.log.auto)
  {
    var n := AutoConnect.Step(s.auto, event, c.now);
    var t := AutoFold(s, event, c);
    hide AutoConnect.Step, Staffed;
    assert t.log.auto[..|t.log.auto| - 1] == s.log.auto;
    forall q: nat ensures AutoAsked(t.log.auto, q) == WorkersFor(t.autoCrew.jobs, q) + AutoHeard(t.log.auto, q) {
      AutoActsCount(s.autoCrew, s.host, n.out, q);
    }
    if AutoInFlight(t.auto) {
      AutoStaffs(s, event, c);
    }
  }

  lemma AutoStaffs(s: State, event: AutoConnect.Event, c: Clock)
    requires AutoInFlight(AutoFold(s, event, c).auto)
    requires AutoInFlight(s.auto) && (event.ConnectFinished? ==> s.auto.pending.value.seqNo != event.seqNo) ==>
      Staffed(s.autoCrew, s.auto.pending.value.seqNo)
    ensures var t := AutoFold(s, event, c); Staffed(t.autoCrew, t.auto.pending.value.seqNo)
  {
    var n := AutoConnect.Step(s.auto, event, c.now);
    AutoStepShape(s.auto, event, c.now);
    AutoLands(s.auto, event, c.now);
    hide AutoConnect.Step, Staffed, Spawn;
    if AutoConnectRuns.ConnectsIn(n.out) {
      AutoActsConnect(s.autoCrew, s.host, s.auto, event, n);
      SpawnStaffs(s.autoCrew, Known(s.host), s.host.autoControlLink, n.state.pending.value.seqNo);
    } else {
      AutoActsQuietly(s.autoCrew, s.host, n.out);
    }
  }

  // ---- workers that move or leave

  lemma {:induction false} SameWorkers(a: seq<Job>, b: seq<Job>, q: nat)
    requires |a| == |b| && forall i :: 0 <= i < |a| ==> a[i].seqNo == b[i].seqNo
    ensures WorkersFor(a, q) == WorkersFor(b, q)
  {
    if a != [] {
      SameWorkers(a[..|a| - 1], b[..|b| - 1], q);
    }
  }

  /** A worker that checks or ends stays the worker it is. */
  lemma WorkerMans(s: State, input: Input)
    requires Manned(s)
    ensures Manned(OnWorker(s, input))
  {
    hide RejoinAsked, RejoinHeard, AutoAsked, AutoHeard;
    var t := OnWorker(s, input);
    var job, outcome := if input.WorkerChecks? || input.WorkerEnds? then input.job else 0,
                        if input.WorkerEnds? then input.outcome else Rejoin.Busy;
    MovedMans(s.rejoinCrew, job, outcome);
    MovedMans(s.autoCrew, job, outcome);
    hide Check, End, WorkersFor, Staffed;
  }

  lemma MovedMans(crew: Crew, job: nat, outcome: Rejoin.Outcome)
    ensures forall q: nat :: WorkersFor(Check(crew, job).jobs, q) == WorkersFor(crew.jobs, q)
    ensures forall q: nat :: WorkersFor(End(crew, job, outcome).jobs, q) == WorkersFor(crew.jobs, q)
    ensures forall q: nat :: Staffed(crew, q) ==> Staffed(Check(crew, job), q)
    ensures forall q: nat :: Staffed(crew, q) ==> Staffed(End(crew, job, outcome), q)
  {
    CheckFits(crew, job, outcome);
    var a, b := Check(crew, job), End(crew, job, outcome);
    assert SameJobs(crew, a) && SameJobs(crew, b);
    forall q: nat ensures WorkersFor(a.jobs, q) == WorkersFor(crew.jobs, q) { SameWorkers(a.jobs, crew.jobs, q); }
    forall q: nat ensures WorkersFor(b.jobs, q) == WorkersFor(crew.jobs, q) { SameWorkers(b.jobs, crew.jobs, q); }
    forall q: nat | Staffed(crew, q) ensures Staffed(a, q) && Staffed(b, q) {
      var i: nat :| i < |crew.jobs| && Serves(crew, i, q);
      assert Serves(a, i, q) && Serves(b, i, q);
    }
  }

  lemma {:induction false} LeavingCounts(jobs: seq<Job>, job: nat, q: nat)
    requires job < |jobs|
    ensures WorkersFor(jobs, q)
         == WorkersFor(jobs[..job] + jobs[job + 1..], q) + if jobs[job].seqNo == q then 1 else 0
  {
    var last := |jobs| - 1;
    var rest := jobs[..job] + jobs[job + 1..];
    if job < last {
      LeavingCounts(jobs[..last], job, q);
      assert rest[..|rest| - 1] == jobs[..last][..job] + jobs[..last][job + 1..];
      assert rest[|rest| - 1] == jobs[last];
    } else {
      assert rest == jobs[..last];
    }
  }

  lemma LeavingStaffs(crew: Crew, job: nat, q: nat)
    requires job < |crew.jobs| && Staffed(crew, q) && crew.jobs[job].seqNo != q
    ensures Staffed(Without(crew, job), q)
  {
    var i: nat :| i < |crew.jobs| && Serves(crew, i, q);
    var k := if i < job then i else i - 1;
    assert Serves(Without(crew, job), k, q);
  }

  lemma RejoinLeaves(s: State, job: nat)
    requires RejoinManned(s.rejoinCrew, s.rejoin, s.log.rejoin) && job < |s.rejoinCrew.jobs|
    ensures RejoinShort(Without(s.rejoinCrew, job), s.rejoin, s.log.rejoin, s.rejoinCrew.jobs[job].seqNo)
  {
    hide RejoinAsked, RejoinHeard, Staffed, WorkersFor;
    var q0 := s.rejoinCrew.jobs[job].seqNo;
    forall q: nat {
      LeavingCounts(s.rejoinCrew.jobs, job, q);
    }
    if RejoinInFlight(s.rejoin) && s.rejoin.pending.value.seqNo != q0 {
      LeavingStaffs(s.rejoinCrew, job, s.rejoin.pending.value.seqNo);
    }
  }

  lemma AutoLeaves(s: State, job: nat)
    requires AutoManned(s.autoCrew, s.auto, s.log.auto) && job < |s.autoCrew.jobs|
    ensures AutoShort(Without(s.autoCrew, job), s.auto, s.log.auto, s.autoCrew.jobs[job].seqNo)
  {
    hide AutoAsked, AutoHeard, Staffed, WorkersFor;
    var q0 := s.autoCrew.jobs[job].seqNo;
    forall q: nat {
      LeavingCounts(s.autoCrew.jobs, job, q);
    }
    if AutoInFlight(s.auto) && s.auto.pending.value.seqNo != q0 {
      LeavingStaffs(s.autoCrew, job, s.auto.pending.value.seqNo);
    }
  }
}
