/**
 What every run of the supervisor keeps, however link events, commands, ticks, packets, workers and dials interleave.
 */
module SupervisorRuns {
  import opened Prelude
  import opened Supervisor
  import opened SupervisorSteps
  import Rejoin
  import RejoinRuns
  import AutoConnect
  import AutoConnectRuns
  import Handoff
  import HandoffRuns
  import EarMedia
  import EarMediaRuns
  import Store
  import StoreRuns

  /** One step, its clock and the state it left. */
  datatype Entry = Entry(input: Input, clock: Clock, post: State)

  datatype Run = Run(init: State, es: seq<Entry>) {
    function At(k: nat): State
      requires k <= |es|
    {
      if k == 0 then init else es[k - 1].post
    }

    ghost predicate Linked(k: nat)
      requires k < |es|
    {
      es[k].post == Step(At(k), es[k].input, es[k].clock)
    }

    ghost predicate Valid() {
      Initial(init)
      && (forall k {:trigger Linked(k)} :: 0 <= k < |es| ==> Linked(k))
      && (forall i, j :: 0 <= i <= j < |es| ==> es[i].clock.now <= es[j].clock.now)
    }

    function Now(k: nat): Millis
      requires k <= |es|
    {
      if k == 0 then 0 else es[k - 1].clock.now
    }

    /** The rejoin machine's part of the first `k` steps, as a run of its own. */
    function RejoinRun(k: nat): RejoinRuns.Run
      requires k <= |es|
    {
      RejoinRuns.Run(init.rejoin, At(k).log.rejoin)
    }

    function AutoRun(k: nat): AutoConnectRuns.Run
      requires k <= |es|
    {
      AutoConnectRuns.Run(init.auto, At(k).log.auto)
    }

    function HandoffRun(k: nat): HandoffRuns.Run
      requires k <= |es|
    {
      HandoffRuns.Run(init.desk.handoff, At(k).desk.log.handoff)
    }

    function EarRun(k: nat): EarMediaRuns.Run
      requires k <= |es|
    {
      EarMediaRuns.Run(init.desk.ear, At(k).desk.log.ear)
    }

    function StoreRun(k: nat): StoreRuns.Run
      requires k <= |es|
    {
      StoreRuns.Run(init.store.device.address, At(k).log.store)
    }

    /** In step `k` job `j` of the rejoin or auto-connect crew passes its last check and calls `Device1.Connect`. */
    ghost predicate Calls(k: nat, rejoin: bool, j: nat)
      requires k < |es|
    {
      var before := if rejoin then At(k).rejoinCrew else At(k).autoCrew;
      var after := if rejoin then At(k + 1).rejoinCrew else At(k + 1).autoCrew;
      es[k].input == WorkerChecks(rejoin, j) && j < |before.jobs| && before.jobs[j].stage.Checking?
      && j < |after.jobs| && after.jobs[j] == Job(before.jobs[j].seqNo, Calling)
    }

    /** A link event handled in step `k` after which nothing begun before may be completed. */
    predicate Breaks(k: nat)
      requires k < |es|
    {
      es[k].input.Link? && Listens(At(k).phase) && Boundary(At(k), es[k].input.event)
    }

    /** Step `k` begins a dial: the permission is taken and the generation captured. */
    predicate Dials(k: nat, kind: DialKind)
      requires k < |es|
    {
      !Dialing(At(k).phase) && At(k + 1).phase == Authorizing(kind, At(k + 1).radio.generation)
    }

    predicate Promotes(k: nat)
      requires k < |es|
    {
      !At(k).radio.sock && At(k + 1).radio.sock
    }

    /** Step `k` sees the link come up. */
    predicate ComesUp(k: nat)
      requires k < |es|
    {
      !At(k).radio.acl && At(k + 1).radio.acl
    }

    function AutomaticDials(k: nat): nat
      requires k <= |es|
    {
      if k == 0 then 0 else AutomaticDials(k - 1) + if Dials(k - 1, Automatic) then 1 else 0
    }

    function LinkEdges(k: nat): nat
      requires k <= |es|
    {
      if k == 0 then 0 else LinkEdges(k - 1) + if ComesUp(k - 1) then 1 else 0
    }

    /** Step `k` sends a write that asks for a verdict. */
    predicate Wrote(k: nat)
      requires k < |es|
    {
      Writes(At(k), es[k].input)
    }

    /** When the last write went out, in the first `k` steps. */
    function LastWrite(k: nat): Option<Millis>
      requires k <= |es|
    {
      if k == 0 then None else if Wrote(k - 1) then Some(es[k - 1].clock.now) else LastWrite(k - 1)
    }

    /** A readback window was closed since the last write, in the first `k` steps. */
    function FinishedSinceWrite(k: nat): bool
      requires k <= |es|
    {
      if k == 0 || Wrote(k - 1) then false
      else Finishes(At(k - 1), es[k - 1].input, es[k - 1].clock) || FinishedSinceWrite(k - 1)
    }

    /** The readback timers are looked at in the tick that begins in step `i`, and that is over after step `k`. */
    predicate TickOver(i: nat, k: nat)
      requires i <= k < |es|
    {
      At(i).phase.Loop? && es[i].input.Tick? && VerifyStarted(At(k + 1).phase).None?
      && forall m :: i < m <= k ==> VerifyStarted(At(m).phase).Some?
    }
  }

  ghost predicate Initial(s: State) {
    exists enabled, allowed, known, ouis, config, takeOverOnPlay, ear, address, host ::
      s == NewState(Rejoin.NewState(enabled, allowed, known, ouis), config, NewDesk(enabled, takeOverOnPlay, ear),
                    address, host)
  }

  function OriginOf(init: State): Origin {
    Origin(init.rejoin, init.auto, init.desk.handoff, init.desk.ear, init.store.device.address)
  }

  lemma InitialOk(init: State)
    requires Initial(init)
    ensures Ok(init, OriginOf(init), 0) && Task(init)
  {
    var enabled, allowed, known, ouis, config, takeOverOnPlay, ear, address, host :|
      init == NewState(Rejoin.NewState(enabled, allowed, known, ouis), config, NewDesk(enabled, takeOverOnPlay, ear),
                       address, host);
    hide Initial;
    assert RejoinRuns.Initial(init.rejoin);
    NewOk(Rejoin.NewState(enabled, allowed, known, ouis), config, enabled, takeOverOnPlay, ear, address, host);
  }

  lemma NewOk(rejoin: Rejoin.State, config: AutoConnect.Config, enabled: bool, takeOverOnPlay: bool,
              ear: EarMedia.Config, address: string, host: Host)
    requires RejoinRuns.Initial(rejoin)
    ensures var s := NewState(rejoin, config, NewDesk(enabled, takeOverOnPlay, ear), address, host);
            rejoin.pending.None? && Ok(s, OriginOf(s), 0) && Task(s)
  {
    var s := NewState(rejoin, config, NewDesk(enabled, takeOverOnPlay, ear), address, host);
    NothingLogged(rejoin, config, enabled, takeOverOnPlay, ear, address);
    hide RejoinLogged, AutoLogged, StoreLogged, HandoffLogged, EarLogged, RejoinRuns.Initial;
    NothingPending(rejoin);
    assert s.store.status == map[];
  }

  lemma NothingLogged(rejoin: Rejoin.State, config: AutoConnect.Config, enabled: bool, takeOverOnPlay: bool,
                      ear: EarMedia.Config, address: string)
    requires RejoinRuns.Initial(rejoin)
    ensures RejoinLogged([], rejoin, rejoin, 0)
    ensures var a := AutoConnect.NewState(config); AutoLogged([], a, a, 0)
    ensures var h := Handoff.NewState(enabled, takeOverOnPlay); HandoffLogged([], h, h, 0)
    ensures var e := EarMedia.NewState(ear); EarLogged([], e, e, 0)
    ensures StoreLogged([], Store.NewState(address), address)
  {
    hide RejoinRuns.Initial, AutoConnect.NewState, Handoff.NewState, EarMedia.NewState;
  }

  lemma NothingPending(rejoin: Rejoin.State)
    requires RejoinRuns.Initial(rejoin)
    ensures rejoin.pending.None?
  {}

  /** Every sequence of inputs at any non-decreasing clock readings is a run. */
  lemma {:induction false} EveryInputRuns(init: State, inputs: seq<Input>, clocks: seq<Clock>) returns (r: Run)
    requires Initial(init) && |inputs| == |clocks|
    requires forall i, j :: 0 <= i <= j < |clocks| ==> clocks[i].now <= clocks[j].now
    ensures r.Valid() && r.init == init && |r.es| == |inputs|
    ensures forall k :: 0 <= k < |inputs| ==> r.es[k].input == inputs[k] && r.es[k].clock == clocks[k]
  {
    hide Step, Initial;
    var n := |inputs|;
    if n == 0 {
      return Run(init, []);
    }
    var p := EveryInputRuns(init, inputs[..n - 1], clocks[..n - 1]);
    r := Run(init, p.es + [Entry(inputs[n - 1], clocks[n - 1], Step(p.At(n - 1), inputs[n - 1], clocks[n - 1]))]);
    forall k | 0 <= k < n ensures r.Linked(k) {
      assert r.At(k) == p.At(k);
      assert k < n - 1 ==> p.Linked(k);
    }
  }

  lemma {:induction false} Reached(r: Run, k: nat)
    requires r.Valid() && k <= |r.es|
    ensures Ok(r.At(k), OriginOf(r.init), r.Now(k)) && Task(r.At(k))
    decreases k, 0
  {
    hide Ok, Initial, Step;
    if k == 0 {
      InitialOk(r.init);
    } else {
      Took(r, k - 1);
    }
  }

  /** The step behind entry `k`. */
  lemma {:induction false} Took(r: Run, k: nat)
    requires r.Valid() && k < |r.es|
    ensures Ok(r.At(k), OriginOf(r.init), r.es[k].clock.now)
    ensures Keeps(r.At(k), r.At(k + 1), OriginOf(r.init), r.es[k].clock.now)
    ensures TaskMoved(r.At(k), r.es[k].input, r.es[k].clock, r.At(k + 1))
    decreases k, 1
  {
    hide Ok, Initial, Step, TaskMoved;
    Reached(r, k);
    Later(r.At(k), OriginOf(r.init), r.Now(k), r.es[k].clock.now);
    assert r.Linked(k);
    StepOk(r.At(k), r.es[k].input, r.es[k].clock, OriginOf(r.init));
  }

  /** Each part of the supervisor takes only its own steps: whatever is proved of its runs holds here. */
  lemma PartsRun(r: Run, k: nat)
    requires r.Valid() && k <= |r.es|
    ensures r.RejoinRun(k).Valid() && r.RejoinRun(k).At(|r.RejoinRun(k).es|) == r.At(k).rejoin
    ensures r.AutoRun(k).Valid() && r.AutoRun(k).At(|r.AutoRun(k).es|) == r.At(k).auto
    ensures r.HandoffRun(k).Valid() && r.HandoffRun(k).At(|r.HandoffRun(k).es|) == r.At(k).desk.handoff
    ensures r.EarRun(k).Valid() && r.EarRun(k).At(|r.EarRun(k).es|) == r.At(k).desk.ear
    ensures r.StoreRun(k).Valid() && r.StoreRun(k).At(|r.StoreRun(k).es|) == r.At(k).store
  {
    hide Initial, Paired, RejoinWork, AutoWork, Verifying, Shows;
    Reached(r, k);
  }

  // ---- one connect policy at a time

  /** At most one of the two machines has a sequence pending. */
  lemma OnePolicy(r: Run, k: nat)
    requires r.Valid() && k <= |r.es|
    ensures !(r.At(k).rejoin.pending.Some? && r.At(k).auto.pending.Some?)
  {
    hide Initial, RejoinWork, AutoWork, Verifying, Shows, Logged;
    Reached(r, k);
  }

  lemma CallFacts(r: Run, k: nat, rejoin: bool, j: nat)
    requires r.Valid() && k < |r.es| && r.Calls(k, rejoin, j)
    ensures var crew := if rejoin then r.At(k).rejoinCrew else r.At(k).autoCrew;
            j < |crew.jobs| && crew.epoch == crew.jobs[j].seqNo
  {
    hide Initial;
    assert r.Linked(k);
  }

  /**
   A rejoin worker that calls `Device1.Connect` does so for the sequence that is pending and in flight at that very
   step: a rejoin cancelled before the call never starts one.
   */
  lemma RejoinCallIsWanted(r: Run, k: nat, j: nat)
    requires r.Valid() && k < |r.es| && r.Calls(k, true, j)
    ensures r.At(k).rejoin.pending.Some? && r.At(k).rejoin.pending.value.inFlight
    ensures r.At(k).rejoin.pending.value.seqNo == r.At(k).rejoinCrew.jobs[j].seqNo
  {
    hide Initial, AutoWork, Verifying, Shows, Logged, Step;
    Reached(r, k);
    CallFacts(r, k, true, j);
  }

  /**
   Behind every call of a rejoin worker is a drop that met every condition for a rejoin, and nothing the machine has
   heard since, up to the call, cancels it.
   */
  lemma RejoinCallIsJustified(r: Run, k: nat, j: nat) returns (d: nat)
    requires r.Valid() && k < |r.es| && r.Calls(k, true, j)
    ensures var p := r.RejoinRun(k);
            d < |p.es| && p.Starts(d) && p.Qualifies(d) && p.At(d + 1).seqNo == r.At(k).rejoinCrew.jobs[j].seqNo
            && (forall m :: d < m < |p.es| ==> !p.Cancels(d, m))
            && p.ConnectOutstanding(d, |p.es|)
  {
    hide Initial, Run.Calls;
    var p := r.RejoinRun(k);
    PartsRun(r, k);
    RejoinCallIsWanted(r, k, j);
    d := RejoinRuns.PendingOrigin(p, |p.es|);
    RejoinRuns.StartQualified(p, d);
  }

  /**
   An auto-connect worker that calls `Device1.Connect` does so for the sequence pending and in flight, except exactly
   when a local connect has retired that sequence while the worker was out: that one case leaves the epoch standing.
   */
  lemma AutoCallIsWanted(r: Run, k: nat, j: nat)
    requires r.Valid() && k < |r.es| && r.Calls(k, false, j)
    ensures AutoWanted(r.At(k).auto, r.At(k).autoCrew.jobs[j].seqNo)
       <==> !Retired(r.AutoRun(k).es, r.init.auto, r.At(k).autoCrew.jobs[j].seqNo)
  {
    hide Initial, RejoinWork, Verifying, Shows, Logged, Step, Retired;
    Reached(r, k);
    CallFacts(r, k, false, j);
    RetiredIsNotWanted(r, k, r.At(k).autoCrew.jobs[j].seqNo);
  }

  /** Sequence `q` is the one pending and its connect is out. */
  predicate AutoWanted(s: AutoConnect.State, q: nat) {
    s.pending.Some? && s.pending.value.inFlight && s.pending.value.seqNo == q
  }

  lemma RetiredIsNotWanted(r: Run, k: nat, q: nat)
    requires r.Valid() && k <= |r.es|
    ensures Retired(r.AutoRun(k).es, r.init.auto, q) ==> !AutoWanted(r.At(k).auto, q)
  {
    hide Initial;
    var p := r.AutoRun(k);
    PartsRun(r, k);
    if Retired(p.es, r.init.auto, q) {
      var e: nat :| e < |p.es| && RetiredAt(p.es, r.init.auto, q, e);
      assert p.At(e).pending.Some? && p.At(e).pending.value.seqNo == q;
      AutoConnectRuns.RetiredNeverReturns(p, e, |p.es|);
    }
  }

  // ---- dials

  lemma StartsInLoop(init: State)
    requires Initial(init)
    ensures init.phase.Loop? && !init.radio.sock && init.timers.verifyAt.None?
  {}

  /** A dial that is under way: where it began, and that no boundary has been handled since. */
  lemma {:induction false} DialHasStart(r: Run, k: nat) returns (d: nat)
    requires r.Valid() && k <= |r.es| && Dialing(r.At(k).phase)
    ensures d < k && r.Dials(d, r.At(k).phase.kind) && r.At(d).radio.acl
    ensures r.At(d + 1).phase.generation == r.At(k).phase.generation
    ensures forall m :: d < m < k ==> !r.Breaks(m)
  {
    hide Ok, Keeps, BudgetMoved, VerifyMoved, WriteMoved, TimersMoved, Initial, Boundary;
    StartsInLoop(r.init);
    Took(r, k - 1);
    if Dialing(r.At(k - 1).phase) {
      d := DialHasStart(r, k - 1);
    } else {
      d := k - 1;
    }
  }

  /**
   A socket becomes the link only if no loss of the link, loss of the adapter or change of identity was handled since
   its dial began, under every interleaving of link events with the waits of the opening sequence.
   */
  lemma PromotionIsUninterrupted(r: Run, k: nat) returns (d: nat, kind: DialKind)
    requires r.Valid() && k < |r.es| && r.Promotes(k)
    ensures d < k && r.Dials(d, kind) && r.At(d).radio.acl
    ensures forall m :: d < m <= k ==> !r.Breaks(m)
    ensures r.At(k).radio.acl && r.At(k).radio.generation == r.At(d + 1).radio.generation
  {
    hide Ok, Keeps, BudgetMoved, VerifyMoved, WriteMoved, TimersMoved, Initial, Boundary;
    Took(r, k);
    d := DialHasStart(r, k);
    kind := r.At(k).phase.kind;
  }

  /** A link event handled while a link is being opened ends the attempt exactly when it is a boundary. */
  lemma DialEndsIff(r: Run, k: nat)
    requires r.Valid() && k < |r.es| && r.At(k).phase.OpeningLink? && r.es[k].input.Link?
    ensures r.At(k + 1).phase.OpeningLink? <==> !r.Breaks(k)
    ensures !r.Breaks(k) ==> r.At(k + 1).phase == r.At(k).phase
  {
    hide Ok, Keeps, OnLink, Initial;
    var s, event, c := r.At(k), r.es[k].input.event, r.es[k].clock;
    Took(r, k);
    Reached(r, k);
    assert r.Linked(k);
    LinkOk(s, event, c, OriginOf(r.init));
  }

  /** Automatic dials never outnumber the times the link was seen to come up. */
  lemma {:induction false} AutomaticDialsFollowEdges(r: Run, k: nat)
    requires r.Valid() && k <= |r.es|
    ensures r.AutomaticDials(k) + (if r.At(k).radio.dialKind == Some(Automatic) then 1 else 0) <= r.LinkEdges(k)
  {
    hide Ok, Keeps, BudgetMoved, VerifyMoved, WriteMoved, TimersMoved, Boundary;
    if k > 0 {
      AutomaticDialsFollowEdges(r, k - 1);
      hide Initial;
      Took(r, k - 1);
    }
  }

  // ---- verdicts have a deadline

  lemma {:induction false} BudgetIsLastWrite(r: Run, k: nat)
    requires r.Valid() && k <= |r.es|
    ensures var b := r.At(k).timers.verifyBudget;
            b.Some? ==> r.LastWrite(k).Some? && b.value == r.LastWrite(k).value + VERIFY_BUDGET
  {
    hide Ok, Keeps, VerifyMoved, DialMoved, WriteMoved, TimersMoved, Boundary;
    if k > 0 {
      BudgetIsLastWrite(r, k - 1);
      hide Initial;
      Took(r, k - 1);
    }
  }

  /** Whenever some key is being verified there is a deadline, ten seconds after the last write. */
  lemma VerifyingHasDeadline(r: Run, k: nat)
    requires r.Valid() && k <= |r.es| && Verifying(r.At(k).store)
    ensures r.LastWrite(k).Some? && r.At(k).timers.verifyBudget == Some(r.LastWrite(k).value + VERIFY_BUDGET)
  {
    hide Initial, RejoinWork, AutoWork, Shows, Logged;
    BudgetIsLastWrite(r, k);
    Reached(r, k);
  }

  /**
   A reopening still to come has a deadline, ten seconds after the last write, if and only if no readback window was
   closed since that write: a window that closes takes the deadline away and leaves the debounce standing.
   */
  lemma {:induction false} ReopeningHasDeadlineIff(r: Run, k: nat)
    requires r.Valid() && k <= |r.es| && r.At(k).timers.verifyAt.Some?
    ensures r.LastWrite(k).Some?
    ensures r.At(k).timers.verifyBudget == Some(r.LastWrite(k).value + VERIFY_BUDGET) <==> !r.FinishedSinceWrite(k)
    ensures r.FinishedSinceWrite(k) ==> r.At(k).timers.verifyBudget.None?
  {
    hide Ok, Keeps, VerifyMoved, DialMoved, WriteMoved, Boundary, Initial, Finishes, Writes;
    StartsInLoop(r.init);
    Took(r, k - 1);
    if !r.Wrote(k - 1) {
      ReopeningHasDeadlineIff(r, k - 1);
    }
  }

  lemma {:induction false} DuringVerify(r: Run, i: nat, k: nat)
    requires r.Valid() && i < k <= |r.es| && r.At(i).phase.Loop? && r.es[i].input.Tick?
    requires forall m :: i < m <= k ==> VerifyStarted(r.At(m).phase).Some?
    ensures VerifyStarted(r.At(k).phase) == Some(r.es[i].clock.now) && r.LastWrite(k) == r.LastWrite(i)
  {
    hide Ok, Keeps, DialMoved, WriteMoved, TimersMoved, Boundary, Initial, BudgetMoved;
    Took(r, k - 1);
    if i < k - 1 {
      DuringVerify(r, i, k - 1);
    }
  }

  /**
   No verdict is pending past its deadline: once a tick that began ten seconds after the last write or later is over,
   no key is being verified, whatever links dropped, reopened or finished meanwhile.
   */
  lemma NoVerdictOutlivesItsDeadline(r: Run, i: nat, k: nat)
    requires r.Valid() && i <= k < |r.es| && r.TickOver(i, k)
    requires r.LastWrite(i).Some? ==> r.es[i].clock.now >= r.LastWrite(i).value + VERIFY_BUDGET
    ensures !Verifying(r.At(k + 1).store)
  {
    hide Initial, Verifying, Run.TickOver;
    TickEnds(r, i, k);
    if Verifying(r.At(k + 1).store) {
      VerifyingHasDeadline(r, k + 1);
    }
  }

  /** A tick that is over leaves no deadline behind it, and nothing was written while it lasted. */
  lemma TickEnds(r: Run, i: nat, k: nat)
    requires r.Valid() && i <= k < |r.es| && r.TickOver(i, k)
    ensures !Due(r.At(k + 1).timers.verifyBudget, r.es[i].clock.now) && r.LastWrite(k + 1) == r.LastWrite(i)
  {
    hide Ok, Keeps, DialMoved, WriteMoved, TimersMoved, Boundary, Initial, BudgetMoved;
    Took(r, k);
    if i < k {
      DuringVerify(r, i, k);
    }
  }

  // ---- the panel

  /**
   The published link is reconnecting exactly while the device is not connected and a sequence is pending; what it shows
   is that sequence, and its attempt is the number of connects that sequence has issued.
   */
  lemma PanelShowsSequence(r: Run, k: nat)
    requires r.Valid() && k <= |r.es|
    ensures var s := r.At(k);
            s.store.link.LinkReconnecting? == (!s.store.device.connected && Current(s.rejoin, s.auto).Some?)
            && (Current(s.rejoin, s.auto).Some? <==> s.panel.sequence.Some?)
            && (s.panel.sequence.Some? ==>
                  Current(s.rejoin, s.auto) == Some((s.panel.sequence.value.rejoin, s.panel.sequence.value.seqNo)))
            && (s.store.link.LinkReconnecting? ==>
                  s.store.link.activity.reason == s.panel.sequence.value.reason
                  && s.store.link.activity.since == s.panel.sequence.value.since
                  && s.store.link.activity.attempt == ConnectsIssued(r, k))
  {
    hide Initial, RejoinWork, AutoWork, Verifying, Logged;
    var s := r.At(k);
    Reached(r, k);
    PartsRun(r, k);
    if s.rejoin.pending.Some? {
      RejoinRuns.AttemptsCounted(r.RejoinRun(k), s.rejoin.pending.value.seqNo, |r.RejoinRun(k).es|);
    } else if s.auto.pending.Some? {
      AutoConnectRuns.AttemptsCounted(r.AutoRun(k), s.auto.pending.value.seqNo, |r.AutoRun(k).es|);
    }
  }

  /** Connects issued in the sequence that is pending after `k` steps. */
  ghost function ConnectsIssued(r: Run, k: nat): nat
    requires k <= |r.es|
  {
    var s := r.At(k);
    if s.rejoin.pending.Some? then r.RejoinRun(k).ConnectCount(s.rejoin.pending.value.seqNo, |r.RejoinRun(k).es|)
    else if s.auto.pending.Some? then r.AutoRun(k).ConnectCount(s.auto.pending.value.seqNo, |r.AutoRun(k).es|)
    else 0
  }

  lemma {:induction false} AdvancesFar(r: Run, i: nat, k: nat)
    requires r.Valid() && i <= k <= |r.es|
    ensures Advances(r.At(i), r.At(k)) && SeqFits(r.At(i))
  {
    hide Ok, TaskMoved, Initial, Advances, SeqFits;
    if i < k {
      AdvancesFar(r, i, k - 1);
      Took(r, k - 1);
      AdvancesOn(r.At(i), r.At(k - 1), r.At(k));
    } else {
      Reached(r, k);
      SeqFitsAlways(r.At(k), OriginOf(r.init), r.Now(k));
      Still(r.At(k));
    }
  }

  lemma Still(s: State)
    ensures Advances(s, s)
  {}

  /** A sequence keeps the reason and the start it was first shown with, for as long as it is shown. */
  lemma ShownStaysTheSame(r: Run, i: nat, k: nat)
    requires r.Valid() && i <= k <= |r.es|
    requires r.At(i).panel.sequence.Some? && r.At(k).panel.sequence.Some?
    requires r.At(i).panel.sequence.value.rejoin == r.At(k).panel.sequence.value.rejoin
    requires r.At(i).panel.sequence.value.seqNo == r.At(k).panel.sequence.value.seqNo
    ensures r.At(i).panel.sequence == r.At(k).panel.sequence
  {
    hide Initial;
    AdvancesFar(r, i, k);
  }

  /** While one sequence is pending the published link never changes its reason or its start. */
  lemma ReconnectKeepsItsReason(r: Run, i: nat, k: nat)
    requires r.Valid() && i <= k <= |r.es|
    requires r.At(i).store.link.LinkReconnecting? && r.At(k).store.link.LinkReconnecting?
    requires Current(r.At(i).rejoin, r.At(i).auto) == Current(r.At(k).rejoin, r.At(k).auto)
    ensures r.At(i).store.link.activity.reason == r.At(k).store.link.activity.reason
    ensures r.At(i).store.link.activity.since == r.At(k).store.link.activity.since
  {
    hide Initial, Current;
    PanelShowsSequence(r, i);
    PanelShowsSequence(r, k);
    ShownStaysTheSame(r, i, k);
  }

  // ---- commands

  /**
   A command whose captured context is the current one when it runs crosses no boundary: address, model, connection and
   protocol link are what they were at every moment since it was queued, and no link end was applied in between.
   */
  lemma CommandCrossesNoBoundary(r: Run, i: nat, k: nat, deadline: Millis, c: Clock)
    requires r.Valid() && i <= k <= |r.es|
    requires IsCurrent(r.At(k), Store.ContextOf(r.At(i).store), deadline, c)
    ensures |r.At(i).log.store| <= |r.At(k).log.store|
    ensures r.StoreRun(k).OneConnection(|r.At(i).log.store|, |r.At(k).log.store|)
    ensures forall m :: i <= m <= k ==>
      StoreRuns.SameConnection(r.At(i).store.device, r.At(m).store.device)
  {
    hide Initial, StoreRuns.Run.Valid, StoreRuns.Run.OneConnection;
    AdvancesFar(r, i, k);
    StoreAt(r, i, k);
    StoreAt(r, k, k);
    var run := r.StoreRun(k);
    StoreRuns.CommandCrossesNoBoundary(run, |r.At(i).log.store|, |r.At(k).log.store|);
    forall m | i <= m <= k ensures StoreRuns.SameConnection(r.At(i).store.device, r.At(m).store.device) {
      AdvancesFar(r, i, m);
      AdvancesFar(r, m, k);
      StoreAt(r, m, k);
      OneConnectionAt(run, |r.At(i).log.store|, |r.At(m).log.store|, |r.At(k).log.store|);
    }
  }

  lemma OneConnectionAt(run: StoreRuns.Run, i: nat, m: nat, k: nat)
    requires i <= m <= k <= |run.es| && run.OneConnection(i, k)
    ensures StoreRuns.SameConnection(run.At(i).device, run.At(m).device)
  {}

  /** The store's log only grows, so the store of step `i` is found in the log of step `k`. */
  lemma StoreAt(r: Run, i: nat, k: nat)
    requires r.Valid() && i <= k <= |r.es|
    ensures |r.At(i).log.store| <= |r.At(k).log.store|
    ensures r.StoreRun(k).Valid() && r.StoreRun(k).At(|r.At(i).log.store|) == r.At(i).store
  {
    hide Initial, StoreRuns.Run.Valid;
    AdvancesFar(r, i, k);
    PartsRun(r, i);
    PartsRun(r, k);
  }

  lemma {:induction false} SendingHasCommand(r: Run, k: nat) returns (j: nat)
    requires r.Valid() && k <= |r.es| && r.At(k).phase.Sending?
    ensures j < k && r.es[j].input.Command? && UpdateFor(r.es[j].input.request) == Some(r.At(k).phase.update)
    ensures IsCurrent(r.At(j), r.es[j].input.context, r.es[j].input.deadline, r.es[j].clock)
    ensures forall m :: j <= m <= k ==> r.At(m).store == r.At(j).store
  {
    hide Ok, Keeps, BudgetMoved, VerifyMoved, DialMoved, TimersMoved, Initial;
    StartsInLoop(r.init);
    Took(r, k - 1);
    if r.At(k - 1).phase.Sending? {
      j := SendingHasCommand(r, k - 1);
    } else {
      j := k - 1;
    }
  }

  /**
   A write becomes a request in the store that its own command was current for, to the moment it is recorded: the
   store has not moved since the command was checked.
   */
  lemma WriteIsStillCurrent(r: Run, k: nat) returns (j: nat)
    requires r.Valid() && k < |r.es| && r.Wrote(k)
    ensures j < k && r.es[j].input.Command?
    ensures Store.ContextOf(r.At(k).store) == r.es[j].input.context
    ensures UpdateFor(r.es[j].input.request).Some?
    ensures r.At(k + 1).store == Store.Step(r.At(k).store, UpdateFor(r.es[j].input.request).value)
    ensures r.es[j].clock.now < r.es[j].input.deadline
  {
    hide Store.Step, Initial;
    j := SendingHasCommand(r, k);
    assert r.Linked(k);
  }

  // ---- queued side effects

  /**
   Every ownership write that goes out finds the card where it belongs, if the card is this daemon's to switch: off the
   AirPods before they are released, on them before they are claimed, through every interleaving with the players.
   */
  lemma OwnershipWriteFindsTheCard(r: Run, k: nat)
    requires r.Valid() && k < |r.es| && r.es[k].input.Flush? && r.At(k).phase.Flushing? && r.At(k).phase.rest != []
    requires r.At(k).phase.rest[0].SendOwnership? && r.At(k).radio.sock && Routes(r.At(k).host)
    ensures r.At(k).desk.route == Some(RouteFor(r.At(k).phase.rest[0].owns))
  {
    hide Ok, Initial;
    Reached(r, k);
    var rest := r.At(k).phase.rest;
    assert RestFits(r.At(k), rest) && rest[0].SendOwnership?;
  }

  /** The side effects attended to in the first `k` steps, in order. */
  function Done(r: Run, k: nat): seq<Handoff.Action>
    requires k <= |r.es|
  {
    if k == 0 then []
    else if r.At(k - 1).phase.Flushing? && r.es[k - 1].input.Flush? && r.At(k - 1).phase.rest != []
    then Done(r, k - 1) + [r.At(k - 1).phase.rest[0]]
    else Done(r, k - 1)
  }

  /**
   Nothing the ownership machine asks for is lost, repeated or overtaken: its side effects are attended to in exactly
   the order it asked for them, and the rest waits in that order.
   */
  lemma SideEffectsInOrder(r: Run, k: nat)
    requires r.Valid() && k <= |r.es|
    ensures AllQueued(r.HandoffRun(k).es) == Done(r, k) + Rest(r.At(k)) + r.At(k).desk.queue
  {
    hide Initial, RejoinWork, AutoWork, Verifying, Shows, Paired, AllQueued, RejoinLogged, AutoLogged, StoreLogged,
         EarLogged, HandoffLogged, Done;
    Reached(r, k);
    DoneIsTaken(r, k);
  }

  lemma {:induction false} DoneIsTaken(r: Run, k: nat)
    requires r.Valid() && k <= |r.es|
    ensures Done(r, k) + Rest(r.At(k)) == r.At(k).desk.log.taken
  {
    hide Ok, Handle, TaskMoved;
    if k > 0 {
      DoneIsTaken(r, k - 1);
      hide Initial;
      Reached(r, k - 1);
      assert r.Linked(k - 1);
      Later(r.At(k - 1), OriginOf(r.init), r.Now(k - 1), r.es[k - 1].clock.now);
      TakenStep(r.At(k - 1), r.es[k - 1].input, r.es[k - 1].clock, OriginOf(r.init));
    }
  }
}
