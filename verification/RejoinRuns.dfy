/** What every run of the rejoin machine keeps: why a connect was made, how often, and when it stops. */
module RejoinRuns {
  import opened Prelude
  import opened Rejoin

  /** One event, the clock reading it was folded at, the actions it returned and the state it left. */
  datatype Entry = Entry(event: Event, now: Millis, out: seq<Action>, post: State)

  /** A machine as built and everything folded into it since. */
  datatype Run = Run(init: State, es: seq<Entry>) {
    /** The state after the first `k` events. */
    function At(k: nat): State
      requires k <= |es|
    {
      if k == 0 then init else es[k - 1].post
    }

    /** Entry `k` is a step of the machine. */
    ghost predicate Linked(k: nat)
      requires k < |es|
    {
      Next(es[k].post, es[k].out) == Step(At(k), es[k].event, es[k].now)
    }

    ghost predicate Valid() {
      Initial(init)
      && (forall k {:trigger Linked(k)} :: 0 <= k < |es| ==> Linked(k))
      && (forall i, j :: 0 <= i <= j < |es| ==> es[i].now <= es[j].now)
    }

    ghost predicate Does(k: nat, a: Action)
      requires k < |es|
    {
      a in es[k].out
    }

    /** Event `k` started a rejoin sequence. */
    ghost predicate Starts(k: nat)
      requires k < |es|
    {
      StartsIn(es[k].out)
    }

    ghost predicate Connects(k: nat)
      requires k < |es|
    {
      ConnectsIn(es[k].out)
    }

    ghost predicate Retries(k: nat)
      requires k < |es|
    {
      RetriesIn(es[k].out)
    }

    /** In events `d..k` a connect went out that no later retry has put back to waiting. */
    ghost predicate ConnectOutstanding(d: nat, k: nat)
      requires k <= |es|
    {
      exists c :: d <= c < k && Connects(c) && forall m :: c < m < k ==> !Retries(m)
    }

    /** Event `j` ends the sequence that event `d` started. */
    ghost predicate Cancels(d: nat, j: nat)
      requires j < |es|
    {
      match es[j].event
      case ManualCommand => true
      case Disconnected(_, _, _) => true
      case AdapterGone => true
      case IdentityChanged => true
      case SetEnabled(on) => !on
      case Ear(both) => both
      case LinkConnected(up) => up && !ConnectOutstanding(d, j)
      case _ => false
    }

    /** The value `handoffEnabled` has after `k` events, read off the events alone. */
    function EnabledBy(k: nat): bool
      requires k <= |es|
    {
      if k == 0 then init.handoffEnabled
      else if es[k - 1].event.SetEnabled? then es[k - 1].event.enabled
      else EnabledBy(k - 1)
    }

    /** The latest ear report of this identity, after `k` events, put both buds in the case. */
    function BudsAwayBy(k: nat): bool
      requires k <= |es|
    {
      if k == 0 then false
      else if es[k - 1].event.Ear? then es[k - 1].event.bothInCase
      else if es[k - 1].event.IdentityChanged? then false
      else BudsAwayBy(k - 1)
    }

    /** Event `r` is a device report still standing as evidence before event `k`. */
    ghost predicate EvidenceAt(r: nat, k: nat)
      requires k <= |es|
    {
      r < k && es[r].event.ConnectedDevices?
      && forall m :: r < m < k ==>
        !es[m].event.ConnectedDevices? && !es[m].event.LinkSessionStarted?
        && !es[m].event.IdentityChanged? && !Starts(m)
    }

    /** Event `r` reports `h`, an Apple host other than this one; its link is up unless the drop is fresh and remote. */
    ghost predicate Blames(r: nat, d: nat, h: ListedHost)
      requires r < d < |es| && es[r].event.ConnectedDevices? && es[d].event.Disconnected?
    {
      h in es[r].event.hosts
      && At(d).local != Some(h.address)
      && (h.address in At(d).known || IsApple(init.ouis, h.address))
      && (h.linkUp || (es[d].event.reason == Remote && es[d].now - es[r].now <= EVICTION_WINDOW))
    }

    /** Everything a drop must satisfy before it may start a sequence. */
    ghost predicate Qualifies(d: nat)
      requires d < |es|
    {
      es[d].event.Disconnected?
      && (es[d].event.reason == Remote || es[d].event.reason == Timeout)
      && EnabledBy(d) && init.allowed && !BudsAwayBy(d) && !es[d].event.lidClosed
      && es[d].event.facts.Some?
      && es[d].event.facts.value.powered && es[d].event.facts.value.paired && !es[d].event.facts.value.blocked
      && (forall m :: 0 <= m < d && es[m].event.ManualCommand? ==> es[d].now - es[m].now >= MANUAL_QUIET)
      && exists r, h :: EvidenceAt(r, d) && Blames(r, d, h)
    }

    /** An eviction loop was declared and neither a manual command nor a new identity has lifted it. */
    ghost predicate LoopActive(k: nat)
      requires k <= |es|
    {
      exists e :: 0 <= e < k && Does(e, EvictionLoop) && Quiet(e + 1, k)
    }

    /** A rejoin of this identity succeeded less than `LOOP_WINDOW` before event `k`. */
    ghost predicate RejoinedRecently(k: nat)
      requires k < |es|
    {
      exists e :: 0 <= e < k && Does(e, Rejoined) && es[k].now - es[e].now < LOOP_WINDOW
        && forall m :: e < m < k ==> !es[m].event.IdentityChanged?
    }

    /** Connect calls of sequence `q` in the first `k` events. */
    ghost function ConnectCount(q: nat, k: nat): nat
      requires k <= |es|
    {
      if k == 0 then 0
      else ConnectCount(q, k - 1) + if exists a :: a in es[k - 1].out && a.Connect? && a.seqNo == q then 1 else 0
    }

    ghost predicate Quiet(i: nat, k: nat)
      requires k <= |es|
    {
      forall m :: i <= m < k ==> !es[m].event.ManualCommand? && !es[m].event.IdentityChanged?
    }
  }

  /** A machine fresh from its configuration and the persisted hosts. */
  ghost predicate Initial(s: State) {
    exists enabled, allowed, known, ouis :: s == NewState(enabled, allowed, known, ouis)
  }

  // ---- what one step can do

  ghost predicate StartsIn(out: seq<Action>) {
    exists a :: a in out && (a.Scheduled? || a.Deferred?)
  }

  ghost predicate RetriesIn(out: seq<Action>) {
    exists a :: a in out && a.Retry?
  }

  ghost predicate ConnectsIn(out: seq<Action>) {
    exists a :: a in out && a.Connect?
  }

  /** What the actions of a step say about its states. */
  ghost predicate Explained(s: State, event: Event, now: Millis, out: seq<Action>, t: State) {
    (StartsIn(out) ==>
       event.Disconnected? && t.seqNo == s.seqNo + 1 && t.lastSequence == Some(now) && t.lastReport.None?
       && t.pending.Some? && t.pending.value.seqNo == t.seqNo && t.pending.value.attempt == 1
       && !t.pending.value.inFlight && t.pending.value.due == now + Defer(s, now) + REJOIN_DELAY)
    && (forall a :: a in out && a.Connect? ==>
          event.Tick? && out == [a] && s.pending.Some? && !s.pending.value.inFlight && now >= s.pending.value.due
          && a == Connect(s.pending.value.seqNo, s.pending.value.attempt)
          && t == s.(pending := Some(s.pending.value.(inFlight := true))))
    && (RetriesIn(out) ==>
          event.ConnectFinished? && s.pending.Some? && s.pending.value.inFlight
          && s.pending.value.attempt < MAX_ATTEMPTS
          && !ConnectsIn(out) && !StartsIn(out)
          && t == s.(pending := Some(s.pending.value.(attempt := s.pending.value.attempt + 1, inFlight := false,
                                                      due := now + BusyRetry(s.pending.value.attempt)))))
    && (EvictionLoop in out ==> t.looped && t.pending.None?)
    && (s.looped ==> !StartsIn(out))
  }

  /** How a step may change the pending sequence. */
  ghost predicate PendingMoves(s: State, event: Event, out: seq<Action>, t: State) {
    (StartsIn(out) || (t.seqNo == s.seqNo && t.lastSequence == s.lastSequence))
    && (StartsIn(out) || ConnectsIn(out) || RetriesIn(out) || t.pending == s.pending || t.pending.None?)
    && (StartsIn(out) || t.pending.None?
        || !(event.ManualCommand? || event.Disconnected? || event.AdapterGone? || event.IdentityChanged?
             || (event.SetEnabled? && !event.enabled) || (event.Ear? && event.bothInCase)
             || (event.LinkConnected? && event.up && s.pending.Some? && !s.pending.value.inFlight)))
  }

  /** How a step changes what the machine remembers. */
  ghost predicate MemoryMoves(s: State, event: Event, now: Millis, out: seq<Action>, t: State) {
    t.handoffEnabled == (if event.SetEnabled? then event.enabled else s.handoffEnabled)
    && t.bothInCase == (if event.Ear? then event.bothInCase else if event.IdentityChanged? then false else s.bothInCase)
    && t.allowed == s.allowed && t.ouis == s.ouis
    && t.lastManual == (if event.ManualCommand? then Some(now) else s.lastManual)
    && (event.ConnectedDevices? ==> t.lastReport == Some(Report(now, event.hosts)))
    && (event.LinkSessionStarted? || event.IdentityChanged? ==> t.lastReport.None?)
    && (event.ConnectedDevices? || t.lastReport.None? || t.lastReport == s.lastReport)
    && (t.lastSuccess.None? || (t.lastSuccess == s.lastSuccess && !event.IdentityChanged?)
        || (Rejoined in out && t.lastSuccess == Some(now)))
    && (s.looped && !event.ManualCommand? && !event.IdentityChanged? ==> t.looped)
    && (t.looped ==> EvictionLoop in out || (s.looped && !event.ManualCommand? && !event.IdentityChanged?))
    && (Rejoined in out ==> t.lastSuccess == Some(now))
    && (t.lastSuccess != s.lastSuccess ==> Rejoined in out || event.IdentityChanged?)
  }

  /** All a step promises, in one place. */
  ghost predicate Moved(s: State, event: Event, now: Millis, n: Next) {
    Explained(s, event, now, n.out, n.state)
    && PendingMoves(s, event, n.out, n.state)
    && MemoryMoves(s, event, now, n.out, n.state)
  }

  lemma DropExplained(s: State, reason: Reason, facts: Option<LinkFacts>, lidClosed: bool, now: Millis)
    ensures var n := OnDrop(s, reason, facts, lidClosed, now);
      Explained(s, Disconnected(reason, facts, lidClosed), now, n.out, n.state)
    ensures var n := OnDrop(s, reason, facts, lidClosed, now);
      StartsIn(n.out) || (n.state.pending.None? && n.state.seqNo == s.seqNo && n.state.lastSequence == s.lastSequence)
  {
    hide Blame;
    var c := Cancel(s, DisconnectedAgain);
    var q := Qualify(c.state, reason, facts, lidClosed, now);
    assert q.Accept? ==> q.defer == Defer(s, now) && !s.looped;
    assert PingPong(c.state, reason, now) ==> !s.looped;
    hide Qualify, PingPong, Defer;
    var n := OnDrop(s, reason, facts, lidClosed, now);
    var last := n.out[|n.out| - 1];
    assert n.out == c.out + [last] && last in n.out;
    assert forall a :: a in n.out ==> a == last || a.Cancelled?;
    if q.Accept? && !PingPong(c.state, reason, now) {
      assert last.Scheduled? || last.Deferred?;
    }
  }

  lemma DropMoved(s: State, reason: Reason, facts: Option<LinkFacts>, lidClosed: bool, now: Millis)
    ensures Moved(s, Disconnected(reason, facts, lidClosed), now, OnDrop(s, reason, facts, lidClosed, now))
  {
    DropExplained(s, reason, facts, lidClosed, now);
    hide Qualify, PingPong, Explained, StartsIn;
    var out := OnDrop(s, reason, facts, lidClosed, now).out;
    assert out[|out| - 1] in out;
  }

  lemma TickMoved(s: State, now: Millis)
    ensures Moved(s, Tick, now, OnTick(s, now))
  {
    var n := OnTick(s, now);
    assert n.out != [] ==> n.out[0] in n.out;
  }

  lemma FinishedMoved(s: State, seqNo: nat, outcome: Outcome, now: Millis)
    ensures Moved(s, ConnectFinished(seqNo, outcome), now, OnFinished(s, seqNo, outcome, now))
  {
    var n := OnFinished(s, seqNo, outcome, now);
    assert n.out != [] ==> n.out[0] in n.out;
  }

  /** A step that at most cancels what is pending. */
  lemma CalmMoved(s: State, event: Event, now: Millis, t: State, out: seq<Action>)
    requires !event.Disconnected? && t.seqNo == s.seqNo && t.lastSequence == s.lastSequence
    requires out == [] || (|out| == 1 && (out[0].Cancelled? || out[0].Persist?))
    requires t.pending == s.pending || t.pending.None?
    requires PendingMoves(s, event, [], t) && MemoryMoves(s, event, now, [], t)
    ensures Moved(s, event, now, Next(t, out))
  {
  }

  lemma StepMoved(s: State, event: Event, now: Millis)
    ensures Moved(s, event, now, Step(s, event, now))
  {
    hide Moved, OnDrop, OnTick, OnFinished;
    match event
    case Disconnected(reason, facts, lidClosed) => DropMoved(s, reason, facts, lidClosed, now);
    case Tick => TickMoved(s, now);
    case ConnectFinished(seqNo, outcome) => FinishedMoved(s, seqNo, outcome, now);
    case _ =>
      var n := Step(s, event, now);
      CalmMoved(s, event, now, n.state, n.out);
  }

  /** The step behind entry `k`. */
  lemma Took(r: Run, k: nat)
    requires r.Valid() && k < |r.es|
    ensures Moved(r.At(k), r.es[k].event, r.es[k].now, Next(r.es[k].post, r.es[k].out))
  {
    assert r.Linked(k);
    StepMoved(r.At(k), r.es[k].event, r.es[k].now);
  }

  /** Any sequence of events at any non-decreasing clock readings is a run. */
  lemma {:induction false} EveryInputRuns(init: State, events: seq<Event>, clock: seq<Millis>) returns (r: Run)
    requires Initial(init) && |events| == |clock|
    requires forall i, j :: 0 <= i <= j < |clock| ==> clock[i] <= clock[j]
    ensures r.Valid() && r.init == init && |r.es| == |events|
    ensures forall k :: 0 <= k < |events| ==> r.es[k].event == events[k] && r.es[k].now == clock[k]
  {
    var n := |events|;
    if n == 0 {
      r := Run(init, []);
    } else {
      var p := EveryInputRuns(init, events[..n - 1], clock[..n - 1]);
      var next := Step(p.At(n - 1), events[n - 1], clock[n - 1]);
      r := Run(init, p.es + [Entry(events[n - 1], clock[n - 1], next.out, next.state)]);
      hide Step;
      assert r.Linked(n - 1);
      forall k | 0 <= k < n ensures r.Linked(k) {
        if k < n - 1 { assert p.Linked(k); }
      }
    }
  }

  // ---- history

  lemma {:induction false} FlagsFollowEvents(r: Run, k: nat)
    requires r.Valid() && k <= |r.es|
    ensures r.At(k).handoffEnabled == r.EnabledBy(k)
    ensures r.At(k).bothInCase == r.BudsAwayBy(k)
    ensures r.At(k).allowed == r.init.allowed && r.At(k).ouis == r.init.ouis
  {
    if k > 0 {
      FlagsFollowEvents(r, k - 1);
      Took(r, k - 1);
    }
  }

  lemma {:induction false} ManualRemembered(r: Run, k: nat, m: nat)
    requires r.Valid() && m < k <= |r.es| && r.es[m].event.ManualCommand?
    ensures r.At(k).lastManual.Some? && r.At(k).lastManual.value >= r.es[m].now
  {
    Took(r, k - 1);
    if m < k - 1 { ManualRemembered(r, k - 1, m); }
  }

  lemma {:induction false} SequenceRemembered(r: Run, k: nat, d: nat)
    requires r.Valid() && d < k <= |r.es| && r.Starts(d)
    ensures r.At(k).lastSequence.Some? && r.es[d].now <= r.At(k).lastSequence.value <= r.es[k - 1].now
  {
    var s, i := r.At(k - 1), r.es[k - 1];
    Took(r, k - 1);
    if d < k - 1 { SequenceRemembered(r, k - 1, d); }
  }

  lemma {:induction false} ReportHasSource(r: Run, k: nat) returns (e: nat)
    requires r.Valid() && k <= |r.es| && r.At(k).lastReport.Some?
    ensures r.EvidenceAt(e, k)
    ensures r.At(k).lastReport.value == Report(r.es[e].now, r.es[e].event.hosts)
  {
    var i := r.es[k - 1];
    Took(r, k - 1);
    if i.event.ConnectedDevices? {
      e := k - 1;
    } else {
      assert r.At(k - 1).lastReport == r.At(k).lastReport;
      e := ReportHasSource(r, k - 1);
    }
  }

  lemma {:induction false} SequencesOnlyGrow(r: Run, j: nat, k: nat)
    requires r.Valid() && j <= k <= |r.es|
    ensures r.At(j).seqNo <= r.At(k).seqNo
  {
    if j < k {
      SequencesOnlyGrow(r, j, k - 1);
      Took(r, k - 1);
    }
  }

  lemma {:induction false} PendingShape(r: Run, k: nat)
    requires r.Valid() && k <= |r.es|
    ensures r.At(k).pending.Some? ==>
      r.At(k).pending.value.seqNo == r.At(k).seqNo && 1 <= r.At(k).pending.value.attempt <= MAX_ATTEMPTS
  {
    if k > 0 {
      PendingShape(r, k - 1);
      Took(r, k - 1);
    }
  }

  // ---- every connect is justified

  /** A drop that started a sequence met every condition. */
  lemma StartQualified(r: Run, d: nat)
    requires r.Valid() && d < |r.es| && r.Starts(d)
    ensures r.Qualifies(d)
  {
    var s, i := r.At(d), r.es[d];
    assert r.Linked(d);
    Took(r, d);
    FlagsFollowEvents(r, d);
    var Disconnected(reason, facts, lidClosed) := i.event;
    var c := Cancel(s, DisconnectedAgain).state;
    assert Qualify(c, reason, facts, lidClosed, i.now).Accept?;
    assert Blame(c, reason, i.now).Accept?;
    forall m | 0 <= m < d && r.es[m].event.ManualCommand?
      ensures i.now - r.es[m].now >= MANUAL_QUIET
    {
      ManualRemembered(r, d, m);
    }
    var e := ReportHasSource(r, d);
    var hosts := r.es[e].event.hosts;
    var anyHost, upHost := Pick(c, hosts, false), Pick(c, hosts, true);
    var h := if reason != Timeout && anyHost.Some? && Since(i.now, r.es[e].now) <= EVICTION_WINDOW
             then anyHost.value else upHost.value;
    assert r.EvidenceAt(e, d) && r.Blames(e, d, h);
  }

  lemma {:induction false} EvidenceIsRemembered(r: Run, e: nat, k: nat)
    requires r.Valid() && k <= |r.es| && r.EvidenceAt(e, k)
    ensures r.At(k).lastReport == Some(Report(r.es[e].now, r.es[e].event.hosts))
  {
    Took(r, k - 1);
    if e < k - 1 {
      EvidenceIsRemembered(r, e, k - 1);
      ReportKept(r, k - 1);
    }
  }

  /** Only a new report, a new link, a new identity or a new sequence replaces the report. */
  lemma ReportKept(r: Run, k: nat)
    requires r.Valid() && k < |r.es| && !r.Starts(k)
    requires !r.es[k].event.ConnectedDevices? && !r.es[k].event.LinkSessionStarted? && !r.es[k].event.IdentityChanged?
    ensures r.es[k].post.lastReport == r.At(k).lastReport
  {
    assert r.Linked(k);
    var s, i := r.At(k), r.es[k];
    if i.event.Disconnected? {
      var Disconnected(reason, facts, lidClosed) := i.event;
      var q := Qualify(Cancel(s, DisconnectedAgain).state, reason, facts, lidClosed, i.now);
      assert i.out[|i.out| - 1] in i.out;
      hide Qualify;
    }
  }

  lemma {:induction false} ManualHasSource(r: Run, k: nat) returns (m: nat)
    requires r.Valid() && k <= |r.es| && r.At(k).lastManual.Some?
    ensures m < k && r.es[m].event.ManualCommand? && r.es[m].now == r.At(k).lastManual.value
  {
    Took(r, k - 1);
    if r.es[k - 1].event.ManualCommand? { m := k - 1; } else { m := ManualHasSource(r, k - 1); }
  }

  lemma {:induction false} LoopedHasSource(r: Run, k: nat)
    requires r.Valid() && k <= |r.es|
    ensures r.At(k).looped <==> r.LoopActive(k)
  {
    if r.LoopActive(k) {
      var e :| 0 <= e < k && r.Does(e, EvictionLoop) && r.Quiet(e + 1, k);
      LoopedStays(r, e, k);
    }
    if k > 0 && r.At(k).looped {
      Took(r, k - 1);
      LoopedHasSource(r, k - 1);
      if r.Does(k - 1, EvictionLoop) {
        assert r.Does(k - 1, EvictionLoop) && r.Quiet(k, k);
      } else {
        var e :| 0 <= e < k - 1 && r.Does(e, EvictionLoop) && r.Quiet(e + 1, k - 1);
        assert r.Quiet(e + 1, k);
      }
    }
  }

  lemma {:induction false} SuccessRemembered(r: Run, e: nat, k: nat)
    requires r.Valid() && e < k <= |r.es| && r.Does(e, Rejoined)
    requires forall m :: e < m < k ==> !r.es[m].event.IdentityChanged?
    ensures r.At(k).lastSuccess.Some? && r.At(k).lastSuccess.value >= r.es[e].now
  {
    Took(r, k - 1);
    if e < k - 1 { SuccessRemembered(r, e, k - 1); }
  }

  /** Given the memory, a drop starts a sequence exactly when it is neither a ping-pong nor refused. */
  lemma DropDecision(r: Run, d: nat)
    requires r.Valid() && d < |r.es| && r.es[d].event.Disconnected?
    ensures var s, i := r.At(d), r.es[d];
      var q := Qualify(Cancel(s, DisconnectedAgain).state, i.event.reason, i.event.facts, i.event.lidClosed, i.now);
      r.Starts(d) <==> (!PingPong(s, i.event.reason, i.now) && q.Accept?)
  {
    assert r.Linked(d);
    hide Qualify;
    var out := r.es[d].out;
    assert out[|out| - 1] in out;
  }

  /**
   A drop starts a sequence exactly when it qualifies, no eviction loop is in force and no rejoin
   succeeded in the last 20 s.
   */
  lemma DropStartsIff(r: Run, d: nat)
    requires r.Valid() && d < |r.es|
    ensures r.Starts(d) <==> r.Qualifies(d) && !r.LoopActive(d) && !r.RejoinedRecently(d)
  {
    var s, i := r.At(d), r.es[d];
    FlagsFollowEvents(r, d);
    LoopedHasSource(r, d);
    Took(r, d);
    if r.Starts(d) {
      StartQualified(r, d);
      DropDecision(r, d);
      if r.RejoinedRecently(d) {
        var e :| 0 <= e < d && r.Does(e, Rejoined) && i.now - r.es[e].now < LOOP_WINDOW
          && forall m :: e < m < d ==> !r.es[m].event.IdentityChanged?;
        SuccessRemembered(r, e, d);
      }
    } else if r.Qualifies(d) && !r.LoopActive(d) && !r.RejoinedRecently(d) {
      QualifyingDropStarts(r, d);
    }
  }

  lemma QualifyingDropStarts(r: Run, d: nat)
    requires r.Valid() && d < |r.es| && r.Qualifies(d) && !r.LoopActive(d) && !r.RejoinedRecently(d)
    ensures r.Starts(d)
  {
    var s, i := r.At(d), r.es[d];
    var Disconnected(reason, facts, lidClosed) := i.event;
    FlagsFollowEvents(r, d);
    LoopedHasSource(r, d);
    DropDecision(r, d);
    if s.lastSuccess.Some? {
      var e := SuccessHasSource(r, d);
    }
    assert !PingPong(s, reason, i.now);
    if s.lastManual.Some? {
      var m := ManualHasSource(r, d);
    }
    var e: nat, h :| r.EvidenceAt(e, d) && r.Blames(e, d, h);
    EvidenceIsRemembered(r, e, d);
    var c := Cancel(s, DisconnectedAgain).state;
    assert Eligible(c, h, false);
    assert Blame(c, reason, i.now).Accept? by {
      if !h.linkUp { assert reason == Remote && Since(i.now, r.es[e].now) <= EVICTION_WINDOW; }
      else { assert Eligible(c, h, true); }
    }
  }

  /** A pending sequence was started by one drop and nothing since then cancelled it. */
  lemma {:induction false} PendingOrigin(r: Run, k: nat) returns (d: nat)
    requires r.Valid() && k <= |r.es| && r.At(k).pending.Some?
    ensures d < k && r.Starts(d) && r.At(d + 1).seqNo == r.At(k).pending.value.seqNo
    ensures forall j :: d < j < k ==> !r.Cancels(d, j)
    ensures r.At(k).pending.value.inFlight ==> r.ConnectOutstanding(d, k)
  {
    var s, i := r.At(k - 1), r.es[k - 1];
    Took(r, k - 1);
    if r.Starts(k - 1) {
      d := k - 1;
    } else {
      d := PendingOrigin(r, k - 1);
      if r.Connects(k - 1) {
        assert r.ConnectOutstanding(d, k);
      } else if s.pending.value.inFlight && r.At(k).pending.value.inFlight {
        var c :| d <= c < k - 1 && r.Connects(c) && forall m :: c < m < k - 1 ==> !r.Retries(m);
        assert forall m :: c < m < k ==> !r.Retries(m);
      }
    }
  }

  /**
   Every `Connect` in every run traces back to one qualifying drop, with no cancelling event since.
   */
  lemma EveryConnectIsJustified(r: Run, k: nat, q: nat, attempt: nat) returns (d: nat)
    requires r.Valid() && k < |r.es| && r.Does(k, Connect(q, attempt))
    ensures d < k && r.Starts(d) && r.At(d + 1).seqNo == q && r.Qualifies(d)
    ensures forall j :: d < j <= k ==> !r.Cancels(d, j)
  {
    Took(r, k);
    d := PendingOrigin(r, k);
    StartQualified(r, d);
  }

  /** A tick connects exactly when a sequence is waiting, its time has come, and rejoining is still switched on. */
  lemma TickConnectsIff(r: Run, k: nat)
    requires r.Valid() && k < |r.es| && r.es[k].event.Tick?
    ensures r.Connects(k)
       <==> r.EnabledBy(k) && r.init.allowed
            && r.At(k).pending.Some? && !r.At(k).pending.value.inFlight && r.es[k].now >= r.At(k).pending.value.due
  {
    hide Explained, PendingMoves, MemoryMoves, OnDrop, OnFinished;
    FlagsFollowEvents(r, k);
    assert r.Linked(k);
    var out := r.es[k].out;
    assert out != [] ==> out[0] in out;
  }

  // ---- how often

  lemma {:induction false} AttemptsCounted(r: Run, q: nat, k: nat)
    requires r.Valid() && k <= |r.es|
    ensures r.ConnectCount(q, k) <= MAX_ATTEMPTS
    ensures q > r.At(k).seqNo ==> r.ConnectCount(q, k) == 0
    ensures r.At(k).pending.Some? && r.At(k).pending.value.seqNo == q ==>
      r.ConnectCount(q, k) == r.At(k).PendingAttempt()
  {
    if k > 0 {
      AttemptsCounted(r, q, k - 1);
      PendingShape(r, k - 1);
      Took(r, k - 1);
    }
  }

  /** A sequence makes at most three connects, and they are numbered 1, 2, 3 in order. */
  lemma ConnectsAreNumbered(r: Run, k: nat, q: nat, attempt: nat)
    requires r.Valid() && k < |r.es| && r.Does(k, Connect(q, attempt))
    ensures attempt == r.ConnectCount(q, k) + 1 && attempt <= MAX_ATTEMPTS
  {
    Took(r, k);
    PendingShape(r, k);
    AttemptsCounted(r, q, k);
  }

  /** The due time of a pending sequence respects every earlier sequence's drop. */
  lemma {:induction false} DueRespectsLimit(r: Run, d: nat, k: nat)
    requires r.Valid() && d < k <= |r.es| && r.Starts(d)
    requires r.At(k).pending.Some? && r.At(k).pending.value.seqNo > r.At(d + 1).seqNo
    ensures r.At(k).pending.value.due >= r.es[d].now + RATE_LIMIT + REJOIN_DELAY
  {
    var s, i := r.At(k - 1), r.es[k - 1];
    Took(r, k - 1);
    if d < k - 1 {
      if r.Starts(k - 1) {
        SequenceRemembered(r, k - 1, d);
      } else {
        DueRespectsLimit(r, d, k - 1);
        if r.Retries(k - 1) {
          RetryIsLate(r, k - 1);
        }
      }
    }
  }

  /** A connect in flight went out no earlier than it was due. */
  lemma {:induction false} RetryIsLate(r: Run, k: nat)
    requires r.Valid() && k < |r.es| && r.At(k).pending.Some? && r.At(k).pending.value.inFlight
    ensures r.es[k].now >= r.At(k).pending.value.due
  {
    var s, i := r.At(k - 1), r.es[k - 1];
    Took(r, k - 1);
    if !r.Connects(k - 1) { RetryIsLate(r, k - 1); }
  }

  /** A connect comes at least 63 s after the drop behind any earlier sequence. */
  lemma ConnectsAreSpaced(r: Run, d: nat, k: nat, q: nat, attempt: nat)
    requires r.Valid() && d < k < |r.es| && r.Starts(d)
    requires r.Does(k, Connect(q, attempt)) && q > r.At(d + 1).seqNo
    ensures r.es[k].now >= r.es[d].now + 63_000
  {
    Took(r, k);
    DueRespectsLimit(r, d, k);
  }

  /** Connects of any three different sequences span at least 63 s. */
  lemma ThreeSequencesSpan(r: Run, k1: nat, k2: nat, k3: nat, q1: nat, q2: nat, q3: nat, a1: nat, a2: nat, a3: nat)
    requires r.Valid() && k1 < k2 < k3 < |r.es| && q1 < q2 < q3
    requires r.Does(k1, Connect(q1, a1)) && r.Does(k2, Connect(q2, a2)) && r.Does(k3, Connect(q3, a3))
    ensures r.es[k3].now - r.es[k1].now >= 63_000
  {
    Took(r, k1);
    PendingShape(r, k1);
    var d2 := EveryConnectIsJustified(r, k2, q2, a2);
    if d2 < k1 { SequencesOnlyGrow(r, d2 + 1, k1); }
    ConnectsAreSpaced(r, d2, k3, q3, a3);
  }

  // ---- the eviction loop stop

  lemma {:induction false} LoopedStays(r: Run, e: nat, k: nat)
    requires r.Valid() && e < k <= |r.es| && r.Does(e, EvictionLoop) && r.Quiet(e + 1, k)
    ensures r.At(k).looped && r.At(k).pending.None?
  {
    if k == e + 1 {
      Took(r, e);
    } else {
      LoopedStays(r, e, k - 1);
      Took(r, k - 1);
    }
  }

  /** After `EvictionLoop` nothing is scheduled or connected until a manual command or an identity change. */
  lemma LoopStopsRejoins(r: Run, e: nat, k: nat)
    requires r.Valid() && e < k < |r.es| && r.Does(e, EvictionLoop) && r.Quiet(e + 1, k)
    ensures !r.Starts(k) && !r.Connects(k)
  {
    LoopedStays(r, e, k);
    Took(r, k);
  }

  lemma {:induction false} SuccessHasSource(r: Run, k: nat) returns (e: nat)
    requires r.Valid() && k <= |r.es| && r.At(k).lastSuccess.Some?
    ensures e < k && r.Does(e, Rejoined) && r.es[e].now == r.At(k).lastSuccess.value
    ensures forall m :: e < m < k ==> !r.es[m].event.IdentityChanged?
  {
    Took(r, k - 1);
    if Rejoined in r.es[k - 1].out && r.At(k).lastSuccess == Some(r.es[k - 1].now) {
      e := k - 1;
    } else {
      e := SuccessHasSource(r, k - 1);
    }
  }

  /** A loop stop has a cause: a rejoin of the same identity that succeeded less than 20 s before. */
  lemma LoopFollowsRejoin(r: Run, k: nat) returns (e: nat)
    requires r.Valid() && k < |r.es| && r.Does(k, EvictionLoop)
    ensures e < k && r.Does(e, Rejoined) && r.es[k].now - r.es[e].now < LOOP_WINDOW
    ensures forall m :: e < m < k ==> !r.es[m].event.IdentityChanged?
  {
    assert r.Linked(k);
    var s, i := r.At(k), r.es[k];
    assert i.event.Disconnected? && PingPong(s, i.event.reason, i.now);
    e := SuccessHasSource(r, k);
  }
}
