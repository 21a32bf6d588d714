/**
 The rejoin machine told by events and clock readings alone: which drops start a sequence, what ends it, when it
 connects, which outcomes count, and when two hosts take the link from each other.
 */
module RejoinHistory {
  import opened Prelude
  import opened Rejoin
  import opened RejoinRuns
  import RejoinSpacing

  // ---- latest values

  function LocalBy(r: Run, k: nat): Option<Address>
    requires k <= |r.es|
  {
    if k == 0 then r.init.local
    else if r.es[k - 1].event.SetLocal? then Some(r.es[k - 1].event.adapter)
    else LocalBy(r, k - 1)
  }

  /** The persisted hosts and the relay senders since, the newest eight. */
  function KnownBy(r: Run, k: nat): seq<Address>
    requires k <= |r.es|
    decreases k, 0
  {
    if k == 0 then r.init.known
    else if Teaches(r, k - 1) then Newest(KnownBy(r, k - 1) + [r.es[k - 1].event.sender])
    else KnownBy(r, k - 1)
  }

  /** Event `k` is a relay of another host, not remembered so far. */
  predicate Teaches(r: Run, k: nat)
    requires k < |r.es|
    decreases k, 1
  {
    r.es[k].event.Relay? && LocalBy(r, k) != Some(r.es[k].event.sender) && r.es[k].event.sender !in KnownBy(r, k)
  }

  // ---- the history of a sequence

  /** Event `e` is a device report still standing as evidence before event `k`. */
  ghost predicate EvidenceBy(r: Run, e: nat, k: nat)
    requires k <= |r.es|
    decreases k, 0
  {
    e < k && r.es[e].event.ConnectedDevices?
    && forall m :: e < m < k ==>
      !r.es[m].event.ConnectedDevices? && !r.es[m].event.LinkSessionStarted? && !r.es[m].event.IdentityChanged?
      && !StartsBy(r, m)
  }

  /** Report `e` names `h`, another host and Apple's, with its link up unless the drop is fresh and remote. */
  predicate BlamesBy(r: Run, e: nat, d: nat, h: ListedHost)
    requires e < d < |r.es| && r.es[e].event.ConnectedDevices? && r.es[d].event.Disconnected?
  {
    h in r.es[e].event.hosts && LocalBy(r, d) != Some(h.address)
    && (h.address in KnownBy(r, d) || IsApple(r.init.ouis, h.address))
    && (h.linkUp || (r.es[d].event.reason == Remote && r.es[d].now - r.es[e].now <= EVICTION_WINDOW))
  }

  /** Everything a drop must satisfy to be answered with a reconnect. */
  ghost predicate QualifiesBy(r: Run, d: nat)
    requires d < |r.es|
    decreases d, 1
  {
    var event := r.es[d].event;
    event.Disconnected? && (event.reason == Remote || event.reason == Timeout)
    && r.EnabledBy(d) && r.init.allowed && !r.BudsAwayBy(d) && !event.lidClosed
    && event.facts.Some? && event.facts.value.powered && event.facts.value.paired && !event.facts.value.blocked
    && (forall m :: 0 <= m < d && r.es[m].event.ManualCommand? ==> r.es[d].now - r.es[m].now >= MANUAL_QUIET)
    && exists e, h :: EvidenceBy(r, e, d) && BlamesBy(r, e, d, h)
  }

  /** Drop `d` starts a sequence. */
  ghost predicate StartsBy(r: Run, d: nat)
    requires d < |r.es|
    decreases d, 4
  {
    QualifiesBy(r, d) && !LoopBy(r, d) && !SucceededBy(r, d)
  }

  /** A connect went through less than 20 s before event `k`, to the same identity. */
  ghost predicate SucceededBy(r: Run, k: nat)
    requires k < |r.es|
    decreases k, 2
  {
    exists e :: 0 <= e < k && SuccessBy(r, e) && r.es[k].now - r.es[e].now < LOOP_WINDOW
                && forall m :: e < m < k ==> !r.es[m].event.IdentityChanged?
  }

  /** Drop `m` undoes a rejoin at once, and no loop is in force yet. */
  ghost predicate LoopsBy(r: Run, m: nat)
    requires m < |r.es|
    decreases m, 4
  {
    var event := r.es[m].event;
    event.Disconnected? && (event.reason == Remote || event.reason == Timeout) && r.EnabledBy(m) && r.init.allowed
    && !LoopBy(r, m) && SucceededBy(r, m)
  }

  /** A loop was found, and no manual command and no other identity came since. */
  ghost predicate LoopBy(r: Run, k: nat)
    requires k <= |r.es|
    decreases k, 2
  {
    exists e :: 0 <= e < k && LoopsBy(r, e) && r.Quiet(e + 1, k)
  }

  /** How many sequences the first `k` events started: a sequence is numbered by its place among them. */
  ghost function StartedBy(r: Run, k: nat): nat
    requires k <= |r.es|
    decreases k, 0
  {
    if k == 0 then 0 else StartedBy(r, k - 1) + if StartsBy(r, k - 1) then 1 else 0
  }

  /** When the latest of the sequences started in the first `k` events was started. */
  ghost function LatestStartBy(r: Run, k: nat): Option<Millis>
    requires k <= |r.es|
    decreases k, 0
  {
    if k == 0 then None else if StartsBy(r, k - 1) then Some(r.es[k - 1].now) else LatestStartBy(r, k - 1)
  }

  /** What is left at drop `d` of the minute after the latest start before it. */
  ghost function DeferralBy(r: Run, d: nat): Millis
    requires d < |r.es|
    decreases d, 1
  {
    var latest := LatestStartBy(r, d);
    if latest.None? || Since(r.es[d].now, latest.value) >= RATE_LIMIT then 0
    else RATE_LIMIT - Since(r.es[d].now, latest.value)
  }

  /** The sequence of drop `d` is still pending before event `k`. */
  ghost predicate LiveBy(r: Run, d: nat, k: nat)
    requires d < k <= |r.es|
    decreases k, 1
  {
    StartsBy(r, d) && forall m :: d < m < k ==> !EndsBy(r, d, m)
  }

  /** Its connects before event `k`. */
  ghost function CountBy(r: Run, d: nat, k: nat): nat
    requires d < k <= |r.es|
    decreases k, 0
  {
    if k == d + 1 then 0 else CountBy(r, d, k - 1) + if ConnectsBy(r, d, k - 1) then 1 else 0
  }

  /** One of its connects has no answer yet. */
  ghost predicate InFlightBy(r: Run, d: nat, k: nat)
    requires d < k <= |r.es|
    decreases k, 1
  {
    exists c :: d < c < k && ConnectsBy(r, d, c) && forall m :: c < m < k ==> !RetriesBy(r, d, m)
  }

  /** When it may connect next. */
  ghost function DueBy(r: Run, d: nat, k: nat): Millis
    requires d < k <= |r.es|
    decreases k, 0
  {
    if k == d + 1 then r.es[d].now + DeferralBy(r, d) + REJOIN_DELAY
    else if RetriesBy(r, d, k - 1) then r.es[k - 1].now + BusyRetry(CountBy(r, d, k - 1))
    else DueBy(r, d, k - 1)
  }

  /** Event `k` is the outcome of the connect of sequence `d` in flight. */
  ghost predicate ReportsBy(r: Run, d: nat, k: nat)
    requires d < k < |r.es|
    decreases k, 2
  {
    r.es[k].event.ConnectFinished? && r.es[k].event.seqNo == StartedBy(r, d + 1)
    && LiveBy(r, d, k) && InFlightBy(r, d, k)
  }

  /** The tick at `c` finds it waiting and due. */
  ghost predicate ConnectsBy(r: Run, d: nat, c: nat)
    requires d < c < |r.es|
    decreases c, 3
  {
    r.es[c].event.Tick? && LiveBy(r, d, c) && !InFlightBy(r, d, c) && r.es[c].now >= DueBy(r, d, c)
  }

  /** Its connect was refused as busy, and fewer than three have gone out. */
  ghost predicate RetriesBy(r: Run, d: nat, m: nat)
    requires d < m < |r.es|
    decreases m, 3
  {
    ReportsBy(r, d, m) && r.es[m].event.outcome.Busy? && CountBy(r, d, m) < MAX_ATTEMPTS
  }

  /** Event `m` ends it: somebody else decides about the link, or its outcome is final. */
  ghost predicate EndsBy(r: Run, d: nat, m: nat)
    requires d < m < |r.es|
    decreases m, 3
  {
    match r.es[m].event
    case ManualCommand => true
    case Disconnected(_, _, _) => true
    case AdapterGone => true
    case IdentityChanged => true
    case SetEnabled(on) => !on
    case Ear(both) => both
    case LinkConnected(up) => up && !InFlightBy(r, d, m)
    case ConnectFinished(_, outcome) =>
      ReportsBy(r, d, m) && !(outcome.Busy? && CountBy(r, d, m) < MAX_ATTEMPTS)
    case _ => false
  }

  /** The connect of some sequence goes through. */
  ghost predicate SuccessBy(r: Run, m: nat)
    requires m < |r.es|
    decreases m, 3
  {
    r.es[m].event.ConnectFinished? && r.es[m].event.outcome.Connected? && exists d :: 0 <= d < m && ReportsBy(r, d, m)
  }

  // ---- what one step answers

  predicate Flying(s: State, seqNo: nat) {
    s.pending.Some? && s.pending.value.seqNo == seqNo && s.pending.value.inFlight
  }

  predicate Waits(s: State, now: Millis) {
    s.pending.Some? && !s.pending.value.inFlight && now >= s.pending.value.due
  }

  /** Why an event other than a tick or an outcome cancels what is pending. */
  function EndReason(s: State, event: Event): Option<CancelWhy> {
    match event
    case ManualCommand => Some(Manual)
    case Disconnected(_, _, _) => Some(DisconnectedAgain)
    case AdapterGone => Some(AdapterWentAway)
    case IdentityChanged => Some(NewIdentity)
    case SetEnabled(on) => if on then None else Some(SwitchedOff)
    case Ear(both) => if both then Some(BudsAway) else None
    case LinkConnected(up) => if up && s.pending.Some? && !s.pending.value.inFlight then Some(OtherConnect) else None
    case ConnectFinished(q, outcome) => if outcome.NotReady? && Flying(s, q) then Some(Refused(outcome.why)) else None
    case _ => None
  }

  ghost predicate Answered(s: State, event: Event, now: Millis, out: seq<Action>) {
    (Rejoined in out <==> event.ConnectFinished? && event.outcome.Connected? && Flying(s, event.seqNo))
    && (GaveUp in out
        <==> event.ConnectFinished? && Flying(s, event.seqNo)
             && (event.outcome.Failed? || (event.outcome.Busy? && s.pending.value.attempt >= MAX_ATTEMPTS)))
    && (forall a, w ::
          (Retry(a, w) in out
           <==> event.ConnectFinished? && event.outcome.Busy? && Flying(s, event.seqNo)
                && s.pending.value.attempt < MAX_ATTEMPTS && a == s.pending.value.attempt + 1
                && w == BusyRetry(s.pending.value.attempt)))
    && (forall q, a ::
          (Connect(q, a) in out
           <==> event.Tick? && Waits(s, now) && s.handoffEnabled && s.allowed
                && q == s.pending.value.seqNo && a == s.pending.value.attempt))
    && (EvictionLoop in out <==> event.Disconnected? && PingPong(s, event.reason, now))
    && (RejoinSpacing.Willing(s) ==>
          forall why :: (Cancelled(why) in out <==> s.pending.Some? && EndReason(s, event) == Some(why)))
    && (forall known ::
          (Persist(known) in out
           <==> event.Relay? && s.local != Some(event.sender) && event.sender !in s.known
                && known == Newest(s.known + [event.sender])))
  }

  ghost predicate PendingAfter(s: State, event: Event, now: Millis, out: seq<Action>, t: State) {
    t.local == (if event.SetLocal? then Some(event.adapter) else s.local)
    && t.known == (if event.Relay? && s.local != Some(event.sender) && event.sender !in s.known
                   then Newest(s.known + [event.sender]) else s.known)
    && if StartsIn(out) then true
       else if EndReason(s, event).Some? then t.pending.None?
       else if event.Tick? && Waits(s, now) && s.handoffEnabled && s.allowed
       then t.pending == Some(s.pending.value.(inFlight := true))
       else if event.ConnectFinished? && Flying(s, event.seqNo)
       then if event.outcome.Busy? && s.pending.value.attempt < MAX_ATTEMPTS
            then t.pending == Some(s.pending.value.(attempt := s.pending.value.attempt + 1, inFlight := false,
                                                    due := now + BusyRetry(s.pending.value.attempt)))
            else t.pending.None?
       else RejoinSpacing.Willing(s) ==> t.pending == s.pending
  }

  lemma DropAnswers(s: State, e: Event, now: Millis)
    requires e.Disconnected?
    ensures var n := OnDrop(s, e.reason, e.facts, e.lidClosed, now);
      Answered(s, e, now, n.out) && PendingAfter(s, e, now, n.out, n.state)
  {
    hide Blame, Defer;
    var c := Cancel(s, DisconnectedAgain);
    assert PingPong(c.state, e.reason, now) == PingPong(s, e.reason, now);
    var n := OnDrop(s, e.reason, e.facts, e.lidClosed, now);
    var last := n.out[|n.out| - 1];
    assert n.out == c.out + [last] && last in n.out;
    if s.pending.Some? { assert n.out[0] == Cancelled(DisconnectedAgain); }
    assert forall a :: a in n.out ==> a == last || a == Cancelled(DisconnectedAgain);
    var q := Qualify(c.state, e.reason, e.facts, e.lidClosed, now);
    hide Qualify, PingPong;
    if q.Accept? && !PingPong(s, e.reason, now) {
      assert last.Scheduled? || last.Deferred?;
    }
  }

  lemma FinishAnswers(s: State, e: Event, now: Millis)
    requires e.ConnectFinished?
    ensures var n := OnFinished(s, e.seqNo, e.outcome, now);
      Answered(s, e, now, n.out) && PendingAfter(s, e, now, n.out, n.state)
  {
    var n := OnFinished(s, e.seqNo, e.outcome, now);
    assert n.out != [] ==> n.out[0] in n.out;
  }

  lemma TickAnswers(s: State, now: Millis)
    ensures var n := OnTick(s, now); Answered(s, Tick, now, n.out) && PendingAfter(s, Tick, now, n.out, n.state)
  {
    var n := OnTick(s, now);
    assert n.out != [] ==> n.out[0] in n.out;
  }

  /** An event whose answer is at most a cancel or a list of hosts to keep. */
  lemma PlainAnswers(s: State, e: Event, now: Millis)
    requires !e.Disconnected? && !e.ConnectFinished? && !e.Tick?
    ensures var n := Step(s, e, now); Answered(s, e, now, n.out) && PendingAfter(s, e, now, n.out, n.state)
  {
    var n := Step(s, e, now);
    if n.out == [] {
    } else {
      assert n.out == [n.out[0]] && n.out[0] in n.out;
    }
  }

  lemma StepAnswers(s: State, event: Event, now: Millis)
    ensures var n := Step(s, event, now); Answered(s, event, now, n.out) && PendingAfter(s, event, now, n.out, n.state)
  {
    hide OnDrop, OnFinished, OnTick, Answered, PendingAfter;
    match event
    case Disconnected(_, _, _) => DropAnswers(s, event, now);
    case ConnectFinished(_, _) => FinishAnswers(s, event, now);
    case Tick => TickAnswers(s, now);
    case _ => PlainAnswers(s, event, now);
  }

  /** The step behind event `k`. */
  lemma Stepped(r: Run, k: nat)
    requires r.Valid() && k < |r.es|
    ensures Answered(r.At(k), r.es[k].event, r.es[k].now, r.es[k].out)
    ensures PendingAfter(r.At(k), r.es[k].event, r.es[k].now, r.es[k].out, r.At(k + 1))
    ensures Moved(r.At(k), r.es[k].event, r.es[k].now, Next(r.es[k].post, r.es[k].out))
    ensures RejoinSpacing.Willing(r.At(k))
  {
    hide Answered, PendingAfter, Moved, Step, RejoinSpacing.Willing;
    Took(r, k);
    RejoinSpacing.WillingAt(r, k);
    assert r.Linked(k);
    StepAnswers(r.At(k), r.es[k].event, r.es[k].now);
  }

  lemma {:induction false} HostsFollowEvents(r: Run, k: nat)
    requires r.Valid() && k <= |r.es|
    ensures r.At(k).local == LocalBy(r, k) && r.At(k).known == KnownBy(r, k)
  {
    if k > 0 {
      HostsFollowEvents(r, k - 1);
      Stepped(r, k - 1);
      hide Answered, Moved;
    }
  }

  // ---- the machine follows the history

  lemma {:induction false} NumbersFollow(r: Run, k: nat)
    requires r.Valid() && k <= |r.es|
    ensures r.At(k).seqNo == StartedBy(r, k) && r.At(k).lastSequence == LatestStartBy(r, k)
    decreases k, 0
  {
    hide Answered, PendingAfter, MemoryMoves, StartsBy;
    if k > 0 {
      NumbersFollow(r, k - 1);
      StartsByIff(r, k - 1);
      Stepped(r, k - 1);
    }
  }

  lemma EvidenceByIff(r: Run, e: nat, k: nat)
    requires r.Valid() && k <= |r.es|
    ensures r.EvidenceAt(e, k) <==> EvidenceBy(r, e, k)
    decreases k, 0
  {
    hide Run.Valid, StartsBy;
    forall m | 0 <= m < k ensures r.Starts(m) <==> StartsBy(r, m) { StartsByIff(r, m); }
  }

  lemma QualifiesByIff(r: Run, d: nat)
    requires r.Valid() && d < |r.es|
    ensures r.Qualifies(d) <==> QualifiesBy(r, d)
    decreases d, 1
  {
    hide Run.Valid, StartsBy;
    HostsFollowEvents(r, d);
    forall e: nat ensures r.EvidenceAt(e, d) <==> EvidenceBy(r, e, d) { EvidenceByIff(r, e, d); }
    if r.Qualifies(d) {
      var e: nat, h :| r.EvidenceAt(e, d) && r.Blames(e, d, h);
      assert EvidenceBy(r, e, d) && BlamesBy(r, e, d, h);
    }
    if QualifiesBy(r, d) {
      var e: nat, h :| EvidenceBy(r, e, d) && BlamesBy(r, e, d, h);
      assert r.EvidenceAt(e, d) && r.Blames(e, d, h);
    }
  }

  lemma SucceededByIff(r: Run, k: nat)
    requires r.Valid() && k < |r.es|
    ensures r.RejoinedRecently(k) <==> SucceededBy(r, k)
    decreases k, 2
  {
    hide Run.Valid, SuccessBy;
    forall e | 0 <= e < k ensures r.Does(e, Rejoined) <==> SuccessBy(r, e) { SuccessByIff(r, e); }
  }

  lemma LoopByIff(r: Run, k: nat)
    requires r.Valid() && k <= |r.es|
    ensures r.LoopActive(k) <==> LoopBy(r, k)
    decreases k, 2
  {
    hide Run.Valid, LoopsBy, Run.Quiet;
    forall e | 0 <= e < k ensures r.Does(e, EvictionLoop) <==> LoopsBy(r, e) { LoopsByIff(r, e); }
  }

  /** A drop is answered with a reconnect exactly when the history says so. */
  lemma StartsByIff(r: Run, d: nat)
    requires r.Valid() && d < |r.es|
    ensures r.Starts(d) <==> StartsBy(r, d)
    decreases d, 4
  {
    hide Run.Valid, Run.Qualifies, QualifiesBy, Run.LoopActive, LoopBy, Run.RejoinedRecently, SucceededBy;
    DropStartsIff(r, d);
    QualifiesByIff(r, d);
    LoopByIff(r, d);
    SucceededByIff(r, d);
  }

  /**
   Two hosts take the link from each other exactly when a drop by the other host comes within 20 s of a connect that
   went through to the same identity, with rejoining on and no loop found yet.
   */
  lemma LoopsByIff(r: Run, m: nat)
    requires r.Valid() && m < |r.es|
    ensures r.Does(m, EvictionLoop) <==> LoopsBy(r, m)
    decreases m, 4
  {
    hide Run.Valid, LoopBy, SucceededBy, Run.LoopActive, Run.RejoinedRecently;
    Stepped(r, m);
    FlagsFollowEvents(r, m);
    LoopedHasSource(r, m);
    LoopByIff(r, m);
    SucceededByIff(r, m);
    RecentSuccess(r, m);
  }

  lemma RecentSuccess(r: Run, k: nat)
    requires r.Valid() && k < |r.es|
    ensures Within(r.es[k].now, r.At(k).lastSuccess, LOOP_WINDOW) <==> r.RejoinedRecently(k)
  {
    if r.At(k).lastSuccess.Some? { var e := SuccessHasSource(r, k); }
    if r.RejoinedRecently(k) {
      var e :| 0 <= e < k && r.Does(e, Rejoined) && r.es[k].now - r.es[e].now < LOOP_WINDOW
        && forall m :: e < m < k ==> !r.es[m].event.IdentityChanged?;
      SuccessRemembered(r, e, k);
    }
  }

  /** What is pending, told by the history: whose sequence, which connect, in flight or due when. */
  ghost predicate Tells(r: Run, d: nat, k: nat)
    requires d < k <= |r.es|
  {
    var p := r.At(k).pending;
    p.Some? && p.value.seqNo == StartedBy(r, d + 1) && p.value.inFlight == InFlightBy(r, d, k)
    && p.value.attempt == CountBy(r, d, k) + (if InFlightBy(r, d, k) then 0 else 1)
    && p.value.due == DueBy(r, d, k)
  }

  /** A live sequence is the pending one, with everything the machine keeps about it. */
  lemma {:induction false} LiveIsPending(r: Run, d: nat, k: nat)
    requires r.Valid() && d < k <= |r.es| && LiveBy(r, d, k)
    ensures Tells(r, d, k)
    decreases k, 1
  {
    hide Run.Valid;
    if k == d + 1 {
      StartTells(r, d);
    } else {
      LiveBefore(r, d, k);
      LiveIsPending(r, d, k - 1);
      LiveStep(r, d, k - 1);
    }
  }

  lemma LiveBefore(r: Run, d: nat, k: nat)
    requires d + 1 < k <= |r.es| && LiveBy(r, d, k)
    ensures LiveBy(r, d, k - 1) && !EndsBy(r, d, k - 1)
  {
    hide EndsBy, StartsBy;
  }

  lemma DeferralReads(r: Run, d: nat)
    requires d < |r.es| && r.At(d).lastSequence == LatestStartBy(r, d)
    ensures DeferralBy(r, d) == Defer(r.At(d), r.es[d].now)
  {}

  lemma StartTells(r: Run, d: nat)
    requires r.Valid() && d < |r.es| && StartsBy(r, d)
    ensures Tells(r, d, d + 1)
    decreases d, 5
  {
    hide Answered, PendingAfter, MemoryMoves, StartsBy;
    StartsByIff(r, d);
    NumbersFollow(r, d);
    Stepped(r, d);
    assert StartedBy(r, d + 1) == StartedBy(r, d) + 1;
    DeferralReads(r, d);
    assert DueBy(r, d, d + 1) == r.es[d].now + DeferralBy(r, d) + REJOIN_DELAY;
    assert CountBy(r, d, d + 1) == 0 && !InFlightBy(r, d, d + 1);
  }

  lemma Outstanding(r: Run, d: nat, k: nat) returns (c: nat)
    requires d < k <= |r.es| && InFlightBy(r, d, k)
    ensures d < c < k && ConnectsBy(r, d, c) && forall m :: c < m < k ==> !RetriesBy(r, d, m)
  {
    c :| d < c < k && ConnectsBy(r, d, c) && forall m :: c < m < k ==> !RetriesBy(r, d, m);
  }

  lemma OutstandingIs(r: Run, d: nat, k: nat, c: nat)
    requires d < c < k <= |r.es| && ConnectsBy(r, d, c) && forall m :: c < m < k ==> !RetriesBy(r, d, m)
    ensures InFlightBy(r, d, k)
  {}

  lemma InFlightStep(r: Run, d: nat, k: nat)
    requires d < k < |r.es|
    ensures InFlightBy(r, d, k + 1) <==> ConnectsBy(r, d, k) || (InFlightBy(r, d, k) && !RetriesBy(r, d, k))
  {
    hide ConnectsBy, RetriesBy, InFlightBy;
    if InFlightBy(r, d, k + 1) {
      var c := Outstanding(r, d, k + 1);
      if c < k { OutstandingIs(r, d, k, c); }
    }
    if ConnectsBy(r, d, k) { OutstandingIs(r, d, k + 1, k); }
    if InFlightBy(r, d, k) && !RetriesBy(r, d, k) {
      var c := Outstanding(r, d, k);
      OutstandingIs(r, d, k + 1, c);
    }
  }

  /** The values told after one more event. */
  lemma TalliesStep(r: Run, d: nat, k: nat)
    requires d < k < |r.es|
    ensures CountBy(r, d, k + 1) == CountBy(r, d, k) + if ConnectsBy(r, d, k) then 1 else 0
    ensures DueBy(r, d, k + 1)
      == if RetriesBy(r, d, k) then r.es[k].now + BusyRetry(CountBy(r, d, k)) else DueBy(r, d, k)
  {
    hide ConnectsBy, RetriesBy;
  }

  /** What a sequence can do with an event, read off the state. */
  lemma LiveReads(r: Run, d: nat, k: nat)
    requires r.Valid() && d < k < |r.es| && LiveBy(r, d, k) && Tells(r, d, k)
    ensures var s, event, now := r.At(k), r.es[k].event, r.es[k].now;
      (ConnectsBy(r, d, k) <==> event.Tick? && Waits(s, now))
      && (ReportsBy(r, d, k) <==> event.ConnectFinished? && Flying(s, event.seqNo))
      && (RetriesBy(r, d, k)
          <==> event.ConnectFinished? && Flying(s, event.seqNo) && event.outcome.Busy?
               && s.pending.value.attempt < MAX_ATTEMPTS)
  {
    hide LiveBy, InFlightBy, Run.Valid, StartedBy, CountBy, DueBy;
  }

  lemma EndsReads(r: Run, d: nat, k: nat)
    requires r.Valid() && d < k < |r.es| && LiveBy(r, d, k) && Tells(r, d, k)
    ensures var s, event := r.At(k), r.es[k].event;
      EndsBy(r, d, k)
      <==> EndReason(s, event).Some?
           || (event.ConnectFinished? && Flying(s, event.seqNo)
               && !(event.outcome.Busy? && s.pending.value.attempt < MAX_ATTEMPTS))
  {
    LiveReads(r, d, k);
    hide LiveBy, InFlightBy, Run.Valid, StartedBy, CountBy, DueBy, ReportsBy, RetriesBy, ConnectsBy;
  }

  /** A live sequence that event `k` does not end stays told. */
  lemma LiveStep(r: Run, d: nat, k: nat)
    requires r.Valid() && d < k < |r.es| && LiveBy(r, d, k) && Tells(r, d, k) && !EndsBy(r, d, k)
    ensures Tells(r, d, k + 1)
  {
    LiveReads(r, d, k);
    EndsReads(r, d, k);
    InFlightStep(r, d, k);
    TalliesStep(r, d, k);
    Stepped(r, k);
    assert !StartsIn(r.es[k].out);
    hide LiveBy, InFlightBy, Run.Valid, StartedBy, CountBy, DueBy, ReportsBy, RetriesBy, ConnectsBy, EndsBy;
    hide Answered, Moved, RejoinSpacing.Willing;
  }

  /** Whatever is pending is a live sequence of the history. */
  lemma {:induction false} PendingIsLive(r: Run, k: nat) returns (d: nat)
    requires r.Valid() && k <= |r.es| && r.At(k).pending.Some?
    ensures d < k && LiveBy(r, d, k) && Tells(r, d, k)
    decreases k, 2
  {
    hide Run.Valid, Answered, MemoryMoves, StartsBy, EndsBy, Tells, EndReason;
    assert k > 0 by { NothingAtFirst(r); }
    Stepped(r, k - 1);
    StartsByIff(r, k - 1);
    if r.Starts(k - 1) {
      d := k - 1;
      StartTells(r, d);
    } else {
      d := PendingIsLive(r, k - 1);
      StillLive(r, d, k - 1);
      LiveLater(r, d, k);
      LiveStep(r, d, k - 1);
    }
  }

  lemma NothingAtFirst(r: Run)
    requires r.Valid()
    ensures r.At(0).pending.None?
  {}

  lemma LiveLater(r: Run, d: nat, k: nat)
    requires d + 1 < k <= |r.es| && LiveBy(r, d, k - 1) && !EndsBy(r, d, k - 1)
    ensures LiveBy(r, d, k)
  {
    hide EndsBy, StartsBy;
  }

  lemma StillLive(r: Run, d: nat, k: nat)
    requires r.Valid() && d < k < |r.es| && LiveBy(r, d, k) && Tells(r, d, k)
    requires r.At(k + 1).pending.Some? && !r.Starts(k)
    ensures !EndsBy(r, d, k)
  {
    EndsReads(r, d, k);
    Stepped(r, k);
    hide LiveBy, InFlightBy, Run.Valid, StartedBy, CountBy, DueBy, EndsBy, Answered, Moved, Tells, EndReason;
  }

  /** A connect counts as gone through exactly when the outcome is of the sequence in flight. */
  lemma SuccessByIff(r: Run, m: nat)
    requires r.Valid() && m < |r.es|
    ensures r.Does(m, Rejoined) <==> SuccessBy(r, m)
    decreases m, 3
  {
    Stepped(r, m);
    hide Run.Valid, Moved, PendingAfter, ReportsBy, LiveBy, Tells;
    if r.Does(m, Rejoined) {
      var d := PendingIsLive(r, m);
      LiveReads(r, d, m);
    }
    if SuccessBy(r, m) {
      var d := SomeReport(r, m);
      LiveIsPending(r, d, m);
      LiveReads(r, d, m);
    }
  }

  lemma SomeReport(r: Run, m: nat) returns (d: nat)
    requires m < |r.es| && SuccessBy(r, m)
    ensures d < m && ReportsBy(r, d, m) && LiveBy(r, d, m)
  {
    d :| d < m && ReportsBy(r, d, m);
  }

  // ---- every answer, told by the history

  /** What cancels the sequence of drop `d` at event `k`, and why. */
  ghost function CancelBy(r: Run, d: nat, k: nat): Option<CancelWhy>
    requires d < k < |r.es|
  {
    if !LiveBy(r, d, k) then None
    else
      match r.es[k].event
      case ManualCommand => Some(Manual)
      case Disconnected(_, _, _) => Some(DisconnectedAgain)
      case AdapterGone => Some(AdapterWentAway)
      case IdentityChanged => Some(NewIdentity)
      case SetEnabled(on) => if on then None else Some(SwitchedOff)
      case Ear(both) => if both then Some(BudsAway) else None
      case LinkConnected(up) => if up && !InFlightBy(r, d, k) then Some(OtherConnect) else None
      case ConnectFinished(_, outcome) =>
        if outcome.NotReady? && ReportsBy(r, d, k) then Some(Refused(outcome.why)) else None
      case _ => None
  }

  /** A sequence is pending exactly while a drop started it and nothing since ended it. */
  lemma PendingIff(r: Run, k: nat)
    requires r.Valid() && k <= |r.es|
    ensures r.At(k).pending.Some? <==> exists d :: 0 <= d < k && LiveBy(r, d, k)
    ensures forall d :: 0 <= d < k && LiveBy(r, d, k) ==> Tells(r, d, k)
  {
    hide Run.Valid, LiveBy, Tells;
    if r.At(k).pending.Some? { var d := PendingIsLive(r, k); }
    forall d | 0 <= d < k && LiveBy(r, d, k) ensures Tells(r, d, k) && r.At(k).pending.Some? {
      LiveIsPending(r, d, k);
      hide InFlightBy, CountBy, DueBy, StartedBy;
      TellsSome(r, d, k);
    }
  }

  lemma TellsSome(r: Run, d: nat, k: nat)
    requires d < k <= |r.es| && Tells(r, d, k)
    ensures r.At(k).pending.Some?
  {}

  /** `Connect` goes out exactly on the tick that finds a live sequence waiting and due, numbered by its connects. */
  lemma ConnectsIff(r: Run, k: nat, q: nat, attempt: nat)
    requires r.Valid() && k < |r.es|
    ensures r.Does(k, Connect(q, attempt))
       <==> exists d :: 0 <= d < k && ConnectsBy(r, d, k) && q == StartedBy(r, d + 1) && attempt == CountBy(r, d, k) + 1
  {
    Stepped(r, k);
    hide Run.Valid, Moved, PendingAfter, LiveBy, InFlightBy, DueBy, CountBy, StartedBy;
    if r.Does(k, Connect(q, attempt)) {
      var d := PendingIsLive(r, k);
      LiveReads(r, d, k);
      assert ConnectsBy(r, d, k);
    }
    if d: nat :| d < k && ConnectsBy(r, d, k) && q == StartedBy(r, d + 1) && attempt == CountBy(r, d, k) + 1 {
      LiveIsPending(r, d, k);
      LiveReads(r, d, k);
    }
  }

  /** A connect is tried again exactly after a busy refusal with fewer than three out, after the wait that asks for. */
  lemma RetriesIff(r: Run, k: nat, attempt: nat, wait: Millis)
    requires r.Valid() && k < |r.es|
    ensures r.Does(k, Retry(attempt, wait))
       <==> exists d :: 0 <= d < k && RetriesBy(r, d, k)
                        && attempt == CountBy(r, d, k) + 1 && wait == BusyRetry(CountBy(r, d, k))
  {
    Stepped(r, k);
    hide Run.Valid, Moved, PendingAfter, LiveBy, InFlightBy, DueBy, CountBy, StartedBy;
    if r.Does(k, Retry(attempt, wait)) {
      var d := PendingIsLive(r, k);
      LiveReads(r, d, k);
      assert RetriesBy(r, d, k);
    }
    if d: nat :| d < k && RetriesBy(r, d, k)
                 && attempt == CountBy(r, d, k) + 1 && wait == BusyRetry(CountBy(r, d, k)) {
      assert ReportsBy(r, d, k);
      LiveIsPending(r, d, k);
      LiveReads(r, d, k);
    }
  }

  /** A sequence is given up exactly when its connect failed, or was refused as busy for the third time. */
  lemma GivesUpIff(r: Run, k: nat)
    requires r.Valid() && k < |r.es|
    ensures r.Does(k, GaveUp)
       <==> exists d :: 0 <= d < k && ReportsBy(r, d, k)
                        && (r.es[k].event.outcome.Failed?
                            || (r.es[k].event.outcome.Busy? && CountBy(r, d, k) >= MAX_ATTEMPTS))
  {
    Stepped(r, k);
    hide Run.Valid, Moved, PendingAfter, LiveBy, InFlightBy, DueBy, CountBy, StartedBy;
    if r.Does(k, GaveUp) {
      var d := PendingIsLive(r, k);
      LiveReads(r, d, k);
      assert ReportsBy(r, d, k);
    }
    if d: nat :| d < k && ReportsBy(r, d, k)
                 && (r.es[k].event.outcome.Failed?
                     || (r.es[k].event.outcome.Busy? && CountBy(r, d, k) >= MAX_ATTEMPTS)) {
      LiveIsPending(r, d, k);
      LiveReads(r, d, k);
    }
  }

  /** A cancel is answered exactly when a live sequence is cancelled, with the reason its event gives. */
  lemma CancelsIff(r: Run, k: nat, why: CancelWhy)
    requires r.Valid() && k < |r.es|
    ensures r.Does(k, Cancelled(why)) <==> exists d :: 0 <= d < k && CancelBy(r, d, k) == Some(why)
  {
    Stepped(r, k);
    hide Run.Valid, Moved, PendingAfter, LiveBy, InFlightBy, DueBy, CountBy, StartedBy, ReportsBy;
    if r.Does(k, Cancelled(why)) {
      var d := PendingIsLive(r, k);
      LiveReads(r, d, k);
      assert CancelBy(r, d, k) == Some(why);
    }
    if d: nat :| d < k && CancelBy(r, d, k) == Some(why) {
      LiveIsPending(r, d, k);
      LiveReads(r, d, k);
    }
  }

  /** The hosts to keep are answered exactly for a relay sender not kept so far, the newest eight with it. */
  lemma PersistsIff(r: Run, k: nat, known: seq<Address>)
    requires r.Valid() && k < |r.es|
    ensures r.Does(k, Persist(known))
       <==> Teaches(r, k) && known == Newest(KnownBy(r, k) + [r.es[k].event.sender])
  {
    Stepped(r, k);
    HostsFollowEvents(r, k);
    hide Run.Valid, Moved, PendingAfter, KnownBy, LocalBy;
  }

  /** An Apple host other than this one. */
  predicate AppleBy(r: Run, d: nat, a: Address)
    requires d <= |r.es|
  {
    LocalBy(r, d) != Some(a) && (a in KnownBy(r, d) || IsApple(r.init.ouis, a))
  }

  /** Entry `i` of report `e` is the last one naming an Apple host, with its link up if that is asked for. */
  predicate LastBy(r: Run, e: nat, d: nat, onlyUp: bool, i: nat)
    requires e < |r.es| && d <= |r.es| && r.es[e].event.ConnectedDevices?
  {
    var hosts := r.es[e].event.hosts;
    i < |hosts| && AppleBy(r, d, hosts[i].address) && (onlyUp ==> hosts[i].linkUp)
    && forall j :: i < j < |hosts| && AppleBy(r, d, hosts[j].address) ==> onlyUp && !hosts[j].linkUp
  }

  /** The host a started sequence is blamed on: the evidence, the entry, how it was recognised and what it did. */
  predicate BlamedBy(r: Run, e: nat, d: nat, i: nat, host: Address, matched: HostMatch, kind: MatchKind)
    requires e < d < |r.es| && r.es[e].event.ConnectedDevices? && r.es[d].event.Disconnected?
  {
    var hosts, reason := r.es[e].event.hosts, r.es[d].event.reason;
    LastBy(r, e, d, kind != Joined, i) && hosts[i].address == host
    && (matched.ByRelay? <==> host in KnownBy(r, d))
    && (kind.LinkLost? <==> reason == Timeout)
    && (kind.Joined? <==> reason != Timeout && r.es[d].now - r.es[e].now <= EVICTION_WINDOW)
  }

  /** A drop is refused exactly when it neither starts a sequence nor shows a loop. */
  lemma SkipsIff(r: Run, k: nat)
    requires r.Valid() && k < |r.es|
    ensures (exists a :: r.Does(k, a) && a.Skipped?)
       <==> r.es[k].event.Disconnected? && !StartsBy(r, k) && !LoopsBy(r, k)
  {
    hide Run.Valid, StartsBy, LoopsBy, Qualify, PingPong;
    StartsByIff(r, k);
    LoopsByIff(r, k);
    Linking(r, k);
    var out := r.es[k].out;
    if r.es[k].event.Disconnected? {
      LastSays(r.At(k), r.es[k].event, r.es[k].now);
      assert out[|out| - 1] in out;
    } else {
      assert out != [] ==> out[0] in out;
    }
  }

  lemma Linking(r: Run, k: nat)
    requires r.Valid() && k < |r.es|
    ensures r.Linked(k) && forall j :: 0 <= j <= k ==> r.es[j].now <= r.es[k].now
  {}

  lemma LastSays(s: State, e: Event, now: Millis)
    requires e.Disconnected?
    ensures var out := OnDrop(s, e.reason, e.facts, e.lidClosed, now).out;
      |out| > 0 && (forall a :: a in out ==> a == out[|out| - 1] || a == Cancelled(DisconnectedAgain))
      && (out[|out| - 1].Skipped? || out[|out| - 1].Scheduled? || out[|out| - 1].Deferred?
          || out[|out| - 1] == EvictionLoop)
  {
    hide Qualify, PingPong;
  }

  lemma DropBlames(s: State, e: Event, now: Millis, a: Action)
    requires e.Disconnected? && a in OnDrop(s, e.reason, e.facts, e.lidClosed, now).out && (a.Scheduled? || a.Deferred?)
    ensures Blame(Cancel(s, DisconnectedAgain).state, e.reason, now) == Accept(a.host, a.matched, a.kind, 0)
    ensures if Defer(s, now) == 0 then a.Scheduled? else a.Deferred? && a.delay == Defer(s, now) + REJOIN_DELAY
  {
    hide Pick, MatchHost, PingPong;
    var c := Cancel(s, DisconnectedAgain);
    assert Defer(c.state, now) == Defer(s, now);
    var q := Qualify(c.state, e.reason, e.facts, e.lidClosed, now);
    assert q.Accept? ==> q == Blame(c.state, e.reason, now).(defer := Defer(s, now));
    assert Blame(c.state, e.reason, now).Accept? ==> Blame(c.state, e.reason, now).defer == 0;
    hide Blame, Qualify, Defer;
  }

  lemma DropOnly(s: State, event: Event, now: Millis, a: Action)
    requires a in Step(s, event, now).out && (a.Scheduled? || a.Deferred?)
    ensures event.Disconnected? && s.lastReport.Some?
    ensures Step(s, event, now) == OnDrop(s, event.reason, event.facts, event.lidClosed, now)
  {
    hide Pick, PingPong;
  }

  lemma BlameIsLast(r: Run, d: nat, e: nat, a: Action) returns (i: nat)
    requires d < |r.es| && e < d && r.es[e].event.ConnectedDevices? && r.es[d].event.Disconnected?
    requires a.Scheduled? || a.Deferred?
    requires r.At(d).local == LocalBy(r, d) && r.At(d).known == KnownBy(r, d) && r.At(d).ouis == r.init.ouis
    requires r.At(d).lastReport == Some(Report(r.es[e].now, r.es[e].event.hosts))
    requires Blame(Cancel(r.At(d), DisconnectedAgain).state, r.es[d].event.reason, r.es[d].now)
             == Accept(a.host, a.matched, a.kind, 0)
    requires r.es[e].now <= r.es[d].now
    ensures BlamedBy(r, e, d, i, a.host, a.matched, a.kind)
  {
    var s, hosts := Cancel(r.At(d), DisconnectedAgain).state, r.es[e].event.hosts;
    var onlyUp := a.kind != Joined;
    var h := Pick(s, hosts, onlyUp);
    hide LocalBy, KnownBy, IsApple, Pick;
    assert h.Some? && h.value.address == a.host;
    i :| IsLastEligible(s, hosts, onlyUp, i) && hosts[i] == h.value;
    assert forall x: Address :: MatchHost(s, x).Some? <==> AppleBy(r, d, x);
  }

  /**
   A reconnect is announced with the host the evidence blames, how it was recognised, what it did, and what is left of
   the minute.
   */
  lemma AnnouncesBlame(r: Run, d: nat, a: Action) returns (e: nat, i: nat)
    requires r.Valid() && d < |r.es| && r.Does(d, a) && (a.Scheduled? || a.Deferred?)
    ensures StartsBy(r, d) && EvidenceBy(r, e, d) && r.es[d].event.Disconnected?
    ensures BlamedBy(r, e, d, i, a.host, a.matched, a.kind)
    ensures if DeferralBy(r, d) == 0 then a.Scheduled? else a.Deferred? && a.delay == DeferralBy(r, d) + REJOIN_DELAY
  {
    hide Run.Valid, StartsBy, Step, EvidenceBy, Run.EvidenceAt;
    StartsByIff(r, d);
    Linking(r, d);
    NumbersFollow(r, d);
    DeferralReads(r, d);
    HostsFollowEvents(r, d);
    FlagsFollowEvents(r, d);
    var s, event, now := r.At(d), r.es[d].event, r.es[d].now;
    DropOnly(s, event, now, a);
    DropBlames(s, event, now, a);
    e := ReportHasSource(r, d);
    EvidenceByIff(r, e, d);
    i := BlameIsLast(r, d, e, a);
  }
}
