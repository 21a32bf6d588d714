/**
 The auto-connect machine told by events and clock readings alone: when it is armed, which adverts open an episode,
 when a page goes out without one, what ends a sequence and which outcomes count.
 */
module AutoConnectHistory {
  import opened Prelude
  import opened AutoConnect
  import opened AutoConnectRuns
  import Rejoin

  // ---- latest values

  /** The latest link change or accepted advert of the first `k` events. */
  function ActivityBy(r: Run, k: nat): Option<Millis>
    requires k <= |r.es|
  {
    if k == 0 then None
    else if LinkChange(r.es[k - 1].event) || Accepted(r.init.cfg, r.es[k - 1].event) then Some(r.es[k - 1].now)
    else ActivityBy(r, k - 1)
  }

  /** Event `k` comes after a whole absence. */
  predicate AbsentBy(r: Run, k: nat)
    requires k < |r.es|
  {
    var last := ActivityBy(r, k);
    last.None? || Since(r.es[k].now, last.value) >= r.init.cfg.absence
  }

  /** The user or this host's own disconnect switches auto-connect off. */
  predicate Disarms(event: Event) {
    event.ManualCommand? || (event.LocalDisconnected? && event.reason == Rejoin.Local)
  }

  // ---- the history of a sequence

  /** The link is up before event `k`: the last thing heard of it was a connect or a connect that went through. */
  ghost predicate LinkBy(r: Run, k: nat)
    requires k <= |r.es|
    decreases k, 0
  {
    if k == 0 then false
    else
      match r.es[k - 1].event
      case LocalConnected => true
      case LocalDisconnected(_) => false
      case _ => LinkBy(r, k - 1) || GoesThrough(r, k - 1)
  }

  /** Event `k` is the outcome of a connect in flight, and the link is up. */
  ghost predicate GoesThrough(r: Run, k: nat)
    requires k < |r.es|
    decreases k, 3
  {
    r.es[k].event.ConnectFinished? && r.es[k].event.outcome.Connected? && exists d :: 0 <= d < k && ReportsBy(r, d, k)
  }

  /** An outcome of the page in flight that ends its away period. */
  ghost predicate PageBringsBack(r: Run, k: nat)
    requires k < |r.es|
    decreases k, 3
  {
    r.es[k].event.ConnectFinished?
    && (r.es[k].event.outcome.Connected? || r.es[k].event.outcome == Rejoin.NotReady(Rejoin.ConnectedByOtherMeans))
    && exists d :: 0 <= d < k && PagesBy(r, d) && ReportsBy(r, d, k)
  }

  /** Since when the AirPods have been away, event `k - 1` included, if pages without an advert are open. */
  ghost function AwayBy(r: Run, k: nat): Option<Millis>
    requires k <= |r.es|
    decreases k, 0
  {
    if k == 0 then None
    else
      var event := r.es[k - 1].event;
      if event.SetRejoinPending? then AwayBy(r, k - 1)
      else if AwayDrop(event) then Some(r.es[k - 1].now)
      else if EndsAway(r, k - 1) then None
      else if r.Untouched(k - 1) then Some(r.es[k - 1].now)
      else AwayBy(r, k - 1)
  }

  /** The AirPods are back, or somebody wanted them gone. */
  ghost predicate EndsAway(r: Run, k: nat)
    requires k < |r.es|
    decreases k, 4
  {
    var event := r.es[k].event;
    event.LocalConnected? || (event.LocalDisconnected? && event.reason != Rejoin.Unknown && !AwayDrop(event))
    || PageBringsBack(r, k)
  }

  /** When the away period of event `k` began; the first event with a clock begins one. */
  ghost function AwayAt(r: Run, k: nat): Option<Millis>
    requires k < |r.es|
    decreases k, 1
  {
    if r.Untouched(k) then Some(r.es[k].now) else AwayBy(r, k)
  }

  /** The slot after the latest page of this away period. */
  ghost function SlotBy(r: Run, k: nat): Option<Millis>
    requires k <= |r.es|
    decreases k, 0
  {
    if k == 0 then None
    else if AwayDrop(r.es[k - 1].event) || EndsAway(r, k - 1) then None
    else if PagesBy(r, k - 1) then Some(r.es[k - 1].now + r.init.cfg.fallbackInterval)
    else SlotBy(r, k - 1)
  }

  /** No sequence is pending before event `k`. */
  ghost predicate IdleBy(r: Run, k: nat)
    requires k <= |r.es|
    decreases k, 2
  {
    !exists d :: 0 <= d < k && LiveBy(r, d, k)
  }

  /** Event `k` is an accepted advert after a whole absence, with nothing pending. */
  ghost predicate OpensBy(r: Run, k: nat)
    requires k < |r.es|
    decreases k, 3
  {
    Accepted(r.init.cfg, r.es[k].event) && IdleBy(r, k) && AbsentBy(r, k)
  }

  /** Switched off, and no absence has been over since. */
  ghost predicate DisarmedBy(r: Run, k: nat)
    requires k <= |r.es|
    decreases k, 1
  {
    exists m :: 0 <= m < k && Disarms(r.es[m].event) && forall j :: m < j < k ==> !OpensBy(r, j)
  }

  /** Event `k` opens an episode. */
  ghost predicate OpensEpisode(r: Run, k: nat)
    requires k < |r.es|
    decreases k, 4
  {
    OpensBy(r, k) && !LinkBy(r, k) && !r.RejoinBy(k)
  }

  /** The tick at `k` finds a page due. */
  ghost predicate PagesBy(r: Run, k: nat)
    requires k < |r.es|
    decreases k, 4
  {
    var cfg, now, from, slot := r.init.cfg, r.es[k].now, AwayAt(r, k), SlotBy(r, k);
    r.es[k].event.Tick? && cfg.enabled && cfg.fallbackBudget != 0
    && IdleBy(r, k) && !LinkBy(r, k) && !DisarmedBy(r, k) && !r.RejoinBy(k)
    && from.Some? && Since(now, from.value) <= cfg.fallbackBudget
    && now >= if slot.Some? then slot.value else from.value + cfg.fallbackFirst
  }

  /** Event `d` starts a sequence: an advert's, or a page's. */
  ghost predicate StartsBy(r: Run, d: nat)
    requires d < |r.es|
    decreases d, 5
  {
    OpensEpisode(r, d) || PagesBy(r, d)
  }

  ghost function StartedBy(r: Run, k: nat): nat
    requires k <= |r.es|
    decreases k, 0
  {
    if k == 0 then 0 else StartedBy(r, k - 1) + if StartsBy(r, k - 1) then 1 else 0
  }

  /** The sequence of event `d` is still pending before event `k`. */
  ghost predicate LiveBy(r: Run, d: nat, k: nat)
    requires d < k <= |r.es|
    decreases k, 1
  {
    StartsBy(r, d) && forall m :: d < m < k ==> !EndsBy(r, d, m)
  }

  /** Its connects before event `k`. */
  ghost function CountBy(r: Run, d: nat, k: nat): nat
    requires d <= k <= |r.es|
    decreases k, 0
  {
    if k == d then 0 else CountBy(r, d, k - 1) + if ConnectsBy(r, d, k - 1) then 1 else 0
  }

  /** One of its connects has no answer yet. */
  ghost predicate InFlightBy(r: Run, d: nat, k: nat)
    requires d < k <= |r.es|
    decreases k, 1
  {
    exists c :: d <= c < k && ConnectsBy(r, d, c) && forall m :: c < m < k ==> !RetriesBy(r, d, m)
  }

  /** When it may connect next. */
  ghost function DueBy(r: Run, d: nat, k: nat): Millis
    requires d < k <= |r.es|
    decreases k, 0
  {
    if k == d + 1 then r.es[d].now + if PagesBy(r, d) then 0 else r.init.cfg.settle
    else if RetriesBy(r, d, k - 1) then r.es[k - 1].now + Backoff(CountBy(r, d, k - 1))
    else DueBy(r, d, k - 1)
  }

  /** The tick at `m` finds it waiting and due. */
  ghost predicate TurnBy(r: Run, d: nat, m: nat)
    requires d < m < |r.es|
    decreases m, 5
  {
    r.es[m].event.Tick? && LiveBy(r, d, m) && !InFlightBy(r, d, m) && r.es[m].now >= DueBy(r, d, m)
  }

  /** Its turn passes: the link is up, a rejoin runs, or no advert of the last 10 s backs another try. */
  ghost predicate BlockedBy(r: Run, d: nat, m: nat)
    requires d < m < |r.es|
    decreases m, 5
  {
    var last := ActivityBy(r, m);
    LinkBy(r, m) || r.RejoinBy(m)
    || (CountBy(r, d, m) > 0 && (last.None? || Since(r.es[m].now, last.value) > ADVERT_FRESH))
  }

  /** It connects at event `c`: a page at once, an advert's sequence when its turn comes unblocked. */
  ghost predicate ConnectsBy(r: Run, d: nat, c: nat)
    requires d <= c < |r.es|
    decreases c, 6
  {
    if c == d then PagesBy(r, d) else TurnBy(r, d, c) && !BlockedBy(r, d, c)
  }

  /** Event `k` is the outcome of its connect in flight. */
  ghost predicate ReportsBy(r: Run, d: nat, k: nat)
    requires d < k < |r.es|
    decreases k, 2
  {
    r.es[k].event.ConnectFinished? && r.es[k].event.seqNo == StartedBy(r, d + 1)
    && LiveBy(r, d, k) && InFlightBy(r, d, k)
  }

  predicate IsFailure(outcome: Rejoin.Outcome) {
    !outcome.Connected? && !NotAFailure(outcome)
  }

  /** Its connect failed, and an advert's sequence may try four times. */
  ghost predicate RetriesBy(r: Run, d: nat, m: nat)
    requires d < m < |r.es|
    decreases m, 5
  {
    ReportsBy(r, d, m) && !PagesBy(r, d) && IsFailure(r.es[m].event.outcome) && CountBy(r, d, m) < MAX_ATTEMPTS
  }

  /** Event `m` ends it. */
  ghost predicate EndsBy(r: Run, d: nat, m: nat)
    requires d < m < |r.es|
    decreases m, 6
  {
    match r.es[m].event
    case LocalConnected => true
    case LocalDisconnected(_) => true
    case ManualCommand => true
    case Tick => TurnBy(r, d, m) && BlockedBy(r, d, m)
    case ConnectFinished(_, _) => ReportsBy(r, d, m) && !RetriesBy(r, d, m)
    case _ => false
  }

  // ---- one step, read off the state

  predicate Opens(s: State, e: Event, now: Millis) {
    Accepted(s.cfg, e) && s.pending.None? && Absent(s, now)
  }

  predicate Begins(s: State, e: Event, now: Millis) {
    Opens(s, e, now) && !s.connected && !s.rejoinPending
  }

  function From(s: State, now: Millis): Option<Millis> {
    if s.fallbackStart && !s.connected then Some(now) else s.fallbackFrom
  }

  predicate PagesNow(s: State, e: Event, now: Millis) {
    var from := From(s, now);
    e.Tick? && s.cfg.enabled && s.cfg.fallbackBudget != 0
    && s.pending.None? && !s.connected && !s.disarmed && !s.rejoinPending
    && from.Some? && Since(now, from.value) <= s.cfg.fallbackBudget
    && now >= if s.fallbackNext.Some? then s.fallbackNext.value else from.value + s.cfg.fallbackFirst
  }

  predicate Waits(s: State, now: Millis) {
    s.pending.Some? && !s.pending.value.inFlight && now >= s.pending.value.due
  }

  predicate Blocked(s: State, now: Millis) {
    s.connected || s.rejoinPending
    || (s.pending.Some? && s.pending.value.attempt > 1
        && (s.lastSeen.None? || Since(now, s.lastSeen.value) > ADVERT_FRESH))
  }

  predicate Flying(s: State, e: Event) {
    e.ConnectFinished? && s.pending.Some? && s.pending.value.seqNo == e.seqNo && s.pending.value.inFlight
  }

  predicate Brings(s: State, e: Event) {
    Flying(s, e) && s.pending.value.fallback
    && (e.outcome.Connected? || e.outcome == Rejoin.NotReady(Rejoin.ConnectedByOtherMeans))
  }

  predicate Again(s: State, e: Event) {
    Flying(s, e) && !s.pending.value.fallback && IsFailure(e.outcome) && s.pending.value.attempt < MAX_ATTEMPTS
  }

  predicate Closes(s: State, e: Event) {
    e.LocalConnected? || (e.LocalDisconnected? && e.reason != Rejoin.Unknown && !AwayDrop(e)) || Brings(s, e)
  }

  /** Something pending needs the feature on: it is a constant of the machine. */
  predicate Able(s: State) {
    s.pending.Some? ==> s.cfg.enabled
  }

  ghost predicate FlagsAfter(s: State, e: Event, now: Millis, t: State) {
    t.cfg == s.cfg
    && t.connected == (e.LocalConnected?
                       || (!e.LocalDisconnected? && (s.connected || (Flying(s, e) && e.outcome.Connected?))))
    && t.disarmed == (Disarms(e) || (s.disarmed && !Opens(s, e, now)))
    && t.lastSeen == (if LinkChange(e) || Accepted(s.cfg, e) then Some(now) else s.lastSeen)
    && t.fallbackFrom == (if e.SetRejoinPending? then s.fallbackFrom
                          else if AwayDrop(e) then Some(now)
                          else if Closes(s, e) then None else From(s, now))
    && t.fallbackNext == (if AwayDrop(e) || Closes(s, e) then None
                          else if PagesNow(s, e, now) then Some(now + s.cfg.fallbackInterval) else s.fallbackNext)
  }

  ghost predicate PendingAfter(s: State, e: Event, now: Millis, t: State) {
    t.seqNo == s.seqNo + (if Begins(s, e, now) || PagesNow(s, e, now) then 1 else 0)
    && t.pending == (
         if Begins(s, e, now) then Some(Pending(s.seqNo + 1, 1, now + s.cfg.settle, false, false))
         else if PagesNow(s, e, now) then Some(Pending(s.seqNo + 1, 1, now, true, true))
         else if LinkChange(e) || e.ManualCommand? then None
         else if e.Tick? && Waits(s, now) then
           if Blocked(s, now) then None else Some(s.pending.value.(inFlight := true))
         else if Again(s, e) then
           Some(s.pending.value.(attempt := s.pending.value.attempt + 1, inFlight := false,
                                 due := now + Backoff(s.pending.value.attempt)))
         else if Flying(s, e) then None
         else s.pending)
  }

  lemma FlagsStep(s: State, e: Event, now: Millis)
    requires Able(s)
    ensures FlagsAfter(s, e, now, Step(s, e, now).state)
  {
    match e
    case Seen(_) =>
    case Tick =>
    case LocalDisconnected(_) => DropFlags(s, e, now);
    case ConnectFinished(_, _) => OutcomeFlags(s, e, now);
    case _ =>
  }

  lemma OutcomeFlags(s: State, e: Event, now: Millis)
    requires e.ConnectFinished?
    ensures FlagsAfter(s, e, now, Step(s, e, now).state)
  {}

  lemma DropFlags(s: State, e: Event, now: Millis)
    requires e.LocalDisconnected?
    ensures FlagsAfter(s, e, now, Step(s, e, now).state)
  {}

  lemma PendingStep(s: State, e: Event, now: Millis)
    requires Able(s)
    ensures PendingAfter(s, e, now, Step(s, e, now).state)
  {
    match e
    case Tick => TickPending(s, now);
    case ConnectFinished(_, _) => OutcomePending(s, e, now);
    case _ =>
  }

  lemma OutcomePending(s: State, e: Event, now: Millis)
    requires Able(s) && e.ConnectFinished?
    ensures PendingAfter(s, e, now, Step(s, e, now).state)
  {}

  lemma TickPending(s: State, now: Millis)
    requires Able(s)
    ensures PendingAfter(s, Tick, now, Step(s, Tick, now).state)
  {}

  // ---- the machine follows the history

  /** What is pending, told by the history: whose sequence, which connect, in flight or due when. */
  ghost predicate Tells(r: Run, d: nat, k: nat)
    requires d < k <= |r.es|
  {
    var p := r.At(k).pending;
    p.Some? && p.value.seqNo == StartedBy(r, d + 1) && p.value.inFlight == InFlightBy(r, d, k)
    && p.value.attempt == CountBy(r, d, k) + (if InFlightBy(r, d, k) then 0 else 1)
    && p.value.due == DueBy(r, d, k) && p.value.fallback == PagesBy(r, d)
  }

  ghost predicate FlagsTold(r: Run, k: nat)
    requires k <= |r.es|
  {
    var s := r.At(k);
    s.cfg == r.init.cfg && s.rejoinPending == r.RejoinBy(k) && s.lastSeen == ActivityBy(r, k)
    && s.connected == LinkBy(r, k) && s.disarmed == DisarmedBy(r, k)
    && s.fallbackFrom == AwayBy(r, k) && s.fallbackNext == SlotBy(r, k) && s.seqNo == StartedBy(r, k)
    && (s.fallbackStart <==> r.Untouched(k)) && (r.Untouched(k) ==> !s.connected) && Able(s)
  }

  ghost predicate PendingTold(r: Run, k: nat)
    requires k <= |r.es|
  {
    (r.At(k).pending.Some? <==> !IdleBy(r, k)) && forall d :: 0 <= d < k && LiveBy(r, d, k) ==> Tells(r, d, k)
  }

  /** Event `k` in the state it finds means what it means in the history. */
  lemma EventReads(r: Run, k: nat)
    requires k < |r.es| && FlagsTold(r, k) && PendingTold(r, k)
    ensures var s, e, now := r.At(k), r.es[k].event, r.es[k].now;
      (Opens(s, e, now) <==> OpensBy(r, k)) && (Begins(s, e, now) <==> OpensEpisode(r, k))
      && (PagesNow(s, e, now) <==> PagesBy(r, k)) && (!e.SetRejoinPending? ==> From(s, now) == AwayAt(r, k))
  {
    hide LinkBy, DisarmedBy, AwayBy, SlotBy, IdleBy, ActivityBy, StartedBy, Tells;
  }

  /** What a live sequence can do with event `k`, read off the state. */
  lemma LiveReads(r: Run, d: nat, k: nat)
    requires d < k < |r.es| && FlagsTold(r, k) && LiveBy(r, d, k) && Tells(r, d, k)
    ensures var s, e, now := r.At(k), r.es[k].event, r.es[k].now;
      (TurnBy(r, d, k) <==> e.Tick? && Waits(s, now)) && (ReportsBy(r, d, k) <==> Flying(s, e))
      && (RetriesBy(r, d, k) <==> Again(s, e))
      && (e.Tick? && Waits(s, now) ==> (BlockedBy(r, d, k) <==> Blocked(s, now)))
      && (ConnectsBy(r, d, k) <==> e.Tick? && Waits(s, now) && !Blocked(s, now))
  {
    hide LiveBy, InFlightBy, StartedBy, CountBy, DueBy, LinkBy, DisarmedBy, AwayBy, SlotBy, ActivityBy, PagesBy;
  }

  lemma EndsReads(r: Run, d: nat, k: nat)
    requires d < k < |r.es| && FlagsTold(r, k) && LiveBy(r, d, k) && Tells(r, d, k)
    ensures var s, e, now := r.At(k), r.es[k].event, r.es[k].now;
      EndsBy(r, d, k)
      <==> LinkChange(e) || e.ManualCommand? || (e.Tick? && Waits(s, now) && Blocked(s, now))
           || (Flying(s, e) && !Again(s, e))
  {
    LiveReads(r, d, k);
    hide TurnBy, BlockedBy, ReportsBy, RetriesBy, LiveBy, Tells, FlagsTold, Blocked, Again, Waits, ConnectsBy;
  }

  // ---- one more event

  lemma Outstanding(r: Run, d: nat, k: nat) returns (c: nat)
    requires d < k <= |r.es| && InFlightBy(r, d, k)
    ensures d <= c < k && ConnectsBy(r, d, c) && forall m :: c < m < k ==> !RetriesBy(r, d, m)
  {
    c :| d <= c < k && ConnectsBy(r, d, c) && forall m :: c < m < k ==> !RetriesBy(r, d, m);
  }

  lemma OutstandingIs(r: Run, d: nat, k: nat, c: nat)
    requires d <= c < k <= |r.es| && ConnectsBy(r, d, c) && forall m :: c < m < k ==> !RetriesBy(r, d, m)
    ensures InFlightBy(r, d, k)
  {}

  lemma InFlightStep(r: Run, d: nat, k: nat)
    requires d < k < |r.es|
    ensures InFlightBy(r, d, k + 1) <==> ConnectsBy(r, d, k) || (InFlightBy(r, d, k) && !RetriesBy(r, d, k))
  {
    hide ConnectsBy, RetriesBy, InFlightBy;
    if InFlightBy(r, d, k + 1) {
      var c := Outstanding(r, d, k + 1);
      if c < k { OutstandingIs(r, d, k, c); }
    }
    if ConnectsBy(r, d, k) { OutstandingIs(r, d, k + 1, k); }
    if InFlightBy(r, d, k) && !RetriesBy(r, d, k) {
      var c := Outstanding(r, d, k);
      OutstandingIs(r, d, k + 1, c);
    }
  }

  lemma TalliesStep(r: Run, d: nat, k: nat)
    requires d < k < |r.es|
    ensures CountBy(r, d, k + 1) == CountBy(r, d, k) + if ConnectsBy(r, d, k) then 1 else 0
    ensures DueBy(r, d, k + 1)
      == if RetriesBy(r, d, k) then r.es[k].now + Backoff(CountBy(r, d, k)) else DueBy(r, d, k)
  {
    hide ConnectsBy, RetriesBy;
  }

  lemma LiveStep(r: Run, d: nat, k: nat)
    requires d < k < |r.es|
    ensures LiveBy(r, d, k + 1) <==> LiveBy(r, d, k) && !EndsBy(r, d, k)
  {
    hide EndsBy, StartsBy;
  }

  lemma SwitchedOff(r: Run, k: nat) returns (m: nat)
    requires k <= |r.es| && DisarmedBy(r, k)
    ensures m < k && Disarms(r.es[m].event) && forall j :: m < j < k ==> !OpensBy(r, j)
  {
    m :| m < k && Disarms(r.es[m].event) && forall j :: m < j < k ==> !OpensBy(r, j);
  }

  lemma DisarmedStep(r: Run, k: nat)
    requires k < |r.es|
    ensures DisarmedBy(r, k + 1) <==> Disarms(r.es[k].event) || (DisarmedBy(r, k) && !OpensBy(r, k))
  {
    hide OpensBy;
    if DisarmedBy(r, k + 1) {
      var m := SwitchedOff(r, k + 1);
      if m < k { SwitchedOffIs(r, k, m); }
    }
    if Disarms(r.es[k].event) { SwitchedOffIs(r, k + 1, k); }
    if DisarmedBy(r, k) && !OpensBy(r, k) {
      var m := SwitchedOff(r, k);
      SwitchedOffIs(r, k + 1, m);
    }
  }

  lemma SwitchedOffIs(r: Run, k: nat, m: nat)
    requires m < k <= |r.es| && Disarms(r.es[m].event) && forall j :: m < j < k ==> !OpensBy(r, j)
    ensures DisarmedBy(r, k)
  {}

  lemma SomeLive(r: Run, k: nat) returns (d: nat)
    requires k <= |r.es| && !IdleBy(r, k)
    ensures d < k && LiveBy(r, d, k)
  {
    d :| d < k && LiveBy(r, d, k);
  }

  lemma LiveIsNotIdle(r: Run, d: nat, k: nat)
    requires d < k <= |r.es| && LiveBy(r, d, k)
    ensures !IdleBy(r, k)
  {}

  /** The step behind event `k`. */
  lemma Stepped(r: Run, k: nat)
    requires r.Valid() && k < |r.es| && Able(r.At(k))
    ensures FlagsAfter(r.At(k), r.es[k].event, r.es[k].now, r.At(k + 1))
    ensures PendingAfter(r.At(k), r.es[k].event, r.es[k].now, r.At(k + 1))
    ensures Next(r.es[k].post, r.es[k].out) == Step(r.At(k), r.es[k].event, r.es[k].now)
  {
    hide FlagsAfter, PendingAfter, Step;
    assert r.Linked(k);
    FlagsStep(r.At(k), r.es[k].event, r.es[k].now);
    PendingStep(r.At(k), r.es[k].event, r.es[k].now);
  }

  /** Outcomes that count, read off the state. */
  lemma OutcomeReads(r: Run, k: nat)
    requires k < |r.es| && FlagsTold(r, k) && PendingTold(r, k)
    ensures var s, e := r.At(k), r.es[k].event;
      (GoesThrough(r, k) <==> Flying(s, e) && e.outcome.Connected?) && (PageBringsBack(r, k) <==> Brings(s, e))
      && (EndsAway(r, k) <==> Closes(s, e))
  {
    var s, e := r.At(k), r.es[k].event;
    hide FlagsTold, LiveBy, IdleBy;
    if Flying(s, e) {
      var d := SomeLive(r, k);
      LiveReads(r, d, k);
      assert ReportsBy(r, d, k);
    }
    if GoesThrough(r, k) {
      var d := Through(r, k);
      LiveReads(r, d, k);
    }
    if PageBringsBack(r, k) {
      var d := BroughtBack(r, k);
      LiveReads(r, d, k);
    }
  }

  lemma Through(r: Run, k: nat) returns (d: nat)
    requires k < |r.es| && GoesThrough(r, k)
    ensures d < k && ReportsBy(r, d, k) && LiveBy(r, d, k)
  {
    d :| d < k && ReportsBy(r, d, k);
  }

  lemma BroughtBack(r: Run, k: nat) returns (d: nat)
    requires k < |r.es| && PageBringsBack(r, k)
    ensures d < k && PagesBy(r, d) && ReportsBy(r, d, k) && LiveBy(r, d, k)
  {
    d :| d < k && PagesBy(r, d) && ReportsBy(r, d, k);
  }

  lemma FlagsFollow(r: Run, k: nat)
    requires r.Valid() && k < |r.es| && FlagsTold(r, k) && PendingTold(r, k)
    ensures FlagsTold(r, k + 1)
  {
    Stepped(r, k);
    EventReads(r, k);
    OutcomeReads(r, k);
    DisarmedStep(r, k);
    StartFlag(r, k + 1);
    FlagFollowsEvents(r, k + 1);
    assert Able(r.At(k + 1));
    hide OpensBy, OpensEpisode, PagesBy, GoesThrough, PageBringsBack, EndsAway, DisarmedBy, PendingTold, Opens, Begins;
    hide PagesNow, Closes, Brings, Flying, Step;
    var t := r.At(k + 1);
    assert t.connected == LinkBy(r, k + 1);
    assert t.disarmed == DisarmedBy(r, k + 1);
    assert t.fallbackNext == SlotBy(r, k + 1);
    assert t.seqNo == StartedBy(r, k + 1);
    assert t.lastSeen == ActivityBy(r, k + 1);
    assert t.fallbackFrom == AwayBy(r, k + 1);
  }

  /** A sequence just started is told. */
  lemma StartTells(r: Run, k: nat)
    requires r.Valid() && k < |r.es| && FlagsTold(r, k) && PendingTold(r, k) && StartsBy(r, k)
    ensures Tells(r, k, k + 1)
  {
    Stepped(r, k);
    EventReads(r, k);
    hide OpensBy, PendingTold, Opens, Step, FlagsAfter, LinkBy, DisarmedBy, AwayBy, SlotBy, IdleBy, ActivityBy;
    assert StartedBy(r, k + 1) == StartedBy(r, k) + 1;
    assert CountBy(r, k, k + 1) == if PagesBy(r, k) then 1 else 0;
    if PagesBy(r, k) {
      OutstandingIs(r, k, k + 1, k);
    } else if InFlightBy(r, k, k + 1) {
      var c := Outstanding(r, k, k + 1);
    }
    assert DueBy(r, k, k + 1) == r.es[k].now + if PagesBy(r, k) then 0 else r.init.cfg.settle;
  }

  /** A live sequence that event `k` does not end stays told. */
  lemma TellsStep(r: Run, d: nat, k: nat)
    requires r.Valid() && d < k < |r.es| && FlagsTold(r, k) && PendingTold(r, k) && LiveBy(r, d, k)
    requires !EndsBy(r, d, k)
    ensures Tells(r, d, k + 1)
  {
    assert Tells(r, d, k);
    LiveReads(r, d, k);
    EndsReads(r, d, k);
    InFlightStep(r, d, k);
    TalliesStep(r, d, k);
    Stepped(r, k);
    hide LiveBy, InFlightBy, StartedBy, CountBy, DueBy, ReportsBy, RetriesBy, ConnectsBy, EndsBy, TurnBy, BlockedBy;
    hide FlagsTold, PendingTold, Step, FlagsAfter, IdleBy, PagesBy;
  }

  lemma PendingFollows(r: Run, k: nat)
    requires r.Valid() && k < |r.es| && FlagsTold(r, k) && PendingTold(r, k)
    ensures PendingTold(r, k + 1)
  {
    hide FlagsTold, StartsBy, EndsBy, LiveBy, IdleBy, Tells;
    var n := k + 1;
    forall d | 0 <= d < n && LiveBy(r, d, n) ensures Tells(r, d, n) && r.At(n).pending.Some? && !IdleBy(r, n) {
      LiveIsNotIdle(r, d, k + 1);
      if d == k {
        LiveStarts(r, d, k + 1);
        StartTells(r, k);
      } else {
        LiveStep(r, d, k);
        TellsStep(r, d, k);
      }
      TellsSome(r, d, k + 1);
    }
    if r.At(k + 1).pending.Some? {
      var d := PendingLives(r, k);
      LiveIsNotIdle(r, d, k + 1);
    }
    if !IdleBy(r, k + 1) { var d := SomeLive(r, k + 1); }
  }

  lemma LiveStarts(r: Run, d: nat, k: nat)
    requires d < k <= |r.es| && LiveBy(r, d, k)
    ensures StartsBy(r, d)
  {}

  lemma TellsSome(r: Run, d: nat, k: nat)
    requires d < k <= |r.es| && Tells(r, d, k)
    ensures r.At(k).pending.Some?
  {}

  lemma PendingLives(r: Run, k: nat) returns (d: nat)
    requires r.Valid() && k < |r.es| && FlagsTold(r, k) && PendingTold(r, k) && r.At(k + 1).pending.Some?
    ensures d < k + 1 && LiveBy(r, d, k + 1)
  {
    Stepped(r, k);
    EventReads(r, k);
    hide Step, OpensBy, OpensEpisode, PagesBy, FlagsAfter, Opens, Begins, PagesNow, LiveBy, EndsBy, IdleBy;
    var s, e, now := r.At(k), r.es[k].event, r.es[k].now;
    if Begins(s, e, now) || PagesNow(s, e, now) {
      d := k;
      StartIsLive(r, k);
    } else {
      d := SomeLive(r, k);
      EndsReads(r, d, k);
      LiveStep(r, d, k);
    }
  }

  lemma StartIsLive(r: Run, k: nat)
    requires k < |r.es| && (OpensEpisode(r, k) || PagesBy(r, k))
    ensures LiveBy(r, k, k + 1)
  {
    hide OpensEpisode, PagesBy;
  }

  /** Every flag and every pending sequence of every run is what its history says. */
  lemma {:induction false} Follows(r: Run, k: nat)
    requires r.Valid() && k <= |r.es|
    ensures FlagsTold(r, k) && PendingTold(r, k)
  {
    if k == 0 {
      AtFirst(r);
    } else {
      hide FlagsTold, PendingTold;
      Follows(r, k - 1);
      FlagsFollow(r, k - 1);
      PendingFollows(r, k - 1);
    }
  }

  lemma AtFirst(r: Run)
    requires r.Valid()
    ensures FlagsTold(r, 0) && PendingTold(r, 0)
  {
    StartFlag(r, 0);
  }

  // ---- what one step answers

  function CancelReason(s: State, e: Event, now: Millis): Option<Why> {
    match e
    case LocalConnected => if s.pending.Some? && !s.pending.value.inFlight then Some(AlreadyConnected) else None
    case LocalDisconnected(_) => Some(WentDown)
    case ManualCommand => Some(Manual)
    case Tick =>
      if !Waits(s, now) || !Blocked(s, now) then None
      else if s.connected then Some(AlreadyConnected)
      else if s.rejoinPending then Some(RejoinPending)
      else Some(StaleAdverts)
    case ConnectFinished(_, outcome) =>
      if Flying(s, e) && NotAFailure(outcome) then Some(Refused(outcome.why)) else None
    case _ => None
  }

  function SkipReason(s: State, e: Event, now: Millis): Option<Why> {
    if !e.Seen? || !s.cfg.enabled then None
    else if Weak(s, e.rssi) then Some(RssiBelowMin)
    else if !Opens(s, e, now) then None
    else if s.connected then Some(AlreadyConnected)
    else if s.rejoinPending then Some(RejoinPending)
    else None
  }

  function DisarmReason(e: Event): Why {
    if e.ManualCommand? then Manual else LocalDisconnect
  }

  ghost predicate StartAnswers(s: State, e: Event, now: Millis, out: seq<Action>) {
    (forall rssi, delay ::
       (EpisodeStarted(rssi, delay) in out <==> Begins(s, e, now) && rssi == e.rssi && delay == s.cfg.settle))
    && (Rearmed in out <==> Opens(s, e, now) && s.disarmed)
    && (forall why :: (Disarmed(why) in out <==> Disarms(e) && !s.disarmed && why == DisarmReason(e)))
    && (forall away, next ::
          (FallbackPage(away, next) in out
           <==> PagesNow(s, e, now) && away == Since(now, From(s, now).value) && next == s.cfg.fallbackInterval))
    && (forall why :: (Skipped(why) in out <==> SkipReason(s, e, now) == Some(why)))
  }

  ghost predicate SequenceAnswers(s: State, e: Event, now: Millis, out: seq<Action>) {
    (forall q, a ::
       (Connect(q, a) in out
        <==> (PagesNow(s, e, now) && q == s.seqNo + 1 && a == 1)
             || (e.Tick? && Waits(s, now) && !Blocked(s, now)
                 && q == s.pending.value.seqNo && a == s.pending.value.attempt)))
    && (forall a, w ::
          (Retry(a, w) in out
           <==> Again(s, e) && a == s.pending.value.attempt + 1 && w == Backoff(s.pending.value.attempt)))
    && (GaveUp in out
        <==> Flying(s, e) && !s.pending.value.fallback && IsFailure(e.outcome)
             && s.pending.value.attempt >= MAX_ATTEMPTS)
    && (FallbackFailed in out <==> Flying(s, e) && s.pending.value.fallback && IsFailure(e.outcome))
    && (Connected in out
        <==> (e.LocalConnected? && s.pending.Some? && s.pending.value.inFlight)
             || (Flying(s, e) && e.outcome.Connected?))
    && (forall why :: (Cancelled(why) in out <==> s.pending.Some? && CancelReason(s, e, now) == Some(why)))
  }

  ghost predicate Answered(s: State, e: Event, now: Millis, out: seq<Action>) {
    StartAnswers(s, e, now, out) && SequenceAnswers(s, e, now, out)
  }

  lemma SeenStart(s: State, e: Event, now: Millis)
    requires e.Seen?
    ensures StartAnswers(s, e, now, Step(s, e, now).out)
  {
    var out := Step(s, e, now).out;
    assert out != [] ==> out[0] in out && out[|out| - 1] in out;
  }

  lemma SeenSequence(s: State, e: Event, now: Millis)
    requires e.Seen?
    ensures SequenceAnswers(s, e, now, Step(s, e, now).out)
  {
    var out := Step(s, e, now).out;
    assert out != [] ==> out[0] in out && out[|out| - 1] in out;
  }

  lemma SeenAnswers(s: State, e: Event, now: Millis)
    requires e.Seen?
    ensures Answered(s, e, now, Step(s, e, now).out)
  {
    hide StartAnswers, SequenceAnswers, Step;
    SeenStart(s, e, now);
    SeenSequence(s, e, now);
  }

  lemma TickStart(s: State, now: Millis)
    requires Able(s)
    ensures StartAnswers(s, Tick, now, Step(s, Tick, now).out)
  {
    var out := Step(s, Tick, now).out;
    assert out != [] ==> out[0] in out && out[|out| - 1] in out;
  }

  lemma TickSequence(s: State, now: Millis)
    requires Able(s)
    ensures SequenceAnswers(s, Tick, now, Step(s, Tick, now).out)
  {
    var out := Step(s, Tick, now).out;
    assert out != [] ==> out[0] in out && out[|out| - 1] in out;
  }

  lemma TickAnswers(s: State, now: Millis)
    requires Able(s)
    ensures Answered(s, Tick, now, Step(s, Tick, now).out)
  {
    hide StartAnswers, SequenceAnswers, Step;
    TickStart(s, now);
    TickSequence(s, now);
  }

  lemma OutcomeStart(s: State, e: Event, now: Millis)
    requires e.ConnectFinished?
    ensures StartAnswers(s, e, now, Step(s, e, now).out)
  {
    var out := Step(s, e, now).out;
    assert out != [] ==> out[0] in out;
  }

  lemma OutcomeSequence(s: State, e: Event, now: Millis)
    requires e.ConnectFinished?
    ensures SequenceAnswers(s, e, now, Step(s, e, now).out)
  {
    var out := Step(s, e, now).out;
    assert !PagesNow(s, e, now) && CancelReason(s, e, now).Some? ==> Flying(s, e);
    assert out != [] ==> out[0] in out;
    hide PagesNow, Waits, Blocked, Anchor;
  }

  lemma OutcomeAnswers(s: State, e: Event, now: Millis)
    requires e.ConnectFinished?
    ensures Answered(s, e, now, Step(s, e, now).out)
  {
    hide StartAnswers, SequenceAnswers, Step;
    OutcomeStart(s, e, now);
    OutcomeSequence(s, e, now);
  }

  lemma UpAnswers(s: State, now: Millis)
    ensures Answered(s, LocalConnected, now, Step(s, LocalConnected, now).out)
  {
    var out := Step(s, LocalConnected, now).out;
    assert out != [] ==> out[0] in out;
  }

  lemma FlagAnswers(s: State, e: Event, now: Millis)
    requires e.SetRejoinPending?
    ensures Answered(s, e, now, Step(s, e, now).out)
  {
    assert Step(s, e, now).out == [];
  }

  /** What a drop or a command answers: the cancel, then that the machine is switched off. */
  function OffOut(s: State, e: Event): seq<Action> {
    (if s.pending.Some? then [Cancelled(if e.ManualCommand? then Manual else WentDown)] else [])
    + (if Disarms(e) && !s.disarmed then [Disarmed(DisarmReason(e))] else [])
  }

  lemma OffStep(s: State, e: Event, now: Millis)
    requires e.LocalDisconnected? || e.ManualCommand?
    ensures Step(s, e, now).out == OffOut(s, e)
  {}

  lemma OffHas(s: State, e: Event)
    ensures forall a ::
      (a in OffOut(s, e)
       <==> (s.pending.Some? && a == Cancelled(if e.ManualCommand? then Manual else WentDown))
            || (Disarms(e) && !s.disarmed && a == Disarmed(DisarmReason(e))))
  {
    hide Disarms, DisarmReason;
  }

  lemma OffAnswers(s: State, e: Event, now: Millis)
    requires e.LocalDisconnected? || e.ManualCommand?
    ensures Answered(s, e, now, Step(s, e, now).out)
  {
    OffStep(s, e, now);
    OffHas(s, e);
    NothingElse(s, e, now);
    OffLists(s, e, now, OffOut(s, e));
    hide Step, OffOut, Answered;
  }

  lemma OffLists(s: State, e: Event, now: Millis, out: seq<Action>)
    requires e.LocalDisconnected? || e.ManualCommand?
    requires !Opens(s, e, now) && !PagesNow(s, e, now) && !Flying(s, e)
    requires forall a ::
      (a in out
       <==> (s.pending.Some? && a == Cancelled(if e.ManualCommand? then Manual else WentDown))
            || (Disarms(e) && !s.disarmed && a == Disarmed(DisarmReason(e))))
    ensures Answered(s, e, now, out)
  {
    hide Opens, PagesNow, Flying, Disarms, DisarmReason, Waits, Blocked, From, IsFailure;
  }

  lemma NothingElse(s: State, e: Event, now: Millis)
    requires e.LocalDisconnected? || e.ManualCommand?
    ensures !Opens(s, e, now) && !PagesNow(s, e, now) && !Flying(s, e)
  {}

  lemma StepAnswers(s: State, e: Event, now: Millis)
    requires Able(s)
    ensures Answered(s, e, now, Step(s, e, now).out)
  {
    hide Answered, Step;
    match e
    case Seen(_) => SeenAnswers(s, e, now);
    case Tick => TickAnswers(s, now);
    case ConnectFinished(_, _) => OutcomeAnswers(s, e, now);
    case LocalConnected => UpAnswers(s, now);
    case SetRejoinPending(_) => FlagAnswers(s, e, now);
    case _ => OffAnswers(s, e, now);
  }

  // ---- every answer, told by the history

  /** What event `k` is answered, and what it means in the history. */
  lemma Answers(r: Run, k: nat)
    requires r.Valid() && k < |r.es|
    ensures Answered(r.At(k), r.es[k].event, r.es[k].now, r.es[k].out) && FlagsTold(r, k) && PendingTold(r, k)
  {
    Follows(r, k);
    hide Answered, Step, FlagsAfter, PendingAfter, PendingTold;
    assert Able(r.At(k));
    Stepped(r, k);
    StepAnswers(r.At(k), r.es[k].event, r.es[k].now);
  }

  /** The machine is off exactly while no advert after a whole absence has followed the latest switch-off. */
  lemma DisarmedIff(r: Run, k: nat)
    requires r.Valid() && k <= |r.es|
    ensures r.At(k).disarmed <==> DisarmedBy(r, k)
  {
    hide DisarmedBy;
    Follows(r, k);
  }

  /**
   An advert is answered with an episode exactly when it opens one, being off ends exactly on an advert that ends an
   absence, and being switched off is reported exactly once.
   */
  lemma SwitchesIff(r: Run, k: nat)
    requires r.Valid() && k < |r.es|
    ensures EpisodeIn(r.es[k].out) <==> OpensEpisode(r, k)
    ensures Rearmed in r.es[k].out <==> OpensBy(r, k) && DisarmedBy(r, k)
    ensures forall why ::
      (Disarmed(why) in r.es[k].out
       <==> Disarms(r.es[k].event) && !DisarmedBy(r, k) && why == DisarmReason(r.es[k].event))
  {
    Answers(r, k);
    EventReads(r, k);
    hide OpensBy, OpensEpisode, Begins, Opens, LinkBy, AwayBy, SlotBy, DisarmedBy, PagesBy, PendingTold, Run.Valid;
    hide SequenceAnswers;
    var out, e := r.es[k].out, r.es[k].event;
    if OpensEpisode(r, k) {
      assert EpisodeStarted(e.rssi, r.init.cfg.settle) in out;
    }
    if a :| a in out && a.EpisodeStarted? {
      assert EpisodeStarted(a.rssi, a.delay) in out;
    }
  }

  /** A page goes out exactly when its slot has come, with the time away and the wait for the next one. */
  lemma PagesIff(r: Run, k: nat, away: Millis, next: Millis)
    requires r.Valid() && k < |r.es|
    ensures FallbackPage(away, next) in r.es[k].out
       <==> PagesBy(r, k) && away == Since(r.es[k].now, AwayAt(r, k).value) && next == r.init.cfg.fallbackInterval
  {
    Answers(r, k);
    EventReads(r, k);
    hide OpensBy, OpensEpisode, Begins, Opens, LinkBy, AwayBy, SlotBy, DisarmedBy, PendingTold, Run.Valid, IdleBy;
    hide SequenceAnswers, AwayAt, From;
  }

  /** A connect goes out exactly for a page, or for an advert's sequence whose turn comes unblocked. */
  lemma ConnectsIff(r: Run, k: nat, q: nat, attempt: nat)
    requires r.Valid() && k < |r.es|
    ensures Connect(q, attempt) in r.es[k].out
       <==> exists d :: 0 <= d <= k && ConnectsBy(r, d, k)
                        && q == StartedBy(r, d + 1) && attempt == CountBy(r, d, k) + 1
  {
    Answers(r, k);
    EventReads(r, k);
    hide OpensBy, OpensEpisode, Begins, Opens, LinkBy, AwayBy, SlotBy, DisarmedBy, Run.Valid, PagesBy, PagesNow;
    hide StartAnswers, LiveBy, InFlightBy, DueBy, BlockedBy, Blocked;
    var s, e, now := r.At(k), r.es[k].event, r.es[k].now;
    if Connect(q, attempt) in r.es[k].out {
      if PagesNow(s, e, now) {
        PageNumbers(r, k);
        assert ConnectsBy(r, k, k);
      } else {
        var d := SomeLive(r, k);
        LiveReads(r, d, k);
        assert ConnectsBy(r, d, k);
      }
    }
    if d: nat :| d <= k && ConnectsBy(r, d, k) && q == StartedBy(r, d + 1) && attempt == CountBy(r, d, k) + 1 {
      if d == k {
        PageNumbers(r, k);
      } else {
        assert TurnBy(r, d, k);
        LiveReads(r, d, k);
      }
    }
  }

  lemma PageNumbers(r: Run, k: nat)
    requires k < |r.es| && PagesBy(r, k)
    ensures StartedBy(r, k + 1) == StartedBy(r, k) + 1 && CountBy(r, k, k) == 0
  {
    hide PagesBy;
  }

  /** An advert's connect is tried again exactly after one of its first three failures, with the growing wait. */
  lemma RetriesIff(r: Run, k: nat, attempt: nat, wait: Millis)
    requires r.Valid() && k < |r.es|
    ensures Retry(attempt, wait) in r.es[k].out
       <==> exists d :: 0 <= d < k && RetriesBy(r, d, k)
                        && attempt == CountBy(r, d, k) + 1 && wait == Backoff(CountBy(r, d, k))
  {
    Answers(r, k);
    hide FlagsTold, Run.Valid, StartAnswers, LiveBy, InFlightBy, DueBy, StartedBy, IdleBy, CountBy;
    if Retry(attempt, wait) in r.es[k].out {
      var d := SomeLive(r, k);
      LiveReads(r, d, k);
      assert RetriesBy(r, d, k);
    }
    if d: nat :| d < k && RetriesBy(r, d, k)
                 && attempt == CountBy(r, d, k) + 1 && wait == Backoff(CountBy(r, d, k)) {
      assert ReportsBy(r, d, k);
      LiveReads(r, d, k);
    }
  }

  /** The fourth failure of an advert's sequence ends it, and any failure ends a page. */
  lemma FailuresIff(r: Run, k: nat)
    requires r.Valid() && k < |r.es|
    ensures GaveUp in r.es[k].out
       <==> exists d :: 0 <= d < k && ReportsBy(r, d, k) && !PagesBy(r, d)
                        && IsFailure(r.es[k].event.outcome) && CountBy(r, d, k) >= MAX_ATTEMPTS
    ensures FallbackFailed in r.es[k].out
       <==> exists d :: 0 <= d < k && ReportsBy(r, d, k) && PagesBy(r, d) && IsFailure(r.es[k].event.outcome)
  {
    Answers(r, k);
    hide FlagsTold, Run.Valid, StartAnswers, LiveBy, InFlightBy, DueBy, StartedBy, IdleBy, CountBy, PagesBy;
    if GaveUp in r.es[k].out || FallbackFailed in r.es[k].out {
      var d := SomeLive(r, k);
      LiveReads(r, d, k);
      assert ReportsBy(r, d, k);
    }
    if d: nat :| d < k && ReportsBy(r, d, k) && !PagesBy(r, d)
                 && IsFailure(r.es[k].event.outcome) && CountBy(r, d, k) >= MAX_ATTEMPTS {
      LiveReads(r, d, k);
    }
    if d: nat :| d < k && ReportsBy(r, d, k) && PagesBy(r, d) && IsFailure(r.es[k].event.outcome) {
      LiveReads(r, d, k);
    }
  }

  /** The link comes up while a connect is in flight. */
  ghost predicate ComesUpMeanwhile(r: Run, k: nat)
    requires k < |r.es|
  {
    r.es[k].event.LocalConnected? && exists d :: 0 <= d < k && LiveBy(r, d, k) && InFlightBy(r, d, k)
  }

  lemma Meanwhile(r: Run, k: nat)
    requires k < |r.es| && PendingTold(r, k)
    ensures ComesUpMeanwhile(r, k)
       <==> r.es[k].event.LocalConnected? && r.At(k).pending.Some? && r.At(k).pending.value.inFlight
  {
    if r.At(k).pending.Some? {
      var d := SomeLive(r, k);
      assert Tells(r, d, k);
    }
  }

  /** A connect is said to have worked exactly when its outcome says so, or the link comes up while it is in flight. */
  lemma WorkedIff(r: Run, k: nat)
    requires r.Valid() && k < |r.es|
    ensures Connected in r.es[k].out <==> GoesThrough(r, k) || ComesUpMeanwhile(r, k)
  {
    Answers(r, k);
    OutcomeReads(r, k);
    Meanwhile(r, k);
    hide FlagsTold, PendingTold, Run.Valid, StartAnswers, GoesThrough, ComesUpMeanwhile;
  }

  /** What cancels the sequence of event `d` at event `k`, and why. */
  ghost function CancelBy(r: Run, d: nat, k: nat): Option<Why>
    requires d < k < |r.es|
  {
    if !LiveBy(r, d, k) then None
    else
      match r.es[k].event
      case LocalConnected => if InFlightBy(r, d, k) then None else Some(AlreadyConnected)
      case LocalDisconnected(_) => Some(WentDown)
      case ManualCommand => Some(Manual)
      case Tick =>
        if !TurnBy(r, d, k) || !BlockedBy(r, d, k) then None
        else if LinkBy(r, k) then Some(AlreadyConnected)
        else if r.RejoinBy(k) then Some(RejoinPending)
        else Some(StaleAdverts)
      case ConnectFinished(_, outcome) =>
        if ReportsBy(r, d, k) && NotAFailure(outcome) then Some(Refused(outcome.why)) else None
      case _ => None
  }

  /** A cancel is answered exactly when a live sequence is cancelled, with the reason its event gives. */
  lemma CancelsIff(r: Run, k: nat, why: Why)
    requires r.Valid() && k < |r.es|
    ensures Cancelled(why) in r.es[k].out <==> exists d :: 0 <= d < k && CancelBy(r, d, k) == Some(why)
  {
    Answers(r, k);
    hide Run.Valid, StartAnswers, LiveBy, InFlightBy, DueBy, StartedBy, IdleBy, CountBy, LinkBy, AwayBy, SlotBy;
    hide DisarmedBy, TurnBy, BlockedBy, ReportsBy, Waits, Blocked, PagesBy;
    if Cancelled(why) in r.es[k].out {
      var d := SomeLive(r, k);
      LiveReads(r, d, k);
      assert CancelBy(r, d, k) == Some(why);
    }
    if d: nat :| d < k && CancelBy(r, d, k) == Some(why) {
      LiveReads(r, d, k);
      assert Tells(r, d, k);
    }
  }

  /** Why an advert that might have opened an episode does not. */
  ghost function SkipBy(r: Run, k: nat): Option<Why>
    requires k < |r.es|
  {
    var cfg, e := r.init.cfg, r.es[k].event;
    if !e.Seen? || !cfg.enabled then None
    else if e.rssi.Some? && e.rssi.value < cfg.minRssi then Some(RssiBelowMin)
    else if !OpensBy(r, k) then None
    else if LinkBy(r, k) then Some(AlreadyConnected)
    else if r.RejoinBy(k) then Some(RejoinPending)
    else None
  }

  lemma SkipsIff(r: Run, k: nat, why: Why)
    requires r.Valid() && k < |r.es|
    ensures Skipped(why) in r.es[k].out <==> SkipBy(r, k) == Some(why)
  {
    Answers(r, k);
    EventReads(r, k);
    hide OpensBy, Begins, Opens, LinkBy, AwayBy, SlotBy, DisarmedBy, PagesBy, PendingTold, Run.Valid, SequenceAnswers;
  }

  /** Once switched off by a command or by this host's disconnect, no connect of any kind until an absence is over. */
  lemma OffNeverConnects(r: Run, m: nat, k: nat)
    requires r.Valid() && m < k < |r.es| && Disarms(r.es[m].event)
    requires forall j :: m < j <= k ==> !OpensBy(r, j)
    ensures !ConnectsIn(r.es[k].out) && !PageIn(r.es[k].out) && !EpisodeIn(r.es[k].out)
  {
    hide OpensBy, OpensEpisode;
    SwitchedOffIs(r, k, m);
    DisarmedIff(r, k);
    DisarmedIsQuiet(r, k);
    SwitchesIff(r, k);
    if OpensEpisode(r, k) { OpensFirst(r, k); }
    Took(r, k);
  }

  lemma OpensFirst(r: Run, k: nat)
    requires k < |r.es| && OpensEpisode(r, k)
    ensures OpensBy(r, k)
  {}
}
