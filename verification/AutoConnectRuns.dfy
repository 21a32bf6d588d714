/** What every run of auto-connect keeps: when it may page, how often, and when it stays off. */
module AutoConnectRuns {
  import opened Prelude
  import opened AutoConnect
  import Rejoin

  /** One event, the clock reading it was folded at, the actions it returned and the state it left. */
  datatype Entry = Entry(event: Event, now: Millis, out: seq<Action>, post: State)

  // ---- reading events and actions

  ghost predicate EpisodeIn(out: seq<Action>) {
    exists a :: a in out && a.EpisodeStarted?
  }

  ghost predicate PageIn(out: seq<Action>) {
    exists a :: a in out && a.FallbackPage?
  }

  ghost predicate ConnectsIn(out: seq<Action>) {
    exists a :: a in out && a.Connect?
  }

  ghost predicate RetriesIn(out: seq<Action>) {
    exists a :: a in out && a.Retry?
  }

  ghost predicate DisarmsIn(out: seq<Action>) {
    exists a :: a in out && a.Disarmed?
  }

  /** A sighting that counts: strong enough, with connecting on sight enabled. */
  predicate Accepted(cfg: Config, event: Event) {
    event.Seen? && cfg.enabled && !(event.rssi.Some? && event.rssi.value < cfg.minRssi)
  }

  predicate LinkChange(event: Event) {
    event.LocalConnected? || event.LocalDisconnected?
  }

  /** A drop that opens an away period. */
  predicate AwayDrop(event: Event) {
    event.LocalDisconnected? && (event.reason == Rejoin.Remote || event.reason == Rejoin.Timeout)
  }

  // ---- what one step can do

  ghost predicate ConnectMoves(s: State, event: Event, now: Millis, out: seq<Action>, t: State) {
    (forall a :: a in out && a.Connect? ==>
       event.Tick? && s.cfg.enabled && !s.connected && !s.rejoinPending && t.pending.Some?
       && if PageIn(out) then
            s.pending.None? && !s.disarmed && a == Connect(s.seqNo + 1, 1) && t.seqNo == s.seqNo + 1
            && t.pending.value.seqNo == t.seqNo && t.pending.value.attempt == 1
            && t.pending.value.inFlight && t.pending.value.fallback
          else
            s.pending.Some? && !s.pending.value.inFlight && now >= s.pending.value.due
            && a == Connect(s.pending.value.seqNo, s.pending.value.attempt)
            && t.pending == Some(s.pending.value.(inFlight := true)) && t.seqNo == s.seqNo
            && (s.pending.value.attempt > 1 ==> s.lastSeen.Some? && Since(now, s.lastSeen.value) <= ADVERT_FRESH))
    && (PageIn(out) ==> ConnectsIn(out))
    && (forall a :: a in out && a.Retry? ==>
          event.ConnectFinished? && s.pending.Some? && s.pending.value.inFlight && !s.pending.value.fallback
          && s.pending.value.attempt < MAX_ATTEMPTS && t.seqNo == s.seqNo
          && a == Retry(s.pending.value.attempt + 1, Backoff(s.pending.value.attempt))
          && t.pending == Some(s.pending.value.(attempt := s.pending.value.attempt + 1, inFlight := false,
                                                due := now + Backoff(s.pending.value.attempt))))
  }

  ghost predicate PendingMoves(s: State, event: Event, now: Millis, out: seq<Action>, t: State) {
    (EpisodeIn(out) ==>
       t.seqNo == s.seqNo + 1 && t.pending == Some(Pending(s.seqNo + 1, 1, now + s.cfg.settle, false, false))
       && !ConnectsIn(out) && !RetriesIn(out))
    && (EpisodeIn(out) || PageIn(out) || t.seqNo == s.seqNo)
    && (EpisodeIn(out) || ConnectsIn(out) || RetriesIn(out) || t.pending == s.pending || t.pending.None?)
    && (LinkChange(event) || event.ManualCommand? ==> t.pending.None?)
    && t.cfg == s.cfg
    && t.rejoinPending == (if event.SetRejoinPending? then event.pending else s.rejoinPending)
  }

  ghost predicate ArmMoves(s: State, event: Event, now: Millis, out: seq<Action>, t: State) {
    (EpisodeIn(out) || Rearmed in out ==> Accepted(s.cfg, event) && Absent(s, now))
    && (s.disarmed && Rearmed !in out ==> t.disarmed)
    && (DisarmsIn(out) ==> t.disarmed && t.pending.None?)
    && (t.disarmed ==> DisarmsIn(out) || s.disarmed)
    && ((s.disarmed ==> s.pending.None?) ==> (t.disarmed ==> t.pending.None? && !ConnectsIn(out)))
    && t.lastSeen == (if LinkChange(event) || Accepted(s.cfg, event) then Some(now) else s.lastSeen)
  }

  ghost predicate FallbackMoves(s: State, event: Event, now: Millis, out: seq<Action>, t: State) {
    var u := if event.SetRejoinPending? then s else Anchor(s, now);
    (PageIn(out) ==>
       event.Tick? && u.fallbackFrom.Some? && Since(now, u.fallbackFrom.value) <= s.cfg.fallbackBudget
       && now >= (if s.fallbackNext.Some? then s.fallbackNext.value else u.fallbackFrom.value + s.cfg.fallbackFirst)
       && t.fallbackFrom == u.fallbackFrom && t.fallbackNext == Some(now + s.cfg.fallbackInterval))
    && (AwayDrop(event) ==> t.fallbackFrom == Some(now) && t.fallbackNext.None?)
    && (!AwayDrop(event) && !PageIn(out) && t.fallbackFrom.Some? ==>
          t.fallbackFrom == u.fallbackFrom && t.fallbackNext == s.fallbackNext)
    && t.fallbackStart == (s.fallbackStart && event.SetRejoinPending?)
    && (s.fallbackStart && event.SetRejoinPending? ==>
          t.fallbackNext == s.fallbackNext && t.connected == s.connected && t.fallbackFrom == s.fallbackFrom)
  }

  ghost predicate Moved(s: State, event: Event, now: Millis, n: Next) {
    ConnectMoves(s, event, now, n.out, n.state) && PendingMoves(s, event, now, n.out, n.state)
    && ArmMoves(s, event, now, n.out, n.state) && FallbackMoves(s, event, now, n.out, n.state)
  }

  /** An action that neither starts, repeats nor re-arms anything. */
  predicate Dull(a: Action) {
    !a.EpisodeStarted? && !a.FallbackPage? && !a.Connect? && !a.Retry? && !a.Rearmed?
  }

  lemma DullMoved(s: State, event: Event, now: Millis, n: Next)
    requires forall a :: a in n.out ==> Dull(a)
    requires n.state.seqNo == s.seqNo && n.state.cfg == s.cfg && (n.state.pending == s.pending || n.state.pending.None?)
    requires LinkChange(event) || event.ManualCommand? ==> n.state.pending.None?
    requires DisarmsIn(n.out) ==> n.state.disarmed && n.state.pending.None?
    requires n.state.disarmed == (DisarmsIn(n.out) || s.disarmed)
    requires n.state.lastSeen == (if LinkChange(event) || Accepted(s.cfg, event) then Some(now) else s.lastSeen)
    requires n.state.rejoinPending == (if event.SetRejoinPending? then event.pending else s.rejoinPending)
    requires FallbackMoves(s, event, now, [], n.state)
    ensures Moved(s, event, now, n)
  {
    hide FallbackMoves;
    assert FallbackMoves(s, event, now, n.out, n.state) by {
      FallbackDull(s, event, now, n);
    }
  }

  lemma FallbackDull(s: State, event: Event, now: Millis, n: Next)
    requires (forall a :: a in n.out ==> Dull(a)) && FallbackMoves(s, event, now, [], n.state)
    ensures FallbackMoves(s, event, now, n.out, n.state)
  {
  }

  /** The first advert after an absence re-arms, and starts an episode unless the link or a rejoin is in the way. */
  lemma OpeningShape(s: State, rssi: Option<int>, now: Millis)
    requires Accepted(s.cfg, Seen(rssi)) && s.pending.None? && Absent(s, now)
    ensures var n := Step(s, Seen(rssi), now);
      var begins := !s.connected && !s.rejoinPending;
      !ConnectsIn(n.out) && !RetriesIn(n.out) && !PageIn(n.out) && !DisarmsIn(n.out)
      && EpisodeIn(n.out) == begins && (Rearmed in n.out <==> s.disarmed)
      && n.state == Anchor(s, now).(lastSeen := Some(now), disarmed := false, episode := begins,
                                    seqNo := if begins then s.seqNo + 1 else s.seqNo,
                                    pending := if begins
                                               then Some(Pending(s.seqNo + 1, 1, now + s.cfg.settle, false, false))
                                               else None)
  {
    var n := Step(s, Seen(rssi), now);
    assert n.out != [] ==> n.out[0] in n.out && n.out[|n.out| - 1] in n.out;
    assert forall a :: a in n.out ==> a == n.out[0] || a == n.out[|n.out| - 1];
  }

  lemma OpeningMoved(s: State, rssi: Option<int>, now: Millis)
    requires Accepted(s.cfg, Seen(rssi)) && s.pending.None? && Absent(s, now)
    ensures Moved(s, Seen(rssi), now, Step(s, Seen(rssi), now))
  {
    hide Step, Backoff, EpisodeIn, PageIn, DisarmsIn;
    OpeningShape(s, rssi, now);
    hide Absent;
  }

  lemma SeenMoved(s: State, rssi: Option<int>, now: Millis)
    ensures Moved(s, Seen(rssi), now, Step(s, Seen(rssi), now))
  {
    hide Moved;
    var n := Step(s, Seen(rssi), now);
    if n.out != [] && (n.out[0].Rearmed? || n.out[0].EpisodeStarted?) {
      OpeningMoved(s, rssi, now);
    } else {
      DullMoved(s, Seen(rssi), now, n);
    }
  }

  lemma PageMoved(s: State, now: Millis)
    requires s.pending.None?
    ensures Moved(s, Tick, now, Step(s, Tick, now))
  {
    var n := Step(s, Tick, now);
    assert n.out != [] ==> n.out[0] in n.out && n.out[1] in n.out;
  }

  lemma DueMoved(s: State, now: Millis)
    requires s.pending.Some? && Step(s, Tick, now).out == [Connect(s.pending.value.seqNo, s.pending.value.attempt)]
    ensures Moved(s, Tick, now, Step(s, Tick, now))
  {
    var n := Step(s, Tick, now);
    assert n.out[0] in n.out;
  }

  lemma TickMoved(s: State, now: Millis)
    ensures Moved(s, Tick, now, Step(s, Tick, now))
  {
    hide Moved;
    var n := Step(s, Tick, now);
    if n.out != [] && n.out[0].FallbackPage? {
      PageMoved(s, now);
    } else if n.out != [] && n.out[0].Connect? {
      DueMoved(s, now);
    } else {
      DullMoved(s, Tick, now, n);
    }
  }

  lemma DisconnectedMoved(s: State, reason: Rejoin.Reason, now: Millis)
    ensures Moved(s, LocalDisconnected(reason), now, Step(s, LocalDisconnected(reason), now))
  {
    hide Moved;
    var n := Step(s, LocalDisconnected(reason), now);
    assert n.out != [] ==> n.out[|n.out| - 1] in n.out;
    DullMoved(s, LocalDisconnected(reason), now, n);
  }

  lemma ConnectedMoved(s: State, now: Millis)
    ensures Moved(s, LocalConnected, now, Step(s, LocalConnected, now))
  {
    hide Moved;
    DullMoved(s, LocalConnected, now, Step(s, LocalConnected, now));
  }

  lemma ManualMoved(s: State, now: Millis)
    ensures Moved(s, ManualCommand, now, Step(s, ManualCommand, now))
  {
    hide Moved;
    var n := Step(s, ManualCommand, now);
    assert n.out != [] ==> n.out[|n.out| - 1] in n.out;
    DullMoved(s, ManualCommand, now, n);
  }

  lemma PendingFlagMoved(s: State, pending: bool, now: Millis)
    ensures Moved(s, SetRejoinPending(pending), now, Step(s, SetRejoinPending(pending), now))
  {
    hide Moved;
    DullMoved(s, SetRejoinPending(pending), now, Step(s, SetRejoinPending(pending), now));
  }

  lemma RetryMoved(s: State, event: Event, now: Millis)
    requires event.ConnectFinished? && s.pending.Some? && s.pending.value.inFlight && !s.pending.value.fallback
    requires s.pending.value.seqNo == event.seqNo && s.pending.value.attempt < MAX_ATTEMPTS
    requires !event.outcome.Connected? && !NotAFailure(event.outcome)
    ensures Moved(s, event, now, Step(s, event, now))
  {
    var n := Step(s, event, now);
    assert n.out[0] in n.out;
  }

  lemma PageEnded(s: State, seqNo: nat, outcome: Rejoin.Outcome, now: Millis)
    requires s.pending.Some? && s.pending.value.fallback && s.pending.value.seqNo == seqNo && s.pending.value.inFlight
    ensures Moved(s, ConnectFinished(seqNo, outcome), now, Step(s, ConnectFinished(seqNo, outcome), now))
  {
    hide Moved, NotAFailure, Backoff;
    DullMoved(s, ConnectFinished(seqNo, outcome), now, Step(s, ConnectFinished(seqNo, outcome), now));
  }

  lemma FinishedMoved(s: State, seqNo: nat, outcome: Rejoin.Outcome, now: Millis)
    ensures Moved(s, ConnectFinished(seqNo, outcome), now, Step(s, ConnectFinished(seqNo, outcome), now))
  {
    hide Moved, Backoff, NotAFailure;
    var n := Step(s, ConnectFinished(seqNo, outcome), now);
    if s.pending.Some? && s.pending.value.fallback && s.pending.value.seqNo == seqNo && s.pending.value.inFlight {
      PageEnded(s, seqNo, outcome, now);
    } else if n.out != [] && n.out[0].Retry? {
      RetryMoved(s, ConnectFinished(seqNo, outcome), now);
    } else {
      DullMoved(s, ConnectFinished(seqNo, outcome), now, n);
    }
  }

  lemma StepMoved(s: State, event: Event, now: Millis)
    ensures Moved(s, event, now, Step(s, event, now))
  {
    hide Moved, Step;
    match event
    case Seen(rssi) => SeenMoved(s, rssi, now);
    case Tick => TickMoved(s, now);
    case ConnectFinished(seqNo, outcome) => FinishedMoved(s, seqNo, outcome, now);
    case LocalConnected => ConnectedMoved(s, now);
    case LocalDisconnected(reason) => DisconnectedMoved(s, reason, now);
    case ManualCommand => ManualMoved(s, now);
    case SetRejoinPending(pending) => PendingFlagMoved(s, pending, now);
  }

  // ---- runs

  datatype Run = Run(init: State, es: seq<Entry>) {
    function At(k: nat): State
      requires k <= |es|
    {
      if k == 0 then init else es[k - 1].post
    }

    ghost predicate Linked(k: nat)
      requires k < |es|
    {
      Next(es[k].post, es[k].out) == Step(At(k), es[k].event, es[k].now)
    }

    ghost predicate Valid() {
      (exists cfg :: init == NewState(cfg))
      && (forall k {:trigger Linked(k)} :: 0 <= k < |es| ==> Linked(k))
      && (forall i, j :: 0 <= i <= j < |es| ==> es[i].now <= es[j].now)
    }

    ghost predicate Pages(k: nat)
      requires k < |es|
    {
      PageIn(es[k].out)
    }

    /** Nothing but the session's flag write happened in the first `k` events. */
    ghost predicate Untouched(k: nat)
      requires k <= |es|
    {
      forall j :: 0 <= j < k ==> es[j].event.SetRejoinPending?
    }

    /** Event `a` begins an away period: an unwanted drop, or the first event but for the session's flag. */
    ghost predicate Anchors(a: nat)
      requires a < |es|
    {
      AwayDrop(es[a].event) || (Untouched(a) && !es[a].event.SetRejoinPending?)
    }

    /** Event `a` begins the away period that events `a..k` belong to. */
    ghost predicate AwaySince(a: nat, k: nat)
      requires k <= |es|
    {
      a < k && Anchors(a) && forall m :: a < m < k ==> !Anchors(m)
    }

    /** Fallback pages in events `a..k`. */
    ghost function PageCount(a: nat, k: nat): nat
      requires k <= |es|
    {
      if k <= a then 0 else PageCount(a, k - 1) + if Pages(k - 1) then 1 else 0
    }

    /** Connect calls of sequence `q` in the first `k` events. */
    ghost function ConnectCount(q: nat, k: nat): nat
      requires k <= |es|
    {
      if k == 0 then 0
      else ConnectCount(q, k - 1) + if exists a :: a in es[k - 1].out && a.Connect? && a.seqNo == q then 1 else 0
    }

    /** The rejoin flag, after `k` events. */
    function RejoinBy(k: nat): bool
      requires k <= |es|
    {
      if k == 0 then false
      else if es[k - 1].event.SetRejoinPending? then es[k - 1].event.pending
      else RejoinBy(k - 1)
    }
  }

  /** Any sequence of events at any non-decreasing clock readings is a run. */
  lemma {:induction false} EveryInputRuns(cfg: Config, events: seq<Event>, clock: seq<Millis>) returns (r: Run)
    requires |events| == |clock|
    requires forall i, j :: 0 <= i <= j < |clock| ==> clock[i] <= clock[j]
    ensures r.Valid() && r.init == NewState(cfg) && |r.es| == |events|
    ensures forall k :: 0 <= k < |events| ==> r.es[k].event == events[k] && r.es[k].now == clock[k]
  {
    hide Step;
    var n := |events|;
    if n == 0 {
      r := Run(NewState(cfg), []);
    } else {
      var p := EveryInputRuns(cfg, events[..n - 1], clock[..n - 1]);
      var next := Step(p.At(n - 1), events[n - 1], clock[n - 1]);
      r := Run(p.init, p.es + [Entry(events[n - 1], clock[n - 1], next.out, next.state)]);
      assert r.Linked(n - 1);
      forall k | 0 <= k < n ensures r.Linked(k) {
        if k < n - 1 { assert p.Linked(k); }
      }
    }
  }

  /** The step behind entry `k`. */
  lemma Took(r: Run, k: nat)
    requires r.Valid() && k < |r.es|
    ensures Moved(r.At(k), r.es[k].event, r.es[k].now, Next(r.es[k].post, r.es[k].out))
  {
    hide Step, Moved;
    assert r.Linked(k);
    StepMoved(r.At(k), r.es[k].event, r.es[k].now);
  }

  lemma {:induction false} ConfigFixed(r: Run, k: nat)
    requires r.Valid() && k <= |r.es|
    ensures r.At(k).cfg == r.init.cfg
  {
    hide ConnectMoves, ArmMoves, FallbackMoves;
    if k > 0 {
      ConfigFixed(r, k - 1);
      Took(r, k - 1);
    }
  }

  // ---- the page fallback

  lemma {:induction false} StartFlag(r: Run, k: nat)
    requires r.Valid() && k <= |r.es|
    ensures r.At(k).fallbackStart <==> r.Untouched(k)
    ensures r.Untouched(k) ==> r.At(k).fallbackNext.None? && !r.At(k).connected && r.At(k).fallbackFrom.None?
  {
    hide ConnectMoves, ArmMoves, PendingMoves;
    if k > 0 {
      StartFlag(r, k - 1);
      Took(r, k - 1);
      if r.Untouched(k - 1) && r.es[k - 1].event.SetRejoinPending? { assert r.Untouched(k); }
      if r.Untouched(k) { assert r.Untouched(k - 1) && r.es[k - 1].event.SetRejoinPending?; }
    }
  }

  /** An open fallback window: when it began, and that its next slot leaves room for every page already sent. */
  lemma {:induction false} WindowHasAnchor(r: Run, k: nat) returns (a: nat)
    requires r.Valid() && k <= |r.es| && r.At(k).fallbackFrom.Some?
    ensures r.AwaySince(a, k) && r.At(k).fallbackFrom.value == r.es[a].now
    ensures var n := r.PageCount(a, k);
      if n == 0 then r.At(k).fallbackNext.None?
      else r.At(k).fallbackNext.Some?
           && r.At(k).fallbackNext.value >= r.es[a].now + r.init.cfg.fallbackFirst + Intervals(n, r.init.cfg)
  {
    hide ConnectMoves, ArmMoves, PendingMoves, Intervals;
    Took(r, k - 1);
    StartFlag(r, k - 1);
    ConfigFixed(r, k - 1);
    var cfg := r.init.cfg;
    if r.Anchors(k - 1) {
      a := k - 1;
      assert r.PageCount(a, k) == r.PageCount(a, k - 1) + if r.Pages(k - 1) then 1 else 0;
      assert r.PageCount(a, a) == 0;
      OneMoreInterval(0, cfg);
    } else {
      a := WindowHasAnchor(r, k - 1);
      OneMoreInterval(r.PageCount(a, k - 1), cfg);
    }
  }

  function Intervals(n: nat, cfg: Config): Millis {
    n * cfg.fallbackInterval
  }

  lemma OneMoreInterval(n: nat, cfg: Config)
    ensures Intervals(n + 1, cfg) == Intervals(n, cfg) + cfg.fallbackInterval
    ensures Intervals(0, cfg) == 0
  {
    assert (n + 1) * cfg.fallbackInterval == n * cfg.fallbackInterval + cfg.fallbackInterval;
  }

  /**
   A fallback page belongs to one away period, is inside its budget, and waits for the first delay and one
   interval per page already sent in that period.
   */
  lemma PageHasItsSlot(r: Run, k: nat) returns (a: nat)
    requires r.Valid() && k < |r.es| && r.Pages(k)
    ensures r.AwaySince(a, k + 1) && r.es[k].now - r.es[a].now <= r.init.cfg.fallbackBudget
    ensures r.es[k].now >= r.es[a].now + r.init.cfg.fallbackFirst + r.PageCount(a, k) * r.init.cfg.fallbackInterval
  {
    hide ConnectMoves, ArmMoves, PendingMoves;
    Took(r, k);
    StartFlag(r, k);
    ConfigFixed(r, k);
    if r.Anchors(k) {
      a := k;
    } else {
      a := WindowHasAnchor(r, k);
    }
  }

  lemma OneAnchor(r: Run, a: nat, b: nat, k: nat)
    requires k <= |r.es| && r.AwaySince(a, k) && r.AwaySince(b, k)
    ensures a == b
  {
  }

  /** Within one away period the pages fit: the first delay and the intervals between them stay in the budget. */
  lemma {:induction false} PagesFitBudget(r: Run, a: nat, k: nat)
    requires r.Valid() && k <= |r.es| && r.AwaySince(a, k) && r.PageCount(a, k) > 0
    ensures var cfg := r.init.cfg;
      cfg.fallbackFirst + (r.PageCount(a, k) - 1) * cfg.fallbackInterval <= cfg.fallbackBudget
  {
    if r.Pages(k - 1) {
      var b := PageHasItsSlot(r, k - 1);
      OneAnchor(r, a, b, k);
    } else {
      assert r.PageCount(a, k - 1) == r.PageCount(a, k);
      PagesFitBudget(r, a, k - 1);
    }
  }

  /** At most `(budget - first) / interval + 1` pages in one away period, none if the first delay exceeds the budget. */
  lemma PagesAreBounded(r: Run, a: nat, k: nat)
    requires r.Valid() && k <= |r.es| && r.AwaySince(a, k) && r.init.cfg.fallbackInterval > 0
    ensures var c := r.init.cfg;
      if c.fallbackFirst > c.fallbackBudget then r.PageCount(a, k) == 0
      else r.PageCount(a, k) <= (c.fallbackBudget - c.fallbackFirst) / c.fallbackInterval + 1
  {
    var c, n := r.init.cfg, r.PageCount(a, k);
    if n > 0 {
      PagesFitBudget(r, a, k);
      assert (n - 1) * c.fallbackInterval >= 0;
      FitsDivision(n - 1, c.fallbackInterval, c.fallbackBudget - c.fallbackFirst);
    }
  }

  lemma FitsDivision(n: nat, d: nat, x: nat)
    requires d > 0 && n * d <= x
    ensures n <= x / d
  {
    var q := x / d;
    assert x < (q + 1) * d;
    assert n * d < (q + 1) * d;
  }

  // ---- advert episodes

  lemma {:induction false} ActivityRemembered(r: Run, j: nat, k: nat)
    requires r.Valid() && j < k <= |r.es|
    requires LinkChange(r.es[j].event) || Accepted(r.init.cfg, r.es[j].event)
    ensures r.At(k).lastSeen.Some? && r.At(k).lastSeen.value >= r.es[j].now
  {
    hide ConnectMoves, PendingMoves, FallbackMoves;
    Took(r, k - 1);
    ConfigFixed(r, k - 1);
    if j < k - 1 { ActivityRemembered(r, j, k - 1); }
  }

  /** An episode, or arming again, only follows a whole absence without adverts or link changes. */
  lemma OpeningFollowsAbsence(r: Run, k: nat, j: nat)
    requires r.Valid() && j < k < |r.es| && (EpisodeIn(r.es[k].out) || Rearmed in r.es[k].out)
    requires LinkChange(r.es[j].event) || Accepted(r.init.cfg, r.es[j].event)
    ensures r.es[k].now - r.es[j].now >= r.init.cfg.absence
  {
    hide ConnectMoves, PendingMoves, FallbackMoves;
    Took(r, k);
    ConfigFixed(r, k);
    ActivityRemembered(r, j, k);
  }

  /**
   An episode starts exactly on an accepted advert after a whole absence without advert or link change, when nothing is
   pending, the link is down and no rejoin is running.
   */
  lemma EpisodeStartsIff(r: Run, k: nat)
    requires r.Valid() && k < |r.es|
    ensures EpisodeIn(r.es[k].out)
       <==> Accepted(r.init.cfg, r.es[k].event) && r.At(k).pending.None? && !r.At(k).connected && !r.RejoinBy(k)
            && forall j :: 0 <= j < k && (LinkChange(r.es[j].event) || Accepted(r.init.cfg, r.es[j].event)) ==>
                 r.es[k].now - r.es[j].now >= r.init.cfg.absence
  {
    hide Step, ConnectMoves, FallbackMoves;
    var s, event, now := r.At(k), r.es[k].event, r.es[k].now;
    Took(r, k);
    ConfigFixed(r, k);
    FlagFollowsEvents(r, k);
    if Accepted(s.cfg, event) {
      assert r.Linked(k);
      if s.lastSeen.Some? {
        var j := ActivityHasSource(r, k);
      }
      forall j | 0 <= j < k && (LinkChange(r.es[j].event) || Accepted(r.init.cfg, r.es[j].event))
        ensures s.lastSeen.Some? && s.lastSeen.value >= r.es[j].now
      {
        ActivityRemembered(r, j, k);
      }
      if s.pending.None? && Absent(s, now) {
        OpeningShape(s, event.rssi, now);
      } else {
        NoOpening(s, event.rssi, now);
      }
    }
  }

  lemma NoOpening(s: State, rssi: Option<int>, now: Millis)
    requires s.pending.Some? || !Absent(s, now)
    ensures !EpisodeIn(Step(s, Seen(rssi), now).out)
  {}

  lemma {:induction false} PendingShape(r: Run, k: nat)
    requires r.Valid() && k <= |r.es| && r.At(k).pending.Some?
    ensures var p := r.At(k).pending.value;
      p.seqNo == r.At(k).seqNo && 1 <= p.attempt <= MAX_ATTEMPTS && (p.fallback ==> p.attempt == 1 && p.inFlight)
  {
    hide ArmMoves, FallbackMoves;
    Took(r, k - 1);
    if r.At(k - 1).pending.Some? { PendingShape(r, k - 1); }
  }

  lemma {:induction false} AttemptsCounted(r: Run, q: nat, k: nat)
    requires r.Valid() && k <= |r.es|
    ensures r.ConnectCount(q, k) <= MAX_ATTEMPTS
    ensures q > r.At(k).seqNo ==> r.ConnectCount(q, k) == 0
    ensures r.At(k).pending.Some? && r.At(k).pending.value.seqNo == q ==>
      r.ConnectCount(q, k) == r.At(k).PendingAttempt()
  {
    hide ArmMoves, FallbackMoves;
    if k > 0 {
      AttemptsCounted(r, q, k - 1);
      if r.At(k - 1).pending.Some? { PendingShape(r, k - 1); }
      Took(r, k - 1);
    }
  }

  /** One sequence makes at most four connects, numbered in order; a fallback page makes exactly one. */
  lemma ConnectsAreNumbered(r: Run, k: nat, q: nat, attempt: nat)
    requires r.Valid() && k < |r.es| && Connect(q, attempt) in r.es[k].out
    ensures attempt == r.ConnectCount(q, k) + 1 && attempt <= MAX_ATTEMPTS
    ensures r.Pages(k) ==> attempt == 1
  {
    hide ArmMoves, FallbackMoves;
    Took(r, k);
    if r.At(k).pending.Some? { PendingShape(r, k); }
    AttemptsCounted(r, q, k);
  }

  /** The episode behind a pending advert sequence; neither a link change nor a manual command came since. */
  lemma {:induction false} PendingOrigin(r: Run, k: nat) returns (d: nat)
    requires r.Valid() && k <= |r.es| && r.At(k).pending.Some? && !r.At(k).pending.value.fallback
    ensures d < k && EpisodeIn(r.es[d].out) && r.At(d + 1).seqNo == r.At(k).pending.value.seqNo
    ensures forall j :: d < j < k ==> !LinkChange(r.es[j].event) && !r.es[j].event.ManualCommand?
  {
    hide ArmMoves, FallbackMoves;
    Took(r, k - 1);
    if EpisodeIn(r.es[k - 1].out) {
      d := k - 1;
    } else {
      d := PendingOrigin(r, k - 1);
    }
  }

  lemma {:induction false} ActivityHasSource(r: Run, k: nat) returns (j: nat)
    requires r.Valid() && k <= |r.es| && r.At(k).lastSeen.Some?
    ensures j < k && r.es[j].now == r.At(k).lastSeen.value
    ensures LinkChange(r.es[j].event) || Accepted(r.init.cfg, r.es[j].event)
    ensures forall m :: j < m < k ==> !LinkChange(r.es[m].event) && !Accepted(r.init.cfg, r.es[m].event)
  {
    hide ConnectMoves, PendingMoves, FallbackMoves;
    Took(r, k - 1);
    ConfigFixed(r, k - 1);
    if LinkChange(r.es[k - 1].event) || Accepted(r.init.cfg, r.es[k - 1].event) {
      j := k - 1;
    } else {
      j := ActivityHasSource(r, k - 1);
    }
  }

  /** Every connect is a fallback page, or belongs to an episode that no link change or manual command has ended. */
  lemma EveryConnectIsJustified(r: Run, k: nat, q: nat, attempt: nat) returns (d: nat)
    requires r.Valid() && k < |r.es| && Connect(q, attempt) in r.es[k].out && !r.Pages(k)
    ensures d < k && EpisodeIn(r.es[d].out) && r.At(d + 1).seqNo == q
    ensures forall j :: d < j < k ==> !LinkChange(r.es[j].event) && !r.es[j].event.ManualCommand?
  {
    hide ArmMoves, FallbackMoves;
    Took(r, k);
    PendingShape(r, k);
    d := PendingOrigin(r, k);
  }

  /** A retry needs an accepted advert of the last 10 s, later than or at its episode's start. */
  lemma RetryNeedsFreshAdvert(r: Run, k: nat, q: nat, attempt: nat) returns (j: nat)
    requires r.Valid() && k < |r.es| && Connect(q, attempt) in r.es[k].out && attempt > 1
    ensures j < k && Accepted(r.init.cfg, r.es[j].event) && r.es[k].now - r.es[j].now <= ADVERT_FRESH
  {
    hide FallbackMoves;
    Took(r, k);
    PendingShape(r, k);
    var d := EveryConnectIsJustified(r, k, q, attempt);
    Took(r, d);
    ConfigFixed(r, d);
    j := ActivityHasSource(r, k);
    assert !LinkChange(r.es[j].event);
  }

  /** A sequence that a local connect ended is never pending again. */
  lemma {:induction false} RetiredNeverReturns(r: Run, e: nat, k: nat)
    requires r.Valid() && e < k <= |r.es| && r.es[e].event.LocalConnected? && r.At(e).pending.Some?
    ensures r.At(k).seqNo >= r.At(e).pending.value.seqNo
    ensures r.At(k).pending.Some? ==> r.At(k).pending.value.seqNo > r.At(e).pending.value.seqNo
  {
    hide ArmMoves, FallbackMoves;
    Took(r, k - 1);
    if e < k - 1 {
      RetiredNeverReturns(r, e, k - 1);
    } else {
      PendingShape(r, e);
    }
  }

  // ---- disarming

  lemma {:induction false} DisarmedIsQuiet(r: Run, k: nat)
    requires r.Valid() && k <= |r.es|
    ensures r.At(k).disarmed ==> r.At(k).pending.None?
  {
    hide ConnectMoves, PendingMoves, FallbackMoves;
    if k > 0 {
      DisarmedIsQuiet(r, k - 1);
      Took(r, k - 1);
    }
  }

  lemma {:induction false} StaysDisarmed(r: Run, d: nat, k: nat)
    requires r.Valid() && d < k <= |r.es| && DisarmsIn(r.es[d].out)
    requires forall m :: d < m < k ==> Rearmed !in r.es[m].out
    ensures r.At(k).disarmed
  {
    hide ConnectMoves, PendingMoves, FallbackMoves;
    Took(r, k - 1);
    if d < k - 1 { StaysDisarmed(r, d, k - 1); }
  }

  /** Between `Disarmed` and the next `Rearmed` no connect of any kind is issued. */
  lemma DisarmedNeverConnects(r: Run, d: nat, k: nat)
    requires r.Valid() && d < k < |r.es| && DisarmsIn(r.es[d].out)
    requires forall m :: d < m <= k ==> Rearmed !in r.es[m].out
    ensures !ConnectsIn(r.es[k].out)
  {
    hide ConnectMoves, PendingMoves, FallbackMoves;
    StaysDisarmed(r, d, k);
    DisarmedIsQuiet(r, k);
    Took(r, k);
  }

  /** Nothing is paged while the rejoin flag is up. */
  lemma {:induction false} FlagFollowsEvents(r: Run, k: nat)
    requires r.Valid() && k <= |r.es|
    ensures r.At(k).rejoinPending == r.RejoinBy(k)
  {
    if k > 0 {
      FlagFollowsEvents(r, k - 1);
      Took(r, k - 1);
    }
  }

  lemma NeverOverARejoin(r: Run, k: nat)
    requires r.Valid() && k < |r.es| && ConnectsIn(r.es[k].out)
    ensures !r.RejoinBy(k)
  {
    FlagFollowsEvents(r, k);
    Took(r, k);
  }
}
