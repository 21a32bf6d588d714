/**
 The ear-media machine told by events and clock readings alone: how many buds are worn, which count has settled, and
 which pause is still this machine's to undo.
 */
module EarMediaHistory {
  import opened Prelude
  import opened EarMedia
  import opened EarMediaRuns

  // ---- counts

  datatype Side = Left | Right

  function SideOf(e: Event, side: Side): EarState
    requires e.Ear?
  {
    if side == Left then e.left else e.right
  }

  /** The sides whose bud is reported in an ear. */
  function Worn(e: Event): set<Side>
    requires e.Ear?
  {
    set side: Side | side in {Left, Right} && SideOf(e, side) == In
  }

  /** Some side could be read. */
  predicate Readable(e: Event) {
    e.Ear? && exists side :: SideOf(e, side) != Unknown
  }

  /** A usable reading counts the sides worn, and only a reading of two unknown sides counts nothing. */
  lemma ReadingCounts(e: Event)
    requires e.Ear?
    ensures UsableCount(e) == if Readable(e) then Some(|Worn(e)|) else None
  {
    assert SideOf(e, Left) == e.left && SideOf(e, Right) == e.right;
    var l: set<Side> := if e.left == In then {Left} else {};
    var r: set<Side> := if e.right == In then {Right} else {};
    assert Worn(e) == l + r;
  }

  // ---- the settled count

  /** Event `m` makes the machine look at its timer. */
  predicate Looks(e: Event) {
    e.Tick? || Readable(e)
  }

  /** In events `q..=k` every usable reading counts `n` worn buds, the first is at `q`, and the link stays. */
  ghost predicate HeldBy(r: Run, q: nat, k: nat, n: nat)
    requires q <= k < |r.es|
  {
    Readable(r.es[q].event)
    && forall m :: q <= m <= k ==>
      !r.es[m].event.LinkClosed? && (Readable(r.es[m].event) ==> |Worn(r.es[m].event)| == n)
  }

  /** Event `m` finds `n` worn for 700 ms. */
  ghost predicate SettlesBy(r: Run, m: nat, n: nat)
    requires m < |r.es|
  {
    Looks(r.es[m].event) && exists q :: 0 <= q <= m && HeldBy(r, q, m, n) && r.es[m].now - r.es[q].now >= SETTLE
  }

  /** `n` is the last count of this link that was held for 700 ms. */
  ghost predicate SettledBy(r: Run, k: nat, n: nat)
    requires k <= |r.es|
  {
    exists m :: 0 <= m < k && SettlesBy(r, m, n) && StaysBy(r, m, k, n)
  }

  ghost predicate StaysBy(r: Run, m: nat, k: nat, n: nat)
    requires m < k <= |r.es|
  {
    (forall j :: m < j < k ==> !r.es[j].event.LinkClosed?)
    && forall j, c :: m < j < k && SettlesBy(r, j, c) ==> c == n
  }

  lemma HeldByIff(r: Run, q: nat, k: nat, n: nat)
    requires q <= k < |r.es|
    ensures r.Held(q, k, n) <==> HeldBy(r, q, k, n)
  {
    forall m | q <= m <= k && r.es[m].event.Ear? ensures
      UsableCount(r.es[m].event) == if Readable(r.es[m].event) then Some(|Worn(r.es[m].event)|) else None
    {
      ReadingCounts(r.es[m].event);
    }
    hide Worn, Readable;
  }

  lemma SettlesByIff(r: Run, m: nat, n: nat)
    requires m < |r.es|
    ensures SettlesBy(r, m, n) <==> Looks(r.es[m].event) && r.Settled(m, n)
  {
    hide Run.Held, HeldBy, Looks;
    forall q | 0 <= q <= m ensures r.Held(q, m, n) <==> HeldBy(r, q, m, n) { HeldByIff(r, q, m, n); }
  }

  /** What a step does to the settled count. */
  ghost predicate TimerMoves(s: State, e: Event, now: Millis, t: State) {
    var c := CandidateBefore(s, e, now);
    (e.LinkClosed? ==> t.settled.None? && t.pending.None?)
    && (Looks(e) ==> t.pending.None? || Since(now, t.pending.value.since) < SETTLE)
    && (!e.LinkClosed? && t.settled != s.settled ==>
          Looks(e) && c.Some? && Since(now, c.value.since) >= SETTLE && t.settled == Some(c.value.count))
  }

  lemma TimerMoved(s: State, e: Event, audio: bool, now: Millis)
    ensures TimerMoves(s, e, now, Step(s, e, audio, now).state)
  {
    if e.Ear? {
      ReadingCounts(e);
      hide Worn, Readable;
    }
  }

  lemma Timed(r: Run, k: nat)
    requires r.Valid() && k < |r.es|
    ensures TimerMoves(r.At(k), r.es[k].event, r.es[k].now, r.At(k + 1))
  {
    hide Step, TimerMoves;
    assert r.Linked(k);
    TimerMoved(r.At(k), r.es[k].event, r.es[k].audio, r.es[k].now);
  }

  /** A count that settles is the settled one. */
  lemma SettlesNow(r: Run, k: nat, n: nat)
    requires r.Valid() && k < |r.es| && SettlesBy(r, k, n)
    ensures r.At(k + 1).settled == Some(n)
  {
    SettlesByIff(r, k, n);
    var q: nat :| q <= k && r.Held(q, k, n) && r.es[k].now - r.es[q].now >= SETTLE;
    HeldIsCandidate(r, q, k, n);
    Timed(r, k);
  }

  /** Without one that settles the settled count stays, unless the link closes. */
  lemma StaysNow(r: Run, k: nat)
    requires r.Valid() && k < |r.es| && !r.es[k].event.LinkClosed? && r.At(k + 1).settled != r.At(k).settled
    ensures r.At(k + 1).settled.Some? && SettlesBy(r, k, r.At(k + 1).settled.value)
  {
    Timed(r, k);
    var c := CandidateBefore(r.At(k), r.es[k].event, r.es[k].now);
    hide Run.Held, Looks, Run.Valid;
    var q := CandidateHeld(r, k);
    HeldPast(r, q, k);
    assert r.Settled(k, c.value.count);
    SettlesByIff(r, k, c.value.count);
  }

  lemma HeldPast(r: Run, q: nat, k: nat)
    requires r.Valid() && q <= k < |r.es|
    ensures r.es[q].now <= r.es[k].now
  {}

  /** The machine has settled on a count exactly when it is the last one of this link held for 700 ms. */
  lemma {:induction false} SettledIff(r: Run, k: nat, n: nat)
    requires r.Valid() && k <= |r.es|
    ensures r.At(k).settled == Some(n) <==> SettledBy(r, k, n)
  {
    hide SettlesBy, Run.Valid;
    if k == 0 {
      NothingSettled(r);
    } else {
      var j := k - 1;
      SettledIff(r, j, n);
      if r.es[j].event.LinkClosed? {
        Timed(r, j);
        ClosedSettlesNothing(r, j);
      } else if c :| SettlesBy(r, j, c) {
        SettlesNow(r, j, c);
        forall x | SettlesBy(r, j, x) ensures x == c { SettlesNow(r, j, x); }
        if n == c { assert StaysBy(r, j, k, n); }
      } else {
        if r.At(k).settled != r.At(j).settled { StaysNow(r, j); }
        if SettledBy(r, j, n) {
          var m :| 0 <= m < j && SettlesBy(r, m, n) && StaysBy(r, m, j, n);
          StaysOn(r, m, j, n);
        }
        if SettledBy(r, k, n) {
          var m :| 0 <= m < k && SettlesBy(r, m, n) && StaysBy(r, m, k, n);
          StayedSoFar(r, m, j, n);
        }
      }
    }
  }

  lemma StaysOn(r: Run, m: nat, j: nat, n: nat)
    requires m < j < |r.es| && StaysBy(r, m, j, n) && !r.es[j].event.LinkClosed? && forall c :: !SettlesBy(r, j, c)
    ensures StaysBy(r, m, j + 1, n)
  {
    hide SettlesBy;
  }

  lemma StayedSoFar(r: Run, m: nat, j: nat, n: nat)
    requires m < j < |r.es| && StaysBy(r, m, j + 1, n)
    ensures StaysBy(r, m, j, n)
  {
    hide SettlesBy;
  }

  lemma NothingSettled(r: Run)
    requires r.Valid()
    ensures r.At(0).settled.None? && r.At(0).paused.None?
  {}

  lemma ClosedSettlesNothing(r: Run, k: nat)
    requires k < |r.es| && r.es[k].event.LinkClosed?
    ensures forall n :: !SettlesBy(r, k, n)
  {}

  // ---- pauses and resumes

  /** Event `k` takes the settled count from `before` to `n`. */
  ghost predicate ShiftsBy(r: Run, k: nat, before: nat, n: nat)
    requires k < |r.es|
  {
    SettledBy(r, k, before) && SettlesBy(r, k, n) && n != before
  }

  /** Event `k` pauses the local players: pausing is on, this host plays to the AirPods, and fewer buds are worn. */
  ghost predicate PausesBy(r: Run, k: nat)
    requires k < |r.es|
  {
    r.init.cfg.autoPause && r.es[k].audio && r.PlayingBy(k) == Some(true)
    && exists before, n :: ShiftsBy(r, k, before, n) && n < before && (r.init.cfg.pauseOnOneOfTwo || n == 0)
  }

  /** The pause of event `p` is still there to be undone before event `k`. */
  ghost predicate OutstandingBy(r: Run, p: nat, k: nat)
    requires p < k <= |r.es|
    decreases k, 0
  {
    PausesBy(r, p)
    && (forall m :: p < m < k ==> !PausesBy(r, m) && !r.PlayEdge(m) && !UsesUpBy(r, p, m))
    && (forall m, n :: p < m < n < k && r.StopEdge(m) ==> !r.StopEdge(n))
  }

  /** Event `m` brings back at least as many buds as were worn before the pause of event `p`. */
  ghost predicate UsesUpBy(r: Run, p: nat, m: nat)
    requires p < m < |r.es|
    decreases m, 1
  {
    OutstandingBy(r, p, m)
    && exists worn, before, n :: SettledBy(r, p, worn) && ShiftsBy(r, m, before, n) && before < n && worn <= n
  }

  /** Event `k` undoes the pause of event `p`, less than five minutes old. */
  ghost predicate UndoesBy(r: Run, p: nat, k: nat)
    requires p < k < |r.es|
  {
    UsesUpBy(r, p, k) && r.init.cfg.autoResume && r.es[k].audio && r.PlayingBy(k) != Some(true)
    && r.es[k].now - r.es[p].now < RESUME_WINDOW
  }

  // ---- one step, read off the state

  predicate Shifts(s: State, t: State) {
    s.settled.Some? && t.settled.Some? && t.settled != s.settled
  }

  predicate PausesNow(s: State, audio: bool, t: State) {
    s.cfg.autoPause && audio && s.playing == Some(true) && Shifts(s, t) && t.settled.value < s.settled.value
    && (s.cfg.pauseOnOneOfTwo || t.settled.value == 0)
  }

  predicate Fresh(s: State, now: Millis) {
    s.paused.Some? && Since(now, s.paused.value.at) < RESUME_WINDOW
  }

  predicate BringsBack(s: State, t: State) {
    s.paused.Some? && Shifts(s, t) && t.settled.value > s.settled.value && t.settled.value >= s.paused.value.count
  }

  ghost predicate PauseMoves(s: State, e: Event, audio: bool, now: Millis, out: seq<Action>, t: State) {
    (PauseLocalPlayers in out <==> PausesNow(s, audio, t))
    && (forall p :: (ResumePlayer(p) in out
                     <==> BringsBack(s, t) && Fresh(s, now) && s.cfg.autoResume && audio && s.playing != Some(true)
                          && p == s.paused.value.player))
    && t.cfg == s.cfg
    && if PausesNow(s, audio, t) then t.paused == Some(Paused(now, s.settled.value, s.player, true))
       else if s.paused.None? || BringsBack(s, t) || IsPlayEdge(s, e) then t.paused.None?
       else if IsStopEdge(s, e) then
         t.paused == if s.paused.value.confirming then Some(s.paused.value.(confirming := false)) else None
       else t.paused == s.paused || (t.paused.None? && !Fresh(s, now))
  }

  lemma PauseMoved(s: State, e: Event, audio: bool, now: Millis)
    requires s.pending.Some? ==> s.settled != Some(s.pending.value.count)
    ensures var n := Step(s, e, audio, now); PauseMoves(s, e, audio, now, n.out, n.state)
  {
    var n := Step(s, e, audio, now);
    assert n.out != [] ==> n.out[0] in n.out;
    assert s.playing.Some? ==> s.playing == Some(s.playing.value);
  }

  lemma Stepped(r: Run, k: nat)
    requires r.Valid() && k < |r.es|
    ensures PauseMoves(r.At(k), r.es[k].event, r.es[k].audio, r.es[k].now, r.es[k].out, r.At(k + 1))
  {
    hide Step, PauseMoves;
    assert r.Linked(k);
    CandidateDiffers(r, k);
    PauseMoved(r.At(k), r.es[k].event, r.es[k].audio, r.es[k].now);
  }

  // ---- the machine follows the history

  /** A shift of the settled count in the state is one of the history. */
  lemma ShiftsIff(r: Run, k: nat)
    requires r.Valid() && k < |r.es|
    ensures Shifts(r.At(k), r.At(k + 1)) ==> ShiftsBy(r, k, r.At(k).settled.value, r.At(k + 1).settled.value)
    ensures forall before: nat, n: nat :: ShiftsBy(r, k, before, n) ==>
      r.At(k).settled == Some(before) && r.At(k + 1).settled == Some(n)
  {
    hide SettledBy, SettlesBy, Run.Valid;
    var s, t := r.At(k), r.At(k + 1);
    if Shifts(s, t) {
      SettledIff(r, k, s.settled.value);
      if r.es[k].event.LinkClosed? { Timed(r, k); }
      StaysNow(r, k);
    }
    forall before: nat, n: nat | ShiftsBy(r, k, before, n) ensures s.settled == Some(before) && t.settled == Some(n) {
      SettledIff(r, k, before);
      SettlesNow(r, k, n);
    }
  }

  /**
   The local players are paused exactly when pausing is on, this host plays to the AirPods, and the count held for
   700 ms falls below the last one that was: to any count under the wide rule, to none under the narrow one.
   */
  lemma PausesIff(r: Run, k: nat)
    requires r.Valid() && k < |r.es|
    ensures r.Pauses(k) <==> PausesBy(r, k)
  {
    hide ShiftsBy, Run.PlayingBy;
    Stepped(r, k);
    ShiftsIff(r, k);
    ReadingsFollowEvents(r, k);
    ConfigFixed(r, k);
    hide Run.Valid;
  }

  lemma {:induction false} ConfigFixed(r: Run, k: nat)
    requires r.Valid() && k <= |r.es|
    ensures r.At(k).cfg == r.init.cfg
  {
    if k > 0 {
      ConfigFixed(r, k - 1);
      Stepped(r, k - 1);
    }
  }

  /** What is kept about an outstanding pause, told by the history. */
  ghost predicate Tells(r: Run, p: nat, k: nat)
    requires p < k <= |r.es|
  {
    var w := r.At(k).paused;
    w.Some? && w.value.at == r.es[p].now && SettledBy(r, p, w.value.count) && w.value.player == r.PlayerBy(p)
    && (w.value.confirming <==> forall m :: p < m < k ==> !r.StopEdge(m))
  }

  lemma OutstandingBefore(r: Run, p: nat, k: nat)
    requires p + 1 < k <= |r.es| && OutstandingBy(r, p, k)
    ensures OutstandingBy(r, p, k - 1) && !PausesBy(r, k - 1) && !r.PlayEdge(k - 1) && !UsesUpBy(r, p, k - 1)
    ensures r.StopEdge(k - 1) ==> forall m :: p < m < k - 1 ==> !r.StopEdge(m)
  {
    hide PausesBy;
  }

  lemma OutstandingLater(r: Run, p: nat, k: nat)
    requires p < k < |r.es| && OutstandingBy(r, p, k)
    requires !PausesBy(r, k) && !r.PlayEdge(k) && !UsesUpBy(r, p, k)
    requires r.StopEdge(k) ==> forall m :: p < m < k ==> !r.StopEdge(m)
    ensures OutstandingBy(r, p, k + 1)
  {
    hide PausesBy;
  }

  /** A pause of the history is kept, or is five minutes old. */
  lemma {:induction false} OutstandingIsKept(r: Run, p: nat, k: nat)
    requires r.Valid() && p < k <= |r.es| && OutstandingBy(r, p, k)
    ensures Tells(r, p, k) || (r.At(k).paused.None? && r.es[k - 1].now - r.es[p].now >= RESUME_WINDOW)
  {
    if k == p + 1 {
      PauseTells(r, p);
    } else {
      OutstandingBefore(r, p, k);
      OutstandingIsKept(r, p, k - 1);
      HeldPast(r, k - 2, k - 1);
      HeldPast(r, p, k - 1);
      KeptStep(r, p, k - 1);
    }
  }

  lemma PauseTells(r: Run, p: nat)
    requires r.Valid() && p < |r.es| && PausesBy(r, p)
    ensures Tells(r, p, p + 1)
  {
    Stepped(r, p);
    PausesIff(r, p);
    ReadingsFollowEvents(r, p);
    SettledIff(r, p, r.At(p).settled.value);
    hide PausesBy, SettledBy, Run.Valid;
  }

  /** `UsesUpBy` in the state. */
  lemma UsesUpReads(r: Run, p: nat, k: nat)
    requires r.Valid() && p < k < |r.es| && OutstandingBy(r, p, k) && Tells(r, p, k)
    ensures UsesUpBy(r, p, k) <==> BringsBack(r.At(k), r.At(k + 1))
  {
    hide OutstandingBy, ShiftsBy, SettledBy, Run.Valid;
    ShiftsIff(r, k);
    if UsesUpBy(r, p, k) {
      var worn, before, n :| SettledBy(r, p, worn) && ShiftsBy(r, k, before, n) && before < n && worn <= n;
      SettledIff(r, p, worn);
      SettledIff(r, p, r.At(k).paused.value.count);
    }
  }

  lemma KeptStep(r: Run, p: nat, k: nat)
    requires r.Valid() && p < k < |r.es| && OutstandingBy(r, p, k)
    requires Tells(r, p, k) || r.At(k).paused.None?
    requires !PausesBy(r, k) && !r.PlayEdge(k) && !UsesUpBy(r, p, k)
    requires r.StopEdge(k) ==> forall m :: p < m < k ==> !r.StopEdge(m)
    requires r.es[p].now <= r.es[k].now
    ensures Tells(r, p, k + 1)
            || (r.At(k + 1).paused.None? && (r.At(k).paused.None? || r.es[k].now - r.es[p].now >= RESUME_WINDOW))
  {
    Stepped(r, k);
    PausesIff(r, k);
    ReadingsFollowEvents(r, k);
    if Tells(r, p, k) { UsesUpReads(r, p, k); }
    hide PausesBy, UsesUpBy, SettledBy, OutstandingBy, Run.Valid, Run.PlayingBy, Run.PlayerBy, BringsBack, PausesNow;
  }

  /** Whatever is kept is an outstanding pause of the history. */
  lemma {:induction false} KeptIsOutstanding(r: Run, k: nat) returns (p: nat)
    requires r.Valid() && k <= |r.es| && r.At(k).paused.Some?
    ensures p < k && OutstandingBy(r, p, k) && Tells(r, p, k)
  {
    hide Run.Valid, PausesBy, OutstandingBy, Tells, UsesUpBy, BringsBack, PausesNow;
    assert k > 0 by { NothingSettled(r); }
    Stepped(r, k - 1);
    PausesIff(r, k - 1);
    if PausesBy(r, k - 1) {
      p := k - 1;
      PauseTells(r, p);
      PauseIsOutstanding(r, p);
    } else {
      p := KeptIsOutstanding(r, k - 1);
      StillOutstanding(r, p, k - 1);
    }
  }

  lemma PauseIsOutstanding(r: Run, p: nat)
    requires p < |r.es| && PausesBy(r, p)
    ensures OutstandingBy(r, p, p + 1)
  {
    hide PausesBy;
  }

  lemma StillOutstanding(r: Run, p: nat, k: nat)
    requires r.Valid() && p < k < |r.es| && OutstandingBy(r, p, k) && Tells(r, p, k)
    requires r.At(k + 1).paused.Some? && !PausesBy(r, k)
    ensures OutstandingBy(r, p, k + 1) && Tells(r, p, k + 1)
  {
    Stepped(r, k);
    PausesIff(r, k);
    ReadingsFollowEvents(r, k);
    UsesUpReads(r, p, k);
    HeldPast(r, p, k);
    hide PausesBy, UsesUpBy, SettledBy, OutstandingBy, Run.Valid, Run.PlayingBy, Run.PlayerBy, BringsBack, PausesNow;
    assert !r.PlayEdge(k);
    assert r.StopEdge(k) ==> r.At(k).paused.value.confirming;
    OutstandingLater(r, p, k);
    KeptStep(r, p, k);
  }

  /**
   A player is resumed exactly when resuming is on, this host is silent and would be heard on the AirPods, and as many
   buds are back for 700 ms as before the pause that is still outstanding and under five minutes old; it is the player
   of that pause.
   */
  lemma ResumesIff(r: Run, k: nat, player: Option<string>)
    requires r.Valid() && k < |r.es|
    ensures ResumePlayer(player) in r.es[k].out
       <==> exists p :: 0 <= p < k && UndoesBy(r, p, k) && player == r.PlayerBy(p)
  {
    Stepped(r, k);
    ReadingsFollowEvents(r, k);
    ConfigFixed(r, k);
    hide Run.Valid, Run.PlayingBy, Run.PlayerBy, BringsBack, PausesNow, UsesUpBy, OutstandingBy, SettledBy;
    if ResumePlayer(player) in r.es[k].out {
      var p := KeptIsOutstanding(r, k);
      UsesUpReads(r, p, k);
      HeldPast(r, p, k);
      assert UndoesBy(r, p, k);
    }
    if p: nat :| p < k && UndoesBy(r, p, k) && player == r.PlayerBy(p) {
      UsesUpIsOutstanding(r, p, k);
      OutstandingIsKept(r, p, k);
      HeldPast(r, p, k);
      HeldPast(r, k - 1, k);
      UsesUpReads(r, p, k);
    }
  }

  lemma UsesUpIsOutstanding(r: Run, p: nat, k: nat)
    requires p < k < |r.es| && UsesUpBy(r, p, k)
    ensures OutstandingBy(r, p, k)
  {}
}
