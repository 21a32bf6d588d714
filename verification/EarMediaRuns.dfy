/** What every run of the ear-media machine keeps: a resume undoes one recent pause and nothing else. */
module EarMediaRuns {
  import opened Prelude
  import opened EarMedia

  /** One event, whether local audio went to the AirPods then, the clock, the actions and the state left. */
  datatype Entry = Entry(event: Event, audio: bool, now: Millis, out: seq<Action>, post: State)

  ghost predicate ResumesIn(out: seq<Action>) {
    exists a :: a in out && a.ResumePlayer?
  }

  datatype Run = Run(init: State, es: seq<Entry>) {
    function At(k: nat): State
      requires k <= |es|
    {
      if k == 0 then init else es[k - 1].post
    }

    ghost predicate Linked(k: nat)
      requires k < |es|
    {
      Next(es[k].post, es[k].out) == Step(At(k), es[k].event, es[k].audio, es[k].now)
    }

    ghost predicate Valid() {
      (exists cfg :: init == NewState(cfg))
      && (forall k {:trigger Linked(k)} :: 0 <= k < |es| ==> Linked(k))
      && (forall i, j :: 0 <= i <= j < |es| ==> es[i].now <= es[j].now)
    }

    ghost predicate Pauses(k: nat)
      requires k < |es|
    {
      PauseLocalPlayers in es[k].out
    }

    ghost predicate Resumes(k: nat)
      requires k < |es|
    {
      ResumesIn(es[k].out)
    }

    /** The latest playback reading of this link, after `k` events. */
    function PlayingBy(k: nat): Option<bool>
      requires k <= |es|
    {
      if k == 0 || es[k - 1].event.LinkClosed? then None
      else if es[k - 1].event.Playback? then Some(es[k - 1].event.playing)
      else PlayingBy(k - 1)
    }

    /** The latest player named by a playback reading, after `k` events. */
    function PlayerBy(k: nat): Option<string>
      requires k <= |es|
    {
      if k == 0 then None
      else if es[k - 1].event.Playback? && es[k - 1].event.player.Some? then es[k - 1].event.player
      else PlayerBy(k - 1)
    }

    predicate PlayEdge(k: nat)
      requires k < |es|
    {
      es[k].event.Playback? && es[k].event.playing && PlayingBy(k) != Some(true)
    }

    predicate StopEdge(k: nat)
      requires k < |es|
    {
      es[k].event.Playback? && !es[k].event.playing && PlayingBy(k) != Some(false)
    }

    /** In events `q..=k` every usable ear reading counts `n` buds in ears, the first is at `q`, and the link stays. */
    ghost predicate Held(q: nat, k: nat, n: nat)
      requires q <= k < |es|
    {
      es[q].event.Ear? && InEar(es[q].event.left, es[q].event.right) == Some(n)
      && forall m :: q <= m <= k ==>
        !es[m].event.LinkClosed?
        && (es[m].event.Ear? ==> InEar(es[m].event.left, es[m].event.right) in {None, Some(n)})
    }

    /** The count `n` has been reported by every usable reading for at least `SETTLE`. */
    ghost predicate Settled(k: nat, n: nat)
      requires k < |es|
    {
      exists q :: 0 <= q <= k && Held(q, k, n) && es[k].now - es[q].now >= SETTLE
    }
  }

  // ---- what one step can do

  predicate IsPlayEdge(s: State, event: Event) {
    event.Playback? && event.playing && s.playing != Some(true)
  }

  predicate IsStopEdge(s: State, event: Event) {
    event.Playback? && !event.playing && s.playing != Some(false)
  }

  function UsableCount(event: Event): Option<nat> {
    if event.Ear? then InEar(event.left, event.right) else None
  }

  /** The candidate a step starts from: a usable reading may replace it. */
  function CandidateBefore(s: State, event: Event, now: Millis): Option<Candidate> {
    if UsableCount(event).Some? && (s.pending.None? || s.pending.value.count != UsableCount(event).value)
    then Some(Candidate(UsableCount(event).value, now))
    else s.pending
  }

  ghost predicate Moved(s: State, event: Event, audio: bool, now: Millis, n: Next) {
    var t, out := n.state, n.out;
    var c := CandidateBefore(s, event, now);
    (out == [] || out == [PauseLocalPlayers] || (|out| == 1 && out[0].ResumePlayer?))
    && t.cfg == s.cfg
    && t.playing == (if event.LinkClosed? then None else if event.Playback? then Some(event.playing) else s.playing)
    && t.player == (if event.Playback? && event.player.Some? then event.player else s.player)
    // a pause: the settled count dropped
    && (PauseLocalPlayers in out ==>
          audio && s.playing == Some(true) && s.cfg.autoPause && !event.Playback? && !event.LinkClosed?
          && c.Some? && Since(now, c.value.since) >= SETTLE && t.settled == Some(c.value.count)
          && s.settled.Some? && c.value.count < s.settled.value && (s.cfg.pauseOnOneOfTwo || c.value.count == 0)
          && t.paused == Some(Paused(now, s.settled.value, s.player, true)))
    // a resume: the settled count is back
    && (ResumesIn(out) ==>
          audio && s.playing != Some(true) && s.cfg.autoResume && !event.Playback? && !event.LinkClosed?
          && c.Some? && Since(now, c.value.since) >= SETTLE && t.settled == Some(c.value.count)
          && s.paused.Some? && c.value.count >= s.paused.value.count && Since(now, s.paused.value.at) < RESUME_WINDOW
          && out == [ResumePlayer(s.paused.value.player)] && t.paused.None?)
    // the pending resume survives only undisturbed
    && (t.paused.Some? && PauseLocalPlayers !in out ==>
          s.paused.Some? && !ResumesIn(out) && !IsPlayEdge(s, event)
          && if IsStopEdge(s, event)
             then s.paused.value.confirming && t.paused.value == s.paused.value.(confirming := false)
             else t.paused == s.paused)
    // the candidate
    && (t.pending.Some? ==> t.pending == c && !event.LinkClosed?)
    && (t.pending.Some? ==> t.settled != Some(t.pending.value.count))
    && (UsableCount(event).Some? && UsableCount(event) == s.settled ==> t.pending.None? && t.settled == s.settled)
    && (UsableCount(event).None? || UsableCount(event) != s.settled ==>
          c.None? || event.LinkClosed? || t.pending == c || (t.pending.None? && t.settled == Some(c.value.count)))
    && (t.settled == s.settled || event.LinkClosed? || (c.Some? && t.settled == Some(c.value.count)))
    // a due drop of the settled count does pause
    && (PauseLocalPlayers in out
        || !(event.Tick? && audio && s.playing == Some(true) && s.cfg.autoPause && s.pending.Some?
             && Since(now, s.pending.value.since) >= SETTLE && s.settled.Some?
             && s.pending.value.count < s.settled.value
             && (s.cfg.pauseOnOneOfTwo || s.pending.value.count == 0)))
  }

  /** The tick part of a step: `u` is `s` with the usable reading taken in. */
  lemma TickMoved(s: State, event: Event, audio: bool, now: Millis, u: State)
    requires event.Tick? || (event.Ear? && UsableCount(event).Some? && UsableCount(event) != s.settled)
    requires u == s.(pending := CandidateBefore(s, event, now))
    requires u.pending.Some? ==> s.settled != Some(u.pending.value.count)
    ensures Moved(s, event, audio, now, OnTick(u, audio, now))
  {
    var n := OnTick(u, audio, now);
    assert n.out != [] ==> n.out[0] in n.out;
  }

  lemma StepMoved(s: State, event: Event, audio: bool, now: Millis)
    requires s.pending.Some? ==> s.settled != Some(s.pending.value.count)
    ensures Moved(s, event, audio, now, Step(s, event, audio, now))
  {
    if event.Tick? || (event.Ear? && UsableCount(event).Some? && UsableCount(event) != s.settled) {
      hide Moved, OnTick;
      TickMoved(s, event, audio, now, s.(pending := CandidateBefore(s, event, now)));
    } else {
      assert s.playing.Some? ==> s.playing == Some(s.playing.value);
    }
  }

  // ---- runs

  /** Any sequence of events at any non-decreasing clock readings is a run. */
  lemma {:induction false} EveryInputRuns(cfg: Config, events: seq<Event>, audio: seq<bool>,
                                          clock: seq<Millis>)
    returns (r: Run)
    requires |events| == |clock| == |audio|
    requires forall i, j :: 0 <= i <= j < |clock| ==> clock[i] <= clock[j]
    ensures r.Valid() && r.init == NewState(cfg) && |r.es| == |events|
    ensures forall k :: 0 <= k < |events| ==>
      r.es[k].event == events[k] && r.es[k].audio == audio[k] && r.es[k].now == clock[k]
  {
    hide Step;
    var n := |events|;
    if n == 0 {
      r := Run(NewState(cfg), []);
    } else {
      var p := EveryInputRuns(cfg, events[..n - 1], audio[..n - 1], clock[..n - 1]);
      var next := Step(p.At(n - 1), events[n - 1], audio[n - 1], clock[n - 1]);
      r := Run(p.init, p.es + [Entry(events[n - 1], audio[n - 1], clock[n - 1], next.out, next.state)]);
      assert r.Linked(n - 1);
      forall k | 0 <= k < n ensures r.Linked(k) {
        if k < n - 1 { assert p.Linked(k); }
      }
    }
  }

  lemma {:induction false} CandidateDiffers(r: Run, k: nat)
    requires r.Valid() && k <= |r.es|
    ensures r.At(k).pending.Some? ==> r.At(k).settled != Some(r.At(k).pending.value.count)
  {
    hide Step;
    if k > 0 {
      CandidateDiffers(r, k - 1);
      assert r.Linked(k - 1);
      StepMoved(r.At(k - 1), r.es[k - 1].event, r.es[k - 1].audio, r.es[k - 1].now);
    }
  }

  /** The step behind entry `k`. */
  lemma Took(r: Run, k: nat)
    requires r.Valid() && k < |r.es|
    ensures Moved(r.At(k), r.es[k].event, r.es[k].audio, r.es[k].now, Next(r.es[k].post, r.es[k].out))
  {
    hide Step, Moved;
    CandidateDiffers(r, k);
    assert r.Linked(k);
    StepMoved(r.At(k), r.es[k].event, r.es[k].audio, r.es[k].now);
  }

  lemma {:induction false} ReadingsFollowEvents(r: Run, k: nat)
    requires r.Valid() && k <= |r.es|
    ensures r.At(k).playing == r.PlayingBy(k) && r.At(k).player == r.PlayerBy(k)
  {
    if k > 0 {
      ReadingsFollowEvents(r, k - 1);
      Took(r, k - 1);
    }
  }

  /** The candidate count has been the only usable reading since it appeared. */
  lemma {:induction false} CandidateHeld(r: Run, k: nat) returns (q: nat)
    requires r.Valid() && k < |r.es|
    requires !r.es[k].event.LinkClosed?
    requires var c := CandidateBefore(r.At(k), r.es[k].event, r.es[k].now);
      c.Some? && (UsableCount(r.es[k].event).Some? ==> UsableCount(r.es[k].event) == Some(c.value.count))
    ensures var c := CandidateBefore(r.At(k), r.es[k].event, r.es[k].now);
      q <= k && r.es[q].now == c.value.since && r.Held(q, k, c.value.count)
  {
    var c := CandidateBefore(r.At(k), r.es[k].event, r.es[k].now);
    if r.At(k).pending != c {
      q := k;
    } else {
      Took(r, k - 1);
      q := CandidateHeld(r, k - 1);
      assert r.Held(q, k, c.value.count);
    }
  }

  /** Every pause and every resume acts on a count that all usable readings have held for at least 700 ms. */
  lemma ActsOnSettledCount(r: Run, k: nat)
    requires r.Valid() && k < |r.es| && (r.Pauses(k) || r.Resumes(k))
    ensures r.es[k].audio && r.At(k + 1).settled.Some? && r.Settled(k, r.At(k + 1).settled.value)
  {
    Took(r, k);
    ReadingsFollowEvents(r, k);
    var q := CandidateHeld(r, k);
    assert r.Held(q, k, r.At(k + 1).settled.value);
  }

  lemma {:induction false} CandidateIsPast(r: Run, k: nat)
    requires r.Valid() && k < |r.es|
    ensures r.At(k).pending.Some? ==> r.At(k).pending.value.since <= r.es[k].now
  {
    if k > 0 {
      CandidateIsPast(r, k - 1);
      Took(r, k - 1);
    }
  }

  /** While one count is held it is the candidate, or already settled. */
  lemma {:induction false} HeldIsCandidate(r: Run, q: nat, k: nat, n: nat)
    requires r.Valid() && q <= k < |r.es| && r.Held(q, k, n)
    ensures var t := r.At(k + 1);
      (t.settled == Some(n) && t.pending.None?)
      || (t.pending.Some? && t.pending.value.count == n && t.pending.value.since <= r.es[q].now)
  {
    Took(r, k);
    CandidateIsPast(r, k);
    if q < k {
      assert r.Held(q, k - 1, n);
      HeldIsCandidate(r, q, k - 1, n);
    }
  }

  /**
   A tick pauses exactly when automatic pausing is on, audio goes to the AirPods, a player is playing, and a
   count below the settled one (zero, under the narrow rule) has been held for 700 ms.
   */
  lemma TickPausesIff(r: Run, k: nat)
    requires r.Valid() && k < |r.es| && r.es[k].event.Tick?
    ensures var s := r.At(k);
      r.Pauses(k) <==>
        (s.cfg.autoPause && r.es[k].audio && r.PlayingBy(k) == Some(true) && s.settled.Some?
         && exists n :: 0 <= n < s.settled.value && r.Settled(k, n) && (s.cfg.pauseOnOneOfTwo || n == 0))
  {
    var s := r.At(k);
    Took(r, k);
    ReadingsFollowEvents(r, k);
    if r.Pauses(k) {
      ActsOnSettledCount(r, k);
    } else if s.settled.Some? {
      forall n | 0 <= n < s.settled.value && r.Settled(k, n) && (s.cfg.pauseOnOneOfTwo || n == 0)
        ensures !(s.cfg.autoPause && r.es[k].audio && r.PlayingBy(k) == Some(true))
      {
        var q: nat :| q <= k && r.Held(q, k, n) && r.es[k].now - r.es[q].now >= SETTLE;
        assert r.Held(q, k - 1, n);
        HeldIsCandidate(r, q, k - 1, n);
      }
    }
  }

  /**
   A tick resumes exactly when automatic resuming is on, audio goes to the AirPods, nothing plays, a pause made here is
   outstanding and fresh, and a count above the settled one and at least the one before that pause has been held.
   */
  lemma TickResumesIff(r: Run, k: nat)
    requires r.Valid() && k < |r.es| && r.es[k].event.Tick?
    ensures var s := r.At(k);
      r.Resumes(k) <==>
        (s.cfg.autoResume && r.es[k].audio && r.PlayingBy(k) != Some(true) && s.settled.Some?
         && s.paused.Some? && Since(r.es[k].now, s.paused.value.at) < RESUME_WINDOW
         && exists n :: n > s.settled.value && n >= s.paused.value.count && r.Settled(k, n))
  {
    hide Moved;
    var s, now := r.At(k), r.es[k].now;
    ReadingsFollowEvents(r, k);
    assert r.Linked(k);
    var out := r.es[k].out;
    if s.settled.Some? && s.pending.Some? && s.pending.value.count > s.settled.value
      && Since(now, s.pending.value.since) >= SETTLE {
      var q := CandidateHeld(r, k);
      assert r.Settled(k, s.pending.value.count);
      assert out != [] ==> out[0] in out;
    } else if s.settled.Some? {
      forall n | n > s.settled.value ensures !r.Settled(k, n) {
        if r.Settled(k, n) {
          var q: nat :| q <= k && r.Held(q, k, n) && now - r.es[q].now >= SETTLE;
          assert r.Held(q, k - 1, n);
          HeldIsCandidate(r, q, k - 1, n);
        }
      }
    }
    CandidateDiffers(r, k);
  }

  /** An outstanding pause: who made it, and that only its own stop has been seen since. */
  lemma {:induction false} PauseHasSource(r: Run, k: nat) returns (p: nat)
    requires r.Valid() && k <= |r.es| && r.At(k).paused.Some?
    ensures p < k && r.Pauses(p) && r.At(p).settled.Some?
    ensures var w := r.At(k).paused.value;
      w.at == r.es[p].now && w.count == r.At(p).settled.value && w.player == r.PlayerBy(p)
    ensures forall m :: p < m < k ==> !r.Pauses(m) && !r.Resumes(m) && !r.PlayEdge(m)
    ensures forall m :: p < m < k && r.StopEdge(m) ==> !r.At(k).paused.value.confirming
    ensures forall m, n :: p < m < n < k && r.StopEdge(m) ==> !r.StopEdge(n)
  {
    Took(r, k - 1);
    ReadingsFollowEvents(r, k - 1);
    if r.Pauses(k - 1) {
      p := k - 1;
    } else {
      p := PauseHasSource(r, k - 1);
    }
  }

  /**
   Every resume undoes the latest pause, at most five minutes old and not undone before: it names the
   player recorded at that pause, waits for at least as many buds as were in before it, and finds that
   playback was touched by nobody but the pause itself.
   */
  lemma ResumeUndoesOnePause(r: Run, k: nat, player: Option<string>) returns (p: nat)
    requires r.Valid() && k < |r.es| && ResumePlayer(player) in r.es[k].out
    ensures p < k && r.Pauses(p) && player == r.PlayerBy(p)
    ensures r.es[k].now - r.es[p].now < RESUME_WINDOW
    ensures forall m :: p < m < k ==> !r.Pauses(m) && !r.Resumes(m)
    ensures r.At(p).settled.Some? && r.At(k + 1).settled.Some?
      && r.At(k + 1).settled.value >= r.At(p).settled.value
    ensures r.es[k].audio && r.PlayingBy(k) != Some(true)
    ensures forall m :: p < m < k ==> !r.PlayEdge(m)
    ensures forall m, n :: p < m < n < k && r.StopEdge(m) ==> !r.StopEdge(n)
  {
    assert r.Resumes(k);
    Took(r, k);
    ReadingsFollowEvents(r, k);
    p := PauseHasSource(r, k);
  }

  /** Two resumes never undo the same pause. */
  lemma ResumesUndoDistinctPauses(r: Run, j: nat, k: nat, a: Option<string>, b: Option<string>) returns (p: nat, q: nat)
    requires r.Valid() && j < k < |r.es| && ResumePlayer(a) in r.es[j].out && ResumePlayer(b) in r.es[k].out
    ensures p < j < q < k && r.Pauses(p) && r.Pauses(q)
    ensures a == r.PlayerBy(p) && b == r.PlayerBy(q)
  {
    p := ResumeUndoesOnePause(r, j, a);
    q := ResumeUndoesOnePause(r, k, b);
    assert r.Resumes(j);
    Took(r, j);
    assert !r.Pauses(j);
  }
}
