/** How far apart the first connects of different sequences are: when a minute is certain, and when three seconds do. */
module RejoinSpacing {
  import opened Prelude
  import opened Rejoin
  import opened RejoinRuns

  /** `c` begins with the first `n` events of `r`. */
  ghost predicate Continues(c: Run, r: Run, n: nat)
    requires n <= |r.es|
  {
    c.Valid() && c.init == r.init && n <= |c.es| && c.es[..n] == r.es[..n]
  }

  /** Event `j` connects in a sequence later than `q`. */
  ghost predicate ConnectsLater(c: Run, j: nat, q: nat)
    requires j < |c.es|
  {
    exists a :: a in c.es[j].out && a.Connect? && a.seqNo > q
  }

  /** However the run goes on after event `k`, a later sequence connects only a minute after it or more. */
  ghost predicate MinuteAfter(r: Run, k: nat, q: nat)
    requires k < |r.es|
  {
    forall c: Run, j: nat {:trigger ConnectsLater(c, j, q)} ::
      Continues(c, r, k + 1) && k < j < |c.es| && ConnectsLater(c, j, q) ==> c.es[j].now - r.es[k].now >= RATE_LIMIT
  }

  /** The first `n` events of a run and one more. */
  lemma Extended(r: Run, n: nat, event: Event, now: Millis) returns (c: Run)
    requires r.Valid() && n <= |r.es| && (n > 0 ==> r.es[n - 1].now <= now)
    ensures Continues(c, r, n) && |c.es| == n + 1 && c.es[n].event == event && c.es[n].now == now && c.At(n) == r.At(n)
    ensures Next(c.At(n + 1), c.es[n].out) == Step(r.At(n), event, now)
  {
    hide Step;
    var next := Step(r.At(n), event, now);
    c := Run(r.init, r.es[..n] + [Entry(event, now, next.out, next.state)]);
    forall k | 0 <= k < |c.es| ensures c.Linked(k) {
      assert c.At(k) == r.At(k);
      assert k < n ==> r.Linked(k);
    }
    assert c.es[..n] == r.es[..n];
  }

  lemma ContinuesOn(a: Run, b: Run, c: Run, n: nat, m: nat)
    requires n <= m && n <= |a.es| && m <= |b.es| && Continues(b, a, n) && Continues(c, b, m)
    ensures Continues(c, a, n)
  {
    assert c.es[..n] == c.es[..m][..n] == b.es[..m][..n] == b.es[..n];
  }

  lemma SamePast(c: Run, r: Run, n: nat, k: nat)
    requires k <= n <= |r.es| && Continues(c, r, n)
    ensures c.At(k) == r.At(k) && (k < n ==> c.es[k] == r.es[k])
  {
    assert k > 0 ==> c.es[k - 1] == c.es[..n][k - 1] == r.es[..n][k - 1];
    assert k < n ==> c.es[k] == c.es[..n][k] == r.es[..n][k];
  }

  // ---- what a pending sequence says about its drop

  /** Whatever would refuse another rejoin has not come up since the drop behind the pending one. */
  predicate Willing(s: State) {
    s.pending.Some? ==>
      s.lastSequence.Some? && s.pending.value.seqNo == s.seqNo
      && s.handoffEnabled && s.allowed && !s.looped && !s.bothInCase
      && (s.lastManual.Some? ==> s.lastManual.value + MANUAL_QUIET <= s.lastSequence.value)
      && (s.lastSuccess.Some? ==> s.lastSuccess.value + LOOP_WINDOW <= s.lastSequence.value)
  }

  lemma WillingStep(s: State, event: Event, now: Millis)
    requires Willing(s)
    ensures Willing(Step(s, event, now).state)
  {
    hide Blame, Newest, BusyRetry;
  }

  lemma {:induction false} WillingAt(r: Run, k: nat)
    requires r.Valid() && k <= |r.es|
    ensures Willing(r.At(k))
  {
    hide Step;
    if k > 0 {
      WillingAt(r, k - 1);
      assert r.Linked(k - 1);
      WillingStep(r.At(k - 1), r.es[k - 1].event, r.es[k - 1].now);
    }
  }

  /** Until the next sequence starts the rate limit counts from the same drop. */
  lemma {:induction false} SameSequence(r: Run, d: nat, k: nat)
    requires r.Valid() && d < k <= |r.es| && r.At(k).seqNo == r.At(d + 1).seqNo
    ensures r.At(k).lastSequence == r.At(d + 1).lastSequence
  {
    hide MemoryMoves;
    if d + 1 < k {
      Took(r, k - 1);
      SequencesOnlyGrow(r, d + 1, k - 1);
      SameSequence(r, d, k - 1);
    }
  }

  // ---- another eviction at once

  const FACTS: LinkFacts := LinkFacts(true, true, false)

  /** An eviction by a known host is accepted: report and drop at one moment start the next sequence. */
  predicate Evictable(s: State, x: Address, now: Millis) {
    s.handoffEnabled && s.allowed && !s.looped && !s.bothInCase && s.local != Some(x) && x in s.known
    && !Within(now, s.lastManual, MANUAL_QUIET) && !Within(now, s.lastSuccess, LOOP_WINDOW)
  }

  function Evicted(s: State, now: Millis): State {
    s.(seqNo := s.seqNo + 1, lastSequence := Some(now), lastReport := None,
       pending := Some(Pending(s.seqNo + 1, 1, now + Defer(s, now) + REJOIN_DELAY, false, Joined)))
  }

  lemma EvictionStarts(s: State, x: Address, now: Millis)
    requires Evictable(s, x, now)
    ensures var t := Step(s, ConnectedDevices([ListedHost(x, true)]), now).state;
            t == s.(lastReport := Some(Report(now, [ListedHost(x, true)])))
            && Step(t, Disconnected(Remote, Some(FACTS), false), now).state == Evicted(s, now)
  {
    var h := ListedHost(x, true);
    var t := s.(lastReport := Some(Report(now, [h])));
    var c := Cancel(t, DisconnectedAgain).state;
    assert MatchHost(c, x) == Some(ByRelay) && Eligible(c, h, false);
    assert [h][..0] == [];
    assert Pick(c, [h], false) == Some(h);
    hide Pick, MatchHost;
    assert Blame(c, Remote, now) == Accept(x, ByRelay, Joined, 0) by { PickedIsMatched(c, x); }
  }

  lemma PickedIsMatched(s: State, x: Address)
    ensures s.local != Some(x) && x in s.known ==> MatchHost(s, x) == Some(ByRelay)
  {}

  /** A waiting sequence connects on the tick it is due. */
  lemma DueConnects(s: State, now: Millis)
    requires s.handoffEnabled && s.allowed && s.pending.Some? && !s.pending.value.inFlight && now >= s.pending.value.due
    ensures Step(s, Tick, now).out == [Connect(s.pending.value.seqNo, s.pending.value.attempt)]
  {}

  lemma RelayTeaches(s: State, x: Address, now: Millis)
    requires s.local != Some(x)
    ensures var t := Step(s, Relay(x), now).state; t == s.(known := t.known) && x in t.known
  {
    var k := s.known + [x];
    assert k[|k| - 1] == x && Newest(k)[|Newest(k)| - 1] == x;
  }

  /** Some address is not this host's. */
  function Stranger(s: State): (x: Address)
    ensures s.local != Some(x)
  {
    var a := Address(2, 0, 0, 0, 0, 1);
    if s.local == Some(a) then Address(2, 0, 0, 0, 0, 2) else a
  }

  /**
   Right after the first connect of a sequence another eviction can follow. Its sequence connects when the rate limit,
   counted from the earlier drop, has run out, but at least 3 s later.
   */
  lemma NextEvictionConnects(r: Run, d: nat, k: nat) returns (c: Run, j: nat)
    requires r.Valid() && d < k < |r.es| && r.Starts(d)
    requires r.Does(k, Connect(r.At(d + 1).seqNo, 1))
    ensures Continues(c, r, k + 1) && k < j < |c.es| && ConnectsLater(c, j, r.At(d + 1).seqNo)
    ensures var due := if r.es[k].now - r.es[d].now >= RATE_LIMIT then r.es[k].now else r.es[d].now + RATE_LIMIT;
            c.es[j].now == due + REJOIN_DELAY
  {
    hide Step, Moved, Evicted;
    var n, now, s := k + 1, r.es[k].now, r.At(k + 1);
    var x := Stranger(s);
    ConnectLeaves(r, d, k);
    RelayTeaches(s, x, now);
    var a := Extended(r, n, Relay(x), now);
    var t := a.At(n + 1);
    var b := Extended(a, n + 1, ConnectedDevices([ListedHost(x, true)]), now);
    var e := Extended(b, n + 2, Disconnected(Remote, Some(FACTS), false), now);
    EvictionStarts(t, x, now);
    var u := e.At(n + 3);
    assert u == Evicted(t, now);
    EvictedIs(t, now);
    c := Extended(e, n + 3, Tick, u.pending.value.due);
    DueConnects(u, u.pending.value.due);
    j := n + 3;
    ContinuesOn(r, a, b, n, n + 1);
    ContinuesOn(r, b, e, n, n + 2);
    ContinuesOn(r, e, c, n, n + 3);
    assert Connect(u.pending.value.seqNo, 1) in c.es[j].out;
  }

  lemma EvictedIs(s: State, now: Millis)
    ensures var t := Evicted(s, now);
            t.handoffEnabled == s.handoffEnabled && t.allowed == s.allowed
            && t.pending == Some(Pending(s.seqNo + 1, 1, now + Defer(s, now) + REJOIN_DELAY, false, Joined))
  {}

  /** The state a first connect leaves: willing to rejoin again, with the rate limit counting from the drop. */
  lemma ConnectLeaves(r: Run, d: nat, k: nat)
    requires r.Valid() && d < k < |r.es| && r.Starts(d) && r.Does(k, Connect(r.At(d + 1).seqNo, 1))
    ensures var s := r.At(k + 1);
            s.pending.Some? && s.seqNo == r.At(d + 1).seqNo && s.lastSequence == Some(r.es[d].now)
            && s.handoffEnabled && s.allowed && !s.looped && !s.bothInCase
            && !Within(r.es[k].now, s.lastManual, MANUAL_QUIET) && !Within(r.es[k].now, s.lastSuccess, LOOP_WINDOW)
  {
    Took(r, k);
    Took(r, d);
    WillingAt(r, k);
    WillingAt(r, k + 1);
    SameSequence(r, d, k);
  }

  /**
   When no later sequence can connect within a minute of this one's first connect: exactly when that connect came no
   later than 3 s after its drop, before any deferral or delay moved it away from where the rate limit counts.
   */
  lemma MinuteAfterIff(r: Run, d: nat, k: nat)
    requires r.Valid() && d < k < |r.es| && r.Starts(d)
    requires r.Does(k, Connect(r.At(d + 1).seqNo, 1))
    ensures MinuteAfter(r, k, r.At(d + 1).seqNo) <==> r.es[k].now <= r.es[d].now + REJOIN_DELAY
  {
    var q := r.At(d + 1).seqNo;
    if r.es[k].now > r.es[d].now + REJOIN_DELAY {
      var c, j := NextEvictionConnects(r, d, k);
      assert ConnectsLater(c, j, q);
    } else {
      forall c: Run, j: nat | Continues(c, r, k + 1) && k < j < |c.es| && ConnectsLater(c, j, q)
        ensures c.es[j].now - r.es[k].now >= RATE_LIMIT
      {
        SamePast(c, r, k + 1, d);
        SamePast(c, r, k + 1, d + 1);
        var a :| a in c.es[j].out && a.Connect? && a.seqNo > q;
        assert a == Connect(a.seqNo, a.attempt);
        ConnectsAreSpaced(c, d, j, a.seqNo, a.attempt);
      }
    }
  }

  // ---- three seconds

  const MAC: Address := Address(2, 0, 0, 0, 0, 7)
  const LISTED: Event := ConnectedDevices([ListedHost(MAC, true)])
  const EVICTION: Event := Disconnected(Remote, Some(FACTS), false)

  function Start(): State {
    NewState(true, true, [MAC], {})
  }

  function Deferred(): State {
    Evicted(Evicted(Start(), 0), 1_000)
  }

  function Again(): State {
    Evicted(Deferred().(pending := None), 63_000)
  }

  lemma Dues()
    ensures Deferred().pending == Some(Pending(2, 1, 63_000, false, Joined)) && Deferred().handoffEnabled
    ensures Deferred().allowed
    ensures Again().pending == Some(Pending(3, 1, 66_000, false, Joined)) && Again().handoffEnabled && Again().allowed
    ensures Evictable(Start(), MAC, 0) && Evictable(Evicted(Start(), 0), MAC, 1_000)
    ensures Evictable(Deferred().(pending := None), MAC, 63_000)
  {}

  function Evictions(): seq<Event> {
    [LISTED, EVICTION, LISTED, EVICTION, Tick, ConnectFinished(2, Failed), LISTED, EVICTION, Tick]
  }

  function Moments(): seq<Millis> {
    [0, 0, 1_000, 1_000, 63_000, 63_000, 63_000, 63_000, 66_000]
  }

  /** Two sequences connect for the first time 3 s apart: the earlier one was deferred. */
  lemma FirstConnectsThreeSecondsApart() returns (r: Run)
    ensures r.Valid() && |r.es| == 9
    ensures r.es[4].event.Tick? && r.Does(4, Connect(2, 1)) && r.es[4].now == 63_000
    ensures r.es[8].event.Tick? && r.Does(8, Connect(3, 1)) && r.es[8].now == 66_000
  {
    hide Step, Evicted, Deferred, Again, Evictable;
    r := EveryInputRuns(Start(), Evictions(), Moments());
    forall k | 0 <= k < 9 ensures Next(r.At(k + 1), r.es[k].out) == Step(r.At(k), Evictions()[k], Moments()[k]) {
      assert r.Linked(k);
    }
    Dues();
    EvictionStarts(Start(), MAC, 0);
    EvictionStarts(Evicted(Start(), 0), MAC, 1_000);
    assert r.At(4) == Deferred() by { DeferredIs(); }
    DueFails(Deferred(), 63_000);
    EvictionStarts(Deferred().(pending := None), MAC, 63_000);
    assert r.At(8) == Again() by { DeferredIs(); }
    DueConnects(Again(), 66_000);
    assert Next(r.At(9), r.es[8].out) == Step(r.At(8), Tick, 66_000);
  }

  lemma DeferredIs()
    ensures Deferred() == Evicted(Evicted(Start(), 0), 1_000)
    ensures Again() == Evicted(Deferred().(pending := None), 63_000)
  {}

  /** The due connect goes out, and fails. */
  lemma DueFails(s: State, now: Millis)
    requires s.handoffEnabled && s.allowed && s.pending.Some? && !s.pending.value.inFlight && now >= s.pending.value.due
    ensures var n := Step(s, Tick, now);
            n.out == [Connect(s.pending.value.seqNo, s.pending.value.attempt)]
            && Step(n.state, ConnectFinished(s.pending.value.seqNo, Failed), now).state == s.(pending := None)
  {}
}
