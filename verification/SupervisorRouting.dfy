/**
 Over every run each part hears exactly what the inputs carry: no input is lost on its way, none is heard twice or
 late, and nothing else is heard.
 */
module SupervisorRouting {
  import opened Prelude
  import opened Supervisor
  import opened SupervisorEvents
  import opened SupervisorRuns
  import SupervisorSteps
  import Rejoin
  import RejoinRuns
  import RejoinHistory
  import AutoConnect
  import Handoff
  import HandoffRuns
  import HandoffHistory
  import EarMedia
  import Store

  /** What the input of step `k` carries. */
  function CarriedAt(r: Run, k: nat): Carried
    requires k < |r.es|
  {
    Carries(r.At(k), r.es[k].input, r.es[k].clock.now, r.At(k + 1).rejoin.pending.Some?)
  }

  /** What the inputs of the first `k` steps carry to the rejoin machine, in order, each at its clock reading. */
  function RejoinOwed(r: Run, k: nat): seq<(Rejoin.Event, Millis)>
    requires k <= |r.es|
  {
    if k == 0 then [] else RejoinOwed(r, k - 1) + Stamped(CarriedAt(r, k - 1).rejoin, r.es[k - 1].clock.now)
  }

  function AutoOwed(r: Run, k: nat): seq<(AutoConnect.Event, Millis)>
    requires k <= |r.es|
  {
    if k == 0 then [] else AutoOwed(r, k - 1) + Stamped(CarriedAt(r, k - 1).auto, r.es[k - 1].clock.now)
  }

  function HandoffOwed(r: Run, k: nat): seq<(Handoff.Event, Millis)>
    requires k <= |r.es|
  {
    if k == 0 then [] else HandoffOwed(r, k - 1) + Stamped(CarriedAt(r, k - 1).handoff, r.es[k - 1].clock.now)
  }

  function EarOwed(r: Run, k: nat): seq<(EarMedia.Event, Millis)>
    requires k <= |r.es|
  {
    if k == 0 then [] else EarOwed(r, k - 1) + Stamped(CarriedAt(r, k - 1).ear, r.es[k - 1].clock.now)
  }

  function StoreOwed(r: Run, k: nat): seq<Store.Update>
    requires k <= |r.es|
  {
    if k == 0 then [] else StoreOwed(r, k - 1) + CarriedAt(r, k - 1).store
  }

  lemma StepHears(r: Run, k: nat)
    requires r.Valid() && k < |r.es|
    ensures Hears(r.At(k), r.At(k + 1), CarriedAt(r, k), r.es[k].clock.now)
  {
    hide Step, Hears, Carries;
    assert r.Linked(k);
    StepTells(r.At(k), r.es[k].input, r.es[k].clock);
  }

  /**
   In every run each part has been told exactly what the inputs carried to it, in their order, at their clock readings.
   */
  lemma {:induction false} PartsHear(r: Run, k: nat)
    requires r.Valid() && k <= |r.es|
    ensures RejoinTold(r.At(k).log.rejoin) == RejoinOwed(r, k) && AutoTold(r.At(k).log.auto) == AutoOwed(r, k)
    ensures HandoffTold(r.At(k).desk.log.handoff) == HandoffOwed(r, k) && EarTold(r.At(k).desk.log.ear) == EarOwed(r, k)
    ensures StoreTold(r.At(k).log.store) == StoreOwed(r, k)
  {
    hide CarriedAt, Run.Valid;
    if k == 0 {
      NothingToldYet(r);
    } else {
      PartsHear(r, k - 1);
      StepHears(r, k - 1);
    }
  }

  lemma NothingToldYet(r: Run)
    requires r.Valid()
    ensures r.At(0).log == Log([], [], []) && r.At(0).desk.log == DeskLog([], [], [])
  {}

  /** Whatever the rejoin machine was told has its input: the step that carried it, at that clock reading. */
  lemma {:induction false} EventHasInput(r: Run, k: nat, i: nat) returns (j: nat, n: nat)
    requires r.Valid() && k <= |r.es| && i < |r.At(k).log.rejoin|
    ensures j < k && n < |CarriedAt(r, j).rejoin|
    ensures r.At(k).log.rejoin[i].event == CarriedAt(r, j).rejoin[n]
    ensures r.At(k).log.rejoin[i].now == r.es[j].clock.now
  {
    PartsHear(r, k);
    hide Run.Valid, CarriedAt;
    assert RejoinTold(r.At(k).log.rejoin)[i] == (r.At(k).log.rejoin[i].event, r.At(k).log.rejoin[i].now);
    j, n := OwedHasInput(r, k, i);
  }

  lemma {:induction false} OwedHasInput(r: Run, k: nat, i: nat) returns (j: nat, n: nat)
    requires k <= |r.es| && i < |RejoinOwed(r, k)|
    ensures j < k && n < |CarriedAt(r, j).rejoin|
    ensures RejoinOwed(r, k)[i] == (CarriedAt(r, j).rejoin[n], r.es[j].clock.now)
  {
    hide CarriedAt;
    if i < |RejoinOwed(r, k - 1)| {
      j, n := OwedHasInput(r, k - 1, i);
    } else {
      j, n := k - 1, i - |RejoinOwed(r, k - 1)|;
    }
  }

  // ---- the link and the identity

  /** Step `k` handles a link event. */
  predicate HandlesLink(r: Run, k: nat)
    requires k < |r.es|
  {
    r.es[k].input.Link? && TakesLinkEvents(r.At(k).phase)
  }

  /** The identity in force after `k` steps: the last one handled, until then the one configured. */
  function HostBy(r: Run, k: nat): Host
    requires k <= |r.es|
  {
    if k == 0 then r.init.host
    else
      var host := HostBy(r, k - 1);
      if !HandlesLink(r, k - 1) then host
      else
        match r.es[k - 1].input.event
        case Identity(adapter, address, _, _, pinned) =>
          host.(adapter := Some(adapter), device := Some(address), pinned := pinned)
        case _ => host
  }

  /** The link is up after `k` steps: it was last seen coming up, and neither lost nor made another device's since. */
  predicate LinkBy(r: Run, k: nat)
    requires k <= |r.es|
  {
    k > 0
    && if !HandlesLink(r, k - 1) then LinkBy(r, k - 1)
       else
         match r.es[k - 1].input.event
         case Connected(up) => up
         case AdapterGone => false
         case Identity(adapter, address, _, _, pinned) =>
           LinkBy(r, k - 1)
           && HostBy(r, k - 1) == HostBy(r, k - 1).(adapter := Some(adapter), device := Some(address), pinned := pinned)
         case _ => LinkBy(r, k - 1)
  }

  /** The link and the identity are what the link events handled so far made them. */
  lemma {:induction false} NetFollowsEvents(r: Run, k: nat)
    requires r.Valid() && k <= |r.es|
    ensures r.At(k).host == HostBy(r, k) && (r.At(k).radio.acl <==> LinkBy(r, k))
  {
    if k == 0 {
      NoLinkYet(r);
    } else {
      NetFollowsEvents(r, k - 1);
      NetStep(r, k - 1);
      hide Run.Valid;
    }
  }

  lemma NoLinkYet(r: Run)
    requires r.Valid()
    ensures !r.At(0).radio.acl
  {}

  lemma NetStep(r: Run, k: nat)
    requires r.Valid() && k < |r.es|
    ensures NetMoves(r.At(k), r.es[k].input, r.At(k + 1))
  {
    assert r.Linked(k);
    hide Run.Valid, Step, NetMoves;
    StepNet(r.At(k), r.es[k].input, r.es[k].clock);
  }

  // ---- whether local audio is heard on the AirPods

  /** Handoff is off, or this host owns the audio and has not given it up, by the history of the ownership machine. */
  ghost predicate MayPlayBy(r: Run, k: nat)
    requires k <= |r.es|
  {
    var p := r.HandoffRun(k);
    var n := |p.es|;
    !HandoffHistory.EnabledBy(p, n)
    || (HandoffHistory.OwnerBy(p, n) == Handoff.Here && p.RouteBy(n) != Some(Handoff.Yielded))
  }

  /**
   Ear media acts on this host's audio exactly while the link is up, the card points there, and ownership allows it.
   */
  lemma EarActsOnOwnAudio(r: Run, k: nat)
    requires r.Valid() && k < |r.es| && TellsEar(r.At(k), r.es[k].input)
    ensures ToldWith(r.At(k + 1).desk.log.ear,
                     LinkBy(r, k) && r.At(k).desk.route != Some(Handoff.Yielded)
                     && MayPlayBy(r, if r.es[k].input.Tick? then k + 1 else k))
  {
    assert r.Linked(k);
    hide Step, Run.Valid, LinkBy, MayPlayBy, TellsEar;
    EarIsToldAudio(r.At(k), r.es[k].input, r.es[k].clock);
    NetFollowsEvents(r, k);
    MayPlayIff(r, k);
    MayPlayIff(r, k + 1);
  }

  lemma MayPlayIff(r: Run, k: nat)
    requires r.Valid() && k <= |r.es|
    ensures var h := r.At(k).desk.handoff;
      (!h.enabled || (h.owner == Handoff.Here && !h.released)) <==> MayPlayBy(r, k)
  {
    PartsRun(r, k);
    var p := r.HandoffRun(k);
    hide Run.Valid, HandoffRuns.Run.Valid, HandoffHistory.EnabledBy, HandoffHistory.OwnerBy, HandoffRuns.Run.RouteBy;
    HandoffHistory.LatestFollowsEvents(p, |p.es|);
    HandoffHistory.OwnerFollowsEvents(p, |p.es|);
    HandoffRuns.RouteFollowsRelease(p, |p.es|);
  }

  // ---- a drop that is handled

  /**
   A `Disconnected` signal that is handled is the next event of the rejoin machine, and leaves a reconnect pending
   exactly when the history of that machine makes it start one.
   */
  lemma HandledDropReconnects(r: Run, k: nat) returns (p: RejoinRuns.Run, d: nat)
    requires r.Valid() && k < |r.es| && TakesLinkEvents(r.At(k).phase)
    requires r.es[k].input.Link? && r.es[k].input.event.Disconnected?
    ensures p == r.RejoinRun(k + 1) && p.Valid() && |p.es| == d + 1 && p.es[..d] == r.At(k).log.rejoin
    ensures var e := r.es[k].input.event;
      p.es[d].event == Rejoin.Disconnected(e.reason, e.facts, e.lidClosed) && p.es[d].now == r.es[k].clock.now
    ensures r.At(k + 1).rejoin.pending.Some? <==> RejoinHistory.StartsBy(p, d)
  {
    p, d := r.RejoinRun(k + 1), |r.At(k).log.rejoin|;
    DropIsHeard(r, k);
    PartsRun(r, k + 1);
    DropDecides(p, d);
  }

  lemma DropIsHeard(r: Run, k: nat)
    requires r.Valid() && k < |r.es| && TakesLinkEvents(r.At(k).phase)
    requires r.es[k].input.Link? && r.es[k].input.event.Disconnected?
    ensures var e, d, log := r.es[k].input.event, |r.At(k).log.rejoin|, r.At(k + 1).log.rejoin;
      |log| == d + 1 && log[..d] == r.At(k).log.rejoin
      && log[d].event == Rejoin.Disconnected(e.reason, e.facts, e.lidClosed) && log[d].now == r.es[k].clock.now
  {
    var e, d, log := r.es[k].input.event, |r.At(k).log.rejoin|, r.At(k + 1).log.rejoin;
    StepHears(r, k);
    var event := Rejoin.Disconnected(e.reason, e.facts, e.lidClosed);
    assert CarriedAt(r, k).rejoin == [event];
    assert |RejoinTold(log)| == d + 1;
    assert RejoinTold(log)[d] == (event, r.es[k].clock.now);
    LogsGrow(r, k);
  }

  lemma LogsGrow(r: Run, k: nat)
    requires r.Valid() && k < |r.es|
    ensures r.At(k).log.rejoin <= r.At(k + 1).log.rejoin
  {
    hide Step, SupervisorSteps.TaskMoved, SupervisorSteps.Ok;
    Took(r, k);
  }

  /** A drop ends what was pending, so what is pending after it is its own. */
  lemma DropDecides(p: RejoinRuns.Run, d: nat)
    requires p.Valid() && |p.es| == d + 1 && p.es[d].event.Disconnected?
    ensures p.At(d + 1).pending.Some? <==> RejoinHistory.StartsBy(p, d)
  {
    hide RejoinHistory.StartsBy, RejoinHistory.Tells;
    if RejoinHistory.StartsBy(p, d) {
      RejoinHistory.StartTells(p, d);
      RejoinHistory.TellsSome(p, d, d + 1);
    }
    if p.At(d + 1).pending.Some? {
      var e := RejoinHistory.PendingIsLive(p, d + 1);
      if e < d {
        RejoinHistory.LiveBefore(p, e, d + 1);
        DropEnds(p, e, d);
      } else {
        LiveIsStarted(p, d);
      }
    }
  }

  lemma DropEnds(p: RejoinRuns.Run, e: nat, d: nat)
    requires e < d < |p.es| && p.es[d].event.Disconnected?
    ensures RejoinHistory.EndsBy(p, e, d)
  {}

  lemma LiveIsStarted(p: RejoinRuns.Run, d: nat)
    requires d < |p.es| && RejoinHistory.LiveBy(p, d, d + 1)
    ensures RejoinHistory.StartsBy(p, d)
  {}
}
