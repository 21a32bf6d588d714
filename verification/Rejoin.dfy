/**
 The rejoin decision: may a lost link be reconnected, and when.

 `Step` is the transition as a function of the old state; class `RejoinState` is the machine
 as the daemon runs it, field by field, proved to take exactly that transition.
 */
module Rejoin {
  import opened Prelude

  const EVICTION_WINDOW: Millis := 1_500
  const REJOIN_DELAY: Millis := 3_000
  const MANUAL_QUIET: Millis := 10_000
  const MAX_ATTEMPTS: nat := 3
  const RATE_LIMIT: Millis := 60_000
  const LOOP_WINDOW: Millis := 20_000
  const KNOWN_HOSTS_CAP: nat := 8

  /** Wait before the connect that follows the `attempt`-th busy refusal. */
  function BusyRetry(attempt: nat): Millis {
    if attempt <= 1 then 3_000 else 6_000
  }

  datatype Reason = Unknown | Timeout | Local | Remote | Authentication | Suspend | Other

  datatype LinkFacts = LinkFacts(powered: bool, paired: bool, blocked: bool)

  datatype NotReadyWhy =
    | DeviceUnknown | LinkControlOff | AdapterOff | NotPaired | Blocked
    | ConnectedByOtherMeans | Superseded | AdapterMissing

  datatype Outcome = Connected | Busy | Failed | NotReady(why: NotReadyWhy)

  datatype ListedHost = ListedHost(address: Address, linkUp: bool)

  datatype Event =
    | ConnectedDevices(hosts: seq<ListedHost>)
    | LinkSessionStarted
    | Relay(sender: Address)
    | Ear(bothInCase: bool)
    | Disconnected(reason: Reason, facts: Option<LinkFacts>, lidClosed: bool)
    | LinkConnected(up: bool)
    | AdapterGone
    | IdentityChanged
    | ManualCommand
    | SetEnabled(enabled: bool)
    | Tick
    | ConnectFinished(seqNo: nat, outcome: Outcome)
    /** The session stores the local adapter address in the public field `local`. */
    | SetLocal(adapter: Address)

  datatype MatchKind = Joined | HostConnected | LinkLost

  datatype HostMatch = ByRelay | ByOui

  datatype SkipWhy =
    | HandoffDisabled | RejoinOff | ReasonNotEviction(reason: Reason) | EvictionLooped
    | RecentManual | NoAppleHostLinkUp | NoReportWithAppleHost | BudsInCase | LidClosed
    | FactsUnreadable | AdapterUnpowered | DeviceNotPaired | DeviceBlocked

  datatype CancelWhy =
    | BudsAway | DisconnectedAgain | OtherConnect | AdapterWentAway | NewIdentity
    | Manual | SwitchedOff | Refused(why: NotReadyWhy)

  datatype Action =
    | Persist(known: seq<Address>)
    | Scheduled(host: Address, matched: HostMatch, kind: MatchKind)
    | Deferred(host: Address, matched: HostMatch, kind: MatchKind, delay: Millis)
    | Skipped(skip: SkipWhy)
    | Cancelled(cancel: CancelWhy)
    | Connect(seqNo: nat, attempt: nat)
    | Retry(attempt: nat, wait: Millis)
    | Rejoined
    | GaveUp
    | EvictionLoop

  datatype Pending = Pending(seqNo: nat, attempt: nat, due: Millis, inFlight: bool, kind: MatchKind)

  datatype Report = Report(at: Millis, hosts: seq<ListedHost>)

  datatype State = State(
    handoffEnabled: bool,
    allowed: bool,
    local: Option<Address>,
    known: seq<Address>,
    ouis: set<Oui>,
    lastReport: Option<Report>,
    bothInCase: bool,
    lastManual: Option<Millis>,
    lastSequence: Option<Millis>,
    lastSuccess: Option<Millis>,
    looped: bool,
    pending: Option<Pending>,
    seqNo: nat)
  {
    /** How often the pending sequence has connected, the call in flight included. */
    function PendingAttempt(): int {
      if pending.None? then 0
      else pending.value.attempt - 1 + if pending.value.inFlight then 1 else 0
    }
  }

  datatype Next = Next(state: State, out: seq<Action>)

  datatype Qualified =
    | Refuse(why: SkipWhy)
    | Accept(host: Address, matched: HostMatch, kind: MatchKind, defer: Millis)

  // ---- construction

  /** `Vec::dedup`: drop an entry equal to the one before it. */
  function Dedup(known: seq<Address>): (d: seq<Address>)
    ensures |d| <= |known|
  {
    if |known| < 2 then known
    else
      var rest := Dedup(known[..|known| - 1]);
      if known[|known| - 1] == known[|known| - 2] then rest else rest + [known[|known| - 1]]
  }

  /** Keep the newest `KNOWN_HOSTS_CAP` entries. */
  function Newest(known: seq<Address>): (n: seq<Address>)
    ensures |n| <= KNOWN_HOSTS_CAP
  {
    if |known| <= KNOWN_HOSTS_CAP then known else known[|known| - KNOWN_HOSTS_CAP..]
  }

  /** Dropping repeats loses no host and leaves none next to itself. */
  lemma {:induction false} DedupKeeps(known: seq<Address>)
    ensures var d := Dedup(known);
      (forall a :: a in d <==> a in known) && (forall i :: 0 < i < |d| ==> d[i - 1] != d[i])
      && (known != [] ==> d != [] && d[|d| - 1] == known[|known| - 1])
  {
    if |known| >= 2 {
      DedupKeeps(known[..|known| - 1]);
      assert known == known[..|known| - 1] + [known[|known| - 1]];
    }
  }

  function NewState(enabled: bool, allowed: bool, known: seq<Address>, ouis: set<Oui>): State {
    State(enabled, allowed, None, Newest(Dedup(known)), ouis, None, false, None, None, None, false, None, 0)
  }

  // ---- evidence

  /** Registered to Apple and not locally administered. */
  predicate IsApple(ouis: set<Oui>, a: Address) {
    (a.b0 / 2) % 2 == 0 && Oui(a.b0, a.b1, a.b2) in ouis
  }

  function MatchHost(s: State, a: Address): Option<HostMatch> {
    if s.local == Some(a) then None
    else if a in s.known then Some(ByRelay)
    else if IsApple(s.ouis, a) then Some(ByOui)
    else None
  }

  predicate Eligible(s: State, h: ListedHost, onlyUp: bool) {
    (onlyUp ==> h.linkUp) && MatchHost(s, h.address).Some?
  }

  /** Entry `i` is eligible and no later one is. */
  predicate IsLastEligible(s: State, hosts: seq<ListedHost>, onlyUp: bool, i: nat) {
    i < |hosts| && Eligible(s, hosts[i], onlyUp) && forall j :: i < j < |hosts| ==> !Eligible(s, hosts[j], onlyUp)
  }

  /** The last listed host in wire order that is an Apple host, optionally with its link up. */
  function Pick(s: State, hosts: seq<ListedHost>, onlyUp: bool): (r: Option<ListedHost>)
    ensures r.Some? ==> exists i: nat :: IsLastEligible(s, hosts, onlyUp, i) && hosts[i] == r.value
    ensures r.Some? ==> r.value in hosts && Eligible(s, r.value, onlyUp)
    ensures r.None? ==> forall h :: h in hosts ==> !Eligible(s, h, onlyUp)
  {
    if hosts == [] then None
    else
      var last := hosts[|hosts| - 1];
      if Eligible(s, last, onlyUp) then
        assert IsLastEligible(s, hosts, onlyUp, |hosts| - 1);
        Some(last)
      else
        assert hosts == hosts[..|hosts| - 1] + [last];
        var r := Pick(s, hosts[..|hosts| - 1], onlyUp);
        assert forall i: nat :: IsLastEligible(s, hosts[..|hosts| - 1], onlyUp, i) ==>
          IsLastEligible(s, hosts, onlyUp, i);
        r
  }

  /** The Apple host a drop is blamed on and the condition that matched. */
  function Blame(s: State, reason: Reason, now: Millis): Qualified {
    var timeout := reason == Timeout;
    match s.lastReport
    case None => Refuse(NoReportWithAppleHost)
    case Some(report) =>
      var anyHost := Pick(s, report.hosts, false);
      var upHost := Pick(s, report.hosts, true);
      if !timeout && anyHost.Some? && Since(now, report.at) <= EVICTION_WINDOW then
        Accept(anyHost.value.address, MatchHost(s, anyHost.value.address).value, Joined, 0)
      else if upHost.Some? then
        Accept(upHost.value.address, MatchHost(s, upHost.value.address).value,
               if timeout then LinkLost else HostConnected, 0)
      else if anyHost.Some? then Refuse(NoAppleHostLinkUp)
      else Refuse(NoReportWithAppleHost)
  }

  /** What is left of the rate-limit window. */
  function Defer(s: State, now: Millis): Millis {
    if s.lastSequence.None? || Since(now, s.lastSequence.value) >= RATE_LIMIT then 0
    else RATE_LIMIT - Since(now, s.lastSequence.value)
  }

  function Qualify(s: State, reason: Reason, facts: Option<LinkFacts>, lidClosed: bool, now: Millis): Qualified {
    if !s.handoffEnabled then Refuse(HandoffDisabled)
    else if !s.allowed then Refuse(RejoinOff)
    else if reason != Remote && reason != Timeout then Refuse(ReasonNotEviction(reason))
    else if s.looped then Refuse(EvictionLooped)
    else if Within(now, s.lastManual, MANUAL_QUIET) then Refuse(RecentManual)
    else
      var blame := Blame(s, reason, now);
      if blame.Refuse? then blame
      else if s.bothInCase then Refuse(BudsInCase)
      else if lidClosed then Refuse(LidClosed)
      else if facts.None? then Refuse(FactsUnreadable)
      else if !facts.value.powered then Refuse(AdapterUnpowered)
      else if !facts.value.paired then Refuse(DeviceNotPaired)
      else if facts.value.blocked then Refuse(DeviceBlocked)
      else blame.(defer := Defer(s, now))
  }

  // ---- the transition

  function Cancel(s: State, why: CancelWhy): Next {
    Next(s.(pending := None), if s.pending.Some? then [Cancelled(why)] else [])
  }

  /** A rejoin that worked, undone again at once: the two hosts take the link from each other. */
  predicate PingPong(s: State, reason: Reason, now: Millis) {
    s.handoffEnabled && s.allowed && (reason == Remote || reason == Timeout) && !s.looped
    && Within(now, s.lastSuccess, LOOP_WINDOW)
  }

  function OnDrop(s: State, reason: Reason, facts: Option<LinkFacts>, lidClosed: bool, now: Millis): Next {
    var c := Cancel(s, DisconnectedAgain);
    if PingPong(c.state, reason, now) then Next(c.state.(looped := true), c.out + [EvictionLoop])
    else
      match Qualify(c.state, reason, facts, lidClosed, now)
      case Refuse(why) => Next(c.state, c.out + [Skipped(why)])
      case Accept(host, matched, kind, defer) =>
        Next(c.state.(seqNo := s.seqNo + 1,
                      lastSequence := Some(now),
                      lastReport := None,
                      pending := Some(Pending(s.seqNo + 1, 1, now + defer + REJOIN_DELAY, false, kind))),
             c.out + [if defer == 0 then Scheduled(host, matched, kind)
                      else Deferred(host, matched, kind, defer + REJOIN_DELAY)])
  }

  function OnTick(s: State, now: Millis): Next {
    if s.pending.None? || s.pending.value.inFlight || now < s.pending.value.due then Next(s, [])
    else if !(s.handoffEnabled && s.allowed) then Cancel(s, SwitchedOff)
    else
      var p := s.pending.value;
      Next(s.(pending := Some(p.(inFlight := true))), [Connect(p.seqNo, p.attempt)])
  }

  function OnFinished(s: State, seqNo: nat, outcome: Outcome, now: Millis): Next {
    if s.pending.None? || s.pending.value.seqNo != seqNo || !s.pending.value.inFlight then Next(s, [])
    else
      var p := s.pending.value;
      match outcome
      case Connected => Next(s.(pending := None, lastSuccess := Some(now)), [Rejoined])
      case Busy =>
        if p.attempt < MAX_ATTEMPTS then
          var wait := BusyRetry(p.attempt);
          Next(s.(pending := Some(p.(attempt := p.attempt + 1, due := now + wait, inFlight := false))),
               [Retry(p.attempt + 1, wait)])
        else Next(s.(pending := None), [GaveUp])
      case Failed => Next(s.(pending := None), [GaveUp])
      case NotReady(why) => Next(s.(pending := None), [Cancelled(Refused(why))])
  }

  function Step(s: State, event: Event, now: Millis): Next {
    match event
    case ConnectedDevices(hosts) => Next(s.(lastReport := Some(Report(now, hosts))), [])
    case Relay(sender) =>
      if s.local == Some(sender) || sender in s.known then Next(s, [])
      else
        var known := Newest(s.known + [sender]);
        Next(s.(known := known), [Persist(known)])
    case Ear(bothInCase) =>
      var t := s.(bothInCase := bothInCase);
      if bothInCase then Cancel(t, BudsAway) else Next(t, [])
    case Disconnected(reason, facts, lidClosed) => OnDrop(s, reason, facts, lidClosed, now)
    case LinkSessionStarted => Next(s.(lastReport := None), [])
    case LinkConnected(up) =>
      if up && s.pending.Some? && !s.pending.value.inFlight then Cancel(s, OtherConnect) else Next(s, [])
    case AdapterGone => Cancel(s, AdapterWentAway)
    case IdentityChanged =>
      Cancel(s.(lastReport := None, bothInCase := false, lastSuccess := None, looped := false), NewIdentity)
    case ManualCommand => Cancel(s.(lastManual := Some(now), looped := false), Manual)
    case SetEnabled(enabled) =>
      var t := s.(handoffEnabled := enabled);
      if enabled then Next(t, []) else Cancel(t, SwitchedOff)
    case Tick => OnTick(s, now)
    case ConnectFinished(seqNo, outcome) => OnFinished(s, seqNo, outcome, now)
    case SetLocal(adapter) => Next(s.(local := Some(adapter)), [])
  }

  // ---- the machine

  class RejoinState {
    var handoffEnabled: bool
    const allowed: bool
    var local: Option<Address>
    var known: seq<Address>
    const ouis: set<Oui>
    var lastReport: Option<Report>
    var bothInCase: bool
    var lastManual: Option<Millis>
    var lastSequence: Option<Millis>
    var lastSuccess: Option<Millis>
    var looped: bool
    var pending: Option<Pending>
    var seqNo: nat

    function View(): State
      reads this
    {
      State(handoffEnabled, allowed, local, known, ouis, lastReport, bothInCase, lastManual,
            lastSequence, lastSuccess, looped, pending, seqNo)
    }

    predicate Valid()
      reads this
    {
      |known| <= KNOWN_HOSTS_CAP
    }

    constructor (enabled: bool, allowed: bool, known: seq<Address>, ouis: set<Oui>)
      ensures Valid() && View() == NewState(enabled, allowed, known, ouis)
    {
      handoffEnabled, this.allowed, local, this.ouis := enabled, allowed, None, ouis;
      this.known := Newest(Dedup(known));
      lastReport, bothInCase, lastManual, lastSequence, lastSuccess := None, false, None, None, None;
      looped, pending, seqNo := false, None, 0;
    }

    method TakePending(why: CancelWhy) returns (out: seq<Action>)
      modifies `pending
      ensures View() == Cancel(old(View()), why).state
      ensures out == Cancel(old(View()), why).out
    {
      if pending.Some? {
        pending := None;
        out := [Cancelled(why)];
      } else {
        out := [];
      }
    }

    /** Takes the transition `Step` in place, arm by arm. */
    method Decide(event: Event, now: Millis) returns (out: seq<Action>)
      requires Valid()
      modifies this
      ensures Valid() && View() == Step(old(View()), event, now).state
      ensures out == Step(old(View()), event, now).out
    {
      hide OnDrop, OnFinished, OnTick, Cancel;
      out := [];
      match event {
        case ConnectedDevices(hosts) =>
          lastReport := Some(Report(now, hosts));
        case Relay(sender) =>
          out := Learn(sender);
        case Ear(both) =>
          bothInCase := both;
          if both {
            out := TakePending(BudsAway);
          }
        case Disconnected(reason, facts, lidClosed) =>
          out := Drop(reason, facts, lidClosed, now);
        case LinkSessionStarted =>
          lastReport := None;
        case LinkConnected(up) =>
          if up && pending.Some? && !pending.value.inFlight {
            out := TakePending(OtherConnect);
          }
        case AdapterGone =>
          out := TakePending(AdapterWentAway);
        case IdentityChanged =>
          lastReport, bothInCase, lastSuccess, looped := None, false, None, false;
          out := TakePending(NewIdentity);
        case ManualCommand =>
          lastManual, looped := Some(now), false;
          out := TakePending(Manual);
        case SetEnabled(enabled) =>
          handoffEnabled := enabled;
          if !enabled {
            out := TakePending(SwitchedOff);
          }
        case Tick =>
          out := Due(now);
        case ConnectFinished(finished, outcome) =>
          out := Finish(finished, outcome, now);
        case SetLocal(adapter) =>
          local := Some(adapter);
      }
    }

    /** Remember a relay sender as an Apple host, forgetting the oldest past the cap. */
    method Learn(sender: Address) returns (out: seq<Action>)
      requires Valid()
      modifies `known
      ensures Valid()
      ensures known == if local == Some(sender) || sender in old(known) then old(known)
                       else Newest(old(known) + [sender])
      ensures out == if local == Some(sender) || sender in old(known) then [] else [Persist(known)]
    {
      if local == Some(sender) || sender in known {
        return [];
      }
      known := known + [sender];
      if |known| > KNOWN_HOSTS_CAP {
        known := known[1..];
      }
      out := [Persist(known)];
    }

    /** Fire a due connect. */
    method Due(now: Millis) returns (out: seq<Action>)
      modifies `pending
      ensures View() == OnTick(old(View()), now).state
      ensures out == OnTick(old(View()), now).out
    {
      if pending.None? || pending.value.inFlight || now < pending.value.due {
        return [];
      }
      if !(handoffEnabled && allowed) {
        out := TakePending(SwitchedOff);
        return;
      }
      pending := Some(pending.value.(inFlight := true));
      out := [Connect(pending.value.seqNo, pending.value.attempt)];
    }

    method Drop(reason: Reason, facts: Option<LinkFacts>, lidClosed: bool, now: Millis) returns (out: seq<Action>)
      requires Valid()
      modifies this
      ensures Valid() && View() == OnDrop(old(View()), reason, facts, lidClosed, now).state
      ensures out == OnDrop(old(View()), reason, facts, lidClosed, now).out
    {
      hide Qualify, PingPong;
      out := TakePending(DisconnectedAgain);
      if PingPong(View(), reason, now) {
        looped := true;
        out := out + [EvictionLoop];
        return;
      }
      match Qualify(View(), reason, facts, lidClosed, now) {
        case Refuse(why) =>
          out := out + [Skipped(why)];
        case Accept(host, matched, kind, defer) =>
          seqNo := seqNo + 1;
          lastSequence, lastReport := Some(now), None;
          var delay := defer + REJOIN_DELAY;
          pending := Some(Pending(seqNo, 1, now + delay, false, kind));
          if defer == 0 {
            out := out + [Scheduled(host, matched, kind)];
          } else {
            out := out + [Deferred(host, matched, kind, delay)];
          }
      }
    }

    method Finish(finished: nat, outcome: Outcome, now: Millis) returns (out: seq<Action>)
      requires Valid()
      modifies this
      ensures Valid() && View() == OnFinished(old(View()), finished, outcome, now).state
      ensures out == OnFinished(old(View()), finished, outcome, now).out
    {
      if pending.None? || pending.value.seqNo != finished || !pending.value.inFlight {
        return [];
      }
      var p := pending.value;
      match outcome {
        case Connected =>
          pending, lastSuccess := None, Some(now);
          out := [Rejoined];
        case Busy =>
          if p.attempt < MAX_ATTEMPTS {
            var wait := BusyRetry(p.attempt);
            pending := Some(p.(attempt := p.attempt + 1, due := now + wait, inFlight := false));
            out := [Retry(p.attempt + 1, wait)];
          } else {
            pending := None;
            out := [GaveUp];
          }
        case Failed =>
          pending := None;
          out := [GaveUp];
        case NotReady(why) =>
          pending := None;
          out := [Cancelled(Refused(why))];
      }
    }
  }
}
