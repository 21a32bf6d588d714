/** Pages the AirPods once per case opening, and a bounded number of times after a drop with no advert. */
module AutoConnect {
  import opened Prelude
  import Rejoin

  const MAX_ATTEMPTS: nat := 4
  const ADVERT_FRESH: Millis := 10_000

  /** Wait before the connect that follows the `attempt`-th failure. */
  function Backoff(attempt: nat): Millis {
    if attempt <= 1 then 5_000 else if attempt == 2 then 15_000 else 45_000
  }

  datatype Config = Config(
    enabled: bool, minRssi: int, settle: Millis, absence: Millis,
    fallbackFirst: Millis, fallbackInterval: Millis, fallbackBudget: Millis)

  datatype Event =
    | Seen(rssi: Option<int>)
    | Tick
    | LocalConnected
    | LocalDisconnected(reason: Rejoin.Reason)
    | ManualCommand
    | ConnectFinished(seqNo: nat, outcome: Rejoin.Outcome)
    /** The session copies whether a rejoin is pending into the public field before each event. */
    | SetRejoinPending(pending: bool)

  datatype Why =
    | RssiBelowMin | AlreadyConnected | RejoinPending | Disabled | StaleAdverts | WentDown
    | LocalDisconnect | Manual | Refused(why: Rejoin.NotReadyWhy)

  datatype Action =
    | EpisodeStarted(rssi: Option<int>, delay: Millis)
    | Skipped(skip: Why)
    | Connect(seqNo: nat, attempt: nat)
    | Retry(attempt: nat, wait: Millis)
    | Connected
    | Cancelled(cancel: Why)
    | GaveUp
    | Disarmed(disarm: Why)
    | Rearmed
    | FallbackPage(away: Millis, next: Millis)
    | FallbackFailed

  datatype Pending = Pending(seqNo: nat, attempt: nat, due: Millis, inFlight: bool, fallback: bool)

  datatype State = State(
    cfg: Config,
    rejoinPending: bool,
    connected: bool,
    disarmed: bool,
    lastSeen: Option<Millis>,
    episode: bool,
    pending: Option<Pending>,
    seqNo: nat,
    fallbackFrom: Option<Millis>,
    fallbackNext: Option<Millis>,
    fallbackStart: bool)
  {
    /** How often the pending sequence has connected, the call in flight included. */
    function PendingAttempt(): int {
      if pending.None? then 0
      else pending.value.attempt - 1 + if pending.value.inFlight then 1 else 0
    }
  }

  datatype Next = Next(state: State, out: seq<Action>)

  function NewState(cfg: Config): State {
    State(cfg, false, false, false, None, false, None, 0, None, None, true)
  }

  function Cancel(s: State, why: Why): Next {
    Next(s.(pending := None), if s.pending.Some? then [Cancelled(why)] else [])
  }

  function EndFallback(s: State): State {
    s.(fallbackFrom := None, fallbackNext := None)
  }

  function Disarm(s: State, why: Why): Next {
    var c := Cancel(s, why);
    Next(c.state.(disarmed := true), c.out + if s.disarmed then [] else [Disarmed(why)])
  }

  predicate Weak(s: State, rssi: Option<int>) {
    rssi.Some? && rssi.value < s.cfg.minRssi
  }

  predicate Absent(s: State, now: Millis) {
    s.lastSeen.None? || Since(now, s.lastSeen.value) >= s.cfg.absence
  }

  function OnSeen(s: State, rssi: Option<int>, now: Millis): Next {
    if !s.cfg.enabled then Next(s, [])
    else if Weak(s, rssi) then Next(s, [Skipped(RssiBelowMin)])
    else
      var t := s.(lastSeen := Some(now));
      if s.pending.Some? || !Absent(s, now) then Next(t, [])
      else
        var u := t.(episode := false, disarmed := false);
        var rearmed := if s.disarmed then [Rearmed] else [];
        if s.connected then Next(u, rearmed + [Skipped(AlreadyConnected)])
        else if s.rejoinPending then Next(u, rearmed + [Skipped(RejoinPending)])
        else
          Next(u.(seqNo := s.seqNo + 1, episode := true,
                  pending := Some(Pending(s.seqNo + 1, 1, now + s.cfg.settle, false, false))),
               rearmed + [EpisodeStarted(rssi, s.cfg.settle)])
  }

  /** A tick with nothing pending: a page is due once its slot in the away period has come, within the budget. */
  function FallbackTick(s: State, now: Millis): Next {
    if !s.cfg.enabled || s.connected || s.disarmed || s.rejoinPending || s.cfg.fallbackBudget == 0
       || s.fallbackFrom.None? then Next(s, [])
    else
      var away := Since(now, s.fallbackFrom.value);
      var due := if s.fallbackNext.Some? then s.fallbackNext.value else s.fallbackFrom.value + s.cfg.fallbackFirst;
      if away > s.cfg.fallbackBudget || now < due then Next(s, [])
      else
        Next(s.(seqNo := s.seqNo + 1,
                fallbackNext := Some(now + s.cfg.fallbackInterval),
                pending := Some(Pending(s.seqNo + 1, 1, now, true, true))),
             [FallbackPage(away, s.cfg.fallbackInterval), Connect(s.seqNo + 1, 1)])
  }

  function OnTick(s: State, now: Millis): Next {
    if s.pending.None? then FallbackTick(s, now)
    else
      var p := s.pending.value;
      if p.inFlight || now < p.due then Next(s, [])
      else if !s.cfg.enabled then Cancel(s, Disabled)
      else if s.connected then Cancel(s, AlreadyConnected)
      else if s.rejoinPending then Cancel(s, RejoinPending)
      else if p.attempt > 1 && (s.lastSeen.None? || Since(now, s.lastSeen.value) > ADVERT_FRESH)
      then Cancel(s, StaleAdverts)
      else Next(s.(pending := Some(p.(inFlight := true))), [Connect(p.seqNo, p.attempt)])
  }

  function OnConnected(s: State, now: Millis): Next {
    Next(EndFallback(s).(connected := true, lastSeen := Some(now), pending := None),
         if s.pending.None? then []
         else if s.pending.value.inFlight then [Connected]
         else [Cancelled(AlreadyConnected)])
  }

  function OnDisconnected(s: State, reason: Rejoin.Reason, now: Millis): Next {
    var c := Cancel(s.(connected := false, lastSeen := Some(now)), WentDown);
    var t := match reason
      case Remote => c.state.(fallbackFrom := Some(now), fallbackNext := None)
      case Timeout => c.state.(fallbackFrom := Some(now), fallbackNext := None)
      case Unknown => c.state
      case _ => EndFallback(c.state);
    if reason == Rejoin.Local then
      var d := Disarm(t, LocalDisconnect);
      Next(d.state, c.out + d.out)
    else Next(t, c.out)
  }

  /** The link is up by other means, or the sequence is outdated: the end of it, and no failure. */
  predicate NotAFailure(outcome: Rejoin.Outcome) {
    outcome.NotReady? && (outcome.why == Rejoin.ConnectedByOtherMeans || outcome.why == Rejoin.Superseded)
  }

  function OnFallbackFinished(s: State, outcome: Rejoin.Outcome): Next {
    var t := s.(pending := None);
    if outcome.Connected? then Next(EndFallback(t).(connected := true), [Connected])
    else if NotAFailure(outcome) then
      Next(if outcome.why == Rejoin.ConnectedByOtherMeans then EndFallback(t) else t, [Cancelled(Refused(outcome.why))])
    else Next(t, [FallbackFailed])
  }

  function OnFinished(s: State, seqNo: nat, outcome: Rejoin.Outcome, now: Millis): Next {
    if s.pending.None? || s.pending.value.seqNo != seqNo || !s.pending.value.inFlight then Next(s, [])
    else
      var p := s.pending.value;
      if p.fallback then OnFallbackFinished(s, outcome)
      else if outcome.Connected? then Next(s.(pending := None, connected := true), [Connected])
      else if NotAFailure(outcome) then Next(s.(pending := None), [Cancelled(Refused(outcome.why))])
      else if p.attempt < MAX_ATTEMPTS then
        Next(s.(pending := Some(p.(attempt := p.attempt + 1, due := now + Backoff(p.attempt), inFlight := false))),
             [Retry(p.attempt + 1, Backoff(p.attempt))])
      else Next(s.(pending := None), [GaveUp])
  }

  /** A machine built without a link counts its away period from the first reading of the clock. */
  function Anchor(s: State, now: Millis): State {
    s.(fallbackStart := false,
       fallbackFrom := if s.fallbackStart && !s.connected then Some(now) else s.fallbackFrom)
  }

  function Step(s: State, event: Event, now: Millis): Next {
    if event.SetRejoinPending? then Next(s.(rejoinPending := event.pending), [])
    else
      var t := Anchor(s, now);
      match event
      case Seen(rssi) => OnSeen(t, rssi, now)
      case Tick => OnTick(t, now)
      case LocalConnected => OnConnected(t, now)
      case LocalDisconnected(reason) => OnDisconnected(t, reason, now)
      case ManualCommand => Disarm(t, Manual)
      case ConnectFinished(seqNo, outcome) => OnFinished(t, seqNo, outcome, now)
  }

  class AutoConnectState {
    const cfg: Config
    var rejoinPending: bool
    var connected: bool
    var disarmed: bool
    var lastSeen: Option<Millis>
    var episode: bool
    var pending: Option<Pending>
    var seqNo: nat
    var fallbackFrom: Option<Millis>
    var fallbackNext: Option<Millis>
    var fallbackStart: bool

    function View(): State
      reads this
    {
      State(cfg, rejoinPending, connected, disarmed, lastSeen, episode, pending, seqNo,
            fallbackFrom, fallbackNext, fallbackStart)
    }

    constructor (cfg: Config)
      ensures View() == NewState(cfg)
    {
      this.cfg, rejoinPending, connected, disarmed, lastSeen, episode := cfg, false, false, false, None, false;
      pending, seqNo, fallbackFrom, fallbackNext, fallbackStart := None, 0, None, None, true;
    }

    method TakePending(why: Why) returns (out: seq<Action>)
      modifies `pending
      ensures Next(View(), out) == Cancel(old(View()), why)
    {
      if pending.Some? {
        pending := None;
        out := [Cancelled(why)];
      } else {
        out := [];
      }
    }

    method StopFallback()
      modifies `fallbackFrom, `fallbackNext
      ensures fallbackFrom.None? && fallbackNext.None?
    {
      fallbackFrom, fallbackNext := None, None;
    }

    method TurnOff(why: Why) returns (out: seq<Action>)
      modifies `pending, `disarmed
      ensures Next(View(), out) == Disarm(old(View()), why)
    {
      out := TakePending(why);
      if !disarmed {
        disarmed := true;
        out := out + [Disarmed(why)];
      }
    }

    /** Takes the transition `Step` in place, arm by arm. */
    method Decide(event: Event, now: Millis) returns (out: seq<Action>)
      modifies this
      ensures Next(View(), out) == Step(old(View()), event, now)
    {
      if event.SetRejoinPending? {
        rejoinPending := event.pending;
        return [];
      }
      if fallbackStart && !connected {
        fallbackFrom := Some(now);
      }
      fallbackStart := false;
      hide OnSeen, OnTick, OnConnected, OnDisconnected, OnFinished, Disarm;
      match event {
        case Seen(rssi) =>
          out := Sighted(rssi, now);
        case Tick =>
          out := Ticked(now);
        case LocalConnected =>
          out := WentUp(now);
        case LocalDisconnected(reason) =>
          out := WentAway(reason, now);
        case ManualCommand =>
          out := TurnOff(Manual);
        case ConnectFinished(finished, outcome) =>
          out := Finish(finished, outcome, now);
      }
    }

    method Sighted(rssi: Option<int>, now: Millis) returns (out: seq<Action>)
      modifies this
      ensures Next(View(), out) == OnSeen(old(View()), rssi, now)
    {
      if !cfg.enabled {
        return [];
      }
      if rssi.Some? && rssi.value < cfg.minRssi {
        return [Skipped(RssiBelowMin)];
      }
      var absent := lastSeen.None? || Since(now, lastSeen.value) >= cfg.absence;
      lastSeen := Some(now);
      if pending.Some? || !absent {
        return [];
      }
      out := [];
      episode := false;
      if disarmed {
        disarmed := false;
        out := out + [Rearmed];
      }
      if connected {
        return out + [Skipped(AlreadyConnected)];
      }
      if rejoinPending {
        return out + [Skipped(RejoinPending)];
      }
      seqNo := seqNo + 1;
      episode := true;
      pending := Some(Pending(seqNo, 1, now + cfg.settle, false, false));
      out := out + [EpisodeStarted(rssi, cfg.settle)];
    }

    method Ticked(now: Millis) returns (out: seq<Action>)
      modifies this
      ensures Next(View(), out) == OnTick(old(View()), now)
    {
      if pending.None? {
        out := Page(now);
        return;
      }
      var p := pending.value;
      if p.inFlight || now < p.due {
        return [];
      }
      if !cfg.enabled {
        out := TakePending(Disabled);
        return;
      }
      if connected {
        out := TakePending(AlreadyConnected);
        return;
      }
      if rejoinPending {
        out := TakePending(RejoinPending);
        return;
      }
      if p.attempt > 1 && (lastSeen.None? || Since(now, lastSeen.value) > ADVERT_FRESH) {
        out := TakePending(StaleAdverts);
        return;
      }
      pending := Some(p.(inFlight := true));
      out := [Connect(p.seqNo, p.attempt)];
    }

    method Page(now: Millis) returns (out: seq<Action>)
      modifies this
      ensures Next(View(), out) == FallbackTick(old(View()), now)
    {
      if !cfg.enabled || connected || disarmed || rejoinPending || cfg.fallbackBudget == 0 {
        return [];
      }
      if fallbackFrom.None? {
        return [];
      }
      var away := Since(now, fallbackFrom.value);
      if away > cfg.fallbackBudget {
        return [];
      }
      var due := if fallbackNext.Some? then fallbackNext.value else fallbackFrom.value + cfg.fallbackFirst;
      if now < due {
        return [];
      }
      seqNo := seqNo + 1;
      fallbackNext := Some(now + cfg.fallbackInterval);
      pending := Some(Pending(seqNo, 1, now, true, true));
      out := [FallbackPage(away, cfg.fallbackInterval), Connect(seqNo, 1)];
    }

    method WentUp(now: Millis) returns (out: seq<Action>)
      modifies this
      ensures Next(View(), out) == OnConnected(old(View()), now)
    {
      connected := true;
      lastSeen := Some(now);
      StopFallback();
      var taken := pending;
      pending := None;
      if taken.None? {
        out := [];
      } else if taken.value.inFlight {
        out := [Connected];
      } else {
        out := [Cancelled(AlreadyConnected)];
      }
    }

    method WentAway(reason: Rejoin.Reason, now: Millis) returns (out: seq<Action>)
      modifies this
      ensures Next(View(), out) == OnDisconnected(old(View()), reason, now)
    {
      connected := false;
      lastSeen := Some(now);
      out := TakePending(WentDown);
      if reason == Rejoin.Remote || reason == Rejoin.Timeout {
        fallbackFrom := Some(now);
        fallbackNext := None;
      } else if reason != Rejoin.Unknown {
        StopFallback();
      }
      if reason == Rejoin.Local {
        var off := TurnOff(LocalDisconnect);
        out := out + off;
      }
    }

    method Finish(finished: nat, outcome: Rejoin.Outcome, now: Millis) returns (out: seq<Action>)
      modifies this
      ensures Next(View(), out) == OnFinished(old(View()), finished, outcome, now)
    {
      if pending.None? || pending.value.seqNo != finished || !pending.value.inFlight {
        return [];
      }
      var p := pending.value;
      if p.fallback {
        out := FinishPage(outcome);
        return;
      }
      if outcome.Connected? {
        pending, connected := None, true;
        out := [Connected];
      } else if NotAFailure(outcome) {
        pending := None;
        out := [Cancelled(Refused(outcome.why))];
      } else if p.attempt < MAX_ATTEMPTS {
        var wait := Backoff(p.attempt);
        pending := Some(p.(attempt := p.attempt + 1, due := now + wait, inFlight := false));
        out := [Retry(p.attempt + 1, wait)];
      } else {
        pending := None;
        out := [GaveUp];
      }
    }

    method FinishPage(outcome: Rejoin.Outcome) returns (out: seq<Action>)
      modifies this
      ensures Next(View(), out) == OnFallbackFinished(old(View()), outcome)
    {
      pending := None;
      if outcome.Connected? {
        connected := true;
        StopFallback();
        out := [Connected];
      } else if NotAFailure(outcome) {
        if outcome.why == Rejoin.ConnectedByOtherMeans {
          StopFallback();
        }
        out := [Cancelled(Refused(outcome.why))];
      } else {
        out := [FallbackFailed];
      }
    }
  }
}
