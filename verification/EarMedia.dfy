/** In-ear detection pauses local players, and may only ever undo its own pause. */
module EarMedia {
  import opened Prelude

  const SETTLE: Millis := 700
  const RESUME_WINDOW: Millis := 300_000

  datatype EarState = In | Out | Case | Unknown

  datatype Config = Config(autoPause: bool, autoResume: bool, pauseOnOneOfTwo: bool)

  datatype Event =
    | Ear(left: EarState, right: EarState)
    | Playback(playing: bool, player: Option<string>)
    | LinkClosed
    | Tick

  datatype Action =
    | PauseLocalPlayers
    | ResumePlayer(player: Option<string>)

  /** A pause this machine performed, waiting to be undone. */
  datatype Paused = Paused(at: Millis, count: nat, player: Option<string>, confirming: bool)

  /** A count that differs from the settled one, and when it first arrived. */
  datatype Candidate = Candidate(count: nat, since: Millis)

  datatype State = State(
    cfg: Config,
    settled: Option<nat>,
    pending: Option<Candidate>,
    playing: Option<bool>,
    player: Option<string>,
    paused: Option<Paused>)

  datatype Next = Next(state: State, out: seq<Action>)

  function NewState(cfg: Config): State {
    State(cfg, None, None, None, None, None)
  }

  /** How many buds are worn, unless neither side could be read. */
  function InEar(left: EarState, right: EarState): Option<nat> {
    if left == Unknown && right == Unknown then None
    else Some((if left == In then 1 else 0) + (if right == In then 1 else 0))
  }

  /** The settled count went down. */
  function OnRemoved(s: State, previous: nat, count: nat, audio: bool, now: Millis): Next {
    if !s.cfg.autoPause || (!s.cfg.pauseOnOneOfTwo && count > 0) || s.playing != Some(true) || !audio then Next(s, [])
    else Next(s.(paused := Some(Paused(now, previous, s.player, true))), [PauseLocalPlayers])
  }

  /** The settled count went up, and only then may a player be resumed. */
  function OnReturned(s: State, count: nat, audio: bool, now: Millis): Next {
    if s.paused.None? || count < s.paused.value.count then Next(s, [])
    else
      var p := s.paused.value;
      Next(s.(paused := None),
           if !s.cfg.autoResume || !audio || Since(now, p.at) >= RESUME_WINDOW || s.playing == Some(true) then []
           else [ResumePlayer(p.player)])
  }

  function Expire(s: State, now: Millis): State {
    if s.paused.Some? && Since(now, s.paused.value.at) >= RESUME_WINDOW then s.(paused := None) else s
  }

  function OnTick(s: State, audio: bool, now: Millis): Next {
    var t := Expire(s, now);
    if t.pending.None? || Since(now, t.pending.value.since) < SETTLE then Next(t, [])
    else
      var count := t.pending.value.count;
      var u := t.(pending := None, settled := Some(count));
      if t.settled.None? then Next(u, [])
      else if count < t.settled.value then OnRemoved(u, t.settled.value, count, audio, now)
      else OnReturned(u, count, audio, now)
  }

  function OnEar(s: State, left: EarState, right: EarState, audio: bool, now: Millis): Next {
    match InEar(left, right)
    case None => Next(s, [])
    case Some(count) =>
      if s.settled == Some(count) then Next(s.(pending := None), [])
      else
        OnTick(if s.pending.Some? && s.pending.value.count == count then s
               else s.(pending := Some(Candidate(count, now))), audio, now)
  }

  /** Playback changed: unless it is the machine's own stop, its pause is given up. */
  function OnPlayback(s: State, playing: bool, player: Option<string>): State {
    var t := s.(player := if player.Some? then player else s.player, playing := Some(playing));
    if s.playing == Some(playing) || s.paused.None? then t
    else if !playing && s.paused.value.confirming then t.(paused := Some(s.paused.value.(confirming := false)))
    else t.(paused := None)
  }

  function Step(s: State, event: Event, audio: bool, now: Millis): Next {
    match event
    case Ear(left, right) => OnEar(s, left, right, audio, now)
    case Playback(playing, player) => Next(OnPlayback(s, playing, player), [])
    case LinkClosed => Next(s.(settled := None, pending := None, playing := None), [])
    case Tick => OnTick(s, audio, now)
  }

  class EarMediaState {
    const cfg: Config
    var settled: Option<nat>
    var pending: Option<Candidate>
    var playing: Option<bool>
    var player: Option<string>
    var paused: Option<Paused>

    function View(): State
      reads this
    {
      State(cfg, settled, pending, playing, player, paused)
    }

    constructor (cfg: Config)
      ensures View() == NewState(cfg)
    {
      this.cfg, settled, pending, playing, player, paused := cfg, None, None, None, None, None;
    }

    method Removed(previous: nat, count: nat, audio: bool, now: Millis) returns (out: seq<Action>)
      modifies this
      ensures Next(View(), out) == OnRemoved(old(View()), previous, count, audio, now)
    {
      if !cfg.autoPause {
        return [];
      }
      if !cfg.pauseOnOneOfTwo && count > 0 {
        return [];
      }
      if playing != Some(true) || !audio {
        return [];
      }
      paused := Some(Paused(now, previous, player, true));
      out := [PauseLocalPlayers];
    }

    method Returned(count: nat, audio: bool, now: Millis) returns (out: seq<Action>)
      modifies this
      ensures Next(View(), out) == OnReturned(old(View()), count, audio, now)
    {
      if paused.None? {
        return [];
      }
      var taken := paused.value;
      paused := None;
      if count < taken.count {
        paused := Some(taken);
        return [];
      }
      if !cfg.autoResume || !audio || Since(now, taken.at) >= RESUME_WINDOW || playing == Some(true) {
        return [];
      }
      out := [ResumePlayer(taken.player)];
    }

    /** A pause grows too old to undo, then a candidate has stood long enough. */
    method Ticked(audio: bool, now: Millis) returns (out: seq<Action>)
      modifies this
      ensures Next(View(), out) == OnTick(old(View()), audio, now)
    {
      if paused.Some? && Since(now, paused.value.at) >= RESUME_WINDOW {
        paused := None;
      }
      if pending.None? || Since(now, pending.value.since) < SETTLE {
        return [];
      }
      var count := pending.value.count;
      pending := None;
      var previous := settled;
      settled := Some(count);
      if previous.None? {
        return [];
      }
      if count < previous.value {
        out := Removed(previous.value, count, audio, now);
      } else {
        out := Returned(count, audio, now);
      }
    }

    method Heard(nowPlaying: bool, name: Option<string>)
      modifies this
      ensures View() == OnPlayback(old(View()), nowPlaying, name)
    {
      if name.Some? {
        player := name;
      }
      var previous := playing;
      playing := Some(nowPlaying);
      if previous == Some(nowPlaying) || paused.None? {
        return;
      }
      if nowPlaying {
        paused := None;
      } else if paused.value.confirming {
        paused := Some(paused.value.(confirming := false));
      } else {
        paused := None;
      }
    }

    /** Takes the transition `Step` in place, arm by arm. */
    method Decide(event: Event, audio: bool, now: Millis) returns (out: seq<Action>)
      modifies this
      ensures Next(View(), out) == Step(old(View()), event, audio, now)
    {
      out := [];
      match event {
        case Ear(left, right) =>
          var count := InEar(left, right);
          if count.None? {
            return;
          }
          if settled == count {
            pending := None;
            return;
          }
          if pending.None? || pending.value.count != count.value {
            pending := Some(Candidate(count.value, now));
          }
          out := Ticked(audio, now);
        case Playback(nowPlaying, name) =>
          Heard(nowPlaying, name);
        case LinkClosed =>
          settled, pending, playing := None, None, None;
        case Tick =>
          out := Ticked(audio, now);
      }
    }
  }
}
