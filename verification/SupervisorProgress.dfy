/**
 What the supervisor gets done when the world answers: an armed dial becomes a link, a command reopens it, and a written
 setting is read back and judged by what the reopened link reports.
 */
module SupervisorProgress {
  import opened Prelude
  import opened Supervisor
  import opened SupervisorRuns
  import Settings
  import Rejoin
  import AutoConnect
  import Handoff
  import EarMedia
  import Store
  import StoreRuns

  /** What happens next, one input after the other. */
  datatype Stimulus = At(input: Input, clock: Clock)

  function After(s: State, story: seq<Stimulus>): State
    decreases |story|
  {
    if story == [] then s else After(Step(s, story[0].input, story[0].clock), story[1..])
  }

  lemma OneMore(r: Run, x: Stimulus) returns (p: Run)
    requires r.Valid() && r.Now(|r.es|) <= x.clock.now
    ensures p.Valid() && p.init == r.init && |p.es| == |r.es| + 1 && p.es[..|r.es|] == r.es
    ensures p.es[|r.es|] == Entry(x.input, x.clock, Step(r.At(|r.es|), x.input, x.clock))
  {
    hide Step, Initial;
    var n := |r.es|;
    p := Run(r.init, r.es + [Entry(x.input, x.clock, Step(r.At(n), x.input, x.clock))]);
    forall k | 0 <= k < |p.es| ensures p.Linked(k) {
      assert p.At(k) == r.At(k);
      assert k < n ==> r.Linked(k);
    }
  }

  /** Any run can go on with any story that starts no earlier. */
  lemma {:induction false} RunGoesOn(r: Run, story: seq<Stimulus>) returns (c: Run)
    requires r.Valid()
    requires forall i :: 0 <= i < |story| ==> r.Now(|r.es|) <= story[i].clock.now
    requires forall i, j :: 0 <= i <= j < |story| ==> story[i].clock.now <= story[j].clock.now
    ensures c.Valid() && c.init == r.init && |c.es| == |r.es| + |story| && c.es[..|r.es|] == r.es
    ensures forall i :: 0 <= i < |story| ==>
      c.es[|r.es| + i].input == story[i].input && c.es[|r.es| + i].clock == story[i].clock
    ensures c.At(|c.es|) == After(r.At(|r.es|), story)
    decreases |story|
  {
    hide Step, Initial;
    if story == [] {
      c := r;
    } else {
      var n := |r.es|;
      var first := story[0];
      var p := OneMore(r, first);
      c := RunGoesOn(p, story[1..]);
      assert c.es[..n] == c.es[..n + 1][..n];
      forall i | 0 <= i < |story|
        ensures c.es[n + i].input == story[i].input && c.es[n + i].clock == story[i].clock
      {
        if i == 0 {
          assert c.es[n] == c.es[..n + 1][n] == p.es[n];
        } else {
          assert story[1..][i - 1] == story[i];
          assert c.es[|p.es| + (i - 1)].input == story[1..][i - 1].input;
        }
      }
    }
  }

  lemma {:induction false} AfterBoth(s: State, a: seq<Stimulus>, b: seq<Stimulus>)
    ensures After(s, a + b) == After(After(s, a), b)
    decreases |a|
  {
    hide Step;
    if a == [] {
      assert a + b == b;
    } else {
      assert (a + b)[1..] == a[1..] + b;
      AfterBoth(Step(s, a[0].input, a[0].clock), a[1..], b);
    }
  }

  // ---- what the machines leave alone

  /** Requests, verdicts, reports and the device are the same; the announced sequence may differ. */
  predicate SameStore(s: Store.State, t: Store.State) {
    t == s.(activity := t.activity, link := t.link)
  }

  predicate SameSockets(s: State, t: State) {
    t.host == s.host && t.radio == s.radio && t.timers == s.timers && t.phase == s.phase && SameStore(s.store, t.store)
    && t.desk.route == s.desk.route && t.desk.playback == s.desk.playback
  }

  lemma AnnounceKeeps(s: Store.State, activity: Option<Store.LinkActivity>)
    ensures SameStore(s, Store.Step(s, Store.SetActivity(activity)))
  {
    hide Store.FinishVerification, Store.AbandonVerification, Store.JudgeName, Store.OnIdentity, Store.OnLinkLost;
    hide Store.Request, Settings.ApplySetting, Store.Bump, Settings.ValueOf, Settings.KeyOf;
  }

  lemma PublishKeeps(s: State, c: Clock)
    ensures SameSockets(s, PublishLink(s, c)) && PublishLink(s, c).desk == s.desk
  {
    hide NextSequence, Shown, Store.Step;
    AnnounceKeeps(s.store, Shown(s.rejoin, s.auto, NextSequence(s, c)));
  }

  lemma RejoinKeeps(s: State, event: Rejoin.Event, c: Clock)
    ensures SameSockets(s, RejoinEvent(s, event, c)) && RejoinEvent(s, event, c).desk == s.desk
  {
    hide Rejoin.Step, RejoinActs, PublishLink;
    PublishKeeps(RejoinFold(s, event, c), c);
  }

  lemma AutoKeeps(s: State, event: AutoConnect.Event, c: Clock)
    ensures SameSockets(s, AutoEvent(s, event, c)) && AutoEvent(s, event, c).desk == s.desk
  {
    hide AutoConnect.Step, AutoActs, PublishLink;
    PublishKeeps(AutoFold(AutoFold(s, AutoConnect.SetRejoinPending(s.rejoin.pending.Some?), c), event, c), c);
  }

  lemma HandoffKeeps(s: State, event: Handoff.Event, c: Clock)
    ensures SameSockets(s, HandoffEvent(s, event, c)) && HandoffEvent(s, event, c).store == s.store
  {
    hide Handoff.Step, Queued;
  }

  lemma EarKeeps(s: State, event: EarMedia.Event, c: Clock)
    ensures SameSockets(s, EarEvent(s, event, c)) && EarEvent(s, event, c).store == s.store
    ensures EarEvent(s, event, c).desk.queue == s.desk.queue
  {
    hide EarMedia.Step, AudioOnAirPods;
  }

  lemma KeepsOn(s: State, t: State, u: State)
    requires SameSockets(s, t) && SameSockets(t, u)
    ensures SameSockets(s, u)
  {}

  // ---- one tick

  /** Up to its timers a tick leaves sockets, timers and store alone. */
  lemma TickReaches(s: State, c: Clock) returns (u: State)
    ensures OnTick(s, c) == TickVerification(u, c) && SameSockets(s, u)
  {
    hide HandoffEvent, EarEvent, RejoinEvent, AutoEvent, TickVerification, SameSockets;
    var a := HandoffEvent(s, Handoff.Tick, c);
    var b := EarEvent(a, EarMedia.Tick, c);
    var d := RejoinEvent(b, Rejoin.Tick, c);
    u := AutoEvent(d, AutoConnect.Tick, c);
    HandoffKeeps(s, Handoff.Tick, c);
    EarKeeps(a, EarMedia.Tick, c);
    RejoinKeeps(b, Rejoin.Tick, c);
    AutoKeeps(d, AutoConnect.Tick, c);
    KeepsOn(s, a, b);
    KeepsOn(s, b, d);
    KeepsOn(s, d, u);
  }

  /** Nothing but the phase, the queue and the machines behind it. */
  predicate SameRadio(s: State, t: State) {
    t.host == s.host && t.radio == s.radio
  }

  /** A tick begins a dial exactly when the link is up without a socket and the dial is due; a readback goes first. */
  lemma TickDials(s: State, c: Clock)
    requires s.phase.Loop? && !Due(s.timers.verifyAt, c.now)
    ensures var t := Step(s, Tick, c);
      SameRadio(s, t)
      && (t.phase.DialDrain? <==> s.radio.acl && !s.radio.sock && Due(s.radio.dialAt, c.now))
      && (s.timers.readbackAt.None? && s.timers.verifyBudget.None? ==>
            SameStore(s.store, t.store) && t.timers == s.timers)
  {
    var u := TickReaches(s, c);
    FinishReaches(u, c);
    hide OnTick, HandoffEvent, FinishReadback, Store.Step;
  }

  lemma FinishReaches(s: State, c: Clock)
    ensures var t := FinishReadback(s, c);
      SameRadio(s, t) && t.phase == s.phase && t.timers == s.timers.(readbackAt := None, verifyBudget := None)
      && t.store == Store.Step(s.store, Store.VerifyCompleted)
  {
    hide HandoffEvent, Store.Step;
    HandoffKeeps(Apply(s.(timers := s.timers.(readbackAt := None, verifyBudget := None)), Store.VerifyCompleted),
                 Handoff.OpeningSettled, c);
  }

  // ---- a dial

  /** The seven answers of an undisturbed dial; the second acknowledgement may stay out. */
  function DialStory(cs: seq<Clock>, late: bool): seq<Stimulus>
    requires |cs| == 7
  {
    [At(Proceed(false), cs[0]), At(Fresh(Yes), cs[1]), At(Proceed(false), cs[2]), At(SocketOpened(true), cs[3]),
     At(AckArrived(Got), cs[4]), At(AckArrived(if late then TimedOut else Got), cs[5]), At(Subscribed(true), cs[6])]
  }

  /** The link is up without a socket, the device is known, and a dial may begin. */
  predicate MayDial(s: State) {
    s.radio.acl && !s.radio.sock && s.radio.dialKind.Some? && Known(s.host)
  }

  /** A socket is open: the link is published and its reports are being waited for. */
  predicate Opened(s: State, t: State, now: Millis) {
    t.radio.sock && t.radio.acl && t.host == s.host && t.timers == s.timers.(readbackAt := Some(now + READBACK_WINDOW))
    && t.store == Store.Step(s.store, Store.AapLink(true))
    && t.radio.dialAt.None? && t.radio.dialKind.None?
    && (if t.desk.queue == [] && t.phase.Loop? then true else t.phase.Flushing? && t.desk.queue == [])
  }

  /** Half of the dial: permission, the fresh read, the last look at the queue. */
  lemma DialDeparts(s: State, a: Clock, b: Clock, c: Clock)
    requires s.phase.DialDrain? && MayDial(s)
    ensures var t := Step(Step(Step(s, Proceed(false), a), Fresh(Yes), b), Proceed(false), c);
      t == s.(radio := s.radio.(dialKind := None, dialAt := None),
              phase := OpeningLink(s.radio.dialKind.value, s.radio.generation, Connecting))
  {
    var t := Step(s, Proceed(false), a);
    assert t == s.(radio := s.radio.(dialKind := None, dialAt := None),
                   phase := Authorizing(s.radio.dialKind.value, s.radio.generation));
    var u := Step(t, Fresh(Yes), b);
    assert u == t.(phase := OpeningLink(s.radio.dialKind.value, s.radio.generation, Authorized));
  }

  lemma SocketGreets(s: State, c: Clock)
    requires s.phase.OpeningLink? && s.phase.opening == Connecting && Alive(s, s.phase.generation)
    ensures var t := Step(s, SocketOpened(true), c);
      t.host == s.host && t.radio == s.radio && t.timers == s.timers && t.store == s.store
      && t.phase == s.phase.(opening := AwaitHandshake)
  {
    hide HandoffEvent;
    var u := s.(phase := s.phase.(opening := AwaitHandshake));
    HandoffKeeps(u, Handoff.LinkOpened, c);
    if s.desk.playback.Some? {
      var p := s.desk.playback.value;
      HandoffKeeps(HandoffEvent(u, Handoff.LinkOpened, c), Handoff.Playback(p.playing, p.app, p.player), c);
    }
  }

  lemma AcksAdvance(s: State, late: bool, a: Clock, b: Clock)
    requires s.phase.OpeningLink? && s.phase.opening == AwaitHandshake && Alive(s, s.phase.generation)
    ensures Step(Step(s, AckArrived(Got), a), AckArrived(if late then TimedOut else Got), b)
         == s.(phase := s.phase.(opening := Subscribing))
  {
    var t := Step(s, AckArrived(Got), a);
    assert t == s.(phase := s.phase.(opening := AwaitFeatures));
  }

  lemma SubscribedOpens(s: State, c: Clock)
    requires s.phase.OpeningLink? && s.phase.opening == Subscribing && Alive(s, s.phase.generation)
    requires s.radio.dialAt.None? && s.radio.dialKind.None?
    ensures Opened(s, Step(s, Subscribed(true), c), c.now)
  {
    hide Store.Step;
  }

  lemma {:induction false} Seven(s: State, w: seq<Stimulus>)
    requires |w| == 7
    ensures After(s, w)
         == Step(Step(Step(Step(Step(Step(Step(s, w[0].input, w[0].clock), w[1].input, w[1].clock),
                                     w[2].input, w[2].clock), w[3].input, w[3].clock),
                           w[4].input, w[4].clock), w[5].input, w[5].clock), w[6].input, w[6].clock)
  {
    hide Step;
    assert w[1..][1..] == w[2..] && w[2..][1..] == w[3..] && w[3..][1..] == w[4..];
    assert w[4..][1..] == w[5..] && w[5..][1..] == w[6..] && w[6..][1..] == [];
    var a := Step(s, w[0].input, w[0].clock);
    var b := Step(a, w[1].input, w[1].clock);
    var c := Step(b, w[2].input, w[2].clock);
    var d := Step(c, w[3].input, w[3].clock);
    var e := Step(d, w[4].input, w[4].clock);
    var f := Step(e, w[5].input, w[5].clock);
    assert After(s, w) == After(a, w[1..]) == After(b, w[2..]) == After(c, w[3..]);
    assert After(c, w[3..]) == After(d, w[4..]) == After(e, w[5..]) == After(f, w[6..]);
    assert After(f, w[6..]) == After(Step(f, w[6].input, w[6].clock), []);
  }

  /** A dial that is answered at every stage becomes the link, late feature acknowledgement or not. */
  lemma AnsweredDialOpens(s: State, cs: seq<Clock>, late: bool)
    requires |cs| == 7 && s.phase.DialDrain? && MayDial(s)
    ensures Opened(s, After(s, DialStory(cs, late)), cs[6].now)
  {
    hide Step, Opened;
    Seven(s, DialStory(cs, late));
    DialDeparts(s, cs[0], cs[1], cs[2]);
    var t := Step(Step(Step(s, Proceed(false), cs[0]), Fresh(Yes), cs[1]), Proceed(false), cs[2]);
    SocketGreets(t, cs[3]);
    var u := Step(t, SocketOpened(true), cs[3]);
    AcksAdvance(u, late, cs[4], cs[5]);
    var v := u.(phase := u.phase.(opening := Subscribing));
    SubscribedOpens(v, cs[6]);
    SameOpened(s, v, Step(v, Subscribed(true), cs[6]), cs[6].now);
  }

  lemma SameOpened(s: State, v: State, t: State, now: Millis)
    requires Opened(v, t, now) && v.host == s.host && v.timers == s.timers && v.store == s.store
    ensures Opened(s, t, now)
  {
    hide Store.Step;
  }

  // ---- what waits is done first

  /** What is queued goes out, one after the other. */
  function FlushStory(s: State, c: Clock): seq<Stimulus> {
    if !s.phase.Flushing? then []
    else seq(if s.phase.rest == [] then 1 else |s.phase.rest|, _ => At(Flush(true), c))
  }

  predicate Idle(s: State, t: State) {
    t.phase.Loop? && t.host == s.host && t.radio == s.radio && t.timers == s.timers && t.store == s.store
    && t.desk.queue == s.desk.queue
  }

  lemma FlushMoves(s: State, c: Clock)
    requires s.phase.Flushing?
    ensures var t := Step(s, Flush(true), c);
      t.host == s.host && t.radio == s.radio && t.timers == s.timers && t.store == s.store
      && t.desk.queue == s.desk.queue
      && t.phase == if |s.phase.rest| <= 1 then Loop else Flushing(s.phase.rest[1..])
  {
    hide Store.Step;
  }

  lemma {:induction false} FlushingEnds(s: State, c: Clock)
    requires s.phase.Loop? || s.phase.Flushing?
    ensures Idle(s, After(s, FlushStory(s, c)))
    decreases if s.phase.Flushing? then |s.phase.rest| else 0
  {
    hide Step;
    if s.phase.Flushing? {
      FlushMoves(s, c);
      var t := Step(s, Flush(true), c);
      assert FlushStory(s, c)[1..] == FlushStory(t, c);
      if t.phase.Flushing? {
        FlushingEnds(t, c);
      }
    }
  }

  lemma One(s: State, e: Stimulus)
    ensures After(s, [e]) == Step(s, e.input, e.clock)
  {
    hide Step;
    assert [e][1..] == [];
  }

  // ---- from the link to the socket

  /** A due tick, and the dial it begins. */
  function TickAndDial(tick: Clock, cs: seq<Clock>, late: bool): seq<Stimulus>
    requires |cs| == 7
  {
    [At(Tick, tick)] + DialStory(cs, late)
  }

  /** The socket is open and published. */
  predicate LinkIsUp(t: State, now: Millis) {
    t.radio.acl && t.radio.sock && t.store.device.aapLink && t.timers.readbackAt == Some(now + READBACK_WINDOW)
  }

  lemma OpenedIsUp(s: State, t: State, now: Millis)
    requires Opened(s, t, now)
    ensures LinkIsUp(t, now)
  {
    hide Store.ResolveLink, Store.BumpsEpoch;
  }

  lemma ArmedLinkOpens(s: State, tick: Clock, cs: seq<Clock>, late: bool)
    requires |cs| == 7 && s.phase.Loop? && MayDial(s)
    requires Due(s.radio.dialAt, tick.now) && !Due(s.timers.verifyAt, tick.now)
    ensures LinkIsUp(After(s, TickAndDial(tick, cs, late)), cs[6].now)
  {
    hide Step, Opened, DialStory, LinkIsUp;
    var t := Step(s, Tick, tick);
    TickDials(s, tick);
    AnsweredDialOpens(t, cs, late);
    OpenedIsUp(t, After(t, DialStory(cs, late)), cs[6].now);
    One(s, At(Tick, tick));
    AfterBoth(s, [At(Tick, tick)], DialStory(cs, late));
  }

  lemma LinkComesUp(s: State, c: Clock)
    requires s.phase.Loop? && !s.radio.acl
    ensures var t := Step(s, Link(Connected(true)), c);
      t.radio == s.radio.(acl := true, generation := s.radio.generation + 1, suppressed := false,
                          dialKind := Some(Automatic), dialAt := Some(c.now + SETTLE))
      && t.host == s.host && t.timers == s.timers && (t.phase.Loop? || t.phase.Flushing?)
  {
    hide HandoffEvent, RejoinEvent, AutoEvent, Store.Step;
    var a := RejoinEvent(s, Rejoin.LinkConnected(true), c);
    var b := AutoEvent(a, AutoConnect.LocalConnected, c);
    var d := HandoffEvent(b, Handoff.AudioLinkChanged, c);
    RejoinKeeps(s, Rejoin.LinkConnected(true), c);
    AutoKeeps(a, AutoConnect.LocalConnected, c);
    HandoffKeeps(b, Handoff.AudioLinkChanged, c);
    var u := Apply(d, Store.AclConnected(true));
    var v := u.(radio := u.radio.(acl := true, generation := u.radio.generation + 1, suppressed := false),
                panel := u.panel.(buds := []));
    RejoinKeeps(v, Rejoin.LinkSessionStarted, c);
  }

  /**
   The link is seen to come up, what that asks for is done, a tick comes once it has settled, the dial is answered.
   */
  function ComesUpStory(s: State, up: Clock, flush: Clock, tick: Clock, cs: seq<Clock>, late: bool): seq<Stimulus>
    requires |cs| == 7
  {
    [At(Link(Connected(true)), up)] + FlushStory(Step(s, Link(Connected(true)), up), flush)
    + TickAndDial(tick, cs, late)
  }

  /**
   A link of a known device that is seen to come up is opened by itself: after 0.8 s the next tick dials, and the
   socket is published once every stage is answered.
   */
  lemma SeenLinkOpens(s: State, up: Clock, flush: Clock, tick: Clock, cs: seq<Clock>, late: bool)
    requires |cs| == 7 && s.phase.Loop? && !s.radio.acl && !s.radio.sock && Known(s.host)
    requires tick.now >= up.now + SETTLE && !Due(s.timers.verifyAt, tick.now)
    ensures LinkIsUp(After(s, ComesUpStory(s, up, flush, tick, cs, late)), cs[6].now)
  {
    hide Step, TickAndDial, LinkIsUp, FlushStory;
    var t := Step(s, Link(Connected(true)), up);
    LinkComesUp(s, up);
    FlushingEnds(t, flush);
    var u := After(t, FlushStory(t, flush));
    ArmedLinkOpens(u, tick, cs, late);
    One(s, At(Link(Connected(true)), up));
    AfterBoth(s, [At(Link(Connected(true)), up)], FlushStory(t, flush));
    AfterBoth(s, [At(Link(Connected(true)), up)] + FlushStory(t, flush), TickAndDial(tick, cs, late));
  }

  // ---- a reconnect on command

  lemma DropReaches(s: State, c: Clock)
    ensures var t := DropSocket(s, c);
      t.host == s.host && t.radio == s.radio.(sock := false) && t.timers == s.timers.(readbackAt := None)
      && t.phase == s.phase && t.store == Store.Step(s.store, Store.AapLink(false))
  {
    hide HandoffEvent, EarEvent, Store.Step;
    var u := Unplug(s);
    HandoffKeeps(u, Handoff.LinkClosed, c);
    EarKeeps(HandoffEvent(u, Handoff.LinkClosed, c), EarMedia.LinkClosed, c);
  }

  lemma CommandReopens(s: State, context: Store.Context, deadline: Millis, a: Clock, b: Clock, d: Clock)
    requires s.phase.Loop? && IsCurrent(s, context, deadline, a) && d.now < deadline
    ensures var t := Step(Step(Step(s, Command(Reconnect, context, deadline), a), Fresh(Yes), b), Proceed(false), d);
      t.host == s.host && t.timers == s.timers.(readbackAt := None)
      && t.radio == s.radio.(sock := false, dialKind := Some(Manual), dialAt := Some(d.now))
      && (t.phase.Loop? || t.phase.Flushing?)
  {
    hide RejoinEvent, AutoEvent, DropSocket;
    RejoinKeeps(s, Rejoin.ManualCommand, a);
    AutoKeeps(RejoinEvent(s, Rejoin.ManualCommand, a), AutoConnect.ManualCommand, a);
    var t := Step(s, Command(Reconnect, context, deadline), a);
    var order := Order(context, deadline, false);
    assert t.phase == CommandCheck(order) && Store.ContextOf(t.store) == Store.ContextOf(s.store);
    assert t.host == s.host && t.radio == s.radio && t.timers == s.timers;
    var u := Step(t, Fresh(Yes), b);
    assert u == t.(phase := CommandDrain(order));
    DropReaches(u.(phase := Loop), d);
  }

  /** The command, the fresh read, the last look, what that asks for, and the dial. */
  function ReconnectStory(s: State, context: Store.Context, deadline: Millis, a: Clock, b: Clock, d: Clock,
                          flush: Clock, tick: Clock, cs: seq<Clock>, late: bool): seq<Stimulus>
    requires |cs| == 7
  {
    var t := Step(Step(Step(s, Command(Reconnect, context, deadline), a), Fresh(Yes), b), Proceed(false), d);
    [At(Command(Reconnect, context, deadline), a), At(Fresh(Yes), b), At(Proceed(false), d)] + FlushStory(t, flush)
    + TickAndDial(tick, cs, late)
  }

  lemma Three(s: State, x: Stimulus, y: Stimulus, z: Stimulus)
    ensures After(s, [x, y, z]) == Step(Step(Step(s, x.input, x.clock), y.input, y.clock), z.input, z.clock)
  {
    hide Step;
    assert [x, y, z][1..] == [y, z] && [y, z][1..] == [z];
    One(Step(Step(s, x.input, x.clock), y.input, y.clock), z);
  }

  /** A reconnect asked for in time drops the socket and opens a new one, whatever was due on the old link. */
  lemma ReconnectOpens(s: State, context: Store.Context, deadline: Millis, a: Clock, b: Clock, d: Clock, flush: Clock,
                       tick: Clock, cs: seq<Clock>, late: bool)
    requires |cs| == 7 && s.phase.Loop? && s.radio.acl && Known(s.host)
    requires IsCurrent(s, context, deadline, a) && d.now < deadline
    requires tick.now >= d.now && !Due(s.timers.verifyAt, tick.now)
    ensures LinkIsUp(After(s, ReconnectStory(s, context, deadline, a, b, d, flush, tick, cs, late)), cs[6].now)
  {
    hide Step, TickAndDial, LinkIsUp, FlushStory;
    var x, y, z := At(Command(Reconnect, context, deadline), a), At(Fresh(Yes), b), At(Proceed(false), d);
    var t := Step(Step(Step(s, Command(Reconnect, context, deadline), a), Fresh(Yes), b), Proceed(false), d);
    CommandReopens(s, context, deadline, a, b, d);
    FlushingEnds(t, flush);
    ArmedLinkOpens(After(t, FlushStory(t, flush)), tick, cs, late);
    Three(s, x, y, z);
    AfterBoth(s, [x, y, z], FlushStory(t, flush));
    AfterBoth(s, [x, y, z] + FlushStory(t, flush), TickAndDial(tick, cs, late));
  }

  // ---- a write and its verdict

  lemma WriteGoesOut(s: State, setting: Settings.Setting, context: Store.Context, deadline: Millis, a: Clock, b: Clock)
    requires s.phase.Loop? && s.desk.queue == [] && s.radio.sock && s.store.device.modelId == SUPPORTED_MODEL
    requires Settings.ValidSetting(setting) && IsCurrent(s, context, deadline, a)
    ensures Step(Step(s, Command(Write(setting), context, deadline), a), SendDone(true), b)
         == Apply(s, Store.SettingRequested(setting))
            .(timers := s.timers.(verifyAt := Some(b.now + VERIFY_DEBOUNCE),
                                  verifyBudget := Some(b.now + VERIFY_BUDGET)))
  {
    hide Store.Step, Settings.ValidSetting;
    assert Step(s, Command(Write(setting), context, deadline), a)
        == s.(phase := Sending(Store.SettingRequested(setting)));
  }

  /** The debounce is over: the tick goes over to the readback, and the readback drops the socket and dials. */
  lemma ReadbackDials(s: State, a: Clock, b: Clock, d: Clock)
    requires s.phase.Loop? && s.radio.acl && s.timers.readbackAt.None?
    requires Due(s.timers.verifyAt, a.now) && !Due(s.timers.verifyBudget, a.now)
    ensures var t := Step(Step(Step(s, Tick, a), Fresh(Yes), b), Proceed(false), d);
      t.phase.DialDrain? && t.host == s.host
      && t.radio == s.radio.(sock := false, dialKind := Some(Manual), dialAt := Some(d.now))
      && t.timers == s.timers.(verifyAt := None)
      && exists x :: SameStore(s.store, x)
                     && t.store == Store.Step(Store.Step(x, Store.VerifyReopening), Store.AapLink(false))
  {
    var u := TickReaches(s, a);
    assert Step(s, Tick, a) == u.(timers := u.timers.(verifyAt := None), phase := VerifyCheck(a.now)) by {
      hide OnTick;
    }
    ReopensForReading(Step(s, Tick, a), b, d);
    hide Step;
  }

  lemma ReopensForReading(s: State, b: Clock, d: Clock)
    requires s.phase.VerifyCheck? && s.radio.acl && !Due(s.timers.verifyBudget, s.phase.started)
    ensures var t := Step(Step(s, Fresh(Yes), b), Proceed(false), d);
      t.phase.DialDrain? && t.host == s.host && t.timers == s.timers.(readbackAt := None)
      && t.radio == s.radio.(sock := false, dialKind := Some(Manual), dialAt := Some(d.now))
      && t.store == Store.Step(Store.Step(s.store, Store.VerifyReopening), Store.AapLink(false))
  {
    hide DropSocket, Store.Step;
    var v := Step(s, Fresh(Yes), b);
    assert v == s.(phase := VerifyDrain(s.phase.started));
    DropReaches(Apply(v, Store.VerifyReopening), d);
  }

  lemma ReportIsHeard(s: State, report: Settings.Setting, c: Clock)
    requires s.phase.Loop? && s.radio.sock && s.desk.queue == []
    ensures Step(s, Received(SettingPacket(report)), c) == Apply(s, Store.SettingReport(report))
  {
    hide Store.Step;
  }

  lemma BatteryCloses(s: State, c: Clock)
    requires s.phase.Loop? && s.radio.sock && s.timers.readbackAt.Some?
    ensures Step(s, Received(BatteryPacket), c).store == Store.Step(s.store, Store.VerifyCompleted)
  {
    hide HandoffEvent, Store.Step;
    FinishReaches(s, c);
  }

  /** A key asked for, and read back over a link that was reopened for it: what the reports then say is the verdict. */
  lemma StoreJudges(s: Store.State, x: Store.State, setting: Settings.Setting, report: Option<Settings.Setting>)
    requires SameStore(Store.Step(s, Store.SettingRequested(setting)), x)
    requires report.Some? ==> Settings.KeyOf(report.value) == Settings.KeyOf(setting)
    ensures var down := Store.Step(Store.Step(x, Store.VerifyReopening), Store.AapLink(false));
      var up := Store.Step(down, Store.AapLink(true));
      var told := if report.Some? then Store.Step(up, Store.SettingReport(report.value)) else up;
      var done := Store.Step(told, Store.VerifyCompleted);
      var key := Settings.KeyOf(setting);
      key in done.status && done.status[key] == Verdict(setting, report)
  {
    hide Store.Step, Settings.ValueOf, Settings.Reported;
    var key := Settings.KeyOf(setting);
    var asked := Store.Step(s, Store.SettingRequested(setting));
    StoreRuns.RequestsStep(s, Store.SettingRequested(setting), key);
    var opening := Store.Step(x, Store.VerifyReopening);
    StoreRuns.RequestsStep(x, Store.VerifyReopening, key);
    var down := Store.Step(opening, Store.AapLink(false));
    StoreRuns.RequestsStep(opening, Store.AapLink(false), key);
    StoreRuns.ReportsStep(opening, Store.AapLink(false), key);
    var up := Store.Step(down, Store.AapLink(true));
    StoreRuns.RequestsStep(down, Store.AapLink(true), key);
    StoreRuns.ReportsStep(down, Store.AapLink(true), key);
    var told := if report.Some? then Store.Step(up, Store.SettingReport(report.value)) else up;
    if report.Some? {
      StoreRuns.RequestsStep(up, Store.SettingReport(report.value), key);
      StoreRuns.ReportsStep(up, Store.SettingReport(report.value), key);
    }
    StoreRuns.RequestsStep(told, Store.VerifyCompleted, key);
  }

  /** What a readback says of a setting: nothing reported, the value asked for, or another. */
  function Verdict(setting: Settings.Setting, report: Option<Settings.Setting>): Store.Status {
    if report.None? then Store.Unreported
    else if Settings.ValueOf(report.value) == Settings.ValueOf(setting) then Store.Confirmed
    else Store.Mismatch
  }

  // ---- the whole way of a write

  /** The clock readings of a write and its readback. */
  datatype Readings = Readings(asked: Clock, sent: Clock, tick: Clock, read: Clock, drained: Clock, dial: seq<Clock>,
                               flush: Clock, told: Clock, closed: Clock)

  /** The debounce is over, and the deadline is not. */
  predicate Timely(w: Readings) {
    |w.dial| == 7 && w.sent.now + VERIFY_DEBOUNCE <= w.tick.now < w.sent.now + VERIFY_BUDGET
  }

  function WriteStory(setting: Settings.Setting, context: Store.Context, deadline: Millis, w: Readings): seq<Stimulus> {
    [At(Command(Write(setting), context, deadline), w.asked), At(SendDone(true), w.sent)]
  }

  function ReopenStory(w: Readings, late: bool): seq<Stimulus>
    requires |w.dial| == 7
  {
    [At(Tick, w.tick), At(Fresh(Yes), w.read), At(Proceed(false), w.drained)] + DialStory(w.dial, late)
  }

  function ReportStory(report: Option<Settings.Setting>, w: Readings): seq<Stimulus> {
    (if report.Some? then [At(Received(SettingPacket(report.value)), w.told)] else [])
    + [At(Received(BatteryPacket), w.closed)]
  }

  /** A write, its readback over a new link, and what that link reports before its battery status. */
  function ReadbackStory(s: State, setting: Settings.Setting, context: Store.Context, deadline: Millis, w: Readings,
                         late: bool, report: Option<Settings.Setting>): seq<Stimulus>
    requires |w.dial| == 7
  {
    var opening := WriteStory(setting, context, deadline, w) + ReopenStory(w, late);
    opening + FlushStory(After(s, opening), w.flush) + ReportStory(report, w)
  }

  /** The link is open again, and the store is where a reopened readback stands. */
  ghost predicate ReadingBack(s: State, setting: Settings.Setting, t: State) {
    t.radio.sock && t.timers.readbackAt.Some? && t.desk.queue == []
    && exists x :: SameStore(Store.Step(s.store, Store.SettingRequested(setting)), x) && t.store == Reopened(x)
  }

  function Reopened(x: Store.State): Store.State {
    Store.Step(Store.Step(Store.Step(x, Store.VerifyReopening), Store.AapLink(false)), Store.AapLink(true))
  }

  lemma WriteReopens(s: State, setting: Settings.Setting, context: Store.Context, deadline: Millis, w: Readings,
                     late: bool)
    requires s.phase.Loop? && s.desk.queue == [] && s.radio.sock && s.radio.acl && Known(s.host)
    requires s.store.device.modelId == SUPPORTED_MODEL && s.timers.readbackAt.None?
    requires Settings.ValidSetting(setting) && IsCurrent(s, context, deadline, w.asked) && Timely(w)
    ensures var t := After(s, WriteStory(setting, context, deadline, w) + ReopenStory(w, late));
      ReadingBack(s, setting, t) && (t.phase.Loop? || t.phase.Flushing?)
  {
    hide Step, DialStory, Settings.ValidSetting, Store.Step, Opened;
    var a, b := At(Command(Write(setting), context, deadline), w.asked), At(SendDone(true), w.sent);
    WriteGoesOut(s, setting, context, deadline, w.asked, w.sent);
    Two(s, a, b);
    var p := After(s, [a, b]);
    var x, y, z := At(Tick, w.tick), At(Fresh(Yes), w.read), At(Proceed(false), w.drained);
    ReadbackDials(p, w.tick, w.read, w.drained);
    Three(p, x, y, z);
    var q := After(p, [x, y, z]);
    AnsweredDialOpens(q, w.dial, late);
    var t := After(q, DialStory(w.dial, late));
    AfterBoth(p, [x, y, z], DialStory(w.dial, late));
    AfterBoth(s, [a, b], ReopenStory(w, late));
    assert t == After(s, WriteStory(setting, context, deadline, w) + ReopenStory(w, late));
    OpenedReads(s, setting, p, q, t, w.dial[6].now);
  }

  lemma OpenedReads(s: State, setting: Settings.Setting, p: State, q: State, t: State, now: Millis)
    requires Opened(q, t, now) && p.store == Store.Step(s.store, Store.SettingRequested(setting))
    requires exists x :: SameStore(p.store, x)
                         && q.store == Store.Step(Store.Step(x, Store.VerifyReopening), Store.AapLink(false))
    ensures ReadingBack(s, setting, t) && (t.phase.Loop? || t.phase.Flushing?)
  {
    hide Store.Step;
  }

  lemma Two(s: State, x: Stimulus, y: Stimulus)
    ensures After(s, [x, y]) == Step(Step(s, x.input, x.clock), y.input, y.clock)
  {
    hide Step;
    assert [x, y][1..] == [y];
    One(Step(s, x.input, x.clock), y);
  }

  lemma ReportsJudge(s: State, setting: Settings.Setting, t: State, report: Option<Settings.Setting>, w: Readings)
    requires ReadingBack(s, setting, t) && t.phase.Loop?
    requires report.Some? ==> Settings.KeyOf(report.value) == Settings.KeyOf(setting)
    ensures var done := After(t, ReportStory(report, w)).store;
      Settings.KeyOf(setting) in done.status && done.status[Settings.KeyOf(setting)] == Verdict(setting, report)
  {
    hide Step, Store.Step;
    var x :| SameStore(Store.Step(s.store, Store.SettingRequested(setting)), x) && t.store == Reopened(x);
    StoreJudges(s.store, x, setting, report);
    hide Verdict;
    var last := At(Received(BatteryPacket), w.closed);
    if report.Some? {
      var first := At(Received(SettingPacket(report.value)), w.told);
      ReportIsHeard(t, report.value, w.told);
      var u := Apply(t, Store.SettingReport(report.value));
      BatteryCloses(u, w.closed);
      Two(t, first, last);
      assert ReportStory(report, w) == [first, last];
    } else {
      BatteryCloses(t, w.closed);
      One(t, last);
      assert ReportStory(report, w) == [last];
    }
  }

  /**
   From every state of the main loop with an open link, a setting that is written, read back in time over a link that
   answers, and reported or not before the battery status, gets its verdict: confirmed if and only if that link reported
   the value asked for, a mismatch if it reported another, unreported if it said nothing.
   */
  lemma WrittenSettingIsJudged(s: State, setting: Settings.Setting, context: Store.Context, deadline: Millis,
                               w: Readings, late: bool, report: Option<Settings.Setting>)
    requires s.phase.Loop? && s.desk.queue == [] && s.radio.sock && s.radio.acl && Known(s.host)
    requires s.store.device.modelId == SUPPORTED_MODEL && s.timers.readbackAt.None?
    requires Settings.ValidSetting(setting) && IsCurrent(s, context, deadline, w.asked) && Timely(w)
    requires report.Some? ==> Settings.KeyOf(report.value) == Settings.KeyOf(setting)
    ensures var done := After(s, ReadbackStory(s, setting, context, deadline, w, late, report)).store;
      Settings.KeyOf(setting) in done.status && done.status[Settings.KeyOf(setting)] == Verdict(setting, report)
  {
    hide Step, Settings.ValidSetting, ReadingBack, ReportStory, FlushStory, WriteStory, ReopenStory;
    var opening := WriteStory(setting, context, deadline, w) + ReopenStory(w, late);
    var t := After(s, opening);
    WriteReopens(s, setting, context, deadline, w, late);
    FlushingEnds(t, w.flush);
    var u := After(t, FlushStory(t, w.flush));
    StillReadingBack(s, setting, t, u);
    ReportsJudge(s, setting, u, report, w);
    hide Verdict, Settings.KeyOf;
    AfterBoth(s, opening, FlushStory(t, w.flush));
    AfterBoth(s, opening + FlushStory(t, w.flush), ReportStory(report, w));
  }

  lemma StillReadingBack(s: State, setting: Settings.Setting, t: State, u: State)
    requires ReadingBack(s, setting, t) && Idle(t, u)
    ensures ReadingBack(s, setting, u)
  {
    hide Store.Step;
  }

  // ---- no wait is for ever

  /** How many answers a wait is from its end at most; side effects are counted by themselves. */
  function AnswersLeft(phase: Phase): nat {
    match phase
    case Loop => 0
    case Flushing(_) => 0
    case Sending(_) => 1
    case CommandCheck(_) => 2
    case CommandDrain(_) => 1
    case VerifyCheck(_) => 9
    case VerifyDrain(_) => 8
    case DialDrain => 7
    case Authorizing(_, _) => 6
    case OpeningLink(_, _, stage) =>
      match stage
      case Authorized => 5
      case Connecting => 4
      case AwaitHandshake => 3
      case AwaitFeatures => 2
      case Subscribing => 1
  }

  /** The input is what the supervisor waits for. */
  predicate Answers(phase: Phase, input: Input) {
    match phase
    case Loop => false
    case Flushing(_) => false
    case Sending(_) => input.SendDone?
    case CommandCheck(_) => input.Fresh?
    case CommandDrain(_) => input.Proceed?
    case VerifyCheck(_) => input.Fresh?
    case VerifyDrain(_) => input.Proceed?
    case DialDrain => input.Proceed?
    case Authorizing(_, _) => input.Fresh?
    case OpeningLink(_, _, stage) =>
      match stage
      case Authorized => input.Proceed?
      case Connecting => input.SocketOpened?
      case AwaitHandshake => input.AckArrived?
      case AwaitFeatures => input.AckArrived?
      case Subscribing => input.Subscribed?
  }

  lemma WorkAdvances(s: State, input: Input, c: Clock)
    requires Answers(s.phase, input) && !s.phase.OpeningLink? && !s.phase.VerifyDrain?
    ensures AnswersLeft(Step(s, input, c).phase) < AnswersLeft(s.phase)
  {
    hide Handoff.Step, EarMedia.Step, Store.Step, Queued, AudioOnAirPods;
  }

  lemma ReadBackAdvances(s: State, input: Input, c: Clock)
    requires s.phase.VerifyDrain? && input.Proceed?
    ensures AnswersLeft(Step(s, input, c).phase) < AnswersLeft(s.phase)
  {
    hide Handoff.Step, EarMedia.Step, Store.Step, Queued, AudioOnAirPods;
  }

  lemma OpeningAdvances(s: State, input: Input, c: Clock)
    requires Answers(s.phase, input) && s.phase.OpeningLink?
    ensures AnswersLeft(Step(s, input, c).phase) < AnswersLeft(s.phase)
  {
    hide Step;
    match s.phase.opening
    case Authorized => ProceedAdvances(s, input.gone, c);
    case Connecting => SocketAdvances(s, input.ok, c);
    case AwaitHandshake => AckAdvances(s, input.ack, c);
    case AwaitFeatures => AckAdvances(s, input.ack, c);
    case Subscribing => SubscribedAdvances(s, input.ok, c);
  }

  lemma ProceedAdvances(s: State, gone: bool, c: Clock)
    requires s.phase.OpeningLink? && s.phase.opening.Authorized?
    ensures AnswersLeft(Step(s, Proceed(gone), c).phase) < AnswersLeft(s.phase)
  {}

  lemma AckAdvances(s: State, ack: Ack, c: Clock)
    requires s.phase.OpeningLink? && (s.phase.opening.AwaitHandshake? || s.phase.opening.AwaitFeatures?)
    ensures AnswersLeft(Step(s, AckArrived(ack), c).phase) < AnswersLeft(s.phase)
  {
    hide Suppress;
    SuppressStays(s, c);
  }

  lemma SubscribedAdvances(s: State, ok: bool, c: Clock)
    requires s.phase.OpeningLink? && s.phase.opening.Subscribing?
    ensures AnswersLeft(Step(s, Subscribed(ok), c).phase) < AnswersLeft(s.phase)
  {
    hide Suppress, Store.Step;
    SuppressStays(s, c);
  }

  lemma SuppressStays(s: State, c: Clock)
    ensures Suppress(s, c).phase == s.phase
  {
    hide Handoff.Step, EarMedia.Step, Store.Step, Queued, AudioOnAirPods;
  }

  lemma SocketAdvances(s: State, ok: bool, c: Clock)
    requires s.phase.OpeningLink? && s.phase.opening.Connecting?
    ensures AnswersLeft(Step(s, SocketOpened(ok), c).phase) < AnswersLeft(s.phase)
  {
    hide Handoff.Step, Queued, Suppress;
    SuppressStays(s, c);
  }

  /** Whatever the answer, it brings the supervisor closer to its main loop: nine answers at most, and it is back. */
  lemma AnswerAdvances(s: State, input: Input, c: Clock)
    requires Answers(s.phase, input)
    ensures AnswersLeft(Step(s, input, c).phase) < AnswersLeft(s.phase)
  {
    hide Step;
    if s.phase.OpeningLink? {
      OpeningAdvances(s, input, c);
    } else if s.phase.VerifyDrain? {
      ReadBackAdvances(s, input, c);
    } else {
      WorkAdvances(s, input, c);
    }
  }

  /** Until the answer comes, nothing but a handled link event ends or moves a wait. */
  lemma WaitStands(s: State, input: Input, c: Clock)
    requires !s.phase.Loop? && !s.phase.Flushing? && !Answers(s.phase, input) && !input.Link?
    ensures Step(s, input, c).phase == s.phase
  {
    hide Rejoin.Step, Handoff.Step, EarMedia.Step, Store.Step, Queued, AudioOnAirPods, RejoinActs, NextSequence, Shown;
    hide Addresses;
  }

  // ---- writes

  /** The update a request is written for. */
  predicate AsksFor(request: Request, update: Store.Update) {
    match request
    case Control => update.Unrelated?
    case Write(setting) => update == Store.SettingRequested(setting)
    case Rename(name) => update == Store.RenameRequested(name)
    case _ => false
  }

  /**
   A command is written to the AirPods exactly when it is a write, still current, the socket is there, and, for a
   setting or a name, the model is one known to take it and the setting a valid one.
   */
  lemma WriteBeginsIff(s: State, request: Request, context: Store.Context, deadline: Millis, c: Clock,
                       update: Store.Update)
    requires s.phase.Loop?
    ensures Step(s, Command(request, context, deadline), c).phase == Sending(update)
       <==> IsCurrent(s, context, deadline, c) && AsksFor(request, update) && s.radio.sock
            && (!request.Control? ==> s.store.device.modelId == SUPPORTED_MODEL)
            && (request.Write? ==> Settings.ValidSetting(request.setting))
  {
    hide Handoff.Step, Rejoin.Step, AutoConnect.Step, Store.Step, Queued, RejoinActs, AutoActs, NextSequence, Shown;
    hide Settings.ValidSetting;
  }

  // ---- the queue

  /** What is recorded or merely noticed needs nothing done. */
  predicate NeedsDoing(a: Handoff.Action) {
    !a.Record? && !a.StreamNotStarted?
  }

  /** Everything that needs doing is queued, as often as it was asked for, and nothing else. */
  lemma {:induction false} QueuedIsAsked(out: seq<Handoff.Action>, a: Handoff.Action)
    ensures multiset(Queued(out))[a] == if NeedsDoing(a) then multiset(out)[a] else 0
  {
    if out != [] {
      var last := out[|out| - 1];
      QueuedIsAsked(out[..|out| - 1], a);
      assert out == out[..|out| - 1] + [last];
    }
  }

  /** And in the order it was asked for. */
  lemma {:induction false} QueuedInOrder(a: seq<Handoff.Action>, b: seq<Handoff.Action>)
    ensures Queued(a + b) == Queued(a) + Queued(b)
  {
    if b == [] {
      assert a + b == a;
    } else {
      var before := b[..|b| - 1];
      QueuedInOrder(a, before);
      assert (a + b)[..|a + b| - 1] == a + before;
      assert (a + b)[|a + b| - 1] == b[|b| - 1];
    }
  }

  /** What the main loop takes up. */
  predicate TakenUp(s: State, input: Input) {
    s.phase.Loop?
    && match input
       case Link(_) => true
       case Command(_, _, _) => true
       case Received(_) => s.radio.sock
       case LinkDied => s.radio.sock
       case Seen(_) => true
       case Playing(_) => true
       case Tick => true
       case _ => false
  }

  /** Nothing is left in the queue by what the main loop takes up, or by the end of a wait: it is being worked off. */
  lemma NothingIsLeftQueued(s: State, input: Input, c: Clock)
    requires TakenUp(s, input) || Answers(s.phase, input)
    ensures var t := Step(s, input, c); t.phase.Loop? ==> t.desk.queue == []
  {
    hide Handle;
    WakesIt(s, input);
  }

  lemma WakesIt(s: State, input: Input)
    requires TakenUp(s, input) || Answers(s.phase, input)
    ensures Wakes(s, input)
  {}
}
