# auris: the daemon's decision core

auris keeps a Linux desktop and a pair of AirPods together. Its daemon decides, from what BlueZ, the AirPods and the
desktop report, when a lost link may be reconnected, who owns the audio, when players pause, and whether a setting the
user changed has taken. None of these decisions does I/O: each takes a state, an event and a clock reading and returns
actions. This project models that core in Dafny and proves what the decisions promise over every run.

| module | models |
|---|---|
| `Rejoin`, `RejoinRuns`, `RejoinHistory`, `RejoinSpacing` | reconnecting after another Apple host took the link: evidence, rate limit, retries, loop stop |
| `Handoff`, `HandoffRuns`, `HandoffHistory`, `HandoffAnswers`, `HandoffOutputs` | the ownership protocol: yield, hold, re-pause, debounced take-over, streaming announcements |
| `AutoConnect`, `AutoConnectRuns`, `AutoConnectHistory` | connecting on a proximity advert, and a bounded number of pages without one |
| `EarMedia`, `EarMediaRuns`, `EarMediaHistory` | pausing on a debounced ear signal, and undoing only that pause |
| `Settings`, `Store`, `StoreRuns`, `StoreHistory` | the snapshot as far as commands see it: reports, requests, verdicts, link view, epoch |
| `Utf8`, `Opack`, `Codec`, `Packets`, `SmartRouting`, `SettingsWire` | messages: framing, OPACK bodies with UTF-8 cuts, settings on the wire |
| `OuiHwdb`, `OuiLines`, `LineReader` | the one-pass hardware-database scanner and the bounded request-line reader |
| `Supervisor`, `SupervisorSteps`, `SupervisorRuns`, `SupervisorLimits` | the supervisor that composes all four machines and the store with dials, readbacks, commands, the card, the queue of side effects and connect workers |
| `SupervisorEvents`, `SupervisorRouting`, `SupervisorHistory` | what each input tells each part, and sockets, dial, card and panel told by the inputs |
| `SupervisorCrews`, `SupervisorWorkers`, `SupervisorProgress` | the connect workers counted, and what gets done when the world answers |

Each machine comes twice. `Step` (with its helper functions) is the transition from a state and an event to the next
state and the actions. A class holds the fields the daemon holds and updates them in place, and its `Decide` (`Apply` in
the store, `Take` in the supervisor) is proved to take exactly that transition. A `Run` is a machine as built and
everything folded into it; theorems are about every run, and `EveryInputRuns` shows that every sequence of events at
non-decreasing clock readings is one.

Theorems come in two kinds. Those of the `Runs` modules say what every run keeps. Those of the `History` and `Answers`
modules say when each answer is given: if and only if the events and clock readings so far (and for the ownership
protocol the answers given) call for it, with predicates such as `RejoinHistory.StartsBy`,
`AutoConnectHistory.DisarmedBy`, `EarMediaHistory.SettledBy` or `HandoffAnswers.SaysNoBy` that never look at what a
machine remembers. So a machine that forgets, skips or answers with something else is excluded as much as one that does
too much. `SupervisorProgress` does the same for the supervisor's long ways: from every state of the main loop, a story of
inputs in which the world answers ends where it should.

The supervisor is a state machine over uninterrupted pieces of work. Whatever it awaits is a phase, the outcome of the
wait is an input, and link events are handled in exactly the phases where the supervisor takes them off the queue.
Connect workers step independently of it. Its state carries a log of what each part received; that log is a run of the
part, so the theorems about the parts hold inside the supervisor, and it holds exactly what the inputs carried
(`SupervisorRouting.PartsHear`).

Time is a natural number of milliseconds that never goes down; counters are naturals.

## What turned out differently

Where a stronger statement is false of the code, the exact condition is proved instead.

- A listening-mode cycle loses its order on the wire, so a cycle requested in any other order than off, anc,
  transparency, adaptive is called a mismatch although the accessory took it (`SettingsWire.EchoConfirmsIff`, with an
  input in `SettingsWire.TakenCycleIsCalledMismatch`).
- A receiver searches a relayed body for the ownership key without parsing it. A media-information message makes it
  yield if and only if one of the two free names contains the key (`SmartRouting.MediaInfoYieldsIff`, with an input in
  `SmartRouting.KeyAsNameYields`).
- The `Disconnected` signal alone does not end a dial under way (`SupervisorLimits.SignalAloneEndsNoDial`); only a
  `Connected: false`, a lost adapter or another identity does (`SupervisorRuns.DialEndsIff`).
- An auto-connect worker keeps its authority when a local connect retires its sequence
  (`SupervisorLimits.RetiredWorkerCalls`). A call is for the sequence pending in flight if and only if no local connect
  retired it (`SupervisorRuns.AutoCallIsWanted`). For rejoin there is no such case.
- The rate limit counts from the drop behind a sequence, so two first connects can lie three seconds apart
  (`RejoinSpacing.FirstConnectsThreeSecondsApart`). A minute is certain after a first connect if and only if it came no
  later than 3 s after its drop, so that it was not deferred (`RejoinSpacing.MinuteAfterIff`); 63 s from the earlier drop
  (`RejoinRuns.ConnectsAreSpaced`) and over any three sequences (`RejoinRuns.ThreeSequencesSpan`) always hold.
- The end of the readback window judges any report since the last link end, also one from before the request
  (`StoreRuns.OldReportConfirms`). Every verdict rests on a later report if and only if the link had reported nothing for
  the key when the request was made (`StoreRuns.OnlyLaterReportsCountIff`).
- The ten-second deadline bounds verdicts, not the reopening: a window that closes clears the deadline and leaves the
  debounce standing, which may reopen the link later with no key verifying (`SupervisorLimits.LateReopening`). The
  reopening has its deadline if and only if no window was finished since the last write
  (`SupervisorRuns.ReopeningHasDeadlineIff`).

## Model

| member | source | states |
|---|---|---|
| `Rejoin.RejoinState.constructor` | daemon/src/rejoin.rs:332-358 | a new machine keeps the newest eight persisted hosts and remembers nothing else |
| `Rejoin.RejoinState.Decide` | daemon/src/rejoin.rs:540-709 | one event changes every field and returns the actions exactly as the transition `Step` says, branch by branch |
| `Rejoin.RejoinState.TakePending` | daemon/src/rejoin.rs:438-445 | a cancel takes the pending sequence and reports it, or does nothing |
| `Rejoin.RejoinState.Learn` | daemon/src/rejoin.rs:546-555 | a relay sender is remembered once, never this host itself, and the oldest is forgotten past eight |
| `Rejoin.RejoinState.Drop` | daemon/src/rejoin.rs:566-618 | a drop ends the pending sequence and then declares a loop, is refused with its reason, or starts the next sequence |
| `Rejoin.RejoinState.Due` | daemon/src/rejoin.rs:655-670 | a tick connects, waits, or cancels a sequence whose switch went off |
| `Rejoin.RejoinState.Finish` | daemon/src/rejoin.rs:671-708 | only the outcome of the sequence in flight counts; busy is retried, everything else ends the sequence |
| `Rejoin.Pick` | daemon/src/rejoin.rs:406-423 | the host picked is the last listed one, in wire order, that is an Apple host (with its link up if asked), and none is picked only if there is none |
| `RejoinRuns.EveryInputRuns` | daemon/src/rejoin.rs:540-709 | any events at any non-decreasing clock readings form a run, so nothing below is vacuous |
| `RejoinRuns.StartQualified` | daemon/src/rejoin.rs:447-536 | every sequence starts at a Remote or Timeout drop with rejoin on, adapter powered, device paired and unblocked, lid open, buds out, no manual command for 10 s, and a standing report that blames another Apple host |
| `RejoinRuns.DropStartsIff` | daemon/src/rejoin.rs:566-618 | a drop starts a sequence if and only if it qualifies, no loop stop is in force, and no rejoin of this identity succeeded in the last 20 s |
| `RejoinRuns.QualifyingDropStarts` | daemon/src/rejoin.rs:447-536 | a qualifying drop outside a loop is never refused |
| `RejoinRuns.PendingOrigin` | daemon/src/rejoin.rs:566-669 | a pending sequence goes back to one drop with no cancelling event since |
| `RejoinRuns.EveryConnectIsJustified` | daemon/src/rejoin.rs:447-670 | every connect in every run goes back to one qualifying drop, and no cancelling event came between drop and connect |
| `RejoinRuns.AttemptsCounted` | daemon/src/rejoin.rs:371-383 | a sequence issues at most three connects, and the pending attempt is the number issued |
| `RejoinRuns.ConnectsAreNumbered` | daemon/src/rejoin.rs:655-697 | the connects of a sequence are numbered 1, 2, 3 in order |
| `RejoinRuns.DueRespectsLimit` | daemon/src/rejoin.rs:588-616 | a pending sequence is due no earlier than 63 s after the drop behind any earlier one, also after retries |
| `RejoinRuns.ConnectsAreSpaced` | daemon/src/rejoin.rs:588-616 | a connect comes at least 63 s after the drop behind any earlier sequence |
| `RejoinRuns.ThreeSequencesSpan` | daemon/src/rejoin.rs:588-616 | connects of any three sequences span at least 63 s |
| `RejoinSpacing.MinuteAfterIff` | daemon/src/rejoin.rs:588-616 | after the first connect of a sequence every later sequence connects a minute later or more, however the run goes on, if and only if that connect came no later than 3 s after its drop |
| `RejoinSpacing.NextEvictionConnects` | daemon/src/rejoin.rs:566-670 | after any first connect the run can go on so that the next sequence connects as early as the rate limit allows |
| `RejoinSpacing.FirstConnectsThreeSecondsApart` | daemon/src/rejoin.rs:588-616 | a run of nine events with two first connects three seconds apart |
| `RejoinRuns.LoopStopsRejoins` | daemon/src/rejoin.rs:472-481 | after an eviction loop nothing is scheduled or connected until a manual command or another identity |
| `RejoinRuns.LoopFollowsRejoin` | daemon/src/rejoin.rs:574-587 | a loop is only declared within 20 s of a rejoin that succeeded on the same identity |
| `RejoinRuns.LoopedHasSource` | daemon/src/rejoin.rs:633-646 | the loop stop is in force exactly between its declaration and the next manual command or identity change |
| `RejoinRuns.FlagsFollowEvents` | daemon/src/rejoin.rs:556-565 | the switch and the both-buds-in-case flag are what the latest events said |
| `RejoinRuns.ReportKept` | daemon/src/rejoin.rs:542-545 | the report used as evidence is replaced only by a newer one, a new link, a new identity or a new sequence |
| `RejoinHistory.StartsByIff` | daemon/src/rejoin.rs:447-616 | which drops start a sequence is told by events and clock readings alone, the machine's memory and answers left out |
| `RejoinHistory.LoopsByIff` | daemon/src/rejoin.rs:570-587 | a loop is declared if and only if a Remote or Timeout drop comes with rejoining on and no loop in force, less than 20 s after a connect of this identity went through |
| `RejoinHistory.SuccessByIff` | daemon/src/rejoin.rs:671-679 | `Rejoined` is answered if and only if the outcome `Connected` is of the sequence that the events leave in flight |
| `RejoinHistory.PendingIff` | daemon/src/rejoin.rs:566-709 | a sequence is pending if and only if a drop started it and no event since ended it, and its number, attempt and due time are those the events give |
| `RejoinHistory.ConnectsIff` | daemon/src/rejoin.rs:655-670 | a connect goes out if and only if a tick finds a live sequence waiting and due with the switch on, numbered by its earlier connects |
| `RejoinHistory.RetriesIff` | daemon/src/rejoin.rs:680-697 | a connect is tried again if and only if it was refused as busy with fewer than three issued, after the wait for that count |
| `RejoinHistory.GivesUpIff` | daemon/src/rejoin.rs:680-708 | a sequence is given up if and only if its connect failed or was refused as busy for the third time |
| `RejoinHistory.CancelsIff` | daemon/src/rejoin.rs:556-709 | a cancel is answered if and only if an event ends a live sequence early, with that event's reason |
| `RejoinHistory.SkipsIff` | daemon/src/rejoin.rs:588-618 | a drop is refused if and only if it neither starts a sequence nor shows a loop |
| `RejoinHistory.AnnouncesBlame` | daemon/src/rejoin.rs:497-536 | what is announced names the host the evidence blames, how it was recognised and what it did, and the delay left of the rate limit |
| `RejoinHistory.PersistsIff` | daemon/src/rejoin.rs:546-555 | the hosts to keep are answered if and only if a relay sender is neither this host nor kept already, and are the newest eight |
| `Handoff.HandoffState.constructor` | daemon/src/handoff.rs:238-271 | a new machine owns nothing, has no link and no history |
| `Handoff.HandoffState.Decide` | daemon/src/handoff.rs:563-790 | one event changes every field and returns the actions, in order, exactly as the transition `Step` says |
| `Handoff.HandoffState.GiveUp` | daemon/src/handoff.rs:498-523 | a yield pauses, switches the card, releases, starts the hold and announces in the order of the source |
| `Handoff.HandoffState.Take` | daemon/src/handoff.rs:527-559 | a take-over switches the card first, then claims, announces, hijacks, and arms the stream check |
| `Handoff.HandoffState.PauseAgain` | daemon/src/handoff.rs:349-356 | a re-pause remembers its player and clears the pending play |
| `Handoff.HandoffState.Reset` | daemon/src/handoff.rs:399-415 | a link change forgets everything that belonged to the link |
| `Handoff.HandoffState.HearSource` | daemon/src/handoff.rs:580-631 | an audio-source report yields, renews the hold, or is state only |
| `Handoff.HandoffState.HearQuiet` | daemon/src/handoff.rs:594-621 | an idle or local source ends a hold nobody renewed and re-pauses a leaked stream |
| `Handoff.HandoffState.HearOwnership` | daemon/src/handoff.rs:654-672 | an ownership report yields without echoing it, outside the opening |
| `Handoff.HandoffState.HearRelay` | daemon/src/handoff.rs:673-695 | a relayed request yields, or renews the hold and re-pauses |
| `Handoff.HandoffState.Hear` | daemon/src/handoff.rs:696-739 | a playback reading re-pauses, opens a play edge, or starts the stop countdown |
| `Handoff.HandoffState.HearTransport` | daemon/src/handoff.rs:744-759 | a stream that starts repeats YES once after a take-over or after a NO |
| `Handoff.HandoffState.CheckStream` | daemon/src/handoff.rs:457-473 | a stream that never started is reported once |
| `Handoff.HandoffState.CheckStopped` | daemon/src/handoff.rs:477-496 | the stop countdown ends in one NO, or waits out the grace after a take-over |
| `Handoff.HandoffState.Ticked` | daemon/src/handoff.rs:760-786 | a tick runs stream check, stop countdown and debounced take-over in that order |
| `HandoffRuns.EveryInputRuns` | daemon/src/handoff.rs:563-790 | any events at any non-decreasing clock readings form a run |
| `HandoffRuns.SoundAt` | daemon/src/handoff.rs:332-347 | in every reachable state a hold implies released audio and a play edge implies playing |
| `HandoffRuns.TickTakesIff` | daemon/src/handoff.rs:760-786 | a tick takes over if and only if a user play has stood undisturbed for 1.5 s, no earlier tick found it due, and enabled, set, linked, not in a call and owned elsewhere all hold |
| `HandoffRuns.TakeOverAnswersAPlay` | daemon/src/handoff.rs:696-786 | every take-over on a tick has its play at least 1.5 s before, playing ever since, with no yield, hold renewal, re-pause or link reset between, and no other host in a call |
| `HandoffRuns.EdgeHasSource` | daemon/src/handoff.rs:708-717 | a pending play edge is one event outside both hold windows or from a player already re-paused, undisturbed since |
| `HandoffRuns.YieldsIff` | daemon/src/handoff.rs:580-694 | the audio is given up exactly on a real request, and by itself only while it is not given up already |
| `HandoffRuns.YieldsAlternate` | daemon/src/handoff.rs:498-559 | on one link a take-over lies between any two automatic yields |
| `HandoffRuns.RouteFollowsRelease` | daemon/src/handoff.rs:498-559 | the last route asked for on a link is `Yielded` exactly while released, and a hold implies it |
| `HandoffRuns.OwnershipFollowsRoute` | daemon/src/handoff.rs:498-559 | in every output the card is switched before the ownership write, and a yield answers a request |
| `HandoffRuns.RepausedHasSource` | daemon/src/handoff.rs:332-356 | the players remembered as re-paused are those re-paused since the last request or link change |
| `HandoffRuns.OneRepausePerRequest` | daemon/src/handoff.rs:332-356 | between two requests on one link each player is re-paused at most once |
| `HandoffRuns.RepausesOnlyWhileYielded` | daemon/src/handoff.rs:345-356 | players are re-paused only while the route is yielded |
| `HandoffRuns.StreamingNoIsJustified` | daemon/src/handoff.rs:438-496 | every NO goes out on a tick while owning the audio, 3 s into an unbroken stop and 8 s after every take-over of the link |
| `HandoffRuns.NoRoundsAlternate` | daemon/src/handoff.rs:425-496 | on one link every other host then listed is told YES between two rounds of NO |
| `HandoffOutputs.MessagesReachWhomTheyShould` | daemon/src/handoff.rs:425-559 | a take-over claims the audio and tells and hijacks exactly the other listed hosts; a yield pauses and is not echoed to the AirPods that asked for it; newcomers are introduced exactly while owning; media information goes to listed hosts only |
| `HandoffRuns.ReadingsFollowEvents` | daemon/src/handoff.rs:563-790 | playback and audio source are the latest readings of this link |
| `HandoffHistory.InOpeningIff` | daemon/src/handoff.rs:316-330 | a report belongs to the opening dump if and only if the latest opening event of this link is under 3 s old, or under 10 s with no settling event since |
| `HandoffHistory.AsksIff` | daemon/src/handoff.rs:580-694 | what counts as a request follows from the event, the latest settings and source report, and the opening window of the history |
| `HandoffHistory.InHoldWindowIff` | daemon/src/handoff.rs:307-314 | the hold window is open if and only if a yield or request is unanswered by a take-over, a lasting play, a new link or a quiet source, and a pause, renewal or change of the audio link is under 2.5 s old |
| `HandoffHistory.UserPlaysIff` | daemon/src/handoff.rs:696-717 | a start of playback counts as the user's if and only if the history has no open hold window for it, or its player was paused again since the last request |
| `HandoffHistory.OwnerFollowsEvents` | daemon/src/handoff.rs:563-790 | the owner is what the latest reports and decisions of the link made it |
| `HandoffHistory.TickTakesByHistory` | daemon/src/handoff.rs:760-786 | a tick takes over if and only if a play of the user's stood for 1.5 s and the history allows it, with every condition read off events and answers, none off the machine's memory |
| `HandoffAnswers.TakesIff` | daemon/src/handoff.rs:527-786 | a take-over happens if and only if the user asks for it or a play of the user's has lasted, by the history |
| `HandoffAnswers.SaysNoIff` | daemon/src/handoff.rs:477-496 | a host is told NO if and only if it is another listed one and this is the first tick 3 s into an unbroken stop, out of the grace of the latest take-over, with handoff on, the audio owned here and no NO standing since the last YES, all read off events and answers |
| `HandoffAnswers.SaysYesIff` | daemon/src/handoff.rs:527-759 | a host is told YES if and only if it is another listed one and there is a take-over, a play or stream that starts after a NO, or the first stream after a take-over that found none |
| `HandoffAnswers.MissesIff` | daemon/src/handoff.rs:457-473 | a missing stream is reported if and only if the first tick 3 s or more past a take-over finds its stream idle, the audio still owned here, and something playing, waiting to last or stopped just now |
| `HandoffAnswers.RepausesIff` | daemon/src/handoff.rs:332-739 | a player is paused again if and only if it starts and that start is not the user's, plays on when a request is repeated on a yielded route, or is reported as this host's media while a hold with a recent request stands and it was not paused again yet |
| `HandoffAnswers.IntroducesIff` | daemon/src/handoff.rs:632-653 | a host is introduced if and only if it newly appears in the list while the history has this host owning the audio, outside the opening |
| `HandoffAnswers.RecordsIff` | daemon/src/handoff.rs:498-559 | a change of hands is put on record if and only if it happens, with its kind and the host it is put down to |
| `HandoffAnswers.AnnouncedFollows` | daemon/src/handoff.rs:425-496 | what the other hosts were last told follows from the history |
| `HandoffAnswers.TakeOverFollows` | daemon/src/handoff.rs:438-559 | grace, repeat and stream check belong to the latest take-over that stands |
| `AutoConnect.AutoConnectState.constructor` | daemon/src/autoconnect.rs:341-362 | a new machine is armed, unanchored and idle |
| `AutoConnect.AutoConnectState.Decide` | daemon/src/autoconnect.rs:418-602 | one event changes every field and returns the actions exactly as the transition `Step` says |
| `AutoConnect.AutoConnectState.TurnOff` | daemon/src/autoconnect.rs:405-415 | disarming cancels what is pending and is reported once |
| `AutoConnect.AutoConnectState.Sighted` | daemon/src/autoconnect.rs:425-472 | a sighting is refused, refreshes presence, or re-arms and opens an episode |
| `AutoConnect.AutoConnectState.Ticked` | daemon/src/autoconnect.rs:473-502 | a tick connects a due sequence unless the link, a rejoin or stale adverts end it |
| `AutoConnect.AutoConnectState.Page` | daemon/src/autoconnect.rs:607-641 | a page needs an open away period, its slot, and the budget |
| `AutoConnect.AutoConnectState.WentUp` | daemon/src/autoconnect.rs:503-514 | a local connect retires the sequence and ends the away period |
| `AutoConnect.AutoConnectState.WentAway` | daemon/src/autoconnect.rs:515-542 | a drop cancels, and its reason decides whether an away period opens, stays or ends |
| `AutoConnect.AutoConnectState.Finish` | daemon/src/autoconnect.rs:544-600 | only the outcome in flight counts; failures back off until the fourth |
| `AutoConnectRuns.EveryInputRuns` | daemon/src/autoconnect.rs:418-602 | any events at any non-decreasing clock readings form a run |
| `AutoConnectRuns.EpisodeStartsIff` | daemon/src/autoconnect.rs:425-472 | an episode starts if and only if an accepted advert follows a whole absence without advert or link change, with nothing pending, no link and no rejoin |
| `AutoConnectRuns.OpeningFollowsAbsence` | daemon/src/autoconnect.rs:425-472 | re-arming, too, needs a whole absence without accepted advert or link change |
| `AutoConnectRuns.WindowHasAnchor` | daemon/src/autoconnect.rs:418-423 | an open away period goes back to one drop or to the start, and its next slot leaves room for every page already sent |
| `AutoConnectRuns.PageHasItsSlot` | daemon/src/autoconnect.rs:607-641 | the k-th page of a period comes no earlier than first + (k-1) * interval after the drop and never past the budget |
| `AutoConnectRuns.PagesFitBudget` | daemon/src/autoconnect.rs:607-641 | all pages of a period, spaced as configured, fit its budget |
| `AutoConnectRuns.PagesAreBounded` | daemon/src/autoconnect.rs:607-641 | one period sees at most floor((budget - first) / interval) + 1 pages, none if first exceeds the budget |
| `AutoConnectRuns.AttemptsCounted` | daemon/src/autoconnect.rs:381-384 | a sequence issues at most four connects and the pending attempt is the number issued |
| `AutoConnectRuns.ConnectsAreNumbered` | daemon/src/autoconnect.rs:482-602 | the connects of a sequence are numbered in order; a page makes one |
| `AutoConnectRuns.EveryConnectIsJustified` | daemon/src/autoconnect.rs:425-502 | a connect that is no page belongs to an episode that no link change or manual command has ended |
| `AutoConnectRuns.RetiredNeverReturns` | daemon/src/autoconnect.rs:503-514 | a sequence a local connect ended is never pending again |
| `AutoConnectRuns.RetryNeedsFreshAdvert` | daemon/src/autoconnect.rs:489-497 | a retry has an accepted advert in the last 10 s |
| `AutoConnectRuns.DisarmedNeverConnects` | daemon/src/autoconnect.rs:391-412 | between Disarmed and the next Rearmed no connect of any kind is issued |
| `AutoConnectRuns.NeverOverARejoin` | daemon/src/autoconnect.rs:454-490 | no connect is issued while the rejoin flag is up |
| `AutoConnectHistory.DisarmedIff` | daemon/src/autoconnect.rs:405-543 | the machine is off if and only if a manual command or local disconnect came after the latest accepted advert that ended a whole absence with nothing pending, read off events and clock readings |
| `AutoConnectHistory.SwitchesIff` | daemon/src/autoconnect.rs:391-472 | an episode is answered if and only if an advert opens one, re-arming if and only if it finds the machine off, and switching off if and only if an event turns off what was on |
| `AutoConnectHistory.PagesIff` | daemon/src/autoconnect.rs:607-641 | a page goes out if and only if its slot has come in an open away period within budget, with no link, no rejoin, nothing pending and the machine on |
| `AutoConnectHistory.ConnectsIff` | daemon/src/autoconnect.rs:473-502 | a connect goes out if and only if it is a page's or the turn of an advert's live sequence comes with no link, no rejoin and fresh adverts |
| `AutoConnectHistory.RetriesIff` | daemon/src/autoconnect.rs:544-600 | a connect is tried again if and only if it is one of the first three failures of an advert's sequence, with the growing wait |
| `AutoConnectHistory.FailuresIff` | daemon/src/autoconnect.rs:544-600 | a sequence is given up if and only if its fourth connect fails, and a page if and only if it fails at all |
| `AutoConnectHistory.WorkedIff` | daemon/src/autoconnect.rs:503-600 | success is answered if and only if the outcome says so or the link comes up with the connect in flight |
| `AutoConnectHistory.CancelsIff` | daemon/src/autoconnect.rs:405-600 | a cancel is answered if and only if an event ends a live sequence early, with that event's reason |
| `AutoConnectHistory.SkipsIff` | daemon/src/autoconnect.rs:425-472 | an advert is refused if and only if it is too weak, or would open an episode but for a link or a rejoin, with that reason |
| `AutoConnectHistory.OffNeverConnects` | daemon/src/autoconnect.rs:405-543 | after a manual command or a local disconnect no connect, page or episode of any kind until an accepted advert ends an absence |
| `EarMedia.EarMediaState.constructor` | daemon/src/ear_media.rs:130-139 | a new machine has settled on nothing |
| `EarMedia.EarMediaState.Decide` | daemon/src/ear_media.rs:262-294 | one event changes every field and returns the actions exactly as the transition `Step` says |
| `EarMedia.EarMediaState.Removed` | daemon/src/ear_media.rs:162-183 | fewer buds pause what plays here, and record the pause |
| `EarMedia.EarMediaState.Returned` | daemon/src/ear_media.rs:186-205 | enough buds back use up the recorded pause, resuming only what it paused |
| `EarMedia.EarMediaState.Ticked` | daemon/src/ear_media.rs:208-233 | an expired pause is dropped and a candidate settles after 700 ms |
| `EarMedia.EarMediaState.Heard` | daemon/src/ear_media.rs:236-259 | a playback edge of anybody else gives up the recorded pause |
| `EarMediaRuns.EveryInputRuns` | daemon/src/ear_media.rs:262-294 | any events at any non-decreasing clock readings form a run |
| `EarMediaRuns.ActsOnSettledCount` | daemon/src/ear_media.rs:208-233 | every pause and resume acts on a count all usable readings have held for 700 ms |
| `EarMediaRuns.HeldIsCandidate` | daemon/src/ear_media.rs:262-290 | a count that stays the only usable reading is the candidate or settled |
| `EarMediaRuns.PauseHasSource` | daemon/src/ear_media.rs:162-259 | an outstanding pause is one earlier pause, with its count and player, undisturbed but for its own stop |
| `EarMediaRuns.ResumeUndoesOnePause` | daemon/src/ear_media.rs:186-205 | every resume undoes the latest pause, under five minutes old, names its player, with the count back and no play edge and at most one stop edge between |
| `EarMediaRuns.ResumesUndoDistinctPauses` | daemon/src/ear_media.rs:186-205 | two resumes never undo the same pause |
| `EarMediaHistory.ReadingCounts` | daemon/src/ear_media.rs:154-158 | a reading counts the sides reported in the ear, and nothing if and only if both sides are unknown |
| `EarMediaHistory.SettledIff` | daemon/src/ear_media.rs:208-290 | the machine has settled on a count if and only if it is the last one of this link that all usable readings held for 700 ms up to a tick |
| `EarMediaHistory.PausesIff` | daemon/src/ear_media.rs:162-233 | local players are paused if and only if pausing is on, something plays here to the AirPods, and the count newly held for 700 ms is below the one held before, all read off the events |
| `EarMediaHistory.ResumesIff` | daemon/src/ear_media.rs:186-259 | a player is resumed if and only if resuming is on, this host is silent and would be heard, and the count newly held is at least the one before the outstanding pause of under five minutes ago; it is that pause's player |
| `EarMediaHistory.KeptIsOutstanding` | daemon/src/ear_media.rs:186-259 | the pause the machine remembers is one the events leave outstanding |
| `EarMediaHistory.OutstandingIsKept` | daemon/src/ear_media.rs:186-259 | a pause the events leave outstanding is the one remembered |
| `Store.Store.constructor` | daemon/src/store.rs:160-167 | a new store has no reports, requests or verdicts and epoch 0 |
| `Store.Store.ConnectionContext` | daemon/src/store.rs:180-190 | a command captures the current address and epoch |
| `Store.Store.Apply` | daemon/src/store.rs:192-218 | an update changes the snapshot as `Step` says and bumps the epoch exactly when identity, model or link moved or a link end was applied |
| `Store.Store.Mutate` | daemon/src/store.rs:407-626 | every update changes every modelled field as specified |
| `Store.Store.Finish` | daemon/src/store.rs:309-361 | the end of the window judges each key by itself and leaves the others alone |
| `Store.Store.Abandon` | daemon/src/store.rs:388-396 | giving up turns pending verdicts into unverified and touches nothing else |
| `Store.Store.LoseLink` | daemon/src/store.rs:400-405 | a lost link forgets its reports and ends the readback unless the reopening was asked for |
| `Store.Store.Identify` | daemon/src/store.rs:409-457 | another device drops everything reported and requested; another address also drops name and model |
| `Store.Store.Named` | daemon/src/store.rs:545-565 | the accessory's own name settles a pending rename |
| `StoreRuns.EveryInputRuns` | daemon/src/store.rs:192-218 | any updates form a run |
| `StoreRuns.SettingsMirrorReports` | daemon/src/store.rs:458-583 | each setting is the last value reported since the last link end or device change, present exactly when this link reported it |
| `StoreRuns.RequestsMirrorCommands` | daemon/src/store.rs:585-598 | requests and verdicts exist exactly for the keys asked of this device, with the last value asked |
| `StoreRuns.KeysAgree` | daemon/src/store.rs:585-598 | requested and status maps always have the same keys |
| `StoreRuns.VerdictFollowsReport` | daemon/src/store.rs:309-361 | when the window closes an open key is confirmed iff its last report equals the request, a mismatch iff it differs, and otherwise unreported or unchanged |
| `StoreRuns.RenameFollowsMetadata` | daemon/src/store.rs:363-386 | a pending rename is settled by the next name the accessory gives |
| `StoreRuns.VerdictsStay` | daemon/src/store.rs:321-330 | a settled verdict changes only through a new request for its key or another device |
| `StoreRuns.VerdictHasSource` | daemon/src/store.rs:309-386 | every settled verdict compared the last report of its time with the request that still stands |
| `StoreRuns.OnlyLaterReportsCountIff` | daemon/src/store.rs:309-361 | every verdict on a request, however the run goes on, compares a report from after it if and only if the link had reported nothing for the key when it was made |
| `StoreRuns.OldReportConfirms` | daemon/src/store.rs:309-361 | a run of three updates, report, request and end of the window, that confirms the request by the older report |
| `StoreRuns.VerifyingIff` | daemon/src/store.rs:309-405 | a key is verifying if and only if it was asked for and nothing since judged it, gave it up or changed the device |
| `StoreRuns.ReopenedIff` | daemon/src/store.rs:388-405 | a reopening under way is one asked for and not yet judged, given up or made moot |
| `StoreRuns.EpochGrows` | daemon/src/store.rs:192-218 | the epoch never falls and stays exactly while the connection is one and the same |
| `StoreRuns.CommandCrossesNoBoundary` | daemon/src/store.rs:180-218 | two contexts are equal if and only if address, model, connected and link never moved in between, not even away and back, and no link end was applied |
| `StoreRuns.LinkFollowsActivity` | daemon/src/store.rs:627-648 | the published link is what connection and announced sequence make of it |
| `StoreHistory.DeviceFollowsUpdates` | daemon/src/store.rs:409-565 | address, name, model, connection and protocol link are each what the updates so far made them; the accessory's own name wins over the host's, and another address forgets both |
| `StoreHistory.ReplacesIff` | daemon/src/store.rs:409-430 | what counts as another device is told by the addresses and models given so far |
| `StoreHistory.ReadbackFollowsUpdates` | daemon/src/store.rs:388-626 | scheduled, reopening or idle is what the latest request, reopening, conclusion, link end or device change made it |
| `StoreHistory.ReportsAreCounted` | daemon/src/store.rs:566-583 | the published counter of a setting is the number of its reports by this device |
| `Utf8.CutIsLongest` | daemon/src/aap/codec.rs:577-585 | the cut is the one longest whole-character prefix within the limit |
| `Utf8.LastBoundary` | daemon/src/aap/codec.rs:577-581 | walking back to a character boundary finds exactly that prefix |
| `Utf8.RoundTrip` | daemon/src/aap/codec.rs:577-585 | every string decodes from its UTF-8 encoding |
| `Opack.Buffer.constructor` | daemon/src/aap/codec.rs:599-601 | a body starts as an empty dictionary of the announced size |
| `Opack.Buffer.PutStr` | daemon/src/aap/codec.rs:577-585 | a string is appended as its longest whole-character prefix of at most 32 octets, under the tag of its length |
| `Opack.Buffer.PutNum` | daemon/src/aap/codec.rs:587-596 | a number is appended in the shortest of the three forms |
| `Opack.Buffer.PutTag` | daemon/src/aap/codec.rs:617-633 | true and back-references are single octets |
| `Opack.BodyRoundTrip` | daemon/src/aap/codec.rs:577-601 | a printed dictionary reads back to exactly its pairs, strings as cut and back-references resolved |
| `Opack.NodesRoundTrip` | daemon/src/aap/codec.rs:577-596 | reading on from any object completes what was read before it |
| `Codec.ReadBattery` | daemon/src/aap/codec.rs:437-464 | a battery payload is refused when short and otherwise read entry by entry |
| `Packets.BatteryReadsBack` | daemon/src/aap/codec.rs:437-464 | a battery message reads as these entries if and only if each five octets say that entry: component, presence, charging, and a level of at most 100 when present |
| `Packets.ShortBatteryIsRefused` | daemon/src/aap/codec.rs:437-444 | a battery message with fewer octets than its count needs is refused |
| `Packets.EarReadsBack` | daemon/src/aap/codec.rs:225-261 | both sides of an ear report read as sent, every octet above two as unknown |
| `Packets.AddressReadsBack` | daemon/src/aap/codec.rs:280-288 | an address report reads back to its address and both extra octets, whatever follows |
| `Packets.SourceReadsBack` | daemon/src/aap/codec.rs:289-297 | an audio-source report reads back to its host and what that host does |
| `Packets.HostsReadBack` | daemon/src/aap/codec.rs:322-340 | a list of hosts that arrives cut short reads back to exactly the hosts that are whole, and a whole list to all of them whatever follows |
| `Packets.ControlReadsBack` | daemon/src/aap/codec.rs:342-420 | noise control, awareness, level and ownership read as echoed, the level capped at 100, and everything else is kept raw |
| `Packets.ForeignReadsBack` | daemon/src/aap/codec.rs:242-314 | a message under a foreign prefix or opcode is kept as it came |
| `Packets.AckReadsBack` | daemon/src/aap/codec.rs:239-241 | whatever starts with the acknowledgement's octets acknowledges the handshake |
| `Packets.OpenReadsBack` | daemon/src/aap/codec.rs:268-269 | metadata and the acknowledgement of features are read at any length |
| `Packets.DuckReadsBack` | daemon/src/aap/codec.rs:270-279 | of an awareness event the last octet counts |
| `Packets.ShortPayloadIsRefused` | daemon/src/aap/codec.rs:250-324 | each kind of message is refused below the length it needs |
| `Packets.AddressTextTells` | daemon/src/aap/codec.rs:635-654 | no two addresses print alike |
| `Codec.EncodeSmartRouting` | daemon/src/aap/codec.rs:604-615 | the frame carries prefix, opcode, reversed address, a length that stops at 65535, and the body |
| `Codec.EncodeHijackV2` | daemon/src/aap/codec.rs:618-633 | the request to yield is this dictionary in a frame to the target |
| `Codec.EncodeMediaInfo` | daemon/src/aap/codec.rs:635-654 | the media information is this dictionary in a frame to the target |
| `Codec.EncodeMediaInfoNewDevice` | daemon/src/aap/codec.rs:657-670 | the idle media information for a new host is this dictionary in a frame |
| `Codec.EncodeNewTipi` | daemon/src/aap/codec.rs:673-687 | the introduction is this dictionary in a frame |
| `Codec.RequestsYield` | daemon/src/aap/codec.rs:690-693 | a body asks to yield if and only if the key occurs in it |
| `SmartRouting.RelayRoundTrip` | daemon/src/aap/codec.rs:301-311 | a frame re-tagged as a relay decodes to the same address and the first min(len, 65535) body bytes, and a frame that arrives short to what arrived or to an error |
| `SmartRouting.MediaInfoReadsBack` | daemon/src/aap/codec.rs:635-654 | for all names the body reads back to exactly its five pairs, the names cut to 32 octets and all else whole |
| `SmartRouting.HijackReadsBack` | daemon/src/aap/codec.rs:618-633 | the back-reference in the request to yield names the score 301 |
| `SmartRouting.NewDeviceReadsBack` | daemon/src/aap/codec.rs:657-670 | the idle information for a new host reads back to its five pairs, the host name cut and all else whole |
| `SmartRouting.NewTipiReadsBack` | daemon/src/aap/codec.rs:673-687 | the introduction reads back to its five pairs, the host name cut and all else whole |
| `SmartRouting.HijackYields` | daemon/src/aap/codec.rs:690-693 | the request to yield is recognised by its receiver |
| `SmartRouting.MediaInfoYieldsIff` | daemon/src/aap/codec.rs:635-693 | a media-information body makes its receiver yield if and only if one of the two names, as cut, contains the ownership key |
| `SmartRouting.KeyAsNameYields` | daemon/src/aap/codec.rs:635-693 | an input where it happens: a player named like the key makes every informed host yield |
| `SettingsWire.CycleReadsBack` | daemon/src/aap/codec.rs:425-435 | a cycle comes back with the same modes in canonical order, hence unchanged iff it was canonical |
| `SettingsWire.FrameReadsBack` | daemon/src/aap/codec.rs:711-760 | every valid setting decodes from its own frame to what the accessory echoes |
| `SettingsWire.SettingRoundTripIff` | daemon/src/aap/codec.rs:711-760 | a setting survives the wire if and only if it is not a cycle out of canonical order |
| `SettingsWire.EchoConfirmsIff` | daemon/src/store.rs:309-361 | written, echoed and judged, a setting is confirmed if and only if it survives the wire, otherwise a mismatch |
| `SettingsWire.TakenCycleIsCalledMismatch` | daemon/src/store.rs:309-361 | an input where it happens: noise cancelling then off is accepted, taken and echoed, and called a mismatch |
| `SettingsWire.ReportIff` | daemon/src/aap/codec.rs:342-435 | five octets report a typed setting if and only if they say what a write of it says, the modes of a cycle in canonical order and not empty |
| `SettingsWire.ReportReadsBack` | daemon/src/aap/codec.rs:355-420 | a typed report that says nothing known, or is too long, is kept raw |
| `OuiHwdb.ParseHwdb` | daemon/src/rejoin.rs:930-961 | one pass finds exactly the OUIs with a whole-OUI match line followed only by match lines, then only properties, up to one naming Apple |
| `OuiHwdb.NextCurrent` | daemon/src/rejoin.rs:937-957 | which match lines are still open after a line |
| `OuiHwdb.NextListed` | daemon/src/rejoin.rs:946-953 | a property line adds exactly the open match lines when it names Apple |
| `OuiLines.WholeOuiIff` | daemon/src/rejoin.rs:904-945 | a line matches a whole OUI if and only if it is the key, that OUI in six digits of either case, a star, and at most blanks |
| `OuiLines.NamesAppleIff` | daemon/src/rejoin.rs:899-953 | a line names Apple if and only if it is an indented vendor property with the name `Apple, Inc.` in any case between blanks |
| `OuiLines.AppleVendorIff` | daemon/src/rejoin.rs:899-901 | a vendor is Apple if and only if it is that name in any case with any blanks around |
| `OuiLines.HexOuiIff` | daemon/src/rejoin.rs:904-910 | six digits are read as an OUI if and only if they are that OUI printed, in either case |
| `LineReader.Reader.ReadLine` | daemon/src/ctl_server.rs:150-184 | the outcome and what is left depend on the bytes only, not on how they were cut into pieces; a line never exceeds 65536 bytes |
| `LineReader.Reader.Consume` | daemon/src/ctl_server.rs:179-179 | consuming takes exactly that many bytes off the stream |
| `LineReader.LinesArriveIff` | daemon/src/ctl_server.rs:138-184 | the lines sent are the lines read if and only if each fits and holds no newline |
| `Supervisor.Supervisor.constructor` | daemon/src/aap/session.rs:448-519 | a new supervisor is idle, unlinked and unidentified |
| `Supervisor.Supervisor.Take` | daemon/src/aap/session.rs:565-619 | one step of the supervisor or of a worker changes everything exactly as the transition `Step` says, and at the end of a wake the queued side effects are taken |
| `Supervisor.Supervisor.HandleLink` | daemon/src/aap/session.rs:621-759 | a link event informs the machines in order and moves link, generation, dial and store |
| `Supervisor.Supervisor.Identified` | daemon/src/aap/session.rs:623-656 | a changed identity takes all authority away before it is recorded |
| `Supervisor.Supervisor.TakeIdentity` | daemon/src/aap/session.rs:645-653 | the new identity reaches both machines and the store |
| `Supervisor.Supervisor.WentUp` | daemon/src/aap/session.rs:707-726 | every machine hears it in order, and only a real false-to-true observation begins a period and arms the automatic dial |
| `Supervisor.Supervisor.WentDown` | daemon/src/aap/session.rs:735-757 | rejoin, auto-connect and ownership hear of it, then the link is lost |
| `Supervisor.Supervisor.Cut` | daemon/src/aap/session.rs:748-756 | losing the link disarms the dial, bumps the generation unless nothing was known, and drops the socket |
| `Supervisor.Supervisor.Drop` | daemon/src/aap/session.rs:761-784 | a dropped socket reaches the store, the ownership machine and ear media, and a yielded card is put back while the device is there |
| `Supervisor.Supervisor.Stop` | daemon/src/aap/session.rs:794-803 | suppression disarms and drops, and nothing rearms it but an edge or a command |
| `Supervisor.Supervisor.TellHandoff` | daemon/src/aap/session.rs:1647-1675 | an event reaches the ownership machine and its side effects wait in the queue, in order |
| `Supervisor.Supervisor.TellEar` | daemon/src/aap/session.rs:1689-1729 | an event reaches ear media with whether audio goes to the AirPods |
| `Supervisor.Supervisor.HearPlayer` | daemon/src/aap/session.rs:1731-1743 | a reading is remembered and reaches ear media, then the ownership machine |
| `Supervisor.Supervisor.SetRoute` | daemon/src/aap/session.rs:1870-1886 | a route is asked for only with card switching on and the device known |
| `Supervisor.Supervisor.FlushOne` | daemon/src/aap/session.rs:1746-1822 | one queued side effect is carried out: a route, a write, or nothing without socket or address; a failed write suppresses |
| `Supervisor.Supervisor.HandlePacket` | daemon/src/aap/session.rs:1165-1330 | a packet feeds store, readback, panel, rejoin, ownership or ear media |
| `Supervisor.Supervisor.HearOwnership` | daemon/src/aap/session.rs:1211-1226 | an ownership report reaches the machine, and the card follows it while handoff is on |
| `Supervisor.Supervisor.HandleCommand` | daemon/src/aap/session.rs:936-1016 | a command runs only if still current, and interrupts both machines before it waits |
| `Supervisor.Supervisor.Overrule` | daemon/src/aap/session.rs:1940-1952 | a take-over or yield of the user's needs a socket and an address, and then reaches the machine |
| `Supervisor.Supervisor.Switch` | daemon/src/aap/session.rs:1954-1970 | switching handoff reaches both machines, and off gives a yielded card back |
| `Supervisor.Supervisor.HandleSent` | daemon/src/aap/session.rs:1030-1081 | a write that went out is requested and gets its deadline; one that failed suppresses |
| `Supervisor.Supervisor.VerifyTimers` | daemon/src/aap/session.rs:1103-1123 | the readback timers run in order and may wait for BlueZ |
| `Supervisor.Supervisor.LeaveVerify` | daemon/src/aap/session.rs:1113-1116 | the budget is checked with the clock reading the pass began with |
| `Supervisor.Supervisor.Settle` | daemon/src/aap/session.rs:1084-1090 | the window's end clears its timer and the budget, judges, and tells the ownership machine that the opening has settled |
| `Supervisor.Supervisor.Forsake` | daemon/src/aap/session.rs:1092-1100 | giving up clears debounce and budget |
| `Supervisor.Supervisor.HandleFresh` | daemon/src/aap/session.rs:819-852 | the awaited read of BlueZ lets a command, a reopening or a dial go on, or ends it |
| `Supervisor.Supervisor.HandleProceed` | daemon/src/aap/session.rs:903-930 | what waited re-checks its authority after draining the link events |
| `Supervisor.Supervisor.Dial` | daemon/src/aap/session.rs:1393-1409 | a dial takes the one permission and captures the generation |
| `Supervisor.Supervisor.HandleOpening` | daemon/src/aap/session.rs:1421-1575 | each answer in the opening sequence advances, suppresses or cancels |
| `Supervisor.Supervisor.Reach` | daemon/src/aap/session.rs:1452-1466 | a connected socket opens the ownership machine's link and primes it with what already plays |
| `Supervisor.Supervisor.Become` | daemon/src/aap/session.rs:1577-1589 | promotion publishes the link and opens the readback window |
| `Supervisor.Supervisor.ShowLink` | daemon/src/aap/session.rs:2080-2119 | the panel shows rejoin first, keeps a shown sequence's reason and start, and publishes changes only |
| `Supervisor.Supervisor.TellRejoin` | daemon/src/aap/session.rs:1973-2034 | an event reaches the rejoin machine, its workers and the panel |
| `Supervisor.Supervisor.TellAuto` | daemon/src/aap/session.rs:2123-2185 | auto-connect is told of a pending rejoin before every event |
| `Supervisor.Supervisor.ActOnRejoin` | daemon/src/aap/session.rs:2010-2014 | a cancel zeroes the epoch and a connect spawns its worker |
| `Supervisor.Supervisor.HandleReport` | daemon/src/aap/session.rs:603-611 | a worker's outcome is heard once, by its own machine |
| `SupervisorSteps.RejoinFoldWork` | daemon/src/aap/session.rs:1973-2014 | the workers and the rejoin machine keep agreeing on the sequence that may connect |
| `SupervisorSteps.AutoFoldWork` | daemon/src/aap/session.rs:2123-2165 | so do those of auto-connect, but for a sequence a local connect retired |
| `SupervisorSteps.PublishShows` | daemon/src/aap/session.rs:2080-2119 | publishing makes the panel show the pending sequence and its connects |
| `SupervisorSteps.StepPaired` | daemon/src/handoff.rs:498-559 | among the side effects of one event every ownership write directly follows the switch of the card it needs |
| `SupervisorSteps.LinkOk` | daemon/src/aap/session.rs:621-759 | every link event keeps the invariant and moves the radio only as its kind allows |
| `SupervisorSteps.StepOk` | daemon/src/aap/session.rs:565-619 | every step keeps the whole invariant, the numbering of sequences and the rules of dial, write and deadline |
| `SupervisorRuns.EveryInputRuns` | daemon/src/aap/session.rs:565-619 | any inputs at any non-decreasing clock readings form a run |
| `SupervisorRuns.PartsRun` | daemon/src/aap/session.rs:1973-2185 | the events each of the five parts receives inside the supervisor form a run of that part, so its theorems hold here |
| `SupervisorRuns.OnePolicy` | daemon/src/aap/session.rs:698-705 | in every reachable state at most one of the two machines has a pending sequence |
| `SupervisorRuns.RejoinCallIsWanted` | daemon/src/aap/session.rs:2232-2261 | a rejoin worker calls connect only while its own sequence is pending and in flight |
| `SupervisorRuns.RejoinCallIsJustified` | daemon/src/aap/session.rs:1973-2261 | behind every call of a rejoin worker is a qualifying drop with no cancelling event up to the call itself |
| `SupervisorRuns.AutoCallIsWanted` | daemon/src/aap/session.rs:2194-2228 | a worker calls connect for the auto-connect sequence pending in flight if and only if no local connect has retired that sequence |
| `SupervisorRuns.PromotionIsUninterrupted` | daemon/src/aap/session.rs:1393-1589 | a socket is promoted only if no link loss, adapter loss or identity change was handled since its dial captured the generation |
| `SupervisorRuns.DialEndsIff` | daemon/src/aap/session.rs:1421-1431 | a link event handled during an opening leaves it standing if and only if it is none of those three |
| `SupervisorRuns.AutomaticDialsFollowEdges` | daemon/src/aap/session.rs:786-803 | automatic dials never outnumber the observed false-to-true edges of the link |
| `SupervisorRuns.BudgetIsLastWrite` | daemon/src/aap/session.rs:1030-1081 | a deadline is always ten seconds after the last write |
| `SupervisorRuns.VerifyingHasDeadline` | daemon/src/aap/session.rs:1030-1144 | whenever a key is verifying there is a deadline, ten seconds after the last write |
| `SupervisorRuns.ReopeningHasDeadlineIff` | daemon/src/aap/session.rs:1084-1144 | a standing debounce has a deadline ten seconds after the last write if and only if no readback window was finished since that write, and otherwise none |
| `SupervisorRuns.NoVerdictOutlivesItsDeadline` | daemon/src/aap/session.rs:1103-1144 | after any tick at or past the deadline no key is verifying, whatever links did meanwhile |
| `SupervisorRuns.PanelShowsSequence` | daemon/src/aap/session.rs:2080-2119 | the published link is reconnecting exactly while not connected with a sequence pending, shows that very sequence, and its attempt is the number of connects issued in it |
| `SupervisorRuns.ShownStaysTheSame` | daemon/src/aap/session.rs:2087-2103 | a sequence keeps the reason and start it was first shown with |
| `SupervisorRuns.ReconnectKeepsItsReason` | daemon/src/aap/session.rs:2087-2103 | while one sequence is pending the published reason and start never change |
| `SupervisorRuns.CommandCrossesNoBoundary` | daemon/src/aap/session.rs:854-870 | a command that is current when it runs saw no change of address, model, connection or link since it was queued, at any moment, and no link end |
| `SupervisorRuns.WriteIsStillCurrent` | daemon/src/aap/session.rs:1030-1081 | a write is recorded in the very store its command was checked against, before its deadline's check |
| `SupervisorRuns.SideEffectsInOrder` | daemon/src/aap/session.rs:1746-1822 | what the ownership machine asked for over a whole run is what was attended to, then what is under way, then what is queued: nothing lost, repeated or overtaken |
| `SupervisorRuns.OwnershipWriteFindsTheCard` | daemon/src/aap/session.rs:1774-1837 | whenever an ownership write goes out the card has been asked to point where it says, whatever was handled in between |
| `SupervisorLimits.SignalAloneEndsNoDial` | daemon/src/aap/session.rs:668-706 | a run in which the Disconnected signal is handled during a dial and the socket is promoted all the same |
| `SupervisorLimits.LateReopening` | daemon/src/aap/session.rs:1084-1144 | a run in which a battery packet closes the window after a write and the link is reopened past the deadline with no key verifying |
| `SupervisorLimits.RetiredWorkerCalls` | daemon/src/autoconnect.rs:503-514 | a run in which an auto-connect worker calls connect after a local connect retired its sequence |
| `SupervisorEvents.StepTells` | daemon/src/aap/session.rs:565-1591 | every input, in the phase it is handled in, tells each of the five parts exactly the events it carries, at its clock reading, and no part anything else |
| `SupervisorRouting.PartsHear` | daemon/src/aap/session.rs:565-2185 | over every run each part's log is the inputs' events in their order: none lost, repeated, late or invented |
| `SupervisorRouting.EventHasInput` | daemon/src/aap/session.rs:1972-2034 | every event the rejoin machine was told has the input that carried it, at that reading |
| `SupervisorRouting.HandledDropReconnects` | daemon/src/aap/session.rs:668-706 | a handled `Disconnected` is the next event of the rejoin machine, with its reason, facts and lid, and leaves a reconnect pending if and only if the history makes it start one |
| `SupervisorRouting.NetFollowsEvents` | daemon/src/aap/session.rs:621-759 | identity and link are what the handled link events made them |
| `SupervisorRouting.EarActsOnOwnAudio` | daemon/src/aap/session.rs:1689-1729 | ear media is told to act if and only if the link is up, the card is not away, and handoff is off or the history has this host owning the audio |
| `SupervisorWorkers.WorkersConserved` | daemon/src/aap/session.rs:2194-2261 | for each sequence of either machine the connects asked for are the workers still out and the outcomes heard: none lost, none heard twice |
| `SupervisorWorkers.RejoinHasItsWorker` | daemon/src/aap/session.rs:2232-2261 | a rejoin sequence in flight has exactly one worker, which alone has not been heard |
| `SupervisorWorkers.AutoHasItsWorker` | daemon/src/aap/session.rs:2194-2228 | so has one of auto-connect |
| `SupervisorWorkers.RejoinCallsIff` | daemon/src/aap/session.rs:2232-2261 | a rejoin worker whose checks are over calls connect if and only if its sequence is the one pending in flight at that step |
| `SupervisorWorkers.AutoCallsIff` | daemon/src/aap/session.rs:2194-2228 | an auto-connect worker calls if its sequence is in flight, and unless a local connect retired it only then |
| `SupervisorWorkers.RejoinConnectStarts` | daemon/src/aap/session.rs:2232-2261 | a connect starts one worker, which checks if identity and right are there and else ends at once with that reason |
| `SupervisorWorkers.AutoConnectStarts` | daemon/src/aap/session.rs:2194-2228 | so does one of auto-connect |
| `SupervisorWorkers.OutcomeIsHeard` | daemon/src/aap/session.rs:603-611 | what a call ends with is what its machine hears, for the sequence it was made for |
| `SupervisorHistory.SocketIff` | daemon/src/aap/session.rs:761-803 | there is a socket if and only if an opening was answered to its end and no loss, change, failure or reopening came since |
| `SupervisorHistory.DialIsArmedIff` | daemon/src/aap/session.rs:786-803 | a dial is allowed, of this kind and from this reading, if and only if an edge or a reopening allowed it and nothing since used it up, took it away or replaced it |
| `SupervisorHistory.CardIsAwayIff` | daemon/src/aap/session.rs:1870-1886 | the card points away from the AirPods if and only if the queue or an ownership report turned it and nothing since turned it back |
| `SupervisorHistory.BudsFollow` | daemon/src/aap/session.rs:2040-2064 | the addresses in view are the accessory's last two different ones since the link came up |
| `SupervisorHistory.DropShowsReason` | daemon/src/aap/session.rs:2067-2119 | a drop that starts a reconnect is shown at once, as a switch of buds at most 15 s after one, else as a lost link after a timeout, else as taken over |
| `SupervisorHistory.AutoShowsItself` | daemon/src/aap/session.rs:2087-2103 | a sequence of auto-connect is shown as auto-connect's |
| `SupervisorProgress.RunGoesOn` | daemon/src/aap/session.rs:565-619 | every run can go on with every story of inputs that starts no earlier, so what the stories below reach is reached from every reachable state they start in |
| `SupervisorProgress.SeenLinkOpens` | daemon/src/aap/session.rs:1393-1589 | a link of a known device seen to come up is dialled at the next tick after 0.8 s, and opened and published once each stage is answered |
| `SupervisorProgress.ReconnectOpens` | daemon/src/aap/session.rs:872-930 | a reconnect that stays current drops the socket and opens a new one |
| `SupervisorProgress.WrittenSettingIsJudged` | daemon/src/aap/session.rs:1030-1144 | a setting written on an open link, read back in time over a reopened one and reported or not before the battery status, is confirmed if and only if that report has the value asked for, a mismatch if another, unreported if there is none |
| `SupervisorProgress.TickDials` | daemon/src/aap/session.rs:1331-1391 | a tick with no readback due begins a dial if and only if the link is up without a socket and the dial is due |
| `SupervisorProgress.AnswerAdvances` | daemon/src/aap/session.rs:872-1575 | every answer to a wait, good or bad, brings the supervisor closer to its main loop, nine answers at most |
| `SupervisorProgress.WaitStands` | daemon/src/aap/session.rs:872-1575 | nothing but the answer or a handled link event ends or moves a wait |
| `SupervisorProgress.WriteBeginsIff` | daemon/src/aap/session.rs:936-1081 | a command is written if and only if it is a current write with a socket and, for settings and names, a supported model and a valid setting |
| `SupervisorProgress.QueuedIsAsked` | daemon/src/aap/session.rs:1647-1676 | every side effect that needs doing is queued as often as it was asked for, and nothing else |
| `SupervisorProgress.NothingIsLeftQueued` | daemon/src/aap/session.rs:1746-1822 | whatever the main loop takes up, and the end of every wait, leaves nothing queued that is not being worked off |

## Left out

- Supervisor.Supervisor.FlushOne: does not model the wait of at most a few seconds until the card has settled, nor how long stopping players are waited for; both end as inputs.
- Supervisor.Supervisor.SetRoute: records the route asked for; whether and when the sound server carries it out (`daemon/src/audio_route.rs`) is not modelled.
- Supervisor.Supervisor.HandlePacket: does not model the packet times behind the watchdogs; the decision to give a link up is an input.
- Supervisor.Supervisor.HandleOpening: does not model the choice of the set-features variant, resends and their counters; each stage has one answer.
- Supervisor.Supervisor.Switch: takes saving the configuration file as done; the error answers before it change nothing.
- Retries of the audio claim against BlueZ, which run beside the supervisor and report nothing back to it.
- Battery, ear, lid and scan fields of the snapshot, their sources and ages; updates to them are one update that touches nothing here.
- Store.Store.Identify: does not model the device's marketing name, firmware and serial number, which no decision reads.
- Codec.Decode: keeps the text of a metadata packet undecoded, because its lossy conversion is the standard library's.
- LineReader.Reader.ReadLine: returns the bytes of a line, because the lossy conversion to text is the standard library's.
- OuiHwdb.ParseHwdb: takes the lines of the file as given; splitting text into lines and the choice between registry files are not modelled.
- Full result channels: a worker's immediate answer that finds its channel full is lost in the daemon; here it always arrives.
- A rejoin or page whose outcome times out is an outcome like any other.
- D-Bus, BlueZ, PipeWire, MPRIS, sockets and the async runtime: sources of events and sinks of actions.
- The BLE scanner and its key files, the audio profile switch, persistence, configuration and the JSON forms.
- Small finite facts: retry delays of the scanner, fault classification, model tables, static packets.
- Wrap-around of 64-bit counters and clocks that go backwards.
