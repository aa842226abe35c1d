# Verified model of the core

`twcore` forwards requests to model providers. An upgrade must not cut them off,
so a running core hands its listeners, its state and its lock to the next one
while it finishes what is in hand. This project models that hand-over and a few
other parts whose correctness is easy to get wrong, and proves what they are for.

`dafny verify dfyconfig.toml` checks all of it.

## How it is built

**The hand-over.** `protocol.dfy` holds the conversation as two step functions,
one for the core that leaves and one for its successor, with the deadlines in
milliseconds. `oldcore.dfy`, `armed.dfy` and `successor.dfy` are the imperative
code: `give`, the `armed` loop, the drain, `approach`, `listeners`, `commit` and
the takeover branch of `cmd_serve`. What the surroundings answer is a script, so
a contract there holds for every behaviour of link, peer and clock. `Drive`,
`NewDrive` and `Stand` are the automata driven by such a script, and each method
is proved to end exactly where they end on the answers its link gave, with exactly
their messages sent. What these runs mean is proved about the functions.
`takeover.dfy` composes one old core with any number of successive candidates
over FIFO links and an explicit clock, with a crash possible at every step, and
proves the safety claims from one inductive invariant. `exactness.dfy` gives the
runs that break them outside the assumptions, so the assumptions are exact.

**What survives a hand-over.** `lockfile.dfy` is the lock and the draining marks.
`history.dfy` and `history_exact.dfy` follow chains of any length and say who
writes the request history, and when that is one process. `request_ids.dfy` does
the same for request ids. `recorder.dfy` is the queue and the recorder of a core
whose predecessors still write: a recorder is a fold over events that knows which
requests are open, and settles an ending only if its request is. `runs.dfy` holds
what is true of runs of any transition system, `seqs.dfy` and `options.dfy` what
several parts share.

**The rest.** `breaker.dfy` is the circuit breaker; `eventstream.dfy` and
`eventsource.dfy` turn AWS frames into server-sent events and read them back;
`segments.dfy` cuts a memory image into data segments; `template.dfy` fills paths;
`hexmask.dfy` masks keys; `bedrock.dfy` builds and reads addresses;
`credential.dfy` decides which credentials are accepted and what is then sent.
`bytes.dfy` and `percent.dfy` are shared by them. A byte is written as the
character of that number.

## What does not hold

These are properties one would expect of the code and that it does not have. Each
is shown by a concrete run or input, next to the exact condition under which it
holds.

- The hand-over needs delays under five seconds. With five, a commit can arrive
  as the old core gives up; it then hands over to somebody else and exits, and
  the first successor takes its disappearance for permission
  (`Exactness.SlowLinksBreakIt`). A start that races the successor of a core that
  just died also makes two primaries (`Exactness.RacingStartBreaksIt`).
- A core that hands over before its own history is open prunes its own draining
  mark when it opens it (`bin/twcore/src/lockfile.rs:155-176` filters out the
  calling process). If its successor then dies, the next start writes the history
  beside it (`HistoryExact.EarlyHandoverBreaksIt`). A successor that dies between
  claiming the lock and writing the mark has the same effect
  (`HistoryExact.TornCommitBreaksIt`), and so has a start that finds the lock of a
  core that drained before its successor claimed it
  (`HistoryExact.RacingStartBreaksIt`).
- Request ids of two processes can be equal in five ways, and are unique exactly
  when none of them happens (`RequestIds.IdsUniqueExactlyWhen`). A candidate
  serves and fails before a mark tells of its ids, and the next one starts a gap
  above almost the same number (`RequestIds.LostIdsComeAgain`). A fresh start
  resumes above the largest mark of a core that lives, when the core marked last
  has died (`RequestIds.UnseenIdsComeAgain`). A fresh start finds no mark of a core
  that still works, because its successor died between claiming the lock and
  writing the mark, or because it swept out its own, and resumes from the rows;
  both then write the same row (`RequestIds.HiddenIdsComeAgain`). A core is killed
  with requests that have no row yet, and the next start hands their ids out again
  (`RequestIds.UnrecordedIdsComeAgain`). A core uses up the gap
  (`RequestIds.ManyIdsMeet`). Along a line of hand-overs that keep within the gap
  ids are unique whatever else happens (`RequestIds.AncestorsNeverCollide`).
- When the queue of a waiting recorder overflows, a request whose start was
  dropped has no row, and if it ends after the wait it is never settled
  (`Recorder.OverflowLosesSettlement`, exactly `Recorder.SettledExactlyWhen`).
  Opening later is opening at once exactly when no local answer and no start of a
  request that ends was dropped (`Recorder.DeferredIsImmediate`).
- An event frame without a name is written as `event: ` and reads back as a
  `message`; a CR in a payload or a line break in a name does not survive either
  (`EventSource.RoundTripsExactlyWhen`).

## Model

| member | source | states |
|---|---|---|
| Protocol.OldStepKeepsOk | bin/twcore/src/handover.rs:315-354 | every step of the old side keeps: renewals held exactly from the request for the listeners on, accepting until the hand-over is final, strikes never above the maximum |
| Protocol.NewStepKeepsOk | bin/twcore/src/main.rs:1172-1193 | every step of the new side keeps: it renews only as the primary, and whoever sent a commit accepts on every listener |
| Takeover.StepKeeps | bin/twcore/src/handover.rs:285-634 | every step of the composed system, crashes and ticks included, keeps the invariant that ties both phases, the messages in flight and the deadlines together |
| Takeover.CommitIsNear | bin/twcore/src/handover.rs:596-624 | a candidate that holds the listeners commits, or is gone, before the old core's own limit can pass |
| Takeover.AtMostOnePrimary | bin/twcore/src/handover.rs:1028-1045 | over any run, attempts and crashes in any number: one primary at most |
| Takeover.AtMostOneRenewer | bin/twcore/src/handover.rs:542-551 | over any run, one live process at most may renew tokens |
| Takeover.RenewingBarsSuccessors | bin/twcore/src/handover.rs:329-341 | while the old core lives and renews, no candidate can still commit: the hold is released only when the attempt cannot succeed any more |
| Takeover.AlwaysServed | bin/twcore/src/handover.rs:637-643 | somebody always accepts, before, during and after a hand-over, unless a successor crashed; after the old core drained and ended as well |
| Takeover.AcknowledgedServesOn | bin/twcore/src/handover.rs:599-608 | wherever a run leads from the acknowledgement, the successor it was sent to accepts unless it crashed |
| Takeover.CommittedServesOn | bin/twcore/src/main.rs:1182-1191 | from its commit on a successor accepts on every listener until it crashes, whatever becomes of the old core |
| Takeover.CommitIsThePoint | bin/twcore/src/handover.rs:599-608 | the hand-over becomes final only by sending the acknowledgement, to a live successor that already accepts on every listener |
| Takeover.AbandonedServesOn | bin/twcore/src/handover.rs:336-348 | however an attempt ends before that, the old core is armed again, renews, has its control plane open and accepts; one strike more at most |
| Takeover.NoLateFailure | bin/twcore/src/handover.rs:596-624 | after the listeners were sent an attempt fails only by the successor's crash or its failing to serve them in time |
| Takeover.NoCommitIsRefused | bin/twcore/src/handover.rs:1028-1045 | no successor that committed is turned away by a living old core |
| Takeover.RoomBesideDraining | bin/twcore/src/main.rs:804-829 | beside a core that only drains, with nobody left who claims its place, one more primary and renewer is the only one |
| Exactness.SafeExactlyWhen | bin/twcore/src/handover.rs:45-62 | never two primaries, if and only if delays stay under five seconds and no unrelated start races a successor |
| Exactness.SlowLinksBreakIt | bin/twcore/src/handover.rs:1028-1045 | with delays of five seconds or more, a run with two primaries |
| Exactness.RacingStartBreaksIt | bin/twcore/src/main.rs:804-819 | with a racing start, a run with two primaries |
| Exactness.Complete | bin/twcore/src/handover.rs:445-624 | from every armed core with strikes to spare the next attempt can complete |
| Exactness.HandoverCanComplete | bin/twcore/src/handover.rs:445-624 | a first hand-over can complete, so safety is not bought by never finishing |
| OldCore.Core.Give | bin/twcore/src/handover.rs:445-485 | ends where the old side's automaton ends on the answers of its link and sends exactly its messages; `NotASuccessor` exactly when the first thing heard is no greeting; a refused greeting is answered by falling back exactly when asked to next |
| OldCore.Core.GiveControlPlane | bin/twcore/src/handover.rs:486-504 | a control port that cannot be copied ends the attempt unsent; otherwise the control plane is paused before it is sent |
| OldCore.Core.GiveFirstSnapshot | bin/twcore/src/handover.rs:505-518 | the first snapshot carries an id taken for it |
| OldCore.Core.AwaitAnswer | bin/twcore/src/handover.rs:520-540 | the loop drops exactly the messages that are neither a request for the listeners nor one to fall back |
| OldCore.Core.AwaitWanting | bin/twcore/src/handover.rs:520-540 | waits without a limit; a strike follows exactly a break soon after the snapshot |
| OldCore.Core.GiveListeners | bin/twcore/src/handover.rs:542-551 | renewals are held and the second snapshot carries a new id before the listeners go out |
| OldCore.Core.GiveSockets | bin/twcore/src/handover.rs:553-594 | a listener that cannot be copied ends the attempt with a strike and nothing sent; otherwise the listeners go out |
| OldCore.Core.AwaitCommitment | bin/twcore/src/handover.rs:596-624 | committed only if a commit was received; falls back exactly if asked to |
| OldCore.Core.Acknowledge | bin/twcore/src/handover.rs:599-608 | committed exactly when the acknowledgement could be sent |
| OldCore.Core.RefuseWith | bin/twcore/src/handover.rs:626-634 | says `Refused`; falls back exactly if that is the next thing heard, else waits again without a strike |
| OldCore.DriveKeepsOk | bin/twcore/src/handover.rs:445-634 | the old side's invariant holds where any script leads |
| OldCore.CommittedSends | bin/twcore/src/handover.rs:445-608 | an attempt that commits has sent the control plane, two snapshots with consecutive ids, the listeners and the acknowledgement, in this order and nothing else |
| OldCore.CommittedHears | bin/twcore/src/handover.rs:520-608 | the acknowledgement is the last thing of such an attempt, a received commit comes right before it, a request for the listeners earlier |
| OldCore.AttemptEnds | bin/twcore/src/handover.rs:315-354 | every attempt ends waiting again with one strike more at most, or retiring because it was asked to, or acknowledged |
| OldCore.RetiresExactlyWhen | bin/twcore/src/handover.rs:520-634 | past the greeting, an attempt ends retiring if and only if the last thing heard is a request to fall back |
| OldCore.GreetingDecides | bin/twcore/src/handover.rs:473-484 | on the script alone: a peer is given anything if and only if it greets in this version with a strike to spare; what is refused and what is no greeting |
| OldCore.RefusedEnds | bin/twcore/src/handover.rs:626-634 | a refused peer's next message alone decides between retiring and waiting again |
| OldCore.WantingEnds | bin/twcore/src/handover.rs:520-540 | the first message that is not ignored decides: on with the hand-over, retiring, or waiting again, with a strike exactly within 35 seconds of the snapshot |
| OldCore.CommitmentEnds | bin/twcore/src/handover.rs:596-624 | a commit and its acknowledgement, retiring on request, or a strike |
| OldCore.StrikeExactlyWhen | bin/twcore/src/handover.rs:486-624 | an ending counts a strike, if and only if the core waits again, past the greeting and the refusal, and the break is not a late one |
| OldCore.RefusedOnceWornOut | bin/twcore/src/handover.rs:474-485 | with the strikes used up a greeting gets a refusal at most, whatever follows |
| ArmedLoop.ArmClock.Expired | bin/twcore/src/handover.rs:125-133 | relaunches at most once, and only when it can |
| ArmedLoop.Attempt | bin/twcore/src/handover.rs:315-354 | one accepted peer, cleaned up after: the core is left as the automaton's run on the peer's script leaves it, with a strike more exactly if it was abandoned with one |
| ArmedLoop.Armed | bin/twcore/src/handover.rs:285-392 | the loop ends, or goes on, exactly as the fold over its wakes says, with that core, those strikes, relaunches and rearmings |
| ArmedLoop.StandKeeps | bin/twcore/src/handover.rs:285-392 | over any run of the loop: while it goes on the core serves on; handed over exactly when acknowledged; otherwise it still accepts; one relaunch per arming at most |
| ArmedLoop.EndsOnItsWake | bin/twcore/src/handover.rs:285-392 | a wake adds one strike at most; handing over takes a peer that sent a commit and got everything; calling off and giving up take a deadline that has passed |
| ArmedLoop.DueExactly | bin/twcore/src/handover.rs:285-392 | over any run that goes on, the deadline is one period, as last armed, after the latest of the rearmings, the relaunches and the ends of the abandoned attempts |
| ArmedLoop.DueAtFirst | bin/twcore/src/handover.rs:115-123 | with none of these it is where the arming put it |
| ArmedLoop.EndsAfterAFullWait | bin/twcore/src/handover.rs:351-372 | it is called off, or given up, only after a full period with none of these, and called off at the first look after it |
| ArmedLoop.RelaunchesCounted | bin/twcore/src/handover.rs:351-369 | over any run that goes on, every deadline that passed was a relaunch, and each rearming counts |
| ArmedLoop.SpentExactly | bin/twcore/src/handover.rs:125-133 | the app counts as relaunched, if and only if it was since the last rearming |
| ArmedLoop.WornOutStays | bin/twcore/src/handover.rs:474-485 | after the last strike no peer is handed anything, over any run |
| ArmedLoop.Drained.Tick | bin/twcore/src/handover.rs:155-175 | reports a count exactly when it changed; done exactly after three calm ticks in a row |
| ArmedLoop.Drain | bin/twcore/src/handover.rs:637-699 | stops accepting, gives the lock up, goes on until it was quiet for three ticks or the limit passed and not longer, and then does exactly what `Told` lists, the wait for its own history before `Bye` included |
| ArmedLoop.AwaitHistory | bin/twcore/src/handover.rs:691-696 | looks at the core's own history until it is open or the limit has passed, and not longer |
| ArmedLoop.ToldSettles | bin/twcore/src/handover.rs:665-690 | among them every settlement of the drain and every late one, once and in order |
| ArmedLoop.SaidCounts | bin/twcore/src/handover.rs:155-175 | every change of the number of requests in flight, the first count included, once and in order |
| ArmedLoop.ToldEndsInBye | bin/twcore/src/handover.rs:690-697 | a count of zero, then nothing but the wait, which ends with the history open or at its limit, then `Bye`, which comes nowhere else |
| Lockfile.DataDir.Acquire | bin/twcore/src/lockfile.rs:30-45 | refused exactly when the file names another living process |
| Lockfile.DataDir.Claim | bin/twcore/src/lockfile.rs:49-52 | names itself whoever was named |
| Lockfile.DataDir.Draining | bin/twcore/src/lockfile.rs:155-162 | the marks of other living processes that are not stale |
| Lockfile.DataDir.MarkDraining | bin/twcore/src/lockfile.rs:165-170 | one mark for that process, the standing marks of others kept, the rest gone |
| Lockfile.DataDir.PruneDraining | bin/twcore/src/lockfile.rs:173-176 | keeps exactly the standing marks of others |
| Lockfile.LockFile.Drop | bin/twcore/src/lockfile.rs:83-104 | removes the file exactly when owned, still naming this process, and no mark of another living process stands |
| Successor.NewDriveKeepsOk | bin/twcore/src/handover.rs:876-1045 | the new side's invariant holds where any script leads |
| Successor.PrimaryExactlyWhen | bin/twcore/src/main.rs:1153-1193 | it becomes the primary, if and only if it got the second snapshot and then the listeners, served them in time, and its commit counted |
| Successor.ControlEnds | bin/twcore/src/handover.rs:892-933 | with the control plane and then a snapshot it prepares, its ids a gap above; without the snapshot it starts exactly if the holder ends |
| Successor.NoControl | bin/twcore/src/handover.rs:892-914 | what comes of silence, of a closed link and of any other first message, on the script alone |
| Successor.Incoming.Import | bin/twcore/src/handover.rs:986-996 | `ids_from` only grows and ends a gap above the snapshot's number |
| Successor.Incoming.Approach | bin/twcore/src/handover.rs:876-891 | greets and runs the new side's automaton on the answers up to where it prepares, starts the ordinary way or gives up |
| Successor.Incoming.AwaitControlPlane | bin/twcore/src/handover.rs:892-914 | silence means no core is armed, a closed link a wait for its end, anything else but the control plane a request to fall back |
| Successor.Incoming.AwaitSnapshot | bin/twcore/src/handover.rs:915-933 | the first snapshot is imported; without one it waits for the holder to end |
| Successor.Incoming.FallBack | bin/twcore/src/handover.rs:938-946 | asks the core to drain, then may start exactly when the holder has ended in time |
| Successor.Incoming.AwaitEnd | bin/twcore/src/handover.rs:949-955 | starts the ordinary way exactly when the holder's process has ended in time |
| Successor.Incoming.Listeners | bin/twcore/src/handover.rs:1000-1022 | listeners come only after a second snapshot that was imported, `ids_from` a gap above it |
| Successor.Incoming.AwaitSecond | bin/twcore/src/handover.rs:1005-1022 | the second snapshot and then the listeners were the next two things heard |
| Successor.Incoming.Commit | bin/twcore/src/handover.rs:1028-1045 | succeeds exactly on an acknowledgement, other messages ignored, or when the predecessor has ended |
| Successor.Incoming.TakeOver | bin/twcore/src/main.rs:1153-1204 | succeeds exactly when the automaton becomes the primary, which takes serving in time and the second snapshot; the lock, the marks and the renewals change only then |
| History.StepKeeps | bin/twcore/src/main.rs:804-836 | every start, join, commit, claim, mark, opening, end and crash keeps the chain's invariant |
| History.AtMostOneWriter | bin/twcore/src/record.rs:194-234 | along chains of any length one live process at most has the history open, and nothing older than it lives |
| HistoryExact.SafeExactlyWhen | bin/twcore/src/main.rs:1195-1204 | one writer, if and only if no start races a successor, and either no process ends but by finishing its drain, or cores hand over only with their history open and none dies between claiming the lock and writing the mark |
| HistoryExact.TornCommitBreaksIt | bin/twcore/src/main.rs:1195-1204 | a crash between claim and mark: a run with two writers |
| HistoryExact.EarlyHandoverBreaksIt | bin/twcore/src/lockfile.rs:155-176 | a core that prunes its own mark: a run with two writers |
| HistoryExact.RacingStartBreaksIt | bin/twcore/src/lockfile.rs:30-45 | a start that takes a drained core's lock before its successor does: a run with two writers |
| HistoryExact.WaitsCoverExactlyWhen | bin/twcore/src/main.rs:823-829 | a process waits for every older process that still lives, if and only if cores hand over only with their history open, none dies between claiming the lock and writing the mark, and no start races a successor |
| HistoryExact.FreshStartsWaitExactlyWhen | bin/twcore/src/main.rs:953-987 | a fresh start waits for every core that still drains and does not open at once, if and only if the history has one writer |
| RequestIds.StepKeeps | bin/twcore/src/handover.rs:68-74 | within the gap, every step keeps each successor's range above its predecessor's, whoever fails, ends, is overlooked or starts afresh, and each living core's mark equal to its successor's `ids_from` |
| RequestIds.AncestorsStayBelow | bin/twcore/src/handover.rs:986-996 | every number an ancestor can reach lies below where a descendant starts |
| RequestIds.AncestorsNeverCollide | bin/twcore/src/main.rs:830-836 | within the gap, whatever is lost, overlooked or unseen, an ancestor's ids lie below `ids_from` and below every id of each descendant, orphan restarts included |
| RequestIds.IdsUniqueExactlyWhen | bin/twcore/src/main.rs:823-936 | over all runs of hand-overs, failures and starts from marks or from rows, no two processes hand out the same id, if and only if: no ids are lost with a process or a candidate given up; no start is blind to the core marked last; none overlooks a living process; none finds fewer rows than the ended handed out ids; and no core uses up the gap |
| RequestIds.KeptByStep | bin/twcore/src/main.rs:823-936 | when none of that happens, every step but a start without marks keeps what makes ids unique |
| RequestIds.KeptByFresh | bin/twcore/src/record.rs:326-337 | and so does a start that finds no mark and resumes from the rows |
| RequestIds.LostIdsComeAgain | bin/twcore/src/handover.rs:986-996 | a candidate that served and failed: a run in which the next one repeats its ids |
| RequestIds.UnseenIdsComeAgain | bin/twcore/src/main.rs:934-936 | the core marked last has died: a run in which an orphan repeats its successor's ids |
| RequestIds.HiddenIdsComeAgain | bin/twcore/src/main.rs:1195-1204 | a successor dies between claim and mark: a run in which the next start and the core it overlooks write the same row |
| RequestIds.UnrecordedIdsComeAgain | crates/tw-store/src/db.rs:651-659 | a core dies before a request has its row: a run in which the next start repeats its id |
| RequestIds.ManyIdsMeet | bin/twcore/src/handover.rs:68-74 | a core hands out more ids than the gap: a run in which it reaches those of its successor |
| Recorder.NewestFits | bin/twcore/src/record.rs:295-312 | what is kept is a suffix that fits both limits, and no longer suffix does |
| Recorder.NewestIs | bin/twcore/src/record.rs:295-312 | a suffix that fits while one longer by an event does not is what is kept |
| Recorder.Queue.MakeRoom | bin/twcore/src/record.rs:298-305 | the loop drops the oldest, exactly as many as the new event needs |
| Recorder.Queue.Push | bin/twcore/src/record.rs:295-312 | keeps the queue equal to the longest fitting suffix of all that was pushed, with exact bytes and exact count of what was dropped |
| Recorder.Queue.Drain | bin/twcore/src/record.rs:318-321 | hands out what is kept, in order, and forgets nothing of the count |
| Recorder.Store.OnEvent | crates/tw-store/src/recorder.rs:784-798 | an ending settles and writes its row exactly if the request is open; a start opens it, a report is kept with it, a local answer only writes |
| Recorder.Store.OnEvents | crates/tw-store/src/recorder.rs:323-955 | rows, open requests, settlements and usage are those of the fold over the events |
| Recorder.Wiring.TakeTurn | bin/twcore/src/record.rs:204-219 | the placeholder records a turn's events once, then each is queued once |
| Recorder.Wiring.WaitForExit | bin/twcore/src/record.rs:194-234 | the placeholder has recorded every event of the wait once, and each is queued or counted as dropped |
| Recorder.Wiring.RecordLoop | bin/twcore/src/record.rs:240-259 | batches change nothing: every event once, in order |
| Recorder.Wiring.OpenLater | bin/twcore/src/record.rs:88-173 | rows, settlements and usage after the swap are those of the deferred specification; without a store the placeholder settles on |
| Recorder.Wiring.SwapIn | bin/twcore/src/record.rs:152-163 | the queued events are recorded in the store once, without settling; it takes the place of the placeholder with what it knows to be open, and the usage is rebuilt from its rows |
| Recorder.Wiring.OpenNow | bin/twcore/src/record.rs:40-69 | rows, settlements and usage are those of the immediate specification |
| Recorder.DeferredIsImmediate | bin/twcore/src/record.rs:72-87 | opening later equals opening at once, rows, settlements in their order and usage, if and only if the queue dropped no local answer and no start of a request that ends |
| Recorder.KnowingMore | crates/tw-store/src/recorder.rs:795-798 | a recorder that knows more open requests writes more rows exactly if one of them ends, and else the same |
| Recorder.SettledExactlyWhen | bin/twcore/src/record.rs:80-87 | whatever else happens, a request that starts and ends is settled exactly once, with the start, every report between and the ending in order, if its end came in the wait or its start was not dropped, and else never; the same row is written once exactly if its start was not dropped |
| Recorder.RowSaysAll | crates/tw-store/src/recorder.rs:382-394 | by positions in the stream: an open store writes and settles of such a request one row, what its start said, each report up to its end in order, and what its end said |
| Recorder.LocalAnswersWritten | crates/tw-store/src/recorder.rs:685-737 | every local answer has its row, in order |
| Recorder.RowsAddUp | bin/twcore/src/record.rs:152-163 | a row adds its price to the rebuilt usage wherever it stands, a local answer nothing |
| Recorder.WaitEndsAt | bin/twcore/src/record.rs:204-230 | a wait takes in all turns up to the one that ends it, that one included, and none after it |
| Recorder.OverflowLosesSettlement | bin/twcore/src/record.rs:298-305 | a full queue: a request that is settled at once by an open store and never by a deferred one |
| Breaker.Cell.Admit | crates/tw-breaker/src/lib.rs:111-118 | lands a finished cooldown as half open and reports it once |
| Breaker.Cell.Record | crates/tw-breaker/src/lib.rs:138-163 | the recorded transition, answered with the new state exactly when the state at that time changed |
| Breaker.Cell.CooldownLeft | crates/tw-breaker/src/lib.rs:125-131 | nothing unless open; zero exactly when half open by now; otherwise the time to the end of the cooldown; all of it when the clock is behind the opening |
| Breaker.ResultKeeps | crates/tw-breaker/src/lib.rs:138-163 | each result keeps state and both counters equal to what the list of results says |
| Breaker.TrippedExactlyWhen | crates/tw-breaker/src/lib.rs:138-188 | not closed, if and only if the results hold n failures in a row with no k successes in a row after them, whatever the times and the requests let through |
| Breaker.AskingChangesNothing | crates/tw-breaker/src/lib.rs:93-118 | with a clock that never runs back, letting requests through changes no later state, admission or answer |
| Breaker.OpenWhen | crates/tw-breaker/src/lib.rs:95-105 | for every rule that trips it: open, if and only if not closed as stored, the last result a failure, and less than the cooldown gone since |
| Breaker.OpenExactlyWhen | crates/tw-breaker/src/lib.rs:95-105 | on consecutive failures: open, if and only if the results say tripped, the last one is a failure, and less than the cooldown is gone since |
| Breaker.RatedExactlyWhen | crates/tw-breaker/src/lib.rs:138-188 | on an error rate: not closed, if and only if some failure came with enough samples at that share of errors or more, and no k successes in a row followed |
| Breaker.RateKeeps | crates/tw-breaker/src/lib.rs:138-163 | each result keeps that so |
| Breaker.Breakers.Admit | crates/tw-breaker/src/lib.rs:230-251 | the key's entry is the run of its own operations; other keys keep theirs |
| Breaker.Breakers.Record | crates/tw-breaker/src/lib.rs:253-255 | the same for a result, answered as that key's breaker alone would |
| Breaker.Breakers.StateOf | crates/tw-breaker/src/lib.rs:237-242 | the state the key's own history gives; a key never seen is closed |
| Breaker.Breakers.Lets | crates/tw-breaker/src/lib.rs:244-246 | admits exactly as the key's own history says |
| Breaker.KeysAreApart | crates/tw-breaker/src/lib.rs:230-255 | an operation on one key leaves every other key's history alone |
| EventStream.Transcoder.DecodeFrame | crates/tw-bedrock/src/eventstream.rs:60-70 | takes a whole frame, reports a bad one, or waits without losing a byte, having read a prelude at most |
| EventStream.Transcoder.Feed | crates/tw-bedrock/src/eventstream.rs:60-107 | the output and the remaining bytes, or the error, are those of everything taken in so far; the loop ends |
| EventStream.WriteFrame | crates/tw-bedrock/src/eventstream.rs:109-121 | appends the name line, one data line for each line of the payload, and an empty line |
| EventStream.DecodeMore | crates/tw-bedrock/src/eventstream.rs:60-107 | decoding a stretch and then the rest from its tail is decoding both together |
| EventStream.EventExactlyWhen | crates/tw-bedrock/src/eventstream.rs:72-84 | by positions in the headers: a frame is an event, if and only if its first type header is missing, holds no text, or is `event`; it then carries the payload under its event type |
| EventStream.ExceptionSays | crates/tw-bedrock/src/eventstream.rs:85-91 | an exception is an error with its exception type and the message found in its body, or the body |
| EventStream.OtherTypeSays | crates/tw-bedrock/src/eventstream.rs:92-97 | any other type is an error with its code, or else the type, and its message |
| EventStream.AnyChunking | crates/tw-bedrock/src/eventstream.rs:56-107 | for every way to cut the stream: the same end; the whole output when all frames are good; otherwise the same error after exactly the output of the chunks before the bad one, a prefix of what the good frames make |
| EventStream.FramesComeThrough | crates/tw-bedrock/src/eventstream.rs:76-100 | a stream of good frames becomes their written events in order, with nothing left over |
| EventStream.BadFrameEndsIt | crates/tw-bedrock/src/eventstream.rs:60-100 | good frames and then a bad one, in any chunks and whatever follows: the calls end in its error and hand out no more than the good frames make |
| EventStream.ExceptionEndsIt | crates/tw-bedrock/src/eventstream.rs:85-91 | so an exception is never handed out as an event, in any chunking |
| EventStream.TotalIsBigEnd | crates/tw-bedrock/src/eventstream.rs:60-70 | what each of the four bytes of a frame's length is worth |
| EventSource.FrameReads | crates/tw-bedrock/src/eventstream.rs:109-121 | a clean written frame in front of anything reads back as its event first |
| EventSource.RoundTripsExactlyWhen | crates/tw-bedrock/src/eventstream.rs:109-121 | written frames read back as the same list, if and only if every event has a name, no name a CR or LF, no payload a CR |
| EventSource.FramesReadAsEvents | crates/tw-bedrock/src/eventstream.rs:9-15 | from frames in any chunks to the events a reader sees |
| Segments.Find | crates/tw-plugin/build.rs:730-750 | the loops end and return stretches in order, at least 1023 bytes apart, that start and end on non-zero bytes, hold no 1023 zeros in a row, and leave no non-zero byte out |
| Segments.Grow | crates/tw-plugin/build.rs:738-744 | the inner loop stops behind the last non-zero byte before a gap |
| Segments.Lossless | crates/tw-plugin/build.rs:698-708 | the segments over zeroed memory give the image back |
| Segments.Canonical | crates/tw-plugin/build.rs:730-750 | there is only one such list |
| Template.Encode | crates/tw-api/src/endpoint.rs:133-145 | the loop produces the percent-encoding of the text |
| Template.Fill | crates/tw-api/src/endpoint.rs:120-131 | the loop produces the sequential replacement, or the failed assertion |
| Template.ReplaceInTemplate | crates/tw-api/src/endpoint.rs:120-131 | replacing `{name}` in a rendered template replaces exactly the places of that parameter; it is found exactly when there is one |
| Template.FillExactlyWhen | crates/tw-api/src/endpoint.rs:116-131 | the assertion holds, if and only if the names are distinct and each has a place; the result is then the simultaneous substitution |
| Template.AnyOrder | crates/tw-api/src/endpoint.rs:120-131 | the order of the parameters does not matter |
| Template.ValuesComeBack | crates/tw-api/src/endpoint.rs:116-131 | the filled path splits at slashes into one segment for each part, and decoding a parameter's segment gives its value |
| Percent.RoundTrip | crates/tw-api/src/endpoint.rs:133-145 | decoding gives back what was encoded, for any set of kept bytes without the percent sign |
| Percent.OnlyKept | crates/tw-api/src/endpoint.rs:133-145 | nothing but kept bytes, percent signs and hex digits comes out |
| Percent.UnreservedByNumber | crates/tw-api/src/endpoint.rs:133-145 | exactly the digits, the letters and four more stay, by their numbers |
| Percent.StaysExactlyWhen | crates/tw-api/src/endpoint.rs:133-145 | encoding changes nothing, if and only if all of it may stay |
| HexMask.MaskHexRuns | crates/tw-config/src/control_key.rs:66-88 | every maximal run of exactly 64 hex digits is the mask, every other byte is in its place, the length is the same |
| HexMask.RunEnd | crates/tw-config/src/control_key.rs:77-79 | the inner loop finds a maximal run |
| HexMask.OnlyOne | crates/tw-config/src/control_key.rs:62-66 | that determines the text |
| HexMask.NoKeyLeft | crates/tw-config/src/control_key.rs:50-52 | masked text holds no maximal run of 64 hex digits |
| HexMask.Idempotent | crates/tw-config/src/control_key.rs:66-88 | masking twice is masking once |
| HexMask.KeyMask | crates/tw-api/src/lib.rs:8277-8284 | the mask is as long as a key and has no hex digit at either end |
| BedrockEndpoint.RegionRoundTrip | crates/tw-bedrock/src/endpoint.rs:40-43 | the region read from a made address is the region, if and only if it is valid |
| BedrockEndpoint.RuntimeBaseSays | crates/tw-bedrock/src/endpoint.rs:40-43 | the address made for a region, letter by letter |
| BedrockEndpoint.RegionShapeExactlyWhen | crates/tw-bedrock/src/endpoint.rs:24-38 | a region is valid, if and only if it is two lower-case words or more and a number, with hyphens between them |
| BedrockEndpoint.EscapedByNumber | crates/tw-bedrock/src/endpoint.rs:85-97 | exactly which bytes of a model id are escaped, by their numbers |
| BedrockEndpoint.RegionExactlyWhen | crates/tw-bedrock/src/endpoint.rs:51-76 | a region is found, if and only if it is valid and the address is scheme, one of two labels, that region, suffix and at most one slash, in any case outside the region |
| BedrockEndpoint.RegionIsOneLabel | crates/tw-bedrock/src/endpoint.rs:24-38 | a valid region is lower-case letters, digits and hyphens, so it cannot change the host |
| BedrockEndpoint.ModelIdIsOneSegment | crates/tw-bedrock/src/endpoint.rs:99-117 | any model id stays in one path segment that decodes back to it and starts neither a query nor a fragment |
| BedrockEndpoint.EveryPath | crates/tw-bedrock/src/endpoint.rs:103-117 | a path is a model's, with a non-empty id and an action without a slash, or it is appended as it is |
| BedrockEndpoint.UrlOfModel | crates/tw-bedrock/src/endpoint.rs:103-117 | the last slash separates the action, so ids may hold slashes |
| Credential.Placeholders | crates/tw-config/src/credential.rs:511-525 | the loop finds every placeholder, each up to the first closing after its opening, and ends |
| Credential.HoleGoes | crates/tw-config/src/credential.rs:511-525 | by positions: the next placeholder goes from the first opening to the first closing after it |
| Credential.NoHoleLeft | crates/tw-config/src/credential.rs:511-525 | none is left, if and only if no opening has a closing behind it |
| Credential.CheckCredential | crates/tw-config/src/credential.rs:538-636 | the first fault of the account, else of the headers in order |
| Credential.HeadersPassExactlyWhen | crates/tw-config/src/credential.rs:585-634 | the headers pass, if and only if each is fine by itself and no two names are equal but for their case |
| Credential.FineExactlyWhen | crates/tw-config/src/credential.rs:586-633 | a header is fine, whatever the order of the checks, if and only if its name, its value with all its placeholders, and its relation to the account's own header are |
| Credential.AcceptedExactlyWhen | crates/tw-config/src/credential.rs:538-636 | a credential is accepted, if and only if the account has no fault, each header is fine by itself and no name is there twice |
| Credential.OutboundHeaders | crates/tw-config/src/credential.rs:721-742 | key, then token, then the configured headers in order, or the first failure |
| Credential.OutboundSays | crates/tw-config/src/credential.rs:725-740 | what goes out, by position: the protocol's prefix and the resolved key, the prefix and the token, then each configured header as sent by itself |
| Credential.SentValue | crates/tw-config/src/credential.rs:734-740 | a configured header goes out under its trimmed name with its expanded value, as it is without a placeholder, and with the token in the place of each and nowhere else |
| Credential.TokenAlone | crates/tw-config/src/credential.rs:736-737 | a value that is the placeholder goes out as the token |
| Credential.NoneLeft | crates/tw-config/src/credential.rs:736-737 | a token without braces, put between texts none of which ends in the beginning of a placeholder, leaves none in what is sent |
| Credential.BearerExactlyWhen | crates/tw-config/src/credential.rs:273-282 | which protocols have a header of their own, and which send a bearer token |
| Credential.ApartExactlyWhen | crates/tw-config/src/credential.rs:721-742 | for any configuration: the names sent are distinct ignoring case, if and only if the configured ones are, at most one is made from the account, and then none is the protocol's own |
| Credential.AcceptedSendsWell | crates/tw-config/src/credential.rs:51-56 | an accepted upstream sends distinct names, no reserved one, none that signing writes when it signs, none that states an identity for a ChatGPT account |
| Credential.AccountPassesExactlyWhen | crates/tw-config/src/credential.rs:538-584 | the account passes, whatever the order of the checks, if and only if: one kind of credential, the one the protocol takes; nothing written is blank but for a disabled upstream's secrets; AWS keys from one place for a known and matching region; and the address allows that kind |
| Credential.OnlyTheEnvironmentWantsAToken | crates/tw-config/src/credential.rs:623-625 | without oauth, an accepted upstream fails for want of a token only when an environment variable brings the placeholder in |

## Left out

Assumed of the surroundings:

- Delivery plus local work on a link between two living ends is bounded, the link is reliable and FIFO, and sending to an end that is gone fails. `Takeover` leaves the bound open and `Exactness` finds its limit.
- Starting a process, reading the lock and writing it are one step; failures of reading or writing files are not modelled, so a successor whose claim or mark could not be written is not either.
- A process that ended stays ended; process ids are not used again.
- History: a failed candidate is gone before the next one joins, marks do not grow stale, and the waits for predecessors do not run into their limits of 30 and 35 minutes, so a draining core ends with its history open.
- RequestIds: a candidate that was given up does not claim the lock; `Takeover` shows that for delays under five seconds. When a process may open its history or write a row is left open here, so the runs include more than `History` allows.
- Takeover: a draining core's reports, settlements and `Bye` are proved in `ArmedLoop.Drain` and left out of the timed world, as is the 2-second poll for a predecessor that ended: it is seen at once.
- Takeover: a fresh start beside an old core that still drains, after its successor crashed. `RoomBesideDraining` says that one more primary is then the only one, `History` and `RequestIds` what becomes of such starts.
- Snapshots are readable and say only the next request id; what else they hold is not part of this model. Ids do not saturate at 64 bits.

Not modelled:

- The wire format, sockets and their copies, sessions, standard streams, relaunching the desktop app, and the control plane's own connections.
- Safe mode, and waiting for a configuration to be mended, other than as a wait without limit.
- Background tasks. The old core stops them after it sent the acknowledgement, so no exclusion of them is claimed.
- Recorder: request bodies and plugin runs, which wait for the store; the security log; dropping the oldest of more than 4096 open requests; failing writes. A price is a function of the row, so price tables do not change during the wait, and what an event says of its request is a number.
- Breaker: counters are unbounded and cooldowns whole milliseconds; windows of the error rate are given by the caller.
- EventStream: both checksums and the header encoding are one given function from a frame to a message, whose payload is already valid text.
- EventSource: a byte order mark, `id` and `retry` fields and reconnection; none of them occurs in written frames.
- Segments: the other sections that `rewrite` copies.
- Template: templates with a parameter inside a segment; no endpoint has one.
- HexMask: masking by position in a configuration that can be parsed.
- Credential: trimming, environment variables and what counts as a Claude, Gemini CLI or Codex host are given functions; messages for people are left out.
- BedrockEndpoint: the control address, and what a server makes of the path.
- The rest of the repository: dialects, the store, the interface's views, the plugin runtime, signing and the command line.
