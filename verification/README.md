# The camera bridge of `010322_sony.py`, modelled and verified

A ground station sets and reads eight camera features (ISO, aperture, exposure program, focus area, focus mode,
shutter speed, white balance, still-capture mode) over MAVLink. The bridge keeps a (requested, committed) pair per
feature in a store with one owner field, commands a Sony camera through a command-line program whose printed text it
parses, caches what the camera reports, and publishes cached values. An asyncio main loop creates the tasks of each
iteration; a one-slot handshake serves COMMAND_LONG messages. This project models that bridge in Dafny and proves what
holds in every state of every run, what one iteration achieves, and that the pieces do what they are for.

## How the model is laid out

| file | what it holds |
|---|---|
| `Features.dfy` | the features, the bit-coded request and write-protect words as sets, the signed 32-bit slot |
| `Enumerators.dfy` | the eight `enumerate_*` tables and the option tables that undo them |
| `TimedWait.dfy`, `SetPointStore.dfy` | the polling wait under any schedule of the owner field; the store as a class |
| `MemoryValue.dfy` | the cached value of a feature, its two flags and its publisher, as a class |
| `PythonText.dfy`, `CameraText.dfy` | the string operations and the token scanner of the camera program's output |
| `Transaction.dfy`, `ServicePass.dfy` | one camera transaction; one pass over the request words (both versions) |
| `FloatBits.dfy`, `Rounding.dfy`, `Chunker.dfy` | IEEE 754 patterns on the wire, their rounding; the 251-byte file chunks |
| `Messages.dfy`, `ParameterName.dfy` | what each incoming message does; the command frame as a class; which feature a name selects |
| `Trace.dfy`, `World.dfy`, `CameraTask.dfy` | events seen from outside; the shared state; each task as one atomic step |
| `Coherence.dfy` | what every task keeps |
| `EventLoop.dfy`, `ReadyQueue.dfy`, `Handshake.dfy`, `RunSafety.dfy`, `Stopping.dfy` | main and the ready queue as a state machine, its invariant, and when main stops |
| `Runs.dfy`, `Occasions.dfy` | the theorems about every reachable state; why a publisher sends |
| `Inputs.dfy`, `Iteration.dfy` | one iteration as a sequential program, proved equal to the event loop on any inputs |
| `Response.dfy`, `Answering.dfy`, `Confirming.dfy`, `Liveness.dfy`, `Refusals.dfy`, `Acknowledging.dfy` | what an iteration settles, answers, confirms, rejects and acknowledges; the same over runs |
| `EndToEnd.dfy` | one request from the wire through the camera's printed text to the announced value |
| `Counterexamples.dfy`, `MissedReads.dfy` | concrete inputs on which the code does less than its design says |

Objects the source updates in place are classes (`SetPointStore`, `MemoryValue`, `MAVFrame`, `Camera`) whose methods
keep the source's loops; each method equates the new state with a function of the old one. The event loop runs over
those same functions. A step is one handle of asyncio's ready queue: a whole task (no task awaits anything) or main up
to its next await. All that is outside (messages, camera replies and reads, which reads are due by timestamp, whether a
send succeeds, the result of a command) is an arbitrary `Input`, a fresh one at every step. For an iteration the inputs
of its steps merge into one (`Iterations.SeenHears`), because each task that listens to the outside runs at most once
in it; so the theorems about iterations, too, hold on arbitrary inputs. What the camera program prints is taken to be
ASCII text that splits into tokens: on anything else a camera routine raises.

A run is observed as a trace of events (`Traces.Event`). `Traces.Recall` folds a trace into what it says about one
feature, `Traces.PhaseOf` into how far the command handshake has got; neither looks at the bridge's state.

## Main results

1. The invariant of queue, handshake and features holds in every state of every run (`Runs.RunInvariant`); from it:
   main runs alone (`Runs.MainRunsAlone`), cached and published values agree (`Runs.PublishedValueCoherent`), no request
   is lost and no bit or flag is up for nothing (`Runs.NoRequestLost`, `Runs.FlagsExact`), committed values are echoed
   options (`Runs.CommittedIsEchoed`), the protect word is the set of refused features (`Runs.ProtectWordIsHistory`), the
   camera is told only what was asked for (`Runs.EveryEventJustified`), acknowledgements come in pairs and in order, with
   the result the command ended with, but for one rejection where the loop hangs (`Runs.AcknowledgementsExact`,
   `Runs.RejectionIff`).
2. The store is free exactly while no PARAM_SET has carried a value that is no integer (`Runs.OwnerReadyIff`).
3. The bridge hangs exactly when a processing task has died (`Runs.HangsIff`), and main stops exactly on a negative
   cached value (`Runs.StopsIff`).
4. A publisher sends only on an occasion newer than its last message (`Occasions.EveryMessageHasOccasion`).
5. One iteration of the event loop is the sequential program, on arbitrary inputs, with the exact conditions for
   reaching the next top, stopping and hanging (`Liveness.RunsAreIterations`).
6. In an iteration every open request is answered (`Liveness.RunsAnswerRequests`), what was read is published
   (`Liveness.ReadIsReported`, `Liveness.PollIsReported`), the accepted command is acknowledged with its result
   (`Acknowledging.RunAcknowledges`), and a set-point is settled under an exact condition
   (`Responses.BoundedResponse`); two iterations carry a wish to the report that it was granted
   (`Liveness.WishBecomesReport`). Over any number of iterations: `Acknowledging.ChainAcknowledges`,
   `Liveness.HeartbeatEveryTwelfth`.
7. From the wire and the camera's text: a name selects the one feature whose tag comes first
   (`ParameterNames.TargetOfName`), each kind of printed text means one thing (`Transactions.TextSays`), a printed report
   is read and served (`EndToEnd.ReportServed`).
8. The token loops are a two-state automaton but for a lost arm (`CameraText.SentinelLoopExact`,
   `CameraText.EarlierLoopExact`); words survive the float conversions but for signalling NaNs
   (`FloatBits.ConversionRoundTrip`); the two service passes agree when all reads succeed
   (`ServicePasses.VersionsAgree`); a chain of retries is one long wait (`SetPointStores.ReadRequest`).

## Where the code does less than its design says

Each with the exact condition, then a concrete input.

- A request for 99 is never rolled back although 99 is no option: it reads as "nothing requested"
  (`Transactions.SettlesIff`; `Transactions.ReservedRequestStays`).
- Focus area is not commanded until focus mode has been asked for or committed, because `and` binds tighter than `or`
  in the guard (`Responses.PendingIsDue`, `Runs.FocusAreaStarves`; `Counterexamples.FocusAreaWaits`).
- A PARAM_SET of a float type whose value is infinite or NaN makes `int()` raise with the store held
  (`Runs.OwnerReadyIff`, `FloatBits.ReceivedExact`; `Counterexamples.InfinityLeavesStoreHeld`).
- A PARAM_EXT_REQUEST_READ is recorded only if the store was free and the immediate answer went out
  (`Messages.RequestsAreKept`; `Counterexamples.UnansweredExtReadIsLost`).
- Processing a request for message 263, or a command that keeps the type of an earlier relay command, calls a routine
  that does not exist. The processing task dies with `task_control_1` up, and the error handler then never yields
  (`Runs.HangsIff`, `Liveness.RunsAreIterations`; `Counterexamples.ImageRequestHangs`, `Counterexamples.SomeRunHangs`).
- A negative cached value ends the main loop: the publisher packs it as an unsigned word outside any handler
  (`Stopping.AnnounceExact`, `Runs.StopsIff`, `Liveness.BootArrives`; `Counterexamples.NegativeFirstReadingStops`).
- The scanner loses an answer exactly when the token at the reserved index arms it and an answer follows; never for up
  to 100000 tokens (`CameraText.SentinelLoopExact`; `Counterexamples.LateKeyIsLost`).
- The bit conversion of PARAM_VALUE is not undone exactly for signalling NaN patterns
  (`FloatBits.ConversionRoundTrip`; `Counterexamples.SignallingWordIsChanged`).
- The last 1 to 125 bytes of a file are not sent when its length leaves such a remainder
  (`Chunker.WholePayloadIff`; `Counterexamples.OneByteIsNotSent`).
- A rejected command is acknowledged only where the loop hangs: otherwise the error handler finds `task_control_1` at 0
  and sends nothing, and the rejection stays recorded until another replaces it (`Runs.RejectionIff`,
  `Refusals.RunRejections`; `Counterexamples.RejectionIsNotSent`, `Counterexamples.RejectionIsSent`).
- One request may be answered any number of times: while the camera cannot be read the request's bit stays, and every
  service pass makes an announcement due again. So "every PARAM_VALUE follows a newer request or reported value" fails,
  and holds exactly with failed reads counted as occasions (`Occasions.EveryMessageHasOccasion`,
  `Occasions.MessagesCounted`; `MissedReads.MissedReadRepeats`, `MissedReads.OneRequestManyMessages`).
- A printed report of more than 33333 values is not read back, its key falling on the reserved index
  (`CameraText.ReportRoundTrip`).

Two slips are read as meant: the undefined name at `010322_sony.py:3104` as the one assigned in the branch, and the
non-existent field at `010322_sony.py:7739` as `set_sony_still_cap_mode`. Routines that the source writes out eight
times with the feature's name changed take the feature as a parameter, and a sequence of eight copies of one step is a
loop over the features. Timeouts are positive and retry counts at least 1, as at every call in the source.

## Model

| member | source | states |
|---|---|---|
| Runs.MainRunsAlone | 010322_sony.py:7717-7796 | in every reachable state no camera routine is under way between tasks, the ready queue is not empty while main waits, and when main runs every task created before has ended, so the cancelled receiver and the awaited service task are finished ones |
| Runs.HangsIff | 010322_sony.py:7033-7043 | from every reachable state: the loop hangs one step after a processing task has died, and only then |
| Runs.StopsIff | 010322_sony.py:3517-3527 | in every reachable state main has stopped only with a negative value cached; waking, it stops if and only if it waited for publishers and a negative value is cached |
| Stopping.AnnounceExact | 010322_sony.py:3517-3545 | a publisher ends with an exception exactly if a feature of its group holds a negative value, whatever the link does |
| Stopping.NegativeIsDue | 010322_sony.py:3517-3545 | a negative cached value was never published and its announcement is due |
| Runs.OwnerReadyIff | 010322_sony.py:131-134 | after start-up the owner field is READY at every step boundary exactly if no PARAM_SET ever carried a value that is no integer; else it stays held; before start-up it is INIT |
| Runs.PublishedValueCoherent | 010322_sony.py:3517-3545 | in every reachable state a feature with no announcement due has its last published value cached, or nothing was ever learned and it holds the 0 of a failed first read; the cached value is the last one the camera reported |
| Runs.NoRequestLost | 010322_sony.py:6816-6959 | in every reachable state a request newer than its last answer has its bit or its flag up, for both kinds of request |
| Runs.FlagsExact | 010322_sony.py:6816-6959 | in every reachable state a request bit is up exactly if a request is newer than the last one taken up, and an announcement flag exactly if a report, a missed read or an ext request taken up is newer than the last message |
| Occasions.EveryMessageHasOccasion | 010322_sony.py:3517-3579 | in every run every PARAM_VALUE follows a request for its feature, a reported value or a failed read of it that is newer than the previous one, and every PARAM_EXT_VALUE an ext request newer than the previous one |
| Occasions.MessagesCounted | 010322_sony.py:3517-3545 | so no feature has more messages than requests, reported values and missed reads together |
| Runs.CommittedIsEchoed | 010322_sony.py:3141-3175 | in every reachable state a committed set-point is the last value the camera echoed, an option that was asked for, or the 99 that is no option before any echo |
| Runs.ProtectWordIsHistory | 010322_sony.py:3158-3175 | in every reachable state a feature's protect bit is set exactly when its latest settled attempt was refused |
| Runs.EveryEventJustified | 010322_sony.py:7717-7796 | in every run the camera is commanded only with the code of a value that was asked for, confirms or refuses only what it was just told, a service pass takes up only what was asked for, publishers send only the last reported value, never a negative word, and only if a report, an ext request taken up or a missed read is newer than the last message, processing dies only of a type nobody can serve, and a rejection is acknowledged only as it stands recorded |
| Runs.FocusAreaStarves | 010322_sony.py:7745-7747 | no run commands focus area unless some focus mode other than 99 was asked for in it |
| Runs.AcknowledgementsExact | 010322_sony.py:7749-7766 | in every run the acknowledgements handed to the link are the regular ones and then at most one rejection, sent where the loop hangs; the regular ones plus those owed to the one command in flight are, for the accepted commands in order, progress 0 with the result accepted and progress 100 with the result the command's processing ended with |
| Runs.RejectionIff | 010322_sony.py:7033-7043 | from every reachable state: a recorded rejection is acknowledged if and only if the loop hangs while it stands recorded, and then exactly that one, with its result |
| Refusals.RunRejections | 010322_sony.py:7033-7043 | on any inputs: the rejections sent by the end of an iteration are none, or, exactly if the accepted command stalls the loop, the one that stood recorded when the receiver had run |
| Refusals.RejectionStands | 010322_sony.py:7749-7766 | a rejection the receiver leaves recorded stands at the end of an iteration that no command stalls |
| Refusals.DeliverNotes | 010322_sony.py:5798-5801 | a rejection is recorded by bad data and by a command that arrives while one is accepted, by nothing else, and the last one stands |
| Runs.RunInvariant | 010322_sony.py:7717-7796 | every state of every run satisfies the invariant of queue, handshake and features, and the tasks main waits for fail exactly on a negative value or in processing a type nobody can serve |
| Runs.BootSteady | 010322_sony.py:7642-7700 | it holds after the first reads, whatever succeeded, including the second reads after an all-zero start |
| Runs.FirstWorldExact | 010322_sony.py:7642-7696 | the cache after start-up: the first reads, or, if none yielded anything but 0, the second ones; a feature is announced exactly if a read of it succeeded |
| Runs.EchoIsOption | 010322_sony.py:3167-3175 | in a justified trace the last echoed value is an option of its feature and was asked for |
| Liveness.RunsAreIterations | 010322_sony.py:7717-7796 | from any reachable top and on any inputs the run has the world of the sequential iteration, and reaches the next top, stops or hangs exactly if, respectively, neither applies, a negative value is left cached, or the accepted command is one nobody can serve |
| Liveness.RunsAnswerRequests | 010322_sony.py:7717-7796 | if it reaches the next top, no plain request of a feature whose message the link carried is open there, likewise ext requests |
| Liveness.NextTopReached | 010322_sony.py:7717-7796 | the next top is again one that a run reaches, so iterations chain |
| Liveness.HeartbeatEveryTwelfth | 010322_sony.py:7717-7796 | along any chain of iterations from the first top, on any inputs, a heartbeat task is created at every twelfth top and at no other |
| Liveness.WishBecomesReport | 010322_sony.py:7717-7796 | in a run on any inputs: an option left by the receiver as a feature's request is committed, its protect bit clear, and published, at the end of that iteration if its routine was due there and the camera obeys; or, if it went unheard there, at the end of the next if it is not overwritten, can be served and the camera obeys (the link carrying the message) |
| Liveness.GrantedAtOnce | 010322_sony.py:7717-7796 | the same for one iteration, whether the wish arrives in it or before |
| Liveness.WishStands | 010322_sony.py:7720-7747 | a wish that goes unheard in an iteration stands at its end, and its routine is due there, but for focus area exactly when focus mode is asked for or committed |
| Liveness.RunReachable | 010322_sony.py:7717-7796 | what a reachable state leads to on any inputs is reachable |
| Liveness.BootArrives | 010322_sony.py:7642-7706 | start-up ends at the first top, or with main stopped exactly if a first reading is negative |
| Confirming.ObeyedInIteration | 010322_sony.py:6236-6272 | an iteration in which the routine of a requested option is due, the camera obeys and the link carries the message commits the option, clears its protect bit and publishes it |
| Liveness.ReadIsReported | 010322_sony.py:6873-6890 | on any inputs: a feature asked for and read by the service pass is cached, published and its request dropped by the end of that iteration (the link carrying the message and the feature's routine not due) |
| Liveness.PollIsReported | 010322_sony.py:6255-6272 | likewise a value read by a camera routine that was due |
| Acknowledging.RunAcknowledges | 010322_sony.py:7749-7766 | on any inputs: an iteration sends (c, r, 0, accepted) and then (c, r, 100, res) for the command (c, r) accepted at its top, res being what the processing task's step yields, or accepted for type 521; only the first if the command stalls the loop; nothing without a command |
| Acknowledging.ChainAcknowledges | 010322_sony.py:7749-7766 | over any number of iterations the acknowledgements are those of the iterations, in order |
| Liveness.SettledByNextIteration | 010322_sony.py:7717-7796 | in a run on any inputs a set-point written in one iteration is settled by the end of the next if it is invalid, refused or echoed there and not overwritten, with the focus-area proviso |
| Inputs.JobSees | 010322_sony.py:7717-7796 | a task depends only on its own messages, reads, replies, sends or result |
| Inputs.MergedShows | 010322_sony.py:7717-7796 | if no task of a list occurs twice, one input shows each what its own input shows it |
| Iterations.LoopRefinesIteration | 010322_sony.py:7717-7796 | on any inputs the queue machine does what the sequential program does on one input that shows each task the same: with no command, a command that can be served, or one that cannot |
| Iterations.SeenHears | 010322_sony.py:7717-7796 | for any inputs of an iteration such an input exists: merging them shows every task what it saw |
| Iterations.Stalling | 010322_sony.py:7033-7043 | processing a type nobody can serve dies, and the error handler then acknowledges the recorded rejection, if any, and never yields |
| Iterations.Drain | 010322_sony.py:7717-7796 | on any inputs the queued tasks run in creation order and then main wakes with nothing else queued |
| Responses.IterationSetPoint | 010322_sony.py:7720-7747 | an iteration takes a set-point through exactly one transaction if its routine was due at the top and through none otherwise, on the request as the receiver left it |
| Responses.BoundedResponse | 010322_sony.py:7720-7747 | a set-point pending at the top is settled at the end if and only if the receiver settled it, or its routine was due and the request is not 99 and is invalid, refused or echoed |
| Responses.PendingIsDue | 010322_sony.py:7745-7747 | a pending set-point has its routine due, for focus area exactly when focus mode is asked for or committed |
| Answering.AnsweredInIteration | 010322_sony.py:6816-6959 | every request open at the top or received in the iteration is answered before it ends if the link carries the message, no value of the group is negative and the accepted command can be served |
| ReadyQueues.RunToCompletion | 010322_sony.py:7717-7796 | if main's wake-up is next it is alone in the queue and exactly the tasks created so far have ended |
| ReadyQueues.StepFifo | 010322_sony.py:7717-7796 | each step keeps the queue in creation order with main's wake-up last and present exactly when the awaited task has ended |
| ReadyQueues.CancelIdle | 010322_sony.py:7788-7794 | cancelling the receiver changes nothing |
| Handshakes.StepFits | 010322_sony.py:7749-7766 | each step keeps the handshake: which tasks are queued at each await, the point reached by the command in flight, task_control_1, and that the loop hangs only over a command whose processing died |
| Handshakes.WorkerLinked | 010322_sony.py:5897-6105 | tasks that serve no command leave an accepted command alone, and one is waiting exactly when the frame says accepted |
| Handshakes.ProcessStep | 010322_sony.py:7033-7043 | the processing task dies exactly of a type nobody can serve; the error handler finds task_control_1 at 0 and terminates if it did not, and if it did acknowledges the recorded rejection and spins |
| Traces.HandshakeExact | 010322_sony.py:7749-7766 | in a handshake that is never out of order, the acknowledgements sent, with their results, are the regular ones and then at most one rejection, and the regular ones and those owed are together those due |
| Coherence.JobGood | 010322_sony.py:7717-7796 | any task, on any input, keeps every feature in agreement with its history and leaves no camera routine marked as running |
| Coherence.DeliverKeeps | 010322_sony.py:5793-6106 | so does any single message |
| Coherence.SettleKeeps | 010322_sony.py:3127-3180 | so does a transaction with any possible outcome, for its own feature |
| Coherence.SettleElsewhere | 010322_sony.py:3127-3180 | and it leaves every other feature and its history untouched |
| Coherence.ServiceKeeps | 010322_sony.py:6816-6959 | so does a service pass |
| Worlds.ReceivingIsMessageLoop | 010322_sony.py:5744-6133 | the receiving task of the event loop has the effect of the message loop on store and frame, and fails exactly when that dies |
| CameraTasks.DoAlphaCamera | 010322_sony.py:6236-6272 | a camera routine on the shared objects is the camera turn of the event loop |
| CameraTasks.DoAlphaCameraFocusData | 010322_sony.py:6281-6321 | so is the routine of the focus pair, with both transactions before both reads |
| Transactions.SetSonyCamData | 010322_sony.py:3054-3180 | from any store and any printed reply: the new store, cache entry, code sent to the camera, return value and error count, by the outcome of the request |
| Transactions.SettlementContract | 010322_sony.py:3127-3180 | each outcome by its effect: nothing, set := prev, set := prev and protect bit set, prev = set = request with cache shifted, flag up and protect bit cleared, or still pending; other features untouched |
| Transactions.OutcomeConditions | 010322_sony.py:3141-3175 | when each of the five outcomes happens and when the camera is called, by the reply's answers; they exclude each other and leave no gap |
| Transactions.TextSays | 010322_sony.py:1155-1183 | what each printed text means: a link error is no answer, otherwise "not writable" is a refusal, otherwise the second answer found is an echo |
| Transactions.RefusalRollsBack | 010322_sony.py:3099-3104 | a pending option answered with "not writable" ends with set = prev and its protect bit set, nothing cached |
| Transactions.LinkErrorSettlesNothing | 010322_sony.py:3096-3098 | an option answered with a link error stays as it is: store and cache unchanged |
| Transactions.SettlesIff | 010322_sony.py:3141-3175 | a pending request is settled if and only if it is not 99 and is invalid, refused or echoed |
| Transactions.ReservedRequestStays | 010322_sony.py:3141-3146 | a request for 99 is invalid yet left in place |
| Transactions.DoIso | 010322_sony.py:6338-6366 | up to n transactions have the effect of the first, and the link is reset exactly if a request stays unreadable |
| Transactions.RecordProtection | 010322_sony.py:3161-3174 | the unbounded write-protect loops end after one pass on a free store |
| Transactions.WriteBack | 010322_sony.py:3145-3153 | the bounded retry loop writes once on a free store |
| Transactions.Camera.SetSony | 010322_sony.py:1114-1183 | the answers a set routine returns for each kind of printed text, and the error counter |
| SetPointStores.SetPointStore.SetVal | 010322_sony.py:178-202 | the whole store after a write under any schedule of the owner field: granted, timed out, or raised and left held |
| SetPointStores.SetPointStore.ClearReq | 010322_sony.py:204-223 | the whole store after a roll-back under any schedule |
| SetPointStores.SetPointStore.GetVal | 010322_sony.py:225-244 | the pair read, the owner field afterwards and the number of sleeps |
| SetPointStores.SetPointStore.SetWritePro | 010322_sony.py:136-155 | the protect bit of exactly this feature is added under a granted wait |
| SetPointStores.SetPointStore.ClearWritePro | 010322_sony.py:157-176 | the protect bit of exactly this feature is removed under a granted wait |
| SetPointStores.SetPointStore.AskAllPlain | 010322_sony.py:5805-5811 | assigning 255 asks for every feature and drops no earlier request |
| SetPointStores.ReadRequest | 010322_sony.py:3134-3139 | the nested read loop reads what one wait with the whole budget reads, under any schedule, with at most that many sleeps and at most `retries` calls |
| SetPointStores.BusyStoreRefuses | 010322_sony.py:131-245 | under any schedule in which READY does not show in time every operation times out and changes nothing; with the reset option it puts the owner field back to READY |
| SetPointStores.FreeStoreGrants | 010322_sony.py:131-245 | while it is READY every operation is granted at once and frees it again, unless the value is no integer; a write touches its own feature only, and moves the old request to the committed slot exactly in mode 1 |
| TimedWait.AwaitReady | 010322_sony.py:225-244 | the polling loop sleeps until the first READY poll or the whole budget and sees the owner field of that poll |
| TimedWait.GrantedIffReadyInTime | 010322_sony.py:225-244 | a wait is granted if and only if READY shows at a poll before the budget, and sleeps no longer than the first such poll |
| TimedWait.WriteEndsWait | 010322_sony.py:225-244 | READY stored during sleep j ends the wait after j + 1 sleeps, too late if those are the whole budget |
| TimedWait.RetriesAreOneWait | 010322_sony.py:3134-3139 | two waits in a row are one wait with the sum of their budgets, under any schedule |
| Features.RequestAdded | 010322_sony.py:5518-5519 | or-ing a request bit adds that feature and no other |
| Features.RequestRemoved | 010322_sony.py:6884-6886 | and-not removes that feature and no other |
| Features.RequestRange | 010322_sony.py:5518-5519 | a request word in 0..255 stays there |
| Features.ProtectAdded | 010322_sony.py:86-155 | or-ing 1 << k adds that feature to the protect word and no other |
| Features.ProtectRemoved | 010322_sony.py:157-176 | and-not of 1 << k removes that feature and no other |
| Features.WholeRequestWord | 010322_sony.py:5805-5819 | 255 is the set of all features, and only 0 is the empty one |
| MemoryValues.MemoryValue.SetValue | 010322_sony.py:863-882 | the whole entry after caching under any schedule: history shifted and flag up, or unchanged |
| MemoryValues.MemoryValue.GetValueData | MemoryValueClass.py:36-63 | value, previous value and whether READY showed in time, under any schedule |
| MemoryValues.MemoryValue.SendParamValue | 010322_sony.py:3517-3545 | what a publisher visit comes to and that the flag is cleared only after a send |
| MemoryValues.VisitExact | 010322_sony.py:3517-3579 | when each kind of visit happens, for both publishers: idle exactly with nothing due, and so on; only what was sent clears its flag |
| MemoryValues.MemoryValue.SendParamExtValue | 010322_sony.py:3550-3579 | the same for PARAM_EXT_VALUE |
| MemoryValues.MemoryValue.constructor | 010322_sony.py:2300-2322 | a first read that succeeded is announced, a failed one leaves a silent 0 |
| ServicePasses.ServiceParamRequests | 010322_sony.py:6816-6959 | the four sweeps over the shared words and objects are the pass of the first version |
| ServicePasses.ServiceParamRequestsFromCache | 010322_sony2.py:6816-6959 | likewise for the second version |
| ServicePasses.PassExact | 010322_sony.py:6816-6959 | a pass leaves exactly the plain bits whose read failed and the ext bits whose entry is held, raises exactly the flags asked for, and leaves other features alone |
| ServicePasses.CachePassExact | 010322_sony2.py:6873-6959 | the second version leaves no plain bit, raises exactly the flags asked for and changes no value |
| ServicePasses.VersionsAgree | 010322_sony2.py:6873-6959 | when all reads succeed both versions leave the same words and flags |
| ServicePasses.SweptExact | 010322_sony.py:6816-6959 | a sweep does its step to each feature once, independently of the others |
| ServicePasses.GetSonyCamData | 010322_sony.py:2292-2339 | a camera read caches the first answer if it is a number, and nothing else |
| CameraText.ParseAnswers | 010322_sony.py:1146-1183 | the token loop returns the cleaned tokens the index scanner picks |
| CameraText.ParseAnswersEarlier | NewSonyAlphaClass.py:36-53 | the earlier loop returns the tokens the scanner with sentinel 0 picks, cleaned its own way |
| CameraText.SentinelLoopExact | 010322_sony.py:1146-1183 | the index loop picks what a two-state automaton picks if and only if no needed arm falls on the sentinel index |
| CameraText.ShortOutputIsSafe | 010322_sony.py:1146-1183 | it always does on at most 100000 tokens |
| CameraText.EarlierLoopExact | NewSonyAlphaClass.py:36-53 | the earlier loop does if and only if token 0 is not the key token of a value |
| CameraText.ReportRoundTrip | 010322_sony.py:1167-1183 | the token loop gives back the values of a printed report of key, colon, value-with-comma groups if and only if there are at most 33333 of them |
| CameraText.LoopBound | 010322_sony.py:1146-1183 | answers never outnumber key tokens, whatever is printed |
| CameraText.AnswersAreClean | 010322_sony.py:1174-1183 | no answer contains a comma or starts or ends with a closing bracket |
| CameraText.ArmsExactly | 010322_sony.py:1167-1183 | a value is an answer right after a token holding the key, even one with a colon in it, or after a colon that follows it; once taken the next one is not |
| CameraText.CleanValueKept | 010322_sony.py:1174-1180 | commas and outer brackets go, and the value between them stays |
| PythonText.StripExact | 010322_sony.py:1177-1177 | strip takes characters of the set off both ends and nothing else |
| CameraText.AutoIsZero | 010322_sony.py:1174-1176 | an automatic setting reads 0 |
| CameraText.EarlierIsRaw | NewSonyAlphaClass.py:47-50 | the earlier loop hands tokens on as printed, only an automatic setting becomes 0 |
| PythonText.IntOfSigned | 010322_sony.py:3107-3107 | int() reads a printed number with a sign and blanks around it |
| PythonText.IntRejects | 010322_sony.py:3106-3116 | text with anything but digits, underscores and a leading sign is no number |
| PythonText.UnderscorePassed | 010322_sony.py:3107-3107 | int() passes over an underscore between two digits and refuses any other |
| Enumerators.OptionOfRequest | 010322_sony.py:2629-3013 | over all integers the option table undoes each enumerator, codes stay in the feature's range, and 99 is never accepted |
| Enumerators.RequestOfOption | 010322_sony.py:2629-3013 | every code in the range is the code of an accepted request: the image is contiguous |
| Enumerators.EnumerateInjective | 010322_sony.py:2629-3013 | no two accepted requests share a code |
| FloatBits.ConversionRoundTrip | 010322_sony.py:4835-4849 | for integer types the conversion back undoes the conversion out if and only if the word is no signalling NaN pattern |
| FloatBits.WireRoundTrip | 010322_sony.py:4835-4849 | for every word that is no NaN pattern also with a binary32 message field in between |
| FloatBits.NarrowWidenExact | 010322_sony.py:4838-4846 | packing undoes unpacking on every pattern, normal, subnormal, zero, infinite or quiet NaN, and on no signalling one |
| FloatBits.WidenExact | 010322_sony.py:4838-4846 | unpacking keeps the magnitude of every finite pattern exactly |
| FloatBits.RoundNearest | 010322_sony.py:4838-4846 | packing rounds to a nearest representable magnitude |
| Rounding.NarrowNearest | 010322_sony.py:4838-4838 | packing any finite double keeps the sign and picks a binary32 number to which no other is nearer, subnormal results included |
| Rounding.NarrowOverflows | 010322_sony.py:4838-4838 | packing raises exactly on finite doubles of magnitude (2^25 - 1) * 2^103 and more |
| Rounding.NarrowSpecial | 010322_sony.py:4838-4838 | infinities stay infinite and NaNs come out quiet |
| Rounding.TieIsEven | 010322_sony.py:4838-4838 | of two equally near results packing takes the even one |
| FloatBits.ReceivedExact | 010322_sony.py:5831-5832 | a PARAM_SET of an integer type writes its own word, and only float types can carry a value int() refuses |
| FloatBits.TruncatedExact | 010322_sony.py:5832-5833 | a PARAM_SET of a float type writes the next whole number toward zero, infinities and NaNs raise |
| Chunker.FtpSend | 010322_sony.py:4499-4518 | every byte of every chunk is the payload byte at its position or 0 past the end |
| Chunker.StreamIsPadded | 010322_sony.py:4499-4518 | the concatenated chunks are the zero-padded payload |
| Chunker.ChunkCountNearest | 010322_sony.py:4499-4503 | the chunks miss the payload's length by at most 125 bytes, and any other number of chunks misses it by more |
| Chunker.WholePayloadIff | 010322_sony.py:4499-4518 | the whole payload is sent if and only if its length modulo 251 is 0 or at least 126 |
| Messages.ProcessMessages | 010322_sony.py:5744-6133 | at most five messages, stopping at one the task dies of (among them PARAM_EXT_SET and CAMERA_IMAGE_CAPTURED): the store, the frame and whether it died |
| Messages.FiveMessages | 010322_sony.py:5744-5760 | the fifth message is read and a sixth is not |
| Messages.Deadly | 010322_sony.py:5793-6106 | what the receiving task dies of, message by message |
| Messages.MAVFrame.OnCommandLong | 010322_sony.py:5897-6105 | the whole frame after a COMMAND_LONG and whether the task dies of it |
| Messages.MessageRequested | 010322_sony.py:5901-5920 | command 512 on a free slot: the id asked for is the parameter truncated toward zero, and 259 to 263 and 269 are processed as 6500 to 6504 and 6505 |
| Messages.CommandAccepted | 010322_sony.py:5922-6105 | every other command on a free slot: the type it is processed as and whether it keeps or clears the id asked for |
| Messages.OneSlot | 010322_sony.py:5897-6105 | while a command is accepted no message touches it, and otherwise exactly an accepted command fills the slot |
| Messages.ImageRequestUnserved | 010322_sony.py:5901-5917 | a request for message 263 fills the free slot with the type whose processing calls a routine that does not exist |
| Messages.RelayResidueUnserved | 010322_sony.py:5954-5959 | a relay command kills its receiver and leaves its type; a command that keeps the type then fills the slot with it |
| Messages.ClearedOnce | 010322_sony.py:7033-7043 | however often the error handler's loop goes round, only its first pass can send anything |
| Messages.MAVFrame.AnswerError | 010322_sony.py:7036-7043 | one pass of the error handler's loop: what it sends and the error fields it leaves |
| Messages.RejectionResults | 010322_sony.py:7036-7043 | a rejected command is acknowledged with result 1, bad data with result 4, and anything else not at all |
| Messages.FractionIsNotOne | 010322_sony.py:5922-5930 | the camera-information command compares its parameter before truncation |
| Messages.RequestsAreKept | 010322_sony.py:5498-5736 | no message removes a request; a plain request always sets its bit, an ext request exactly when the store was free and the immediate answer went out |
| Messages.OnlyParamSetWrites | 010322_sony.py:5416-5495 | a set-point changes only by a PARAM_SET for it on a free store, to the value's low 32 bits, and only a non-integer value moves the owner field |
| ParameterNames.TargetOfName | 010322_sony.py:5428-5495 | over all names: a name selects the feature whose tag it holds and no earlier one, the empty name and names without a tag select nothing |
| ParameterNames.SetByName | 010322_sony.py:5428-5495 | PARAM_SET by name on a free store: the word (or truncated float) becomes that feature's request and nothing else changes, or the store is left held |
| ParameterNames.ReadByName | 010322_sony.py:5498-5572 | PARAM_REQUEST_READ by name asks for exactly that feature, and kills the receiver exactly if the stored request is negative |
| ParameterNames.ExtReadByName | 010322_sony.py:5644-5740 | PARAM_EXT_REQUEST_READ by name asks for exactly that feature if the store is free and the answer goes out |
| ParameterNames.NothingByName | 010322_sony.py:5428-5740 | a name that selects nothing changes nothing; if not empty it kills the receiver of an ext read |
| EndToEnd.AcceptedRequestCommits | 010322_sony.py:3127-3175 | with a camera that switches to the option it is told, the code sent is that of the request, and exactly the request is committed and cached |
| EndToEnd.ReplyEchoes | 010322_sony.py:1114-1183 | the text printed by a camera that changed a feature reads as an echo of the new value, through scanner and int() |
| EndToEnd.ReportReads | 010322_sony.py:2201-2243 | a printed report of up to 33333 values under the feature's key reads as its first value |
| EndToEnd.ReportServed | 010322_sony.py:6873-6890 | a service pass over such a report caches that value, raises the flag and drops the request |
| EndToEnd.ReadReport | 010322_sony.py:2489-2503 | reading such a report into a free entry returns True and caches its first value |
| EndToEnd.OptionOverTheWire | 010322_sony.py:5824-5838 | an option sent as PARAM_SET under a name of the feature is stored as itself, and the PARAM_VALUE announcing it is read back as the same word |
| Counterexamples.FocusAreaWaits | 010322_sony.py:7745-7747 | a reachable top with a valid focus area pending, focus mode at 99 and no routine due |
| Counterexamples.InfinityLeavesStoreHeld | 010322_sony.py:178-202 | PARAM_SET of S_ISO with type 9 and the bits 0x7F800000 leaves a free store held |
| Counterexamples.UnansweredExtReadIsLost | 010322_sony.py:5666-5736 | an ext read whose immediate answer does not go out leaves no trace |
| Counterexamples.SignallingWordIsChanged | 010322_sony.py:4835-4849 | the word 0x7F800001 does not come back |
| Counterexamples.LateKeyIsLost | 010322_sony.py:1146-1183 | a list of 100001 tokens whose key falls on index 99999 loses its answer |
| Counterexamples.OneByteIsNotSent | 010322_sony.py:4499-4518 | a file of one byte is not sent |
| Counterexamples.NegativeFirstReadingStops | 010322_sony.py:7642-7696 | with a first ISO reading of 4294967295 main stops before its first iteration |
| Counterexamples.ImageRequestHangs | 010322_sony.py:7101-7107 | from any top with the slot free and no negative value: asking for message 263 leads to a top whose iteration hangs on any inputs |
| Counterexamples.SomeRunHangs | 010322_sony.py:7101-7107 | some run hangs |
| Counterexamples.RejectionIsSent | 010322_sony.py:7033-7043 | message 263 and a command in the next iteration: a reachable hung state in which that command was acknowledged as rejected |
| Counterexamples.RejectionIsNotSent | 010322_sony.py:7033-7043 | with a command that can be served in place of message 263: a reachable top at which the rejection stands and nothing was sent |
| MissedReads.MissedReadRepeats | 010322_sony.py:6816-6890 | from any top with an unread request, the slot free and no negative value: if reads keep failing, its PARAM_VALUE goes out as often as one likes though nothing was asked or reported |
| MissedReads.OneRequestManyMessages | 010322_sony.py:6816-6890 | for every n a reachable top after one request, no reported value and n messages |

## Left out

- Separate processes that share the store: the source tests the owner field and then sets it, which excludes nobody. Runs are those of the event-loop mode; single waits are proved under any schedule.
- Subprocess calls, the camera program, USB resets, sleeping and printing: their results are inputs.
- Failed sends of acknowledgements: an acknowledgement event says it was handed to the link.
- MAVLink connections, sockets, serial ports and message encoding other than the parameter word: whether a send succeeds is an input.
- `shlex.split` and the decoding of printed text: the scanner is given tokens. Text that is not ASCII or has an unbalanced quote raises outside any handler: it would leave a camera routine marked as running, or end main when a service read meets it. Runs.MainRunsAlone, Runs.StopsIff and Liveness.RunsAreIterations are about camera programs that print no such text.
- Timestamps: which timed reads are due is an input.
- Immediate PARAM_VALUE and PARAM_EXT_VALUE answers of the message handlers are not events of a trace; the trace holds what the publishers send.
- `processMavlinkMessageData` beyond its effect on `ACK_RESULT` and `task_control_1`: its result is an input, and the branches at 010322_sony.py:7101-7125 that call routines that do not exist raise.
- Got_Param fields, photo and reset flags of the command frame: nothing modelled reads them.
- The payload bits of a NaN through hardware conversions other than the quieting of signalling NaNs.
- `serviceParamRequestsOneAtATime`, the `*_orig` setters, the MPI helpers and the `manageAlpha*` ring: unused or unfinished.
- Joystick, display, gimbal, relay and video wrappers, the other programs of the repository: user interface or thin wrappers.
- Answering.AnsweredInIteration: asks that no feature of the group holds a negative value and that no accepted command stalls the loop, because then its publisher raises or never runs.
