# FlClash: verified models of its concurrent cores

These Dafny files model the parts of FlClash whose correctness depends on interleavings, partial progress or
ownership, and prove what those parts are for. `dafny verify dfyconfig.toml` checks everything.

## What is modelled

**Run intent (Android).** `ServiceStateMachine.dfy` is the start/stop state machine as a small-step system: requests
arrive at any time outside both mutexes, each coroutine advances one atomic action per event, and so every check of
the newest token can be stale when it is acted on. `ServiceSettling.dfy` has what every interleaving keeps,
`ServiceMending.dfy` proves that the machine settles to the newest intent through losses and exceptions, and exactly
which faults keep it from doing so, `ServiceProgress.dfy` that nothing deadlocks, and from exactly which states the
coroutines in flight can still bring the machine to agreement, `ServiceOvertaken.dfy` exactly which starts can still
report started; `ServiceFaults.dfy` gives a schedule for each fault. `ServiceCoroutines.dfy` is the source's own code as
an object whose methods update its fields statement by statement among the others' work, each call proved to be a run of
the small-step system. `RunIntentArbiter.dfy` and `ServiceController.dfy` are the token arbiter and the host contract;
`PendingCallback.dfy` is the consent slot.

**Framed IPC link (Rust host, Go core).** `Frames.dfy` is the wire format with an independent reference reader
(`Parse`). `FrameIo.dfy` has the resumable non-blocking reader and the interruptible writer over adversarial streams,
`SendQueue.dfy` and `MessageSender.dfy` the byte-budgeted queue with any number of senders, `IpcServer.dfy` the server
lifecycle and its event grammar as a small-step system and `IpcServerThreads.dfy` its code on the static fields,
`CoreLink.dfy` and `CoreReader.dfy` the Go peer, and `Delivery.dfy` the end-to-end theorems in both directions.

**Event batcher (Go).** `MessageQueues.dfy` has the lossy bounded queues, `MessageBatcher.dfy` the three-class loop with
its burst bound, size and timer flushing, over live arrivals and over preloaded queues.

**Companions.** `UpdateClaims.dfy` (claims shared by manual and automatic updates), `HelperOwnership.dfy` and
`HelperService.dfy` (the helper's ownership of the Core process), `HelperUnit.dfy` (the systemd unit printer and reader).

## Assumptions

- A lock, an atomic or a channel operation is one step; whatever happens between two of them can be interleaved with
  anything. Leaving a lock is part of the step before it. `refresh` reads the run time in the step that takes the lock:
  what can come in between can as well come before the lock is taken.
- The state machine's host keeps the contract proved for `ServiceController.Controller`: `startService` leaves a
  service of the requested kind up exactly when it answers a non-zero time, and `stopService` leaves none.
- A disconnect clears the service only if its binding is still held, and a binding is held between calls of the
  controller only while a service is up (`ServiceController.Controller.Valid`).
- Asking for a VPN consent and remembering how to abandon it is one step (`ServiceStateMachine.kt:297-305`); the answer
  of a consent arrives in one step with the resumption of the coroutine that waits for it.
- Streams, connections, arrivals, clocks and process exits are finite scripts of arbitrary outcomes: partial reads and
  writes, would-blocks, interruptions, timeouts and errors anywhere. A script that is used up means: the stream has
  ended, the connection has stopped or fails, producers close their queues.
- One connection has one writer thread; message sizes are checked before they are enqueued (`server.rs:89`). For the
  server lifecycle the join of that writer is an answer of the environment that is always available, so `JoinReturns`
  takes the writer's own end for granted; `Delivery.WriterThread` ends on every finite script.
- The helper's children are named by handles that are never reused; a signal does not by itself change a process, its
  exit is a later event.

## Where the code and its documentation disagree

- `ServiceStateMachine.kt:32-36` says that an overtaken start cannot report itself as started. It can in two gaps,
  between the check at line 255 and the publication at line 258 and between the check at line 241 and the publication
  at line 245, and nowhere else: `ServiceOvertaken.OvertakenReportsExactly`. What does hold is that the machine settles.
- `ServiceStateMachine.kt:33` says that the newest request always wins. A stop checks its token at line 273 but not
  again at line 276, so one that has been overtaken in between takes the consent dialog from a newer start
  (`ServiceFaults.OvertakenStopAbandons`), which then never starts (`ServiceOvertaken.AbandonedNeverStarts`). Nobody
  else can take it: `ServiceOvertaken.ConsentIsTakenExactly`. For the same reason such a stop answers true when it finds
  everything stopped (`ServiceFaults.OvertakenStopAnswersTrue`); otherwise an overtaken stop answers false.
- `ServiceStateMachine.kt:70-73` lets a start that raced ahead of a loss keep its intent, also where that start has taken
  over, or taken for granted, the very service that is lost (`ServiceFaults.LossKeepsNewerIntent` and
  `ServiceFaults.LossBetweenReads`); no coroutine then corrects the published STARTED (`ServiceMending.ActionsStayUnmended`).
- `PendingCallback.kt:3-8` says that no caller is left waiting. `cancel` drops its own callback without a call;
  `PendingCallback.AnsweredOnce` is what holds for the others.

## Model

| member | source | states |
|---|---|---|
| ServiceMending.SettlesDespiteLosses | android/app/src/main/kotlin/com/follow/clash/ServiceStateMachine.kt:74-82 | after any interleaving, losses and exceptions included: once every request is answered and every disconnect handled, the service is up exactly when the newest intent asks for it, `runState` is STARTED or STOPPED accordingly, the newest request, be it a start or a stop, has answered true, and the running service is of the kind it asked for, unless a refusal stranded a running service or a fault left an untrue state to nobody |
| ServiceMending.SettlesExactly | android/app/src/main/kotlin/com/follow/clash/ServiceStateMachine.kt:74-82 | after a run without such a fault, one more event and the coroutines' own actions to the end: all of that agrees if and only if the event was not one of the faults (a loss taken under an overtaken token; the rollback of the newest request over a lost service, or a refusal or missing options that leave it nothing else; an exception that leaves no service; each while nobody else in flight could set things right) |
| ServiceMending.DesertsExactly | android/app/src/main/kotlin/com/follow/clash/ServiceStateMachine.kt:74-82 | step by step: that somebody in flight can set an untrue state right is kept by every event but those faults, and by none of them |
| ServiceMending.ActionsStayUnmended | android/app/src/main/kotlin/com/follow/clash/ServiceStateMachine.kt:212-284 | once nobody is going to set an untrue state right, no action of a coroutine ever does; only a new request can |
| ServiceMending.SettlesToNewestIntent | android/app/src/main/kotlin/com/follow/clash/ServiceStateMachine.kt:116-284 | in particular, without losses, throwing starts and stranding refusals every run that has ended agrees with the newest intent |
| ServiceMending.SeenHolds | android/app/src/main/kotlin/com/follow/clash/ServiceStateMachine.kt:38-47 | after every schedule whatever: a running service is never published as stopped, STARTING and STOPPING stand while the service is being started and stopped, and what each coroutine inside the transition lock has seen of the service still holds as far as a loss cannot undo it |
| ServiceMending.AgreesExactly | android/app/src/main/kotlin/com/follow/clash/ServiceStateMachine.kt:212-284 | in an ended run, agreeing with the newest intent is the same as nothing untrue being left and no service up against the intent |
| ServiceMending.StopAnswersExactly | android/app/src/main/kotlin/com/follow/clash/ServiceStateMachine.kt:272-284 | in every run, the event by which a stop answers: it answers true exactly if its request is the newest at that moment, or if after its check it finds everything stopped already; when it answers true no service is up and STOPPED is published |
| ServiceMending.StartAnswers | android/app/src/main/kotlin/com/follow/clash/ServiceStateMachine.kt:212-261 | in every run, the event by which a start answers: when true, STARTED is published and a service that is up is of its kind; when false, it has been overtaken or rolled back, and no service is up against the intent unless it was turned away at its gate |
| ServiceSettling.RefusedStopIsOvertaken | android/app/src/main/kotlin/com/follow/clash/ServiceStateMachine.kt:272-283 | a stop that has answered false is not the newest request, then and in every continuation, and its answer stays |
| ServiceFaults.OvertakenStopAnswersTrue | android/app/src/main/kotlin/com/follow/clash/ServiceStateMachine.kt:273-278 | a faultless schedule in which a stop is overtaken after its check and answers true because nothing was running |
| ServiceSettling.StartsWithLatestOptions | android/app/src/main/kotlin/com/follow/clash/ServiceStateMachine.kt:220-228 | in every run, a start takes the options synchronised last at the moment it reads them, fails if there are none, and keeps them to its end |
| ServiceSettling.UnwantedServiceIsCovered | android/app/src/main/kotlin/com/follow/clash/ServiceStateMachine.kt:212-284 | at every moment, a service that is up against the newest intent has some coroutine in flight that is bound to stop it: the stop of the newest token or a start before its reconcile; losses and exceptions included |
| ServiceSettling.GateCoverExactly | android/app/src/main/kotlin/com/follow/clash/ServiceStateMachine.kt:116-125 | a notification answer loses track of an unwanted service if and only if it refuses the newest request over a running service while no other coroutine is bound to stop it |
| ServiceSettling.CoreHolds | android/app/src/main/kotlin/com/follow/clash/ServiceStateMachine.kt:38-47 | after every schedule, locks, tokens and the pending consent belong to exactly the coroutine that holds them, and a start that has given up was overtaken for good |
| ServiceSettling.MutualExclusion | android/app/src/main/kotlin/com/follow/clash/ServiceStateMachine.kt:38-39 | two coroutines are never both inside `transitionLock`, nor two starts both inside their preparation |
| ServiceSettling.AbandonFreesConsent | android/app/src/main/kotlin/com/follow/clash/ServiceStateMachine.kt:308-312 | after a stop abandons the preparation, the next action of a start parked on consent is its refusal, without any answer |
| ServiceOvertaken.AbandonedNeverStarts | android/app/src/main/kotlin/com/follow/clash/ServiceStateMachine.kt:308-312 | a start parked on consent when a stop abandons the preparation never starts in any continuation, even if it is newer than the stop |
| ServiceOvertaken.ConsentIsTakenExactly | android/app/src/main/kotlin/com/follow/clash/ServiceStateMachine.kt:286-312 | others take the consent dialog from a start that waits for it if and only if a stop that has passed its check abandons the preparation |
| ServiceFaults.OvertakenStopAbandons | android/app/src/main/kotlin/com/follow/clash/ServiceStateMachine.kt:272-276 | a faultless schedule in which that stop has been overtaken by the very start that waits |
| ServiceOvertaken.OvertakenReportsExactly | android/app/src/main/kotlin/com/follow/clash/ServiceStateMachine.kt:240-261 | after any run, an overtaken start has a continuation in which it reports started if and only if it stands at one of the two publications, has reported already, or is in the reuse test and that can still succeed: at the run time with a service up, at the kind even without one, in both only with an active VPN service if it wants one |
| ServiceOvertaken.ConsentStartsExactly | android/app/src/main/kotlin/com/follow/clash/ServiceStateMachine.kt:286-306 | after any run, the newest start that waits for consent has a continuation in which it starts if and only if the dialog is still its own and no disconnect handler is inside the transition lock about to roll it back |
| ServiceOvertaken.NeverReports | android/app/src/main/kotlin/com/follow/clash/ServiceStateMachine.kt:240-261 | an overtaken start that stands nowhere else never reports started, over any continuation |
| ServiceOvertaken.OvertakenTurnsBack | android/app/src/main/kotlin/com/follow/clash/ServiceStateMachine.kt:220-283 | an overtaken request that stands before one of its checks never comes past that check in any continuation: a start reconciles or is refused, a stop answers false |
| ServiceOvertaken.PublicationIsInevitable | android/app/src/main/kotlin/com/follow/clash/ServiceStateMachine.kt:245-259 | a start at a publication reports started with its next action, whatever the others do before it |
| ServiceProgress.ActionsUseUpWork | android/app/src/main/kotlin/com/follow/clash/ServiceStateMachine.kt:212-284 | every action of a coroutine either does nothing or lowers a natural-number budget, so only new requests create work |
| ServiceProgress.NoDeadlock | android/app/src/main/kotlin/com/follow/clash/ServiceStateMachine.kt:38-39 | while some request is unanswered, some disconnect unhandled or some refresh unpublished, a coroutine can act, without stranding a service and, where there is hope of agreement, without losing it |
| ServiceProgress.CanSettleExactly | android/app/src/main/kotlin/com/follow/clash/ServiceStateMachine.kt:116-284 | every run whatever, with any faults in it: the coroutines in flight can still bring it to an end in which everything agrees if and only if there is hope: one of them can set right what is untrue, and if a service is up against the intent, one can still take it down, or a loss under the newest token can |
| ServiceProgress.HopelessForGood | android/app/src/main/kotlin/com/follow/clash/ServiceStateMachine.kt:116-284 | once there is no hope, no actions of the coroutines bring it back: a service stranded with nothing left in flight for it stays, and so does a deserted state |
| ServiceProgress.FaultsAloneLoseHope | android/app/src/main/kotlin/com/follow/clash/ServiceStateMachine.kt:116-284 | a run without a stranding refusal and without one of the faults of `ServiceMending.SettlesExactly` always has hope |
| ServiceProgress.CanAlwaysSettle | android/app/src/main/kotlin/com/follow/clash/ServiceStateMachine.kt:116-159 | every run whatever, with all that is still in flight, extends by actions alone to one in which everything is done, without stranding a service; where there is hope, to one that agrees, and without deserting anything on the way |
| ServiceFaults.RefusalStrandsService | android/app/src/main/kotlin/com/follow/clash/ServiceStateMachine.kt:119-123 | a schedule in which a refused notification leaves the service up, everything finished and the intent stopped |
| ServiceFaults.ThrowLeavesStarting | android/app/src/main/kotlin/com/follow/clash/ServiceStateMachine.kt:126-131 | a schedule in which a throwing start leaves `runState` at STARTING although everything has finished |
| ServiceFaults.LossKeepsNewerIntent | android/app/src/main/kotlin/com/follow/clash/ServiceStateMachine.kt:70-82 | a schedule whose one fault is a loss taken under an overtaken token: it ends with a running intent, STARTED, and no service |
| ServiceFaults.LossBetweenReads | android/app/src/main/kotlin/com/follow/clash/ServiceStateMachine.kt:244 | a schedule in which a loss comes between the two reads of the reuse test: a start that wants no VPN reports STARTED over a service that is gone, and the report of the loss comes under an overtaken token |
| ServiceFaults.OvertakenStartPublishes | android/app/src/main/kotlin/com/follow/clash/ServiceStateMachine.kt:255-259 | a faultless schedule in which a stop comes between the last check of a start and its publication, and STARTED is reported; the stop is bound to act |
| ServiceFaults.OvertakenStartReuses | android/app/src/main/kotlin/com/follow/clash/ServiceStateMachine.kt:241-246 | the same for the reuse of a running service, while the host is being asked |
| ServiceCoroutines.StateMachine.constructor | android/app/src/main/kotlin/com/follow/clash/ServiceStateMachine.kt:37-49 | a new machine is stopped, with no request |
| ServiceCoroutines.StateMachine.CreateRequest | android/app/src/main/kotlin/com/follow/clash/ServiceStateMachine.kt:116-117 | a request mints a fresh token and starts its coroutine, outside both locks |
| ServiceCoroutines.StateMachine.Fail | android/app/src/main/kotlin/com/follow/clash/ServiceStateMachine.kt:320-322 | a failed request rolls the intent back only while it is the newest |
| ServiceCoroutines.StateMachine.RequestStart | android/app/src/main/kotlin/com/follow/clash/ServiceStateMachine.kt:116-144 | one call, its gate and its coroutine with the exception handler, among any others: the whole is a run of the small-step system, the answer is how the coroutine ends, and STARTED is published when it answers true |
| ServiceCoroutines.StateMachine.Start | android/app/src/main/kotlin/com/follow/clash/ServiceStateMachine.kt:212-218 | one start at a time; unless it succeeded it has reconciled before it leaves the preparation lock |
| ServiceCoroutines.StateMachine.RunStart | android/app/src/main/kotlin/com/follow/clash/ServiceStateMachine.kt:220-240 | checks, options, consent and transition in the source's order, each statement the next action of the small-step system |
| ServiceCoroutines.StateMachine.PrepareStart | android/app/src/main/kotlin/com/follow/clash/ServiceStateMachine.kt:220-238 | the checks, options and consent before the transition lock, in the order of the source; a start that cannot go on has rolled its request back |
| ServiceCoroutines.StateMachine.Transition | android/app/src/main/kotlin/com/follow/clash/ServiceStateMachine.kt:240-261 | the body of the transition lock; on every way out the lock has been left |
| ServiceCoroutines.StateMachine.ProbeService | android/app/src/main/kotlin/com/follow/clash/ServiceStateMachine.kt:244 | the run time and then the kind of the service are asked for, with anything in between; the second question may throw |
| ServiceCoroutines.StateMachine.PrepareVpn | android/app/src/main/kotlin/com/follow/clash/ServiceStateMachine.kt:286-306 | consent at once, refused, thrown, or by a dialog that an abandoning stop ends with a refusal |
| ServiceCoroutines.StateMachine.ReconcileStopped | android/app/src/main/kotlin/com/follow/clash/ServiceStateMachine.kt:263-270 | an unwanted service is stopped and the transition lock left |
| ServiceCoroutines.StateMachine.RequestStop | android/app/src/main/kotlin/com/follow/clash/ServiceStateMachine.kt:146-159 | one call with its coroutine among any others is a run of the small-step system, and answers how the coroutine ends: true only with no service up and STOPPED published, false only if the request is not the newest any more |
| ServiceCoroutines.StateMachine.Stop | android/app/src/main/kotlin/com/follow/clash/ServiceStateMachine.kt:272-284 | the statements of a stop in the source's order, each the next action of the small-step system; true only with no service up and STOPPED published, false only if overtaken |
| ServiceCoroutines.StateMachine.HandleServiceLost | android/app/src/main/kotlin/com/follow/clash/ServiceStateMachine.kt:74-82 | a loss is published as STOPPED, or left alone because a service is up or its token is no longer the newest; the lock is free again |
| ServiceCoroutines.StateMachine.ServiceDisconnected | android/app/src/main/kotlin/com/follow/clash/ServiceController.kt:142-147 | the newest token is captured when the disconnect is observed |
| ServiceCoroutines.StateMachine.ClearBinding | android/app/src/main/kotlin/com/follow/clash/ServiceController.kt:148-156 | only the binding still held is cleared, and only then is the loss reported |
| ServiceCoroutines.StateMachine.RefreshRunState | android/app/src/main/kotlin/com/follow/clash/ServiceStateMachine.kt:62-66 | under the transition lock, a refresh publishes what the run time was when it was read, with anything in between |
| ServiceCoroutines.StateMachine.FieldsAgree | android/app/src/main/kotlin/com/follow/clash/ServiceStateMachine.kt:37-49 | the theorem carried over to the object: once all is done without a fault, its own fields agree with the newest intent, and the newest request has answered true |
| RunIntentArbiter.OvertakenForGood | android/common/src/main/java/com/follow/clash/common/RunIntentArbiter.kt:22-24 | a token that is no longer the newest never becomes current again, whatever requests and rollbacks follow |
| RunIntentArbiter.ResetWinsOnce | android/common/src/main/java/com/follow/clash/common/RunIntentArbiter.kt:26-27 | a rollback of the newest token takes effect, leaves a stopped intent, and a second rollback of it never does anything |
| RunIntentArbiter.Arbiter.Request | android/common/src/main/java/com/follow/clash/common/RunIntentArbiter.kt:22 | a request becomes the newest intent under an identity that no earlier token has |
| RunIntentArbiter.Arbiter.ResetToStopped | android/common/src/main/java/com/follow/clash/common/RunIntentArbiter.kt:26-27 | compare-and-set: it wins exactly if the token is the newest, and then installs a fresh stopped one |
| ServiceController.Controller.Start | android/app/src/main/kotlin/com/follow/clash/ServiceController.kt:66-108 | the host contract: the service is up afterwards exactly when the result is not zero, it is then of the requested kind, and a service that was up keeps its run time |
| ServiceController.Controller.Stop | android/app/src/main/kotlin/com/follow/clash/ServiceController.kt:110-113 | the service is down afterwards, nothing is bound, and no service that can be stopped runs on |
| ServiceController.Controller.TearDownServices | android/app/src/main/kotlin/com/follow/clash/ServiceController.kt:115-134 | the binding is gone and both services are stopped by name, bound or not; only one whose stop is refused goes on |
| ServiceController.Controller.Unbind | android/app/src/main/kotlin/com/follow/clash/ServiceController.kt:36-43 | the binding is given up and the service left running; it is then no longer known to be the VPN one |
| ServiceController.Controller.IsVpnServiceActive | android/app/src/main/kotlin/com/follow/clash/ServiceController.kt:136-138 | answers whether a service is up and is the VPN one |
| ServiceController.Controller.HandleDisconnected | android/app/src/main/kotlin/com/follow/clash/ServiceController.kt:142-157 | a disconnect clears the service exactly when it concerns the binding still held |
| PendingCallback.EveryCallbackIsConserved | android/common/src/main/java/com/follow/clash/common/PendingCallback.kt:28-52 | over any interleaving of replace, resolve, cancel and the calls they owe, pending is exactly what the slot holds and every installation has been called once if settled or superseded and never otherwise |
| PendingCallback.FatesAreFinal | android/common/src/main/java/com/follow/clash/common/PendingCallback.kt:28-52 | a decided fate never changes later: what is due is called once, with the value it is owed, what is settled, superseded or cancelled stays so |
| PendingCallback.PendingLeavesFor | android/common/src/main/java/com/follow/clash/common/PendingCallback.kt:28-52 | which step ends the wait of an installation, and what it is then owed: the value of an answer, the superseded value of a newer request, or nothing for its own cancellation, each exactly |
| PendingCallback.AnsweredOnce | android/common/src/main/java/com/follow/clash/common/PendingCallback.kt:3-19 | an installation that is not cancelled is due as soon as an answer or a newer request has come, never before, and its invocation makes exactly one call, with the value of the first of them, whatever happens in between |
| PendingCallback.PendingSlot.Replace | android/common/src/main/java/com/follow/clash/common/PendingCallback.kt:28-35 | the swap installs the new callback and hands out the superseded one, if any, to be told the superseded value |
| PendingCallback.PendingSlot.Resolve | android/common/src/main/java/com/follow/clash/common/PendingCallback.kt:37-44 | the swap empties the slot and hands out its callback, to be told the answer |
| PendingCallback.PendingSlot.Cancel | android/common/src/main/java/com/follow/clash/common/PendingCallback.kt:46-52 | the slot is emptied exactly if it holds the given callback |
| Frames.LittleEndianRoundTrip | plugins/rust_api/rust/src/ipc/frame.rs:90-91 | a length survives its four-byte header |
| Frames.LittleEndianInverse | plugins/rust_api/rust/src/ipc/frame.rs:118 | every four bytes are the header of exactly the length read from them |
| Frames.ParseSound | plugins/rust_api/rust/src/ipc/frame.rs:103-140 | the frames read off a stream, encoded again, followed by the remainder are the stream, and the remainder holds no complete frame |
| Frames.ParseEncodeAll | plugins/rust_api/rust/src/ipc/frame.rs:85-93 | encoded messages are read back one for one, whatever bytes follow |
| Frames.ParseUnique | plugins/rust_api/rust/src/ipc/frame.rs:85-140 | there is only one way to split a stream into frames and an incomplete remainder |
| Frames.CutReadsPrefix | plugins/rust_api/rust/src/ipc/frame.rs:85-140 | any cut of an encoded stream reads as a prefix of its messages, cut inside the next one and never at a refused header |
| Frames.OversizedForGood | plugins/rust_api/rust/src/ipc/frame.rs:22-31 | behind a refused header no further byte yields a frame |
| FrameIo.FrameReader.constructor | plugins/rust_api/rust/src/ipc/frame.rs:95-101 | a fresh reader has taken and yielded nothing |
| FrameIo.FrameReader.Poll | plugins/rust_api/rust/src/ipc/frame.rs:104-140 | bytes taken = encodings of the frames yielded ++ header and payload bytes in the buffers, which hold no complete frame, whatever the chunks, interruptions and refusals; a refused header is reported and never read past |
| FrameIo.FrameReader.PollHeader | plugins/rust_api/rust/src/ipc/frame.rs:106-125 | one read into the header keeps that account, and judges the length when the header is complete |
| FrameIo.FrameReader.PollPayload | plugins/rust_api/rust/src/ipc/frame.rs:127-138 | one read into the payload keeps that account, and yields the frame when it is complete |
| FrameIo.FrameReader.Reset | plugins/rust_api/rust/src/ipc/frame.rs:142-147 | the reader forgets the frame it has completed |
| FrameIo.ChunkingIsIrrelevant | plugins/rust_api/rust/src/ipc/frame.rs:103-140 | cutting a chunk in two and inserting would-blocks or interrupts anywhere do not change the stream that reading depends on |
| FrameIo.ReadLoop | plugins/rust_api/rust/src/ipc/server.rs:226-250 | the connection delivers exactly the complete frames of the byte stream, whatever its chunking; a stop only shortens the sequence |
| FrameIo.WriteAllInterruptible | plugins/rust_api/rust/src/ipc/frame.rs:48-83 | the write succeeds exactly if the sink takes as many bytes before a step that ends it (a stop, an error, a write of zero), whatever would-blocks and interrupts lie in between; otherwise exactly what was taken is on the wire and the report names that step |
| FrameIo.AfterIsFewest | plugins/rust_api/rust/src/ipc/frame.rs:48-83 | a successful write uses up the fewest steps that take its bytes, none of which ends it |
| FrameIo.RetriesAreIrrelevant | plugins/rust_api/rust/src/ipc/frame.rs:63-80 | a would-block or an interrupt anywhere changes neither how much the sink takes nor what ends the write |
| FrameIo.WriteFrame | plugins/rust_api/rust/src/ipc/frame.rs:85-93 | an oversized message writes nothing; any other is written whole exactly if the sink takes its header and then its payload, and otherwise a proper prefix of it with the report of what ended it |
| SendQueue.LedgerBalances | plugins/rust_api/rust/src/ipc/queue.rs:38-49 | at every moment of every interleaving the counter equals reserved + queued + taken-but-not-subtracted bytes, and no subtraction underflows |
| SendQueue.PendingIsBounded | plugins/rust_api/rust/src/ipc/queue.rs:35-45 | the counter never exceeds one frame, and beyond the budget a single non-empty message accounts for all of it; the channel keeps its capacity |
| SendQueue.ErrorsLeaveNothing | plugins/rust_api/rust/src/ipc/queue.rs:52-83 | a call that reports an error has queued nothing and holds no bytes; one that succeeds is queued exactly once |
| SendQueue.RefusedExactly | plugins/rust_api/rust/src/ipc/queue.rs:35-45 | in every run, the budget refuses a reservation exactly if something is pending and the sum would exceed it, so an empty counter takes a message of any size |
| SendQueue.QueuedExactly | plugins/rust_api/rust/src/ipc/queue.rs:61-73 | in every run, a reserved message is queued exactly if the receiver is there and the channel has room |
| SendQueue.QueueHolds | plugins/rust_api/rust/src/ipc/queue.rs:24-83 | ledger and order hold after every schedule of calls and the draining writer; queue content = accepted messages in order of acceptance |
| SendQueue.ZeroPendingMayBeQueued | plugins/rust_api/rust/src/ipc/queue.rs:35-45 | a run with zero pending bytes and a non-empty queue |
| MessageSender.MessageQueue.TryReserve | plugins/rust_api/rust/src/ipc/queue.rs:38-45 | a reservation adds its bytes, or leaves the counter alone when the budget refuses |
| MessageSender.MessageQueue.TrySend | plugins/rust_api/rust/src/ipc/queue.rs:63-73 | a non-waiting send queues the message, or tells a full channel from one without a receiver |
| MessageSender.MessageQueue.Release | plugins/rust_api/rust/src/ipc/queue.rs:47-49 | releasing takes the reserved bytes back |
| MessageSender.MessageQueue.Decide | plugins/rust_api/rust/src/ipc/queue.rs:75-81 | a stopped server ends the call before a passed deadline does |
| MessageSender.MessageQueue.Receive | plugins/rust_api/rust/src/ipc/server.rs:207-209 | the writer takes the oldest message; it stays on the ledger until subtracted |
| MessageSender.MessageQueue.Subtract | plugins/rust_api/rust/src/ipc/server.rs:210 | the bytes of the message taken leave the counter |
| MessageSender.MessageQueue.DropReceiver | plugins/rust_api/rust/src/ipc/server.rs:204-224 | with the writer the receiver goes, and sends find no one |
| MessageSender.MessageQueue.EnqueueMessage | plugins/rust_api/rust/src/ipc/queue.rs:52-83 | the retry loop among any other threads: it answers success exactly when its message is on the queue, every error leaves the queue as the others made it, and it gives up only because the receiver is gone, the server has stopped, or it is late; alone it succeeds exactly if budget and channel have room |
| Delivery.WriterThread | plugins/rust_api/rust/src/ipc/server.rs:204-224 | among senders at work at any moment, between receive and subtraction, during and after a write and after the end included, and stopped anywhere: the wire carries the accepted messages in queue order, cut off at most inside the last one taken; the error is the one with which the sink's script ends a write, and there is none otherwise; unless the sink ends it, every turn that finds a message puts it on the wire whole |
| Delivery.WriteTurn | plugins/rust_api/rust/src/ipc/server.rs:206-217 | a turn that finds a message goes on exactly if the sink takes its whole frame, and reports what the sink did otherwise |
| Delivery.TakeNext | plugins/rust_api/rust/src/ipc/server.rs:206-210 | a turn of the writer moves at most one message off the queue, oldest first, with the ledger kept while senders reserve before, and between, its two operations |
| Delivery.Deliver | plugins/rust_api/rust/src/ipc/server.rs:204-224 | end to end: from any prefix of the wire, however chunked, the Go core handles a prefix of the accepted messages in queue order, and from the whole wire exactly those whose frames were completed |
| Delivery.DeliverBack | plugins/rust_api/rust/src/ipc/server.rs:226-250 | end to end the other way: from any prefix of the wire of the Go core's sends the host delivers those that went through, in order, and at most the one more being written at a close; from the whole wire exactly those if the connection is still open |
| Delivery.CarriedIsPrefix | plugins/rust_api/rust/src/ipc/server.rs:204-224 | a wire that carries the received messages is a prefix of the encodings of the accepted ones |
| Delivery.CarriedReads | core/server.go:126-140 | the frames read off such a wire are the received messages, without the last one if its frame was cut off |
| IpcServer.IsolatedHolds | plugins/rust_api/rust/src/ipc/server.rs:44-86 | after every schedule of callers and server threads, at most the newest thread is alive, it is the one a stop will join, and the sender and the state lock belong to it |
| IpcServer.NoThreadOutlivesItsTurn | plugins/rust_api/rust/src/ipc/server.rs:44-79 | while a thread is alive it has no successor, no caller is about to raise the flag, and a published sender is its own: an exiting thread cannot clear its successor |
| IpcServer.ClearedUntilRestart | plugins/rust_api/rust/src/ipc/server.rs:44-50 | after a stop has cleared the sender it stays empty and the flag down until a restart raises the flag, even against a connection about to be published |
| IpcServer.JoinReturns | plugins/rust_api/rust/src/ipc/server.rs:51-55 | with the flag down every action of the joined thread brings it nearer its end and one is always possible, so a join returns |
| IpcServer.PhasesHold | plugins/rust_api/rust/src/ipc/server.rs:114-265 | what a thread has emitted always fits the event grammar at the place where the thread stands |
| IpcServer.SetupErrorOrReadyFirst | plugins/rust_api/rust/src/ipc/server.rs:114-149 | a thread emits nothing, or a single setup error, or READY first and never again |
| IpcServer.DataIsConnected | plugins/rust_api/rust/src/ipc/server.rs:226-261 | every DATA and every DISCONNECTED lies in a bracket opened by a CONNECTED with only data and errors in between |
| IpcServer.ConnectionsAreBracketed | plugins/rust_api/rust/src/ipc/server.rs:194-262 | between two CONNECTED events of one thread there is a DISCONNECTED, so only the last bracket can stay open |
| IpcServer.DataIsWhatWasRead | plugins/rust_api/rust/src/ipc/server.rs:233-240 | in every run, the DATA events of a thread carry exactly the frames that its reader handed over and its sink took, unaltered, each once and in order |
| IpcServer.EventsAreWhatHappened | plugins/rust_api/rust/src/ipc/server.rs:114-265 | in every run, the events of a thread are exactly what it met at the places where it stood: every error that is to be reported, READY, CONNECTED, the data and DISCONNECTED, each once and in order |
| IpcServer.OpenConnectionHasSender | plugins/rust_api/rust/src/ipc/server.rs:184-196 | in every run, the sender of a connection is published from before CONNECTED until the connection ends or a stop takes it away |
| IpcServer.CanServe | plugins/rust_api/rust/src/ipc/server.rs:59-265 | a restarted server that nothing fails can serve any connections with any frames: READY, then per connection CONNECTED, its data and DISCONNECTED, and it is ready for the next |
| IpcServerThreads.Server.StopServerThread | plugins/rust_api/rust/src/ipc/server.rs:44-57 | flag, sender and handle, join, in the source's order among any others: a run of the small-step system that ends with the thread joined |
| IpcServerThreads.Server.TakeHandle | plugins/rust_api/rust/src/ipc/server.rs:46-50 | under the state lock the sender is cleared and the handle taken |
| IpcServerThreads.Server.RestartServer | plugins/rust_api/rust/src/ipc/server.rs:59-79 | a restart is a run of the small-step system; when it has started a thread, that thread is the one whose handle is stored |
| IpcServerThreads.Server.StopServer | plugins/rust_api/rust/src/ipc/server.rs:81-86 | a stop is a run of the small-step system |
| IpcServerThreads.Server.IoLoop | plugins/rust_api/rust/src/ipc/server.rs:114-265 | the thread's whole work, statement by statement among any others, is a run of the small-step system, and ends with the flag lowered and the sender cleared; the data it shows are, connection by connection, the first frames of the streams |
| IpcServerThreads.Server.ServeConnection | plugins/rust_api/rust/src/ipc/server.rs:184-261 | one connection from its acceptance to its end, back at the loop or on the way out; the data it shows are the first frames of its stream, whatever its chunking |
| IpcServerThreads.Server.ReadConnection | plugins/rust_api/rust/src/ipc/server.rs:226-250 | the read loop with its own resumable reader: the data shown are the first frames of the stream, and all of them if it reads to the end of the stream |
| IpcServerThreads.Server.PublishSender | plugins/rust_api/rust/src/ipc/server.rs:184-192 | the sender is published under the state lock only if the flag is still up |
| IpcServerThreads.Server.ThreadIsIsolated | plugins/rust_api/rust/src/ipc/server.rs:44-265 | the theorems carried over to the object: its threads' events fit the grammar, and a live thread has no successor and owns any published sender |
| CoreLink.ResumingWriter.Write | core/server.go:77-90 | the connection takes a prefix of the data without gap or repetition across timeouts, every byte of it is counted, and the call ends where the connection's outcomes and deadlines make it end |
| CoreLink.ResumingWriter.Resume | core/server.go:96-101 | a stall is waited out exactly if it is a timeout in the middle of a frame and another deadline is granted |
| CoreLink.WriteAll | core/server.go:110-124 | what is written is a prefix of the data, all of it on success, and exactly as much as the outcomes and deadlines make of it |
| CoreLink.WriteFrame | core/server.go:58-70 | an oversized frame writes nothing; otherwise a prefix of the encoding is written, all of it on success |
| CoreLink.Link.LogDeliveryError | core/server.go:38-43 | trouble is reported only if none has been since the last delivery |
| CoreLink.Link.Send | core/server.go:142-173 | each call adds nothing, adds exactly one whole frame, or closes the connection in the middle of one, and which of these is exactly what the outcomes and deadlines of the connection make of the frame; the wire of an open connection is a concatenation of whole frames, and trouble is reported once until a frame gets through |
| CoreLink.FrameGoesThrough | core/server.go:58-124 | a frame goes through exactly if error-free outcomes complete its header and its payload and the write goes on after every other one: some byte is taken, or a timeout after the first byte is granted a new deadline; otherwise it is broken off at the first outcome of which that is not so |
| CoreLink.Link.SendAll | core/server.go:142-173 | after any run of sends the host reads exactly the frames of the calls that went through, in order, and after a close at most the one being written |
| CoreReader.ReadFull | core/server.go:126-138 | a full read takes exactly the next bytes of the stream; it fails only at the end of a shorter stream |
| CoreReader.ReadFrame | core/server.go:126-140 | the frame returned is the front of the stream; it ends only where no complete acceptable frame is left, and tells a clean end from everything else |
| CoreReader.Serve | core/server.go:200-207 | the calls handled are exactly the complete frames of the stream, however it is chunked |
| MessageQueues.Channel.EnqueueState | core/message.go:56-61 | a state event is queued exactly if there is room and never evicts another |
| MessageQueues.Channel.EnqueueLatest | core/message.go:63-76 | whatever other producers and the batcher do before each of its operations on the channel, the message is kept if and only if one of the four attempts finds room, by the first that does |
| MessageQueues.NewestWins | core/message.go:63-76 | with nobody in between the message is always kept, in a full queue in place of the oldest |
| MessageQueues.SendMessage | core/message.go:34-54 | a message goes to the queue of its class and leaves the other two alone; it is kept exactly under the rule of that queue, and then is its newest |
| MessageBatcher.RestIsAlternate | core/message.go:119-185 | message by message, the priority rule with its burst counter is the schedule of eight priority and one bulk |
| MessageBatcher.BatchPreloaded | core/message.go:78-187 | for preloaded closed queues the flattened output is: all state, then eight priority and one bulk while both last, then the rest, whichever ready case is picked and whenever the timer fires |
| MessageBatcher.Batcher.RunMessageBatcher | core/message.go:78-187 | for any arrivals: per source the output is what left its queue for a batch, in queue order; batches end exactly where they are full, where a select takes the fired timer, which it does at the latest when no queue is ready, or at the end; they have 1 to 32 messages; at most eight priority messages overtake a waiting bulk one; it ends with every queue drained and all sent, and a queue from which nothing was evicted has been sent completely |
| MessageBatcher.BatchEndsExactly | core/message.go:93-117 | a batch goes out exactly when its last message makes it full or a select takes the timer, whole and before anything more is taken |
| MessageBatcher.Batcher.TryAll | core/message.go:161-184 | every blocking select is on record before what it takes, with the timer, its pick and whether a queue was ready; it takes something exactly if a queue is ready or the timer has fired |
| MessageBatcher.Batcher.TryDeadline | core/message.go:182-183 | the timer's case is taken exactly if it is armed and has fired, and then the pending batch goes out whole |
| MessageBatcher.Batcher.Iterate | core/message.go:120-185 | one round keeps conservation, batch sizes, the timer armed exactly for a pending batch, and the burst bound while bulk is open, and makes progress |
| MessageBatcher.Batcher.Flush | core/message.go:93-107 | a flush sends a non-empty batch whole and disarms the timer |
| MessageBatcher.Batcher.AppendMessage | core/message.go:108-117 | appending arms the timer for a first message and flushes a full batch |
| MessageBatcher.Batcher.Select | core/message.go:161-184 | the blocking select takes from a ready open queue, nils a closed drained one, or flushes on the deadline, keeping all invariants, the record of where batches end among them |
| MessageBatcher.BoundedWindows | core/message.go:132-147 | in any stretch of the log in which a bulk message waits and is passed over, at most eight priority messages were taken |
| MessageBatcher.Batcher.DrainedIsBatched | core/message.go:120-186 | what has entered a drained queue without evictions is exactly what the batcher has put out for it, in order |
| UpdateClaims.HeldAlways | core/hub.go:373-423 | after any interleaving hook claims are in-flight claims, and every key in flight is held by exactly one running manual update or by an automatic one that has not finished |
| UpdateClaims.OneUpdatePerKey | core/hub.go:378-386 | at most one manual update runs per key |
| UpdateClaims.HooksNeverFreeAnUpdate | core/hub.go:403-423 | whatever hooks start and finish inside a manual update, its claim stays and is not theirs |
| UpdateClaims.HookClaimShutsOutUpdates | core/hub.go:403-423 | while an automatic update holds its claim no manual update of that key runs |
| UpdateClaims.HookClaimsFreeKey | core/hub.go:403-412 | a hook that starts on a free key claims it, and no manual update of the key runs until a hook for it finishes, whatever else happens |
| UpdateClaims.UpdateIsLetInExactly | core/hub.go:378-393 | in every run, a manual update is let in exactly if its key is free, and its end frees its own key and nothing else |
| UpdateClaims.AllWorkReleases | core/hub.go:388-423 | both maps are empty once no manual update runs and every automatic one has finished |
| UpdateClaims.ScopesAreApart | core/hub.go:368-371 | geo resources and providers never share a key |
| UpdateClaims.Registry.ClaimUpdate | core/hub.go:378-386 | a claim succeeds exactly if the key is not in flight, and then puts it in flight |
| UpdateClaims.Registry.ReleaseUpdate | core/hub.go:388-393 | a release clears the key in both maps |
| UpdateClaims.Registry.ClaimGeoUpdateFromHook | core/hub.go:403-412 | a hook claims a free key and leaves a claimed one alone |
| UpdateClaims.Registry.ReleaseGeoUpdateFromHook | core/hub.go:414-423 | a hook frees only what a hook has claimed |
| HelperOwnership.OwnedAlways | services/helper/src/service/hub.rs:352-529 | over any run of requests, failed terminations and exits, every child spawned is either collected, or managed, or was never confined, and only one of these |
| HelperOwnership.LiveCoreIsManaged | services/helper/src/service/hub.rs:352-529 | on every build but the Windows one, every Core that is running is the managed one, so at most one runs |
| HelperOwnership.OwnsExactly | services/helper/src/service/hub.rs:455-465 | every uncollected child is managed if and only if no spawned child ever failed to be confined |
| HelperOwnership.UnconfinedForGood | services/helper/src/service/hub.rs:455-465 | a Core that could not be confined is never managed or collected again, whatever requests follow |
| HelperOwnership.UnconfinedCoreEscapes | services/helper/src/service/hub.rs:455-465 | on Windows such a start exists for every valid pipe and session: the Core runs and a stop of its session finds nothing to stop |
| HelperOwnership.StoppedMeansExited | services/helper/src/service/hub.rs:481-528 | the answer stopped means that the Core of that very session was managed, its exit was collected, and the slot is empty |
| HelperOwnership.UnstoppedKeepsTheCore | services/helper/src/service/hub.rs:481-528 | any other answer leaves the slot as it was, and a request of another session changes nothing at all |
| HelperOwnership.OthersNeverStopIt | services/helper/src/service/hub.rs:334-340 | any number of stop requests of other sessions leaves the managed Core of this one in place and uncollected |
| HelperOwnership.StartReplaces | services/helper/src/service/hub.rs:411-473 | a started Core is a new child, managed under its session, and the Core managed before has been collected |
| HelperOwnership.NoSpawnOverALiveCore | services/helper/src/service/hub.rs:411-421 | nothing is spawned before the previous Core has been collected, and a failed release leaves that Core managed |
| HelperOwnership.WaitSucceedsExactly | services/helper/src/service/hub.rs:135-146 | waiting succeeds if and only if some poll before the deadline finds the child gone and no poll up to it failed |
| HelperOwnership.TerminatesExactly | services/helper/src/service/hub.rs:124-146 | a termination succeeds exactly if the exit is seen: in time after an accepted request to exit, or, if the child outlives that without a failed poll, in time after the kill; and after the kill alone where no request was accepted |
| HelperOwnership.StartsExactly | services/helper/src/service/hub.rs:395-479 | a start succeeds exactly if the request is valid, the previous Core has gone, the new one is verified, has its socket, is spawned and confined; the first of these that fails is the answer |
| HelperOwnership.StopsExactly | services/helper/src/service/hub.rs:481-529 | a stop succeeds exactly for the managed session when its Core can be terminated; every other case has its own answer |
| HelperOwnership.AllowedAddresses | services/helper/src/service/hub.rs:308-325 | the allowed addresses are on Linux exactly the sockets numbered by one to ten digits, elsewhere exactly the pipes named by a valid id |
| HelperService.Kernel.Signal | services/helper/src/service/hub.rs:148-154 | a signal may be sent only to a child whose status is uncollected, the condition under which its pid cannot have been recycled; every caller is shown to meet it |
| HelperService.Helper.WaitForExit | services/helper/src/service/hub.rs:135-146 | the poll loop computes the outcome that the exactness lemma describes |
| HelperService.Helper.RequestExit | services/helper/src/service/hub.rs:148-159 | only on Linux is a Core asked to exit before it is killed |
| HelperService.Helper.Terminate | services/helper/src/service/hub.rs:124-133 | a failed poll ends the attempt; otherwise a graceful wait is followed by a kill and a second wait |
| HelperService.Helper.ReleaseManagedCore | services/helper/src/service/hub.rs:352-359 | the slot is emptied exactly if the Core was seen to exit |
| HelperService.Helper.Start | services/helper/src/service/hub.rs:395-479 | the handler answers and changes the slot as the start step says, error by error, and keeps ownership |
| HelperService.Helper.StopCore | services/helper/src/service/hub.rs:481-529 | the handler answers and changes the slot as the stop step says and keeps ownership |
| HelperService.Helper.Serve | services/helper/src/service/hub.rs:395-529 | any sequence of requests and exits goes through exactly the run that the ownership theorems are about |
| HelperUnit.OwnerReadsBackExactly | services/helper/src/service/linux.rs:152-203 | every owner is read back from the printed unit if and only if no later line of the path begins like the line that names the owner |
| HelperUnit.OwnerReadsBack | services/helper/src/service/linux.rs:152-203 | for every path without a line break and every owner, the uid read back is the one printed |
| HelperUnit.LineBreakNamesAnother | services/helper/src/service/linux.rs:152-203 | a path with line breaks can make the unit name any uid at all |
| HelperUnit.ReadUnit | services/helper/src/service/linux.rs:198-203 | what is read is the first owner line inside the path if there is one, and the printed owner otherwise |
| HelperUnit.QuoteRoundTrip | services/helper/src/service/linux.rs:134-150 | dropping the quotes, undoing the backslashes and halving `%%` gives back every path |
| HelperUnit.QuotedUnitArgument | services/helper/src/service/linux.rs:136-150 | the loop builds the quoted path that the round trip is about |
| HelperUnit.NumberRoundTrip | services/helper/src/service/linux.rs:198-203 | every 32-bit id survives printing, trimming and parsing |
| HelperUnit.InstalledForOneOwner | services/helper/src/service/linux.rs:205-218 | after one owner has installed the helper, exactly the same uid may install it again |

## Left out

- User interface, tray, window, hotkey, proxy and platform runner plugins: operating-system calls with little logic.
- mihomo, sing-tun, systemd and the Windows service manager: they appear only as arbitrary answers of the environment.
- JSON, Gson and bridge encodings: messages are byte sequences or tagged values.
- Wall-clock time: deadlines and sleeps are arbitrary choices of the environment; back-off only keeps its range.
- Lock poisoning, thread panics, peer credentials and socket permissions; a rejected peer is an answer of the accept.
- `handleToggleAction`, `handleStartAction`, tiles and core setup of the state machine: they only decide whether to call
  `requestStart` and `requestStop`, which may come at any time here.
- Exceptions out of `stopService`, all of which the controller catches (`ServiceController.kt:110-134`): only a start's
  host calls may throw.
- `ServiceController.unbind` in the runs of the state machine (`ServicePlugin.kt:57-62`, at the shutdown of the plugin):
  the controller models it, and after it a service is up whose kind the host has forgotten.
- The closing of the Go connection by `serve` while a `send` is under way: it shows as a hard error of the connection.
- The bodies of method calls in `serve`, and reads of `conn` by other goroutines.
- ServiceController.Controller.Start: takes binding and starting as answers, and the service intents as two components.
- MessageQueues.Channel.EnqueueState: closing of the event channels is not modelled for producers; the source never does it.
- The verification of the Core's digest and the owner check of its socket are answers of the environment; the log
  buffer and the HTTP layer of the helper are not modelled.
- Paths that are not valid UTF-8: `unit_contents` replaces what it cannot decode, and the path here is the result.
- The rest of `core/hub.go`, `core/platform` and the JavaScript test fixture: they add only easy members.
