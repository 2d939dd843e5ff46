# Verified models of the patrol robot dashboard

Dafny models of the parts of the dashboard where timing, bookkeeping or arithmetic can go
wrong, with proofs of what they promise. `dafny verify dfyconfig.toml` checks everything.

## What is modelled

**The server's manual-drive and command protocol** (`ManualDrive`, `ManualInvariant`,
`ManualBooks`, `ManualSafety`, `ManualRuns`, `ManualClashes`, `ManualSharing`, `ManualScenes`,
`ManualObjects`, `TuningPolicy`). One robot's command broker and manual-drive controller are a
state machine. Each coroutine is a task with a program counter, cut at every await; robot
answers, timers, lost connections, lease and telemetry changes, velocity frames and
cancellations may strike between any two cuts. A run is any sequence of events, and an event
that is not possible changes nothing. What the broker reads but does not decide (telemetry
gates, clocks, the rate and lease verdicts) is chosen by the environment at every step.
Histories beside the state (what was forwarded and for which request, what was written to the
robot, which ids were answered, which id each request came with) let the theorems speak about
whole runs. `ManualInvariant` and `ManualBooks` hold the invariants, `ManualSafety` shows that
each of the 24 kinds of event keeps them, and `ManualRuns` states what holds whatever ids the
browsers choose. `ManualClashes`, `ManualSharing` and `ManualScenes` are about ids that several
requests share: what exactly they break, that nothing breaks without them, and runs in which it
does. `ManualObjects` has the classes with their mutable fields; each method is the code
between two awaits and turns an object showing one state of the machine into one showing the
next.

**The browser's manual-drive store** (`BrowserTeleop`, `BrowserRuns`, `BrowserStore`). Arm,
input, ramp, tick, end, acknowledgements and results over a list of sessions that never
shrinks, with a log of everything sent and accepted. `BrowserStore` is the store as an
object.

**Battery runtime** (`BatteryTrend`). The pruned sample window and the least-squares trend
through it, over the reals.

**The tuning contract** (`PayloadScan`, `TuningSave`). The bounded scan of an arbitrary
object graph (shared and cyclic references included) with an explicit stack, and the save
check next to the browser's own check of the same batch.

**Smaller cores.** The bounded background writer and the recorder on top of it
(`BackgroundWrites`, `Recordings`), the two rate limiters (`RateLimits`), and dashboard
packing (`LayoutPacking`).

## Results that are not what the design hopes for

- The broker's open table is keyed by command id, and stop-class commands skip the admission
  lock, so two requests with one id can both be told by the audit table that the id is new.
  The later one then takes the place of the earlier in the table. `ManualClashes.OwnerClash`
  and `ManualClashes.BarrierClash` name the steps at which that matters: a launch, or a close
  by a failed send or by the timer of a replaced entry, under an id the owner still waits for,
  or a barrier stands for, as another kind of command. Those steps, and no others, break the
  owner's books and the agreement of the barriers with the table
  (`ManualSharing.OwnershipBreaksExactly`, `BarriersBreakExactly`, and over whole runs
  `OwnershipIsConserved` and `BarriersAgree`); while no two requests share an id there is no
  such step (`DistinctIdsSuffice`).
- Such steps are reachable. From every calm started server and for every unused id,
  `ManualScenes.SharedIdRobsAStart` is a run in which a stop takes the place of a manual
  start, and `SharedIdStrandsLidar` one in which it takes the place of a LiDAR command. Once
  that stop is answered nothing is open, the LiDAR barrier still names the id, and no command
  can ever clear it: `ManualSharing.StrandedLidarIsFinal` shows that from then on the robot
  is sent only stops, resets and motor commands until the server restarts.
- Exclusion, the stop that overtakes a start, wire safety, the barriers' guard on what is
  forwarded, that an open reset or LiDAR command is named by its barrier, and that no request
  is forwarded twice hold without any condition on ids. Two requests that share an id can both
  be forwarded, with a database only if one of them is a stop-class command
  (`NoDuplicateForwards`) and never one before and one after a restart
  (`RestartsForwardNothingTwice`).
- The browser's check of a batch is laxer than the contract's in four ways, stated on the
  merged values of an edge the batch touches in `TuningSave.Lenient`: an end that is missing
  or not a finite number is skipped; an excess of up to 1e-9 passes, and any excess of a speed
  that was not itself changed; a sum without a declared total is compared with 1; and a sum
  without a declared tolerance may be off by 1e-6 instead of 1e-9. Outside these the two
  checks agree (`BrowserDiffersExactly`), and the browser never refuses what the contract
  accepts (`BrowserNeverRefusesAccepted`).
- A flush that finds no running writer task returns at once, so a recording stopped while the
  writer itself is being stopped may report too little: `Recordings.ReportsMayFallShort` is
  such a history. A report stays correct whatever follows if and only if every accepted write
  of its recording had ended when it was made (`ReportsStayCorrectExactlyWhen`), which a flush
  that waited guarantees (`StopReportsWhatWasStored`).
- A ramp that reverses direction may need one tick more than the distance in steps, rounded
  up: `BrowserRuns.ReversalCostsATick` is a case, and `RampArrivesExactly` gives the number of
  ticks for all values. It is the rounded-up distance unless the reversal cannot be finished
  in the steps that bring the old direction to zero; then those and the steps of the new
  direction are rounded up separately.

## Model

| member | source | states |
|---|---|---|
| `ManualRuns.StopOvertakesStart` | server/app/commands/broker.py:104-112 | once any revocation has run, no manual session whose start request had arrived earlier is ever pending or active again, wherever that start stood, and none of its moving frames is written afterwards |
| `ManualRuns.AdmittedStopOvertakes` | server/app/commands/broker.py:149-158 | in particular that holds from the admission of any stop, motor-off or manual stop on, whatever reset, LiDAR command or owner is pending |
| `ManualRuns.ManualExcludesOthers` | server/app/commands/teleop.py:55-84 | in every run, while a robot has a manual owner every open command is a stop, a motor-off, a manual stop or that owner's own start |
| `ManualRuns.WritesAreLicensed` | server/app/commands/teleop.py:129-145 | a velocity write starts only when no other write of that owner is in flight and on the owner's own connection; a moving one only for the current active owner, with the lease, inside its captured caps, nothing having been revoked since its start arrived |
| `ManualRuns.WireStaysSafe` | server/app/commands/teleop.py:164-224 | over a whole run all frames stay within the caps captured at admission and within 0.30 and 0.70 plus 1e-9, and after the zero a revocation writes no moving frame of that owner follows |
| `ManualRuns.RunGood` | server/app/commands/teleop.py:203-242 | every run keeps all invariants, and across it the revision and the histories only grow, no owner's phase rank falls, no terminal start reopens and no recorded stop is forgotten |
| `ManualSharing.OwnershipIsConserved` | server/app/commands/teleop.py:226-242 | throughout a run an owner's stop ids are open manual stops and a start that is not terminal is open or still being admitted, if and only if no step of the run puts or closes another kind of command under an id the owner waits for |
| `ManualRuns.OwnerLeavesOnlyWhenResolved` | server/app/commands/broker.py:256-287 | an owner disappears only with an admitted software reset, or when its start and all its stops are terminal through a refusal, a result other than a timeout, or a cancellation before publication; never by a timeout, disconnect or takeover |
| `ManualSharing.OwnershipBreaksExactly` | server/app/commands/broker.py:267-283 | in every reachable state with an owner whose books hold, the next step breaks them exactly if it is such a step |
| `ManualSharing.BarriersBreakExactly` | server/app/commands/broker.py:284-287 | the same for the agreement of the barriers with the open table |
| `ManualSharing.DistinctIdsSuffice` | server/app/commands/broker.py:183-190 | while the ids of all requests of a run are distinct, no step of it is such a step and both books hold throughout |
| `ManualSharing.StrandedLidarIsFinal` | server/app/commands/broker.py:546-552 | a LiDAR barrier left without an open LiDAR command, and without a reset at work on one, stays up in every continuation, and only stops, resets and motor commands are forwarded any more |
| `ManualScenes.SharedIdRobsAStart` | server/app/commands/broker.py:183-190 | a run, for every calm started server and unused id, in which a stop takes the place of a manual start that was sent, so the owner waits for a start that is no longer open and one id is forwarded twice |
| `ManualScenes.SharedIdStrandsLidar` | server/app/commands/broker.py:284-287 | a run, for every calm started server and unused id, in which a stop takes the place of an open LiDAR command and, once answered, leaves an empty table under a LiDAR barrier that is up for good |
| `ManualSharing.BarriersAgree` | server/app/commands/broker.py:546-552 | each barrier names an open command of its kind throughout a run, if and only if no step of the run takes or closes its place as another kind of command |
| `ManualRuns.OpenIsNamed` | server/app/commands/broker.py:284-287 | in every run an open software reset or LiDAR power command is the one its barrier names, so there is never more than one of either |
| `ManualRuns.TimeoutsKeepBarriers` | server/app/commands/broker.py:488-532 | no server timer and no timeout answer clears a barrier |
| `ManualRuns.BarriersGuardForwarding` | server/app/commands/broker.py:133-147 | in every run whatever is forwarded while LiDAR power is pending is a stop, a reset or a motor command, nothing that needs LiDAR is forwarded while its recovery is required, and only stops and resets while a reset is pending |
| `ManualRuns.NoDuplicateForwards` | server/app/commands/broker.py:183-190 | in every run no request is forwarded twice, so two forwards of one id come from two requests that share it, and with a database at least one of these is a stop-class command, although the cache keeps only 512 ids |
| `ManualRuns.RestartsForwardNothingTwice` | server/app/commands/broker.py:183-190 | with a database no id that was forwarded before a restart is forwarded after it, whatever the command |
| `ManualSharing.DistinctIdsForwardOnce` | server/app/commands/broker.py:183-190 | while the ids of all requests are distinct no id is forwarded twice, with or without a database |
| `ManualSafety.StepSafe` | server/app/commands/broker.py:114-377 | each of the 24 kinds of event keeps the whole invariant, including that an outdated session is never live and its moving frames are never in the send path |
| `ManualObjects.TeleopController.RevokeFirst` | server/app/commands/teleop.py:203-214 | the fields after the first stretch of a revocation show the machine's next state, and a zero is owed exactly for a live owner that has not sent one |
| `ManualObjects.TeleopController.TerminalAnswer` | server/app/commands/teleop.py:232-242 | updating the owner in place and dropping it when resolved is the machine's step for a final answer |
| `ManualObjects.TeleopController.StopPending` | server/app/commands/teleop.py:226-230 | recording a stop on the owner object is the machine's step |
| `ManualObjects.CommandBroker.HandleAck` | server/app/commands/broker.py:337-357 | acknowledgements update entry, owner, revision and open table as the machine does, for every combination of connection, command and owner |
| `ManualObjects.CommandBroker.HandleResult` | server/app/commands/broker.py:360-377 | the same for results; after a manual timeout it hands over the entry whose marking waits for the revocation |
| `ManualObjects.CommandBroker.AfterTimeout` | server/app/commands/broker.py:363-366 | that marking, once the revocation is over, is the machine's step |
| `ManualObjects.CommandBroker.MarkUncertainCommand` | server/app/commands/broker.py:520-528 | an uncertain command stays open and its manual owner becomes unknown |
| `ManualObjects.CommandBroker.FinishCommand` | server/app/commands/broker.py:546-552 | closing removes the entry and exactly the barrier it stood for |
| `TuningPolicy.ResolveKeepsEnvelope` | server/app/commands/tuning_policy.py:203-322 | whatever the source supplies, a granted policy lies inside the commissioned envelope, a capable robot never falls back to the fixed default, and a policy is granted exactly under the stated conditions |
| `ManualRuns.MovingFramesMeetLivePolicy` | server/app/commands/teleop.py:171-182 | a moving frame is admitted only while the robot's live policy has the signature captured when the session began, which no later step changes, and within the live caps |
| `BrowserRuns.AcceptedStartsAreClosed` | frontend/src/stores/teleopStore.ts:157-231 | in every run an accepted start without a final answer is the one being driven or had a stop sent at or after its acceptance; no session gets more than two stops |
| `BrowserRuns.DeadmanSamplesAreLicensed` | frontend/src/stores/teleopStore.ts:94-103 | every moving sample comes after its session's acceptance and before its first zero, and keeps to the limits the session was started with |
| `BrowserRuns.SamplesAreNumbered` | frontend/src/stores/teleopStore.ts:60-64 | each session's samples carry 0, 1, 2, ... and releases carry zero speeds |
| `BrowserRuns.ReleaseIsFinal` | frontend/src/stores/teleopStore.ts:48-50 | a session that sent a zero is never pending or active again, whatever answers still arrive |
| `BrowserRuns.OnlyAcceptanceActivates` | frontend/src/stores/teleopStore.ts:181-198 | driving starts only by the acceptance of the pending session in hand while nothing forbids it |
| `BrowserRuns.PhasesAreConsistent` | frontend/src/stores/teleopStore.ts:71-75 | no session exactly when idle or armed, stopping lasts until start and stops are answered, speeds are zero when not driving, generations match, pending stops were issued |
| `BrowserRuns.RunAppends` | frontend/src/stores/teleopStore.ts:60-70 | what was sent or accepted is never taken back, so the trace results hold for ever |
| `BrowserRuns.RampArrives` | frontend/src/lib/teleop.ts:37-44 | the ramp reaches any target within one tick more than the distance in steps rounded up, without the extra tick unless it reverses |
| `BrowserRuns.RampArrivesExactly` | frontend/src/lib/teleop.ts:37-44 | for all values, steps and tick counts, exactly when the target has been reached |
| `BrowserRuns.ReversalCostsATick` | frontend/src/lib/teleop.ts:37-44 | a reversal over three steps that takes four ticks |
| `BrowserRuns.RampBetween` | frontend/src/lib/teleop.ts:37-44 | each ramp value lies between the current value and the target |
| `BrowserStore.TeleopStore.EndInput` | frontend/src/stores/teleopStore.ts:157-168 | ending updates the fields as the step does: quiet state, new generation, a zero and a stop for the session |
| `BrowserStore.TeleopStore.DoTick` | frontend/src/stores/teleopStore.ts:94-103 | one timer tick checks, ramps and samples, and keeps the invariant |
| `BrowserStore.TeleopStore.DoInput` | frontend/src/stores/teleopStore.ts:120-149 | input bounds, aims and opens a session as the step does, and keeps the invariant |
| `BrowserStore.TeleopStore.HandleAck` | frontend/src/stores/teleopStore.ts:169-212 | acknowledgements of starts and stops, and whether the message was this store's |
| `BrowserStore.TeleopStore.HandleResult` | frontend/src/stores/teleopStore.ts:213-231 | results of starts and stops in any order, and whether the message was this store's |
| `BatteryTrend.TrendSign` | server/app/telemetry/battery_estimator.py:59-69 | Chebyshev's sum inequality for any window: levels that never fall give a slope of at least zero and the answer stable, levels that never rise a slope of at most zero |
| `BatteryTrend.ExactDischarge` | server/app/telemetry/battery_estimator.py:59-84 | levels on a line give that line's slope, and the state and minutes that follow from it |
| `BatteryTrend.WindowHasSlope` | server/app/telemetry/battery_estimator.py:55-66 | the denominator is strictly positive whenever it is reached |
| `BatteryTrend.EstimateInRange` | server/app/telemetry/battery_estimator.py:71-84 | a number is given only when estimated, between one minute and the maximum, or as zero at the threshold |
| `BatteryTrend.ClockShift` | server/app/telemetry/battery_estimator.py:59-60 | moving all timestamps changes no estimate |
| `BatteryTrend.RetainedIsWindowed` | server/app/telemetry/battery_estimator.py:39-45 | retained times increase strictly, at most 600, all inside the window |
| `BatteryTrend.RetainedKeepsRecent` | server/app/telemetry/battery_estimator.py:39-45 | of the earlier samples exactly those stay that are inside the new window and followed by fewer than 600 |
| `BatteryTrend.TrendEstimator.AddSample` | server/app/telemetry/battery_estimator.py:39-45 | the pruning loop leaves exactly the retained samples |
| `BatteryTrend.ChargingForgets` | server/app/telemetry/battery_estimator.py:95-105 | nothing measured before a charge session influences what is known after it |
| `BatteryTrend.FeedingKeepsWindows` | server/app/telemetry/battery_estimator.py:95-105 | over any readings both windows stay in order and stored percentages lie between empty and full |
| `PayloadScan.Scan` | contracts/validate_robot_tuning.py:276-350 | on any object graph the scan ends, and reports nothing exactly when the payload unfolds into a finite tree of acceptable nodes within the depth, item and byte limits; a cycle or depth verdict comes with a reachable cycle or a path that long |
| `PayloadScan.CleanMeansAcceptable` | contracts/validate_robot_tuning.py:276-350 | the budgets measured on the graph are those of the unfolded tree |
| `PayloadScan.CyclesAreRefused` | contracts/validate_robot_tuning.py:313-317 | a payload with a reachable cycle is acceptable under no limits |
| `PayloadScan.TrailIsPath` | contracts/validate_robot_tuning.py:286-292 | the containers on the path set form a path from the root |
| `PayloadScan.TextCostSound` | contracts/validate_robot_tuning.py:263-273 | the early exit on the character count never changes the verdict on a string |
| `PayloadScan.VisitEntries` | contracts/validate_robot_tuning.py:318-334 | the loop over an object stops only when a budget of the whole payload is exceeded, and otherwise charges and pushes exactly its keys and values |
| `TuningSave.SavesKeepCoherence` | contracts/validate_robot_tuning.py:787-816 | over any sequence of accepted saves every dependency keeps holding and every value ever changed is typed and inside its bounds |
| `TuningSave.SaveCoherence` | contracts/validate_robot_tuning.py:787-816 | after an accepted save everything is coherent exactly when the dependencies it did not concern held before |
| `TuningSave.SaveErrors` | contracts/validate_robot_tuning.py:961-984 | no finding is reported exactly when the base is well typed, all changes are known, editable, typed and in bounds, ids are distinct, and every dependency incident to a change holds on the merged values |
| `TuningSave.CheckChange` | contracts/validate_robot_tuning.py:731-756 | a change passes exactly when it is good, and then it is what later checks see |
| `TuningSave.DependencyErrors` | contracts/validate_robot_tuning.py:787-816 | the loop reports nothing exactly when no incident edge fails |
| `TuningSave.BaseValueErrors` | contracts/validate_robot_tuning.py:759-784 | the base passes exactly when every id is known and every value is of its type |
| `TuningSave.BrowserNeverRefusesAccepted` | frontend/src/lib/tuning.ts:631-676 | for one catalogue and one set of stored values, every batch the contract accepts passes the browser's check |
| `TuningSave.ValidateBatch` | frontend/src/lib/tuning.ts:631-666 | the browser's loops accept exactly the batches without duplicate ids whose touched edges all pass |
| `TuningSave.BrowserDiffersExactly` | frontend/src/lib/tuning.ts:631-676 | for every catalogue, stored values and batch of well-formed changes, the contract accepts exactly what the browser accepts without a touched edge in one of the stated gaps |
| `BackgroundWrites.NothingIsLost` | server/app/database/writer.py:67-125 | in every run what was accepted is what succeeded, failed, was cancelled, is in flight or is queued; the queue keeps its bound; writes begin in order of submission, each at most once |
| `BackgroundWrites.FlushIsABarrier` | server/app/database/writer.py:86-90 | a flush that found a task returns only after every write accepted before it has ended |
| `BackgroundWrites.StepKeeps` | server/app/database/writer.py:110-125 | accepted, begun and ended writes and returned flushes stay as they are |
| `BackgroundWrites.BackgroundWriter.SubmitWrite` | server/app/database/writer.py:67-84 | a submission is queued or counted as dropped, and tells which |
| `BackgroundWrites.BackgroundWriter.FinishWrite` | server/app/database/writer.py:112-125 | every way a write can end keeps the books |
| `Recordings.ReportsStayCorrectExactlyWhen` | server/app/recordings/recorder.py:72-87 | in every history a stop's report agrees with the database in all continuations if and only if every accepted write of its recording had ended when it was made |
| `Recordings.ReportsMayFallShort` | server/app/database/writer.py:86-90 | a history in which a stop reports no samples and one is stored afterwards |
| `Recordings.StopReportsWhatWasStored` | server/app/recordings/recorder.py:72-87 | a stop whose flush found a writer task reports exactly the samples of its recording whose write succeeded, and none of its writes is outstanding |
| `Recordings.RecordingsAreDecimated` | server/app/recordings/recorder.py:103-117 | in every history each recording has at most 100000 samples, and those of one of its channels are at least the channel's interval apart |
| `Recordings.Recorder.OfferSample` | server/app/recordings/recorder.py:103-117 | an offer updates the decimation memory, the count and the queue as the step does |
| `Recordings.Wanted` | server/app/recordings/recorder.py:59-61 | the recorded channels are never empty or unknown; they are the known ones asked for if there are any, and the defaults otherwise |
| `RateLimits.WindowBound` | server/app/commands/lease.py:53-74 | in any window a key is allowed at most the capacity plus the refill of that window, whatever the other keys do |
| `RateLimits.TokensInRange` | server/app/commands/lease.py:62-74 | tokens lie between zero and the capacity in every history |
| `RateLimits.QuietKeysAreServed` | server/app/commands/lease.py:62-74 | a key that was quiet for the time of one token is allowed |
| `RateLimits.RateLimiter.Allow` | server/app/commands/lease.py:62-74 | the method draws from the key's bucket and touches no other |
| `RateLimits.FramesSpanASecond` | server/app/commands/teleop.py:183-189 | N + 1 consecutive admitted frames span at least a second, N being the configured rate |
| `RateLimits.FrameGate.Admit` | server/app/commands/teleop.py:183-189 | a frame is admitted exactly when no write is under way and fewer than N were admitted within the last second |
| `LayoutPacking.DerivedIsPacked` | frontend/src/stores/layoutStore.ts:57-83 | for a screen without saved entries each widget is placed once at its height, inside the columns and clear of the others, and the two columns differ by at most the tallest widget |
| `LayoutPacking.Derive` | frontend/src/stores/layoutStore.ts:57-83 | the loop over the widgets, saved or not, computes that arrangement |
| `LayoutPacking.MoveIsSound` | frontend/src/stores/layoutStore.ts:209-230 | a move leaves the same widgets at the same sizes, disjoint and inside the columns, reading in exactly the requested order |
| `LayoutPacking.MoveAndBack` | frontend/src/stores/layoutStore.ts:209-230 | moving a widget one way and back restores the reading order |
| `LayoutPacking.RepackedIsSound` | frontend/src/stores/layoutStore.ts:220-230 | both repackings, rows and shelves, are disjoint, inside the columns and in strictly rising position |
| `LayoutPacking.FillShelves` | frontend/src/stores/layoutStore.ts:224-229 | the in-place loop is the shelf packing |
| `LayoutPacking.LayoutStore.AddWidget` | frontend/src/stores/layoutStore.ts:176-189 | an added widget goes below everything on each screen, a known one changes nothing, and clear arrangements stay clear |
| `LayoutPacking.LayoutStore.RemoveWidget` | frontend/src/stores/layoutStore.ts:191-199 | exactly the widget's entries leave each screen, and clear arrangements stay clear |
| `LayoutPacking.LayoutStore.MoveWidget` | frontend/src/stores/layoutStore.ts:209-239 | a move changes only the screen in use, raises the revision exactly when there is a neighbour, and keeps arrangements clear |

## Left out

- ManualObjects: only the stretches of code that keep the books of owners and commands are methods on objects; admission, publication and the send path are functions on values in ManualDrive, because between their awaits they are steps of several coroutines at once.
- Telemetry gates, goal and map checks and the account check: the environment chooses their verdict at each step; their branches would only add easy members.
- More than one robot: the broker keeps its state per robot, and the model is one robot's; ids are shared only within it.
- The frame-rate window inside the protocol: a verdict of the environment there, and a model of its own in RateLimits.
- Fairness of the admission lock: any waiting request may get it next, which includes the first-in order.
- Database failures and server shutdown, which clears the open table.
- OperatorLease, websocket, HTTP and audit text: the lease is the user in control, and the audit table a set of ids.
- User-facing sentences of the browser store, the stop id kept on a session besides its set, and the other stores it reads: the gates other than the speed policy are one flag.
- Randomness of identifiers: starts and stops get identifiers that differ from each other and from foreign ones.
- Float rounding, NaN and clock resolution: speeds, levels and times are reals; a non-finite requested speed is an absent one.
- BatteryTrend.TrendSign: supposes at least one required sample, as every configuration in the repository does.
- The text scan before parsing (`_scan_text_structure`), schema validation, revision, context and identifier checks of the tuning contract.
- A registry whose entries share an identifier: the index keeps one entry each.
- Recordings.StopReportsWhatWasStored: a write that raised stores nothing; partial rows of a failed transaction are not modelled.
- Logging, and the ten-second limit on draining at shutdown: stopping the writer may cancel a worker at any time.
- The sort of the desktop widgets before they are placed on a narrower screen: the packing holds for every order.
- The robot and sequence number on each frame the browser sends: the log keeps the session and the sample's own number.
- The actions taller, shorter, wider and narrower, minimum sizes, presets and saved arrangements that overlap: the grid library resolves those.
