# Verification of the LeFly simulator, its mirrors and their clients

This project models the part of LeFly that orders work and keeps copies of
device state, and proves what each part keeps over whole runs.

* **The motion queue** (`Protocol`, `DeviceModel`, `Motion*`, `Engine`). The
  scheduler is a state machine whose steps are the stretches of code between two
  suspension points: a command, the worker taking a job, a sleep being chosen
  over the interrupt, a position update, an interruption, a failed sleep, and the
  two halves of closing. `MotionQueueObject` and `Engine` hold the objects with
  the source's fields; each of their methods is proved to make exactly one
  abstract step, and the theorems are about runs of those steps. The event log is
  read by monitors that know nothing of the queue (`MotionMonitor`,
  `MotionProgress`, `MotionPublish`, `MotionStates`), and `MotionCommands` says of
  each command what it asks for and what the answer shows.
* **Control and routing** (`Lease`, `Hub`, `HubObject`, `Routing`, `Router*`,
  `RemoteMirror`). The
  lease reads the clock wherever the source does. A target selection is two steps
  with anything in between; events of any subscription, current or not, may be
  processed at any time. What a target answers within a step is a parameter;
  `RouterAnswers` says what the router answers.
* **The browser** (`ConsoleStore`, `ConsoleSocket`, `ConsoleSocketObject`,
  `AgentStore`). The reducers are pure functions; the socket is an object that
  drives the store and observes the same messages. `ConsoleHistory` and
  `AgentHistory` tell from the dispatched actions alone what has to be shown.
* **The agent** (`RobotPolicy`, `RobotObject`): the rest gate and the freshness
  rule of the robot service.
* **Two parts together** (`MirrorStack`): what a remote mirror holds of what the
  simulator publishes, whatever is lost on the way.

Eight properties one might expect are false of the code. Each has a run that shows
it and the exact condition under which it holds:

* a motion accepted after a rest has finished may still be cancelled with
  `device_rest` (`MotionInterrupt.MotionAfterRestMayBeCancelled`), because the
  flag survives a rest that arrives after the last sleep was chosen; an idle queue is
  safe from it if and only if its flag is down (`SafeFromOldRestsIff`), which the
  log tells (`MotionFlag.SafeFromOldRestsByHistory`);
* an aborted job can leave the projection behind
  (`MotionProjection.FailureLeavesProjectionBehind`); a run is free of this if and
  only if no abort in it does harm (`AlwaysProjectedIff`);
* the set of remembered ids is not the remembered order if the capacity is 1023 or
  more, and is otherwise (`MotionWindow.MemoryIsTheNewestIff`);
* the owner of a control lease can lose it from its session while the lease is in
  force and blocks everybody, if a device answers its command with the code
  `invalid_control_lease` (`Hub.LeaseWithoutHolder`, `OwnerAlwaysHasItIff`,
  `ControlIsKept`);
* a pending command of the browser can leave the list unanswered: the oldest of 200,
  when another is sent (`ConsoleStore.FirstIsCrowdedOut`,
  `CommandsArePendingUntilAnswered`);
* a router can be transport-stale without being stale if its snapshot is taken
  before it has started (`RouterMirror.LookedAtTooEarly`); a run is free of this if
  and only if no start-up ends that way (`AlwaysCoherentIff`);
* a movement can begin while a rest call of the agent is under way if a second
  rest call was waiting behind it and fails
  (`RobotPolicy.OverlappingRestsOpenTheGate`, `NoMovementDuringEachRest`,
  `GateHoldsIff`);
* a stale remote target can be left without a recovery task: exactly by a pause
  that raises, until the next delivery or disconnection
  (`RemoteMirror.LeftWithoutRecovery`, `RecoveryIsUnderWay`, `RecoveryStartsAgain`).

Where the documentation and the code differ, the code is followed:
`docs/protocol.md:32` says that a relative move is relative to the current
positions; the code uses the projected ones
(`packages/lefly-simulator/src/lefly_simulator/queue.py:520-528`).

`dafny verify dfyconfig.toml` checks the project.

## Model

| member | source | states |
|---|---|---|
| MotionProjection.ProjectionTheorem | packages/lefly-simulator/src/lefly_simulator/queue.py:212-235 | On every run from a new queue in which no job fails and jobs are interrupted only while a rest waits, each joint's projected position is the target of the last live job naming it, or its actual position |
| MotionProjection.AlwaysProjectedIff | packages/lefly-simulator/src/lefly_simulator/queue.py:391-431 | A run from a new queue is projected in every state it passes through if and only if no job is aborted in it while a joint it names is neither at its target nor named by a waiting job |
| MotionProjection.DrainReachesProjection | packages/lefly-simulator/src/lefly_simulator/queue.py:362-377 | Running everything that is live to its end takes the joints exactly to the projected positions |
| MotionProjection.RelativeMoveStartsWhereSerialExecutionEnds | packages/lefly-simulator/src/lefly_simulator/queue.py:520-528 | The target of a relative move is its delta plus the position where serial execution of everything accepted before leaves the joint |
| MotionProjection.StepKeepsProjected | packages/lefly-simulator/src/lefly_simulator/queue.py:391-431 | Every step keeps the projection, and a step that aborts a job keeps it if and only if each joint of that job is named by a waiting job or already at its target |
| MotionProjection.FailureLeavesProjectionBehind | packages/lefly-simulator/src/lefly_simulator/queue.py:336-338 | From every new queue: a move is accepted and started, its first sleep raises, and the projection is wrong |
| MotionProjection.AcceptedMotionLeadsToItsTargets | packages/lefly-simulator/src/lefly_simulator/queue.py:215-244 | After a motion is accepted, serial execution takes each joint it names to its target and every other joint where it would have ended without it |
| MotionProjection.AbsoluteMoveIsTakenLiterally | packages/lefly-simulator/src/lefly_simulator/queue.py:513-518 | An absolute move is prepared exactly if its duration is valid and all values are finite, known and within limits; its targets are then those values |
| MotionProjection.WaitingRestIsHarmless | packages/lefly-simulator/src/lefly_simulator/queue.py:433-446 | An interruption while a rest waits never disturbs the projection |
| MotionStates.EveryStateIsExplained | packages/lefly-simulator/src/lefly_simulator/queue.py:343-431 | On every run of a queue that is not closed, a reader of the log alone can explain each published state: with the next revision it differs from the one before exactly in what the acceptance, start, progress report, end or applied command beside it says (motion, joints, status, light and queue), reports and ends carry the action that fits the accepted type, and the device is shown moving exactly while a job runs |
| MotionStates.ClosingIsExplained | packages/lefly-simulator/src/lefly_simulator/queue.py:283-300 | So does each state that closing publishes |
| MotionStates.CompletedMotionWakesUp | packages/lefly-simulator/src/lefly_simulator/queue.py:347-352 | On every such run the state after a completed motion is never starting, and resting only if a status command was applied while it ran |
| MotionCommands.ImmediateCommandDoes | packages/lefly-simulator/src/lefly_simulator/engine.py:72-114 | A command that acts at once is applied exactly if it is for this device and its target, colours, level or mode can be applied; then only the device changes, and the state published shows the level, the mode, or pixel by pixel the hexadecimal values asked for, and everything else as before; otherwise it is told the one error that applies |
| MotionCommands.MotionCommandDoes | packages/lefly-simulator/src/lefly_simulator/queue.py:179-260 | A motion command that is turned away changes nothing and is told the first reason that applies, with its recoverable flag; any other one is last in line, alone there if it is a rest, as the job that was asked for |
| MotionCommands.PreparedIsAsked | packages/lefly-simulator/src/lefly_simulator/queue.py:483-511 | A motion command is prepared exactly if it is well formed, with the duration, action and, joint by joint, the position asked for; a preset exactly if the device advertises it |
| MotionLifecycle.AcceptedOnceFinishedOnce | docs/protocol.md:66-69 | On every run each id has been accepted as often as it has been finished, plus once if it is live |
| MotionLifecycle.NothingLiveAfterClose | packages/lefly-simulator/src/lefly_simulator/queue.py:280-300 | After closing nothing is live and acceptances equal finishes for every id |
| MotionLifecycle.StartsInAcceptanceOrder | packages/lefly-simulator/src/lefly_simulator/queue.py:314-340 | On every run the started ids followed by the waiting ones are the accepted ids in order with some left out, and those are exactly the ones finished while in line: each id was accepted as often as it was started, waits, or was cancelled in line, taken together |
| MotionLifecycle.RunIsObserved | packages/lefly-simulator/src/lefly_simulator/queue.py:391-423 | The log of every run passes an independent monitor: start only from the head of the line, one job at a time, progress only of the running job, end once |
| MotionMonitor.EveryJobEndsOnce | packages/lefly-simulator/src/lefly_simulator/queue.py:248-260 | For any log the monitor accepts: acceptances plus presence before equal finishes plus presence after |
| MotionMonitor.ServedInOrder | packages/lefly-simulator/src/lefly_simulator/queue.py:314-326 | For any log the monitor accepts: starts and the remaining line form a subsequence of the acceptances |
| MotionMonitor.EveryoneIsAccountedFor | packages/lefly-simulator/src/lefly_simulator/queue.py:314-326 | For any log the monitor accepts, each id stands in line or was accepted as often as it was started, remains in line, or was finished in line without running |
| MotionMonitor.NoStartWithoutAcceptance | packages/lefly-simulator/src/lefly_simulator/queue.py:314-326 | For any log the monitor accepts: an id that is not in line and not accepted again does not start |
| MotionLifecycle.StepIsObserved | packages/lefly-simulator/src/lefly_simulator/queue.py:179-260 | Each step's events lead the monitor from the state before to the state after |
| MotionWindow.MemoryIsTheNewest | packages/lefly-simulator/src/lefly_simulator/queue.py:306-312 | If capacity + 1 < 1024, on every run the remembered order is the newest 1024 accepted ids, the set is exactly that order, and live ids are among its newest capacity + 2 |
| MotionWindow.MemoryIsTheNewestIff | packages/lefly-simulator/src/lefly_simulator/queue.py:306-312 | Order and set are the newest 1024 accepted ids on every run if and only if capacity + 1 < 1024; with a larger capacity a rest pushes the id of the running job out of the order but not out of the set |
| MotionWindow.RepeatsAreRefused | packages/lefly-simulator/src/lefly_simulator/queue.py:190-195 | Under the same condition an open queue refuses a well-formed motion as a duplicate if and only if its id is one of the last 1024 accepted |
| MotionWindow.LiveIdsAreRemembered | packages/lefly-simulator/src/lefly_simulator/queue.py:306-312 | With any capacity a live id is always among the seen ids |
| MotionWindow.AcceptedExactlyWhen | packages/lefly-simulator/src/lefly_simulator/queue.py:180-246 | A command is accepted as a motion if and only if it is for this device, prepared, the queue is open, the id unseen, no rest pending, and there is room or it is a rest |
| MotionWindow.ClosingQueueTakesNothing | packages/lefly-simulator/src/lefly_simulator/queue.py:263-300 | As soon as closing begins no motion is accepted and no job starts any more, on every run; beginning only marks the queue, and at the end no job, no interruption and no projection ahead of the pose is left |
| MotionRest.PendingRestStandsAlone | packages/lefly-simulator/src/lefly_simulator/queue.py:202-214 | While a rest is pending the line is empty or holds just that rest |
| MotionRest.PendingRestBlocks | packages/lefly-simulator/src/lefly_simulator/queue.py:196-201 | While a rest is pending no command is accepted as a motion |
| MotionRest.WaitingJobsAreCancelledOnce | packages/lefly-simulator/src/lefly_simulator/queue.py:204-208 | Each job waiting when a rest is accepted is finished exactly once in that step and leaves the line |
| MotionRest.ReplacedJobsNeverStart | packages/lefly-simulator/src/lefly_simulator/queue.py:204-210 | In every run after that, such a job neither starts nor finishes unless its id is accepted anew |
| MotionRest.RestStartsNext | packages/lefly-simulator/src/lefly_simulator/queue.py:314-326 | In every run after a rest was accepted, the first job that starts is that rest |
| MotionRest.RestEndsAtDefault | packages/lefly-simulator/src/lefly_simulator/queue.py:401-416 | When a rest completes, every joint is at its default and the status is resting, or error if it was error |
| MotionRest.RestsEndWell | packages/lefly-simulator/src/lefly_simulator/queue.py:433-436 | In every run no rest is cancelled by a rest, and each completed rest reports the default pose |
| MotionInterrupt.EachRestInterruptsAtMostOnce | packages/lefly-simulator/src/lefly_simulator/queue.py:422-426 | On every run the running jobs cancelled with device_rest, plus one while the flag is up, are at most the accepted rests |
| MotionInterrupt.SafeFromOldRestsIff | packages/lefly-simulator/src/lefly_simulator/queue.py:422-452 | What is accepted by an idle queue is safe from the rests before it, on every run that accepts no new rest, if and only if the interrupt flag is down |
| MotionFlag.SafeFromOldRestsByHistory | packages/lefly-simulator/src/lefly_simulator/queue.py:422-452 | The same told from the log: an idle queue is safe if and only if each rest that was accepted while a job ran was followed by a running job cut short; otherwise the job that ran then has ended in another way |
| MotionFlag.FlagIsLeftOver | packages/lefly-simulator/src/lefly_simulator/queue.py:223-257 | On every run of a queue that is not closed, the flag is up if and only if the log has a rest accepted while a job ran and no running job cut short since |
| MotionInterrupt.NoRestNoInterruption | packages/lefly-simulator/src/lefly_simulator/queue.py:248-260 | From any reachable state with the flag down, a run that accepts no rest cuts no running job short |
| MotionInterrupt.FlagDecides | packages/lefly-simulator/src/lefly_simulator/queue.py:438-446 | A motion that sleeps with the flag up makes no progress: every step cancels it, fails it, or leaves it as it is |
| MotionInterrupt.MotionAfterRestMayBeCancelled | packages/lefly-simulator/src/lefly_simulator/queue.py:441-452 | From every new queue there is a run in which a motion accepted after the only rest had finished is cancelled with device_rest |
| MotionPublish.PublishedStatesFollowTheDevice | packages/lefly-simulator/src/lefly_simulator/models.py:323-329 | On every run the emitted states carry contiguous revisions and are valid; until closing the latest one is exactly the device, with as many jobs as wait |
| MotionPublish.StepIsTold | packages/lefly-simulator/src/lefly_simulator/queue.py:569-599 | Each step counts revisions on by one per state, all valid and all showing the number of waiting jobs after the step; unless it ends the queue it tells every change of the device |
| MotionProgress.JointsStayWithinLimits | packages/lefly-simulator/src/lefly_simulator/models.py:206-222 | In every reachable state every joint is known and within its profile limits |
| MotionProgress.JointsFollowTheLine | packages/lefly-simulator/src/lefly_simulator/queue.py:366-377 | After k steps a named joint is at start + (target - start) * k / steps; the others have not moved |
| MotionProgress.TheLineEndsAtTheTargets | packages/lefly-simulator/src/lefly_simulator/queue.py:369-377 | The last step leaves the named joints at their targets exactly and the others at their start |
| MotionProgress.ReportsAreInOrder | packages/lefly-simulator/src/lefly_simulator/queue.py:378-389 | On every run the k-th report of a job says k/steps, its elapsed time never falls, and it completes after all steps at the full duration |
| MotionProgress.ElapsedEnds | packages/lefly-simulator/src/lefly_simulator/queue.py:378-378 | The rounded elapsed time is 0 before the first step and the duration after the last |
| MotionProgress.ElapsedGrows | packages/lefly-simulator/src/lefly_simulator/queue.py:378-378 | The rounded elapsed time never falls from one step to the next |
| MotionProgress.TheLineBeginsHere | packages/lefly-simulator/src/lefly_simulator/queue.py:362-364 | That start is the pose of the device when the job was taken |
| MotionDrain.WorkIsBounded | packages/lefly-simulator/src/lefly_simulator/queue.py:314-389 | However steps interleave, a run that accepts no motion has at most (2 * steps + 1) worker steps per live job |
| MotionDrain.WorkerIsNeverStuck | packages/lefly-simulator/src/lefly_simulator/queue.py:314-340 | While the queue is open and anything is live, some worker step is possible |
| MotionDrain.DrainRunEmpties | packages/lefly-simulator/src/lefly_simulator/queue.py:314-340 | The undisturbed run of the worker is legal and empties the queue |
| MotionDrain.RunToIdle | packages/lefly-simulator/src/lefly_simulator/queue.py:314-340 | The worker's loop on the object ends with nothing live, in the state that serial execution gives |
| MotionDrain.StepUsesRemaining | packages/lefly-simulator/src/lefly_simulator/queue.py:366-389 | Each worker step uses up at least one unit of the remaining work and no other step but accepting adds any |
| MotionInvariant.RunKeepsInv | packages/lefly-simulator/src/lefly_simulator/queue.py:179-431 | Every legal run keeps the structural invariant of jobs, memory, device and interpolation |
| MotionInvariant.StepKeepsInv | packages/lefly-simulator/src/lefly_simulator/queue.py:179-431 | So does every single step |
| MotionInvariant.PreparedJobIsOk | packages/lefly-simulator/src/lefly_simulator/queue.py:483-511 | Every prepared job has targets within the limits and a valid duration; it rests exactly if the command is a rest, and then names the default pose |
| MotionInvariant.InterpolateInLimits | packages/lefly-simulator/src/lefly_simulator/queue.py:369-377 | A position between two positions within the limits is within the limits |
| MotionQueueObject.MotionQueue.constructor | packages/lefly-simulator/src/lefly_simulator/queue.py:109-146 | A new queue is in the initial state and announces its capacity to the device |
| MotionQueueObject.MotionQueue.Enqueue | packages/lefly-simulator/src/lefly_simulator/queue.py:179-260 | One command makes exactly the abstract step: refused with the first reason that applies, or accepted |
| MotionQueueObject.MotionQueue.CheckJob | packages/lefly-simulator/src/lefly_simulator/queue.py:188-232 | The first reason to refuse a prepared job, computed from the object's own fields |
| MotionQueueObject.MotionQueue.TakeRest | packages/lefly-simulator/src/lefly_simulator/queue.py:202-227 | Accepting a rest on the fields of the object makes the abstract acceptance |
| MotionQueueObject.MotionQueue.TakeMotion | packages/lefly-simulator/src/lefly_simulator/queue.py:230-244 | Accepting another motion likewise |
| MotionQueueObject.MotionQueue.RememberId | packages/lefly-simulator/src/lefly_simulator/queue.py:306-312 | The bounded memory after one more id; a live id that leaves the order stays among the seen ids |
| MotionQueueObject.MotionQueue.DropWaiting | packages/lefly-simulator/src/lefly_simulator/queue.py:204-207 | Popping every waiting job from the dictionary leaves the running job only |
| MotionQueueObject.MotionQueue.StartJob | packages/lefly-simulator/src/lefly_simulator/queue.py:314-361 | The worker takes the oldest waiting job, announces it and remembers where it starts |
| MotionQueueObject.MotionQueue.ChooseSleep | packages/lefly-simulator/src/lefly_simulator/queue.py:438-452 | The sleep is chosen over the interrupt, for a motion only while the flag is down |
| MotionQueueObject.MotionQueue.TickJob | packages/lefly-simulator/src/lefly_simulator/queue.py:366-389 | One position update, reported; the last one completes the job |
| MotionQueueObject.MotionQueue.RetireJob | packages/lefly-simulator/src/lefly_simulator/queue.py:391-431 | Finishing a job on the fields of the object makes the abstract finish |
| MotionQueueObject.MotionQueue.InterruptJob | packages/lefly-simulator/src/lefly_simulator/queue.py:433-446 | A motion asleep while the flag is up is cancelled for the rest |
| MotionQueueObject.MotionQueue.FailJob | packages/lefly-simulator/src/lefly_simulator/queue.py:336-338 | A job whose sleep raises fails with the text of the error |
| MotionQueueObject.MotionQueue.StartClosing | packages/lefly-simulator/src/lefly_simulator/queue.py:269-274 | Closing first only marks the queue closed |
| MotionQueueObject.MotionQueue.FinishClosing | packages/lefly-simulator/src/lefly_simulator/queue.py:283-300 | Closing then cancels every unfinished job in order, each with its own state |
| MotionQueueObject.RestIdTellsPending | packages/lefly-simulator/src/lefly_simulator/queue.py:196-201 | The id of the rest transition is set exactly while a rest is live |
| MotionQueueObject.AgreeAfterAccept | packages/lefly-simulator/src/lefly_simulator/queue.py:202-246 | The dictionary of accepted jobs, the rest id and the wake flag stay functions of the live jobs when a job is accepted |
| MotionQueueObject.AgreeAfterFinish | packages/lefly-simulator/src/lefly_simulator/queue.py:400-431 | The same when a job finishes |
| Engine.SimulatorEngine.Execute | packages/lefly-simulator/src/lefly_simulator/engine.py:72-114 | Every command makes the abstract step: wrong device, motion, unsupported, invalid, or applied at once |
| Engine.SimulatorEngine.Mutate | packages/lefly-simulator/src/lefly_simulator/engine.py:183-208 | An immediate command changes the device as specified or is invalid and changes nothing |
| Engine.SimulatorEngine.FinishClose | packages/lefly-simulator/src/lefly_simulator/engine.py:128-130 | Closing the engine closes the queue |
| DeviceModel.PublishedStateIsValid | packages/lefly-simulator/src/lefly_simulator/models.py:331-366 | The state published passes validation if and only if the stored fields are consistent |
| DeviceModel.SimulatorState.SetJoints | packages/lefly-simulator/src/lefly_simulator/models.py:206-222 | All positions are taken or none, exactly if all are known, finite and within limits |
| DeviceModel.SimulatorState.SetHeadLight | packages/lefly-simulator/src/lefly_simulator/models.py:224-230 | Colour and brightness are set together, or nothing is |
| DeviceModel.SimulatorState.SetHeadBrightness | packages/lefly-simulator/src/lefly_simulator/models.py:232-236 | Brightness is set exactly if it is a number in [0, 1] |
| DeviceModel.SimulatorState.SetHeadPixels | packages/lefly-simulator/src/lefly_simulator/models.py:238-246 | A frame is taken in upper case exactly if it has 64 colours |
| DeviceModel.SimulatorState.SetMotionAndQueue | packages/lefly-simulator/src/lefly_simulator/models.py:256-286 | Motion and queue are set together exactly if an action goes with moving and the size fits the capacity |
| DeviceModel.SimulatorState.SetStatus | packages/lefly-simulator/src/lefly_simulator/models.py:296-301 | The error status can only be kept |
| DeviceModel.SimulatorState.ClearErrorStatus | packages/lefly-simulator/src/lefly_simulator/models.py:303-306 | The error status is left for any other mode |
| DeviceModel.SimulatorState.PublishSnapshot | packages/lefly-simulator/src/lefly_simulator/models.py:323-329 | A consistent device publishes a valid state with the next revision |
| Protocol.ValidateState | packages/lefly-protocol/src/lefly_protocol/validation.py:149-178 | The checks as executed accept exactly the valid states |
| Protocol.CheckCapabilities | packages/lefly-protocol/src/lefly_protocol/validation.py:199-234 | Capabilities are accepted exactly if names are unique and each entry is well formed; the joint names are returned |
| Protocol.CheckMotion | packages/lefly-protocol/src/lefly_protocol/validation.py:236-255 | Motion is accepted exactly if moving goes with an action, the joints are the advertised ones and each is within its range |
| Protocol.CheckLight | packages/lefly-protocol/src/lefly_protocol/validation.py:257-271 | The light is accepted exactly if brightness, size and colours fit the one advertised head light |
| Protocol.CheckUnique | packages/lefly-protocol/src/lefly_protocol/validation.py:381-386 | Comparing the number of values with the number of distinct ones decides uniqueness |
| MirrorStack.StaleIffSomethingIsMissing | packages/lefly-simulator/src/lefly_simulator/target.py:349-392 | Whichever events of any run are lost on the way, the mirror is stale if and only if a state between the one it holds and the last that arrived was lost; if not stale it holds the last that arrived, which is the device's state if none was published since |
| MirrorStack.MirrorFollowsSimulator | packages/lefly-simulator/src/lefly_simulator/target.py:349-392 | A remote mirror in step with a new simulator that gets every event of any run, through the checks of its own handler, is never stale, starts no recovery and, until closing, holds exactly the device's state |
| Lease.NeverAcceptedAgain | packages/lefly-simulator/src/lefly_simulator/router.py:125-130 | A credential whose grant was released or has expired is not accepted after any further run, at any later time |
| Lease.EndsOfAGrant | packages/lefly-simulator/src/lefly_simulator/router.py:171-173 | Releasing a grant and reading the clock past its expiry both end it |
| Lease.OwnershipIsExclusive | packages/lefly-simulator/src/lefly_simulator/router.py:95-111 | Over a grant in force no step changes owner or token except its own release |
| Lease.AcquireAnswers | packages/lefly-simulator/src/lefly_simulator/router.py:95-111 | Who gets the lease and for how long, and what each other caller is told |
| Lease.AtMostOneCredential | packages/lefly-simulator/src/lefly_simulator/router.py:149-169 | Two credentials accepted at the same time are for the same token and owner |
| Lease.RenewalKeepsOwnerAndToken | packages/lefly-simulator/src/lefly_simulator/router.py:113-123 | A renewed grant has the same owner and token, and is accepted exactly until a full span later |
| Lease.ControlLease.Acquire | packages/lefly-simulator/src/lefly_simulator/router.py:95-111 | Result and new grant of an acquisition, with the clock read where the source reads it |
| Lease.ControlLease.Renew | packages/lefly-simulator/src/lefly_simulator/router.py:113-123 | Result and new grant of a renewal |
| Lease.ControlLease.Release | packages/lefly-simulator/src/lefly_simulator/router.py:125-130 | A valid credential frees the lease; an invalid one at most expires it |
| Lease.ControlLease.Validate | packages/lefly-simulator/src/lefly_simulator/router.py:149-169 | A credential is accepted exactly if the grant is in force and token and owner match |
| Hub.TakerAloneControls | packages/lefly-simulator/src/lefly_simulator/server.py:196-214 | After a successful take_control the taker's stored lease is the one in force and no other session's stored lease is accepted, at any time |
| Hub.TakeSucceedsIff | packages/lefly-simulator/src/lefly_simulator/server.py:196-214 | take_control succeeds if and only if the lease is free, or its owner still has it stored and is the taker or is connected until it is released |
| Hub.OneController | packages/lefly-simulator/src/lefly_simulator/server.py:145-181 | In every reachable state at most one session's stored lease is accepted, and it is the owner's |
| Hub.ControlIsKept | packages/lefly-simulator/src/lefly_simulator/server.py:354-532 | Before the lease expires, a session in control is in control after a step if and only if the step is not its own departure, another session's taking over from it while it is connected, or a device's error for it with the code invalid_control_lease |
| Hub.OwnerAlwaysHasItIff | packages/lefly-simulator/src/lefly_simulator/server.py:523-544 | Throughout a run the lease in force is the one its owner has stored, if and only if no device answers the owner with the code invalid_control_lease while the lease is in force |
| Hub.LeaseWithoutHolder | packages/lefly-simulator/src/lefly_simulator/server.py:441-458 | A run from an empty hub in which a connected session owns a lease in force that nobody has stored; until it expires every take_control is refused, its own included |
| Hub.StoredAfter | packages/lefly-simulator/src/lefly_simulator/server.py:171-181 | What a session has stored after its own renewal, call, device error or departure, which is the lease exactly if it was in force; and that of no other session changes |
| Hub.TakeAnswers | packages/lefly-simulator/src/lefly_simulator/server.py:196-214 | Why take_control is refused, and what the sessions have stored then |
| Hub.ClientsAreTheConnected | packages/lefly-simulator/src/lefly_simulator/server.py:145-181 | On every run the clients are those that connected and have not left |
| Hub.RunKeepsInv | packages/lefly-simulator/src/lefly_simulator/server.py:145-214 | On every run stored leases name their session, and the owner of the lease in force has stored that lease or none |
| HubObject.ConsoleHub.Connect | packages/lefly-simulator/src/lefly_simulator/server.py:145-160 | A new session takes the lease if it is free and is entered in the dictionary |
| HubObject.ConsoleHub.TakeControl | packages/lefly-simulator/src/lefly_simulator/server.py:366-376 | take_control and what the caller does with its result |
| HubObject.ConsoleHub.Handover | packages/lefly-simulator/src/lefly_simulator/server.py:196-214 | take_control itself on the client objects |
| HubObject.ConsoleHub.RenewControl | packages/lefly-simulator/src/lefly_simulator/server.py:398-409 | Renewal replaces or drops the stored lease |
| HubObject.ConsoleHub.UseControl | packages/lefly-simulator/src/lefly_simulator/server.py:523-539 | A call that is refused for its lease goes out with that code, so the session drops the lease |
| HubObject.ConsoleHub.SendRouterError | packages/lefly-simulator/src/lefly_simulator/server.py:523-539 | The code alone decides whether the session drops its stored lease, valid or not |
| HubObject.ConsoleHub.AnswerDeviceError | packages/lefly-simulator/src/lefly_simulator/server.py:441-458 | An error of a remote device goes out with the device's own code, and can so drop a valid lease |
| HubObject.ConsoleHub.Disconnect | packages/lefly-simulator/src/lefly_simulator/server.py:171-181 | A leaving session gives its lease back and leaves the dictionary |
| RouterSafety.InflightBelongsToSelection | packages/lefly-simulator/src/lefly_simulator/router.py:483-503 | Whatever interleaves, a command in flight belongs to the active target and the current epoch |
| RouterSafety.SwitchLeavesNothingInFlight | packages/lefly-simulator/src/lefly_simulator/router.py:417-443 | A prepared switch is committed if and only if the router runs, the lease holds, nothing was selected since, no command is in flight, and the state held shows neither motion nor waiting jobs; then nothing is in flight |
| RouterSafety.TargetsAreLeftQuietly | packages/lefly-simulator/src/lefly_simulator/router.py:445-467 | On every run each step that changes target or epoch leaves a target without command in flight that is shown neither moving nor with jobs waiting |
| RouterSafety.EpochsOnlyGrow | packages/lefly-simulator/src/lefly_simulator/router.py:425-428 | Epochs only grow, and an epoch has one target |
| RouterSafety.OnlyTheSubscriptionActs | packages/lefly-simulator/src/lefly_simulator/router.py:654-732 | An event changes the mirror or reaches subscribers only through the committed subscription of the current epoch, and that one's other events always do |
| RouterSafety.OldSubscriptionIsMute | packages/lefly-simulator/src/lefly_simulator/router.py:658-663 | Once its epoch has passed, a subscription changes nothing and reaches nobody, in any later run |
| RouterSafety.RouteIsGuarded | packages/lefly-simulator/src/lefly_simulator/router.py:544-603 | A command gets under way if and only if router, lease, epoch, freshness, device id and capability allow it |
| RouterAnswers.UpdateAnswers | packages/lefly-simulator/src/lefly_simulator/router.py:650-732 | What a state update does to the mirror, whether it is forwarded and with which diagnostic, by the announced revision, the held one, the gaps seen and the target's own state; through any subscription but the current one it does nothing |
| RouterAnswers.InflightIsUnderWay | packages/lefly-simulator/src/lefly_simulator/router.py:483-503 | On every run the commands in flight are those that were let through and are not back |
| RouterAnswers.PreparedExactlyWhen | packages/lefly-simulator/src/lefly_simulator/router.py:392-414 | The first phase of a selection prepares it if and only if router, lease and target allow it, nothing is going on at the active one, and the new one has a valid state and can be subscribed to |
| RouterAnswers.FirstPhaseAnswers | packages/lefly-simulator/src/lefly_simulator/router.py:392-414 | Each refusal of the first phase says what stands in its way first |
| RouterAnswers.SecondPhaseAnswers | packages/lefly-simulator/src/lefly_simulator/router.py:416-443 | So does each refusal of the second, or that another selection was faster |
| RouterAnswers.RouteAnswers | packages/lefly-simulator/src/lefly_simulator/router.py:544-603 | Each refusal of a command says what stands in its way first; it is let through exactly if nothing does, and a stale target is noticed on the way |
| RouterAnswers.StartAnswers | packages/lefly-simulator/src/lefly_simulator/router.py:266-293 | Start-up goes on exactly if the targets start and the active one can be prepared, else the router is closed as failed |
| RouterAnswers.StartEnds | packages/lefly-simulator/src/lefly_simulator/router.py:294-317 | The router has started exactly if it was not closed meanwhile, and then shows the prepared state |
| RouterAnswers.ClosingCloses | packages/lefly-simulator/src/lefly_simulator/router.py:319-361 | A closed router stays so on every run, and after that selects and routes nothing |
| RouterAnswers.ShownAnswers | packages/lefly-simulator/src/lefly_simulator/router.py:616-636 | The connection shown is the one the target reports, and degraded for a stale state that would be ready |
| RouterAnswers.LookAnswers | packages/lefly-simulator/src/lefly_simulator/router.py:616-629 | Asking marks the transport lost exactly if an active target reports that it is degraded or offline |
| RouterSafety.RunKeepsInv | packages/lefly-simulator/src/lefly_simulator/router.py:392-503 | Every interleaving of selections, routes and events keeps in-flight commands, activations and pending selections consistent |
| RouterMirror.AdoptionsGrow | packages/lefly-simulator/src/lefly_simulator/router.py:650-732 | On every run adopted revisions strictly grow within an epoch and between losses of the transport and clear every gap seen; not stale implies no floor, and a floor is the largest such gap |
| RouterMirror.AdoptionCases | packages/lefly-simulator/src/lefly_simulator/router.py:667-723 | While the transport is up, a state is adopted only as the event's own payload one ahead of a fresh mirror, or as the target's own state with the event's revision, not below the floor |
| RouterMirror.LeavingStaleness | packages/lefly-simulator/src/lefly_simulator/router.py:734-759 | An event ends staleness if and only if the target itself vouches for its revision, at or above the floor unless the transport was lost |
| RouterMirror.TransportStaleImpliesStale | packages/lefly-simulator/src/lefly_simulator/router.py:566-569 | On every run in which no snapshot of a target that is not ready is taken before the router has started, transport-stale implies stale |
| RouterMirror.AlwaysCoherentIff | packages/lefly-simulator/src/lefly_simulator/router.py:294-313 | Transport-stale implies stale in every state of a run if and only if no start-up of that run ends with the transport marked lost and a target that is not stale |
| RouterMirror.StepKeepsCoherent | packages/lefly-simulator/src/lefly_simulator/router.py:294-313 | The one step that can break that implication is such an end of start-up |
| RouterMirror.LookedAtTooEarly | packages/lefly-simulator/src/lefly_simulator/router.py:616-629 | A run that breaks it: a snapshot of a degraded target before start |
| RouterObject.TargetRouter.ProcessTargetEvent | packages/lefly-simulator/src/lefly_simulator/router.py:650-732 | Processing an event makes the abstract step and reports whether it is forwarded and with which diagnostic |
| RouterObject.TargetRouter.ProcessStateUpdate | packages/lefly-simulator/src/lefly_simulator/router.py:665-723 | The state part of it, field by field |
| RouterObject.TargetRouter.AuthoritativeSnapshot | packages/lefly-simulator/src/lefly_simulator/router.py:734-759 | The target's own state if it is the one announced |
| RouterObject.TargetRouter.BeginSelection | packages/lefly-simulator/src/lefly_simulator/router.py:392-414 | First phase of a selection and its result |
| RouterObject.TargetRouter.CommitSelection | packages/lefly-simulator/src/lefly_simulator/router.py:416-443 | Second phase and its result |
| RouterObject.TargetRouter.CheckSelection | packages/lefly-simulator/src/lefly_simulator/router.py:445-467 | The first reason to refuse a selection |
| RouterObject.TargetRouter.BeginRoute | packages/lefly-simulator/src/lefly_simulator/router.py:483-497 | A routed command is refused or registered in flight |
| RouterObject.TargetRouter.CheckRoute | packages/lefly-simulator/src/lefly_simulator/router.py:544-603 | The first reason to refuse a command; a stale target is noticed on the way |
| RouterObject.TargetRouter.PrepareStart | packages/lefly-simulator/src/lefly_simulator/router.py:266-293 | First half of start-up: it fails if a target does not start, if the active one has no valid state or cannot be subscribed to |
| RouterObject.TargetRouter.CommitStart | packages/lefly-simulator/src/lefly_simulator/router.py:294-317 | The end of start-up adopts the prepared state unless the router was closed |
| RouterObject.TargetRouter.Snapshot | packages/lefly-simulator/src/lefly_simulator/router.py:616-636 | The router's state is shown with the live connection of the active target, and as ready only if it is not stale; asking notices a connection that is not ready |
| RouterObject.Read | packages/lefly-simulator/src/lefly_simulator/router.py:818-826 | A reading is complete exactly if the state is valid |
| RemoteMirror.HeldIsGreatest | packages/lefly-simulator/src/lefly_simulator/target.py:349-392 | Counting valid deliveries since the device was last lost: not stale, the held state is a delivery of the greatest revision; stale from a gap, the floor is that greatest and exceeds the held revision |
| RemoteMirror.RecoversIff | packages/lefly-simulator/src/lefly_simulator/target.py:366-377 | A stale target recovers with a delivery if and only if none delivered since was larger |
| RemoteMirror.PassedOnExactlyWhen | packages/lefly-simulator/src/lefly_simulator/target.py:349-392 | A valid state is passed on if and only if the target was stale or it changes what is held or known to be missing; other events of the device always are |
| RemoteMirror.OnlyOwnStatesCount | packages/lefly-simulator/src/lefly_simulator/target.py:349-361 | Only a valid state of this device counts, until the target is closed |
| RemoteMirror.WakeLeadsOn | packages/lefly-simulator/src/lefly_simulator/target.py:406-434 | The recovery task asks, waits and pauses in this order, pauses once between two requests, and ends exactly if a pause raises or nothing is left to recover |
| RemoteMirror.RecoveryIsNotRestarted | packages/lefly-simulator/src/lefly_simulator/target.py:394-401 | A recovery task under way is left alone by deliveries and disconnections; one that is needed begins with a request at the base delay |
| RemoteMirror.ConnectionShown | packages/lefly-simulator/src/lefly_simulator/target.py:309-320 | Offline, degraded and ready are shown exactly for a target that is not connected, stale, or neither |
| RemoteMirror.RecoveryIsUnderWay | packages/lefly-simulator/src/lefly_simulator/target.py:406-453 | On every run, a stale target that has a state has its recovery task under way throughout if and only if no pause raises while it is needed; the delay is always the base delay doubled and capped |
| RemoteMirror.StepKeepsUnderWay | packages/lefly-simulator/src/lefly_simulator/target.py:428-453 | The only step that leaves a stale target without recovery is a pause that raises |
| RemoteMirror.LeftWithoutRecovery | packages/lefly-simulator/src/lefly_simulator/target.py:428-453 | A run from a new target that leaves it stale without a recovery task: a state, a disconnection, a pause that raises |
| RemoteMirror.RecoveryStartsAgain | packages/lefly-simulator/src/lefly_simulator/target.py:366-392 | The next delivery recovers such a target or starts the task again, and so does the next disconnection |
| RemoteMirror.RemoteTarget.OnStateEvent | packages/lefly-simulator/src/lefly_simulator/target.py:349-392 | Which events are taken, which are passed on, and the new state |
| RemoteMirror.RemoteTarget.LoseDevice | packages/lefly-simulator/src/lefly_simulator/target.py:286-296 | A disconnection found by a command makes the target stale, forgets the floor and starts recovery |
| RemoteMirror.RemoteTarget.ContinueResync | packages/lefly-simulator/src/lefly_simulator/target.py:406-434 | One stretch of the recovery task between two suspensions |
| RemoteMirror.RemoteTarget.Snapshot | packages/lefly-simulator/src/lefly_simulator/target.py:309-320 | The held state is shown as ready exactly when connected and not stale, and then nothing newer was delivered |
| ConsoleSocket.SocketAndStoreAgree | packages/lefly-console-web/src/api/consoleSocket.ts:155-217 | On every run in which each socket is greeted first, the observed epoch and revision are the store's, and a browser that is not stopped has a socket or a reconnect due |
| ConsoleSocket.CommonVerdict | packages/lefly-console-web/src/state/consoleStore.ts:194-221 | After such a run and any message, the store goes stale if and only if the socket retires itself; otherwise both agree on epoch and revision |
| ConsoleSocket.RetiredSocketIsMute | packages/lefly-console-web/src/api/consoleSocket.ts:219-237 | In any later run nothing a retired socket delivers reaches the store |
| ConsoleSocket.NoGreetingNoAgreement | packages/lefly-console-web/src/api/consoleSocket.ts:192-202 | On a socket that was not greeted, a full state leaves the two in agreement if and only if it is not behind the store |
| ConsoleSocket.StepTellsTheStore | packages/lefly-console-web/src/api/consoleSocket.ts:85-260 | Each step changes the store by the actions that it hands over, with their codes, and by nothing else; attempts are counted from the last greeting, one for each socket lost, and then the timer is set |
| ConsoleSocketObject.BrowserSocket.HandleMessage | packages/lefly-console-web/src/api/consoleSocket.ts:155-184 | A message is dispatched first and observed second; a gap retires the socket |
| ConsoleSocketObject.BrowserSocket.ObserveRevision | packages/lefly-console-web/src/api/consoleSocket.ts:186-217 | What is observed after a message, and whether an update is missing |
| ConsoleSocketObject.BrowserSocket.HandleMalformed | packages/lefly-console-web/src/api/consoleSocket.ts:155-178 | What is not JSON is reported with one code, JSON that is no message with another; nothing else changes |
| ConsoleSocketObject.BrowserSocket.Close | packages/lefly-console-web/src/api/consoleSocket.ts:93-98 | Closing stops the timer and retires the socket |
| ConsoleSocketObject.BrowserSocket.Connect | packages/lefly-console-web/src/api/consoleSocket.ts:85-91 | Connecting retires the old socket and opens a new one |
| ConsoleSocketObject.BrowserSocket.HandleClose | packages/lefly-console-web/src/api/consoleSocket.ts:144-152 | A closed socket is reported and replaced after a while |
| ConsoleSocketObject.BrowserSocket.OnTimer | packages/lefly-console-web/src/api/consoleSocket.ts:252-256 | The reconnect timer opens a socket |
| ConsoleSocketObject.BrowserSocket.Send | packages/lefly-console-web/src/api/consoleSocket.ts:100-115 | A message is sent, or its failure is dispatched; a sent command is recorded |
| ConsoleHistory.TimelineShowsWhatWasSaid | packages/lefly-console-web/src/state/consoleStore.ts:243-343 | After any actions each record of the timeline shows what the actions have said of its command since it was sent last: type, status, progress, the events counted, and the code and message of its error; events of other epochs, dropped states, and what comes after the end are told apart |
| ConsoleHistory.TimelineIsWhatWasSent | packages/lefly-console-web/src/state/consoleStore.ts:243-258 | After any actions the timeline has the last 200 commands sent, in the order in which they were sent last |
| ConsoleHistory.ErrorsAndEventsAreTheNewest | packages/lefly-console-web/src/state/consoleStore.ts:100-241 | After any actions the errors are the newest 200 reported, the events the newest 200 that count, and the last error is the one reported last unless something has cleared it since |
| ConsoleHistory.ConnectionIsTheLast | packages/lefly-console-web/src/state/consoleStore.ts:129-221 | After any actions the connection and the state shown are those that came last |
| ConsoleHistory.TargetsAreTheLast | packages/lefly-console-web/src/state/consoleStore.ts:129-193 | After any actions session, active target and the loaded targets are those that came last, and after a full state exactly the active target is marked |
| ConsoleStore.OpenCommandsArePending | packages/lefly-console-web/src/state/consoleStore.ts:243-294 | After any actions the open records of the timeline are the end of the pending list in order, ids are unique in both, nothing pending is finished, and both hold at most 200 |
| ConsoleStore.CommandsArePendingUntilAnswered | packages/lefly-console-web/src/state/consoleStore.ts:243-339 | After any actions, the next one, whatever it is, takes a command off the pending list if and only if it answers it (by the end of its motion, by the next state for other commands, or by an error) or crowds it out: the oldest of 200, when a command with a new id is sent |
| ConsoleStore.FirstIsCrowdedOut | packages/lefly-console-web/src/state/consoleStore.ts:243-258 | A run that shows the second case: after 200 commands with different ids one more is sent, and the first leaves the list unanswered |
| ConsoleStore.SentCommandIsPending | packages/lefly-console-web/src/state/consoleStore.ts:243-258 | A command that was just sent is the newest pending one |
| ConsoleStore.ShownOnlyAdvances | packages/lefly-console-web/src/state/consoleStore.ts:169-221 | Between two greetings the shown epoch and revision only advance, whatever arrives in whatever order |
| AgentStore.StreamsBecomeMessages | packages/lefly-console-web/src/agent/agentStore.ts:102-148 | For any interleaving of well-formed streams: once all completed there is no draft, and the messages are the newest 100 of the earlier ones followed by one line per response that said something, in completion order, with its own deltas joined |
| AgentHistory.ChatShowsWhatWasSaid | packages/lefly-console-web/src/agent/agentStore.ts:64-167 | After any actions, well-formed streams or not, failures and greetings included, as long as there was room for one more draft: the messages are those said, with author and time, and each response has exactly the draft that its own actions make of it |
| AgentHistory.ToolsShowWhatWasTold | packages/lefly-console-web/src/agent/agentStore.ts:168-217 | After any actions each tool call is shown once and as told last since the greeting |
| AgentHistory.CallsAreTheNewest | packages/lefly-console-web/src/agent/agentStore.ts:213-217 | The calls shown are the newest hundred told of, in the order in which they came up |
| AgentHistory.PictureShowsWhatWasTold | packages/lefly-console-web/src/agent/agentStore.ts:64-101 | After any actions connection, session, server state and error are those told last |
| AgentStore.DraftsHoldWhatWasSaid | packages/lefly-console-web/src/agent/agentStore.ts:117-132 | While a response streams, its draft holds exactly its own deltas so far |
| AgentStore.OneStreamTooMany | packages/lefly-console-web/src/agent/agentStore.ts:102-114 | With a hundred responses streaming, one more drops the oldest draft |
| AgentStore.ReduceKeepsUnique | packages/lefly-console-web/src/agent/agentStore.ts:219-226 | Message ids stay unique over every action |
| ConsoleSocket.ReducedState | packages/lefly-console-web/src/state/consoleStore.ts:169-221 | What the store makes of each kind of message, as far as connection, epoch and revision go |
| ConsoleStore.RoleIsTheLastGranted | packages/lefly-console-web/src/state/consoleStore.ts:129-166 | The store shows control exactly as last granted and not lost since |
| RobotPolicy.NoMovementDuringRest | packages/lefly-agent/src/lefly_agent/robot.py:121-140 | On every run no movement begins between a rest call and the first of: an accepted resting state, an invalidation, or the failure of a rest call |
| RobotPolicy.NoMovementDuringEachRest | packages/lefly-agent/src/lefly_agent/robot.py:167-181 | The flag stands for the rests under way in every state of a run if and only if no rest call fails while another is under way; then no movement begins during any of them, each counted until its own failure |
| RobotPolicy.GateHoldsIff | packages/lefly-agent/src/lefly_agent/robot.py:121-181 | From a reachable state, no movement begins during a rest on any continuation in which no rest call fails, if and only if no rest is under way or the flag is up |
| RobotPolicy.CallsFitTheState | packages/lefly-agent/src/lefly_agent/robot.py:114-181 | On every run, read from the log: exactly the usable states are accepted, and a call begins only on the state accepted last, not dropped since, in which the tool is advertised with control scope, the preset or head light exists, and a resting device is only called to wake up; a synchronisation is answered only after a state |
| RobotPolicy.CallBeginsExactlyWhen | packages/lefly-agent/src/lefly_agent/robot.py:121-181 | The converse: a call that gets the lock begins if and only if the device is connected, the state held allows it, and no rest stands against a movement |
| RobotPolicy.NothingBeginsUntilAState | packages/lefly-agent/src/lefly_agent/robot.py:97-112 | After detaching, an invalid payload or the beginning of a synchronisation no call begins on any continuation without a usable state |
| RobotPolicy.RestsWaitIfTheFlagWasDown | packages/lefly-agent/src/lefly_agent/robot.py:167-169 | On every run exactly the rest calls wait that found the flag down when they asked |
| RobotPolicy.StepKeepsGuard | packages/lefly-agent/src/lefly_agent/robot.py:175-180 | The flag stops standing for a rest under way exactly when one rest call fails while another is under way |
| RobotPolicy.OverlappingRestsOpenTheGate | packages/lefly-agent/src/lefly_agent/robot.py:167-181 | A run with two waiting rest calls in which a movement begins while the first rest is still under way |
| RobotPolicy.CallsNeedContiguousState | packages/lefly-agent/src/lefly_agent/robot.py:196-227 | A call begins only on the state delivered last, which is the first since a synchronisation or continues the previous delivery |
| RobotObject.RobotCommandService.OnStateEvent | packages/lefly-agent/src/lefly_agent/robot.py:196-219 | Which states are taken, which make the service forget, and when the rest flag falls |
| RobotObject.RobotCommandService.PlayMotion | packages/lefly-agent/src/lefly_agent/robot.py:121-140 | A movement begins exactly if the policy permits it |
| RobotObject.RobotCommandService.SetHeadLight | packages/lefly-agent/src/lefly_agent/robot.py:142-165 | A light call begins exactly if the policy permits it |
| RobotObject.RobotCommandService.EnterRest | packages/lefly-agent/src/lefly_agent/robot.py:167-181 | A rest call begins exactly if the policy permits it, with the flag raised before |
| RobotObject.RobotCommandService.Return | packages/lefly-agent/src/lefly_agent/robot.py:176-180 | A rest call that raises lowers the flag |
| RobotObject.RobotCommandService.AskForRest | packages/lefly-agent/src/lefly_agent/robot.py:167-169 | A rest call waits for the lock only if it finds the flag down |
| RobotObject.RobotCommandService.EndSynchronize | packages/lefly-agent/src/lefly_agent/robot.py:104-112 | A synchronisation that times out forgets the state again |
| RobotObject.RobotCommandService.BeginSynchronize | packages/lefly-agent/src/lefly_agent/robot.py:97-112 | Synchronising forgets the state first |

## Left out

- Emission is assumed to be synchronous and total: subscribers are plain functions that do not raise, so the events of a step are delivered within it. Asynchronous or raising subscribers are not modelled.
- Tasks, futures, locks and shielding of asyncio: replaced by atomic steps. Between the end of one job and the start of the next the model allows any other step, which is more than the event loop does.
- MotionQueueObject.MotionQueue.FailJob: the only failure modelled is a sleep that raises; subscribers do not.
- MotionQueueObject.MotionQueue.Enqueue: jobs are values, so the identity of job objects and the `ready` event of a job are not modelled; the wake event is a boolean.
- Floating point: positions and elapsed times are reals; rounding of `elapsed_ms` is Python's, to the nearest integer with ties to even.
- DeviceModel.PublishedStateIsValid: only the default joint profiles are modelled; a simulator built with other profiles is not.
- Protocol.ValidateState: names, ids and timestamps that have the right syntax are opaque; extensions, labels' language and JSON shape errors are not modelled.
- Sensor injection, `set_connection`, `set_joint` and `set_motion`: single guarded assignments.
- Command payloads are taken as parsed messages; envelope validation is not part of this model.
- The wall-clock projection of a lease (`expiry_epoch`) and the wording of messages.
- HubObject.ConsoleHub.UseControl: a refused call and the dropping of the lease are one step; in the source other steps may come between, and by `Lease.NeverAcceptedAgain` the refusal still stands then. When a device's error arrives the lease is not looked at, so any steps may come before it.
- Outbound queues, WebSocket and HTTP plumbing, health and target listings of the server.
- RouterObject.TargetRouter.PrepareStart: starting the targets is reduced to whether all of them start; closing them and the diagnostics callback are left out.
- RouterObject.TargetRouter.Snapshot: before a state was adopted the source shows a dictionary with at most the connection in it, the model shows none; the target id and epoch shown beside the state are the router's fields.
- RemoteMirror.RemoteTarget.ContinueResync: the recovery loop is cut at its suspension points, and a pause that raises ends it; the lengths of the pauses are modelled, the passing of time is not. The start-up handshake of a remote target is left out.
- ConsoleSocketObject.BrowserSocket.HandleClose: the delay of a reconnect and its jitter are not modelled, only that one is due and how many attempts were made.
- The parser of console messages: it is assumed to let only complete states with a revision of at least 0 through.
- RobotObject.RobotCommandService.PlayMotion: the checks of argument syntax and the first look at the rest flag before waiting for the lock can only refuse more and are left out, except for rest calls, where that look is the only one.
- AgentStore.StreamsBecomeMessages: failed responses and greetings are outside well-formed streams; `AgentHistory.ChatShowsWhatWasSaid` has them.
- AgentHistory.ChatShowsWhatWasSaid: while a hundred drafts stand, one more drops the oldest (`AgentStore.OneStreamTooMany`); such runs are not covered.
- MotionStates.EveryStateIsExplained: a queue built around a device that is already shown moving is not covered, nor what an immediate command shows after the queue has closed.
- ConsoleHistory.ErrorsAndEventsAreTheNewest: the wording of the message about a revision gap is not modelled.
- The agent's runtime, model session, telemetry, touch and weather clients, configuration, user interface, command line and release tools.
