/** Where relative moves start from: the projected pose is what the accepted jobs lead to. */
module MotionProjection {
  import opened Common
  import opened Protocol
  import opened DeviceModel
  import opened Motion
  import opened MotionInvariant
  import opened MotionDrain

  /** The target of the last of these jobs that names the joint. */
  function LastTarget(jobs: seq<Job>, n: JointName): Option<real> {
    if jobs == [] then None
    else
      var last := jobs[|jobs| - 1];
      if n in last.targets then Some(last.targets[n]) else LastTarget(jobs[..|jobs| - 1], n)
  }

  /** Where these jobs, executed one after the other, take a joint that is at this position. */
  function Destination(jobs: seq<Job>, position: real, n: JointName): real {
    var target := LastTarget(jobs, n);
    if target.Some? then target.value else position
  }

  ghost predicate ProjectedPose(projected: Pose, joints: Pose, jobs: seq<Job>) {
    && projected.Keys == joints.Keys
    && forall n :: n in projected ==> projected[n] == Destination(jobs, joints[n], n)
  }

  /** Each joint's projection is the target of the last live job naming it, or its actual position. */
  ghost predicate Projected(q: Queue) {
    ProjectedPose(q.projected, q.dev.joints, Live(q))
  }

  lemma {:induction false} LastTargetOfFirst(job: Job, rest: seq<Job>, n: JointName)
    ensures LastTarget([job] + rest, n) ==
      if LastTarget(rest, n).Some? then LastTarget(rest, n)
      else if n in job.targets then Some(job.targets[n]) else None
  {
    var all := [job] + rest;
    if rest == [] {
      assert all[..0] == [];
    } else {
      assert all[..|all| - 1] == [job] + rest[..|rest| - 1];
      LastTargetOfFirst(job, rest[..|rest| - 1], n);
    }
  }

  lemma LastTargetOfAppended(jobs: seq<Job>, job: Job, n: JointName)
    ensures LastTarget(jobs + [job], n) == if n in job.targets then Some(job.targets[n]) else LastTarget(jobs, n)
  {
    assert (jobs + [job])[..|jobs|] == jobs;
  }

  // ---- accepting -------------------------------------------------------------------

  lemma AppendKeepsProjected(projected: Pose, joints: Pose, jobs: seq<Job>, job: Job)
    requires ProjectedPose(projected, joints, jobs) && job.targets.Keys <= joints.Keys
    ensures ProjectedPose(projected + job.targets, joints, jobs + [job])
  {
    forall n | n in joints
      ensures (projected + job.targets)[n] == Destination(jobs + [job], joints[n], n)
    {
      LastTargetOfAppended(jobs, job, n);
    }
  }

  /** A rest names every joint, so what ran before it does not matter. */
  lemma RestKeepsProjected(joints: Pose, jobs: seq<Job>, job: Job)
    requires job.targets.Keys == joints.Keys
    ensures ProjectedPose(joints + job.targets, joints, jobs + [job])
  {
    forall n | n in joints
      ensures (joints + job.targets)[n] == Destination(jobs + [job], joints[n], n)
    {
      LastTargetOfAppended(jobs, job, n);
    }
  }

  lemma TargetsAreJoints(targets: Pose, joints: Pose)
    requires PoseInLimits(targets) && FullPose(joints)
    ensures targets.Keys <= joints.Keys
    ensures FullPose(targets) ==> targets.Keys == joints.Keys
  {
  }

  lemma AcceptKeepsProjected(q: Queue, job: Job)
    requires Inv(q) && Projected(q) && JobOk(job) && Rejection(q, job).None?
    ensures Projected(Accept(q, job))
  {
    KeptJobs(q, job);
    TargetsAreJoints(job.targets, q.dev.joints);
    if job.resting {
      RestKeepsProjected(q.dev.joints, Kept(q, job), job);
    } else {
      AppendKeepsProjected(q.projected, q.dev.joints, Live(q), job);
    }
  }

  lemma ExecuteKeepsProjected(q: Queue, c: Command)
    requires Inv(q) && Projected(q)
    ensures Projected(Execute(q, c))
  {
    ExecuteCases(q, c);
    var r := Execute(q, c);
    if job :| AcceptStep(q, r, c, job) {
      AcceptKeepsProjected(q, job);
    } else {
      var dev, events :| QuietStep(q, r, dev, events);
      assert Live(r) == Live(q);
    }
  }

  // ---- running ------------------------------------------------------------------------

  /** A job moves only joints that it names, and those are projected to a target. */
  lemma MoveKeepsProjected(q: Queue)
    requires Inv(q) && CanTick(q) && Projected(q)
    ensures Projected(Move(q))
  {
    MoveKeepsJobs(q);
    MoveKeepsDevice(q);
    MovedJoints(q);
    var job := q.current.value.job;
    assert Live(q) == [job] + q.waiting;
    forall n | n in q.dev.joints
      ensures Destination(Live(q), Move(q).dev.joints[n], n) == Destination(Live(q), q.dev.joints[n], n)
    {
      LastTargetOfFirst(job, q.waiting, n);
    }
  }

  lemma MovedJoints(q: Queue)
    requires Inv(q) && CanTick(q)
    ensures Move(q).dev.joints.Keys == q.dev.joints.Keys
    ensures forall n :: n in q.dev.joints && n !in q.current.value.job.targets ==>
      Move(q).dev.joints[n] == q.dev.joints[n]
    ensures q.current.value.done + 1 == q.steps ==>
      forall n :: n in q.dev.joints && n in q.current.value.job.targets ==>
        Move(q).dev.joints[n] == q.current.value.job.targets[n]
  {
    NextPose(q.dev, q.current.value, q.steps);
  }

  /** Ending the running job here does not change where any joint is projected to. */
  ghost predicate Harmless(q: Queue)
    requires q.current.Some?
  {
    forall n :: n in q.current.value.job.targets && n in q.dev.joints ==>
      LastTarget(q.waiting, n).Some? || q.dev.joints[n] == q.current.value.job.targets[n]
  }

  /** The only step that can break the projection, and exactly when it does. */
  lemma FinishKeepsProjectedIff(q: Queue, outcome: Outcome)
    requires Projected(q) && q.current.Some?
    ensures Projected(Finish(q, outcome)) <==> Harmless(q)
  {
    var job, r := q.current.value.job, Finish(q, outcome);
    assert Live(q) == [job] + q.waiting && Live(r) == q.waiting;
    forall n | n in q.dev.joints
      ensures Destination(q.waiting, q.dev.joints[n], n) == Destination(Live(q), q.dev.joints[n], n)
         <==> (n in job.targets ==> LastTarget(q.waiting, n).Some? || q.dev.joints[n] == job.targets[n])
    {
      LastTargetOfFirst(job, q.waiting, n);
    }
    assert Projected(r) <==> forall n :: n in q.dev.joints ==>
      Destination(q.waiting, q.dev.joints[n], n) == Destination(Live(q), q.dev.joints[n], n);
  }

  lemma TickKeepsProjected(q: Queue)
    requires Inv(q) && CanTick(q) && Projected(q)
    ensures Projected(Tick(q))
  {
    MoveKeepsProjected(q);
    if q.current.value.done + 1 == q.steps {
      MovedJoints(q);
      FinishKeepsProjectedIff(Move(q), Completed);
    }
  }

  /** An interruption while a rest waits is always harmless. */
  lemma WaitingRestIsHarmless(q: Queue)
    requires Inv(q) && q.current.Some? && q.waiting != [] && q.waiting[0].resting
    ensures Harmless(q)
  {
    assert q.waiting == [q.waiting[0]];
    assert Live(q)[|CurrentJob(q)|] == q.waiting[0];
    assert JobOk(q.waiting[0]);
    LastTargetOfEach(q.waiting[0]);
  }

  lemma LastTargetOfEach(job: Job)
    requires job.targets == DefaultPose()
    ensures forall n :: ProfileOf(n).Some? ==> LastTarget([job], n).Some?
    ensures forall n :: n in job.targets ==> LastTarget([job], n) == Some(job.targets[n])
  {
  }

  // ---- steps and runs --------------------------------------------------------------------

  predicate IsAbort(s: Step) {
    s.DoInterrupt? || s.DoFail?
  }

  lemma OtherStepKeepsProjected(q: Queue, s: Step)
    requires Inv(q) && Enabled(q, s) && Projected(q) && !IsAbort(s)
    ensures Projected(Apply(q, s))
  {
    match s
    case DoExecute(c) => ExecuteKeepsProjected(q, c);
    case DoStart => StartKeepsInv(q);
    case DoSleepDone => assert Live(SleepDone(q)) == Live(q);
    case DoTick => TickKeepsProjected(q);
    case DoBeginClose => assert Live(BeginClose(q)) == Live(q);
    case DoFinishClose => assert Live(FinishClose(q)) == [];
  }

  /** Each step keeps the projection; for one that aborts a job, exactly if that is harmless. */
  lemma StepKeepsProjected(q: Queue, s: Step)
    requires Inv(q) && Enabled(q, s) && Projected(q)
    ensures Projected(Apply(q, s)) <==> (IsAbort(s) ==> Harmless(q))
  {
    if IsAbort(s) {
      FinishKeepsProjectedIff(q, if s.DoFail? then Failed(s.error) else Cancelled(ForRest));
    } else {
      OtherStepKeepsProjected(q, s);
    }
  }

  /** No job fails, and jobs are interrupted only while a rest waits. */
  predicate InterruptedForRestOnly(q: Queue, run: seq<Step>)
    requires Legal(q, run)
    decreases |run|
  {
    run == [] || (
      && !run[0].DoFail?
      && (run[0].DoInterrupt? ==> q.waiting != [] && q.waiting[0].resting)
      && InterruptedForRestOnly(Apply(q, run[0]), run[1..]))
  }

  lemma {:induction false} RunKeepsProjected(q: Queue, run: seq<Step>)
    requires Inv(q) && Projected(q) && Legal(q, run) && InterruptedForRestOnly(q, run)
    ensures Inv(After(q, run)) && Projected(After(q, run))
    decreases |run|
  {
    if run != [] {
      if run[0].DoInterrupt? {
        WaitingRestIsHarmless(q);
      }
      StepKeepsProjected(q, run[0]);
      StepKeepsInv(q, run[0]);
      RunKeepsProjected(Apply(q, run[0]), run[1..]);
    }
  }

  lemma InitialIsProjected(q: Queue)
    requires Initial(q)
    ensures Projected(q)
  {
    assert Live(q) == [];
  }

  /** Every run from a new queue without failures, interrupted only for a rest, ends projected. */
  lemma ProjectionTheorem(q: Queue, run: seq<Step>)
    requires Initial(q) && Legal(q, run) && InterruptedForRestOnly(q, run)
    ensures Projected(After(q, run))
  {
    InitialInv(q);
    InitialIsProjected(q);
    RunKeepsProjected(q, run);
  }

  // ---- exactly when a run stays projected --------------------------------------------------

  /** A job is aborted although the projection still counts on it. */
  ghost predicate Harms(q: Queue, s: Step)
    requires Enabled(q, s)
  {
    IsAbort(s) && !Harmless(q)
  }

  ghost predicate SomeAbortHarms(q: Queue, run: seq<Step>)
    requires Legal(q, run)
    decreases |run|
  {
    run != [] && (Harms(q, run[0]) || SomeAbortHarms(Apply(q, run[0]), run[1..]))
  }

  /** Every state that the run passes through is projected. */
  ghost predicate AlwaysProjected(q: Queue, run: seq<Step>)
    requires Legal(q, run)
    decreases |run|
  {
    Projected(q) && (run == [] || AlwaysProjected(Apply(q, run[0]), run[1..]))
  }

  lemma {:induction false} AlwaysProjectedFrom(q: Queue, run: seq<Step>)
    requires Inv(q) && Projected(q) && Legal(q, run)
    ensures AlwaysProjected(q, run) <==> !SomeAbortHarms(q, run)
    decreases |run|
  {
    if run != [] {
      StepKeepsProjected(q, run[0]);
      StepKeepsInv(q, run[0]);
      if Projected(Apply(q, run[0])) {
        AlwaysProjectedFrom(Apply(q, run[0]), run[1..]);
      }
    }
  }

  /** A run from a new queue stays projected throughout exactly if no abort in it does harm. */
  lemma AlwaysProjectedIff(q: Queue, run: seq<Step>)
    requires Initial(q) && Legal(q, run)
    ensures AlwaysProjected(q, run) <==> !SomeAbortHarms(q, run)
  {
    InitialInv(q);
    InitialIsProjected(q);
    AlwaysProjectedFrom(q, run);
  }

  /** A move of one joint to a place where it is not. */
  function MoveAway(q: Queue): Command
    requires BaseYaw in q.dev.joints
  {
    var place := if q.dev.joints[BaseYaw] == 0.0 then 1.0 else 0.0;
    Command(q.dev.deviceId, 0, Motion(AbsoluteMove(map[BaseYaw := Number(place)], Some(1000))))
  }

  lemma MoveAwayIsAccepted(q: Queue)
    requires Initial(q)
    ensures FullPose(q.dev.joints)
    ensures var r := Execute(q, MoveAway(q));
      && r.stage == Open && r.current.None? && r.dev.joints == q.dev.joints && |r.waiting| == 1
      && BaseYaw in r.waiting[0].targets && r.waiting[0].targets[BaseYaw] != q.dev.joints[BaseYaw]
  {
    var c := MoveAway(q);
    var joints := c.body.command.joints;
    AbsoluteMoveIsTakenLiterally(0, joints, Some(1000), q.projected);
    assert joints[BaseYaw].Number? && InLimits(BaseYaw, joints[BaseYaw].value);
    var job := Prepare(0, c.body.command, q.projected).value;
    assert AsValues(job.targets)[BaseYaw] == joints[BaseYaw];
    assert Live(q) == [] && !RestPending(q);
    assert Execute(q, c) == Accept(q, job);
  }

  lemma ThreeSteps(q: Queue, s: Step, t: Step, u: Step)
    requires Enabled(q, s) && Enabled(Apply(q, s), t) && Enabled(Apply(Apply(q, s), t), u)
    ensures Legal(q, [s, t, u]) && After(q, [s, t, u]) == Apply(Apply(Apply(q, s), t), u)
  {
    var run := [s, t, u];
    var a := Apply(q, s);
    var b := Apply(a, t);
    var c := Apply(b, u);
    assert run[1..][1..][1..] == [];
    assert Legal(c, run[1..][1..][1..]);
    assert Legal(b, run[1..][1..]);
    assert Legal(a, run[1..]);
    assert After(q, run) == After(a, run[1..]) == After(b, run[1..][1..]) == After(c, run[1..][1..][1..]);
  }

  lemma FailureHarms(q: Queue, error: string)
    requires Inv(q) && Projected(q) && CanStart(q) && |q.waiting| == 1
    requires BaseYaw in q.dev.joints && BaseYaw in q.waiting[0].targets
    requires q.waiting[0].targets[BaseYaw] != q.dev.joints[BaseYaw]
    ensures !Projected(Fail(Start(q), error))
  {
    StepKeepsProjected(q, DoStart);
    StepKeepsInv(q, DoStart);
    var r := Start(q);
    assert !Harmless(r) by {
      assert r.waiting == [] && LastTarget([], BaseYaw).None?;
    }
    StepKeepsProjected(r, DoFail(error));
  }

  /** From every new queue a run shows it: a move is accepted and started, and its first sleep raises. */
  lemma FailureLeavesProjectionBehind(q: Queue, error: string)
    requires Initial(q)
    ensures FullPose(q.dev.joints)
    ensures var run := [DoExecute(MoveAway(q)), DoStart, DoFail(error)];
      Legal(q, run) && !Projected(After(q, run))
  {
    MoveAwayIsAccepted(q);
    InitialInv(q);
    InitialIsProjected(q);
    var first := DoExecute(MoveAway(q));
    StepKeepsInv(q, first);
    StepKeepsProjected(q, first);
    FailureHarms(Apply(q, first), error);
    ThreeSteps(q, first, DoStart, DoFail(error));
  }

  // ---- what it means for a relative move ---------------------------------------------------

  lemma IdleIsReached(q: Queue)
    requires Projected(q) && Live(q) == []
    ensures q.dev.joints == q.projected
  {
    assert forall n :: n in q.projected ==> LastTarget([], n) == None;
  }

  lemma NextStepKeepsProjected(q: Queue)
    requires Inv(q) && Projected(q) && Enabled(q, NextStep(q))
    ensures Projected(Apply(q, NextStep(q)))
  {
    StepKeepsProjected(q, NextStep(q));
  }

  lemma {:induction false} DrainReachesProjection(q: Queue)
    requires Inv(q) && Projected(q) && q.stage == Open && !q.interrupt
    ensures Drained(q).dev.joints == q.projected
    decreases Remaining(q)
  {
    DrainedStep(q);
    if Live(q) == [] {
      IdleIsReached(q);
    } else {
      NextStepKeepsProjected(q);
      NextStepKeepsGoing(q);
      DrainReachesProjection(Apply(q, NextStep(q)));
    }
  }

  /** Raising or lowering the flag alone keeps the invariant. */
  lemma WithFlag(q: Queue, flag: bool)
    requires Inv(q)
    ensures Inv(q.(interrupt := flag)) && (Projected(q) ==> Projected(q.(interrupt := flag)))
  {
    var r := q.(interrupt := flag);
    SameJobs(q, r);
    assert RunningOk(r);
  }

  ghost function SerialExecution(q: Queue): Pose
    requires Inv(q) && q.stage == Open
  {
    WithFlag(q, false);
    Drained(q.(interrupt := false)).dev.joints
  }

  lemma SerialExecutionIsProjected(q: Queue)
    requires Inv(q) && Projected(q) && q.stage == Open
    ensures SerialExecution(q) == q.projected
  {
    WithFlag(q, false);
    DrainReachesProjection(q.(interrupt := false));
  }

  lemma DeltasAreAdded(id: Id, deltas: map<JointName, Value>, duration: Option<int>, projected: Pose, n: JointName)
    requires Prepare(id, RelativeMove(deltas, duration), projected).Some? && n in deltas
    ensures n in projected && deltas[n].Number?
    ensures var targets := Prepare(id, RelativeMove(deltas, duration), projected).value.targets;
      n in targets && targets[n] == projected[n] + deltas[n].value
  {
  }

  /**
   The target of a relative move is its delta added to the place where serial
   execution of everything accepted before it leaves the joint.
   */
  lemma RelativeMoveStartsWhereSerialExecutionEnds(q: Queue, id: Id, deltas: map<JointName, Value>,
                                                   duration: Option<int>, n: JointName)
    requires Inv(q) && Projected(q) && q.stage == Open
    requires Prepare(id, RelativeMove(deltas, duration), q.projected).Some?
    requires n in deltas
    ensures n in SerialExecution(q) && deltas[n].Number?
    ensures var targets := Prepare(id, RelativeMove(deltas, duration), q.projected).value.targets;
      n in targets && targets[n] == SerialExecution(q)[n] + deltas[n].value
  {
    SerialExecutionIsProjected(q);
    DeltasAreAdded(id, deltas, duration, q.projected, n);
  }

  /**
   Once accepted, a motion leads where it says: serial execution of everything
   then live takes each joint it names to its target, and leaves every other
   joint where it would have ended without it (a rest names them all).
   */
  lemma AcceptedMotionLeadsToItsTargets(q: Queue, c: Command, job: Job, n: JointName)
    requires Inv(q) && Projected(q) && AcceptStep(q, Execute(q, c), c, job) && ProfileOf(n).Some?
    ensures Inv(Execute(q, c)) && Execute(q, c).stage == Open && q.stage == Open
    ensures n in SerialExecution(Execute(q, c)) && n in SerialExecution(q)
    ensures SerialExecution(Execute(q, c))[n] == if n in job.targets then job.targets[n] else SerialExecution(q)[n]
  {
    var r := Execute(q, c);
    ExecuteKeepsInv(q, c);
    ExecuteKeepsProjected(q, c);
    SerialExecutionIsProjected(q);
    SerialExecutionIsProjected(r);
    if job.resting {
      assert JobOk(job);
    }
  }

  /** An absolute move is well formed exactly if all is within limits, and is prepared with what it asks for. */
  lemma AbsoluteMoveIsTakenLiterally(id: Id, joints: map<JointName, Value>, duration: Option<int>, projected: Pose)
    ensures var job := Prepare(id, AbsoluteMove(joints, duration), projected);
      && (job.Some? <==>
            (duration.Some? && 0 < duration.value <= 60000 && joints != map[]
             && forall n :: n in joints ==> joints[n].Number? && InLimits(n, joints[n].value)))
      && (job.Some? ==> AsValues(job.value.targets) == joints && job.value.durationMs == duration.value)
  {
    var job := Prepare(id, AbsoluteMove(joints, duration), projected);
    if job.Some? {
      assert AsValues(job.value.targets) == joints;
    }
  }
}
