/** The queue always empties: a bound on the worker's steps, and the run that reaches it. */
module MotionDrain {
  import opened Common
  import opened Protocol
  import opened DeviceModel
  import opened Motion
  import opened MotionInvariant
  import opened MotionQueueObject

  predicate IsMotion(s: Step) {
    s.DoExecute? && s.command.body.Motion?
  }

  predicate IsWorker(s: Step) {
    s.DoStart? || s.DoSleepDone? || s.DoTick? || s.DoInterrupt? || s.DoFail?
  }

  function WorkerSteps(run: seq<Step>): nat {
    if run == [] then 0 else (if IsWorker(run[0]) then 1 else 0) + WorkerSteps(run[1..])
  }

  function CurrentRemaining(q: Queue): int {
    if q.current.Some? then 2 * (q.steps - q.current.value.done) - (if q.current.value.chosen then 1 else 0) else 0
  }

  /** Worker steps left: two per position update, one to start. */
  function Remaining(q: Queue): int {
    |q.waiting| * (2 * q.steps + 1) + CurrentRemaining(q)
  }

  lemma RemainingBound(q: Queue)
    requires Inv(q)
    ensures 0 <= Remaining(q) <= |Live(q)| * (2 * q.steps + 1)
    ensures Live(q) != [] ==> Remaining(q) > 0
  {
    assert |Live(q)| == |q.waiting| + |CurrentJob(q)|;
    assert |Live(q)| * (2 * q.steps + 1) == |q.waiting| * (2 * q.steps + 1) + |CurrentJob(q)| * (2 * q.steps + 1);
    assert q.waiting != [] ==> |q.waiting| * (2 * q.steps + 1) >= 2 * q.steps + 1;
  }

  lemma ExecuteKeepsRemaining(q: Queue, c: Command)
    requires Inv(q) && !c.body.Motion?
    ensures Remaining(Execute(q, c)) == Remaining(q)
  {
  }

  /** Without new motions, each worker step uses up at least one unit, and no step adds any. */
  lemma StepUsesRemaining(q: Queue, s: Step)
    requires Inv(q) && Enabled(q, s) && !IsMotion(s)
    ensures Remaining(Apply(q, s)) + (if IsWorker(s) then 1 else 0) <= Remaining(q)
  {
    match s
    case DoExecute(c) => ExecuteKeepsRemaining(q, c);
    case DoStart =>
      assert |q.waiting| * (2 * q.steps + 1) == (|q.waiting| - 1) * (2 * q.steps + 1) + 2 * q.steps + 1;
    case DoSleepDone =>
    case DoTick =>
    case DoInterrupt =>
    case DoFail(_) =>
    case DoBeginClose =>
    case DoFinishClose => RemainingBound(q);
  }

  /**
   However the worker's steps, immediate commands and closing interleave, a run
   that accepts no motion has at most (2 * steps + 1) worker steps per live job.
   */
  lemma {:induction false} WorkIsBounded(q: Queue, run: seq<Step>)
    requires Inv(q) && Legal(q, run) && forall s :: s in run ==> !IsMotion(s)
    ensures WorkerSteps(run) + Remaining(After(q, run)) <= Remaining(q)
    ensures WorkerSteps(run) <= |Live(q)| * (2 * q.steps + 1)
    decreases |run|
  {
    RemainingBound(q);
    if run != [] {
      assert run[0] in run;
      StepUsesRemaining(q, run[0]);
      StepKeepsInv(q, run[0]);
      assert forall s :: s in run[1..] ==> s in run;
      WorkIsBounded(Apply(q, run[0]), run[1..]);
    }
    RunKeepsInv(q, run);
    RemainingBound(After(q, run));
  }

  /** While the queue is open and anything is live, some worker step is possible. */
  lemma WorkerIsNeverStuck(q: Queue)
    requires Inv(q) && q.stage == Open && Live(q) != []
    ensures Enabled(q, DoStart) || Enabled(q, DoSleepDone) || Enabled(q, DoTick) || Enabled(q, DoInterrupt)
  {
    assert q.current.None? ==> Live(q) == q.waiting;
  }

  // ---- running to the end ---------------------------------------------------------

  /** The undisturbed next step of the worker. */
  function NextStep(q: Queue): Step {
    if q.current.None? then DoStart else if q.current.value.chosen then DoTick else DoSleepDone
  }

  lemma NextStepKeepsGoing(q: Queue)
    requires Inv(q) && q.stage == Open && !q.interrupt && Live(q) != []
    ensures Enabled(q, NextStep(q))
    ensures var r := Apply(q, NextStep(q));
      Inv(r) && r.stage == Open && !r.interrupt && 0 <= Remaining(r) < Remaining(q) && r.projected == q.projected
  {
    assert q.current.None? ==> Live(q) == q.waiting;
    StepUsesRemaining(q, NextStep(q));
    StepKeepsInv(q, NextStep(q));
    RemainingBound(Apply(q, NextStep(q)));
  }

  /** Serial execution of everything that is live, nothing coming in between. */
  ghost function DrainRun(q: Queue): seq<Step>
    requires Inv(q) && q.stage == Open && !q.interrupt
    decreases Remaining(q)
  {
    if Live(q) == [] then []
    else
      NextStepKeepsGoing(q);
      [NextStep(q)] + DrainRun(Apply(q, NextStep(q)))
  }

  lemma {:induction false} DrainRunEmpties(q: Queue)
    requires Inv(q) && q.stage == Open && !q.interrupt
    ensures Legal(q, DrainRun(q)) && Inv(After(q, DrainRun(q)))
    ensures Live(After(q, DrainRun(q))) == [] && After(q, DrainRun(q)).projected == q.projected
    ensures forall s :: s in DrainRun(q) ==> IsWorker(s) && !s.DoInterrupt? && !s.DoFail?
    decreases Remaining(q)
  {
    if Live(q) != [] {
      NextStepKeepsGoing(q);
      var run := DrainRun(q);
      assert run[0] == NextStep(q) && run[1..] == DrainRun(Apply(q, NextStep(q)));
      DrainRunEmpties(Apply(q, NextStep(q)));
    }
  }

  /** The state when everything that is live has been executed. */
  ghost function Drained(q: Queue): Queue
    requires Inv(q) && q.stage == Open && !q.interrupt
  {
    DrainRunEmpties(q);
    After(q, DrainRun(q))
  }

  lemma DrainedStep(q: Queue)
    requires Inv(q) && q.stage == Open && !q.interrupt
    ensures Live(q) == [] ==> Drained(q) == q
    ensures Live(q) != [] ==> Enabled(q, NextStep(q))
    ensures Live(q) != [] ==>
      var r := Apply(q, NextStep(q));
      Inv(r) && r.stage == Open && !r.interrupt && 0 <= Remaining(r) < Remaining(q) && Drained(r) == Drained(q)
  {
    DrainRunEmpties(q);
    if Live(q) != [] {
      NextStepKeepsGoing(q);
      var run := DrainRun(q);
      assert run[0] == NextStep(q) && run[1..] == DrainRun(Apply(q, NextStep(q)));
    }
  }

  /** One round of the worker's loop when nothing disturbs it. */
  method WorkOn(queue: MotionQueue)
    requires queue.Valid() && Enabled(queue.View(), NextStep(queue.View()))
    modifies queue, queue.state, queue.log
    ensures queue.Valid() && queue.View() == Apply(old(queue.View()), NextStep(old(queue.View())))
  {
    if queue.current.None? {
      queue.StartJob();
    } else if queue.chosen {
      queue.TickJob();
    } else {
      queue.ChooseSleep();
    }
  }

  /** The worker's loop when nothing disturbs it. */
  method RunToIdle(queue: MotionQueue)
    requires queue.Valid() && !queue.closed && !queue.interrupt
    modifies queue, queue.state, queue.log
    ensures queue.Valid() && queue.waiting == [] && queue.current.None?
    ensures queue.View() == Drained(old(queue.View()))
  {
    ghost var start := queue.View();
    while queue.current.Some? || queue.waiting != []
      invariant queue.Valid() && queue.View().stage == Open && !queue.interrupt
      invariant Drained(queue.View()) == Drained(start)
      decreases Remaining(queue.View())
    {
      assert Live(queue.View()) != [];
      DrainedStep(queue.View());
      WorkOn(queue);
    }
    assert Live(queue.View()) == [];
    DrainedStep(queue.View());
  }
}
