/** The endpoint: motion commands go to the queue, all others act at once. */
module Engine {
  import opened Common
  import opened Protocol
  import opened DeviceModel
  import opened Motion
  import opened MotionInvariant
  import opened MotionQueueObject

  lemma AgreeAfterQuiet(q: Queue, p: Private, dev: Device, events: seq<Event>)
    requires Agree(q, p)
    ensures Agree(Emit(q.(dev := dev), events), p)
  {
    assert Live(Emit(q.(dev := dev), events)) == Live(q);
  }

  class SimulatorEngine {
    const state: SimulatorState
    const log: EventLog
    const queue: MotionQueue

    ghost predicate Valid()
      reads this, state, log, queue, queue.state, queue.log
    {
      queue.state == state && queue.log == log && queue.Valid()
    }

    constructor (state: SimulatorState, log: EventLog, capacity: nat, steps: nat)
      requires state.Valid() && capacity > 0 && steps > 0 && log.events == []
      modifies state
      ensures Valid() && fresh(queue) && Initial(queue.View())
      ensures this.state == state && this.log == log
    {
      this.state := state;
      this.log := log;
      queue := new MotionQueue(state, log, capacity, steps);
    }

    /** _validate_immediate and the mutation it returns: the device changes or the command is invalid. */
    method Mutate(body: Body) returns (ok: bool)
      requires state.Valid() && !body.Motion? && !body.Unsupported?
      modifies state
      ensures state.Valid()
      ensures ok <==> Mutated(old(state.View()), body).Some?
      ensures state.View() == if ok then Mutated(old(state.View()), body).value else old(state.View())
    {
      match body
      case GetState =>
        ok := true;
      case SolidLight(target, color) =>
        if target != HeadMatrix {
          return false;
        }
        ok := state.SetHeadLight(color, Number(state.brightness));
      case PaintLight(target, frame) =>
        if target != HeadMatrix {
          return false;
        }
        ok := state.SetHeadPixels(frame);
      case DimLight(target, level) =>
        if target != HeadMatrix {
          return false;
        }
        ok := state.SetHeadBrightness(level);
      case SetMode(mode) =>
        if state.statusMode == ErrorMode && mode != Some(ErrorMode) {
          ok := state.ClearErrorStatus(mode);
        } else {
          ok := state.SetStatus(mode);
        }
    }

    method Reject(id: Id, code: ErrorCode, recoverable: bool)
      requires Valid()
      modifies log
      ensures Valid() && queue.View() == Emit(old(queue.View()), [Error(id, code, recoverable)])
    {
      queue.Refuse(id, code, recoverable);
    }

    method ExecuteImmediate(c: Command)
      requires Valid() && c.deviceId == state.deviceId && !c.body.Motion? && !c.body.Unsupported?
      modifies state, log
      ensures Valid() && queue.View() == Motion.Execute(old(queue.View()), c)
    {
      ghost var before := queue.View();
      ghost var hidden := queue.Hidden();
      ExecuteKeepsInv(before, c);
      var ok := Mutate(c.body);
      if !ok {
        Reject(c.id, InvalidCommand, true);
        return;
      }
      var snapshot := state.PublishSnapshot();
      log.Publish([Accepted(c.id, TypeOf(c.body), false), StateChanged(c.id, snapshot.value)]);
      AgreeAfterQuiet(before, hidden, state.View(), log.events[|before.trace|..]);
      assert log.events[|before.trace|..] == [Accepted(c.id, TypeOf(c.body), false), StateEvent(c.id, state.View())];
    }

    method Execute(c: Command)
      requires Valid()
      modifies state, log, queue
      ensures Valid() && queue.View() == Motion.Execute(old(queue.View()), c)
    {
      if c.deviceId != state.deviceId {
        Reject(c.id, WrongDevice, false);
      } else if c.body.Motion? {
        queue.Enqueue(c.id, c.body.command);
      } else if c.body.Unsupported? {
        Reject(c.id, UnsupportedCommand, false);
      } else {
        ExecuteImmediate(c);
      }
    }

    method BeginClose()
      requires Valid()
      modifies queue
      ensures Valid() && queue.View() == Motion.BeginClose(old(queue.View()))
    {
      queue.StartClosing();
    }

    method FinishClose()
      requires Valid() && CanFinishClose(queue.View())
      modifies queue, state, log
      ensures Valid() && queue.View() == Motion.FinishClose(old(queue.View()))
    {
      queue.FinishClosing();
    }
  }
}
