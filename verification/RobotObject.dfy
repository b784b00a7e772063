/** The robot service as an object. */
module RobotObject {
  import opened Common
  import opened Protocol
  import opened RobotPolicy

  class RobotCommandService {
    const deviceId: string
    var state: Option<Snapshot>
    var lastRevision: Option<int>
    var restTransitionPending: bool
    var stateReady: bool
    // the holder of the lock, and the rest calls waiting for it
    var lock: Option<Holder>
    var asked: nat
    // what an observer of the service has seen
    var log: seq<Entry>

    ghost function View(): Service
      reads this
    {
      Service(state, lastRevision, restTransitionPending, stateReady, lock, asked, log)
    }

    constructor (deviceId: string)
      ensures View() == INITIAL && this.deviceId == deviceId
    {
      this.deviceId := deviceId;
      state, lastRevision, restTransitionPending, stateReady := None, None, false, false;
      lock, asked, log := None, 0, [];
    }

    method InvalidateState()
      modifies this
      ensures View() == Invalidate(old(View()))
    {
      state := None;
      lastRevision := None;
      restTransitionPending := false;
      stateReady := false;
      log := log + [Invalidated];
    }

    method Drop()
      modifies this`state, this`stateReady
      ensures state == None && !stateReady
    {
      state := None;
      stateReady := false;
    }

    method OnStateEvent(payload: Snapshot)
      modifies this
      ensures View() == OnState(old(View()), if ValidState(payload, Some(deviceId)) then Some(payload) else None)
    {
      var ok := ValidateState(payload, Some(deviceId));
      if !ok {
        Drop();
        return;
      }
      if lastRevision.Some? && payload.revision != lastRevision.value + 1 {
        lastRevision := Some(payload.revision);
        Drop();
        log := log + [Rejected(payload)];
        return;
      }
      lastRevision := Some(payload.revision);
      if payload.connection != Ready && payload.connection != Degraded {
        Drop();
        log := log + [Rejected(payload)];
        return;
      }
      state := Some(payload);
      stateReady := true;
      if payload.status == Resting {
        restTransitionPending := false;
      }
      log := log + [Accepted(payload)];
    }

    method RequireState(connected: bool) returns (current: Option<Snapshot>)
      modifies this`state
      ensures current == state == if connected then old(state) else None
    {
      if !connected {
        state := None;
        return None;
      }
      current := state;
    }

    /** The call is sent to the device; the lock stays held until it returns. */
    method Send(c: Call)
      modifies this`lock, this`log
      ensures lock == Some(Calling(c, |old(log)|)) && log == old(log) + [Began(c, |old(log)|)]
    {
      lock := Some(Calling(c, |log|));
      log := log + [Began(c, |log|)];
    }

    /** play_motion once it has the lock. */
    method PlayMotion(name: PresetName, connected: bool) returns (began: bool)
      requires lock.None?
      modifies this
      ensures View() == GetLock(old(View()), PlayMovement(name), connected)
      ensures began == Permitted(old(View()), PlayMovement(name), connected)
    {
      var current := RequireState(connected);
      if current.None? || restTransitionPending {
        return false;
      }
      if current.value.status == Resting && name != WakeUp {
        return false;
      }
      if !Advertised(current.value, MotionPlay) || !HasPreset(current.value, name) {
        return false;
      }
      Send(PlayMovement(name));
      began := true;
    }

    method SetHeadLight(brightness: bool, connected: bool) returns (began: bool)
      requires lock.None?
      modifies this
      ensures var c := if brightness then SetLightBrightness else SetLightColor;
        View() == GetLock(old(View()), c, connected) && began == Permitted(old(View()), c, connected)
    {
      var current := RequireState(connected);
      var tool := if brightness then LightBrightness else LightSolid;
      if current.None? || !Advertised(current.value, tool) || !HasHeadLight(current.value) {
        return false;
      }
      Send(if brightness then SetLightBrightness else SetLightColor);
      began := true;
    }

    /** enter_rest_state up to the point where it waits for the lock. */
    method AskForRest()
      modifies this`asked
      ensures View() == AskRest(old(View()))
    {
      if !restTransitionPending {
        asked := asked + 1;
      }
    }

    /** The flag is raised before the call is sent. */
    method EnterRest(connected: bool) returns (began: bool)
      requires lock.None? && asked > 0
      modifies this
      ensures View() == GetLock(old(View()), EnterRestState, connected)
      ensures began == Permitted(old(View()), EnterRestState, connected)
    {
      asked := asked - 1;
      var current := RequireState(connected);
      if current.None? || !Advertised(current.value, DeviceRest) || current.value.status == Resting {
        return false;
      }
      restTransitionPending := true;
      Send(EnterRestState);
      began := true;
    }

    /** The call returns, or raises; a rest that raises lowers the flag. */
    method Return(ok: bool)
      requires lock.Some? && lock.value.Calling?
      modifies this
      ensures View() == End(old(View()), ok)
    {
      var held := lock.value;
      if held.call.EnterRestState? && !ok {
        restTransitionPending := false;
      }
      lock := None;
      log := log + [Ended(held.call, held.id, ok)];
    }

    method BeginSynchronize(connected: bool)
      requires lock.None?
      modifies this
      ensures View() == BeginSync(old(View()), connected)
    {
      InvalidateState();
      if connected {
        lock := Some(Synchronizing);
      }
    }

    method EndSynchronize(outcome: SyncOutcome)
      requires Enabled(View(), DoEndSync(outcome))
      modifies this
      ensures View() == EndSync(old(View()), outcome)
    {
      if outcome.TimedOut? {
        InvalidateState();
      }
      lock := None;
    }
  }
}
