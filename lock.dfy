/** `HomeKitLockService`: the door-lock state read from the vehicle status,
    and the lock/unlock command followed by the current-state update. */
module Lock {
  import opened Js
  import opened Remote

  const DoorsLockedKey := "DOOR_IS_ALL_DOORS_LOCKED"

  /** The HAP lock states the service uses, current and target alike. */
  datatype LockState = Unsecured | Secured

  /** `getLockCurrentState`/`getLockTargetState`: secured exactly when the
      vehicle reports the string `"TRUE"`; any other value, or none, is
      unsecured. */
  function LockStateOf(status: map<string, string>): (r: LockState)
    ensures r == Secured <==> StatusValue(status, DoorsLockedKey) == Some("TRUE")
    ensures r == Unsecured <==> StatusValue(status, DoorsLockedKey) != Some("TRUE")
  {
    if StatusValue(status, DoorsLockedKey) == Some("TRUE") then Secured else Unsecured
  }

  /** The operation `setLockTargetState` calls for a target. */
  function OperationFor(target: LockState): (op: LockOperation)
    ensures op == LockVehicleOperation <==> target == Secured
    ensures op == UnlockVehicleOperation <==> target == Unsecured
  {
    assert LockVehicleOperation.name[0] != UnlockVehicleOperation.name[0];
    match target
    case Secured => LockVehicleOperation
    case Unsecured => UnlockVehicleOperation
  }

  /** The lock state an operation brings the doors to. */
  function Establishes(op: LockOperation): LockState
  {
    if op == LockVehicleOperation then Secured else Unsecured
  }

  /** The state written after the command is the state that command brings
      the doors to. */
  lemma OperationRoundTrip(target: LockState)
    ensures Establishes(OperationFor(target)) == target
  {
  }

  datatype LockEffect = Invoked(operation: LockOperation) | CurrentStateSet(state: LockState)

  /** `setLockTargetState`'s effects: exactly one command, and then, only if
      the command resolved, the current state set to the target. */
  function SetTargetEffects(target: LockState, completed: bool): (e: seq<LockEffect>)
    ensures completed <==> |e| == 2
    ensures !completed <==> |e| == 1
    ensures e[0] == Invoked(OperationFor(target))
    ensures forall i :: 1 <= i < |e| ==> !e[i].Invoked?
    ensures completed ==> e[1] == CurrentStateSet(Establishes(OperationFor(target)))
  {
    [Invoked(OperationFor(target))] + if completed then [CurrentStateSet(target)] else []
  }

  class LockService {
    const api: RemoteApi
    var effects: seq<LockEffect>

    constructor(api: RemoteApi)
      ensures this.api == api && effects == []
    {
      this.api := api;
      effects := [];
    }

    method GetLockCurrentState(now: int) returns (r: Result<LockState>)
      modifies api, api.emptyStatus
      ensures var f := InformationSpec(old(api.auth), api.credentials, api.server, now,
                                       |old(api.requests)|, "status", api.server.status);
        api.requests == old(api.requests) + f.sent && api.auth == f.auth &&
        (f.result.Failed? ==>
           r == Failed(f.result.error) && api.emptyStatus.entries == old(api.emptyStatus.entries)) &&
        (f.result.Ok? ==>
           api.emptyStatus.entries == Overlay(old(api.emptyStatus.entries), f.result.value) &&
           r == Ok(LockStateOf(Overlay(old(api.emptyStatus.entries), f.result.value))))
    {
      var status := api.GetVehicleStatus(now);
      if status.Failed? {
        return Failed(status.error);
      }
      r := Ok(LockStateOf(status.value.entries));
    }

    method GetLockTargetState(now: int) returns (r: Result<LockState>)
      modifies api, api.emptyStatus
      ensures var f := InformationSpec(old(api.auth), api.credentials, api.server, now,
                                       |old(api.requests)|, "status", api.server.status);
        api.requests == old(api.requests) + f.sent && api.auth == f.auth &&
        (f.result.Failed? ==>
           r == Failed(f.result.error) && api.emptyStatus.entries == old(api.emptyStatus.entries)) &&
        (f.result.Ok? ==>
           api.emptyStatus.entries == Overlay(old(api.emptyStatus.entries), f.result.value) &&
           r == Ok(LockStateOf(Overlay(old(api.emptyStatus.entries), f.result.value))))
    {
      var status := api.GetVehicleStatus(now);
      if status.Failed? {
        return Failed(status.error);
      }
      r := Ok(LockStateOf(status.value.entries));
    }

    /** `Secured` locks, anything else unlocks; the current state is written
        only after the command resolved, and a failed command leaves it
        unwritten. */
    method SetLockTargetState(target: LockState, now: int) returns (r: Result<()>)
      modifies this`effects, api
      ensures var op := OperationFor(target);
        var st := DispatchSpec(old(api.auth), api.credentials, api.server, now, |old(api.requests)|,
                               op.tokenType, api.credentials.pin, op.name, None);
        api.requests == old(api.requests) + st.sent && api.auth == st.auth &&
        (r.Ok? <==> st.result.Ok?) &&
        (st.result.Failed? ==> r == Failed(st.result.error))
      ensures effects == old(effects) + SetTargetEffects(target, r.Ok?)
    {
      effects := effects + [Invoked(OperationFor(target))];
      var done;
      if target == Secured {
        done := api.LockVehicle(now);
      } else {
        done := api.UnlockVehicle(now);
      }
      if done.Failed? {
        return Failed(done.error);
      }
      if target == Secured {
        effects := effects + [CurrentStateSet(Secured)];
      } else {
        effects := effects + [CurrentStateSet(Unsecured)];
      }
      r := Ok(());
    }
  }
}
