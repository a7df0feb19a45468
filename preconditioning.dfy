/** `HomeKitPreconditioningService`: a thermostat whose heating/cooling state
    is read from the vehicle's climate status and whose target temperature,
    clamped into the supported range, is sent with the start command. */
module Preconditioning {
  import opened Js
  import opened Remote

  const MinimumTemperature: real := 15.5
  const MaximumTemperature: real := 28.5
  const DefaultTargetTemperature: real := 22.0
  const DefaultCoolingThreshold: real := 20.0
  const ClimateStatusKey := "CLIMATE_STATUS_OPERATING_STATUS"

  /** The HAP heating/cooling states; a current state is never `Auto`. */
  datatype HeatingCooling = Off | Heat | Cool | Auto

  /** `setTargetTemperature`'s clamp into the supported range. */
  function Clamp(t: real): (r: real)
    ensures MinimumTemperature <= r <= MaximumTemperature
    ensures MinimumTemperature <= t <= MaximumTemperature ==> r == t
    ensures t < MinimumTemperature ==> r == MinimumTemperature
    ensures t > MaximumTemperature ==> r == MaximumTemperature
  {
    if t < MinimumTemperature then MinimumTemperature
    else if t > MaximumTemperature then MaximumTemperature
    else t
  }

  /** Clamping a clamped temperature changes nothing. */
  lemma ClampIdempotent(t: real)
    ensures Clamp(Clamp(t)) == Clamp(t)
  {
  }

  /** The state shown while the climate system runs: cooling exactly when the
      target is below the cooling threshold (strictly), heating otherwise. */
  function ClimateOnState(target: real, threshold: real): (r: HeatingCooling)
    ensures r == Cool <==> target < threshold
    ensures r == Heat <==> target >= threshold
  {
    if target < threshold then Cool else Heat
  }

  /** `get{Current,Target}HeatingCoolingState`: off unless the vehicle reports
      exactly `"HEATING"`, and then the climate-on state. */
  function HeatingCoolingStateOf(status: map<string, string>, target: real, threshold: real)
    : (r: HeatingCooling)
    ensures r != Auto
    ensures r == Off <==> StatusValue(status, ClimateStatusKey) != Some("HEATING")
    ensures r != Off ==> r == ClimateOnState(target, threshold)
  {
    if StatusValue(status, ClimateStatusKey) == Some("HEATING") then ClimateOnState(target, threshold)
    else Off
  }

  /** What the service does, in order: characteristic writes and calls into
      the remote API. */
  datatype ClimateEffect = CurrentStateSet(state: HeatingCooling) | Invoked(command: VehicleCommand)

  /** `turnPreconditioningOn`/`turnPreconditioningOff`: the current state is
      written first, then the start (with the target temperature) or stop
      command is called. */
  function SwitchEffects(on: bool, target: real, threshold: real): (e: seq<ClimateEffect>)
    ensures |e| == 2 && e[0].CurrentStateSet? && e[1].Invoked?
    ensures on <==> e[1].command == StartPreconditioning(target)
    ensures !on <==> e[1].command == StopPreconditioning
    ensures e[0].state == if on then ClimateOnState(target, threshold) else Off
  {
    if on then [CurrentStateSet(ClimateOnState(target, threshold)), Invoked(StartPreconditioning(target))]
    else [CurrentStateSet(Off), Invoked(StopPreconditioning)]
  }

  /** The state written when preconditioning is switched on is the state the
      getters report once the vehicle says it is heating. */
  lemma SwitchOnAgreesWithReport(status: map<string, string>, target: real, threshold: real)
    requires StatusValue(status, ClimateStatusKey) == Some("HEATING")
    ensures SwitchEffects(true, target, threshold)[0].state == HeatingCoolingStateOf(status, target, threshold)
  {
  }

  class PreconditioningService {
    const api: RemoteApi
    const coolingThresholdTemperature: real
    var targetTemperature: real
    var effects: seq<ClimateEffect>

    /** Both settings fall back to their defaults when `undefined` or 0. */
    constructor(targetTemperature: Option<real>, coolingThresholdTemperature: Option<real>, api: RemoteApi)
      ensures this.targetTemperature == OrDefault(targetTemperature, DefaultTargetTemperature)
      ensures this.coolingThresholdTemperature == OrDefault(coolingThresholdTemperature, DefaultCoolingThreshold)
      ensures this.api == api && effects == []
    {
      this.targetTemperature := OrDefault(targetTemperature, DefaultTargetTemperature);
      this.coolingThresholdTemperature := OrDefault(coolingThresholdTemperature, DefaultCoolingThreshold);
      this.api := api;
      effects := [];
    }

    method GetCurrentHeatingCoolingState(now: int) returns (r: Result<HeatingCooling>)
      modifies api, api.emptyStatus
      ensures var f := InformationSpec(old(api.auth), api.credentials, api.server, now,
                                       |old(api.requests)|, "status", api.server.status);
        api.requests == old(api.requests) + f.sent && api.auth == f.auth &&
        (f.result.Failed? ==>
           r == Failed(f.result.error) && api.emptyStatus.entries == old(api.emptyStatus.entries)) &&
        (f.result.Ok? ==>
           api.emptyStatus.entries == Overlay(old(api.emptyStatus.entries), f.result.value) &&
           r == Ok(HeatingCoolingStateOf(Overlay(old(api.emptyStatus.entries), f.result.value),
                                                        targetTemperature, coolingThresholdTemperature)))
      ensures r.Ok? ==> r.value == HeatingCoolingStateOf(api.emptyStatus.entries, targetTemperature,
                                                          coolingThresholdTemperature)
    {
      var status := api.GetVehicleStatus(now);
      if status.Failed? {
        return Failed(status.error);
      }
      r := Ok(HeatingCoolingStateOf(status.value.entries, targetTemperature, coolingThresholdTemperature));
    }

    method GetTargetHeatingCoolingState(now: int) returns (r: Result<HeatingCooling>)
      modifies api, api.emptyStatus
      ensures var f := InformationSpec(old(api.auth), api.credentials, api.server, now,
                                       |old(api.requests)|, "status", api.server.status);
        api.requests == old(api.requests) + f.sent && api.auth == f.auth &&
        (f.result.Failed? ==>
           r == Failed(f.result.error) && api.emptyStatus.entries == old(api.emptyStatus.entries)) &&
        (f.result.Ok? ==>
           api.emptyStatus.entries == Overlay(old(api.emptyStatus.entries), f.result.value) &&
           r == Ok(HeatingCoolingStateOf(Overlay(old(api.emptyStatus.entries), f.result.value),
                                         targetTemperature, coolingThresholdTemperature)))
    {
      var status := api.GetVehicleStatus(now);
      if status.Failed? {
        return Failed(status.error);
      }
      r := Ok(HeatingCoolingStateOf(status.value.entries, targetTemperature, coolingThresholdTemperature));
    }

    method TurnPreconditioningOn(now: int) returns (r: Result<CommandOutcome>)
      modifies this`effects, api
      ensures effects == old(effects) + SwitchEffects(true, targetTemperature, coolingThresholdTemperature)
      ensures var st := CommandSpec(old(api.auth), api.credentials, api.server, now, |old(api.requests)|,
                                    StartPreconditioning(targetTemperature));
        api.requests == old(api.requests) + st.sent && api.auth == st.auth && r == st.result
    {
      effects := effects + [CurrentStateSet(ClimateOnState(targetTemperature, coolingThresholdTemperature))];
      effects := effects + [Invoked(StartPreconditioning(targetTemperature))];
      r := api.StartPreconditioning(targetTemperature, now);
    }

    method TurnPreconditioningOff(now: int) returns (r: Result<CommandOutcome>)
      modifies this`effects, api
      ensures effects == old(effects) + SwitchEffects(false, targetTemperature, coolingThresholdTemperature)
      ensures var st := CommandSpec(old(api.auth), api.credentials, api.server, now, |old(api.requests)|,
                                    StopPreconditioning);
        api.requests == old(api.requests) + st.sent && api.auth == st.auth && r == st.result
    {
      effects := effects + [CurrentStateSet(Off)];
      effects := effects + [Invoked(StopPreconditioning)];
      r := api.StopPreconditioning(now);
    }

    /** `Off` stops preconditioning; every other state starts it with the
        current target temperature. */
    method SetTargetHeatingCoolingState(state: HeatingCooling, now: int) returns (r: Result<CommandOutcome>)
      modifies this`effects, api
      ensures effects == old(effects) + SwitchEffects(state != Off, targetTemperature, coolingThresholdTemperature)
      ensures var cmd := if state == Off then StopPreconditioning else StartPreconditioning(targetTemperature);
        var st := CommandSpec(old(api.auth), api.credentials, api.server, now, |old(api.requests)|, cmd);
        api.requests == old(api.requests) + st.sent && api.auth == st.auth && r == st.result
    {
      if state == Off {
        r := TurnPreconditioningOff(now);
      } else {
        r := TurnPreconditioningOn(now);
      }
    }

    /** The current temperature reported is the target temperature. */
    method GetCurrentTemperature() returns (r: real)
      ensures r == targetTemperature
    {
      r := targetTemperature;
    }

    method GetTargetTemperature() returns (r: real)
      ensures r == targetTemperature
    {
      r := targetTemperature;
    }

    /** The second half of `setTargetTemperature`: while preconditioning
        runs, the start command is re-sent with the (new) target; otherwise
        nothing happens. */
    method ResendIfRunning(current: HeatingCooling, now: int) returns (r: Result<()>)
      modifies this`effects, api
      ensures current == Off ==>
        r == Ok(()) && effects == old(effects) &&
        api.requests == old(api.requests) && api.auth == old(api.auth)
      ensures current != Off ==>
        var cmd := CommandSpec(old(api.auth), api.credentials, api.server, now, |old(api.requests)|,
                               StartPreconditioning(targetTemperature));
        effects == old(effects) + SwitchEffects(true, targetTemperature, coolingThresholdTemperature) &&
        api.requests == old(api.requests) + cmd.sent && api.auth == cmd.auth &&
        (r.Ok? <==> cmd.result.Ok?) &&
        (cmd.result.Failed? ==> r == Failed(cmd.result.error))
    {
      if current != Off {
        var resent := SetTargetHeatingCoolingState(Auto, now);
        if resent.Failed? {
          return Failed(resent.error);
        }
      }
      r := Ok(());
    }

    /** The part of `setTargetTemperature` after the target is stored: the
        climate state is read, and while it is not `Off` the start command is
        re-sent with the stored target. */
    method ResendWhilePreconditioning(now: int) returns (r: Result<()>)
      modifies this`effects, api, api.emptyStatus
      ensures var f := InformationSpec(old(api.auth), api.credentials, api.server, now,
                                       |old(api.requests)|, "status", api.server.status);
        f.result.Failed? ==>
          r == Failed(f.result.error) && effects == old(effects) &&
          api.requests == old(api.requests) + f.sent && api.auth == f.auth &&
          api.emptyStatus.entries == old(api.emptyStatus.entries)
      ensures var f := InformationSpec(old(api.auth), api.credentials, api.server, now,
                                       |old(api.requests)|, "status", api.server.status);
        f.result.Ok? ==>
          var read := Overlay(old(api.emptyStatus.entries), f.result.value);
          var running := HeatingCoolingStateOf(read, targetTemperature, coolingThresholdTemperature) != Off;
          var cmd := CommandSpec(f.auth, api.credentials, api.server, now, |old(api.requests)| + |f.sent|,
                                 StartPreconditioning(targetTemperature));
          && api.emptyStatus.entries == read
          && (!running ==>
                r == Ok(()) && effects == old(effects) &&
                api.requests == old(api.requests) + f.sent && api.auth == f.auth)
          && (running ==>
                effects == old(effects) + SwitchEffects(true, targetTemperature, coolingThresholdTemperature) &&
                api.requests == old(api.requests) + f.sent + cmd.sent && api.auth == cmd.auth &&
                (r.Ok? <==> cmd.result.Ok?) &&
                (cmd.result.Failed? ==> r == Failed(cmd.result.error)))
    {
      ghost var f := InformationSpec(api.auth, api.credentials, api.server, now,
                                     |api.requests|, "status", api.server.status);
      ghost var sent := api.requests;
      var current := GetCurrentHeatingCoolingState(now);
      if current.Failed? {
        return Failed(current.error);
      }
      assert api.auth == f.auth && api.requests == sent + f.sent;
      assert |api.requests| == |sent| + |f.sent|;
      ghost var read := api.emptyStatus.entries;
      r := ResendIfRunning(current.value, now);
      assert api.emptyStatus.entries == read;
    }

    /** The target is clamped and stored; the start command is re-sent, with
        the new target, exactly when the climate state read afterwards is not
        `Off`, and the clamped target is what the call resolves to unless the
        status read or the re-sent command fails. */
    method SetTargetTemperature(state: real, now: int) returns (r: Result<real>)
      modifies this`targetTemperature, this`effects, api, api.emptyStatus
      ensures targetTemperature == Clamp(state)
      ensures r.Ok? ==> r.value == Clamp(state)
      ensures var f := InformationSpec(old(api.auth), api.credentials, api.server, now,
                                       |old(api.requests)|, "status", api.server.status);
        f.result.Failed? ==>
          r == Failed(f.result.error) && effects == old(effects) &&
          api.requests == old(api.requests) + f.sent && api.auth == f.auth &&
          api.emptyStatus.entries == old(api.emptyStatus.entries)
      ensures var f := InformationSpec(old(api.auth), api.credentials, api.server, now,
                                       |old(api.requests)|, "status", api.server.status);
        f.result.Ok? ==>
          var read := Overlay(old(api.emptyStatus.entries), f.result.value);
          var running := HeatingCoolingStateOf(read, targetTemperature, coolingThresholdTemperature) != Off;
          var cmd := CommandSpec(f.auth, api.credentials, api.server, now, |old(api.requests)| + |f.sent|,
                                 StartPreconditioning(targetTemperature));
          && api.emptyStatus.entries == read
          && (!running ==>
                r == Ok(targetTemperature) && effects == old(effects) &&
                api.requests == old(api.requests) + f.sent && api.auth == f.auth)
          && (running ==>
                effects == old(effects) + SwitchEffects(true, targetTemperature, coolingThresholdTemperature) &&
                api.requests == old(api.requests) + f.sent + cmd.sent && api.auth == cmd.auth &&
                (r.Ok? <==> cmd.result.Ok?) &&
                (cmd.result.Failed? ==> r == Failed(cmd.result.error)))
    {
      var clamped := Clamp(state);
      targetTemperature := clamped;
      var resent := ResendWhilePreconditioning(now);
      if resent.Failed? {
        return Failed(resent.error);
      }
      r := Ok(clamped);
    }
  }
}
