/** `HomeKitChargerService`: an outlet that is on while the vehicle charges,
    in use while a charging cable is wired, and that refuses to switch on
    without a cable. */
module Charger {
  import opened Js
  import opened Remote

  const ChargingStatusKey := "EV_CHARGING_STATUS"
  const ChargingMethodKey := "EV_CHARGING_METHOD"

  /** `getChargerOutletOnOff`: on exactly when the status is `"CHARGING"`. */
  function OutletOn(status: map<string, string>): (on: bool)
    ensures on <==> StatusValue(status, ChargingStatusKey) == Some("CHARGING")
  {
    StatusValue(status, ChargingStatusKey) == Some("CHARGING")
  }

  /** `getChargerOutletInUse`: in use exactly when the cable is `"WIRED"`. */
  function OutletInUse(status: map<string, string>): (inUse: bool)
    ensures inUse <==> StatusValue(status, ChargingMethodKey) == Some("WIRED")
  {
    StatusValue(status, ChargingMethodKey) == Some("WIRED")
  }

  /** What `setChargerOutletOnOff` does. */
  datatype ChargerAction = TurnBackOff | Start | Stop

  /** The decision table: a request for on without a cable is turned back off,
      a request for on with a cable starts charging, and a request for off
      stops charging whatever the cable. */
  function ActionFor(requestedOn: bool, cableConnected: bool): (a: ChargerAction)
    ensures a == Start <==> requestedOn && cableConnected
    ensures a == TurnBackOff <==> requestedOn && !cableConnected
    ensures a == Stop <==> !requestedOn
  {
    if requestedOn && !cableConnected then TurnBackOff
    else if requestedOn then Start
    else Stop
  }

  datatype ChargerEffect = OnSet(on: bool) | Invoked(command: VehicleCommand)

  /** The effect of each action: the `On` characteristic forced back to
      `false`, or exactly one charging command. */
  function EffectsOf(a: ChargerAction): (e: seq<ChargerEffect>)
    ensures |e| == 1
    ensures a == TurnBackOff <==> e == [OnSet(false)]
    ensures a == Start <==> e == [Invoked(StartCharging)]
    ensures a == Stop <==> e == [Invoked(StopCharging)]
  {
    match a
    case TurnBackOff => [OnSet(false)]
    case Start => [Invoked(StartCharging)]
    case Stop => [Invoked(StopCharging)]
  }

  /** The command an action sends, if any. */
  function CommandOf(a: ChargerAction): Option<VehicleCommand>
  {
    match a
    case TurnBackOff => None
    case Start => Some(StartCharging)
    case Stop => Some(StopCharging)
  }

  /** No charging command is ever sent for a request to switch on while the
      cable is not wired, and starting is only ever sent for a request to
      switch on. */
  lemma NoStartWithoutCable(requestedOn: bool, cableConnected: bool)
    ensures CommandOf(ActionFor(requestedOn, cableConnected)) == Some(StartCharging)
            <==> requestedOn && cableConnected
    ensures requestedOn && !cableConnected ==> CommandOf(ActionFor(requestedOn, cableConnected)).None?
  {
  }

  class ChargerService {
    const api: RemoteApi
    var effects: seq<ChargerEffect>

    constructor(api: RemoteApi)
      ensures this.api == api && effects == []
    {
      this.api := api;
      effects := [];
    }

    method GetChargerOutletOnOff(now: int) returns (r: Result<bool>)
      modifies api, api.emptyStatus
      ensures var f := InformationSpec(old(api.auth), api.credentials, api.server, now,
                                       |old(api.requests)|, "status", api.server.status);
        api.requests == old(api.requests) + f.sent && api.auth == f.auth &&
        (f.result.Failed? ==>
           r == Failed(f.result.error) && api.emptyStatus.entries == old(api.emptyStatus.entries)) &&
        (f.result.Ok? ==>
           api.emptyStatus.entries == Overlay(old(api.emptyStatus.entries), f.result.value) &&
           r == Ok(OutletOn(Overlay(old(api.emptyStatus.entries), f.result.value))))
    {
      var status := api.GetVehicleStatus(now);
      if status.Failed? {
        return Failed(status.error);
      }
      r := Ok(OutletOn(status.value.entries));
    }

    method GetChargerOutletInUse(now: int) returns (r: Result<bool>)
      modifies api, api.emptyStatus
      ensures var f := InformationSpec(old(api.auth), api.credentials, api.server, now,
                                       |old(api.requests)|, "status", api.server.status);
        api.requests == old(api.requests) + f.sent && api.auth == f.auth &&
        (f.result.Failed? ==>
           r == Failed(f.result.error) && api.emptyStatus.entries == old(api.emptyStatus.entries)) &&
        (f.result.Ok? ==>
           api.emptyStatus.entries == Overlay(old(api.emptyStatus.entries), f.result.value) &&
           r == Ok(OutletInUse(Overlay(old(api.emptyStatus.entries), f.result.value))))
    {
      var status := api.GetVehicleStatus(now);
      if status.Failed? {
        return Failed(status.error);
      }
      r := Ok(OutletInUse(status.value.entries));
    }

    /** Takes the action the decision table gives for the request and the
        cable. A charging command is started and not awaited: its outcome does
        not reach the caller. */
    method Act(requestedOn: bool, cableConnected: bool, now: int)
      modifies this`effects, api
      ensures var a := ActionFor(requestedOn, cableConnected);
        effects == old(effects) + EffectsOf(a) &&
        (CommandOf(a).None? ==> api.requests == old(api.requests) && api.auth == old(api.auth)) &&
        (CommandOf(a).Some? ==>
           var st := CommandSpec(old(api.auth), api.credentials, api.server, now, |old(api.requests)|,
                                 CommandOf(a).value);
           api.requests == old(api.requests) + st.sent && api.auth == st.auth)
    {
      if requestedOn && !cableConnected {
        effects := effects + [OnSet(false)];
      } else if requestedOn {
        effects := effects + [Invoked(StartCharging)];
        var _ := api.StartCharging(now);
      } else {
        effects := effects + [Invoked(StopCharging)];
        var _ := api.StopCharging(now);
      }
    }

    /** The cable is queried first, whatever was requested; then the action
        the decision table gives is taken. */
    method SetChargerOutletOnOff(requestedOn: bool, now: int) returns (r: Result<()>)
      modifies this`effects, api, api.emptyStatus
      ensures var f := InformationSpec(old(api.auth), api.credentials, api.server, now,
                                       |old(api.requests)|, "status", api.server.status);
        && (f.result.Failed? ==>
              r == Failed(f.result.error) && effects == old(effects) &&
              api.requests == old(api.requests) + f.sent && api.auth == f.auth &&
              api.emptyStatus.entries == old(api.emptyStatus.entries))
        && (f.result.Ok? ==>
              var read := Overlay(old(api.emptyStatus.entries), f.result.value);
              var a := ActionFor(requestedOn, OutletInUse(read));
              r == Ok(()) && effects == old(effects) + EffectsOf(a) && api.emptyStatus.entries == read &&
              (CommandOf(a).None? ==> api.requests == old(api.requests) + f.sent && api.auth == f.auth) &&
              (CommandOf(a).Some? ==>
                 var st := CommandSpec(f.auth, api.credentials, api.server, now,
                                       |old(api.requests)| + |f.sent|, CommandOf(a).value);
                 api.requests == old(api.requests) + f.sent + st.sent && api.auth == st.auth))
    {
      ghost var f := InformationSpec(api.auth, api.credentials, api.server, now,
                                     |api.requests|, "status", api.server.status);
      ghost var sent := api.requests;
      var connected := GetChargerOutletInUse(now);
      if connected.Failed? {
        return Failed(connected.error);
      }
      assert api.auth == f.auth && api.requests == sent + f.sent;
      assert |api.requests| == |sent| + |f.sent|;
      assert connected.value == OutletInUse(Overlay(old(api.emptyStatus.entries), f.result.value));
      ghost var mid := api.requests;
      ghost var read := api.emptyStatus.entries;
      Act(requestedOn, connected.value, now);
      assert mid == sent + f.sent && api.emptyStatus.entries == read;
      r := Ok(());
    }
  }
}
