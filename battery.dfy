/** `HomeKitBatteryService`: battery level, charging state and the low-battery
    flag, all read from the vehicle status. */
module Battery {
  import opened Js
  import opened Remote

  const DefaultLowBatteryThreshold: real := 25.0
  const StateOfChargeKey := "EV_STATE_OF_CHARGE"
  const ChargingStatusKey := "EV_CHARGING_STATUS"

  datatype ChargingState = NotCharging | Charging

  /** `getChargingState`: charging exactly when the status is `"CHARGING"`. */
  function ChargingStateOf(status: map<string, string>): (s: ChargingState)
    ensures s == Charging <==> StatusValue(status, ChargingStatusKey) == Some("CHARGING")
    ensures s == NotCharging <==> StatusValue(status, ChargingStatusKey) != Some("CHARGING")
  {
    if StatusValue(status, ChargingStatusKey) == Some("CHARGING") then Charging else NotCharging
  }

  /** `batteryLevel < lowBatteryThreshold`, with the level coerced to a
      number first; a level that is NaN is never low. */
  function IsLowBattery(level: Option<string>, threshold: real): (low: bool)
    ensures low ==> ToNumber(level).Some? && (ToNumber(level).value as real) < threshold
    ensures ToNumber(level).Some? && (ToNumber(level).value as real) < threshold ==> low
  {
    var n := ToNumber(level);
    n.Some? && (n.value as real) < threshold
  }

  /** For a level the vehicle reports as a decimal percentage `k`: low exactly
      when `k` is strictly below the threshold; a level equal to the threshold
      is not low. */
  lemma LowBatteryDecimal(k: nat, threshold: real)
    ensures IsLowBattery(Some(DecimalString(k)), threshold) <==> (k as real) < threshold
    ensures !IsLowBattery(Some(DecimalString(k)), k as real)
  {
    ToNumberDecimal(k);
  }

  /** Lowering the level never clears the low-battery flag. */
  lemma LowBatteryMonotonic(k: nat, j: nat, threshold: real)
    requires j <= k
    requires IsLowBattery(Some(DecimalString(k)), threshold)
    ensures IsLowBattery(Some(DecimalString(j)), threshold)
  {
    ToNumberDecimal(k);
    ToNumberDecimal(j);
  }

  class BatteryService {
    const api: RemoteApi
    const lowBatteryThreshold: real

    /** The threshold falls back to 25 when `undefined` or 0. */
    constructor(lowBatteryThreshold: Option<real>, api: RemoteApi)
      ensures this.lowBatteryThreshold == OrDefault(lowBatteryThreshold, DefaultLowBatteryThreshold)
      ensures this.api == api
    {
      this.lowBatteryThreshold := OrDefault(lowBatteryThreshold, DefaultLowBatteryThreshold);
      this.api := api;
    }

    /** `getBatteryLevel`: the status value, unchanged (`undefined` if absent). */
    method GetBatteryLevel(now: int) returns (r: Result<Option<string>>)
      modifies api, api.emptyStatus
      ensures var f := InformationSpec(old(api.auth), api.credentials, api.server, now,
                                       |old(api.requests)|, "status", api.server.status);
        api.requests == old(api.requests) + f.sent && api.auth == f.auth &&
        (f.result.Failed? ==>
           r == Failed(f.result.error) && api.emptyStatus.entries == old(api.emptyStatus.entries)) &&
        (f.result.Ok? ==>
           api.emptyStatus.entries == Overlay(old(api.emptyStatus.entries), f.result.value) &&
           r == Ok(StatusValue(Overlay(old(api.emptyStatus.entries), f.result.value), StateOfChargeKey)))
    {
      var status := api.GetVehicleStatus(now);
      if status.Failed? {
        return Failed(status.error);
      }
      r := Ok(StatusValue(status.value.entries, StateOfChargeKey));
    }

    method GetChargingState(now: int) returns (r: Result<ChargingState>)
      modifies api, api.emptyStatus
      ensures var f := InformationSpec(old(api.auth), api.credentials, api.server, now,
                                       |old(api.requests)|, "status", api.server.status);
        api.requests == old(api.requests) + f.sent && api.auth == f.auth &&
        (f.result.Failed? ==>
           r == Failed(f.result.error) && api.emptyStatus.entries == old(api.emptyStatus.entries)) &&
        (f.result.Ok? ==>
           api.emptyStatus.entries == Overlay(old(api.emptyStatus.entries), f.result.value) &&
           r == Ok(ChargingStateOf(Overlay(old(api.emptyStatus.entries), f.result.value))))
    {
      var status := api.GetVehicleStatus(now);
      if status.Failed? {
        return Failed(status.error);
      }
      r := Ok(ChargingStateOf(status.value.entries));
    }

    method GetStatusLowBattery(now: int) returns (r: Result<bool>)
      modifies api, api.emptyStatus
      ensures var f := InformationSpec(old(api.auth), api.credentials, api.server, now,
                                       |old(api.requests)|, "status", api.server.status);
        api.requests == old(api.requests) + f.sent && api.auth == f.auth &&
        (f.result.Failed? ==>
           r == Failed(f.result.error) && api.emptyStatus.entries == old(api.emptyStatus.entries)) &&
        (f.result.Ok? ==>
           api.emptyStatus.entries == Overlay(old(api.emptyStatus.entries), f.result.value) &&
           r == Ok(IsLowBattery(StatusValue(Overlay(old(api.emptyStatus.entries), f.result.value),
                                            StateOfChargeKey), lowBatteryThreshold)))
    {
      var level := GetBatteryLevel(now);
      if level.Failed? {
        return Failed(level.error);
      }
      r := Ok(IsLowBattery(level.value, lowBatteryThreshold));
    }
  }
}
