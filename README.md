# InControl remote client and HomeKit services, modelled in Dafny

This project models the core of a Homebridge plugin for Jaguar Land Rover
InControl vehicles:

- the remote API client `JaguarLandRoverRemoteApi` (module `Remote`,
  `remote.dfy`). It holds one cached session and obtains it by a three-step
  login chain: authenticate, register the device, look up the user id. The
  session is dropped once `validUntil < now`. Every vehicle command first
  obtains a single-use command token. Lock and unlock use the credential PIN
  with token types `RDL`/`RDU`. Climate and charging use the last four VIN
  characters as PIN, with token types `ECC`/`CP`. The status query writes
  the server's key/value pairs into a shared status template, in place;
- the four HomeKit services built on it (modules `Preconditioning`, `Lock`,
  `Charger`, `Battery`). Each service reads a few status fields and decides
  what to report. It calls a remote command and records the HAP
  characteristic writes it makes;
- the JavaScript semantics the code depends on (module `Js`): `undefined`,
  `slice` with a negative start, the `x || default` rule for numbers, and
  `Number()` coercion of a status string.

How the model is built:

- **Transport.** HTTP is an oracle, the `Server` datatype. It gives, for each
  kind of exchange, the answer to the request at a given position of the
  client's request log. An answer is a value or a thrown string/error.
  `RemoteApi.requests` records every request sent: verb, endpoint,
  authorization, device id, body, and whether the full response was asked for.
- **Clock.** The clock is the `now` argument of each operation.
- **Specification functions.** Each `RemoteApi` method is tied to a pure
  `...Spec` function of the old state. That function returns the requests
  sent, the cached session left, and the result. The source's promises are
  proved about these functions. The properties that span several
  `getSession` calls are proved about `SessionCalls`: a single login, reuse
  of a live session, and a partial session being served.
- **Shared template.** The `EmptyVehicleStatus` template is a `StatusRecord`
  object shared by every query. `GetVehicleStatus` overwrites it in a loop
  and returns that same object.

Two behaviours of the code a reader may not expect:

- A partial session is not resumed. If registration or the user lookup fails,
  the fresh session is already cached, with `userId = ""`. The next
  `getSession` takes the fast path and returns it as it is until it expires.
  The skip checks in `registerDevice`/`getUserId` never fire from
  `getSession`. `PartialSessionServed` proves this.
- A status query does not always start from defaults. A key missing from the
  response keeps whatever the shared template holds. After the first query,
  that is the previous query's value, not the default. `StaleValueSurvives`
  proves this.

## Model

| member | source | states |
|---|---|---|
| `Js.Slice` | src/util/remote.ts:337 | `s.slice(start)` is a suffix of `s`; for an in-range start it is `s[start..]` |
| `Js.OrDefault` | src/services/preconditioning.ts:23-24 | `x \|\| d`: `undefined` and `0` give the default, any other number is kept; a non-zero default never yields 0 |
| `Js.ToNumber` | src/services/battery.ts:58 | `Number()` of a status value: `undefined` is NaN, `""` is 0, a digit string is its decimal value, nothing else is a number |
| `Js.ToNumberDecimal` | src/services/battery.ts:58 | `Number()` reads back the natural number every decimal spelling stands for (induction on the number) |
| `Remote.Normalize` | src/util/remote.ts:64-70 | a thrown string becomes an `Error` whose message is that string; an error object is rethrown unchanged |
| `Remote.NormalizeIdempotent` | src/util/remote.ts:64-70 | an error that was normalised passes a second normalisation unchanged |
| `Remote.InvalidateIfExpired` | src/util/remote.ts:73-87 | the session is discarded exactly when present and `validUntil < now` (strict); otherwise it is kept unchanged, and an absent one stays absent |
| `Remote.NewSession` | src/util/remote.ts:150-164 | a fresh session is unregistered, has user id `""` and `validUntil = now + expires_in` |
| `Remote.AuthenticateSpec` | src/util/remote.ts:113-165 | a cached session is returned with no request; otherwise exactly the password-grant request is sent and, when answered, a fresh session results |
| `Remote.RegisterSpec` | src/util/remote.ts:167-204 | skipped (true) when already registered; `false` with no request without a session; otherwise one registration request, registered iff status 204 |
| `Remote.UserIdSpec` | src/util/remote.ts:206-237 | skipped when a user id is held; `""` with no request without a session; otherwise one user lookup whose answer is the result |
| `Remote.SessionSpec` | src/util/remote.ts:89-111 | a live session is returned with no request; whatever session is returned is the one left cached |
| `Remote.SessionChain` | src/util/remote.ts:89-111 | without a live session, token, registration and user requests go out in that order; the chain completes iff all three are answered (a non-204 does not stop it), with `isDeviceRegistered = (status == 204)` and the server's `userId`; a failed token request leaves no session; a later failure leaves the fresh session cached, with user id `""` |
| `Remote.SessionCalls` | src/util/remote.ts:91 | serialised `getSession` calls give one result per call |
| `Remote.LiveSessionReused` | src/util/remote.ts:94-99 | while `now <= validUntil`, any number of calls send nothing and all return the cached session |
| `Remote.SingleLogin` | src/util/remote.ts:89-111 | starting without a session, serialised calls before the new session expires send exactly one authentication request (three requests in all) and all return the same session |
| `Remote.PartialSessionServed` | src/util/remote.ts:96-105 | after a failed registration or user lookup, a later call within validity sends nothing and returns the session with user id `""` |
| `Remote.CommandTokenSpec` | src/util/remote.ts:239-267 | a session first (logging in if needed); if that fails nothing more is sent; otherwise one token request with the token type and PIN, for the session's user, whose answer is the token |
| `Remote.PostCommandSpec` | src/util/remote.ts:277-297 | with no session held the call resolves to `false` and posts nothing; otherwise one POST with the session's bearer token |
| `Remote.DispatchSpec` | src/util/remote.ts:269-298 | a command is the session requests, the token request, then the POST carrying that token; a failed token stops it; run to completion the soft `false` never occurs |
| `Remote.DispatchFromNoSession` | src/util/remote.ts:239-298 | from no session with every exchange answered: exactly token, registration, user, command-token and POST requests in that order, the new session cached, and the command sent iff the POST is answered |
| `Remote.LastFourOfVinCases` | src/util/remote.ts:335-338 | a VIN of length ≥ 4 gives its last four characters; length 3 gives only the last character; lengths 0-2 give the whole VIN |
| `Remote.ServiceOf` | src/util/remote.ts:384-411 | service `preconditioning` iff the command starts or stops preconditioning, `chargeProfile` iff it starts or stops charging |
| `Remote.TokenTypeOf` | src/util/remote.ts:384-411 | token type `ECC` iff the service is `preconditioning`, `CP` iff it is `chargeProfile` |
| `Remote.ParametersOf` | src/util/remote.ts:384-411 | two parameters for a start of preconditioning, one otherwise; the first key is `PRECONDITIONING` or `CHARGE_NOW_SETTING` by service; a start carries `START` and the target in tenths |
| `Remote.CommandSpec` | src/util/remote.ts:300-333 | a named-service command run to completion never resolves to the soft `false` |
| `Remote.CommandWireForm` | src/util/remote.ts:300-333 | once the token is granted, the token request is followed by exactly one POST to the command's service, carrying the token and a parameter list that reads back as the command |
| `Remote.DispatchTableRoundTrip` | src/util/remote.ts:384-411 | each command's service and parameter list read back as that command: the four are distinct, and the temperature sent in tenths divides back to the target |
| `Remote.Overlay` | src/util/remote.ts:369-371 | the keys after the writes are the template's keys plus every key of the response |
| `Remote.StatusAfterOverlay` | src/util/remote.ts:369-371 | a key reads as the value of the last pair with that key (searched from the end), or as before when the response has none |
| `Remote.OverlayKeepsOthers` | src/util/remote.ts:369-371 | a key absent from the response keeps the template's value (or stays absent) |
| `Remote.OverlayLastWins` | src/util/remote.ts:371 | a key in the response holds the value of the last pair with that key |
| `Remote.StaleValueSurvives` | src/util/remote.ts:369-371 | because the template is mutated in place, a second query keeps the first query's value for every key the second response omits |
| `Remote.StatusValue` | src/services/battery.ts:37 | a status field is defined iff the record has that key, and then holds the record's value |
| `Remote.InformationSpec` | src/util/remote.ts:340-358 | a session first; if it fails nothing more is sent; otherwise one GET of the vehicle resource with the session's bearer token, whose answer is the result |
| `Remote.RemoteApi.constructor` | src/util/remote.ts:43-46 | a new client holds no session and has sent nothing |
| `Remote.RemoteApi.SendRequest` | src/util/remote.ts:48-71 | the request joins the log; the answer is delivered, a thrown string normalised |
| `Remote.RemoteApi.InvalidateSessionIfExpired` | src/util/remote.ts:73-87 | the new session is `InvalidateIfExpired` of the old one |
| `Remote.RemoteApi.Authenticate` | src/util/remote.ts:113-165 | requests and result as `AuthenticateSpec`; the cached session is not touched |
| `Remote.RemoteApi.RegisterDevice` | src/util/remote.ts:167-204 | requests and result as `RegisterSpec` |
| `Remote.RemoteApi.GetUserId` | src/util/remote.ts:206-237 | requests and result as `UserIdSpec` |
| `Remote.RemoteApi.GetSession` | src/util/remote.ts:89-111 | requests, cached session and result as `SessionSpec` |
| `Remote.RemoteApi.GetCommandToken` | src/util/remote.ts:239-267 | requests, session and result as `CommandTokenSpec` |
| `Remote.RemoteApi.PostCommand` | src/util/remote.ts:274-297 | requests and result as `PostCommandSpec` for the session held at that moment |
| `Remote.RemoteApi.LockUnlockVehicle` | src/util/remote.ts:269-298 | `DispatchSpec` with the operation's token type, the credential PIN and `{token}` posted to the operation's resource |
| `Remote.RemoteApi.SendVehicleCommand` | src/util/remote.ts:300-333 | `DispatchSpec` with the last four VIN characters as PIN and `{token, serviceParameters}` posted to the service |
| `Remote.RemoteApi.GetVehicleInformation` | src/util/remote.ts:340-358 | requests, session and result as `InformationSpec` |
| `Remote.RemoteApi.GetVehicleAttributes` | src/util/remote.ts:360-362 | the raw `attributes` answer, unflattened |
| `Remote.RemoteApi.GetVehicleStatus` | src/util/remote.ts:364-374 | on success the shared template itself is returned, its entries overwritten pair by pair (loop invariant); on failure the template is untouched |
| `Remote.RemoteApi.LockVehicle` | src/util/remote.ts:376-378 | token type `RDL`, credential PIN, `{token}` posted to `lock` |
| `Remote.RemoteApi.UnlockVehicle` | src/util/remote.ts:380-382 | token type `RDU`, credential PIN, `{token}` posted to `unlock` |
| `Remote.RemoteApi.SendCommand` | src/util/remote.ts:384-411 | a named-service command goes through the dispatch table |
| `Remote.RemoteApi.StartPreconditioning` | src/util/remote.ts:384-390 | `ECC`, VIN PIN, service `preconditioning`, parameters exactly `[PRECONDITIONING=START, TARGET_TEMPERATURE_CELSIUS=t*10]` |
| `Remote.RemoteApi.StopPreconditioning` | src/util/remote.ts:392-397 | `ECC`, VIN PIN, service `preconditioning`, parameters `[PRECONDITIONING=STOP]` |
| `Remote.RemoteApi.StartCharging` | src/util/remote.ts:399-404 | `CP`, VIN PIN, service `chargeProfile`, parameters `[CHARGE_NOW_SETTING=FORCE_ON]` |
| `Remote.RemoteApi.StopCharging` | src/util/remote.ts:406-411 | `CP`, VIN PIN, service `chargeProfile`, parameters `[CHARGE_NOW_SETTING=FORCE_OFF]` |
| `Preconditioning.Clamp` | src/services/preconditioning.ts:104-112 | the result lies in [15.5, 28.5]; values inside are unchanged; below gives 15.5, above gives 28.5 |
| `Preconditioning.ClampIdempotent` | src/services/preconditioning.ts:109-110 | clamping twice is clamping once |
| `Preconditioning.ClimateOnState` | src/services/preconditioning.ts:56-59 | cool iff target < threshold (strict), heat otherwise |
| `Preconditioning.HeatingCoolingStateOf` | src/services/preconditioning.ts:50-80 | off iff the climate status is not exactly `"HEATING"`; otherwise the climate-on state; never auto |
| `Preconditioning.SwitchEffects` | src/services/preconditioning.ts:138-177 | the current state is written before the command: cool/heat then start with the target when on, off then stop when off |
| `Preconditioning.SwitchOnAgreesWithReport` | src/services/preconditioning.ts:147-156 | the state written on switching on is the state the getters report while the vehicle is heating |
| `Preconditioning.PreconditioningService.constructor` | src/services/preconditioning.ts:23-24 | target 22 and cooling threshold 20 when the argument is `undefined` or 0 |
| `Preconditioning.PreconditioningService.GetCurrentHeatingCoolingState` | src/services/preconditioning.ts:50-64 | requests and session as `InformationSpec`; a failed read leaves the template untouched and fails; otherwise the template holds the response written over it and the result is `HeatingCoolingStateOf` of it |
| `Preconditioning.PreconditioningService.GetTargetHeatingCoolingState` | src/services/preconditioning.ts:66-80 | requests, session, template and result exactly as for the current state |
| `Preconditioning.PreconditioningService.TurnPreconditioningOn` | src/services/preconditioning.ts:138-159 | effects as `SwitchEffects(true)`; the remote start with the target temperature |
| `Preconditioning.PreconditioningService.TurnPreconditioningOff` | src/services/preconditioning.ts:161-177 | effects as `SwitchEffects(false)`; the remote stop |
| `Preconditioning.PreconditioningService.SetTargetHeatingCoolingState` | src/services/preconditioning.ts:82-90 | off stops and any other state starts with the target; exactly one of the two |
| `Preconditioning.PreconditioningService.GetCurrentTemperature` | src/services/preconditioning.ts:92-96 | the reported current temperature is the target temperature |
| `Preconditioning.PreconditioningService.GetTargetTemperature` | src/services/preconditioning.ts:98-102 | the reported target temperature is the stored target |
| `Preconditioning.PreconditioningService.ResendIfRunning` | src/services/preconditioning.ts:121-127 | off sends nothing and succeeds; any other state re-sends the start with the stored target (effects as `SwitchEffects(true)`, requests and session as `CommandSpec`), failing exactly when that command fails |
| `Preconditioning.PreconditioningService.ResendWhilePreconditioning` | src/services/preconditioning.ts:118-127 | the status read of `InformationSpec`, then the start command of `CommandSpec` exactly when the state read is not off; a failed read sends nothing more and leaves the template untouched |
| `Preconditioning.PreconditioningService.SetTargetTemperature` | src/services/preconditioning.ts:104-130 | the stored target is the clamped value and is the result on success; the status read of `InformationSpec` (a failure fails the call, sends nothing more and leaves the template untouched); then the start command with the new target, as `CommandSpec`, exactly when the state read is not off; the call fails iff the read or that command fails |
| `Lock.LockStateOf` | src/services/lock.ts:27-47 | secured iff the doors-locked value is exactly `"TRUE"`; any other value or none is unsecured |
| `Lock.OperationFor` | src/services/lock.ts:52-56 | secured calls lock, anything else calls unlock |
| `Lock.OperationRoundTrip` | src/services/lock.ts:64-74 | the state written afterwards is the state the issued operation brings the doors to |
| `Lock.SetTargetEffects` | src/services/lock.ts:49-75 | exactly one command; the current state is written after it, only if it resolved |
| `Lock.LockService.GetLockCurrentState` | src/services/lock.ts:27-36 | requests and session as `InformationSpec`; a failed read fails and leaves the template untouched; otherwise the template holds the response written over it and the result is `LockStateOf` of it |
| `Lock.LockService.GetLockTargetState` | src/services/lock.ts:38-47 | requests, session, template and result exactly as for the current state |
| `Lock.LockService.SetLockTargetState` | src/services/lock.ts:49-75 | the lock or unlock dispatch is sent; effects as `SetTargetEffects`; a failed command leaves the current state unwritten |
| `Charger.OutletOn` | src/services/charger.ts:29-36 | on iff the charging status is exactly `"CHARGING"` |
| `Charger.OutletInUse` | src/services/charger.ts:54-61 | in use iff the charging method is exactly `"WIRED"` |
| `Charger.ActionFor` | src/services/charger.ts:43-51 | on with a cable starts; on without a cable turns back off; off stops whatever the cable |
| `Charger.EffectsOf` | src/services/charger.ts:43-51 | exactly one effect: `On` forced to false, or one start or one stop command |
| `Charger.NoStartWithoutCable` | src/services/charger.ts:43-48 | a start is sent iff on is requested with a cable; on without a cable sends no command |
| `Charger.ChargerService.GetChargerOutletOnOff` | src/services/charger.ts:29-36 | requests and session as `InformationSpec`; a failed read fails and leaves the template untouched; otherwise the template holds the response written over it and the result is `OutletOn` of it |
| `Charger.ChargerService.GetChargerOutletInUse` | src/services/charger.ts:54-61 | requests and session as `InformationSpec`; a failed read fails and leaves the template untouched; otherwise the template holds the response written over it and the result is `OutletInUse` of it |
| `Charger.ChargerService.Act` | src/services/charger.ts:43-51 | the decision table's action for the request and the cable: `On` forced back off with no request and the session untouched, or exactly the start/stop command's requests and session (`CommandSpec`); its outcome is dropped |
| `Charger.ChargerService.SetChargerOutletOnOff` | src/services/charger.ts:38-52 | the cable is queried first (`InformationSpec`; a failed read fails, acts on nothing and leaves the template untouched); then the action `ActionFor` picks for the cable read: turning back off sends no further request, start or stop sends exactly that command's requests (`CommandSpec`) and leaves its session cached |
| `Battery.ChargingStateOf` | src/services/battery.ts:42-51 | charging iff the charging status is exactly `"CHARGING"` |
| `Battery.IsLowBattery` | src/services/battery.ts:53-59 | low iff the level coerces to a number strictly below the threshold |
| `Battery.LowBatteryDecimal` | src/services/battery.ts:58 | for a decimal level `k`, low iff `k < threshold`; a level equal to the threshold is not low |
| `Battery.LowBatteryMonotonic` | src/services/battery.ts:58 | a lower level is low whenever a higher one is |
| `Battery.BatteryService.constructor` | src/services/battery.ts:18 | threshold 25 when the argument is `undefined` or 0 |
| `Battery.BatteryService.GetBatteryLevel` | src/services/battery.ts:33-40 | requests and session as `InformationSpec`; a failed read fails and leaves the template untouched; otherwise the template holds the response written over it and the result is the state-of-charge value, unchanged (`undefined` if absent) |
| `Battery.BatteryService.GetChargingState` | src/services/battery.ts:42-51 | requests and session as `InformationSpec`; a failed read fails and leaves the template untouched; otherwise the template holds the response written over it and the result is `ChargingStateOf` of it |
| `Battery.BatteryService.GetStatusLowBattery` | src/services/battery.ts:53-59 | requests and session as `InformationSpec`; a failed read fails and leaves the template untouched; otherwise the template holds the response written over it and the result is `IsLowBattery` of the state-of-charge value against the threshold |

## Left out

- The session mutex (`lock("getSession", 20000)`) and its 20-second timeout. Its source is not part of this model. `getSession` runs to completion, and concurrent calls are modelled as serialised calls (`SessionCalls`). The lock-timeout error is not modelled.
- Concurrency in general. The `!auth` check after the command token can only fail when another call invalidates the session between two awaits. It is modelled in `PostCommandSpec`, but `DispatchSpec` proves it unreachable in a sequential run.
- `Charger.ChargerService.SetChargerOutletOnOff`: `startCharging`/`stopCharging` are not awaited in the source. The model runs them to completion and drops their outcome, so their interleaving with later work is not modelled.
- HTTP details: hosts, URLs beyond the endpoint shape, header and media-type strings, the fixed Basic credential, and `Connection: close` are opaque. The server's answers are oracle values, and a registration answer is just its status code.
- Dates. `validUntil` is `now + expires_in` in whole seconds, and the clock is read once per operation. The local/UTC mix in `setSeconds(getUTCSeconds() + …)` and `Number(expires_in)` coercion are not modelled.
- The session object is a value. Callers that keep a reference to the cached session object and see later field updates are not modelled.
- JavaScript dynamic typing: a server answer missing a field (an `undefined` user id or token) is not modelled. Answers have the expected shape.
- The refresh token is stored but never used, as in the source.
- Logging and the `wait(1)` delays.
- HAP plumbing: service and characteristic registration, `callbackify`, and the numeric enum values. Characteristic writes are recorded in each service's `effects`, together with the remote calls it makes, in order.
- `getTemperatureDisplayUnits`, which returns the constant `CELSIUS`.
- The contents of `EmptyVehicleStatus` and the `VehicleStatus` types. The template is an abstract map.
- `src/index.ts`, `src/services/base.ts` and `src/util/config.ts`: wiring and types only.
- `Js.OrDefault`: NaN, which is also falsy in JavaScript, is not modelled.
- `Js.ToNumber`: only decimal digit strings and the empty string are coerced. Signs, fractions, exponents, hexadecimal and surrounding whitespace read as NaN here, although JavaScript's `Number()` accepts them.
- `Charger.EffectsOf`, `Charger.NoStartWithoutCable`, `Charger.ChargerService.SetChargerOutletOnOff`: writing `On` back to `false` (src/services/charger.ts:46) re-enters the `set` handler registered at src/services/charger.ts:21, so the library then runs `setChargerOutletOnOff(false)`: a second status read and a `stopCharging` command. The model records the write as the effect `OnSet(false)` and stops there. The re-entered call is the model's `Stop` action, but it is not chained automatically. So "no command without a cable" holds for the call itself, not for the re-entered one.
- `Preconditioning.Clamp`, `Remote.ParametersOf`: JavaScript numbers are modelled as exact reals. NaN, which passes both comparisons of the clamp unchanged, is not modelled, and neither is the double rounding of `t * 10`.
- `Remote.RegisterSpec`, `Remote.SessionChain`: the HTTP library rejects non-2xx answers by default. So "a non-204 does not stop the chain" holds for the other 2xx codes only. A rejection is the oracle's thrown answer, which does stop the chain.
