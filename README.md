# Air-conditioner controller: a Dafny model

This project models the logic around a ducted air-conditioner controller:

- **The control panel** (`UI/src/components/AcControl.tsx`). The panel owns one
  `AcState` record: power, mode, fan speed, an optional measured temperature,
  the set temperature and six zone flags. Push messages and the initial fetch
  replace the record wholesale. Each user intent copies the record with one
  field changed. `sendPost` makes the new record the local state at once (an
  optimistic update) and then POSTs it with `currentTemp` removed. A failed
  POST is only logged and nothing is rolled back. The push channel's address
  comes from the base address by string substitution.
  In the model, the pure builders and a reducer `Handle` over events state the
  behaviour. The class `AcControl.Component` holds the mutable record and an
  outbox of payloads sent. Each of its handler methods is proved equal to
  `Handle` on its event.
- **The enum helpers** (`UI/src/helperFunctions.ts`). `getEnumKeys` and
  `getEnumValues` split the keys of a TypeScript enum object by whether
  `Number.parseInt` gives NaN. `Number.parseInt` (no radix) is modelled
  concretely in `JsNumbers`.
- **The ESP32 firmware** (`ESP32-Control/src/main.cpp`). Four builders fill an
  8-byte CAN frame in place and send it. `loop` walks a fixed 31-step test
  sequence and sends at most one frame per 30-second period. In the model,
  `CanFrame` is a class over an 8-byte array, and `Controller` holds the static
  globals `sendStep` and `lastSent` plus a ghost log of the frames handed to
  the CAN driver. The millisecond clock is a parameter `now`. Each imperative
  method is proved against a frame-building function (`ZoneFrame`,
  `TemperatureFrame`, ...) or against the one-call function `Tick`. The
  functions are then tied to an independent decoder `Decode` and to the
  sequence's successor function `Next`.

Files: `wrappers.dfy` (Option), `js_numbers.dfy` (`Number.parseInt`),
`enum_helpers.dfy`, `ac_control.dfy`, `esp32_control.dfy`.

### Behaviour worth knowing

- Incoming payloads are not validated. A push message or fetch result that
  parses as JSON is cast to `AcState` and replaces the state wholesale. A push
  message that is not JSON text makes `JSON.parse` throw before `setAcState`,
  and the previous state stays (`UnparsablePushKeepsState`).
- Mode and fan speed go through `parseInt` unchecked, so a non-numeric select
  value stores NaN (`ModeChanged`, `FanSpeedChanged`).
- Zones are six named boolean fields switched by string id. An unknown id is
  logged; nothing changes and nothing is sent.
- The push address replaces only the first `"http://"` with `"ws://"`, so an
  `https://` base keeps its scheme (`HttpsBaseKeepsScheme`).
- The temperature buttons clamp only on their own side. Down from 35 gives 34
  (`SetTempClampsOneSide`).
- The fan-speed select pairs the i-th enum name with the i-th enum value. That
  is right for an enum whose values increase in declaration order, which
  `FanSpeedEnum` is (`ReverseMappedEnumSplit`, `FanSpeedEnumSplit`). It is not
  right for an enum declared out of order (`DescendingEnumMispairs`).

## Model

| member | source | states |
|---|---|---|
| `AcControl.ToSend` | UI/src/components/AcControl.tsx:150 | the POSTed payload has no `currentTemp` and agrees with the state on every other field |
| `AcControl.PowerToggled` | UI/src/components/AcControl.tsx:155-157 | power is negated and every other field is unchanged |
| `AcControl.PowerToggledTwice` | UI/src/components/AcControl.tsx:155-157 | toggling power twice gives back the original record |
| `AcControl.NextSetTemp` | UI/src/components/AcControl.tsx:159-172 | "tempDown" gives max(t-1, 15); any other button id gives min(t+1, 30) |
| `AcControl.SetTempStaysInRange` | UI/src/components/AcControl.tsx:161-172 | a set temperature in [15, 30] stays in [15, 30] after either button |
| `AcControl.SetTempSaturates` | UI/src/components/AcControl.tsx:161-172 | up from 30 gives 30 and down from 15 gives 15 |
| `AcControl.SetTempClampsOneSide` | UI/src/components/AcControl.tsx:161-172 | each button clamps only its own bound: down from 35 is 34, up from 10 is 11 |
| `AcControl.TemperatureStepped` | UI/src/components/AcControl.tsx:159-175 | only `setTemp` changes, and it becomes the stepped value |
| `AcControl.ModeChanged` | UI/src/components/AcControl.tsx:177-179 | only `mode` changes, to parseInt of the selected value, NaN included |
| `AcControl.FanSpeedChanged` | UI/src/components/AcControl.tsx:181-184 | only `fanSpeed` changes, to parseInt of the selected value, NaN included |
| `AcControl.ZoneToggled` | UI/src/components/AcControl.tsx:186-218 | a zone switch changes no field outside the six zones |
| `AcControl.WithZone` | UI/src/components/AcControl.tsx:190-213 | setting zone k changes zone k to the new value and no other zone or field |
| `AcControl.ZoneToggledChangesOnlyThatZone` | UI/src/components/AcControl.tsx:190-213 | switch id "zoneK" (K in 0..5) yields exactly the record with zone K set to the switch state |
| `AcControl.UnknownZoneIdPostsNothing` | UI/src/components/AcControl.tsx:215-216 | any other switch id yields nothing to post |
| `AcControl.WebSocketAddress` | UI/src/components/AcControl.tsx:95 | an "http://" base gets "ws://" in place of "http://"; a base with no "http://" is kept as is; "/ws" is appended either way |
| `AcControl.Component.WsAddress` | UI/src/components/AcControl.tsx:95 | the panel's push address is `WebSocketAddress(baseApiUrl)`: an "http://" base becomes "ws://" and the address always ends in "/ws" |
| `AcControl.ReplaceFirst` | UI/src/components/AcControl.tsx:95 | string `replace` changes only the first occurrence of the pattern, and returns the input when the pattern does not occur |
| `AcControl.HttpBaseGivesWs` | UI/src/components/AcControl.tsx:95 | base "http://" + rest gives push address "ws://" + rest + "/ws" |
| `AcControl.HttpsBaseKeepsScheme` | UI/src/components/AcControl.tsx:95 | base "https://" + rest (no "http://" in rest) gives "https://" + rest + "/ws" |
| `AcControl.AfterSendPost` | UI/src/components/AcControl.tsx:147-153 | the new record becomes the state and exactly one payload, that record without `currentTemp`, is appended to the outbox |
| `AcControl.Handle` | UI/src/components/AcControl.tsx:98-218 | only the user's intents send anything, and then exactly one payload, the new state without `currentTemp`; an arrival replaces the state; an unparsable push, a rejected fetch, a failed POST and an unknown zone id change nothing |
| `AcControl.UnparsablePushKeepsState` | UI/src/components/AcControl.tsx:98-101 | a push message that `JSON.parse` rejects leaves the view as it was |
| `AcControl.LastArrivalWins` | UI/src/components/AcControl.tsx:98-108 | after any history, a push message or fetch result becomes the whole state and sends nothing |
| `AcControl.StaleFetchOverwritesPush` | UI/src/components/AcControl.tsx:98-108 | arrivals are not ordered: a fetch result arriving after a push overwrites it |
| `AcControl.FailedPostKeepsOptimisticState` | UI/src/components/AcControl.tsx:139-144 | a failed POST changes neither the state nor the outbox, so there is no rollback |
| `AcControl.OutboxNeverCarriesCurrentTemp` | UI/src/components/AcControl.tsx:150-152 | over any run of events, no payload in the outbox carries `currentTemp` |
| `AcControl.OutboxMirrorsIntent` | UI/src/components/AcControl.tsx:147-153 | every intent that posts appends exactly one payload, the new state without `currentTemp` |
| `AcControl.SetTempInvariant` | UI/src/components/AcControl.tsx:159-175 | without arrivals, a set temperature in [15, 30] stays in range through any run of intents and failures |
| `AcControl.Component.constructor` | UI/src/components/AcControl.tsx:92 | the panel starts with the initial record and an empty outbox |
| `AcControl.Component.OnMessage` | UI/src/components/AcControl.tsx:98-101 | a push message replaces the state wholesale and sends nothing |
| `AcControl.Component.OnFetched` | UI/src/components/AcControl.tsx:106-108 | the fetch result replaces the state wholesale and sends nothing |
| `AcControl.Component.SendPost` | UI/src/components/AcControl.tsx:147-153 | the state is set to the new record, then its payload is appended to the outbox |
| `AcControl.Component.TogglePower` | UI/src/components/AcControl.tsx:155-157 | the state and outbox become those of `Handle` on a power click |
| `AcControl.Component.TemperatureUpDown` | UI/src/components/AcControl.tsx:159-175 | the state and outbox become those of `Handle` on a temperature click |
| `AcControl.Component.HandleChangeMode` | UI/src/components/AcControl.tsx:177-179 | the state and outbox become those of `Handle` on a mode selection |
| `AcControl.Component.HandleChangeFanSpeed` | UI/src/components/AcControl.tsx:181-184 | the state and outbox become those of `Handle` on a fan-speed selection |
| `AcControl.Component.HandleZoneChanged` | UI/src/components/AcControl.tsx:186-218 | the state and outbox become those of `Handle` on a zone switch; an unknown id changes nothing |
| `JsNumbers.ParseInt` | UI/src/helperFunctions.ts:3 | an integer result needs a decimal digit in the input; a string starting with 1-9 always gives a non-negative integer |
| `JsNumbers.DigitPrefix` | UI/src/helperFunctions.ts:3 | parseInt reads the longest prefix of digits valid in the radix and stops at the first other character |
| `JsNumbers.DecimalRoundTrip` | UI/src/helperFunctions.ts:3 | parseInt of the decimal spelling of n is n, so numeric enum keys parse to their values |
| `JsNumbers.NonNumericIsNaN` | UI/src/helperFunctions.ts:3-4 | a key that starts with neither white space, a sign nor a digit parses to NaN |
| `EnumHelpers.GetEnumKeys` | UI/src/helperFunctions.ts:1-9 | a key is in the result iff it is an input key on which parseInt gives NaN |
| `EnumHelpers.GetEnumValues` | UI/src/helperFunctions.ts:11-19 | v is in the result iff some input key parses to v |
| `EnumHelpers.KeysDistribute` | UI/src/helperFunctions.ts:2-6 | getEnumKeys of a concatenation is the concatenation of the results, so the original order is kept |
| `EnumHelpers.ValuesDistribute` | UI/src/helperFunctions.ts:12-16 | getEnumValues of a concatenation is the concatenation of the results, so the original order is kept |
| `EnumHelpers.SplitIsPartition` | UI/src/helperFunctions.ts:1-19 | the two output lengths sum to the number of keys |
| `EnumHelpers.SplitKeys` | UI/src/helperFunctions.ts:1-19 | numeric keys followed by member names split back into exactly those values and exactly those names |
| `EnumHelpers.ReverseMappedEnumSplit` | UI/src/helperFunctions.ts:1-19 | for a numeric enum whose values increase in declaration order, both helpers return one entry per declaration, and the i-th name and the i-th value come from the same declaration |
| `EnumHelpers.DescendingEnumMispairs` | UI/src/components/AcControl.tsx:284-285 | for `enum { B = 2, A = 1 }` the names come out as B, A and the values as 1, 2, so pairing by position puts B with 1 |
| `EnumHelpers.FanSpeedEnumSplit` | UI/src/components/AcControl.tsx:284-285 | for `FanSpeedEnum` the fan-speed select pairs Low/Medium/High with 1/2/3 |
| `Esp32Control.IdentifiersDistinct` | ESP32-Control/src/main.cpp:11-20 | the six zone identifiers and the three command identifiers are pairwise distinct and non-zero |
| `Esp32Control.Clamp` | ESP32-Control/src/main.cpp:209-217 | the result is in [lo, hi], equals the argument inside the range, and saturates at each end |
| `Esp32Control.TemperatureFrame` | ESP32-Control/src/main.cpp:219-232 | identifier FRAME_SET_TEMP; data[0] + 256*data[1] = clamp(t)*100 <= 3000 < 2^16; bytes 2..7 are 0 |
| `Esp32Control.ZoneFrame` | ESP32-Control/src/main.cpp:144-191 | zones 0..5 get their own identifier and any other zone gets 0; byte 0 is 1 to open and 2 to close, byte 1 is 9, the rest are 0 |
| `Esp32Control.FanSpeedFrame` | ESP32-Control/src/main.cpp:240-261 | identifier FRAME_FAN_SPEED; byte 0 is the speed clamped to [1, 3], byte 1 is 9, the rest are 0 |
| `Esp32Control.ModeFrame` | ESP32-Control/src/main.cpp:285-306 | identifier FRAME_MODE; byte 0 is the mode clamped to [1, 5], byte 1 is 9, the rest are 0 |
| `Esp32Control.ZoneOf` | ESP32-Control/src/main.cpp:11-16 | reading back an identifier finds the zone whose identifier it is |
| `Esp32Control.ZoneFrameDecodes` | ESP32-Control/src/main.cpp:144-191 | a zone frame for zone 0..5 tells that zone to open (1) or close (2); for another zone it carries identifier 0 and means nothing |
| `Esp32Control.TemperatureFrameDecodes` | ESP32-Control/src/main.cpp:207-232 | a set-temperature frame carries the clamped temperature in hundredths of a degree |
| `Esp32Control.FanSpeedFrameDecodes` | ESP32-Control/src/main.cpp:240-261 | a fan-speed frame carries the speed clamped to [1, 3] |
| `Esp32Control.ModeFrameDecodes` | ESP32-Control/src/main.cpp:285-306 | a mode frame carries the mode clamped to [1, 5] |
| `Esp32Control.IndexListsStep` | ESP32-Control/src/main.cpp:22-55 | each step sits at its own position, below 31, in the declaration-order list of steps |
| `Esp32Control.NextFollowsDeclarationOrder` | ESP32-Control/src/main.cpp:371-526 | `Next`, the assignments to `sendStep` in the switch, moves each step to the next in declaration order, and `ModeCool` wraps to `Zone0Closed` |
| `Esp32Control.IterateIndex` | ESP32-Control/src/main.cpp:371-526 | n sends move the position forward by n modulo 31 |
| `Esp32Control.CycleReturns` | ESP32-Control/src/main.cpp:371-526 | any whole number of rounds of 31 sends returns to the starting step |
| `Esp32Control.CycleHasNoShorterPeriod` | ESP32-Control/src/main.cpp:371-526 | fewer than 31 sends never return to the starting step |
| `Esp32Control.StepCommand` | ESP32-Control/src/main.cpp:373-526 | `StepFrame`, the frame each case of the switch sends, decodes to a command at every step: the sequence closes then opens each zone, sets 20..29 and then 24 degrees, fan 3, 2, 1, then modes 2, 3, 4, 5, 1 |
| `Esp32Control.Elapsed` | ESP32-Control/src/main.cpp:362 | the elapsed time is computed in 32-bit unsigned arithmetic and stays correct across a wrap of the millisecond counter |
| `Esp32Control.Tick` | ESP32-Control/src/main.cpp:362-366 | one call sends exactly when more than `delayTime` ms have truly passed, counting across a counter wrap; a send gives the current step's frame, the next step and `lastSent = now`; otherwise nothing changes |
| `Esp32Control.RunLoopFollowsSequence` | ESP32-Control/src/main.cpp:359-531 | for any call times, the frames sent are the frames of successive steps, one per send, and the step advances once per send |
| `Esp32Control.WholeRoundsReturnToStart` | ESP32-Control/src/main.cpp:359-531 | after 31 sends (or a multiple), however timed, `sendStep` is back at its start |
| `Esp32Control.AtMostOneFramePerPeriod` | ESP32-Control/src/main.cpp:362-364 | after a send, the next call sends only if more than `delayTime` ms have passed; otherwise the step stays |
| `Esp32Control.CanFrame.constructor` | ESP32-Control/src/main.cpp:366 | a fresh frame has an 8-byte data array |
| `Esp32Control.Controller.Setup` | ESP32-Control/src/main.cpp:356 | the sequence starts at `Zone0Closed` timed from `now`, and nothing has been sent |
| `Esp32Control.Controller.SendFrame` | ESP32-Control/src/main.cpp:131-142 | the frame as it stands is appended to the log of frames sent |
| `Esp32Control.Controller.SetZone` | ESP32-Control/src/main.cpp:144-205 | the frame is filled in place as `ZoneFrame(zone, open)` and that frame is sent |
| `Esp32Control.Controller.SetTemperature` | ESP32-Control/src/main.cpp:207-238 | the frame is filled in place as `TemperatureFrame(t)` and that frame is sent |
| `Esp32Control.Controller.SetFanSpeed` | ESP32-Control/src/main.cpp:240-283 | the frame is filled in place as `FanSpeedFrame(speed)` and that frame is sent |
| `Esp32Control.Controller.SetMode` | ESP32-Control/src/main.cpp:285-336 | the frame is filled in place as `ModeFrame(mode)` and that frame is sent |
| `Esp32Control.Controller.Loop` | ESP32-Control/src/main.cpp:359-531 | when more than `delayTime` ms have passed, the current step's frame is sent, `sendStep` advances and `lastSent` becomes `now`; otherwise nothing changes |

## Left out

- `baseApiUrl` is taken to be an absolute URL. For any other value `new URL("/api", base)` throws after the optimistic `setAcState` (UI/src/components/AcControl.tsx:148-151). The state would change and nothing would be POSTed, and `OutboxMirrorsIntent` does not cover that case.
- `Object.keys` in general: for an enum whose values do not increase in declaration order, or that has two names for one value, the integer keys come out sorted and deduplicated. `EnumObjectKeys` models only enums with strictly increasing values (`IsAscendingEnum`).
- Rendering: the JSX of the panel (UI/src/components/AcControl.tsx:222-356), `ApiUrlPrompt` and both `App.tsx` files are presentation and local-storage glue. Both `App.tsx` files render the panel without a `baseApiUrl`; that wiring is not modelled.
- Transport: the WebSocket object, `fetch`, the `/api` URL built with `new URL`, and JSON serialisation are abstract. Arrivals are events. POSTs are entries in the outbox, in the order issued; when they reach the device is not modelled.
- The WebSocket's open and close handlers only log, so no connectivity state is modelled.
- Incoming payloads are taken to have the shape of `AcState`. JSON of another shape (missing fields, strings where numbers belong) is cast unchecked by the source and is not modelled.
- JavaScript numbers: `setTemp` and `currentTemp` are exact reals (no floating-point rounding). `mode` and `fanSpeed` are integers or NaN. parseInt results beyond 2^53 and the sign of -0 are not modelled. The white space parseInt skips covers the ASCII characters plus no-break space, byte-order mark and the two Unicode line terminators, not every Unicode space separator.
- `GetEnumKeys` and `GetEnumValues` take the key sequence `Object.keys` returns. `EnumObjectKeys` gives that sequence only for enums whose values increase in declaration order.
- React scheduling: handlers read the state as last rendered, and the model reads the current state. Batching of `setAcState` and unmounting are not modelled.
- A rejected initial fetch is rethrown and never handled by the source. It is the event `FetchFailed`, which changes nothing.
- Firmware I/O: `Serial` output, `displayFrame`, the CAN driver's initialisation and its success or failure report, `delay`, and the receive path at the end of `loop` only print. `sendFrame` logs every frame handed to the driver.
- Esp32Control.Controller.Loop: `millis()` is read twice in the source (guard, then assignment). The model uses one `now` for both, so a millisecond passing between the two reads is not captured.
- The frame header fields `extd`, `flags` and `data_length_code`, which `loop` sets to 1, 1 and 8, are not part of `Frame` or `CanFrame`. Only the identifier and the data bytes are modelled.
- The `default` branch of `loop`'s switch ("SendStep invalid") cannot be reached with a `SendStep` datatype value and is not modelled.
- The `uint8_t` parameters of the frame builders are `uint8` in the model. Every call site passes a constant in range, so no conversion at the call is modelled.
- The CAN sniffer program and the build-time `postbuild.js` rewrite are outside the modelled core.
