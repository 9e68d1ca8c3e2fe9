# RoboVac device-state cache, modelled in Dafny

This project models the core of a Homebridge plugin for Eufy RoboVac vacuum
cleaners. That core is the `RoboVac` class of `src/robovac-api.ts`. It owns the
session with the device through the TuyAPI transport, caches the device's full
status with a timestamp and a validity flag, and coalesces concurrent status
fetches into one pending promise. It also merges pushed `data` events into the
cache and disconnects when a fetch or write fails. The project also models the
file's key table (`StatusDps`, `statusDpsFriendlyNames`), its serialiser
`formatStatusResponse`, and the small `ConsoleLogger` of `src/consoleLogger.ts`.

Files:

- `wrappers.dfy`: `Option`, which stands for TypeScript's `null`/`undefined`.
- `console_logger.dfy` (module `ConsoleLog`): the logger as an immutable value.
  Its `readonly` fields cannot change. Each severity method returns the
  message it would print, or `None`.
- `schema.dfy` (module `Schema`): the data-point keys and their wire values
  and friendly names. It also holds the cached status record, the default
  status, and `formatStatusResponse`. That function has two forms: a
  specification function `FormatStatus`, and the source's loop as the method
  `FormatStatusResponse`, proved equal to it.
- `robovac_api.dfy` (module `RoboVacApi`): the cache and connection manager.
  Connecting, disconnecting, settling a fetch, pushes and writes are first
  functions on a `CacheState` value: `ConnectSpec`, `DisconnectSpec`,
  `SettleSpec`, `PushSpec` and `SetSpec`. Lemmas state what each of them
  promises. The class `RoboVac` keeps the source's fields and
  updates them in place. The contract of each method that changes state
  gives the object's new state. For connecting, disconnecting, settling a
  fetch, pushes and writes, that state is the matching function applied to
  `old(State())`. `GetStatus`, `Get` and `GetStatusFromDeviceSynchronized`
  state their new fields directly. `GetStatusFromDevice` changes no field.
  A pending promise is a `StatusRequest` object, so two callers hold "the
  same promise" exactly when they hold the same object. `ClientRun` is a small client that
  walks through the coalescing and failure behaviour.

How the model represents the environment:

- Time is an integer parameter `now`, in epoch milliseconds. `new Date(0)`
  is 0.
- Every TuyAPI call is an outcome the caller supplies: `ConnectOutcome` for
  `find()`/`connect()`, `GetOutcome` for `get({schema: true})`, a boolean for
  the write. `isConnected()` is the field `connected`.
- A ghost log `calls` records every transport call. A call is logged when the
  model applies its outcome.
- An asynchronous fetch is two events. `GetStatus` starts the fetch or joins
  the pending one. `SettleStatusRequest` is the transport's answer. Whether the
  fetch must connect first is fixed when it starts, as in the source, where
  `isConnected()` is checked before the first `await`.

Behaviour of the code as written that the model keeps:

- `lastStatusValid` is set to `false` in the constructor and never assigned
  again. So every `getStatus` goes to the device, and every `*Cached` getter
  returns `null`. `Inv` states this and every event preserves it
  (`EventsKeepInvalid`, `RoboVac.CacheNeverServes`).
- A `data` event does a top-level `Object.assign`. Its `dps` object replaces
  the cached one whole, and keys it does not mention are gone
  (`PushDropsUnmentionedKeys`). The merge does not touch validity or the
  pending request.
- A failed `connect()` inside `getStatusFromDevice` or `set` rejects before
  the `try` block. It neither disconnects nor clears `ongoingStatusUpdate`.
  After such a failure in `getStatusFromDevice`, every later `getStatus`
  returns the same rejected request. That lasts until an `error` event or a failed fetch or write runs
  `disconnect()`, or until an earlier, dropped request's fetch succeeds and
  clears `ongoingStatusUpdate` (`ConnectFailureKeepsRequest`, `FetchSuccess`,
  `ClientRun`).
- `disconnect()` resets the timestamp to the epoch. It does not touch
  `lastStatusValid`, and it keeps the cached status.
- A stale fetch that was dropped by `disconnect()` can still settle later. It
  then overwrites the cache and clears whatever request is pending at that
  time, as the source's `try` block does.

Things the code does not do, so neither does the model:

- A push does not merge `dps` key by key.
- Nothing ever sets `lastStatusValid` to `true`.
- Failures are not told apart: there is one kind of error.
- No call has a timeout.

The write at `src/robovac-api.ts:284` is spelled `this.api.this.api.set(...)`.
As written, `this.api.this` is `undefined`, so reading `.api` from it throws a
TypeError inside the `try`, before any transport call. Every `set` whose
connection step succeeds therefore runs `disconnect()` and rejects, and no
write reaches the transport. `SetAsWritten` models that code, and
`SetAsWrittenNeverWrites` states its behaviour. `SetSpec`, used by the class
and the rest of the model, is the evidently intended `this.api.set(...)`: one
abstract transport write that may succeed or fail. Of its outcomes, only the
failing write matches what the code as written does (see "## Findings").

## Model

| member | source | states |
|---|---|---|
| `ConsoleLog.NewConsoleLogger` | src/consoleLogger.ts:13-16 | construction fixes `logLevel` and `prefix`, defaulting to level 0 and no prefix; being fields of an immutable value, nothing later changes them |
| `ConsoleLog.ConsoleLogger.FullMessage` | src/consoleLogger.ts:18-21 | the printed text always ends in the message; it is the bare message exactly when the prefix is truthy (the inverted conditional), and otherwise `prefix + " " + message`, with `undefined` spelled out |
| `ConsoleLog.ConsoleLogger.Emit` | src/consoleLogger.ts:23-37 | a severity prints iff `logLevel` is at most its threshold (1, 2, 3, 4), and what it prints is the composed message |
| `ConsoleLog.ConsoleLogger.DebugMessage` | src/consoleLogger.ts:23-25 | `debug` prints iff `logLevel <= 1` |
| `ConsoleLog.ConsoleLogger.InfoMessage` | src/consoleLogger.ts:27-29 | `info` prints iff `logLevel <= 2` |
| `ConsoleLog.ConsoleLogger.WarnMessage` | src/consoleLogger.ts:31-33 | `warn` prints iff `logLevel <= 3` |
| `ConsoleLog.ConsoleLogger.ErrorMessage` | src/consoleLogger.ts:35-37 | `error` prints iff `logLevel <= 4` |
| `ConsoleLog.EmitMonotone` | src/consoleLogger.ts:23-37 | if a severity prints at some level, every more severe one prints too |
| `ConsoleLog.SilentAboveFour` | src/consoleLogger.ts:35-37 | above level 4 nothing prints |
| `ConsoleLog.DefaultLoggerPrintsAll` | src/consoleLogger.ts:13-24 | the default logger prints every severity, each message prefixed by `"undefined "` |
| `ConsoleLog.TruthyPrefixDropped` | src/consoleLogger.ts:19 | with a non-empty prefix, a printed message is the message alone |
| `Schema.ParseDps` | src/robovac-api.ts:5-16 | decoding a wire value gives the key with that value, or nothing when no key has it |
| `Schema.CodeRoundTrip` | src/robovac-api.ts:5-16 | every key's wire value decodes back to that key, so the ten wire values are distinct |
| `Schema.FriendlyName` | src/robovac-api.ts:18-30 | a key's friendly name is the entry `statusDpsFriendlyNames` holds for its wire value, and that entry exists |
| `Schema.FriendlyNamesTable` | src/robovac-api.ts:18-30 | the map has entries for exactly the ten wire values, and no two keys share a friendly name |
| `Schema.NatText` | src/robovac-api.ts:68 | a natural number renders as a non-empty run of decimal digits with no leading zero, which reads back as the number |
| `Schema.IntText` | src/robovac-api.ts:68 | an integer renders with a leading `-` exactly when negative, followed by the decimal digits of its magnitude with no leading zero |
| `Schema.ValueTextRendering` | src/robovac-api.ts:68 | `${value}` renders booleans as `true`/`false`, `null` as `null`, strings unchanged, and integers in signed decimal with no leading zero |
| `Schema.Project` | src/robovac-api.ts:298 | reading `status.dps[K]` is defined exactly when the key's wire value is present, and then yields its value |
| `Schema.DefaultStatusComplete` | src/robovac-api.ts:190-205 | the default status has every key with its declared type, battery level -1, work status `Charging`, and `devId` `"default - invalid"` |
| `Schema.FormatStatusResponse` | src/robovac-api.ts:64-73 | the loop over `Object.values(StatusDps)` returns `FormatStatus(dps)` |
| `Schema.PresentDps` | src/robovac-api.ts:66-67 | the keys the loop prints are exactly the `StatusDps` keys present in `dps`, each once, in declaration order |
| `Schema.FormatStatusShape` | src/robovac-api.ts:64-73 | the output is the header, one `- <friendly name>: <value>` line per present key in declaration order, then the footer |
| `Schema.FormatStatusFrame` | src/robovac-api.ts:65-71 | the output starts with `"-- Status Start --\n"` and ends with `"-- Status End --"` |
| `Schema.FormatIgnoresForeignKey` | src/robovac-api.ts:66-69 | a key outside the `StatusDps` table never changes the output |
| `Schema.FormatStatusNoKnownKeys` | src/robovac-api.ts:64-73 | a `dps` with no `StatusDps` key, the empty one included, gives header and footer only |
| `RoboVacApi.ConnectSteps` | src/robovac-api.ts:213-221 | `connect()` calls `find()` iff there is no fixed address, calls the transport's `connect()` unless `find()` failed, and succeeds iff both steps it makes succeed |
| `RoboVacApi.ConnectFindsOnlyWithoutAddress` | src/robovac-api.ts:144 | with `directConnect` computed from `deviceIp`, `find()` is called iff `deviceIp` is null or empty; a success leaves the transport connected and nothing but the session and the log changes |
| `RoboVacApi.DisconnectResets` | src/robovac-api.ts:223-229 | `disconnect()` clears the pending request, resets the timestamp to the epoch, closes the session once if it was open and keeps the cached status and validity |
| `RoboVacApi.DisconnectIdempotent` | src/robovac-api.ts:223-229 | disconnecting twice is the same as disconnecting once |
| `RoboVacApi.StalenessGate` | src/robovac-api.ts:236 | an invalid cache is always stale; a valid one is stale iff it is more than `cachingDuration` away from `now` in either direction (strict) |
| `RoboVacApi.FetchSuccess` | src/robovac-api.ts:260-266 | a successful fetch replaces the status wholesale, stamps `now`, clears the pending request, resolves every waiter with the fetched status and leaves validity as it was |
| `RoboVacApi.FetchFailure` | src/robovac-api.ts:267-274 | a failed transport `get` keeps the cached status, runs `disconnect()` (closing an open session) and rejects every waiter |
| `RoboVacApi.ConnectFailureKeepsRequest` | src/robovac-api.ts:254-258 | a failed `connect()` rejects without fetching or disconnecting and changes nothing but the connect calls in the log, so the rejected request stays pending |
| `RoboVacApi.PushMerge` | src/robovac-api.ts:183-187 | an event with `dps` makes that object the cached `dps`, overwrites `devId` when given, stamps `now` and leaves validity, pending request and session alone; an event without `dps` changes nothing |
| `RoboVacApi.PushDropsUnmentionedKeys` | src/robovac-api.ts:184 | after a push, a key the event's `dps` omits reads as `undefined` |
| `RoboVacApi.SetLeavesCache` | src/robovac-api.ts:277-294 | a write never changes the cached status or validity; it succeeds iff the connection step and the write succeed; the transport receives the write of `(dps, newValue)` exactly when the connection step succeeds; a failed write disconnects; a failed connect rejects with no write and no disconnect. This is the intended `this.api.set`; as written, the write never happens |
| `RoboVacApi.SetAsWrittenNeverWrites` | src/robovac-api.ts:283-292 | as written, `set` never resolves and never writes; once the connection step succeeds it disconnects, and apart from the log it equals the intended `set` with a failing write. With the session open, the intended `set` with a successful write resolves |
| `RoboVacApi.EventsKeepInvalid` | src/robovac-api.ts:207 | no event sets `lastStatusValid`, so an invalid cache stays invalid and is stale for every `now` and every `cachingDuration` |
| `RoboVacApi.GetterFor` | src/robovac-api.ts:296-339 | every key but `DEFAULT` has exactly one typed getter, and that getter reads it |
| `RoboVacApi.GetterKeyRoundTrip` | src/robovac-api.ts:296-339 | distinct getters read distinct keys |
| `RoboVacApi.SetterFor` | src/robovac-api.ts:377-399 | exactly the keys `RUNNING`, `DIRECTION`, `WORK_MODE`, `GO_HOME`, `CLEAN_SPEED`, `FIND_ROBOT` have a setter, and that setter writes it |
| `RoboVacApi.SetterKeyRoundTrip` | src/robovac-api.ts:377-399 | distinct setters write distinct keys (`setPlayPause` writes `RUNNING`, `setGoHome` writes `GO_HOME`, ...) |
| `RoboVacApi.AwaitedValue` | src/robovac-api.ts:296-299 | a typed getter's caller receives the key's value from the status the request resolves with, and nothing when it rejects |
| `RoboVacApi.RoboVac.constructor` | src/robovac-api.ts:135-211 | the cache starts with the default status, timestamp 0, `lastStatusValid` false and no pending request; `directConnect` holds iff an address is configured; a first `connect()` follows |
| `RoboVacApi.RoboVac.Connect` | src/robovac-api.ts:213-221 | performs `ConnectSpec`: `find()` only without an address, then the transport's `connect()` |
| `RoboVacApi.RoboVac.Disconnect` | src/robovac-api.ts:223-229 | performs `DisconnectSpec` on the object's fields |
| `RoboVacApi.RoboVac.OnError` | src/robovac-api.ts:163-166 | an `error` event disconnects |
| `RoboVacApi.RoboVac.OnDisconnected` | src/robovac-api.ts:159-161 | the transport dropping the session clears only the connected flag; the handler changes no cache state |
| `RoboVacApi.RoboVac.OnData` | src/robovac-api.ts:172-188 | performs `PushSpec`; the callback receives the event iff it has `dps` |
| `RoboVacApi.RoboVac.GetStatusCached` | src/robovac-api.ts:231-233 | answers `null` when the cache is invalid and the cached status otherwise |
| `RoboVacApi.RoboVac.GetCached` | src/robovac-api.ts:341-375 | each `*Cached` getter answers `null` when the cache is invalid and its own key's cached value otherwise |
| `RoboVacApi.RoboVac.CacheNeverServes` | src/robovac-api.ts:207 | on a valid object every cached accessor answers `null` and every read is stale |
| `RoboVacApi.RoboVac.GetStatusFromDevice` | src/robovac-api.ts:254-258 | starts a new pending request, which connects first iff the transport is disconnected |
| `RoboVacApi.RoboVac.GetStatusFromDeviceSynchronized` | src/robovac-api.ts:244-252 | with a pending request, returns that same request and changes nothing; otherwise starts a fresh one and records it as pending |
| `RoboVacApi.RoboVac.GetStatus` | src/robovac-api.ts:235-242 | for any cache state, valid or not: a fresh cache is returned as is with no state change; a stale one leads to the coalesced fetch; validity never changes |
| `RoboVacApi.RoboVac.Get` | src/robovac-api.ts:296-339 | for any cache state, valid or not, a typed getter is `getStatus` projected on its own key: the cached value when fresh, otherwise the coalesced request and the key |
| `RoboVacApi.RoboVac.SettleStatusRequest` | src/robovac-api.ts:254-275 | performs `SettleSpec` and settles the request once with the result every waiter sees |
| `RoboVacApi.RoboVac.Set` | src/robovac-api.ts:277-294 | performs `SetSpec`, the intended `set`: connect if disconnected, then write; a failed write disconnects |
| `RoboVacApi.RoboVac.Apply` | src/robovac-api.ts:377-399 | each typed setter is `set` with its fixed key |

## Left out

- The TuyAPI transport: discovery, the wire protocol and its event emitter. It is a foreign library doing network I/O. Its calls are abstract outcomes, and `isConnected()` is a flag.
- The transport's `set` at `src/robovac-api.ts:284`, spelled `this.api.this.api.set`: as written it throws before reaching the transport (`SetAsWritten`). The class models the intended write as one abstract call that may succeed or fail, so `RoboVac.Set` and `RoboVac.Apply` can resolve where the code as written always rejects once connected.
- Asynchrony: a `connect()` or a write runs to completion as one event, and so does the constructor's first `connect()`. Only a status fetch has a pending phase between start and settlement. Interleavings inside `connect()`, or between the steps of `set`, are not modelled. A fetch's connect step and its `get` are folded into the one `SettleStatusRequest` event, so an event that arrives after that `connect()` resolves and before `get` answers cannot be placed between them (an `error` event, or a `set` that finds the session open).
- `RoboVac.OnData`: `Object.assign` changes the status object in place, so a caller still holding an earlier `lastStatus` would see the change. The model replaces the cached value and does not capture that aliasing. It also tracks only `devId` and `dps`, not other top-level properties of the event.
- Real clocks (`new Date()`): time is the `now` parameter.
- Logging output: `console.log`'s extra parameters, the `connected`, `disconnected` and `dp-refresh` log lines, `consoleDebugLog` and the `formatStatusResponse` call inside the `data` handler's `try/catch` are all diagnostics with no effect on state.
- JavaScript numbers: data-point numbers are integers and `logLevel` is a real; `NaN` and fractional battery levels are not modelled. TypeScript casts (`<boolean>`, `<Direction>`, ...) check nothing at run time and are not modelled.
- `Schema.IntText`: `${n}` on a JavaScript number of magnitude 10^21 or more prints in exponent form (`1e+21`), and integers beyond 2^53 have no exact JavaScript value. The model prints every `int` in plain decimal, so `IntText` and `ValueTextRendering` match the source only below those bounds.
- `Schema.ValueTextRendering`: its integer case is `IntText`, so it shares that gap: in the source, numbers of magnitude 10^21 or more print in exponent form, and integers beyond 2^53 are not exact, while the model prints plain decimal.
- Values the model's records cannot hold. A `data` event whose `devId` is present but `null` or `undefined`: `Object.assign` copies it, while `DataEvent.devId` is a string when present. A `dps` value that is `undefined` or an object: `hasOwnProperty` accepts it, and `formatStatusResponse` prints it as `undefined` or `[object Object]`. `DpsValue` holds only booleans, strings, integers and `null`, so only those are rendered.
- The value enums `Direction`, `WorkMode`, `WorkStatus`, `CleanSpeed` and `ErrorCode` appear only as the string defaults they contribute.
- `src/index.ts`, `src/index-old.ts` and `src/robovacAccessory.ts` are Homebridge wiring, timers and a different device package, and are not part of this model.

## Findings

| source | as written | input that shows it | evidently intended | confidence | as-written member | corrected member |
|---|---|---|---|---|---|---|
| src/robovac-api.ts:284 | `await this.api.this.api.set({ dps: dps, set: newValue })` reads `.api` from `undefined` and throws a TypeError inside the `try` | `set(StatusDps.RUNNING, true)` on a connected device: the promise rejects and the session is closed, with no transport write | `await this.api.set({ dps: dps, set: newValue })`, which writes and resolves when the transport accepts the write | high, by reading; not executed | `RoboVacApi.SetAsWrittenNeverWrites` | `RoboVacApi.SetLeavesCache` |
