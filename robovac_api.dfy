/**
 * The device-state cache and connection manager of robovac-api.ts.
 *
 * The transport (TuyAPI) is not modelled. Each of its calls is an outcome the
 * caller supplies, and its connected flag is a field. The model records every
 * transport call it makes in a ghost log. The pending promise kept in
 * `ongoingStatusUpdate` is a `StatusRequest` object, whose identity plays the
 * part of the promise's identity. Time is a caller-supplied integer: epoch
 * milliseconds, with `new Date(0)` as 0.
 *
 * Connecting, disconnecting, settling a fetch, pushes and writes first appear
 * as functions on a `CacheState` value. The `RoboVac` class performs them by
 * updating its fields in place, and each such method's contract ties the new
 * state to that function. Requesting status and the transport dropping the
 * session have no such function: their methods state the new fields directly.
 */
module RoboVacApi {
  import opened Wrappers
  import opened Schema

  // ---------------------------------------------------------------------------
  // Transport outcomes and the cache state

  /** A call the cache makes on the transport. */
  datatype TransportCall = ApiFind | ApiConnect | ApiGet | ApiSet(dps: StatusDps, value: DpsValue) | ApiDisconnect

  /**
   * The outcome of `connect()`: whether `find()` succeeds (looked at only when
   * there is no fixed address) and whether the transport's `connect()` does.
   */
  datatype ConnectOutcome = ConnectOutcome(findOk: bool, connectOk: bool)

  /** The outcome of the transport's `get({ schema: true })`. */
  datatype GetOutcome = GetOk(schema: StatusResponse) | GetFailed

  /** How a pending status request settles, as every caller holding it sees it. */
  datatype FetchResult = Resolved(status: StatusResponse) | Rejected

  /**
   * The payload of a `data` event: the top-level properties the model tracks.
   * For `devId`, `None` means the property is absent (a present one is copied
   * whatever its value, `""` included). For `dps`, `None` means absent or falsy.
   */
  datatype DataEvent = DataEvent(devId: Option<string>, dps: Option<map<string, DpsValue>>)

  /** The pending promise of a status fetch. */
  class StatusRequest {
    /** Whether the fetch found the transport disconnected when it started, and so connects first. */
    const needsConnect: bool
    /** `None` while the promise is pending. */
    var result: Option<FetchResult>

    constructor (needsConnect: bool)
      ensures this.needsConnect == needsConnect && result == None
    {
      this.needsConnect := needsConnect;
      result := None;
    }
  }

  /** The fields of a `RoboVac` that events change, with the transport flag and the call log. */
  datatype CacheState = CacheState(
    lastStatus: StatusResponse,
    lastStatusUpdate: int,
    lastStatusValid: bool,
    ongoingStatusUpdate: StatusRequest?,
    connected: bool,
    calls: seq<TransportCall>)

  /** The state the constructor sets up before it starts connecting. */
  function InitialState(): CacheState {
    CacheState(DefaultStatus, 0, false, null, false, [])
  }

  /** The invariant of the code as written: no statement ever sets `lastStatusValid` to true. */
  predicate Inv(s: CacheState) {
    !s.lastStatusValid
  }

  // ---------------------------------------------------------------------------
  // Session control

  /** A fixed address is configured: `deviceIp` is neither null/undefined nor empty. */
  predicate DirectConnect(deviceIp: Option<string>) {
    deviceIp.Some? && deviceIp.value != ""
  }

  /** The transport calls `connect()` makes, and whether it succeeds. */
  function ConnectSteps(directConnect: bool, outcome: ConnectOutcome): (r: (seq<TransportCall>, bool))
    ensures ApiFind in r.0 <==> !directConnect
    ensures ApiConnect in r.0 <==> directConnect || outcome.findOk
    ensures r.1 <==> (directConnect || outcome.findOk) && outcome.connectOk
    ensures r.1 ==> r.0[|r.0| - 1] == ApiConnect
  {
    if directConnect then ([ApiConnect], outcome.connectOk)
    else if !outcome.findOk then ([ApiFind], false)
    else ([ApiFind, ApiConnect], outcome.connectOk)
  }

  /** `connect()`: a success leaves the transport connected, and a failure changes nothing but the log. */
  function ConnectSpec(s: CacheState, directConnect: bool, outcome: ConnectOutcome): (CacheState, bool) {
    var (steps, ok) := ConnectSteps(directConnect, outcome);
    (s.(connected := s.connected || ok, calls := s.calls + steps), ok)
  }

  /** The connection step of a fetch or a write: connect only when `needsConnect`. */
  function EnsureConnected(s: CacheState, needsConnect: bool, directConnect: bool, outcome: ConnectOutcome): (CacheState, bool) {
    if needsConnect then ConnectSpec(s, directConnect, outcome) else (s, true)
  }

  /** `disconnect()`: forget the pending request, age the cache to the epoch, close the session if it is open. */
  function DisconnectSpec(s: CacheState): CacheState {
    s.(ongoingStatusUpdate := null,
       lastStatusUpdate := 0,
       connected := false,
       calls := s.calls + if s.connected then [ApiDisconnect] else [])
  }

  /** A success connects, and `find()` is called exactly when no address is configured. */
  lemma ConnectFindsOnlyWithoutAddress(deviceIp: Option<string>, s: CacheState, outcome: ConnectOutcome)
    ensures var (t, ok) := ConnectSpec(s, DirectConnect(deviceIp), outcome);
      && (ApiFind in t.calls[|s.calls|..] <==> deviceIp.None? || deviceIp.value == "")
      && (ok ==> t.connected)
      && t.(connected := s.connected, calls := s.calls) == s
  {
    var (t, ok) := ConnectSpec(s, DirectConnect(deviceIp), outcome);
    assert t.calls[|s.calls|..] == ConnectSteps(DirectConnect(deviceIp), outcome).0;
  }

  /**
   * `disconnect()` drops the pending request, resets the timestamp and closes
   * an open session once. It keeps the cached status, and it does not touch
   * `lastStatusValid`.
   */
  lemma DisconnectResets(s: CacheState)
    ensures var t := DisconnectSpec(s);
      && t.ongoingStatusUpdate == null && t.lastStatusUpdate == 0 && !t.connected
      && t.lastStatus == s.lastStatus && t.lastStatusValid == s.lastStatusValid
      && (s.connected ==> t.calls == s.calls + [ApiDisconnect])
      && (!s.connected ==> t.calls == s.calls)
  {
  }

  /** Disconnecting twice is the same as disconnecting once: the second call closes nothing. */
  lemma DisconnectIdempotent(s: CacheState)
    ensures DisconnectSpec(DisconnectSpec(s)) == DisconnectSpec(s)
  {
  }

  // ---------------------------------------------------------------------------
  // Staleness gate

  function Abs(x: int): nat {
    if x < 0 then -x else x
  }

  /** The condition under which `getStatus` goes to the device. */
  predicate IsStale(lastStatusValid: bool, lastStatusUpdate: int, now: int, cachingDuration: int) {
    !lastStatusValid || Abs(now - lastStatusUpdate) > cachingDuration
  }

  /**
   * An invalid cache is always stale. A valid one is stale once it is more than
   * `cachingDuration` away from `now` in either direction (the comparison is
   * strict), and fresh otherwise.
   */
  lemma StalenessGate(lastStatusValid: bool, lastStatusUpdate: int, now: int, cachingDuration: int)
    ensures !lastStatusValid ==> IsStale(lastStatusValid, lastStatusUpdate, now, cachingDuration)
    ensures lastStatusValid ==>
      (IsStale(lastStatusValid, lastStatusUpdate, now, cachingDuration) <==>
         now - lastStatusUpdate > cachingDuration || lastStatusUpdate - now > cachingDuration)
  {
  }

  // ---------------------------------------------------------------------------
  // Fetch outcomes

  /** What the `try` block of `getStatusFromDevice` does once the transport answers. */
  function ApplyGet(s: CacheState, outcome: GetOutcome, now: int): (CacheState, FetchResult) {
    match outcome
    case GetOk(schema) =>
      (s.(lastStatus := schema, lastStatusUpdate := now, ongoingStatusUpdate := null), Resolved(schema))
    case GetFailed =>
      (DisconnectSpec(s), Rejected)
  }

  /**
   * The settling of a status fetch. `needsConnect` is whether the fetch found
   * the transport disconnected when it started. A failed `connect()` rejects
   * before the `try` block is reached.
   */
  function SettleSpec(s: CacheState, needsConnect: bool, directConnect: bool,
                      connect: ConnectOutcome, get: GetOutcome, now: int): (CacheState, FetchResult)
  {
    var (c, ok) := EnsureConnected(s, needsConnect, directConnect, connect);
    if !ok then (c, Rejected) else ApplyGet(c.(calls := c.calls + [ApiGet]), get, now)
  }

  /**
   * A fetch that reaches the transport and succeeds replaces the cached status
   * wholesale by the fetched one. It stamps the current time, clears the
   * pending request, and hands the fetched status to every waiter.
   */
  lemma FetchSuccess(s: CacheState, needsConnect: bool, directConnect: bool,
                     connect: ConnectOutcome, schema: StatusResponse, now: int)
    requires needsConnect ==> ConnectSteps(directConnect, connect).1
    ensures var (t, r) := SettleSpec(s, needsConnect, directConnect, connect, GetOk(schema), now);
      && r == Resolved(schema)
      && t.lastStatus == schema && t.lastStatusUpdate == now && t.ongoingStatusUpdate == null
      && t.lastStatusValid == s.lastStatusValid
      && t.calls[|t.calls| - 1] == ApiGet
  {
  }

  /**
   * A failed transport `get` leaves the cached status as it was. It runs
   * `disconnect()` (pending request cleared, timestamp reset, session closed)
   * and rejects every waiter.
   */
  lemma FetchFailure(s: CacheState, needsConnect: bool, directConnect: bool, connect: ConnectOutcome, now: int)
    requires needsConnect ==> ConnectSteps(directConnect, connect).1
    ensures var (t, r) := SettleSpec(s, needsConnect, directConnect, connect, GetFailed, now);
      && r == Rejected
      && t.lastStatus == s.lastStatus && t.lastStatusValid == s.lastStatusValid
      && t.ongoingStatusUpdate == null && t.lastStatusUpdate == 0 && !t.connected
      && ((needsConnect || s.connected) ==> t.calls[|t.calls| - 1] == ApiDisconnect)
  {
  }

  /**
   * A failed `connect()` rejects outside the `try`. It neither disconnects nor
   * clears `ongoingStatusUpdate`, so the rejected request stays pending in the
   * cache. Nothing is fetched, and only the connect calls are added to the log.
   */
  lemma ConnectFailureKeepsRequest(s: CacheState, directConnect: bool, connect: ConnectOutcome,
                                   get: GetOutcome, now: int)
    requires !ConnectSteps(directConnect, connect).1
    ensures var (t, r) := SettleSpec(s, true, directConnect, connect, get, now);
      && r == Rejected
      && t.(calls := s.calls) == s
      && t.calls == s.calls + ConnectSteps(directConnect, connect).0
      && ApiGet !in t.calls[|s.calls|..] && ApiDisconnect !in t.calls[|s.calls|..]
  {
    var (t, r) := SettleSpec(s, true, directConnect, connect, get, now);
    assert t.calls[|s.calls|..] == ConnectSteps(directConnect, connect).0;
  }

  // ---------------------------------------------------------------------------
  // Push events

  /** `Object.assign(target, data)` over the tracked properties: each one present in `data` overwrites the target's. */
  function Assign(target: StatusResponse, data: DataEvent): StatusResponse
    requires data.dps.Some?
  {
    StatusResponse(data.devId.GetOr(target.devId), data.dps.value)
  }

  /** The `data` handler: merge a payload with a truthy `dps` into the cache and stamp the time. */
  function PushSpec(s: CacheState, data: DataEvent, now: int): CacheState {
    if data.dps.Some? then s.(lastStatus := Assign(s.lastStatus, data), lastStatusUpdate := now) else s
  }

  /**
   * A `data` event with a `dps` object makes that object the cached `dps`
   * whole. It overwrites `devId` when the event carries one and stamps the
   * time. It leaves validity, the pending request, the session and the log as
   * they were. An event without `dps` changes nothing.
   */
  lemma PushMerge(s: CacheState, data: DataEvent, now: int)
    ensures var t := PushSpec(s, data, now);
      && (data.dps.Some? ==>
            && t.lastStatus.dps == data.dps.value
            && t.lastStatus.devId == (if data.devId.Some? then data.devId.value else s.lastStatus.devId)
            && t.lastStatusUpdate == now
            && t.(lastStatus := s.lastStatus, lastStatusUpdate := s.lastStatusUpdate) == s)
      && (data.dps.None? ==> t == s)
  {
  }

  /**
   * The merge is top-level, not per key: a key the event's `dps` does not
   * mention is no longer cached afterwards, whatever it held before.
   */
  lemma PushDropsUnmentionedKeys(s: CacheState, data: DataEvent, now: int, k: StatusDps)
    requires data.dps.Some? && Code(k) !in data.dps.value
    ensures Project(PushSpec(s, data, now).lastStatus, k) == Undefined
  {
  }

  // ---------------------------------------------------------------------------
  // Writes

  /**
   * `set(dps, newValue)`: connect if the transport is disconnected, then write.
   * A failed write runs `disconnect()`. A failed `connect()` rejects before
   * the `try`. This is the evidently intended `this.api.set(...)`; the code as
   * written is `SetAsWritten`, and the rest of the model uses this function.
   */
  function SetSpec(s: CacheState, directConnect: bool, dps: StatusDps, newValue: DpsValue,
                   connect: ConnectOutcome, writeOk: bool): (CacheState, bool)
  {
    var (c, ok) := EnsureConnected(s, !s.connected, directConnect, connect);
    if !ok then (c, false)
    else
      var w := c.(calls := c.calls + [ApiSet(dps, newValue)]);
      if writeOk then (w, true) else (DisconnectSpec(w), false)
  }

  /**
   * A write never changes the cached status or its validity, whatever its
   * outcome: the cache does not assume the written value. A successful write
   * leaves the timestamp and the pending request alone. A failed write
   * disconnects. The write `(dps, newValue)` reaches the transport exactly
   * when the connection step succeeds.
   */
  lemma SetLeavesCache(s: CacheState, directConnect: bool, dps: StatusDps, newValue: DpsValue,
                       connect: ConnectOutcome, writeOk: bool)
    ensures var (t, ok) := SetSpec(s, directConnect, dps, newValue, connect, writeOk);
      var connectedOk := s.connected || ConnectSteps(directConnect, connect).1;
      && t.lastStatus == s.lastStatus && t.lastStatusValid == s.lastStatusValid
      && (ok <==> connectedOk && writeOk)
      && (ok ==> t.lastStatusUpdate == s.lastStatusUpdate && t.ongoingStatusUpdate == s.ongoingStatusUpdate && t.connected)
      && (connectedOk && !writeOk ==> t.ongoingStatusUpdate == null && t.lastStatusUpdate == 0 && !t.connected)
      && (!connectedOk ==> t.(calls := s.calls) == s && ApiSet(dps, newValue) !in t.calls[|s.calls|..])
      && (connectedOk ==> ApiSet(dps, newValue) in t.calls[|s.calls|..])
  {
    var (t, ok) := SetSpec(s, directConnect, dps, newValue, connect, writeOk);
    var (c, connected) := EnsureConnected(s, !s.connected, directConnect, connect);
    if !connected {
      assert t.calls[|s.calls|..] == ConnectSteps(directConnect, connect).0;
    } else {
      var w := c.calls + [ApiSet(dps, newValue)];
      assert c.calls[..|s.calls|] == s.calls;
      assert t.calls[..|w|] == w;
      assert t.calls[|w| - 1] == ApiSet(dps, newValue);
      assert t.calls[|s.calls|..][|w| - 1 - |s.calls|] == ApiSet(dps, newValue);
    }
  }

  /**
   * `set` as written: line 284 reads `this.api.this.api.set(...)`. The
   * transport object has no property `this`, so reading `.api` from
   * `undefined` throws a TypeError inside the `try`, before any transport
   * call. The `catch` runs `disconnect()` and rethrows.
   */
  function SetAsWritten(s: CacheState, directConnect: bool, connect: ConnectOutcome): (CacheState, bool) {
    var (c, ok) := EnsureConnected(s, !s.connected, directConnect, connect);
    if !ok then (c, false) else (DisconnectSpec(c), false)
  }

  /**
   * As written, `set` never succeeds and never writes. Once the connection
   * step succeeds it is exactly the intended `set` with a failing write, minus
   * the write in the log. With the session open, the intended `set` with a
   * successful write resolves, while the code as written rejects.
   */
  lemma SetAsWrittenNeverWrites(s: CacheState, directConnect: bool, dps: StatusDps, newValue: DpsValue,
                                connect: ConnectOutcome)
    ensures var (t, ok) := SetAsWritten(s, directConnect, connect);
      var connectedOk := s.connected || ConnectSteps(directConnect, connect).1;
      && !ok
      && ApiSet(dps, newValue) !in t.calls[|s.calls|..]
      && (connectedOk ==> t.ongoingStatusUpdate == null && t.lastStatusUpdate == 0 && !t.connected)
      && t.lastStatus == s.lastStatus && t.lastStatusValid == s.lastStatusValid
    ensures var (t, _) := SetAsWritten(s, directConnect, connect);
      var (u, _) := SetSpec(s, directConnect, dps, newValue, connect, false);
      t.(calls := u.calls) == u
    ensures s.connected ==> SetSpec(s, directConnect, dps, newValue, connect, true).1
  {
    var (t, ok) := SetAsWritten(s, directConnect, connect);
    var (c, connected) := EnsureConnected(s, !s.connected, directConnect, connect);
    if !connected {
      assert t.calls[|s.calls|..] == ConnectSteps(directConnect, connect).0;
    } else if s.connected {
      assert t.calls[|s.calls|..] == [ApiDisconnect];
    } else {
      var steps := ConnectSteps(directConnect, connect).0;
      assert c.calls == s.calls + steps;
      assert t.calls[|s.calls|..] == steps + [ApiDisconnect];
      assert forall i :: 0 <= i < |steps| ==> steps[i] == ApiFind || steps[i] == ApiConnect;
    }
  }

  /** No event ever makes the cache valid: every transition keeps `Inv`. */
  lemma EventsKeepInvalid(s: CacheState, directConnect: bool, needsConnect: bool, connect: ConnectOutcome,
                          get: GetOutcome, data: DataEvent, dps: StatusDps, newValue: DpsValue,
                          writeOk: bool, now: int, cachingDuration: int)
    requires Inv(s)
    ensures Inv(ConnectSpec(s, directConnect, connect).0)
    ensures Inv(DisconnectSpec(s))
    ensures Inv(SettleSpec(s, needsConnect, directConnect, connect, get, now).0)
    ensures Inv(PushSpec(s, data, now))
    ensures Inv(SetSpec(s, directConnect, dps, newValue, connect, writeOk).0)
    ensures IsStale(s.lastStatusValid, s.lastStatusUpdate, now, cachingDuration)
  {
  }

  // ---------------------------------------------------------------------------
  // Typed accessors

  /** The typed getters (and their `*Cached` variants). */
  datatype Getter =
    | GetRunning | GetDirection | GetWorkMode | GetWorkStatus | GetGoHome
    | GetCleanSpeed | GetFindRobot | GetBatteryLevel | GetErrorCode

  /** The key each getter reads. */
  function GetterKey(g: Getter): StatusDps {
    match g
    case GetRunning => Running
    case GetDirection => Direction
    case GetWorkMode => WorkMode
    case GetWorkStatus => WorkStatus
    case GetGoHome => GoHome
    case GetCleanSpeed => CleanSpeed
    case GetFindRobot => FindRobot
    case GetBatteryLevel => BatteryLevel
    case GetErrorCode => ErrorCode
  }

  /** The getter of a key; the `DEFAULT` key has none. */
  function GetterFor(k: StatusDps): (r: Option<Getter>)
    ensures r.Some? <==> k != Default
    ensures r.Some? ==> GetterKey(r.value) == k
  {
    match k
    case Default => None
    case Running => Some(GetRunning)
    case Direction => Some(GetDirection)
    case WorkMode => Some(GetWorkMode)
    case WorkStatus => Some(GetWorkStatus)
    case GoHome => Some(GetGoHome)
    case CleanSpeed => Some(GetCleanSpeed)
    case FindRobot => Some(GetFindRobot)
    case BatteryLevel => Some(GetBatteryLevel)
    case ErrorCode => Some(GetErrorCode)
  }

  /** Each getter reads its own key: no two getters share one. */
  lemma GetterKeyRoundTrip(g: Getter)
    ensures GetterFor(GetterKey(g)) == Some(g)
  {
  }

  /** The typed setters. */
  datatype Setter = SetPlayPause | SetDirection | SetWorkMode | SetGoHome | SetCleanSpeed | SetFindRobot

  /** The fixed key each setter forwards to `set`. */
  function SetterKey(s: Setter): StatusDps {
    match s
    case SetPlayPause => Running
    case SetDirection => Direction
    case SetWorkMode => WorkMode
    case SetGoHome => GoHome
    case SetCleanSpeed => CleanSpeed
    case SetFindRobot => FindRobot
  }

  /** The setter of a key; four keys have none. */
  function SetterFor(k: StatusDps): (r: Option<Setter>)
    ensures r.Some? <==> k !in {Default, WorkStatus, BatteryLevel, ErrorCode}
    ensures r.Some? ==> SetterKey(r.value) == k
  {
    match k
    case Running => Some(SetPlayPause)
    case Direction => Some(SetDirection)
    case WorkMode => Some(SetWorkMode)
    case GoHome => Some(SetGoHome)
    case CleanSpeed => Some(SetCleanSpeed)
    case FindRobot => Some(SetFindRobot)
    case _ => None
  }

  /** Each setter writes its own key: no two setters share one. */
  lemma SetterKeyRoundTrip(s: Setter)
    ensures SetterFor(SetterKey(s)) == Some(s)
  {
  }

  /** What `getStatus` hands back: the cached status at once, or the pending request. */
  datatype StatusReply = Ready(status: StatusResponse) | Pending(request: StatusRequest)

  /** What a typed getter hands back: the value at once, or the pending request and the key it will project. */
  datatype PropertyReply = Value(value: Lookup) | Awaiting(request: StatusRequest, key: StatusDps)

  /** The value a typed getter's caller receives once its request settles; `None` if it is rejected. */
  function AwaitedValue(result: FetchResult, k: StatusDps): (r: Option<Lookup>)
    ensures r.Some? <==> result.Resolved?
    ensures r.Some? ==> r.value == Project(result.status, k)
  {
    match result
    case Resolved(status) => Some(Project(status, k))
    case Rejected => None
  }

  // ---------------------------------------------------------------------------
  // The RoboVac object

  class RoboVac {
    const directConnect: bool
    const cachingDuration: int
    var lastStatus: StatusResponse
    var lastStatusUpdate: int
    var lastStatusValid: bool
    var ongoingStatusUpdate: StatusRequest?
    /** The transport's `isConnected()`. */
    var connected: bool
    /** Every transport call made so far. */
    ghost var calls: seq<TransportCall>
    /** Every status request this object has started. */
    ghost var issued: set<StatusRequest>

    ghost function State(): CacheState
      reads this
    {
      CacheState(lastStatus, lastStatusUpdate, lastStatusValid, ongoingStatusUpdate, connected, calls)
    }

    /** The pending request, if any, is one this object started. */
    ghost predicate Wf()
      reads this
    {
      ongoingStatusUpdate != null ==> ongoingStatusUpdate in issued
    }

    /** `Wf()` together with the invariant of the code as written: the cache is never valid. */
    ghost predicate Valid()
      reads this
    {
      Inv(State()) && Wf()
    }

    /**
     * The constructor: the default status, the epoch timestamp, an invalid
     * cache and no pending request, then a first `connect()`.
     */
    constructor (deviceIp: Option<string>, cachingDuration: int, initialConnect: ConnectOutcome)
      ensures Valid() && issued == {}
      ensures directConnect == DirectConnect(deviceIp) && this.cachingDuration == cachingDuration
      ensures lastStatus == DefaultStatus && lastStatusUpdate == 0 && !lastStatusValid
      ensures ongoingStatusUpdate == null
      ensures State() == ConnectSpec(InitialState(), directConnect, initialConnect).0
    {
      this.cachingDuration := cachingDuration;
      directConnect := DirectConnect(deviceIp);
      lastStatus := DefaultStatus;
      lastStatusUpdate := 0;
      lastStatusValid := false;
      ongoingStatusUpdate := null;
      connected := false;
      calls := [];
      issued := {};
      new;
      var _ := Connect(initialConnect);
    }

    /** `connect()`: find the device when no address is configured, then connect. */
    method Connect(outcome: ConnectOutcome) returns (ok: bool)
      requires Valid()
      modifies this
      ensures Valid() && issued == old(issued)
      ensures (State(), ok) == ConnectSpec(old(State()), directConnect, outcome)
    {
      if !directConnect {
        calls := calls + [ApiFind];
        if !outcome.findOk {
          return false;
        }
      }
      calls := calls + [ApiConnect];
      assert !directConnect ==> calls == old(calls) + [ApiFind, ApiConnect];
      ok := outcome.connectOk;
      if ok {
        connected := true;
      }
    }

    method Disconnect()
      requires Valid()
      modifies this
      ensures Valid() && issued == old(issued)
      ensures State() == DisconnectSpec(old(State()))
    {
      ongoingStatusUpdate := null;
      lastStatusUpdate := 0;
      if connected {
        calls := calls + [ApiDisconnect];
        connected := false;
      }
    }

    /** The `error` handler. */
    method OnError()
      requires Valid()
      modifies this
      ensures Valid() && issued == old(issued)
      ensures State() == DisconnectSpec(old(State()))
    {
      Disconnect();
    }

    /** The transport drops the session; the `disconnected` handler only logs. */
    method OnDisconnected()
      requires Valid()
      modifies this
      ensures Valid() && issued == old(issued)
      ensures State() == old(State()).(connected := false)
    {
      connected := false;
    }

    /** The `data` handler; `delivered` is what `dataReceivedCallback` receives, if it is called. */
    method OnData(data: DataEvent, now: int) returns (delivered: Option<DataEvent>)
      requires Valid()
      modifies this
      ensures Valid() && issued == old(issued)
      ensures State() == PushSpec(old(State()), data, now)
      ensures delivered == if data.dps.Some? then Some(data) else None
    {
      delivered := None;
      if data.dps.Some? {
        lastStatus := Assign(lastStatus, data);
        lastStatusUpdate := now;
        delivered := Some(data);
      }
    }

    function GetStatusCached(): (r: Option<StatusResponse>)
      reads this
      ensures r.Some? <==> lastStatusValid
      ensures r.Some? ==> r.value == lastStatus
    {
      if lastStatusValid then Some(lastStatus) else None
    }

    /** A `*Cached` getter: `None` is the source's `null`. */
    function GetCached(getter: Getter): (r: Option<Lookup>)
      reads this
      ensures r.Some? <==> lastStatusValid
      ensures r.Some? ==> r.value == Project(lastStatus, GetterKey(getter))
    {
      if lastStatusValid then Some(Project(lastStatus, GetterKey(getter))) else None
    }

    /** Since the cache never becomes valid, the cached accessors always answer `null` and every read is stale. */
    lemma CacheNeverServes(getter: Getter, now: int)
      requires Valid()
      ensures GetStatusCached() == None && GetCached(getter) == None
      ensures IsStale(lastStatusValid, lastStatusUpdate, now, cachingDuration)
    {
    }

    /** `getStatusFromDevice()` as far as it runs before its first `await`. */
    method GetStatusFromDevice() returns (request: StatusRequest)
      ensures fresh(request) && request.needsConnect == !connected && request.result == None
    {
      request := new StatusRequest(!connected);
    }

    /** Coalescing: join the pending request if there is one, otherwise start one. */
    method GetStatusFromDeviceSynchronized() returns (request: StatusRequest)
      requires Wf()
      modifies this
      ensures Wf() && lastStatusValid == old(lastStatusValid) && request in issued
      ensures old(ongoingStatusUpdate) != null ==>
        request == old(ongoingStatusUpdate) && State() == old(State()) && issued == old(issued)
      ensures old(ongoingStatusUpdate) == null ==>
        && fresh(request) && request.needsConnect == !connected && request.result == None
        && State() == old(State()).(ongoingStatusUpdate := request)
        && issued == old(issued) + {request}
    {
      if ongoingStatusUpdate != null {
        return ongoingStatusUpdate;
      }
      request := GetStatusFromDevice();
      ongoingStatusUpdate := request;
      issued := issued + {request};
    }

    method GetStatus(now: int) returns (reply: StatusReply)
      requires Wf()
      modifies this
      ensures Wf() && lastStatusValid == old(lastStatusValid)
      ensures !IsStale(old(lastStatusValid), old(lastStatusUpdate), now, cachingDuration) ==>
        reply == Ready(old(lastStatus)) && State() == old(State()) && issued == old(issued)
      ensures IsStale(old(lastStatusValid), old(lastStatusUpdate), now, cachingDuration) ==>
        && reply.Pending? && reply.request in issued
        && (old(ongoingStatusUpdate) != null ==>
              reply.request == old(ongoingStatusUpdate) && State() == old(State()) && issued == old(issued))
        && (old(ongoingStatusUpdate) == null ==>
              && fresh(reply.request) && reply.request.needsConnect == !connected && reply.request.result == None
              && State() == old(State()).(ongoingStatusUpdate := reply.request)
              && issued == old(issued) + {reply.request})
    {
      if IsStale(lastStatusValid, lastStatusUpdate, now, cachingDuration) {
        var request := GetStatusFromDeviceSynchronized();
        reply := Pending(request);
      } else {
        reply := Ready(lastStatus);
      }
    }

    /** A typed getter: `getStatus()` projected on the getter's key. */
    method Get(getter: Getter, now: int) returns (reply: PropertyReply)
      requires Wf()
      modifies this
      ensures Wf() && lastStatusValid == old(lastStatusValid)
      ensures !IsStale(old(lastStatusValid), old(lastStatusUpdate), now, cachingDuration) ==>
        reply == Value(Project(old(lastStatus), GetterKey(getter))) && State() == old(State()) && issued == old(issued)
      ensures IsStale(old(lastStatusValid), old(lastStatusUpdate), now, cachingDuration) ==>
        && reply.Awaiting? && reply.key == GetterKey(getter) && reply.request in issued
        && (old(ongoingStatusUpdate) != null ==>
              reply.request == old(ongoingStatusUpdate) && State() == old(State()) && issued == old(issued))
        && (old(ongoingStatusUpdate) == null ==>
              && fresh(reply.request) && reply.request.needsConnect == !connected && reply.request.result == None
              && State() == old(State()).(ongoingStatusUpdate := reply.request)
              && issued == old(issued) + {reply.request})
    {
      var status := GetStatus(now);
      match status
      case Ready(s) => reply := Value(Project(s, GetterKey(getter)));
      case Pending(request) => reply := Awaiting(request, GetterKey(getter));
    }

    /**
     * The rest of `getStatusFromDevice()`: the transport answers a pending
     * request, which settles once. Every caller holding it gets `result`.
     */
    method SettleStatusRequest(request: StatusRequest, connect: ConnectOutcome, get: GetOutcome, now: int)
      returns (result: FetchResult)
      requires Valid() && request in issued && request.result == None
      modifies this, request
      ensures Valid() && issued == old(issued)
      ensures (State(), result) == SettleSpec(old(State()), request.needsConnect, directConnect, connect, get, now)
      ensures request.result == Some(result)
    {
      if request.needsConnect {
        var ok := Connect(connect);
        if !ok {
          result := Rejected;
          request.result := Some(result);
          return;
        }
      }
      calls := calls + [ApiGet];
      match get {
        case GetOk(schema) =>
          lastStatus := schema;
          lastStatusUpdate := now;
          ongoingStatusUpdate := null;
          result := Resolved(schema);
        case GetFailed =>
          Disconnect();
          result := Rejected;
      }
      request.result := Some(result);
    }

    /**
     * `set(dps, newValue)`, with line 284 read as the evidently intended
     * `this.api.set(...)`; `ok` is false when the returned promise rejects.
     * As written, only the `writeOk = false` outcome is reachable (`SetAsWritten`).
     */
    method Set(dps: StatusDps, newValue: DpsValue, connect: ConnectOutcome, writeOk: bool) returns (ok: bool)
      requires Valid()
      modifies this
      ensures Valid() && issued == old(issued)
      ensures (State(), ok) == SetSpec(old(State()), directConnect, dps, newValue, connect, writeOk)
    {
      if !connected {
        ok := Connect(connect);
        if !ok {
          return;
        }
      }
      calls := calls + [ApiSet(dps, newValue)];
      ok := writeOk;
      if !ok {
        Disconnect();
      }
    }

    /** A typed setter: `set` with the setter's fixed key. */
    method Apply(setter: Setter, newValue: DpsValue, connect: ConnectOutcome, writeOk: bool) returns (ok: bool)
      requires Valid()
      modifies this
      ensures Valid() && issued == old(issued)
      ensures (State(), ok) == SetSpec(old(State()), directConnect, SetterKey(setter), newValue, connect, writeOk)
    {
      ok := Set(SetterKey(setter), newValue, connect, writeOk);
    }
  }

  /**
   * A client run. Two reads while the cache is stale share one request and
   * one transport `get`. A failed `connect()` leaves its rejected request in
   * place, so later reads receive that same request until an `error` event
   * clears it.
   */
  method ClientRun(battery: int) {
    var vac := new RoboVac(Some("192.168.1.20"), 15000, ConnectOutcome(true, false));
    assert vac.directConnect && vac.calls == [ApiConnect] && !vac.connected;

    var first := vac.Get(GetBatteryLevel, 1000);
    var second := vac.Get(GetRunning, 1000);
    assert first.request == second.request && first.request.needsConnect;

    var fetched := StatusResponse("vac", map["104" := Num(battery), "2" := Bool(true)]);
    var result := vac.SettleStatusRequest(first.request, ConnectOutcome(true, true), GetOk(fetched), 1200);
    assert AwaitedValue(result, first.key) == Some(Defined(Num(battery)));
    assert AwaitedValue(result, second.key) == Some(Defined(Bool(true)));
    assert vac.calls == [ApiConnect, ApiConnect, ApiGet];
    assert vac.GetCached(GetBatteryLevel) == None;

    vac.OnDisconnected();
    var third := vac.GetStatus(1300);
    var failed := vac.SettleStatusRequest(third.request, ConnectOutcome(true, false), GetFailed, 1400);
    assert failed == Rejected && vac.ongoingStatusUpdate == third.request;
    var fourth := vac.GetStatus(1500);
    assert fourth == third;

    vac.OnError();
    var fifth := vac.GetStatus(1600);
    assert fifth.request != third.request && vac.lastStatus == fetched;
  }
}
