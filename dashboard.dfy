/** The browser side of the dashboard: the `useESP32WebSocket` hook of
    `client_dashboard/src/hooks/useESP32WebSocket.ts`. Its refs and React
    state form one `HookState`; each callback and socket handler is a
    transition on it, and the class `Hook` performs the same transitions on
    fields. Sockets and timers are named by numbers; the browser's events
    (open, message, close, error, timer expiry) are method calls. Clock
    readings are parameters. */
module Dashboard {
  import opened Wrappers

  /** Length of the data-stream log. */
  const MaxEntries: nat := 100
  /** Engine speed above which a warning is logged. */
  const RpmWarning: real := 6000.0

  // ---------------------------------------------------------------------
  // Configuration

  datatype Config = Config(ip: string, port: int, reconnectInterval: int, maxAttempts: int)

  const DefaultConfig: Config := Config("192.168.4.1", 80, 3000, 10)

  /** A `Partial<ESP32WebSocketConfig>`: `None` for a key that is absent. */
  datatype PartialConfig = PartialConfig(ip: Option<string>, port: Option<int>,
                                         reconnectInterval: Option<int>, maxAttempts: Option<int>)

  function Pick<T>(given: Option<T>, prev: T): T
  {
    if given.Some? then given.value else prev
  }

  /** `{ ...prev, ...newConfig }` */
  function Merge(prev: Config, upd: PartialConfig): (c: Config)
    ensures upd.ip.Some? ==> c.ip == upd.ip.value
    ensures upd.ip.None? ==> c.ip == prev.ip
    ensures upd.port.Some? ==> c.port == upd.port.value
    ensures upd.port.None? ==> c.port == prev.port
    ensures upd.reconnectInterval.Some? ==> c.reconnectInterval == upd.reconnectInterval.value
    ensures upd.reconnectInterval.None? ==> c.reconnectInterval == prev.reconnectInterval
    ensures upd.maxAttempts.Some? ==> c.maxAttempts == upd.maxAttempts.value
    ensures upd.maxAttempts.None? ==> c.maxAttempts == prev.maxAttempts
  {
    Config(Pick(upd.ip, prev.ip), Pick(upd.port, prev.port),
           Pick(upd.reconnectInterval, prev.reconnectInterval), Pick(upd.maxAttempts, prev.maxAttempts))
  }

  /** Later keys win: `{...{...a}, ...b}` as one partial config. */
  function Combine(first: PartialConfig, second: PartialConfig): PartialConfig
  {
    PartialConfig(if second.ip.Some? then second.ip else first.ip,
                  if second.port.Some? then second.port else first.port,
                  if second.reconnectInterval.Some? then second.reconnectInterval else first.reconnectInterval,
                  if second.maxAttempts.Some? then second.maxAttempts else first.maxAttempts)
  }

  /** An empty update changes nothing, an update applied twice is applied
      once, and two updates in a row are their combination. */
  lemma MergeLaws(prev: Config, u: PartialConfig, v: PartialConfig)
    ensures Merge(prev, PartialConfig(None, None, None, None)) == prev
    ensures Merge(Merge(prev, u), u) == Merge(prev, u)
    ensures Merge(Merge(prev, u), v) == Merge(prev, Combine(u, v))
  {
  }

  // ---------------------------------------------------------------------
  // The data-stream log

  datatype Kind = Info | Success | Warning | Error

  /** The log messages, one per call site; their text is fixed except for
      the parts carried as arguments. */
  datatype Message =
    | AlreadyConnected
    | ConnectingTo(url: string)
    | ConnectedWs
    | ConnectFailed
    | LimpMode
    | ProtectionActive
    | HighRpm(rpm: JsValue)
    | ParseError
    | ConnectionLost(reason: string)
    | MaxAttemptsReached
    | DisconnectedFromEsp
    | SocketError
    | ManualDisconnect
    | SentCommand(command: string)
    | CannotSend
    | StreamCleared
    | ConfigUpdated

  datatype Entry = Entry(time: int, message: Message, kind: Kind)

  /** `[entry, ...prev].slice(0, 100)` */
  function AddEntry(log: seq<Entry>, e: Entry): (r: seq<Entry>)
    ensures |r| == if |log| < MaxEntries then |log| + 1 else MaxEntries
  {
    ([e] + log)[..if |log| < MaxEntries then |log| + 1 else MaxEntries]
  }

  /** The new entry goes first and the older ones follow in order; a full log
      drops exactly its oldest entry, a shorter one grows. */
  lemma AddEntryDropsOldest(log: seq<Entry>, e: Entry)
    requires |log| <= MaxEntries
    ensures |AddEntry(log, e)| <= MaxEntries
    ensures AddEntry(log, e)[0] == e && AddEntry(log, e)[1..] == log[..|AddEntry(log, e)| - 1]
    ensures |log| == MaxEntries ==> AddEntry(log, e) == [e] + log[..MaxEntries - 1]
    ensures |log| < MaxEntries ==> AddEntry(log, e) == [e] + log
  {
  }

  /** Entries added one after the other, oldest first. */
  function AddAll(log: seq<Entry>, es: seq<Entry>): seq<Entry>
    decreases |es|
  {
    if es == [] then log else AddAll(AddEntry(log, es[0]), es[1..])
  }

  function Reverse<T>(s: seq<T>): (r: seq<T>)
    ensures |r| == |s|
    ensures forall i :: 0 <= i < |s| ==> r[i] == s[|s| - 1 - i]
  {
    if s == [] then [] else Reverse(s[1..]) + [s[0]]
  }

  /** After a series of additions the log is the newest 100 of all entries,
      newest first. */
  lemma {:induction false} AddAllNewestFirst(log: seq<Entry>, es: seq<Entry>)
    requires |log| <= MaxEntries
    decreases |es|
    ensures var all := Reverse(es) + log;
            AddAll(log, es) == all[..if |all| < MaxEntries then |all| else MaxEntries]
  {
    if es != [] {
      var log1 := AddEntry(log, es[0]);
      AddEntryDropsOldest(log, es[0]);
      AddAllNewestFirst(log1, es[1..]);
      var all := Reverse(es) + log;
      var all1 := Reverse(es[1..]) + log1;
      var n := if |all| < MaxEntries then |all| else MaxEntries;
      var n1 := if |all1| < MaxEntries then |all1| else MaxEntries;
      assert Reverse(es) == Reverse(es[1..]) + [es[0]];
      assert n1 == n;
      forall i | 0 <= i < n
        ensures all1[i] == all[i]
      {
        if i >= |es| - 1 {
          assert all1[i] == log1[i - (|es| - 1)];
        }
      }
    }
  }

  // ---------------------------------------------------------------------
  // Parsed messages

  /** A value `JSON.parse` can produce. */
  datatype JsValue =
    | JsNull
    | JsBool(b: bool)
    | JsNum(n: real)
    | JsStr(s: string)
    | JsArray(items: seq<JsValue>)
    | JsObject(fields: map<string, JsValue>)

  /** The outcome of `JSON.parse(event.data)`. */
  datatype ParseResult = ParseFailed | Parsed(value: JsValue)

  /** A property read: `undefined` or a value. */
  datatype Lookup = Undefined | Defined(value: JsValue)

  /** JavaScript truthiness of a JSON value. */
  predicate Truthy(v: JsValue)
  {
    match v
    case JsNull => false
    case JsBool(b) => b
    case JsNum(n) => n != 0.0
    case JsStr(s) => s != ""
    case _ => true
  }

  /** `data[key]` for any parsed value other than `null` (which throws). */
  function Get(data: JsValue, key: string): Lookup
    requires data != JsNull
  {
    if data.JsObject? && key in data.fields then Defined(data.fields[key]) else Undefined
  }

  /** `data[key] || fallback` */
  function OrElse(l: Lookup, fallback: JsValue): (v: JsValue)
    ensures Truthy(v) || v == fallback
    ensures l.Defined? && Truthy(l.value) ==> v == l.value
    ensures !(l.Defined? && Truthy(l.value)) ==> v == fallback
  {
    if l.Defined? && Truthy(l.value) then l.value else fallback
  }

  /** The `EcuData` record built from a message. Fields keep whatever truthy
      value arrived; `timestamp` is the value handed to `new Date`. */
  datatype Ecu = Ecu(mapPressure: JsValue, wastegatePosition: JsValue, tpsPosition: JsValue,
                     engineRpm: JsValue, targetBoost: JsValue, tcuProtectionActive: JsValue,
                     tcuLimpMode: JsValue, torqueRequest: JsValue, timestamp: JsValue)

  /** The normalisation of the ECU message: missing or falsy numbers become 0
      and missing or falsy flags become false. */
  function Normalise(data: JsValue, now: int): (e: Ecu)
    requires data != JsNull
  {
    Ecu(OrElse(Get(data, "mapPressure"), JsNum(0.0)),
        OrElse(Get(data, "wastegatePosition"), JsNum(0.0)),
        OrElse(Get(data, "tpsPosition"), JsNum(0.0)),
        OrElse(Get(data, "engineRpm"), JsNum(0.0)),
        OrElse(Get(data, "targetBoost"), JsNum(0.0)),
        OrElse(Get(data, "tcuProtectionActive"), JsBool(false)),
        OrElse(Get(data, "tcuLimpMode"), JsBool(false)),
        OrElse(Get(data, "torqueRequest"), JsNum(0.0)),
        OrElse(Get(data, "timestamp"), JsNum(now as real)))
  }

  /** Whether the message carries ECU data: `engineRpm` or `mapPressure` is
      not `undefined` (a `null` counts as present). */
  predicate IsEcuMessage(data: JsValue)
    requires data != JsNull
  {
    Get(data, "engineRpm") != Undefined || Get(data, "mapPressure") != Undefined
  }

  /** `engineRpm > 6000` for numbers and booleans. */
  predicate AboveRpmWarning(v: JsValue)
  {
    match v
    case JsNum(n) => n > RpmWarning
    case _ => false
  }

  /** The warnings an ECU update logs, in the order they are added: limp mode
      as an error (which suppresses the protection warning), otherwise
      protection as a warning; then, independently, high RPM as a warning. */
  function EcuEntries(e: Ecu, now: int): seq<Entry>
  {
    (if Truthy(e.tcuLimpMode) then [Entry(now, LimpMode, Error)]
     else if Truthy(e.tcuProtectionActive) then [Entry(now, ProtectionActive, Warning)]
     else [])
    + (if AboveRpmWarning(e.engineRpm) then [Entry(now, HighRpm(e.engineRpm), Warning)] else [])
  }

  lemma EcuEntriesClassify(e: Ecu, now: int)
    ensures var es := EcuEntries(e, now);
            && (Entry(now, LimpMode, Error) in es <==> Truthy(e.tcuLimpMode))
            && (Entry(now, ProtectionActive, Warning) in es <==> !Truthy(e.tcuLimpMode) && Truthy(e.tcuProtectionActive))
            && (Entry(now, HighRpm(e.engineRpm), Warning) in es <==> AboveRpmWarning(e.engineRpm))
            && |es| <= 2
  {
  }

  /** `got` is the message's `key` when that is truthy, and `fallback`
      when it is absent or falsy. */
  predicate TakenOrDefault(data: JsValue, key: string, got: JsValue, fallback: JsValue)
    requires data != JsNull
  {
    && (Get(data, key).Defined? && Truthy(Get(data, key).value) ==> got == Get(data, key).value)
    && (Get(data, key) == Undefined || !Truthy(Get(data, key).value) ==> got == fallback)
  }

  /** Every number of the record is the message's truthy value or 0, every
      flag the message's truthy value or false; a flag is set in the record
      exactly when the message's value is truthy. */
  lemma NormaliseDefaults(data: JsValue, now: int)
    requires data != JsNull
    ensures var e := Normalise(data, now);
            && TakenOrDefault(data, "mapPressure", e.mapPressure, JsNum(0.0))
            && TakenOrDefault(data, "wastegatePosition", e.wastegatePosition, JsNum(0.0))
            && TakenOrDefault(data, "tpsPosition", e.tpsPosition, JsNum(0.0))
            && TakenOrDefault(data, "engineRpm", e.engineRpm, JsNum(0.0))
            && TakenOrDefault(data, "targetBoost", e.targetBoost, JsNum(0.0))
            && TakenOrDefault(data, "torqueRequest", e.torqueRequest, JsNum(0.0))
            && TakenOrDefault(data, "tcuProtectionActive", e.tcuProtectionActive, JsBool(false))
            && TakenOrDefault(data, "tcuLimpMode", e.tcuLimpMode, JsBool(false))
            && (Truthy(e.tcuLimpMode) <==> Get(data, "tcuLimpMode").Defined? && Truthy(Get(data, "tcuLimpMode").value))
  {
  }

  // ---------------------------------------------------------------------
  // Connection state

  datatype StatusText =
    | StDisconnected
    | StConnecting(ip: string)
    | StConnected(ip: string)
    | StDisconnectedFromEsp
    | StFailedToReconnect
    | StConnectionError
    | StConnectionFailed

  datatype Status = Status(connected: bool, text: StatusText)

  datatype ReadyState = Connecting | Open | Closed

  /** The socket in `wsRef.current`. */
  datatype Sock = Sock(id: nat, state: ReadyState)

  /** A frame sent on a socket. */
  datatype Sent = Sent(socket: nat, text: string)

  /** The hook's state.
      - `handlers[id]`: the config captured by the `connect` that created
        socket `id`, which its handlers (and the reconnect they schedule) use;
      - `rendered`: the config the current render's `connect` captured;
      - `timers[t]`: a reconnect timer not yet expired, with the config of
        the `connect` it will call; `timerRef` is `reconnectTimeoutRef`. */
  datatype HookState = HookState(
    ecuData: Option<Ecu>,
    status: Status,
    dataStream: seq<Entry>,
    config: Config,
    rendered: Config,
    socket: Option<Sock>,
    handlers: map<nat, Config>,
    nextSocket: nat,
    timers: map<nat, Config>,
    timerRef: Option<nat>,
    nextTimer: nat,
    attempts: int,
    shouldConnect: bool,
    sent: seq<Sent>)

  function Initial(): HookState
  {
    HookState(None, Status(false, StDisconnected), [], DefaultConfig, DefaultConfig,
              None, map[], 0, map[], None, 0, 0, false, [])
  }

  function Log(s: HookState, e: Entry): HookState
  {
    s.(dataStream := AddEntry(s.dataStream, e))
  }

  function DecimalDigits(n: nat): string
  {
    if n < 10 then [DigitChar(n)] else DecimalDigits(n / 10) + [DigitChar(n % 10)]
  }

  function DigitChar(d: nat): char
    requires d < 10
  {
    "0123456789"[d]
  }

  /** `ws://${ip}:${port}/ws` */
  function WsUrl(c: Config): string
  {
    "ws://" + c.ip + ":" + (if c.port < 0 then "-" + DecimalDigits(-c.port) else DecimalDigits(c.port)) + "/ws"
  }

  predicate SocketOpen(s: HookState)
  {
    s.socket.Some? && s.socket.value.state == Open
  }

  /** `connect` as captured with config `cfg`; `constructOk` is whether
      `new WebSocket(url)` returns rather than throws. */
  function ConnectT(s: HookState, cfg: Config, constructOk: bool, now: int): HookState
  {
    if SocketOpen(s) then Log(s, Entry(now, AlreadyConnected, Info))
    else StartT(s, cfg, constructOk, now)
  }

  /** The part of `connect` past the "already open" check. */
  function StartT(s: HookState, cfg: Config, constructOk: bool, now: int): HookState
  {
    var started := Log(s.(shouldConnect := true, attempts := 0, status := Status(false, StConnecting(cfg.ip))),
                       Entry(now, ConnectingTo(WsUrl(cfg)), Info));
    if constructOk then
      started.(socket := Some(Sock(s.nextSocket, Connecting)),
               handlers := s.handlers[s.nextSocket := cfg],
               nextSocket := s.nextSocket + 1)
    else
      Log(started.(status := Status(false, StConnectionFailed)), Entry(now, ConnectFailed, Error))
  }

  /** `ws.onopen` of socket `id`. */
  function OpenT(s: HookState, id: nat, now: int): HookState
    requires id in s.handlers
  {
    var onOpen := Log(s.(attempts := 0, status := Status(true, StConnected(s.handlers[id].ip))),
                      Entry(now, ConnectedWs, Success));
    onOpen.(socket := if s.socket == Some(Sock(id, Connecting)) then Some(Sock(id, Open)) else s.socket,
            sent := s.sent + [Sent(id, "ping")])
  }

  /** What `ws.onmessage` does with one message. */
  datatype MessageEffect = NoEffect | EcuUpdate(ecu: Ecu, entries: seq<Entry>) | Malformed

  function MessageEffectOf(raw: string, parsed: ParseResult, now: int): MessageEffect
  {
    if raw == "pong" then NoEffect
    else match parsed
      case ParseFailed => Malformed
      case Parsed(data) =>
        if data == JsNull then Malformed
        else if IsEcuMessage(data) then
          var e := Normalise(data, now);
          EcuUpdate(e, EcuEntries(e, now))
        else NoEffect
  }

  /** `ws.onmessage` */
  function MessageT(s: HookState, raw: string, parsed: ParseResult, now: int): HookState
  {
    match MessageEffectOf(raw, parsed, now)
    case NoEffect => s
    case EcuUpdate(e, es) => s.(ecuData := Some(e), dataStream := AddAll(s.dataStream, es))
    case Malformed => Log(s, Entry(now, ParseError, Error))
  }

  /** The branch `ws.onclose` takes. */
  datatype CloseDecision = ScheduleReconnect | GiveUp | StayDisconnected

  function Decide(shouldConnect: bool, attempts: int, maxAttempts: int): (d: CloseDecision)
    ensures d == ScheduleReconnect <==> shouldConnect && attempts < maxAttempts
    ensures d == GiveUp <==> !(shouldConnect && attempts < maxAttempts) && attempts >= maxAttempts
  {
    if shouldConnect && attempts < maxAttempts then ScheduleReconnect
    else if attempts >= maxAttempts then GiveUp
    else StayDisconnected
  }

  /** `ws.onclose` of socket `id`; an empty `reason` reads as
      "Connection lost". */
  function CloseT(s: HookState, id: nat, reason: string, now: int): HookState
    requires id in s.handlers
  {
    var closed := s.(status := Status(false, StDisconnectedFromEsp),
                     socket := if s.socket.Some? && s.socket.value.id == id then Some(Sock(id, Closed)) else s.socket);
    AfterClose(closed, s.handlers[id], reason, now)
  }

  /** The branch of `ws.onclose` over the refs and the socket's config. */
  function AfterClose(s: HookState, cfg: Config, reason: string, now: int): HookState
  {
    match Decide(s.shouldConnect, s.attempts, cfg.maxAttempts)
    case ScheduleReconnect =>
      Log(s, Entry(now, ConnectionLost(if reason == "" then "Connection lost" else reason), Warning))
        .(timers := s.timers[s.nextTimer := cfg], timerRef := Some(s.nextTimer), nextTimer := s.nextTimer + 1)
    case GiveUp =>
      Log(s, Entry(now, MaxAttemptsReached, Error)).(status := Status(false, StFailedToReconnect))
    case StayDisconnected =>
      Log(s, Entry(now, DisconnectedFromEsp, Info))
  }

  /** `ws.onerror` */
  function ErrorT(s: HookState, now: int): HookState
  {
    Log(s, Entry(now, SocketError, Error)).(status := Status(false, StConnectionError))
  }

  /** Expiry of reconnect timer `t`: count the attempt, then `connect()`. */
  function FireT(s: HookState, t: nat, constructOk: bool, now: int): HookState
    requires t in s.timers
  {
    ConnectT(s.(timers := s.timers - {t}, attempts := s.attempts + 1), s.timers[t], constructOk, now)
  }

  /** `disconnect`: clear the intent, cancel the timer in the ref, close and
      drop the socket in the ref. */
  function DisconnectT(s: HookState, now: int): HookState
  {
    var cancelled := if s.timerRef.Some? then s.timers - {s.timerRef.value} else s.timers;
    Log(s.(shouldConnect := false, timers := cancelled, timerRef := None, socket := None,
           status := Status(false, StDisconnected)),
        Entry(now, ManualDisconnect, Info))
  }

  /** `sendCommand`: only on an open socket. */
  function SendT(s: HookState, command: string, now: int): HookState
  {
    if SocketOpen(s) then
      Log(s.(sent := s.sent + [Sent(s.socket.value.id, command)]), Entry(now, SentCommand(command), Info))
    else Log(s, Entry(now, CannotSend, Warning))
  }

  /** `clearDataStream` */
  function ClearT(s: HookState, now: int): HookState
  {
    s.(dataStream := AddEntry([], Entry(now, StreamCleared, Info)))
  }

  /** `updateConfig`: the state changes; callbacks see it after a render. */
  function UpdateConfigT(s: HookState, upd: PartialConfig, now: int): HookState
  {
    Log(s.(config := Merge(s.config, upd)), Entry(now, ConfigUpdated, Info))
  }

  /** A render: the callbacks are recreated over the current config. */
  function RenderT(s: HookState): HookState
  {
    s.(rendered := s.config)
  }

  // ---------------------------------------------------------------------
  // Properties of the transitions

  /** Every pending timer's id lies below the next id to be handed out. */
  predicate TimersFresh(s: HookState)
  {
    forall t :: t in s.timers ==> t < s.nextTimer
  }

  /** The first render has no timer, and in a state whose timer ids are
      fresh the next id names no pending timer. */
  lemma FreshTimerIsUnused(s: HookState)
    ensures TimersFresh(Initial())
    ensures TimersFresh(s) ==> s.nextTimer !in s.timers
  {
  }

  /** Every transition of the hook keeps the timer ids fresh. */
  lemma TransitionsKeepTimersFresh(s: HookState, cfg: Config, constructOk: bool, id: nat, t: nat,
                                   raw: string, parsed: ParseResult, reason: string, command: string,
                                   upd: PartialConfig, now: int)
    requires TimersFresh(s)
    ensures TimersFresh(ConnectT(s, cfg, constructOk, now))
    ensures id in s.handlers ==> TimersFresh(OpenT(s, id, now))
    ensures TimersFresh(MessageT(s, raw, parsed, now))
    ensures id in s.handlers ==> TimersFresh(CloseT(s, id, reason, now))
    ensures TimersFresh(ErrorT(s, now))
    ensures t in s.timers ==> TimersFresh(FireT(s, t, constructOk, now))
    ensures TimersFresh(DisconnectT(s, now))
    ensures TimersFresh(SendT(s, command, now))
    ensures TimersFresh(ClearT(s, now))
    ensures TimersFresh(UpdateConfigT(s, upd, now))
    ensures TimersFresh(RenderT(s))
  {
  }

  /** "pong" changes nothing. */
  lemma PongIsIgnored(s: HookState, parsed: ParseResult, now: int)
    ensures MessageT(s, "pong", parsed, now) == s
  {
  }

  /** `ecuData` is replaced exactly when the message parses to a non-null
      value with `engineRpm` or `mapPressure` present; a message that does
      not parse, or parses to `null`, logs one error entry. */
  lemma EcuReplacedOnlyForEcuMessages(s: HookState, raw: string, parsed: ParseResult, now: int)
    requires raw != "pong"
    ensures var r := MessageT(s, raw, parsed, now);
            && (r.ecuData != s.ecuData ==> parsed.Parsed? && parsed.value != JsNull && IsEcuMessage(parsed.value))
            && (parsed.Parsed? && parsed.value != JsNull && IsEcuMessage(parsed.value) ==>
                  r.ecuData == Some(Normalise(parsed.value, now)))
            && (parsed.ParseFailed? || parsed.value == JsNull ==>
                  r.dataStream == AddEntry(s.dataStream, Entry(now, ParseError, Error)) && r.ecuData == s.ecuData)
            && r.status == s.status && r.socket == s.socket && r.timers == s.timers
  {
  }

  /** A reconnect is scheduled iff the user wants a connection and fewer
      attempts than the socket's configured maximum were counted. */
  lemma CloseSchedulesReconnectIff(s: HookState, id: nat, reason: string, now: int)
    requires id in s.handlers && s.nextTimer !in s.timers
    ensures var r := CloseT(s, id, reason, now);
            && (|r.timers| == |s.timers| + 1 <==> s.shouldConnect && s.attempts < s.handlers[id].maxAttempts)
            && (r.timers == s.timers <==> !(s.shouldConnect && s.attempts < s.handlers[id].maxAttempts))
            && (r.status == Status(false, StFailedToReconnect) <==>
                  !(s.shouldConnect && s.attempts < s.handlers[id].maxAttempts) && s.attempts >= s.handlers[id].maxAttempts)
  {
    if s.shouldConnect && s.attempts < s.handlers[id].maxAttempts {
      assert s.nextTimer in CloseT(s, id, reason, now).timers;
    }
  }

  /** After `disconnect`, no close event schedules a reconnect, and the
      timer the ref held is cancelled. */
  lemma DisconnectStopsReconnecting(s: HookState, id: nat, reason: string, now: int, later: int)
    requires id in s.handlers
    ensures var d := DisconnectT(s, now);
            && !d.shouldConnect && d.socket.None?
            && (s.timerRef.Some? ==> s.timerRef.value !in d.timers)
            && CloseT(d, id, reason, later).timers == d.timers
            && !CloseT(d, id, reason, later).shouldConnect
  {
  }

  /** The attempt counter never builds up along the reconnect path: when a
      timer fires and no socket is open, `connect` puts the counter back to
      0, so a socket that then closes is again below the maximum, and
      "Max reconnection attempts reached" is never logged for it. */
  lemma ReconnectNeverGivesUp(s: HookState, t: nat, constructOk: bool, now: int, reason: string, later: int)
    requires t in s.timers && !SocketOpen(s) && s.timers[t].maxAttempts > 0
    requires s.nextTimer !in s.timers
    ensures var f := FireT(s, t, constructOk, now);
            && f.attempts == 0 && f.shouldConnect
            && (constructOk ==>
                  var id := s.nextSocket;
                  id in f.handlers
                  && var c := CloseT(f, id, reason, later);
                     s.nextTimer in c.timers && c.status != Status(false, StFailedToReconnect))
  {
  }

  /** `sendCommand` transmits exactly when the socket in the ref is open. */
  lemma SendOnlyWhenOpen(s: HookState, command: string, now: int)
    ensures var r := SendT(s, command, now);
            && (SocketOpen(s) ==> r.sent == s.sent + [Sent(s.socket.value.id, command)])
            && (SocketOpen(s) <==> |r.sent| == |s.sent| + 1)
            && (!SocketOpen(s) <==> r.sent == s.sent)
            && (!SocketOpen(s) ==> r.dataStream[0] == Entry(now, CannotSend, Warning))
  {
  }

  /** An `updateConfig` followed by `connect` from the same render still
      connects to the old address; after a render the new one is used. */
  lemma ConnectSeesConfigAfterRender(s: HookState, upd: PartialConfig, constructOk: bool, now: int)
    requires !SocketOpen(s) && upd.ip.Some? && upd.ip.value != s.rendered.ip
    ensures var u := UpdateConfigT(s, upd, now);
            && ConnectT(u, u.rendered, constructOk, now).status.text != StConnecting(upd.ip.value)
            && ConnectT(RenderT(u), RenderT(u).rendered, constructOk, now).dataStream[if constructOk then 0 else 1]
               == Entry(now, ConnectingTo(WsUrl(Merge(s.config, upd))), Info)
  {
  }

  /** The log never holds more than 100 entries. */
  lemma {:induction false} LogStaysBounded(log: seq<Entry>, es: seq<Entry>)
    requires |log| <= MaxEntries
    decreases |es|
    ensures |AddAll(log, es)| <= MaxEntries
  {
    if es != [] {
      LogStaysBounded(AddEntry(log, es[0]), es[1..]);
    }
  }

  // ---------------------------------------------------------------------
  // The hook's refs and state as fields

  class Hook {
    var ecuData: Option<Ecu>
    var status: Status
    var dataStream: seq<Entry>
    var config: Config
    var rendered: Config
    var socket: Option<Sock>
    var handlers: map<nat, Config>
    var nextSocket: nat
    var timers: map<nat, Config>
    var timerRef: Option<nat>
    var nextTimer: nat
    var attempts: int
    var shouldConnect: bool
    var sent: seq<Sent>

    function State(): HookState
      reads this
    {
      HookState(ecuData, status, dataStream, config, rendered, socket, handlers, nextSocket,
                timers, timerRef, nextTimer, attempts, shouldConnect, sent)
    }

    /** The first render of the hook. */
    constructor ()
      ensures State() == Initial()
    {
      ecuData, status, dataStream := None, Status(false, StDisconnected), [];
      config, rendered := DefaultConfig, DefaultConfig;
      socket, handlers, nextSocket := None, map[], 0;
      timers, timerRef, nextTimer := map[], None, 0;
      attempts, shouldConnect, sent := 0, false, [];
    }

    method AddDataStreamEntry(message: Message, kind: Kind, now: int)
      modifies this
      ensures State() == Log(old(State()), Entry(now, message, kind))
    {
      dataStream := AddEntry(dataStream, Entry(now, message, kind));
    }

    method ConnectWith(cfg: Config, constructOk: bool, now: int)
      modifies this
      ensures State() == ConnectT(old(State()), cfg, constructOk, now)
    {
      if socket.Some? && socket.value.state == Open {
        AddDataStreamEntry(AlreadyConnected, Info, now);
        return;
      }
      StartConnecting(cfg, constructOk, now);
    }

    method StartConnecting(cfg: Config, constructOk: bool, now: int)
      modifies this
      ensures State() == StartT(old(State()), cfg, constructOk, now)
    {
      var log := AddEntry(dataStream, Entry(now, ConnectingTo(WsUrl(cfg)), Info));
      if constructOk {
        shouldConnect, attempts, status, dataStream := true, 0, Status(false, StConnecting(cfg.ip)), log;
        socket, handlers, nextSocket := Some(Sock(nextSocket, Connecting)), handlers[nextSocket := cfg], nextSocket + 1;
      } else {
        shouldConnect, attempts, status := true, 0, Status(false, StConnectionFailed);
        dataStream := AddEntry(log, Entry(now, ConnectFailed, Error));
      }
    }

    /** `connect` of the current render. */
    method Connect(constructOk: bool, now: int)
      modifies this
      ensures State() == ConnectT(old(State()), old(rendered), constructOk, now)
    {
      ConnectWith(rendered, constructOk, now);
    }

    method OnOpen(id: nat, now: int)
      requires id in handlers
      modifies this
      ensures State() == OpenT(old(State()), id, now)
    {
      var log := AddEntry(dataStream, Entry(now, ConnectedWs, Success));
      var sock := if socket == Some(Sock(id, Connecting)) then Some(Sock(id, Open)) else socket;
      attempts, status, dataStream, socket, sent := 0, Status(true, StConnected(handlers[id].ip)), log, sock, sent + [Sent(id, "ping")];
    }

    method OnMessage(raw: string, parsed: ParseResult, now: int)
      modifies this
      ensures State() == MessageT(old(State()), raw, parsed, now)
    {
      if raw == "pong" {
        return;
      }
      match parsed {
        case ParseFailed =>
          AddDataStreamEntry(ParseError, Error, now);
        case Parsed(data) =>
          if data == JsNull {
            AddDataStreamEntry(ParseError, Error, now);
          } else if IsEcuMessage(data) {
            var e := Normalise(data, now);
            ecuData := Some(e);
            dataStream := AddAll(dataStream, EcuEntries(e, now));
          }
      }
    }

    method OnClose(id: nat, reason: string, now: int)
      requires id in handlers
      modifies this
      ensures State() == CloseT(old(State()), id, reason, now)
    {
      var cfg := handlers[id];
      status := Status(false, StDisconnectedFromEsp);
      if socket.Some? && socket.value.id == id {
        socket := Some(Sock(id, Closed));
      }
      ReactToClose(cfg, reason, now);
    }

    /** The reconnect decision of `ws.onclose`. */
    method ReactToClose(cfg: Config, reason: string, now: int)
      modifies this
      ensures State() == AfterClose(old(State()), cfg, reason, now)
    {
      if shouldConnect && attempts < cfg.maxAttempts {
        var shown := if reason == "" then "Connection lost" else reason;
        var log := AddEntry(dataStream, Entry(now, ConnectionLost(shown), Warning));
        dataStream, timers, timerRef, nextTimer := log, timers[nextTimer := cfg], Some(nextTimer), nextTimer + 1;
      } else if attempts >= cfg.maxAttempts {
        var log := AddEntry(dataStream, Entry(now, MaxAttemptsReached, Error));
        dataStream, status := log, Status(false, StFailedToReconnect);
      } else {
        AddDataStreamEntry(DisconnectedFromEsp, Info, now);
      }
    }

    method OnError(now: int)
      modifies this
      ensures State() == ErrorT(old(State()), now)
    {
      AddDataStreamEntry(SocketError, Error, now);
      status := Status(false, StConnectionError);
    }

    method OnReconnectTimer(t: nat, constructOk: bool, now: int)
      requires t in timers
      modifies this
      ensures State() == FireT(old(State()), t, constructOk, now)
    {
      var cfg := timers[t];
      timers := timers - {t};
      attempts := attempts + 1;
      ConnectWith(cfg, constructOk, now);
    }

    method Disconnect(now: int)
      modifies this
      ensures State() == DisconnectT(old(State()), now)
    {
      var cancelled := if timerRef.Some? then timers - {timerRef.value} else timers;
      var log := AddEntry(dataStream, Entry(now, ManualDisconnect, Info));
      shouldConnect, timers, timerRef, socket, status, dataStream :=
        false, cancelled, None, None, Status(false, StDisconnected), log;
    }

    method SendCommand(command: string, now: int)
      modifies this
      ensures State() == SendT(old(State()), command, now)
    {
      if socket.Some? && socket.value.state == Open {
        sent := sent + [Sent(socket.value.id, command)];
        AddDataStreamEntry(SentCommand(command), Info, now);
      } else {
        AddDataStreamEntry(CannotSend, Warning, now);
      }
    }

    method ClearDataStream(now: int)
      modifies this
      ensures State() == ClearT(old(State()), now)
    {
      dataStream := [];
      AddDataStreamEntry(StreamCleared, Info, now);
    }

    method UpdateConfig(upd: PartialConfig, now: int)
      modifies this
      ensures State() == UpdateConfigT(old(State()), upd, now)
    {
      config := Merge(config, upd);
      AddDataStreamEntry(ConfigUpdated, Info, now);
    }

    method Render()
      modifies this
      ensures State() == RenderT(old(State()))
    {
      rendered := config;
    }
  }
}
