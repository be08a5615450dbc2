/**
 * The ESP32 telemetry connector: a module-level WebSocket client to the
 * board and the last temperature/humidity reading it pushed. The handlers
 * registered on every client the connector creates update the module
 * state; they do not check which client fired, so a late event of an older
 * client acts on the current one. After every close a reconnect is
 * scheduled 5 s later, without any limit on attempts.
 */
module Esp32Connector {
  import opened Results
  import opened Events

  /** The `ws` client's `readyState`. */
  datatype ReadyState = Connecting | Open | Closing | Closed

  /** A client created by `connectToEsp32`; `id` counts creations. */
  datatype Client = Client(id: nat, state: ReadyState)

  /** One field of the parsed message as the handler reads it: absent,
      JSON `null`, or a value with its `toString()` text and truthiness. */
  datatype Field = Undefined | Null | Value(text: string, truthy: bool)

  /** The data of a 'message' event: text that `JSON.parse` rejects, the
      JSON literal `null`, or any other JSON value (a number, a string or an
      array reads every field as `Undefined`). */
  datatype Message = Unparsable | NullMessage | Parsed(error: Field, temperature: Field, humidity: Field)

  /** The reading the module starts with and falls back to. */
  const Unknown: Reading := Reading("", "")
  const ReconnectDelayMs: nat := 5000

  predicate Truthy(f: Field) {
    f.Value? && f.truthy
  }

  /** What a 'message' does to the cached reading. */
  datatype Handling = Keep | Reset | Broadcast(reading: Reading)

  /** The message handler. A truthy `error` resets the reading; two defined
      fields are stored as text and broadcast; anything else is ignored.
      Every exception inside the handler resets the reading: a parse
      failure, reading `error` of `null`, `toString()` of a `null` field,
      and the `weatherContentSocket.io` getter throwing while Socket.IO is
      not initialised (`ioReady` false), which undoes the reading it has
      just stored. */
  function HandleMessage(m: Message, ioReady: bool): (r: Handling)
    ensures r.Broadcast? <==>
              m.Parsed? && !Truthy(m.error) && m.temperature.Value? && m.humidity.Value? && ioReady
    ensures r.Broadcast? ==> r.reading == Reading(m.temperature.text, m.humidity.text)
    ensures r.Keep? <==>
              m.Parsed? && !Truthy(m.error) && (m.temperature.Undefined? || m.humidity.Undefined?)
  {
    match m
    case Unparsable => Reset
    case NullMessage => Reset
    case Parsed(error, temperature, humidity) =>
      if Truthy(error) then Reset
      else if temperature.Undefined? || humidity.Undefined? then Keep
      else if temperature.Null? || humidity.Null? then Reset
      else if !ioReady then Reset
      else Broadcast(Reading(temperature.text, humidity.text))
  }

  /** The module's state: `latestTempHumid`, `wsClient`, how many clients
      were created, and how many 5 s reconnect timers are pending. */
  datatype ConnState = ConnState(reading: Reading, client: Option<Client>, created: nat, pendingReconnects: nat)

  const Initial: ConnState := ConnState(Unknown, None, 0, 0)

  predicate Live(s: ConnState) {
    s.client.Some? && (s.client.value.state == Open || s.client.value.state == Connecting)
  }

  /** `connectToEsp32`: nothing without a configured URI or while the
      current client is live; otherwise a new client in CONNECTING. */
  function ConnectStep(s: ConnState, uri: Option<string>): (r: ConnState)
    ensures uri.None? || uri.value == "" || Live(s) ==> r == s
    ensures uri.Some? && uri.value != "" && !Live(s) ==>
              r == s.(client := Some(Client(s.created, Connecting)), created := s.created + 1)
  {
    if uri.None? || uri.value == "" then s
    else if Live(s) then s
    else s.(client := Some(Client(s.created, Connecting)), created := s.created + 1)
  }

  /** The library marks a client OPEN before 'open' fires; the handler
      itself only logs. */
  function OpenStep(s: ConnState, from: nat): ConnState {
    if s.client.Some? && s.client.value.id == from then s.(client := Some(Client(from, Open)))
    else s
  }

  /** 'message' from any client: the new state and what is broadcast. */
  function MessageStep(s: ConnState, m: Message, ioReady: bool): (ConnState, seq<Event>) {
    match HandleMessage(m, ioReady)
    case Keep => (s, [])
    case Reset => (s.(reading := Unknown), [])
    case Broadcast(reading) => (s.(reading := reading), [TempHumidUpdated(reading)])
  }

  /** 'close' from any client: the reading is reset, `wsClient` becomes
      null (even when the closing client is an older one) and one more
      reconnect is scheduled. */
  function CloseStep(s: ConnState): ConnState {
    s.(reading := Unknown, client := None, pendingReconnects := s.pendingReconnects + 1)
  }

  /** `terminate()` on a client that is not closed yet moves it to CLOSING. */
  function Terminated(c: Client): Client {
    if c.state == Closed then c else c.(state := Closing)
  }

  /** 'error' from any client: the reading is reset and the current client,
      unless it is OPEN, is terminated. */
  function ErrorStep(s: ConnState): ConnState {
    var reset := s.(reading := Unknown);
    if s.client.Some? && s.client.value.state != Open then reset.(client := Some(Terminated(s.client.value)))
    else reset
  }

  /** A pending reconnect timer fires and calls `connectToEsp32`. */
  function ReconnectStep(s: ConnState, uri: Option<string>): ConnState
    requires s.pendingReconnects > 0
  {
    ConnectStep(s.(pendingReconnects := s.pendingReconnects - 1), uri)
  }

  /** Calling `connectToEsp32` twice is the same as calling it once. */
  lemma ConnectIdempotent(s: ConnState, uri: Option<string>)
    ensures ConnectStep(ConnectStep(s, uri), uri) == ConnectStep(s, uri)
  {
  }

  /** After a successful connect the module has a live client, the newest
      one created; a connect with a URI never leaves it without one. */
  lemma ConnectLeavesLiveClient(s: ConnState, uri: Option<string>)
    requires uri.Some? && uri.value != ""
    requires s.client.Some? ==> s.client.value.id < s.created
    ensures Live(ConnectStep(s, uri))
    ensures ConnectStep(s, uri).client.value.id < ConnectStep(s, uri).created
    ensures !Live(s) ==> ConnectStep(s, uri).client.value.id == s.created
  {
  }

  /** Every close schedules a reconnect, however many came before: after
      `n` closes of clients, `n` more reconnects are pending. */
  lemma {:induction false} ClosesAreNeverCapped(s: ConnState, n: nat)
    ensures CloseN(s, n).pendingReconnects == s.pendingReconnects + n
    ensures n > 0 ==> CloseN(s, n).reading == Unknown && CloseN(s, n).client.None?
  {
    if n > 0 {
      ClosesAreNeverCapped(s, n - 1);
    }
  }

  function CloseN(s: ConnState, n: nat): ConnState {
    if n == 0 then s else CloseStep(CloseN(s, n - 1))
  }

  /** An OPEN client survives an 'error'; any other current client is
      terminated, and the reading is reset either way. */
  lemma ErrorSpareOnlyOpenClient(s: ConnState)
    ensures ErrorStep(s).reading == Unknown
    ensures s.client.Some? && s.client.value.state == Open ==> ErrorStep(s).client == s.client
    ensures s.client.Some? && s.client.value.state != Open ==>
              ErrorStep(s).client.Some? && ErrorStep(s).client.value.id == s.client.value.id &&
              ErrorStep(s).client.value.state in {Closing, Closed}
    ensures ErrorStep(s).created == s.created && ErrorStep(s).pendingReconnects == s.pendingReconnects
  {
  }

  /** A message either keeps the reading, resets it, or stores exactly
      the two texts it carried, and it broadcasts only the reading it
      stored; the client and the timers are untouched. */
  lemma MessageChangesOnlyReading(s: ConnState, m: Message, ioReady: bool)
    ensures var (t, out) := MessageStep(s, m, ioReady);
      t.client == s.client && t.created == s.created && t.pendingReconnects == s.pendingReconnects &&
      (t.reading == s.reading || t.reading == Unknown ||
       (m.Parsed? && t.reading == Reading(m.temperature.text, m.humidity.text))) &&
      (out == [] || out == [TempHumidUpdated(t.reading)])
  {
  }

  /** A board error report, or a message arriving before Socket.IO is set
      up, leaves the reading unknown and broadcasts nothing. */
  lemma ErrorReportResets(s: ConnState, m: Message, ioReady: bool)
    requires m.Parsed? && (Truthy(m.error) || (m.temperature.Value? && m.humidity.Value? && !ioReady))
    ensures MessageStep(s, m, ioReady) == (s.(reading := Unknown), [])
  {
  }

  class Connector {
    /** `AXIOS_IOT_URI`, fixed at start-up. */
    const uri: Option<string>
    var reading: Reading
    var client: Option<Client>
    var created: nat
    var pendingReconnects: nat

    function State(): ConnState
      reads this
    {
      ConnState(reading, client, created, pendingReconnects)
    }

    constructor (uri: Option<string>)
      ensures this.uri == uri && State() == Initial
    {
      this.uri := uri;
      reading := Unknown;
      client := None;
      created := 0;
      pendingReconnects := 0;
    }

    /** `connectToEsp32` (also `initializeEsp32Connector`). */
    method Connect()
      modifies this
      ensures State() == ConnectStep(old(State()), uri)
    {
      if uri.None? || uri.value == "" {
        return;
      }
      if client.Some? && (client.value.state == Open || client.value.state == Connecting) {
        return;
      }
      client := Some(Client(created, Connecting));
      created := created + 1;
    }

    method OnOpen(from: nat)
      modifies this
      ensures State() == OpenStep(old(State()), from)
    {
      if client.Some? && client.value.id == from {
        client := Some(Client(from, Open));
      }
    }

    /** The 'message' handler, with its broadcast on `bus`. */
    method OnMessage(bus: EventBus, m: Message, ioReady: bool)
      modifies this, bus
      ensures State() == MessageStep(old(State()), m, ioReady).0
      ensures bus.events == old(bus.events) + MessageStep(old(State()), m, ioReady).1
    {
      match m {
        case Unparsable =>
          reading := Unknown;
        case NullMessage =>
          reading := Unknown;
        case Parsed(error, temperature, humidity) =>
          if Truthy(error) {
            reading := Unknown;
          } else if !temperature.Undefined? && !humidity.Undefined? {
            if temperature.Null? || humidity.Null? {
              reading := Unknown;
            } else {
              reading := Reading(temperature.text, humidity.text);
              if ioReady {
                bus.Emit(TempHumidUpdated(reading));
              } else {
                reading := Unknown;
              }
            }
          }
      }
      assert old(bus.events) + [] == old(bus.events);
    }

    /** The 'close' handler of any client, `from` or an older one. */
    method OnClose(from: nat)
      modifies this
      ensures State() == CloseStep(old(State()))
    {
      reading := Unknown;
      client := None;
      pendingReconnects := pendingReconnects + 1;
    }

    /** The 'error' handler of any client. */
    method OnError(from: nat)
      modifies this
      ensures State() == ErrorStep(old(State()))
    {
      reading := Unknown;
      if client.Some? && client.value.state != Open {
        client := Some(Terminated(client.value));
      }
    }

    /** One of the pending `setTimeout(connectToEsp32, 5000)` timers fires. */
    method FireReconnect()
      requires pendingReconnects > 0
      modifies this
      ensures State() == ReconnectStep(old(State()), uri)
    {
      pendingReconnects := pendingReconnects - 1;
      Connect();
    }

    /** `getLatestEsp32Data`: a copy of the cached reading. */
    function LatestReading(): (r: Reading)
      reads this
      ensures r == State().reading
    {
      reading
    }
  }
}
