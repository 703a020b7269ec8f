/**
 * The browser debug adapter factory: a single connection attempt guarded by
 * a timer. The socket's open and error events and the timer each run a
 * handler; the descriptor promise settles at most once.
 */
module DebugAdapterWeb {
  import opened Wrappers
  import opened Config
  import opened Transport

  const DefaultServer: string := "wss://beta.simbolik.runtimeverification.com"
  const TimeoutMessage: string := "Connection timed out"

  /** The descriptor promise. */
  datatype Settlement = Pending | Resolved | Rejected(reason: string)

  /** Everything the handlers read or change. */
  datatype Conn = Conn(socket: ReadyState, promise: Settlement, warnings: nat, timerFired: bool)

  /** What can happen while connecting. */
  datatype Event =
    | Opened        // the socket opens and `onopen` runs
    | Errored       // `onerror` runs
    | TimerFired    // the connection timer runs out, 3000 ms after the socket was created
    | ServerClosed  // the server closes an open socket

  function Init(): Conn {
    Conn(Connecting, Pending, 0, false)
  }

  /** A promise keeps its first settlement. */
  function Settle(p: Settlement, q: Settlement): Settlement {
    if p.Pending? then q else p
  }

  /** Events the socket and the timer can produce in a state. */
  predicate Enabled(c: Conn, e: Event) {
    match e
    case Opened => c.socket == Connecting
    case Errored => true
    case TimerFired => !c.timerFired
    case ServerClosed => c.socket == Open
  }

  /** One event and its handler. */
  function Step(c: Conn, e: Event): (r: Conn)
    ensures r.promise != c.promise ==> c.promise == Pending
    ensures r.promise.Rejected? && !c.promise.Rejected? ==> e == TimerFired && c.socket != Open
    ensures e == Errored && c.socket == Open ==> r == c
    ensures e == Errored && c.socket != Open ==>
      r == c.(socket := Closed, warnings := c.warnings + 1)
    ensures e == TimerFired && c.socket == Open ==> r == c.(timerFired := true)
    ensures e == TimerFired && c.socket != Open ==>
      r.socket == Closed && r.promise == Settle(c.promise, Rejected(TimeoutMessage)) &&
      r.warnings == c.warnings + 1
    ensures e == Opened ==> r.promise == Settle(c.promise, Resolved)
  {
    match e
    case Opened =>
      c.(socket := Open, promise := Settle(c.promise, Resolved))
    case Errored =>
      if c.socket == Open then c
      else c.(socket := Closed, warnings := c.warnings + 1)
    case TimerFired =>
      if c.socket == Open then c.(timerFired := true)
      else c.(socket := Closed, promise := Settle(c.promise, Rejected(TimeoutMessage)),
              warnings := c.warnings + 1, timerFired := true)
    case ServerClosed =>
      c.(socket := Closed)
  }

  function Replay(c: Conn, events: seq<Event>): Conn {
    if events == [] then c else Step(Replay(c, events[..|events| - 1]), events[|events| - 1])
  }

  /** Every event of the sequence can happen when it does. */
  predicate Feasible(c: Conn, events: seq<Event>) {
    events == [] ||
    (Feasible(c, events[..|events| - 1]) &&
     Enabled(Replay(c, events[..|events| - 1]), events[|events| - 1]))
  }

  /** Once settled, the promise never changes. */
  lemma {:induction false} SettlesOnce(c: Conn, events: seq<Event>)
    requires !c.promise.Pending?
    ensures Replay(c, events).promise == c.promise
  {
    if events != [] {
      SettlesOnce(c, events[..|events| - 1]);
    }
  }

  /**
   * The promise is rejected only by the timer, firing while the socket was
   * not open and the promise still pending; errors never reject it.
   */
  lemma {:induction false} RejectedOnlyByTimer(c: Conn, events: seq<Event>)
    requires c.promise == Pending
    requires Replay(c, events).promise.Rejected?
    ensures exists i :: (0 <= i < |events| && events[i] == TimerFired &&
      Replay(c, events[..i]).socket != Open && Replay(c, events[..i]).promise == Pending)
    ensures Replay(c, events).promise == Rejected(TimeoutMessage)
  {
    var n := |events|;
    var before := Replay(c, events[..n - 1]);
    if before.promise.Rejected? {
      RejectedOnlyByTimer(c, events[..n - 1]);
      var i :| 0 <= i < n - 1 && events[..n - 1][i] == TimerFired &&
        Replay(c, events[..n - 1][..i]).socket != Open && Replay(c, events[..n - 1][..i]).promise == Pending;
      assert events[..n - 1][..i] == events[..i];
    }
  }

  /** What holds of every state a feasible run reaches. */
  predicate Consistent(c: Conn) {
    && (c.socket == Connecting ==> c.promise == Pending && !c.timerFired)
    && (c.socket == Open ==> c.promise == Resolved)
    && (c.timerFired ==> !c.promise.Pending?)
    && !(c.promise.Resolved? && c.promise.Rejected?)
  }

  lemma {:induction false} ConsistentAlways(events: seq<Event>)
    requires Feasible(Init(), events)
    ensures Consistent(Replay(Init(), events))
  {
    if events != [] {
      ConsistentAlways(events[..|events| - 1]);
    }
  }

  /** Once the timer has run, the descriptor is settled one way or the other. */
  lemma TimerSettles(events: seq<Event>)
    requires Feasible(Init(), events) && Replay(Init(), events).timerFired
    ensures !Replay(Init(), events).promise.Pending?
  {
    ConsistentAlways(events);
  }

  /** An open socket has always resolved the descriptor, so neither errors nor the timer can reject it. */
  lemma OpenMeansResolved(events: seq<Event>)
    requires Feasible(Init(), events) && Replay(Init(), events).socket == Open
    ensures Replay(Init(), events).promise == Resolved
  {
    ConsistentAlways(events);
  }

  /** A socket that errors and then times out: warned twice, closed, rejected by the timer. */
  lemma ErrorThenTimeout()
    ensures Replay(Init(), [Errored, TimerFired]) == Conn(Closed, Rejected(TimeoutMessage), 2, true)
  {
    assert [Errored, TimerFired][..1] == [Errored];
  }

  /**
   * The whole request: when `new WebSocket` does not accept the server URL
   * it throws inside the promise's executor, so the promise is rejected
   * with that error before any handler or timer exists and no events
   * follow; no socket is left, which reads as Closed.
   */
  function Request(urlAccepted: bool, events: seq<Event>): Conn {
    if urlAccepted then Replay(Init(), events) else Conn(Closed, Rejected(InvalidUrlError), 0, false)
  }

  /**
   * Every way the descriptor is rejected: by a URL the socket does not
   * accept, at once and without a warning, or by the timer while the
   * socket was not open.
   */
  lemma RejectionCauses(urlAccepted: bool, events: seq<Event>)
    requires Request(urlAccepted, events).promise.Rejected?
    ensures Request(urlAccepted, events).promise == Rejected(InvalidUrlError) <==> !urlAccepted
    ensures !urlAccepted ==> Request(urlAccepted, events).warnings == 0
    ensures urlAccepted ==>
      && Request(urlAccepted, events).promise == Rejected(TimeoutMessage)
      && exists i :: (0 <= i < |events| && events[i] == TimerFired &&
           Replay(Init(), events[..i]).socket != Open && Replay(Init(), events[..i]).promise == Pending)
  {
    if urlAccepted {
      RejectedOnlyByTimer(Init(), events);
    }
  }

  // ---------------------------------------------------------------------------
  // The adapter

  /**
   * How the browser adapter reads an inbound frame: `data.text()` exists only
   * on binary (Blob) data, so a text frame throws and fires nothing.
   */
  function Decode(frame: Frame): (messages: seq<Json>)
    ensures messages != [] <==> frame.BinaryFrame? && frame.payload.Encoded?
    ensures messages != [] ==> messages == [frame.payload.message]
  {
    match frame
    case BinaryFrame(Encoded(m)) => [m]
    case BinaryFrame(Malformed) => []
    case TextFrame(_) => []
  }

  class WebsocketDebugAdapter {
    const socket: Socket
    var fired: seq<Json>

    constructor (socket: Socket)
      ensures this.socket == socket && fired == []
    {
      this.socket := socket;
      fired := [];
    }

    /** Outbound: send the message's serialisation, unchanged. */
    method HandleMessage(message: Json) returns (r: SendResult)
      modifies socket
      ensures socket.readyState == old(socket.readyState)
      ensures old(socket.readyState) == Open ==>
        r == Transmitted && socket.sent == old(socket.sent) + [TextFrame(Encoded(message))]
      ensures old(socket.readyState) != Open ==> r != Transmitted && socket.sent == old(socket.sent)
    {
      r := socket.Send(TextFrame(Encoded(message)));
    }

    /** Inbound: a binary frame that parses fires its message; anything else fires nothing. */
    method OnMessage(frame: Frame)
      modifies this
      ensures fired == old(fired) + Decode(frame)
    {
      if frame.BinaryFrame? && frame.payload.Encoded? {
        fired := fired + [frame.payload.message];
      }
    }

    method Dispose()
      modifies socket
      ensures socket.readyState == Closed && socket.sent == old(socket.sent)
    {
      socket.Close();
    }
  }

  /** `createDebugAdapterDescriptor` while it waits: the socket, the promise and the handlers. */
  class DescriptorRequest {
    const socket: Socket
    var promise: Settlement
    /** The adapter the promise was resolved with. */
    var adapter: WebsocketDebugAdapter?
    var warnings: nat
    var timerFired: bool

    function State(): Conn
      reads this, socket
    {
      Conn(socket.readyState, promise, warnings, timerFired)
    }

    /** Install the handlers on a socket that has just started connecting, and arm the timer. */
    constructor (socket: Socket)
      requires socket.readyState == Connecting
      ensures this.socket == socket
      ensures State() == Init() && adapter == null
    {
      this.socket := socket;
      promise := Pending;
      adapter := null;
      warnings := 0;
      timerFired := false;
    }

    /** The socket opens: resolve with an adapter over this socket. */
    method OnOpen()
      requires socket.readyState == Connecting
      modifies this, socket
      ensures State() == Step(old(State()), Opened)
      ensures old(promise) == Pending ==> adapter != null && fresh(adapter) && adapter.socket == socket
      ensures old(promise) != Pending ==> adapter == old(adapter)
      ensures socket.sent == old(socket.sent)
    {
      socket.Establish();
      var websocketAdapter := new WebsocketDebugAdapter(socket);
      if promise == Pending {
        promise := Resolved;
        adapter := websocketAdapter;
      }
    }

    /** An error: ignored on an open socket; otherwise close and warn, but do not reject. */
    method OnError()
      modifies this, socket
      ensures State() == Step(old(State()), Errored)
      ensures adapter == old(adapter) && socket.sent == old(socket.sent)
    {
      if socket.readyState == Open {
        return;
      }
      socket.Close();
      warnings := warnings + 1;
    }

    /** The timer: ignored on an open socket; otherwise close, reject and warn. */
    method OnTimeout()
      requires !timerFired
      modifies this, socket
      ensures State() == Step(old(State()), TimerFired)
      ensures adapter == old(adapter) && socket.sent == old(socket.sent)
    {
      timerFired := true;
      if socket.readyState == Open {
        return;
      }
      socket.Close();
      promise := Settle(promise, Rejected(TimeoutMessage));
      warnings := warnings + 1;
    }
  }

  /**
   * `createDebugAdapterDescriptor` up to the first event: open the socket to
   * the configured server and wait, or reject at once when `new WebSocket`
   * does not accept the URL.
   */
  method CreateDescriptor(settings: Settings, urlAccepted: string -> bool)
    returns (request: Result<DescriptorRequest, string>)
    ensures var server := Display(GetConfigValue(settings, "server", Str(DefaultServer)));
      && (request.Err? <==> !urlAccepted(server))
      && (request.Err? ==>
            request.error == InvalidUrlError &&
            Request(false, []).promise == Rejected(request.error))
      && (request.Ok? ==>
            && fresh(request.value) && fresh(request.value.socket)
            && request.value.socket.url == server && request.value.socket.sent == []
            && request.value.State() == Request(true, []) && request.value.adapter == null)
  {
    var server := Display(GetConfigValue(settings, "server", Str(DefaultServer)));
    var created := Connect(server, urlAccepted);
    if created.Err? {
      return Err(created.error);
    }
    var pending := new DescriptorRequest(created.value);
    request := Ok(pending);
  }
}
