/**
 * The desktop debug adapter factory: connect to the debugging server with
 * bounded retries on one socket, warn (but carry on) when that fails, and
 * relay messages unchanged in both directions.
 */
module DebugAdapter {
  import opened Wrappers
  import opened Config
  import opened Transport

  /** How often to retry connecting. */
  const MaxRetries: nat := 4
  /** How long each attempt may take, and how long to wait before the next, in milliseconds. */
  const RetryInterval: nat := 500
  const DefaultServer: string := "ws://localhost:6789"

  // ---------------------------------------------------------------------------
  // Retry

  /** How one attempt's race between the task and the timer ends. */
  datatype Attempt<T> = Succeeded(value: T) | Failed(reason: string) | TimedOut

  /** What the task itself does: settle at some time after it starts, or never. */
  datatype RawAttempt<T> = ResolvesAt(time: nat, value: T) | RejectsAt(time: nat, reason: string) | NeverSettles

  /** The race between the task and the timer: the task wins only if it settles before the timer runs out. */
  function Race<T>(raw: RawAttempt<T>, interval: nat): (a: Attempt<T>)
    ensures a.Succeeded? <==> raw.ResolvesAt? && raw.time < interval
    ensures a.Failed? <==> raw.RejectsAt? && raw.time < interval
    ensures a.Succeeded? ==> a.value == raw.value
    ensures a.Failed? ==> a.reason == raw.reason
  {
    match raw
    case ResolvesAt(t, v) => if t < interval then Succeeded(v) else TimedOut
    case RejectsAt(t, e) => if t < interval then Failed(e) else TimedOut
    case NeverSettles => TimedOut
  }

  function Races<T>(raws: seq<RawAttempt<T>>, interval: nat): (attempts: seq<Attempt<T>>)
    ensures |attempts| == |raws|
    ensures forall i :: 0 <= i < |raws| ==> attempts[i] == Race(raws[i], interval)
  {
    if raws == [] then [] else Races(raws[..|raws| - 1], interval) + [Race(raws[|raws| - 1], interval)]
  }

  /** What the returned promise is rejected with: the task's error, or nothing when the timer won. */
  datatype Failure = Error(reason: string) | NoReason

  datatype Settled<T> = Resolved(value: T) | Rejected(failure: Failure)

  /** The outcome of `retry` and how many attempts it started. */
  datatype RetryRun<T> = RetryRun(settled: Settled<T>, attempts: nat)

  function FailureOf<T>(a: Attempt<T>): Failure
    requires !a.Succeeded?
  {
    if a.Failed? then Error(a.reason) else NoReason
  }

  /**
   * The rescheduling closure `retry` from attempt number `retries` on, given
   * how each attempt's race ends.
   */
  function RetryFrom<T>(outcomes: seq<Attempt<T>>, retries: nat, maxRetries: nat): (r: RetryRun<T>)
    requires retries <= maxRetries < |outcomes|
    ensures retries < r.attempts <= maxRetries + 1
    ensures forall j :: retries <= j < r.attempts - 1 ==> !outcomes[j].Succeeded?
    ensures r.settled.Resolved? ==> outcomes[r.attempts - 1] == Succeeded(r.settled.value)
    ensures r.settled.Rejected? ==>
      && r.attempts == maxRetries + 1
      && !outcomes[maxRetries].Succeeded?
      && r.settled.failure == FailureOf(outcomes[maxRetries])
    decreases maxRetries - retries
  {
    match outcomes[retries]
    case Succeeded(v) => RetryRun(Resolved(v), retries + 1)
    case _ =>
      if retries < maxRetries then RetryFrom(outcomes, retries + 1, maxRetries)
      else RetryRun(Rejected(FailureOf(outcomes[retries])), retries + 1)
  }

  /**
   * `retry(fn, interval, maxRetries)`, with the attempts' races given as
   * `outcomes` (one per attempt that may be made).
   */
  method Retry<T>(outcomes: seq<Attempt<T>>, maxRetries: nat) returns (r: Settled<T>, attempts: nat)
    requires maxRetries < |outcomes|
    ensures RetryRun(r, attempts) == RetryFrom(outcomes, 0, maxRetries)
    ensures 1 <= attempts <= maxRetries + 1
    ensures r.Resolved? <==> exists i :: 0 <= i <= maxRetries && outcomes[i].Succeeded?
  {
    var retries := 0;
    var outcome := outcomes[0];
    while !outcome.Succeeded? && retries < maxRetries
      invariant retries <= maxRetries && outcome == outcomes[retries]
      invariant RetryFrom(outcomes, retries, maxRetries) == RetryFrom(outcomes, 0, maxRetries)
      decreases maxRetries - retries
    {
      retries := retries + 1;
      outcome := outcomes[retries];
    }
    attempts := retries + 1;
    if outcome.Succeeded? {
      r := Resolved(outcome.value);
    } else {
      r := Rejected(FailureOf(outcome));
    }
  }

  /** `retry` resolves with the first attempt that succeeded in time, and no later one is made. */
  lemma FirstSuccessWins<T>(outcomes: seq<Attempt<T>>, maxRetries: nat, i: nat)
    requires maxRetries < |outcomes| && i <= maxRetries
    requires outcomes[i].Succeeded? && forall j :: 0 <= j < i ==> !outcomes[j].Succeeded?
    ensures RetryFrom(outcomes, 0, maxRetries) == RetryRun(Resolved(outcomes[i].value), i + 1)
  {
  }

  /** With every attempt failing, `retry` rejects with the last attempt's failure after `maxRetries + 1` attempts. */
  lemma AllFailReject<T>(outcomes: seq<Attempt<T>>, maxRetries: nat)
    requires maxRetries < |outcomes|
    requires forall j :: 0 <= j <= maxRetries ==> !outcomes[j].Succeeded?
    ensures RetryFrom(outcomes, 0, maxRetries) ==
      RetryRun(Rejected(FailureOf(outcomes[maxRetries])), maxRetries + 1)
  {
  }

  /** A task that never settles loses the race: the attempt counts as a failure without a reason. */
  lemma SilentAttemptTimesOut<T>(interval: nat)
    ensures Race<T>(NeverSettles, interval).TimedOut?
    ensures FailureOf(Race<T>(NeverSettles, interval)) == NoReason
  {
  }

  /** With the factory's constants, at most five connection attempts are made. */
  lemma AtMostFiveAttempts<T>(outcomes: seq<Attempt<T>>)
    requires MaxRetries < |outcomes|
    ensures RetryFrom(outcomes, 0, MaxRetries).attempts <= 5
  {
  }

  // ---------------------------------------------------------------------------
  // One socket

  /**
   * Every attempt listens on the same socket, which reports at most one of
   * its events: it opens, or it fails with an error (and is then closed),
   * or neither. Times are in milliseconds from the socket's creation.
   */
  datatype SocketEvent = OpensAt(time: nat) | ErrorsAt(time: nat, reason: string) | NoEvent

  /**
   * When attempt `k` registers its `once` listeners. Until the socket's event
   * every attempt times out, so attempt `k` starts after `k` timers and `k`
   * rescheduling delays; after the event, later attempts hear nothing
   * whenever they start.
   */
  function AttemptStart(k: nat): nat {
    k * (RetryInterval + RetryInterval)
  }

  /** The attempt registered at `start` hears an event only if it is emitted after its listeners exist. */
  function Listen(ev: SocketEvent, start: nat): RawAttempt<()> {
    match ev
    case OpensAt(t) => if start <= t then ResolvesAt(t - start, ()) else NeverSettles
    case ErrorsAt(t, e) => if start <= t then RejectsAt(t - start, e) else NeverSettles
    case NoEvent => NeverSettles
  }

  /** How the races of the first `n` attempts end on a socket whose event is `ev`. */
  function Attempts(ev: SocketEvent, n: nat): (attempts: seq<Attempt<()>>)
    ensures |attempts| == n
    ensures forall k :: 0 <= k < n ==> attempts[k] == Race(Listen(ev, AttemptStart(k)), RetryInterval)
  {
    Races(seq(n, k requires 0 <= k => Listen(ev, AttemptStart(k))), RetryInterval)
  }

  /** Attempt `k` hears an event at time `t` exactly when `t` falls in its window. */
  predicate InWindow(t: nat, k: nat) {
    AttemptStart(k) <= t < AttemptStart(k) + RetryInterval
  }

  /** The factory's `retry` on a socket whose event is `ev`. */
  function ConnectRun(ev: SocketEvent): RetryRun<()> {
    RetryFrom(Attempts(ev, MaxRetries + 1), 0, MaxRetries)
  }

  /** When the last attempt's timer runs out. */
  const LastDeadline: nat := AttemptStart(MaxRetries) + RetryInterval

  /** The socket's state at `time`. */
  function ReadyStateAt(ev: SocketEvent, time: nat): ReadyState {
    match ev
    case OpensAt(t) => if t < time then Open else Connecting
    case ErrorsAt(t, _) => if t < time then Closed else Connecting
    case NoEvent => Connecting
  }

  /** Attempts start at least twice the interval apart. */
  lemma {:induction false} AttemptStartGap(j: nat, k: nat)
    requires j < k
    ensures AttemptStart(j) + RetryInterval + RetryInterval <= AttemptStart(k)
  {
    if j + 1 < k {
      AttemptStartGap(j, k - 1);
    }
  }

  /** The factory connects iff the socket opens while some attempt listens. */
  lemma ConnectResolvesIff(ev: SocketEvent)
    ensures ConnectRun(ev).settled.Resolved? <==>
      ev.OpensAt? && exists k :: 0 <= k <= MaxRetries && InWindow(ev.time, k)
  {
    var outcomes := Attempts(ev, MaxRetries + 1);
    var run := ConnectRun(ev);
    if run.settled.Resolved? {
      var k := run.attempts - 1;
      assert outcomes[k].Succeeded?;
      assert InWindow(ev.time, k);
    }
  }

  /**
   * An error before the last attempt dooms the retry: the socket is closed,
   * every later attempt times out, and `retry` rejects without the error.
   */
  lemma ErrorOnOneSocketDooms(ev: SocketEvent, k: nat)
    requires ev.ErrorsAt? && k < MaxRetries && InWindow(ev.time, k)
    ensures ConnectRun(ev) == RetryRun(Rejected(NoReason), MaxRetries + 1)
    ensures ReadyStateAt(ev, LastDeadline) == Closed
  {
    var outcomes := Attempts(ev, MaxRetries + 1);
    AttemptStartGap(k, MaxRetries);
    assert outcomes[MaxRetries].TimedOut?;
    AllFailReject(outcomes, MaxRetries);
  }

  /**
   * A socket that opens while no attempt listens (between two attempts, or
   * after the last) is never heard: every attempt times out and `retry`
   * rejects, so the factory warns, although the socket is open by the last
   * deadline when the open came before it.
   */
  lemma OpenUnheardDooms(ev: SocketEvent)
    requires ev.OpensAt? && forall k :: 0 <= k <= MaxRetries ==> !InWindow(ev.time, k)
    ensures ConnectRun(ev) == RetryRun(Rejected(NoReason), MaxRetries + 1)
    ensures ev.time < LastDeadline ==> ReadyStateAt(ev, LastDeadline) == Open
  {
    var outcomes := Attempts(ev, MaxRetries + 1);
    forall j | 0 <= j <= MaxRetries
      ensures outcomes[j].TimedOut?
    {
      assert !InWindow(ev.time, j);
    }
    AllFailReject(outcomes, MaxRetries);
  }

  /** The server accepts 700 ms in, after the first attempt gave up and before the second listens. */
  lemma OpenBetweenAttempts()
    ensures ConnectRun(OpensAt(700)) == RetryRun(Rejected(NoReason), MaxRetries + 1)
    ensures ReadyStateAt(OpensAt(700), LastDeadline) == Open
  {
    forall k | 0 <= k <= MaxRetries
      ensures !InWindow(700, k)
    {
      if k > 0 {
        AttemptStartGap(0, k);
      }
    }
    OpenUnheardDooms(OpensAt(700));
  }

  // ---------------------------------------------------------------------------
  // The adapter

  /** How the desktop adapter reads an inbound frame: `data.toString()` then `JSON.parse`. */
  function Decode(frame: Frame): (messages: seq<Json>)
    ensures frame.payload.Encoded? ==> messages == [frame.payload.message]
    ensures frame.payload.Malformed? ==> messages == []
  {
    match frame.payload
    case Encoded(m) => [m]
    case Malformed => []
  }

  /** The messages fired for a sequence of inbound frames. */
  function Delivered(frames: seq<Frame>): seq<Json> {
    if frames == [] then [] else Delivered(frames[..|frames| - 1]) + Decode(frames[|frames| - 1])
  }

  /** Delivery keeps arrival order. */
  lemma {:induction false} DeliveredAppend(a: seq<Frame>, b: seq<Frame>)
    ensures Delivered(a + b) == Delivered(a) + Delivered(b)
  {
    if b == [] {
      assert a + b == a;
    } else {
      assert (a + b)[..|a + b| - 1] == a + b[..|b| - 1];
      DeliveredAppend(a, b[..|b| - 1]);
    }
  }

  /** Well-formed frames, text or binary, are each fired exactly once, in order and unchanged. */
  lemma {:induction false} DeliveredExactly(frames: seq<Frame>)
    requires forall i :: 0 <= i < |frames| ==> frames[i].payload.Encoded?
    ensures |Delivered(frames)| == |frames|
    ensures forall i :: 0 <= i < |frames| ==> Delivered(frames)[i] == frames[i].payload.message
  {
    if frames != [] {
      DeliveredExactly(frames[..|frames| - 1]);
    }
  }

  class WebsocketDebugAdapter {
    const socket: Socket
    /** The messages fired to the editor so far. */
    var fired: seq<Json>

    constructor (socket: Socket)
      ensures this.socket == socket && fired == []
    {
      this.socket := socket;
      fired := [];
    }

    /** Outbound: send the message's serialisation, unchanged. */
    method HandleMessage(message: Json) returns (r: SendResult)
      modifies socket
      ensures socket.readyState == old(socket.readyState)
      ensures old(socket.readyState) == Open ==>
        r == Transmitted && socket.sent == old(socket.sent) + [TextFrame(Encoded(message))]
      ensures old(socket.readyState) != Open ==> r != Transmitted && socket.sent == old(socket.sent)
    {
      r := socket.Send(TextFrame(Encoded(message)));
    }

    /** Inbound: parse the frame and fire the message; a frame that does not parse fires nothing. */
    method OnMessage(frame: Frame)
      modifies this
      ensures fired == old(fired) + Decode(frame)
    {
      match frame.payload
      case Encoded(m) =>
        fired := fired + [m];
      case Malformed =>
    }

    method Dispose()
      modifies socket
      ensures socket.readyState == Closed && socket.sent == old(socket.sent)
    {
      socket.Close();
    }
  }

  /**
   * `createDebugAdapterDescriptor`: open one socket to the configured
   * server, retry connecting on it, warn if that fails, and build the
   * adapter over that same socket either way. A server URL the socket does
   * not accept makes `new WebSocket` throw, which rejects the factory before
   * any attempt: no warning, no adapter.
   */
  method CreateDescriptor(settings: Settings, urlAccepted: string -> bool, ev: SocketEvent)
    returns (descriptor: Result<WebsocketDebugAdapter, string>, warned: bool)
    ensures var server := Display(GetConfigValue(settings, "server", Str(DefaultServer)));
      descriptor.Err? <==> !urlAccepted(server)
    ensures descriptor.Err? ==> descriptor.error == InvalidUrlError && !warned
    ensures descriptor.Ok? ==>
      var adapter := descriptor.value;
      var run := ConnectRun(ev);
      && fresh(adapter) && fresh(adapter.socket) && adapter.fired == [] && adapter.socket.sent == []
      && adapter.socket.url == Display(GetConfigValue(settings, "server", Str(DefaultServer)))
      && (warned <==> run.settled.Rejected?)
      && (run.settled.Resolved? ==> adapter.socket.readyState == Open)
      && (run.settled.Rejected? ==> adapter.socket.readyState == ReadyStateAt(ev, LastDeadline))
  {
    var server := GetConfigValue(settings, "server", Str(DefaultServer));
    var created := Connect(Display(server), urlAccepted);
    if created.Err? {
      return Err(created.error), false;
    }
    var websocket := created.value;
    var outcomes := Attempts(ev, MaxRetries + 1);
    var connected, attempts := Retry(outcomes, MaxRetries);
    // The socket's own event, as it stands once `retry` has settled.
    var state := if connected.Resolved? then Open else ReadyStateAt(ev, LastDeadline);
    if state == Open {
      websocket.Establish();
    } else if state == Closed {
      websocket.Close();
    }
    warned := connected.Rejected?;
    var adapter := new WebsocketDebugAdapter(websocket);
    descriptor := Ok(adapter);
  }
}
