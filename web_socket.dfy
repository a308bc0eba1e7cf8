/**
 * The live-statistics stream hook: one WebSocket at a time, a connected
 * flag, a reconnect-attempt counter and one reconnect timer. Timers and
 * socket callbacks are discrete events; the socket itself, JSON parsing and
 * the delays are outside the model.
 */
module WebSocket {
  import opened Text
  import opened DataTransformers

  const DefaultReconnectInterval := 3000
  const DefaultMaxReconnectAttempts := 10

  /** `url.replace(/^http/, 'ws')`: only a leading "http" is rewritten. */
  function WsUrl(url: string): string {
    if "http" <= url then "ws" + url[4..] else url
  }

  /** A leading "http" becomes "ws": "http://" turns into "ws://" and "https://" into "wss://". */
  lemma WsUrlRewritesHttp(rest: string)
    ensures WsUrl("http" + rest) == "ws" + rest
  {
    var u := "http" + rest;
    assert u[..4] == "http";
    assert u[4..] == rest;
  }

  /** Any other address is left as it is. */
  lemma WsUrlKeepsOthers(url: string)
    requires !("http" <= url)
    ensures WsUrl(url) == url
  {
  }

  /** A parsed stream message: its `type` and its `data`, `None` when the data is falsy. */
  datatype StreamMessage = StreamMessage(kind: string, data: Option<StatsResponse>)

  datatype ReadyState = Connecting | Open | Closing | Closed

  /** The socket reference: empty, or the current socket in some ready state. */
  datatype SocketRef = NoSocket | Socket(state: ReadyState)

  datatype StreamEvent =
    | Connect(created: bool)          // `connect()`; `created` is false when the constructor throws
    | SocketOpened                    // `onopen` of the current socket
    | SocketClosed                    // `onclose` of the socket last connected
    | TimerFired(created: bool)       // the reconnect timer runs `connect()`
    | Received(parsed: Option<StreamMessage>)  // `onmessage`; `None` when the payload is not JSON
    | Disconnect                      // `disconnect()`
    | Send(data: string)              // `send(data)`, data already serialised

  datatype StreamState = StreamState(
    isConnected: bool, reconnectAttempts: nat, timerPending: bool,
    socket: SocketRef, sent: seq<string>, delivered: seq<StreamMessage>)

  const InitialStream := StreamState(false, 0, false, NoSocket, [], [])

  /** The counter never passes the maximum, and a pending timer has an attempt left. */
  predicate StreamValid(maxAttempts: nat, s: StreamState) {
    s.reconnectAttempts <= maxAttempts && (s.timerPending ==> s.reconnectAttempts < maxAttempts)
  }

  function ConnectStep(s: StreamState, created: bool): StreamState {
    if created then s.(socket := Socket(Connecting)) else s
  }

  /** The effect of one event on the stream. */
  function Step(maxAttempts: nat, s: StreamState, e: StreamEvent): StreamState {
    match e
    case Connect(created) => ConnectStep(s, created)
    case SocketOpened =>
      if s.socket == Socket(Connecting)
      then s.(isConnected := true, reconnectAttempts := 0, socket := Socket(Open))
      else s
    case SocketClosed =>
      s.(isConnected := false,
         timerPending := s.timerPending || s.reconnectAttempts < maxAttempts,
         socket := if s.socket.Socket? then Socket(Closed) else NoSocket)
    case TimerFired(created) =>
      if s.timerPending
      then ConnectStep(s.(reconnectAttempts := s.reconnectAttempts + 1, timerPending := false), created)
      else s
    case Received(parsed) =>
      if parsed.Some? then s.(delivered := s.delivered + [parsed.value]) else s
    case Disconnect => s.(timerPending := false, socket := NoSocket)
    case Send(data) =>
      if s.socket == Socket(Open) then s.(sent := s.sent + [data]) else s
  }

  function Run(maxAttempts: nat, s: StreamState, events: seq<StreamEvent>): StreamState
    decreases |events|
  {
    if events == [] then s else Run(maxAttempts, Step(maxAttempts, s, events[0]), events[1..])
  }

  /** Opening resets the counter and raises the connected flag. */
  lemma OpenedResets(maxAttempts: nat, s: StreamState)
    requires s.socket == Socket(Connecting)
    ensures var r := Step(maxAttempts, s, SocketOpened);
      r.isConnected && r.reconnectAttempts == 0 && r.socket == Socket(Open) && !r.timerPending == !s.timerPending
  {
  }

  /** Closing lowers the flag; a reconnect is scheduled iff an attempt is left. */
  lemma ClosedSchedulesIff(maxAttempts: nat, s: StreamState)
    requires StreamValid(maxAttempts, s)
    ensures var r := Step(maxAttempts, s, SocketClosed);
      !r.isConnected && (r.timerPending <==> s.reconnectAttempts < maxAttempts)
      && r.reconnectAttempts == s.reconnectAttempts
  {
  }

  /** A firing timer adds exactly one attempt and opens a new socket when it can be created. */
  lemma TimerFiredCounts(maxAttempts: nat, s: StreamState, created: bool)
    requires s.timerPending
    ensures var r := Step(maxAttempts, s, TimerFired(created));
      r.reconnectAttempts == s.reconnectAttempts + 1 && !r.timerPending
      && (created ==> r.socket == Socket(Connecting))
      && (!created ==> r.socket == s.socket)
  {
  }

  /** Every event keeps the attempt counter within the maximum. */
  lemma StepKeepsValid(maxAttempts: nat, s: StreamState, e: StreamEvent)
    requires StreamValid(maxAttempts, s)
    ensures StreamValid(maxAttempts, Step(maxAttempts, s, e))
  {
  }

  lemma {:induction false} RunKeepsValid(maxAttempts: nat, s: StreamState, events: seq<StreamEvent>)
    requires StreamValid(maxAttempts, s)
    ensures StreamValid(maxAttempts, Run(maxAttempts, s, events))
    decreases |events|
  {
    if events != [] {
      StepKeepsValid(maxAttempts, s, events[0]);
      RunKeepsValid(maxAttempts, Step(maxAttempts, s, events[0]), events[1..]);
    }
  }

  /** From the initial state no sequence of events takes the counter past the maximum. */
  lemma AttemptsNeverExceedMax(maxAttempts: nat, events: seq<StreamEvent>)
    ensures Run(maxAttempts, InitialStream, events).reconnectAttempts <= maxAttempts
  {
    RunKeepsValid(maxAttempts, InitialStream, events);
  }

  /** `n` failed reconnect cycles: the socket closes, the timer fires and a new socket is created. */
  function FailedCycles(n: nat): (r: seq<StreamEvent>)
    ensures |r| == 2 * n
  {
    if n == 0 then [] else [SocketClosed, TimerFired(true)] + FailedCycles(n - 1)
  }

  /** After `n` failed cycles the counter stands at `min(attempts + n, max)`: retrying stops at the maximum. */
  lemma {:induction false} FailedCyclesStopAtMax(maxAttempts: nat, s: StreamState, n: nat)
    requires StreamValid(maxAttempts, s)
    decreases n
    ensures var r := Run(maxAttempts, s, FailedCycles(n));
      r.reconnectAttempts == if s.reconnectAttempts + n <= maxAttempts then s.reconnectAttempts + n else maxAttempts
  {
    if n > 0 {
      var cyc := FailedCycles(n);
      var s1 := Step(maxAttempts, s, SocketClosed);
      var s2 := Step(maxAttempts, s1, TimerFired(true));
      assert cyc[0] == SocketClosed && cyc[1..][0] == TimerFired(true);
      assert cyc[1..][1..] == FailedCycles(n - 1);
      assert Run(maxAttempts, s, cyc) == Run(maxAttempts, s2, FailedCycles(n - 1));
      StepKeepsValid(maxAttempts, s, SocketClosed);
      StepKeepsValid(maxAttempts, s1, TimerFired(true));
      FailedCyclesStopAtMax(maxAttempts, s2, n - 1);
    }
  }

  /** A payload that is not JSON is dropped with no effect at all. */
  lemma UnparsableMessageDropped(maxAttempts: nat, s: StreamState)
    ensures Step(maxAttempts, s, Received(None)) == s
  {
  }

  /** A parsed message is handed on once, and connection state is unchanged. */
  lemma ParsedMessageDelivered(maxAttempts: nat, s: StreamState, m: StreamMessage)
    ensures var r := Step(maxAttempts, s, Received(Some(m)));
      r.delivered == s.delivered + [m] && r.(delivered := s.delivered) == s
  {
  }

  /** `disconnect` cancels the timer and drops the socket; doing it twice is the same as once. */
  lemma DisconnectIdempotent(maxAttempts: nat, s: StreamState)
    ensures var r := Step(maxAttempts, s, Disconnect);
      !r.timerPending && r.socket == NoSocket
      && Step(maxAttempts, r, Disconnect) == r
      && r.reconnectAttempts == s.reconnectAttempts && r.isConnected == s.isConnected
  {
  }

  /** Data is transmitted only through an open socket. */
  lemma SendOnlyWhenOpen(maxAttempts: nat, s: StreamState, data: string)
    ensures var r := Step(maxAttempts, s, Send(data));
      (s.socket == Socket(Open) ==> r.sent == s.sent + [data])
      && (s.socket != Socket(Open) ==> r == s)
  {
  }

  /**
   * The close event that `disconnect` itself provokes still runs the close
   * handler, which schedules a reconnect while attempts are left; when that
   * timer fires a new socket is opened.
   */
  lemma CloseAfterDisconnectReconnects(maxAttempts: nat, s: StreamState)
    requires s.reconnectAttempts < maxAttempts
    ensures var r := Run(maxAttempts, s, [Disconnect, SocketClosed, TimerFired(true)]);
      r.socket == Socket(Connecting) && r.reconnectAttempts == s.reconnectAttempts + 1
  {
    var evs := [Disconnect, SocketClosed, TimerFired(true)];
    assert evs[1..] == [SocketClosed, TimerFired(true)];
    assert evs[1..][1..] == [TimerFired(true)];
    assert evs[1..][1..][1..] == [];
  }

  /**
   * The intended teardown: `disconnect` detaches the close handler of the
   * socket it closes, so that socket's close event schedules nothing. A
   * socket created afterwards comes with its own handlers again.
   */
  datatype TeardownState = TeardownState(stream: StreamState, detached: bool)

  function TeardownStep(maxAttempts: nat, t: TeardownState, e: StreamEvent): TeardownState {
    match e
    case Disconnect => TeardownState(Step(maxAttempts, t.stream, e), true)
    case SocketClosed => if t.detached then t else TeardownState(Step(maxAttempts, t.stream, e), false)
    case _ =>
      var r := Step(maxAttempts, t.stream, e);
      TeardownState(r, t.detached && r.socket == t.stream.socket)
  }

  function TeardownRun(maxAttempts: nat, t: TeardownState, events: seq<StreamEvent>): TeardownState
    decreases |events|
  {
    if events == [] then t else TeardownRun(maxAttempts, TeardownStep(maxAttempts, t, events[0]), events[1..])
  }

  /** Where `disconnect` is not involved, the intended machine is the one written. */
  lemma TeardownStepAttached(maxAttempts: nat, s: StreamState, e: StreamEvent)
    requires !e.Disconnect?
    ensures TeardownStep(maxAttempts, TeardownState(s, false), e) == TeardownState(Step(maxAttempts, s, e), false)
  {
  }

  /**
   * After `disconnect`, no sequence of events that does not call `connect`
   * again brings back a socket or a pending reconnect timer, and the attempt
   * counter stays where it was.
   */
  lemma {:induction false} DisconnectLeavesNothing(maxAttempts: nat, s: StreamState, events: seq<StreamEvent>)
    requires forall k :: 0 <= k < |events| ==> !events[k].Connect?
    ensures var r := TeardownRun(maxAttempts, TeardownStep(maxAttempts, TeardownState(s, false), Disconnect), events).stream;
      r.socket == NoSocket && !r.timerPending && r.reconnectAttempts == s.reconnectAttempts
  {
    var t := TeardownStep(maxAttempts, TeardownState(s, false), Disconnect);
    QuietAfterDisconnect(maxAttempts, t, events);
  }

  lemma {:induction false} QuietAfterDisconnect(maxAttempts: nat, t: TeardownState, events: seq<StreamEvent>)
    requires t.detached && t.stream.socket == NoSocket && !t.stream.timerPending
    requires forall k :: 0 <= k < |events| ==> !events[k].Connect?
    ensures var r := TeardownRun(maxAttempts, t, events);
      r.detached && r.stream.socket == NoSocket && !r.stream.timerPending
      && r.stream.reconnectAttempts == t.stream.reconnectAttempts
    decreases |events|
  {
    if events != [] {
      var t1 := TeardownStep(maxAttempts, t, events[0]);
      assert t1.detached && t1.stream.socket == NoSocket && !t1.stream.timerPending;
      assert forall k :: 0 <= k < |events[1..]| ==> !events[1..][k].Connect? by {
        forall k | 0 <= k < |events[1..]| ensures !events[1..][k].Connect? {
          assert events[1..][k] == events[k + 1];
        }
      }
      QuietAfterDisconnect(maxAttempts, t1, events[1..]);
    }
  }

  /** The events that reopen a socket as written leave the intended machine without one. */
  lemma DetachedCloseStaysDown(maxAttempts: nat, s: StreamState)
    ensures var r := TeardownRun(maxAttempts, TeardownState(s, false), [Disconnect, SocketClosed, TimerFired(true)]).stream;
      r.socket == NoSocket && !r.timerPending && r.reconnectAttempts == s.reconnectAttempts
  {
    var evs := [Disconnect, SocketClosed, TimerFired(true)];
    assert evs[1..] == [SocketClosed, TimerFired(true)];
    assert evs[1..][1..] == [TimerFired(true)];
    assert evs[1..][1..][1..] == [];
  }

  // ---------------------------------------------------------------------------
  // What the two feed hooks built on the stream share

  const PollInterval := 5000

  /** The stream address built from the page's protocol and host. */
  function StatsStreamUrl(protocol: string, host: string): string {
    protocol + "//" + host + "/api/ws/stats"
  }

  /** Opened from a page served over "http:" the stream uses "ws:", from one served over "https:" it uses "wss:". */
  lemma StatsStreamUrlScheme(host: string)
    ensures WsUrl(StatsStreamUrl("http:", host)) == "ws://" + host + "/api/ws/stats"
    ensures WsUrl(StatsStreamUrl("https:", host)) == "wss://" + host + "/api/ws/stats"
  {
    WsUrlRewritesHttp(":" + "//" + host + "/api/ws/stats");
    WsUrlRewritesHttp("s:" + "//" + host + "/api/ws/stats");
    assert StatsStreamUrl("http:", host) == "http" + (":" + "//" + host + "/api/ws/stats");
    assert StatsStreamUrl("https:", host) == "http" + ("s:" + "//" + host + "/api/ws/stats");
  }

  datatype FeedEvent =
    | Mount(created: bool)          // the stream connects, the first fetch starts, the poll effect runs
    | Stream(e: StreamEvent)        // an event of the live stream
    | FetchOk(stats: StatsResponse) // the pending fetch answered with a snapshot
    | FetchFail                     // the pending fetch failed
    | PollTick                      // the fallback interval fired
    | Refetch                       // `refetch()`
    | Unmount

  /** Whether a stream message carries a snapshot a feed applies: a `stats_update` with truthy data. */
  predicate IsSnapshot(m: StreamMessage) {
    m.kind == "stats_update" && m.data.Some?
  }

  /** The hook instance: its state, and one method per handler. */
  class LiveStream {
    const url: string
    const reconnectInterval: int
    const maxReconnectAttempts: nat
    var isConnected: bool
    var reconnectAttempts: nat
    var timerPending: bool
    var socket: SocketRef
    var sent: seq<string>
    var delivered: seq<StreamMessage>

    function State(): StreamState
      reads this
    {
      StreamState(isConnected, reconnectAttempts, timerPending, socket, sent, delivered)
    }

    ghost predicate Valid()
      reads this
    {
      StreamValid(maxReconnectAttempts, State())
    }

    /** The hook's initial state; mounting then calls `Connect`. */
    constructor (url: string, reconnectInterval: int, maxReconnectAttempts: nat)
      ensures this.url == url && this.reconnectInterval == reconnectInterval
      ensures this.maxReconnectAttempts == maxReconnectAttempts
      ensures State() == InitialStream && Valid()
    {
      this.url := url;
      this.reconnectInterval := reconnectInterval;
      this.maxReconnectAttempts := maxReconnectAttempts;
      isConnected := false;
      reconnectAttempts := 0;
      timerPending := false;
      socket := NoSocket;
      sent := [];
      delivered := [];
    }

    /** The address the socket is opened on. */
    function SocketUrl(): string
      reads this
    {
      WsUrl(url)
    }

    method Connect(created: bool)
      requires Valid()
      modifies this
      ensures State() == Step(maxReconnectAttempts, old(State()), StreamEvent.Connect(created)) && Valid()
    {
      if created {
        socket := Socket(Connecting);
      }
    }

    method OnOpen()
      requires Valid()
      modifies this
      ensures State() == Step(maxReconnectAttempts, old(State()), SocketOpened) && Valid()
    {
      if socket == Socket(Connecting) {
        isConnected := true;
        reconnectAttempts := 0;
        socket := Socket(Open);
      }
    }

    method OnClose()
      requires Valid()
      modifies this
      ensures State() == Step(maxReconnectAttempts, old(State()), SocketClosed) && Valid()
    {
      isConnected := false;
      if reconnectAttempts < maxReconnectAttempts {
        timerPending := true;
      }
      if socket.Socket? {
        socket := Socket(Closed);
      }
    }

    method OnReconnectTimer(created: bool)
      requires Valid()
      modifies this
      ensures State() == Step(maxReconnectAttempts, old(State()), TimerFired(created)) && Valid()
    {
      if timerPending {
        reconnectAttempts := reconnectAttempts + 1;
        timerPending := false;
        Connect(created);
      }
    }

    method OnMessage(parsed: Option<StreamMessage>)
      requires Valid()
      modifies this
      ensures State() == Step(maxReconnectAttempts, old(State()), Received(parsed)) && Valid()
    {
      if parsed.Some? {
        delivered := delivered + [parsed.value];
      }
    }

    method Disconnect()
      requires Valid()
      modifies this
      ensures State() == Step(maxReconnectAttempts, old(State()), StreamEvent.Disconnect) && Valid()
    {
      timerPending := false;
      if socket.Socket? {
        socket := NoSocket;
      }
    }

    method Send(data: string)
      requires Valid()
      modifies this
      ensures State() == Step(maxReconnectAttempts, old(State()), StreamEvent.Send(data)) && Valid()
    {
      if socket == Socket(Open) {
        sent := sent + [data];
      }
    }
  }
}
