/**
 * The lobby feed hook: holds the lobby and waiting-room lists, fed by an
 * initial fetch of the statistics endpoint, by `stats_update` messages of the
 * live stream, and by a 5000 ms polling fallback that runs exactly while the
 * stream is not connected.
 */
module LobbiesFeed {
  import opened Text
  import opened DataTransformers
  import opened WebSocket

  const LobbiesError := "Error al cargar los lobbies"

  datatype LobbiesState = LobbiesState(
    stream: StreamState, lobbies: seq<Lobby>, waitingRooms: seq<WaitingRoom>,
    loading: bool, error: Option<string>, pollActive: bool, fetchesIssued: nat, mounted: bool)

  const InitialLobbies := LobbiesState(InitialStream, [], [], true, None, false, 0, false)

  /** Both lists are derived from one snapshot. */
  ghost predicate FromOneSnapshot(s: LobbiesState) {
    exists stats: StatsResponse ::
      s.lobbies == TransformStatsToLobbies(stats) && s.waitingRooms == WaitingRoomsOf(stats.lobbies)
  }

  /** The polling interval exists exactly while the feed is mounted and the stream is down. */
  predicate LobbiesValid(maxAttempts: nat, s: LobbiesState) {
    StreamValid(maxAttempts, s.stream) && s.pollActive == (s.mounted && !s.stream.isConnected)
  }

  function Apply(s: LobbiesState, stats: StatsResponse): LobbiesState {
    s.(lobbies := TransformStatsToLobbies(stats), waitingRooms := WaitingRoomsOf(stats.lobbies))
  }

  function FetchStart(s: LobbiesState): LobbiesState {
    s.(loading := true, error := None, fetchesIssued := s.fetchesIssued + 1)
  }

  function Gate(s: LobbiesState): LobbiesState {
    s.(pollActive := s.mounted && !s.stream.isConnected)
  }

  function LobbiesStep(maxAttempts: nat, s: LobbiesState, ev: FeedEvent): LobbiesState {
    match ev
    case Mount(created) =>
      Gate(FetchStart(s.(mounted := true, stream := Step(maxAttempts, s.stream, Connect(created)))))
    case Stream(e) =>
      var t := s.(stream := Step(maxAttempts, s.stream, e));
      var u := if e.Received? && e.parsed.Some? && IsSnapshot(e.parsed.value) then Apply(t, e.parsed.value.data.value) else t;
      Gate(u)
    case FetchOk(stats) => Apply(s, stats).(loading := false)
    case FetchFail => s.(error := Some(LobbiesError), loading := false)
    case PollTick => if s.pollActive then FetchStart(s) else s
    case Refetch => FetchStart(s)
    case Unmount => s.(mounted := false, pollActive := false, stream := Step(maxAttempts, s.stream, Disconnect))
  }

  function LobbiesRun(maxAttempts: nat, s: LobbiesState, evs: seq<FeedEvent>): LobbiesState
    decreases |evs|
  {
    if evs == [] then s else LobbiesRun(maxAttempts, LobbiesStep(maxAttempts, s, evs[0]), evs[1..])
  }

  /** Mounting issues exactly one fetch, which starts loading with no error. */
  lemma MountFetchesOnce(maxAttempts: nat, created: bool)
    ensures var r := LobbiesStep(maxAttempts, InitialLobbies, Mount(created));
      r.fetchesIssued == 1 && r.loading && r.error == None && r.mounted
      && r.pollActive && LobbiesValid(maxAttempts, r)
  {
  }

  /** Every event keeps the polling gate tied to the connection flag. */
  lemma LobbiesStepKeepsValid(maxAttempts: nat, s: LobbiesState, ev: FeedEvent)
    requires LobbiesValid(maxAttempts, s)
    ensures LobbiesValid(maxAttempts, LobbiesStep(maxAttempts, s, ev))
  {
    match ev
    case Stream(e) => StepKeepsValid(maxAttempts, s.stream, e);
    case Mount(created) => StepKeepsValid(maxAttempts, s.stream, Connect(created));
    case Unmount => StepKeepsValid(maxAttempts, s.stream, Disconnect);
    case _ =>
  }

  /** From the initial state, polling runs exactly while mounted and disconnected, after any events. */
  lemma {:induction false} PollOnlyWhileDisconnected(maxAttempts: nat, s: LobbiesState, evs: seq<FeedEvent>)
    requires LobbiesValid(maxAttempts, s)
    ensures var r := LobbiesRun(maxAttempts, s, evs);
      (r.pollActive <==> r.mounted && !r.stream.isConnected) && r.stream.reconnectAttempts <= maxAttempts
    decreases |evs|
  {
    if evs != [] {
      LobbiesStepKeepsValid(maxAttempts, s, evs[0]);
      PollOnlyWhileDisconnected(maxAttempts, LobbiesStep(maxAttempts, s, evs[0]), evs[1..]);
    }
  }

  /** Only `stats_update` messages with data touch the lists, and then both come from that snapshot. */
  lemma MessagesFilter(maxAttempts: nat, s: LobbiesState, m: StreamMessage)
    ensures var r := LobbiesStep(maxAttempts, s, Stream(Received(Some(m))));
      && (IsSnapshot(m) ==> r.lobbies == TransformStatsToLobbies(m.data.value)
                            && r.waitingRooms == WaitingRoomsOf(m.data.value.lobbies))
      && (!IsSnapshot(m) ==> r.lobbies == s.lobbies && r.waitingRooms == s.waitingRooms)
      && r.loading == s.loading && r.error == s.error
  {
  }

  /** A failed fetch reports the error and keeps the lists it held. */
  lemma FetchFailKeepsLists(maxAttempts: nat, s: LobbiesState)
    ensures var r := LobbiesStep(maxAttempts, s, FetchFail);
      r.error == Some(LobbiesError) && !r.loading
      && r.lobbies == s.lobbies && r.waitingRooms == s.waitingRooms
  {
  }

  /** Polling fetches only while the interval exists. */
  lemma PollTickFetchesIff(maxAttempts: nat, s: LobbiesState)
    ensures var r := LobbiesStep(maxAttempts, s, PollTick);
      (r.fetchesIssued == s.fetchesIssued + 1 <==> s.pollActive)
      && (!s.pollActive ==> r == s)
  {
  }

  /** The lobby list and the room list always come from one and the same snapshot. */
  lemma LobbiesStepOneSnapshot(maxAttempts: nat, s: LobbiesState, ev: FeedEvent)
    requires FromOneSnapshot(s)
    ensures FromOneSnapshot(LobbiesStep(maxAttempts, s, ev))
  {
    var r := LobbiesStep(maxAttempts, s, ev);
    if ev.FetchOk? {
      assert r.lobbies == TransformStatsToLobbies(ev.stats) && r.waitingRooms == WaitingRoomsOf(ev.stats.lobbies);
    } else if ev.Stream? && ev.e.Received? && ev.e.parsed.Some? && IsSnapshot(ev.e.parsed.value) {
      var stats := ev.e.parsed.value.data.value;
      assert r.lobbies == TransformStatsToLobbies(stats) && r.waitingRooms == WaitingRoomsOf(stats.lobbies);
    } else {
      assert r.lobbies == s.lobbies && r.waitingRooms == s.waitingRooms;
    }
  }

  lemma InitialOneSnapshot()
    ensures FromOneSnapshot(InitialLobbies)
  {
    var empty := StatsResponse(0, []);
    assert InitialLobbies.lobbies == TransformStatsToLobbies(empty);
    assert InitialLobbies.waitingRooms == WaitingRoomsOf(empty.lobbies);
  }

  /** The hook instance, with the stream it opened. */
  class LobbiesFeedHook {
    const stream: LiveStream
    var lobbies: seq<Lobby>
    var waitingRooms: seq<WaitingRoom>
    var loading: bool
    var error: Option<string>
    var pollActive: bool
    var fetchesIssued: nat
    var mounted: bool

    function State(): LobbiesState
      reads this, stream
    {
      LobbiesState(stream.State(), lobbies, waitingRooms, loading, error, pollActive, fetchesIssued, mounted)
    }

    ghost predicate Valid()
      reads this, stream
    {
      stream.Valid() && LobbiesValid(stream.maxReconnectAttempts, State())
    }

    constructor (protocol: string, host: string)
      ensures fresh(stream) && stream.url == StatsStreamUrl(protocol, host)
      ensures stream.reconnectInterval == DefaultReconnectInterval
      ensures stream.maxReconnectAttempts == DefaultMaxReconnectAttempts
      ensures State() == InitialLobbies && Valid()
    {
      stream := new LiveStream(StatsStreamUrl(protocol, host), DefaultReconnectInterval, DefaultMaxReconnectAttempts);
      lobbies := [];
      waitingRooms := [];
      loading := true;
      error := None;
      pollActive := false;
      fetchesIssued := 0;
      mounted := false;
    }

    method StartFetch()
      modifies this
      ensures State() == FetchStart(old(State()))
    {
      loading := true;
      error := None;
      fetchesIssued := fetchesIssued + 1;
    }

    /** The poll effect: install the interval while disconnected, clear it otherwise. */
    method SyncPolling()
      requires stream.Valid()
      modifies this
      ensures State() == Gate(old(State())) && Valid()
    {
      pollActive := mounted && !stream.isConnected;
    }

    method ApplySnapshot(stats: StatsResponse)
      requires Valid()
      modifies this
      ensures State() == Apply(old(State()), stats) && Valid()
    {
      lobbies := TransformStatsToLobbies(stats);
      waitingRooms := TransformStatsToWaitingRooms(stats);
    }

    method Mount(created: bool)
      requires Valid()
      modifies this, stream
      ensures State() == LobbiesStep(stream.maxReconnectAttempts, old(State()), FeedEvent.Mount(created)) && Valid()
    {
      mounted := true;
      stream.Connect(created);
      StartFetch();
      SyncPolling();
    }

    method OnStreamEvent(e: StreamEvent)
      requires Valid()
      modifies this, stream
      ensures State() == LobbiesStep(stream.maxReconnectAttempts, old(State()), Stream(e)) && Valid()
    {
      match e {
        case Connect(created) => stream.Connect(created);
        case SocketOpened => stream.OnOpen();
        case SocketClosed => stream.OnClose();
        case TimerFired(created) => stream.OnReconnectTimer(created);
        case Received(parsed) =>
          stream.OnMessage(parsed);
          if parsed.Some? && parsed.value.kind == "stats_update" && parsed.value.data.Some? {
            ApplySnapshot(parsed.value.data.value);
          }
        case Disconnect => stream.Disconnect();
        case Send(data) => stream.Send(data);
      }
      SyncPolling();
    }

    method OnFetchOk(stats: StatsResponse)
      requires Valid()
      modifies this
      ensures State() == LobbiesStep(stream.maxReconnectAttempts, old(State()), FetchOk(stats)) && Valid()
    {
      ApplySnapshot(stats);
      loading := false;
    }

    method OnFetchFail()
      requires Valid()
      modifies this
      ensures State() == LobbiesStep(stream.maxReconnectAttempts, old(State()), FetchFail) && Valid()
    {
      error := Some(LobbiesError);
      loading := false;
    }

    method OnPollTick()
      requires Valid()
      modifies this
      ensures State() == LobbiesStep(stream.maxReconnectAttempts, old(State()), PollTick) && Valid()
    {
      if pollActive {
        StartFetch();
      }
    }

    method Refetch()
      requires Valid()
      modifies this
      ensures State() == LobbiesStep(stream.maxReconnectAttempts, old(State()), FeedEvent.Refetch) && Valid()
    {
      StartFetch();
    }

    method Unmount()
      requires Valid()
      modifies this, stream
      ensures State() == LobbiesStep(stream.maxReconnectAttempts, old(State()), FeedEvent.Unmount) && Valid()
    {
      stream.Disconnect();
      mounted := false;
      pollActive := false;
    }
  }
}
