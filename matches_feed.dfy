/**
 * The live-match feed hook: holds the match list, fed like the lobby feed by
 * an initial fetch, by `stats_update` messages of the live stream and by a
 * 5000 ms polling fallback that runs exactly while the stream is down.
 */
module MatchesFeed {
  import opened Text
  import opened DataTransformers
  import opened WebSocket

  const MatchesError := "Error al cargar los partidos"

  datatype MatchesState = MatchesState(
    stream: StreamState, matches: seq<Match>,
    loading: bool, error: Option<string>, pollActive: bool, fetchesIssued: nat, mounted: bool)

  const InitialMatches := MatchesState(InitialStream, [], true, None, false, 0, false)

  /** The polling interval exists exactly while the feed is mounted and the stream is down. */
  predicate MatchesValid(maxAttempts: nat, s: MatchesState) {
    StreamValid(maxAttempts, s.stream) && s.pollActive == (s.mounted && !s.stream.isConnected)
  }

  function Apply(s: MatchesState, stats: StatsResponse): MatchesState {
    s.(matches := LiveMatchesOf(stats.lobbies))
  }

  function FetchStart(s: MatchesState): MatchesState {
    s.(loading := true, error := None, fetchesIssued := s.fetchesIssued + 1)
  }

  function Gate(s: MatchesState): MatchesState {
    s.(pollActive := s.mounted && !s.stream.isConnected)
  }

  function MatchesStep(maxAttempts: nat, s: MatchesState, ev: FeedEvent): MatchesState {
    match ev
    case Mount(created) =>
      Gate(FetchStart(s.(mounted := true, stream := Step(maxAttempts, s.stream, Connect(created)))))
    case Stream(e) =>
      var t := s.(stream := Step(maxAttempts, s.stream, e));
      var u := if e.Received? && e.parsed.Some? && IsSnapshot(e.parsed.value) then Apply(t, e.parsed.value.data.value) else t;
      Gate(u)
    case FetchOk(stats) => Apply(s, stats).(loading := false)
    case FetchFail => s.(error := Some(MatchesError), loading := false)
    case PollTick => if s.pollActive then FetchStart(s) else s
    case Refetch => FetchStart(s)
    case Unmount => s.(mounted := false, pollActive := false, stream := Step(maxAttempts, s.stream, Disconnect))
  }

  function MatchesRun(maxAttempts: nat, s: MatchesState, evs: seq<FeedEvent>): MatchesState
    decreases |evs|
  {
    if evs == [] then s else MatchesRun(maxAttempts, MatchesStep(maxAttempts, s, evs[0]), evs[1..])
  }

  /** Mounting issues exactly one fetch, which starts loading with no error. */
  lemma MountFetchesOnce(maxAttempts: nat, created: bool)
    ensures var r := MatchesStep(maxAttempts, InitialMatches, Mount(created));
      r.fetchesIssued == 1 && r.loading && r.error == None && r.mounted
      && r.pollActive && MatchesValid(maxAttempts, r)
  {
  }

  /** Every event keeps the polling gate tied to the connection flag. */
  lemma MatchesStepKeepsValid(maxAttempts: nat, s: MatchesState, ev: FeedEvent)
    requires MatchesValid(maxAttempts, s)
    ensures MatchesValid(maxAttempts, MatchesStep(maxAttempts, s, ev))
  {
    match ev
    case Stream(e) => StepKeepsValid(maxAttempts, s.stream, e);
    case Mount(created) => StepKeepsValid(maxAttempts, s.stream, Connect(created));
    case Unmount => StepKeepsValid(maxAttempts, s.stream, Disconnect);
    case _ =>
  }

  /** From the initial state, polling runs exactly while mounted and disconnected, after any events. */
  lemma {:induction false} PollOnlyWhileDisconnected(maxAttempts: nat, s: MatchesState, evs: seq<FeedEvent>)
    requires MatchesValid(maxAttempts, s)
    ensures var r := MatchesRun(maxAttempts, s, evs);
      (r.pollActive <==> r.mounted && !r.stream.isConnected) && r.stream.reconnectAttempts <= maxAttempts
    decreases |evs|
  {
    if evs != [] {
      MatchesStepKeepsValid(maxAttempts, s, evs[0]);
      PollOnlyWhileDisconnected(maxAttempts, MatchesStep(maxAttempts, s, evs[0]), evs[1..]);
    }
  }

  /** Only `stats_update` messages with data replace the match list. */
  lemma MessagesFilter(maxAttempts: nat, s: MatchesState, m: StreamMessage)
    ensures var r := MatchesStep(maxAttempts, s, Stream(Received(Some(m))));
      && (IsSnapshot(m) ==> r.matches == LiveMatchesOf(m.data.value.lobbies))
      && (!IsSnapshot(m) ==> r.matches == s.matches)
      && r.loading == s.loading && r.error == s.error
  {
  }

  /** A failed fetch reports the error and keeps the matches it held. */
  lemma FetchFailKeepsMatches(maxAttempts: nat, s: MatchesState)
    ensures var r := MatchesStep(maxAttempts, s, FetchFail);
      r.error == Some(MatchesError) && !r.loading
      && r.matches == s.matches
  {
  }

  /** Polling fetches only while the interval exists. */
  lemma PollTickFetchesIff(maxAttempts: nat, s: MatchesState)
    ensures var r := MatchesStep(maxAttempts, s, PollTick);
      (r.fetchesIssued == s.fetchesIssued + 1 <==> s.pollActive)
      && (!s.pollActive ==> r == s)
  {
  }

  /** The hook instance, with the stream it opened. */
  class MatchesFeedHook {
    const stream: LiveStream
    var matches: seq<Match>
    var loading: bool
    var error: Option<string>
    var pollActive: bool
    var fetchesIssued: nat
    var mounted: bool

    function State(): MatchesState
      reads this, stream
    {
      MatchesState(stream.State(), matches, loading, error, pollActive, fetchesIssued, mounted)
    }

    ghost predicate Valid()
      reads this, stream
    {
      stream.Valid() && MatchesValid(stream.maxReconnectAttempts, State())
    }

    constructor (protocol: string, host: string)
      ensures fresh(stream) && stream.url == StatsStreamUrl(protocol, host)
      ensures stream.reconnectInterval == DefaultReconnectInterval
      ensures stream.maxReconnectAttempts == DefaultMaxReconnectAttempts
      ensures State() == InitialMatches && Valid()
    {
      stream := new LiveStream(StatsStreamUrl(protocol, host), DefaultReconnectInterval, DefaultMaxReconnectAttempts);
      matches := [];
      loading := true;
      error := None;
      pollActive := false;
      fetchesIssued := 0;
      mounted := false;
    }

    method StartFetch()
      modifies this
      ensures State() == FetchStart(old(State()))
    {
      loading := true;
      error := None;
      fetchesIssued := fetchesIssued + 1;
    }

    /** The poll effect: install the interval while disconnected, clear it otherwise. */
    method SyncPolling()
      requires stream.Valid()
      modifies this
      ensures State() == Gate(old(State())) && Valid()
    {
      pollActive := mounted && !stream.isConnected;
    }

    method ApplySnapshot(stats: StatsResponse)
      requires Valid()
      modifies this
      ensures State() == Apply(old(State()), stats) && Valid()
    {
      matches := TransformStatsToMatches(stats);
    }

    method Mount(created: bool)
      requires Valid()
      modifies this, stream
      ensures State() == MatchesStep(stream.maxReconnectAttempts, old(State()), FeedEvent.Mount(created)) && Valid()
    {
      mounted := true;
      stream.Connect(created);
      StartFetch();
      SyncPolling();
    }

    method OnStreamEvent(e: StreamEvent)
      requires Valid()
      modifies this, stream
      ensures State() == MatchesStep(stream.maxReconnectAttempts, old(State()), Stream(e)) && Valid()
    {
      match e {
        case Connect(created) => stream.Connect(created);
        case SocketOpened => stream.OnOpen();
        case SocketClosed => stream.OnClose();
        case TimerFired(created) => stream.OnReconnectTimer(created);
        case Received(parsed) =>
          stream.OnMessage(parsed);
          if parsed.Some? && parsed.value.kind == "stats_update" && parsed.value.data.Some? {
            ApplySnapshot(parsed.value.data.value);
          }
        case Disconnect => stream.Disconnect();
        case Send(data) => stream.Send(data);
      }
      SyncPolling();
    }

    method OnFetchOk(stats: StatsResponse)
      requires Valid()
      modifies this
      ensures State() == MatchesStep(stream.maxReconnectAttempts, old(State()), FetchOk(stats)) && Valid()
    {
      ApplySnapshot(stats);
      loading := false;
    }

    method OnFetchFail()
      requires Valid()
      modifies this
      ensures State() == MatchesStep(stream.maxReconnectAttempts, old(State()), FetchFail) && Valid()
    {
      error := Some(MatchesError);
      loading := false;
    }

    method OnPollTick()
      requires Valid()
      modifies this
      ensures State() == MatchesStep(stream.maxReconnectAttempts, old(State()), PollTick) && Valid()
    {
      if pollActive {
        StartFetch();
      }
    }

    method Refetch()
      requires Valid()
      modifies this
      ensures State() == MatchesStep(stream.maxReconnectAttempts, old(State()), FeedEvent.Refetch) && Valid()
    {
      StartFetch();
    }

    method Unmount()
      requires Valid()
      modifies this, stream
      ensures State() == MatchesStep(stream.maxReconnectAttempts, old(State()), FeedEvent.Unmount) && Valid()
    {
      stream.Disconnect();
      mounted := false;
      pollActive := false;
    }
  }
}
