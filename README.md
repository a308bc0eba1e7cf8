# A verified model of the server-dashboard rules of a PES6 community server

The system is a community server for Pro Evolution Soccer 6. Its Twisted
admin backend (`fiveserver`) serves statistics, user administration, the ban
list, announcements and the server log over HTTP. A React front end shows
the live lobbies, waiting rooms and matches. It also lets players register
and manage their session, and gives administrators an editing panel. Two
Python scripts complete it: one resets a password hash, and one rewrites the
YAML configuration at start-up.

This project models the rules of that system that are more than rendering
or glue, one Dafny module per source file:

| module | file | what it covers |
|---|---|---|
| `DataTransformers` | `data_transformers.dfy` | JavaScript `parseInt` prefix parsing, `parseScore`, `parseMinute`, `detectRegion`, and the three folds from a statistics snapshot to the lobby, waiting-room and live-match lists (the two nested loops as methods proved against the folds) |
| `WebSocket` | `web_socket.dfy` | the live-stream hook as a class: connected flag, attempt counter, one reconnect timer, the `http`→`ws` URL rewrite, message parsing, `disconnect` and `send` |
| `LobbiesFeed`, `MatchesFeed` | `lobbies_feed.dfy`, `matches_feed.dfy` | the two feed hooks as classes: the fetch on mount, `stats_update` messages, and the polling fallback that exists exactly while the stream is down |
| `Session` | `session.dfy` | the authentication context as a class over a key-to-string storage map: the administrator and player slots, login only on success, the two logouts, and the restore of a stored player token |
| `RegisterForm` | `register_form.dfy` | serial and user-name normalisation, the ordered checks, the string that is hashed, the nonce scraped from the registration page, and the classification of the answer |
| `RegisterPage` | `register_page.dfy` | the standalone page's check order, its NUL padding of the serial and its placeholder 32-bit rolling digest |
| `ResetPass` | `reset_pass.dfy` | serial cleaning, NUL padding to 36 and the pre-hash string of the reset script, which the server also uses to verify a login |
| `AnnouncementBanner` | `announcement_banner.dfy` | the active, revealed and dismissed announcements and the dismissed list persisted in storage |
| `AdminPanel` | `admin_panel.dfy` | lobby normalisation, update and delete, division lists typed as text, pagination, the search filters, the ban guard, and the log lines and alerts |
| `Account`, `MatchHistory` | `account.dfy`, `match_history.dfy` | the derived profile figures and the match-history summary |
| `AdminServer` | `admin_server.dfy` | the Basic-auth gate, the log-length clamps, the posted settings, the ban list and announcement list updated in place, the `favPlayer` bit fields, and the password check of the account resource |
| `UpdateConfig` | `update_config.dfy` | the dotted-path update of the nested YAML map, with its creation rule and `changed` flag |
| `Text` | `text.dfy` | the string primitives the other modules share: JavaScript and Python whitespace, trim and strip, `split`/`join`, ASCII case mapping, `includes`, and decimal and hexadecimal printing |

State that the source updates in place is a class whose methods are proved
against pure step functions. The step functions carry the properties as
lemmas: what each event does, what it leaves alone, the invariants it keeps
and the round trips it completes. Where the source loops, the model loops
too, and each loop is proved against the function that specifies it. The one
exception is the inner key walk of `update_config.py` (`for k in keys[:-1]`,
backend/update_config.py:22-25), which is the recursive `UpdateConfig.SetPath`.

Two places disagree with the text that describes them:

- the front end reads a credential as present by JavaScript truthiness (`!!token`, frontend/src/context/AuthContext.tsx:139-143), so an empty token counts as logged out. `Session.IsAuthenticated` follows the code;
- the log resource's text answer first caps the count by the file's length and then clamps it to 10..5000 (backend/lib/fiveserver/admin.py:812-813). A file shorter than ten lines is therefore shown whole under a header that says ten. `AdminServer.TextLogHeader` states what the code does.

## Model

Every definition that models the source has a row, and so does every contract about one. The members without a row have no counterpart in the source. They are:
- the string and sequence primitives of `Text`;
- the counting and folding helpers that proofs use (`FlatMap`, `LengthBefore`, `RoomsBefore`, `MatchesBefore`, `FailedCycles`, `Run`, `TeardownRun`, `LobbiesRun`, `MatchesRun`, and the lemmas about them);
- the vocabulary of lemma statements (`AdminServer.Distinct`, `UpdateConfig.Diverge`, `InPlace`, `Independent`, `AdminPanel.Username`, `Entry`);
- small helper lemmas (`MulMonotone`, `UnionSize`, `ModAddMultiple`, `RemoveAllKeepsAvoiding`, `RemoveAllNuls`, `MatchInRun`);
- the classes' `State` and `Valid` views;
- `AdminServer.PostOutcome.Status`, the 400/200 code that the `PostStep` row states.

| member | source | states |
|---|---|---|
| DataTransformers.ParseInt | frontend/src/utils/dataTransformers.ts:91-92 | definition of `parseInt` without a radix: leading white space and one sign skipped, `0x`/`0X` read as hexadecimal, otherwise the longest run of decimal digits, `None` (NaN) when no digit follows; its behaviour is stated by the `ParseInt…` lemmas below |
| DataTransformers.ParseUnsigned | frontend/src/utils/dataTransformers.ts:91-92 | definition of the part of `parseInt` after the sign: `0x`/`0X` and hexadecimal digits, or a run of decimal digits, `None` when no digit follows; stated by `ParseUnsignedDecimal` and `ParseUnsignedHex` |
| DataTransformers.ParseUnsignedDecimal | frontend/src/utils/dataTransformers.ts:91-92 | after the sign, a run of decimal digits reads as its decimal value and the text after it is ignored, unless a lone "0" is followed by 'x' |
| DataTransformers.ParseIntUnsigned | frontend/src/utils/dataTransformers.ts:91-92 | text that starts with neither whitespace nor a sign is read without a sign |
| DataTransformers.ParseIntDecimal | frontend/src/utils/dataTransformers.ts:91-92 | `parseInt` reads a leading decimal run and ignores whatever follows a non-digit |
| DataTransformers.ParseUnsignedHex | frontend/src/utils/dataTransformers.ts:91-92 | "0x" followed by hexadecimal digits reads in base 16 |
| DataTransformers.ParseIntHex | frontend/src/utils/dataTransformers.ts:91-92 | `parseInt` reads "0x" followed by hexadecimal digits in base 16 |
| DataTransformers.ParseIntSignedDecimal | frontend/src/utils/dataTransformers.ts:91-92 | a '-' or '+' before decimal digits is read as the sign |
| DataTransformers.ParseIntNaN | frontend/src/utils/dataTransformers.ts:91-92 | text with no digit after the optional sign is NaN |
| DataTransformers.ParseIntDecimalString | frontend/src/utils/dataTransformers.ts:91-92 | a natural number printed in decimal reads back as itself |
| DataTransformers.ParseIntIntString | frontend/src/utils/dataTransformers.ts:91-92 | an integer printed with its sign reads back as itself |
| DataTransformers.ParseIntPlus | frontend/src/utils/dataTransformers.ts:91-92 | a '+' before a decimal number reads back as the number |
| DataTransformers.ParseScore | frontend/src/utils/dataTransformers.ts:87-94 | definition of `parseScore`: split on `-`, the first two pieces read by `parseInt`, NaN or a missing piece read as 0; stated by `ParseScoreRoundTrip`, `ParseScorePair`, `ParseScoreIgnoresTail`, `ParseScoreNoDash` and `ParseScoreNotANumber` |
| DataTransformers.IntOrZero | frontend/src/utils/dataTransformers.ts:91-92 | definition of `parseInt(x) \|\| 0`: NaN falls through to 0; stated through `ParseScoreNotANumber` and `ParseScoreRoundTrip` |
| DataTransformers.ParseScoreRoundTrip | frontend/src/utils/dataTransformers.ts:87-94 | "H-A" printed from natural numbers parses back to {home: H, away: A} |
| DataTransformers.ParseScorePair | frontend/src/utils/dataTransformers.ts:88-94 | text with exactly one '-' is read as its two sides, NaN counting as 0 |
| DataTransformers.ParseScoreIgnoresTail | frontend/src/utils/dataTransformers.ts:89-93 | pieces after the second are ignored |
| DataTransformers.ParseScoreNoDash | frontend/src/utils/dataTransformers.ts:89-93 | text without '-' gives away 0 and home read from the whole text |
| DataTransformers.ParseScoreNotANumber | frontend/src/utils/dataTransformers.ts:91-93 | a score text that is not a number reads as 0-0 |
| DataTransformers.ParseMinute | frontend/src/utils/dataTransformers.ts:97-102 | definition of `parseMinute`: a numeric clock as it is, a missing or empty one as 0, a text clock as its first digit run or 0; stated by `ParseMinuteText` and `ParseMinuteNoDigits` |
| DataTransformers.FirstDigitRun | frontend/src/utils/dataTransformers.ts:100 | the match of `/(\d+)/` consists of decimal digits only |
| DataTransformers.ParseMinuteText | frontend/src/utils/dataTransformers.ts:97-102 | text is read at its first run of digits, whatever surrounds it |
| DataTransformers.FirstDigitRunAfter | frontend/src/utils/dataTransformers.ts:100 | the first digit run after a digit-free prefix is the run that follows it |
| DataTransformers.ParseMinuteNoDigits | frontend/src/utils/dataTransformers.ts:99-101 | text without digits gives minute 0 |
| DataTransformers.NoDigitRun | frontend/src/utils/dataTransformers.ts:100 | digit-free text has no digit run |
| DataTransformers.DetectRegion | frontend/src/utils/dataTransformers.ts:105-111 | definition of `detectRegion`: the lower-cased lobby name is tested for `argentina`/`arg`, then `brasil`/`bra`, then `chile`/`chi`, else the general region; stated by `DetectRegionByShortKey` and `DetectRegionIgnoresCase` |
| DataTransformers.DetectRegionByShortKey | frontend/src/utils/dataTransformers.ts:105-111 | the region is AR exactly when the lower-cased name contains "arg", else BR exactly when it contains "bra", else CL exactly when it contains "chi", else General |
| DataTransformers.DetectRegionIgnoresCase | frontend/src/utils/dataTransformers.ts:106 | the region does not depend on the case of ASCII letters |
| DataTransformers.TransformStatsToLobbies | frontend/src/utils/dataTransformers.ts:192-203 | one lobby per snapshot lobby, in order, with id "lobby-i", its name, region and player count, 100 places, and in-game exactly when players are connected |
| DataTransformers.LobbyView | frontend/src/utils/dataTransformers.ts:193-201 | definition of the lobby object: id `lobby-<index>`, the name, its region, in game when it has players, capacity 100; stated by `TransformStatsToLobbies` and `LobbyIdsDistinct` |
| DataTransformers.LobbyIdsDistinct | frontend/src/utils/dataTransformers.ts:193-194 | lobby ids are pairwise distinct |
| DataTransformers.FlatMapAt | frontend/src/utils/dataTransformers.ts:116-137 | element j of the list of item i sits right after the lists of the items before it |
| DataTransformers.RoomsOf | frontend/src/utils/dataTransformers.ts:120 | definition of a lobby's rooms: none when the field is missing or empty; stated by `WaitingRoomsLength` and `WaitingRoomAt` |
| DataTransformers.RoomView | frontend/src/utils/dataTransformers.ts:122-131 | definition of the waiting-room object: id `<lobby>-<room id>`, the room's fields, capacity 2; stated by `WaitingRoomAt` |
| DataTransformers.LobbyRoomViews | frontend/src/utils/dataTransformers.ts:120-133 | a lobby contributes one entry per room, none when its room list is absent or empty |
| DataTransformers.WaitingRoomsOf | frontend/src/utils/dataTransformers.ts:116-137 | definition of the waiting-room list: every lobby's rooms, lobby after lobby; stated by `TransformStatsToWaitingRooms`, `WaitingRoomsLength`, `WaitingRoomAt` and `WaitingRoomPosition` |
| DataTransformers.TransformStatsToWaitingRooms | frontend/src/utils/dataTransformers.ts:116-137 | the two nested loops push exactly the waiting-room list of the snapshot |
| DataTransformers.WaitingRoomsLength | frontend/src/utils/dataTransformers.ts:116-137 | the list holds exactly one entry per room of the snapshot |
| DataTransformers.WaitingRoomAt | frontend/src/utils/dataTransformers.ts:121-131 | room j of lobby i follows the rooms of earlier lobbies, with id "<lobby>-<room id>", the lobby's name and 2 places |
| DataTransformers.WaitingRoomPosition | frontend/src/utils/dataTransformers.ts:119-134 | entry j of lobby i follows the rooms of the lobbies before it |
| DataTransformers.FirstName | frontend/src/utils/dataTransformers.ts:154-155 | definition of `team?.[0]`: the first name of a list that is present and not empty; stated by `MatchViewNames` |
| DataTransformers.OrElse | frontend/src/utils/dataTransformers.ts:154-160 | definition of `a \|\| b` on an optional string: a missing or empty `a` falls through to `b`; stated by `MatchViewNames` |
| DataTransformers.Truthy | frontend/src/utils/dataTransformers.ts:154-160 | definition of JavaScript truthiness of an optional string (present and not empty); stated by `MatchViewNames` |
| DataTransformers.MatchView | frontend/src/utils/dataTransformers.ts:149-180 | definition of the match object built for one live match; its fields are stated by `MatchViewFields` and `MatchViewNames` |
| DataTransformers.MatchViewFields | frontend/src/utils/dataTransformers.ts:149-180 | on each side the player is the first team member when that is a non-empty string, else the profile when non-empty, else "Jugador 1"/"Jugador 2"; the team is the profile when non-empty, else the player; none is empty; a missing or empty score reads as 0-0, any other is parsed; the minute is the parsed clock; events are empty and every statistic is 0 |
| DataTransformers.MatchViewNames | frontend/src/utils/dataTransformers.ts:163-171 | a match is named "<lobby>-<index within its lobby>" and carries its lobby's name |
| DataTransformers.MatchesOf | frontend/src/utils/dataTransformers.ts:147 | definition of a lobby's matches: none when the field is missing or empty; stated by `LiveMatchesLength` and `LiveMatchAt` |
| DataTransformers.LobbyMatchViews | frontend/src/utils/dataTransformers.ts:147-183 | a lobby contributes one entry per match, none when its match list is absent or empty |
| DataTransformers.LiveMatchesOf | frontend/src/utils/dataTransformers.ts:143-186 | definition of the live-match list: every lobby's matches, lobby after lobby; stated by `TransformStatsToMatches`, `LiveMatchesLength`, `LiveMatchPosition` and `LiveMatchAt` |
| DataTransformers.TransformStatsToMatches | frontend/src/utils/dataTransformers.ts:143-187 | the two nested loops push exactly the live-match list of the snapshot |
| DataTransformers.LiveMatchesLength | frontend/src/utils/dataTransformers.ts:143-187 | the list holds exactly one entry per match of the snapshot |
| DataTransformers.LiveMatchPosition | frontend/src/utils/dataTransformers.ts:146-184 | entry j of lobby i follows the matches of the lobbies before it |
| DataTransformers.LiveMatchAt | frontend/src/utils/dataTransformers.ts:148-171 | match j of lobby i follows the matches of earlier lobbies, with id "<lobby>-j" and its lobby's name |
| WebSocket.Step | frontend/src/hooks/useWebSocket.ts:30-95 | definition of the connection state machine (open, message, close, reconnect timer, disconnect, send); stated by `OpenedResets`, `ClosedSchedulesIff`, `TimerFiredCounts`, `StepKeepsValid` and the lemmas after them |
| WebSocket.WsUrl | frontend/src/hooks/useWebSocket.ts:33 | definition of `url.replace(/^http/, 'ws')`; stated by `WsUrlRewritesHttp` and `WsUrlKeepsOthers` |
| WebSocket.StreamValid | frontend/src/hooks/useWebSocket.ts:61-67 | definition of the stream's invariant: attempts never above the maximum, and a pending reconnect timer only while attempts remain; stated by `StepKeepsValid` and `RunKeepsValid` |
| WebSocket.ConnectStep | frontend/src/hooks/useWebSocket.ts:30-34 | definition of `connect`: a socket that could be created starts connecting, otherwise nothing changes; stated by `TimerFiredCounts` and `OpenedResets` |
| WebSocket.WsUrlRewritesHttp | frontend/src/hooks/useWebSocket.ts:33 | a leading "http" is replaced by "ws", so "https://" becomes "wss://" |
| WebSocket.WsUrlKeepsOthers | frontend/src/hooks/useWebSocket.ts:33 | an address not starting with "http" is left unchanged |
| WebSocket.OpenedResets | frontend/src/hooks/useWebSocket.ts:36-41 | opening raises the connected flag and resets the attempt counter to 0 |
| WebSocket.ClosedSchedulesIff | frontend/src/hooks/useWebSocket.ts:56-71 | closing lowers the flag and schedules a reconnect exactly when attempts are below the maximum |
| WebSocket.TimerFiredCounts | frontend/src/hooks/useWebSocket.ts:63-67 | a firing reconnect timer adds exactly one attempt and opens a new socket when one can be created |
| WebSocket.StepKeepsValid | frontend/src/hooks/useWebSocket.ts:30-95 | every event keeps the counter within the maximum and a pending timer with an attempt left |
| WebSocket.RunKeepsValid | frontend/src/hooks/useWebSocket.ts:30-95 | any sequence of events keeps that invariant |
| WebSocket.AttemptsNeverExceedMax | frontend/src/hooks/useWebSocket.ts:26-65 | from the initial state no event sequence takes the counter past the maximum |
| WebSocket.FailedCyclesStopAtMax | frontend/src/hooks/useWebSocket.ts:56-71 | after n failed close/retry cycles the counter is min(attempts + n, max): retrying stops at the maximum |
| WebSocket.UnparsableMessageDropped | frontend/src/hooks/useWebSocket.ts:43-50 | a payload that does not parse changes nothing |
| WebSocket.ParsedMessageDelivered | frontend/src/hooks/useWebSocket.ts:43-50 | a parsed message is handed on exactly once and nothing else changes |
| WebSocket.DisconnectIdempotent | frontend/src/hooks/useWebSocket.ts:79-87 | disconnecting cancels the timer and drops the socket; doing it twice is the same as once |
| WebSocket.SendOnlyWhenOpen | frontend/src/hooks/useWebSocket.ts:89-95 | data is sent exactly when the socket is open; otherwise nothing changes |
| WebSocket.CloseAfterDisconnectReconnects | frontend/src/hooks/useWebSocket.ts:56-87 | as written, the close that `disconnect` itself provokes still runs the attached close handler, which schedules a reconnect while attempts are left, and the timer then opens a new socket with one more attempt counted (the as-written half of a finding) |
| WebSocket.TeardownStep | frontend/src/hooks/useWebSocket.ts:56-87 | definition of the intended teardown: `disconnect` detaches the close handler of the socket it closes, so that close schedules nothing; a socket created later has its handlers again |
| WebSocket.TeardownStepAttached | frontend/src/hooks/useWebSocket.ts:30-95 | while no `disconnect` has detached a handler, the intended machine takes exactly the steps written |
| WebSocket.DisconnectLeavesNothing | frontend/src/hooks/useWebSocket.ts:79-87 | in the intended teardown, after `disconnect` no event sequence without a new `connect` brings back a socket or a pending reconnect timer, and the attempt counter stays put |
| WebSocket.QuietAfterDisconnect | frontend/src/hooks/useWebSocket.ts:79-87 | a detached state with no socket and no timer stays so under any events other than `connect` |
| WebSocket.DetachedCloseStaysDown | frontend/src/hooks/useWebSocket.ts:79-87 | the events `disconnect`, close, timer that reopen a socket as written leave the intended machine with no socket and no timer |
| WebSocket.StatsStreamUrl | frontend/src/hooks/useLobbies.ts:42 | definition of the stream address `<protocol>//<host>/api/ws/stats`, shared with frontend/src/hooks/useMatches.ts:38; stated by `StatsStreamUrlScheme` |
| WebSocket.StatsStreamUrlScheme | frontend/src/hooks/useLobbies.ts:42 | a page served over `http:` opens the stream on `ws://<host>/api/ws/stats`, one served over `https:` on `wss://<host>/api/ws/stats` |
| WebSocket.IsSnapshot | frontend/src/hooks/useLobbies.ts:44 | definition of a message the feeds apply: type `stats_update` with data (also frontend/src/hooks/useMatches.ts:40); stated by `LobbiesFeed.MessagesFilter` and `MatchesFeed.MessagesFilter` |
| WebSocket.LiveStream.constructor | frontend/src/hooks/useWebSocket.ts:17-28 | the hook starts disconnected with zero attempts, no timer and no socket, defaults 3000 ms and 10 attempts being the caller's |
| WebSocket.LiveStream.SocketUrl | frontend/src/hooks/useWebSocket.ts:33-34 | definition of the address a socket is opened on: the hook's URL with its leading `http` rewritten; stated by `WsUrlRewritesHttp` and `StatsStreamUrlScheme` |
| WebSocket.LiveStream.Connect | frontend/src/hooks/useWebSocket.ts:30-77 | the new state is the event step for connect, and the invariant holds |
| WebSocket.LiveStream.OnOpen | frontend/src/hooks/useWebSocket.ts:36-41 | the new state is the event step for an opened socket, and the invariant holds |
| WebSocket.LiveStream.OnClose | frontend/src/hooks/useWebSocket.ts:56-71 | the new state is the event step for a closed socket, and the invariant holds |
| WebSocket.LiveStream.OnReconnectTimer | frontend/src/hooks/useWebSocket.ts:63-67 | the new state is the event step for a firing timer, and the invariant holds |
| WebSocket.LiveStream.OnMessage | frontend/src/hooks/useWebSocket.ts:43-50 | the new state is the event step for a received payload, and the invariant holds |
| WebSocket.LiveStream.Disconnect | frontend/src/hooks/useWebSocket.ts:79-87 | the new state is the event step for disconnect, and the invariant holds |
| WebSocket.LiveStream.Send | frontend/src/hooks/useWebSocket.ts:89-95 | the new state is the event step for send, and the invariant holds |
| LobbiesFeed.LobbiesStep | frontend/src/hooks/useLobbies.ts:15-70 | definition of the lobbies hook's reaction to fetch results, stream messages, connection changes and poll ticks; stated by `LobbiesStepKeepsValid`, `PollOnlyWhileDisconnected`, `MessagesFilter`, `FetchFailKeepsLists`, `PollTickFetchesIff` and `LobbiesStepOneSnapshot` |
| LobbiesFeed.LobbiesValid | frontend/src/hooks/useLobbies.ts:65-70 | definition of the hook's invariant: the polling interval exists exactly while the hook is mounted and the stream is down; stated by `LobbiesStepKeepsValid` |
| LobbiesFeed.FromOneSnapshot | frontend/src/hooks/useLobbies.ts:28-31 | definition of consistency: the lobby list and the waiting-room list come from one snapshot; stated by `LobbiesStepOneSnapshot` and `InitialOneSnapshot` |
| LobbiesFeed.Apply | frontend/src/hooks/useLobbies.ts:28-31 | definition of applying a snapshot: both lists are rebuilt from it; stated by `MessagesFilter` and `LobbiesStepOneSnapshot` |
| LobbiesFeed.FetchStart | frontend/src/hooks/useLobbies.ts:23-24 | definition of a fetch starting: loading set, error cleared, one more request; stated by `MountFetchesOnce` and `PollTickFetchesIff` |
| LobbiesFeed.Gate | frontend/src/hooks/useLobbies.ts:65-70 | definition of the polling effect: the interval runs exactly while mounted and disconnected; stated by `LobbiesStepKeepsValid` and `PollOnlyWhileDisconnected` |
| LobbiesFeed.MountFetchesOnce | frontend/src/hooks/useLobbies.ts:59-70 | mounting issues exactly one fetch, starts loading with no error, and installs polling because the stream is not yet connected |
| LobbiesFeed.LobbiesStepKeepsValid | frontend/src/hooks/useLobbies.ts:64-70 | every event keeps the polling interval present exactly while mounted and disconnected |
| LobbiesFeed.PollOnlyWhileDisconnected | frontend/src/hooks/useLobbies.ts:64-70 | after any events polling runs exactly while mounted and disconnected, and reconnect attempts stay within the maximum |
| LobbiesFeed.MessagesFilter | frontend/src/hooks/useLobbies.ts:43-50 | only `stats_update` messages with data replace the lists, both from that snapshot; loading and error are untouched |
| LobbiesFeed.FetchFailKeepsLists | frontend/src/hooks/useLobbies.ts:32-37 | a failed fetch sets the error message, ends loading and keeps both lists |
| LobbiesFeed.PollTickFetchesIff | frontend/src/hooks/useLobbies.ts:67 | a poll tick issues a fetch exactly while the interval exists, and otherwise changes nothing |
| LobbiesFeed.LobbiesStepOneSnapshot | frontend/src/hooks/useLobbies.ts:28-48 | every event keeps the lobby list and the room list derived from one and the same snapshot |
| LobbiesFeed.InitialOneSnapshot | frontend/src/hooks/useLobbies.ts:16-17 | the two empty initial lists come from one snapshot |
| LobbiesFeed.LobbiesFeedHook.constructor | frontend/src/hooks/useLobbies.ts:15-42 | the hook starts with empty lists, loading, no error, and a stream on /api/ws/stats with the default 3000 ms and 10 attempts |
| LobbiesFeed.LobbiesFeedHook.StartFetch | frontend/src/hooks/useLobbies.ts:23-24 | a fetch sets loading, clears the error and counts one request |
| LobbiesFeed.LobbiesFeedHook.SyncPolling | frontend/src/hooks/useLobbies.ts:65-70 | the interval is installed while disconnected and cleared otherwise |
| LobbiesFeed.LobbiesFeedHook.ApplySnapshot | frontend/src/hooks/useLobbies.ts:28-31 | both lists are replaced from one snapshot |
| LobbiesFeed.LobbiesFeedHook.Mount | frontend/src/hooks/useLobbies.ts:41-70 | the new state is the feed step for mounting, and the invariant holds |
| LobbiesFeed.LobbiesFeedHook.OnStreamEvent | frontend/src/hooks/useLobbies.ts:41-70 | the new state is the feed step for the stream event, with polling following the connection flag |
| LobbiesFeed.LobbiesFeedHook.OnFetchOk | frontend/src/hooks/useLobbies.ts:25-37 | the new state is the feed step for a successful fetch |
| LobbiesFeed.LobbiesFeedHook.OnFetchFail | frontend/src/hooks/useLobbies.ts:32-36 | the new state is the feed step for a failed fetch |
| LobbiesFeed.LobbiesFeedHook.OnPollTick | frontend/src/hooks/useLobbies.ts:67 | the new state is the feed step for a poll tick |
| LobbiesFeed.LobbiesFeedHook.Refetch | frontend/src/hooks/useLobbies.ts:77 | the new state is the feed step for a manual refetch |
| LobbiesFeed.LobbiesFeedHook.Unmount | frontend/src/hooks/useLobbies.ts:65-70 | the new state is the feed step for unmounting: interval cleared and stream disconnected |
| MatchesFeed.MatchesStep | frontend/src/hooks/useMatches.ts:14-64 | definition of the matches hook's reaction to fetch results, stream messages, connection changes and poll ticks; stated by `MatchesStepKeepsValid`, `PollOnlyWhileDisconnected`, `MessagesFilter`, `FetchFailKeepsMatches` and `PollTickFetchesIff` |
| MatchesFeed.MatchesValid | frontend/src/hooks/useMatches.ts:59-64 | definition of the hook's invariant: the polling interval exists exactly while the hook is mounted and the stream is down; stated by `MatchesStepKeepsValid` |
| MatchesFeed.Apply | frontend/src/hooks/useMatches.ts:26-27 | definition of applying a snapshot: the match list is rebuilt from it; stated by `MessagesFilter` |
| MatchesFeed.FetchStart | frontend/src/hooks/useMatches.ts:21-22 | definition of a fetch starting: loading set, error cleared, one more request; stated by `MountFetchesOnce` and `PollTickFetchesIff` |
| MatchesFeed.Gate | frontend/src/hooks/useMatches.ts:59-64 | definition of the polling effect: the interval runs exactly while mounted and disconnected; stated by `MatchesStepKeepsValid` and `PollOnlyWhileDisconnected` |
| MatchesFeed.MountFetchesOnce | frontend/src/hooks/useMatches.ts:53-64 | mounting issues exactly one fetch, starts loading with no error, and installs polling because the stream is not yet connected |
| MatchesFeed.MatchesStepKeepsValid | frontend/src/hooks/useMatches.ts:58-64 | every event keeps the polling interval present exactly while mounted and disconnected |
| MatchesFeed.PollOnlyWhileDisconnected | frontend/src/hooks/useMatches.ts:58-64 | after any events polling runs exactly while mounted and disconnected, and reconnect attempts stay within the maximum |
| MatchesFeed.MessagesFilter | frontend/src/hooks/useMatches.ts:39-44 | only `stats_update` messages with data replace the match list; loading and error are untouched |
| MatchesFeed.FetchFailKeepsMatches | frontend/src/hooks/useMatches.ts:28-33 | a failed fetch sets the error message, ends loading and keeps the list |
| MatchesFeed.PollTickFetchesIff | frontend/src/hooks/useMatches.ts:61 | a poll tick issues a fetch exactly while the interval exists, and otherwise changes nothing |
| MatchesFeed.MatchesFeedHook.constructor | frontend/src/hooks/useMatches.ts:14-38 | the hook starts with an empty list, loading, no error, and a stream on /api/ws/stats with the default 3000 ms and 10 attempts |
| MatchesFeed.MatchesFeedHook.StartFetch | frontend/src/hooks/useMatches.ts:21-22 | a fetch sets loading, clears the error and counts one request |
| MatchesFeed.MatchesFeedHook.SyncPolling | frontend/src/hooks/useMatches.ts:59-64 | the interval is installed while disconnected and cleared otherwise |
| MatchesFeed.MatchesFeedHook.ApplySnapshot | frontend/src/hooks/useMatches.ts:26-27 | the list is replaced by the snapshot's live matches |
| MatchesFeed.MatchesFeedHook.Mount | frontend/src/hooks/useMatches.ts:37-64 | the new state is the feed step for mounting, and the invariant holds |
| MatchesFeed.MatchesFeedHook.OnStreamEvent | frontend/src/hooks/useMatches.ts:37-64 | the new state is the feed step for the stream event, with polling following the connection flag |
| MatchesFeed.MatchesFeedHook.OnFetchOk | frontend/src/hooks/useMatches.ts:23-33 | the new state is the feed step for a successful fetch |
| MatchesFeed.MatchesFeedHook.OnFetchFail | frontend/src/hooks/useMatches.ts:28-33 | the new state is the feed step for a failed fetch |
| MatchesFeed.MatchesFeedHook.OnPollTick | frontend/src/hooks/useMatches.ts:61 | the new state is the feed step for a poll tick |
| MatchesFeed.MatchesFeedHook.Refetch | frontend/src/hooks/useMatches.ts:70 | the new state is the feed step for a manual refetch |
| MatchesFeed.MatchesFeedHook.Unmount | frontend/src/hooks/useMatches.ts:59-64 | the new state is the feed step for unmounting: interval cleared and stream disconnected |
| Session.Lookup | frontend/src/context/AuthContext.tsx:32-37 | definition of `localStorage.getItem`: the stored value, or null when the key is absent; stated by `InitialSession` and the login lemmas |
| Session.Truthy | frontend/src/context/AuthContext.tsx:38 | definition of `!!` on a stored string: present and not empty; stated by `InitialSession` and `CountryOnlyWhenTruthy` |
| Session.IsAuthenticated | frontend/src/context/AuthContext.tsx:139 | definition of `isAuthenticated = !!token`; stated by `LoginOnlyOnSuccess` and `LogoutClearsBoth` |
| Session.IsUserAuthenticated | frontend/src/context/AuthContext.tsx:143 | definition of `isUserAuthenticated = !!userToken`; stated by `LoginUserOnlyOnSuccess`, `LogoutUserKeepsAdmin` and `RestoreFailureLogsOut` |
| Session.InitialSession | frontend/src/context/AuthContext.tsx:30-38 | the provider starts from storage: both tokens and the country read from their keys, no account, loading exactly when the stored player token is non-empty |
| Session.BasicAuth | frontend/src/context/AuthContext.tsx:61-62 | the header is "Basic " followed by the Base64 of "user:password" |
| Session.LoginStep | frontend/src/context/AuthContext.tsx:60-79 | definition of `login`: the Basic credential is stored and set only when the probe request succeeded; stated by `LoginOnlyOnSuccess` |
| Session.LoginOnlyOnSuccess | frontend/src/context/AuthContext.tsx:60-79 | a failed probe changes nothing and answers false; a successful one answers true, stores the Basic credential under `auth_token` and as the administrator token, and changes nothing else: the player slot, the country, the loading flag and every other storage key stay |
| Session.LoginUserStep | frontend/src/context/AuthContext.tsx:81-107 | definition of `loginUser`: credential and account are kept only when the account request answered; stated by `LoginUserOnlyOnSuccess` and `LoginUserLogoutUser` |
| Session.LoginUserOnlyOnSuccess | frontend/src/context/AuthContext.tsx:81-107 | a failed account request changes nothing and answers false; a successful one answers true, stores the credential under `user_token` and as the player token, sets the account, and changes nothing else: the administrator slot, the country, the loading flag and every other storage key stay (the country lookup it starts without waiting is answered later, as its own `FetchCountryStep`) |
| Session.LogoutUserStep | frontend/src/context/AuthContext.tsx:122-128 | definition of `logoutUser`: the player token and country leave storage, and token, account and country leave the state; stated by `LogoutUserKeepsAdmin` and `LoginUserLogoutUser` |
| Session.LogoutUserKeepsAdmin | frontend/src/context/AuthContext.tsx:122-128 | a player logout empties the player slot and removes `user_token` and `user_country`, keeping every other key and the administrator token |
| Session.LogoutStep | frontend/src/context/AuthContext.tsx:130-135 | definition of `logout`: the administrator credential is cleared, then everything `logoutUser` clears; stated by `LogoutClearsBoth` |
| Session.LogoutClearsBoth | frontend/src/context/AuthContext.tsx:130-135 | logout leaves neither slot authenticated and removes exactly the three session keys |
| Session.LoginUserLogoutUser | frontend/src/context/AuthContext.tsx:81-128 | a player login followed by a player logout leaves storage as before, less the player keys |
| Session.RestoreStartStep | frontend/src/context/AuthContext.tsx:41-46 | definition of the session-restoring effect's start: loading only while a player token is present; stated by `RestoreStartLoadsIff` |
| Session.RestoreFailureLogsOut | frontend/src/context/AuthContext.tsx:50-54 | a failed restore logs the player out and stops loading, keeping the administrator token |
| Session.RestoreSuccessKeepsSession | frontend/src/context/AuthContext.tsx:47-49 | a successful restore shows the account, keeps both credentials and storage, and stops loading |
| Session.RestoreDoneStep | frontend/src/context/AuthContext.tsx:47-57 | definition of the restoring request's outcome: the account is kept on success, the player is logged out on failure; stated by `RestoreSuccessKeepsSession` and `RestoreFailureLogsOut` |
| Session.RestoreStartLoadsIff | frontend/src/context/AuthContext.tsx:41-58 | the restore effect loads exactly when the player token is non-empty and changes nothing else |
| Session.FetchCountryStep | frontend/src/context/AuthContext.tsx:109-120 | definition of `fetchCountry`'s outcome: a truthy country code is kept in state and storage; stated by `CountryOnlyWhenTruthy` |
| Session.CountryOnlyWhenTruthy | frontend/src/context/AuthContext.tsx:109-120 | only a non-empty country code is kept, in state and under `user_country`; otherwise nothing changes |
| Session.AuthProvider.constructor | frontend/src/context/AuthContext.tsx:30-38 | the new provider's state is the initial session over the given storage |
| Session.AuthProvider.Login | frontend/src/context/AuthContext.tsx:60-79 | the new state and the answer are the login step's |
| Session.AuthProvider.LoginUser | frontend/src/context/AuthContext.tsx:81-107 | the new state and the answer are the player-login step's |
| Session.AuthProvider.FetchCountry | frontend/src/context/AuthContext.tsx:109-120 | the new state is the country step's |
| Session.AuthProvider.LogoutUser | frontend/src/context/AuthContext.tsx:122-128 | the new state is the player-logout step's |
| Session.AuthProvider.Logout | frontend/src/context/AuthContext.tsx:130-135 | the new state is the logout step's |
| Session.AuthProvider.RestoreStart | frontend/src/context/AuthContext.tsx:41-46 | the new state is the restore-start step's |
| Session.AuthProvider.RestoreDone | frontend/src/context/AuthContext.tsx:47-57 | the new state is the restore-outcome step's |
| RegisterForm.CleanSerial | frontend/src/components/RegisterForm.tsx:25 | definition of the cleaned serial: white space trimmed at both ends, every `-` removed, upper-cased; stated by `CleanSerialIgnoresDash` and `AcceptedSerialIsClean` |
| RegisterForm.IsSerialChar | frontend/src/components/RegisterForm.tsx:27 | definition of the character class `[A-Z0-9]`; stated by `AcceptedSerialIsClean` |
| RegisterForm.IsSerial | frontend/src/components/RegisterForm.tsx:27 | definition of `/^[A-Z0-9]{20}$/`; stated by `ValidateOrder`, `AcceptedSerialIsClean` and `HashInputLength` |
| RegisterForm.IsUsername | frontend/src/components/RegisterForm.tsx:34 | definition of the user-name test: at least 3 characters, all ASCII letters or digits; stated by `ValidateOrder` |
| RegisterForm.Validate | frontend/src/components/RegisterForm.tsx:24-50 | definition of the form's checks in their order (serial, user name, password, confirmation); stated by `ValidateOrder` and `AcceptedSerialIsClean` |
| RegisterForm.ValidateOrder | frontend/src/components/RegisterForm.tsx:24-50 | the checks run in the order serial, user name, password length, confirmation; each message appears exactly when every earlier check passed and its own fails, and success yields the cleaned serial and trimmed user name |
| RegisterForm.AcceptedSerialIsClean | frontend/src/components/RegisterForm.tsx:25-27 | a serial that passes the check is unchanged by cleaning it again |
| RegisterForm.CleanSerialIgnoresDash | frontend/src/components/RegisterForm.tsx:25 | a dash between two groups makes no difference to the cleaned serial |
| RegisterForm.RemoveDashJoin | frontend/src/components/RegisterForm.tsx:25 | deleting dashes from "x-y" and from "xy" gives the same string |
| RegisterForm.HashInput | frontend/src/components/RegisterForm.tsx:60 | definition of the hashed string `serial + username + '-' + password`; stated by `HashInputLength` and `RegisterPage.FormHashInputIsNotServerPreHash` |
| RegisterForm.HashInputLength | frontend/src/components/RegisterForm.tsx:60 | the hashed string is the 20-character serial, then user name, '-' and password, with no padding |
| RegisterForm.PrefixWithout | frontend/src/components/RegisterForm.tsx:70 | definition of a greedy negated class such as `[^"]+` or `[^>]*`: the longest prefix free of one character; stated by `PrefixWithoutShape`, `PrefixWithoutCovers` and `PrefixWithoutExact` |
| RegisterForm.PrefixWithoutShape | frontend/src/components/RegisterForm.tsx:70 | a `[^c]*` run is a prefix of the text, avoids c, and stops only at c or at the end |
| RegisterForm.PrefixWithoutCovers | frontend/src/components/RegisterForm.tsx:70 | the run is at least as long as any c-free prefix |
| RegisterForm.PrefixWithoutExact | frontend/src/components/RegisterForm.tsx:70 | a c-free prefix followed by c is exactly the run |
| RegisterForm.LiteralAt | frontend/src/components/RegisterForm.tsx:70 | definition of a literal part of the pattern occurring at a position; stated by `ValueAtSound` and `NonceAtSound` |
| RegisterForm.ValueAt | frontend/src/components/RegisterForm.tsx:70 | definition of `value="([^"]+)"` matched at a position, giving its capture; stated by `ValueAtSound` and `ValueAtComplete` |
| RegisterForm.MatchesAt | frontend/src/components/RegisterForm.tsx:70 | definition of a match of the whole pattern: where it starts, where `[^>]*` ends and the capture; the reference `ExtractNonce` is proved against by `ExtractNonceSound` and `ExtractNonceComplete` |
| RegisterForm.ValueAtSound | frontend/src/components/RegisterForm.tsx:70 | a `value="..."` match at j, after a '>'-free stretch from the name, is a capture of the whole pattern |
| RegisterForm.ValueAtComplete | frontend/src/components/RegisterForm.tsx:70 | every capture of the pattern ending its run at j is found by the value match at j |
| RegisterForm.LastValue | frontend/src/components/RegisterForm.tsx:70 | definition of backtracking over the greedy `[^>]*`: the longest stretch after which `value="…"` matches; stated by `LastValueSound` and `LastValueComplete` |
| RegisterForm.LastValueSound | frontend/src/components/RegisterForm.tsx:70 | the greedy back-off returns the value match at a position inside the run, and no later position of the run has a value match |
| RegisterForm.LastValueComplete | frontend/src/components/RegisterForm.tsx:70 | a value match anywhere inside the run makes the back-off succeed |
| RegisterForm.NonceAt | frontend/src/components/RegisterForm.tsx:70 | definition of the match attempt at one start position; stated by `NonceAtSound` and `NonceAtComplete` |
| RegisterForm.FirstNonce | frontend/src/components/RegisterForm.tsx:70 | definition of the leftmost match from a position on; stated by `FirstNonceSound` and `FirstNonceComplete` |
| RegisterForm.FirstNonceSound | frontend/src/components/RegisterForm.tsx:70 | the leftmost search returns the match attempt of some position, and every attempt at an earlier position fails |
| RegisterForm.FirstNonceComplete | frontend/src/components/RegisterForm.tsx:70 | a successful attempt at any position makes the leftmost search succeed |
| RegisterForm.RunAvoids | frontend/src/components/RegisterForm.tsx:70 | every stretch inside the `[^>]*` run is free of '>' |
| RegisterForm.NonceAtSound | frontend/src/components/RegisterForm.tsx:70 | a successful attempt at i is a capture of the pattern starting at i, and no capture starting at i has a longer `[^>]*` stretch |
| RegisterForm.ExtractNonce | frontend/src/components/RegisterForm.tsx:70-73 | definition of the first match of `name="nonce"[^>]*value="([^"]+)"` as a backtracking search: leftmost start, then the longest `[^>]*` stretch; stated by `ExtractNonceSound` and `ExtractNonceComplete` |
| RegisterForm.ExtractNonceSound | frontend/src/components/RegisterForm.tsx:70-73 | the extracted nonce is the capture of `name="nonce"[^>]*value="([^"]+)"` at the leftmost start where the pattern matches, with the longest `[^>]*` stretch from that start |
| RegisterForm.NonceAtComplete | frontend/src/components/RegisterForm.tsx:70 | a capture starting at i makes the attempt at i succeed |
| RegisterForm.ExtractNonceComplete | frontend/src/components/RegisterForm.tsx:70-77 | whenever the pattern occurs in the page a nonce is extracted |
| RegisterForm.Nonce | frontend/src/components/RegisterForm.tsx:62-81 | definition of the nonce posted: the capture of the fetched page, or empty when the fetch failed or nothing matched; stated by `NonceEmptyIff`, `ExtractNonceSound` and `ExtractNonceComplete` |
| RegisterForm.NonceEmptyIff | frontend/src/components/RegisterForm.tsx:62-81 | the posted nonce is empty exactly when no page came back or the page has no match, since a capture of `[^"]+` is never empty |
| RegisterForm.RegistrationForm | frontend/src/components/RegisterForm.tsx:84-89 | definition of the urlencoded form: nonce, hash, serial without NUL, user, `format=html`, in that order; stated by `FormSerialIsCleanSerial` and `SubmitStepOutcome` |
| RegisterForm.FormSerialIsCleanSerial | frontend/src/components/RegisterForm.tsx:84-89 | the posted serial field is the cleaned serial unchanged, since it holds no NUL |
| RegisterForm.FailureMessage | frontend/src/components/RegisterForm.tsx:99-120 | network failures and non-2xx statuses are shown with the "Error de conexión: " prefix |
| RegisterForm.StatusOk | frontend/src/components/RegisterForm.tsx:99 | definition of `response.ok` (a status in 200..299); stated by `ClassifyResponseCases` and `ConnectionErrorsPrefixed` |
| RegisterForm.SuccessBody | frontend/src/components/RegisterForm.tsx:106 | definition of the success test on the answer page; stated by `ClassifyResponseCases` and `Plain200Registers` |
| RegisterForm.ConflictBody | frontend/src/components/RegisterForm.tsx:111 | definition of the already-registered test on the answer page; stated by `ClassifyResponseCases` |
| RegisterForm.InvalidBody | frontend/src/components/RegisterForm.tsx:113 | definition of the invalid-data test on the answer page; stated by `ClassifyResponseCases` |
| RegisterForm.ClassifyResponse | frontend/src/components/RegisterForm.tsx:99-117 | definition of how the registration answer is read: a network failure is a connection error, a non-2xx status a status error, otherwise the success, conflict and invalid-data markers of the body in that order; stated by `ClassifyResponseCases` and `Plain200Registers` |
| RegisterForm.ClassifyResponseCases | frontend/src/components/RegisterForm.tsx:99-117 | a 2xx answer registers exactly when it has a success marker or is a 200 mentioning neither 409 nor 400; a conflict is reported before invalid data; any other status fails as a server status |
| RegisterForm.ConnectionErrorsPrefixed | frontend/src/components/RegisterForm.tsx:99-120 | a network failure or a non-2xx status surfaces as a connection error |
| RegisterForm.Plain200Registers | frontend/src/components/RegisterForm.tsx:106 | a 200 page mentioning neither 409 nor 400 counts as a registration even with no success text |
| RegisterForm.SubmitStep | frontend/src/components/RegisterForm.tsx:17-124 | definition of one submission from validation to the final message; stated by `SubmitStepOutcome` |
| RegisterForm.SubmitStepOutcome | frontend/src/components/RegisterForm.tsx:17-124 | a rejected field posts nothing and shows its message; otherwise exactly one form goes out with the MD5 of the unpadded input and the trimmed user name, and the answer decides success or the message; loading ends and the inputs are unchanged |
| RegisterForm.RegisterFormComponent.constructor | frontend/src/components/RegisterForm.tsx:9-15 | the component starts with the given inputs, not loading, no error, no success and nothing posted |
| RegisterForm.RegisterFormComponent.HandleSubmit | frontend/src/components/RegisterForm.tsx:17-124 | the new state is the submit step's |
| RegisterPage.ToInt32 | frontend/src/pages/Register.tsx:19-20 | the 32-bit conversion lies in [-2^31, 2^31) and is congruent to its argument modulo 2^32 |
| RegisterPage.ToInt32Congruent | frontend/src/pages/Register.tsx:19-20 | arguments congruent modulo 2^32 convert to the same 32-bit value |
| RegisterPage.RollingHash | frontend/src/pages/Register.tsx:16-21 | the running hash always fits in 32 signed bits |
| RegisterPage.ShiftStepIsTimes31 | frontend/src/pages/Register.tsx:19-20 | one step as written, shift left by 5, minus the hash, plus the unit, then `hash & hash`, is the 32-bit value of 31 * hash + unit |
| RegisterPage.Abs | frontend/src/pages/Register.tsx:23 | definition of `Math.abs`; stated by `PlaceholderDigestReadsBack` |
| RegisterPage.Zeros | frontend/src/pages/Register.tsx:24-26 | the padding appended to the digest is that many `'0'` characters |
| RegisterPage.PlaceholderDigest | frontend/src/pages/Register.tsx:22-27 | the digest is exactly 32 hexadecimal digits |
| RegisterPage.HexDigitsFit | frontend/src/pages/Register.tsx:23 | \|hash\| is at most 2^31, so it prints in at most 8 hexadecimal digits |
| RegisterPage.PlaceholderDigestReadsBack | frontend/src/pages/Register.tsx:22-27 | the digest's leading digits read back as \|hash\| and every later character is '0' |
| RegisterPage.PlaceholderMd5 | frontend/src/pages/Register.tsx:13-28 | the loop over the code units and the padding loop compute the placeholder digest |
| RegisterPage.ValidatePage | frontend/src/pages/Register.tsx:34-56 | definition of the page's checks in their order; stated by `ValidatePageOrder` |
| RegisterPage.ValidatePageOrder | frontend/src/pages/Register.tsx:34-56 | the checks run in the order confirmation, password length, user name as typed, cleaned serial; the first failure decides the message and success yields the clean 20-character serial |
| RegisterPage.PageHashInput | frontend/src/pages/Register.tsx:58-64 | definition of the string the page hashes: the serial NUL-padded to 36, the user name, `-`, the password; stated by `PageHashInputIsServerPreHash` and `FormHashInputIsNotServerPreHash` |
| RegisterPage.PageHashInputIsServerPreHash | frontend/src/pages/Register.tsx:58-64 | for an accepted serial the page hashes exactly the string the server rebuilds: serial NUL-padded to 36, user name, '-', password |
| RegisterPage.FormHashInputIsNotServerPreHash | frontend/src/pages/Register.tsx:58-64 | the registration form component hashes a string 16 characters shorter than that server string, so never the same one |
| RegisterPage.EditedSerialCleansTheSame | frontend/src/pages/Register.tsx:129 | upper-casing on every edit does not change the cleaned serial |
| RegisterPage.SubmitStep | frontend/src/pages/Register.tsx:30-75 | definition of one page submission: validation, then the hidden `hash` and `serial` fields; stated by `SubmitStepSends` |
| RegisterPage.SubmitStepSends | frontend/src/pages/Register.tsx:30-75 | a failed check shows its message and sends nothing; otherwise one submission goes out with the unpadded 20-character serial and the 32-character digest of the padded pre-hash string |
| RegisterPage.RegisterPageComponent.constructor | frontend/src/pages/Register.tsx:5-9 | every field, the error and the submissions start empty |
| RegisterPage.RegisterPageComponent.EditSerial | frontend/src/pages/Register.tsx:129 | the serial field becomes the upper-cased input and nothing else changes |
| RegisterPage.RegisterPageComponent.HandleSubmit | frontend/src/pages/Register.tsx:30-75 | the new state is the submit step's |
| ResetPass.CleanSerial | reset_pass.py:17 | the cleaned serial holds no '-' and no ' ' and is no longer than the input |
| ResetPass.CleanSerialKeepsClean | reset_pass.py:17 | cleaning a serial without separators leaves it unchanged |
| ResetPass.Nuls | reset_pass.py:19-20 | the padding appended to the serial is that many NUL characters |
| ResetPass.NulPadded | reset_pass.py:18-20 | the padded serial has length max(36, len), starts with the serial and holds only NULs after it |
| ResetPass.NulPaddedRemoveNuls | reset_pass.py:18-20 | deleting the NULs of a padded NUL-free serial gives the serial back |
| ResetPass.PadSerial | reset_pass.py:19-20 | the padding loop computes the NUL-padded serial |
| ResetPass.PreHash | reset_pass.py:15-26 | definition of the pre-hash: the cleaned serial NUL-padded, then the user name, `-` and the password; stated by `PreHashLayout` |
| ResetPass.PreHashLayout | reset_pass.py:15-26 | the pre-hash string is the clean serial, NULs up to position 36, then user name, '-' and password |
| ResetPass.CalculateHash | reset_pass.py:15-37 | the hash is the Blowfish encryption of the MD5 digest of the pre-hash string |
| ResetPass.UpdateStatement | reset_pass.py:49 | definition of the printed `UPDATE users SET hash='…' WHERE username='…';` line; stated by `RunScript` |
| ResetPass.RunScript | reset_pass.py:39-49 | fewer than three arguments exit with status 1 and the usage text; otherwise the UPDATE statement carries the hash of (user name, new password, serial) |
| AnnouncementBanner.InitialBanner | frontend/src/components/AnnouncementBanner.tsx:12-15 | definition of the first render: no announcement, nothing dismissed, nothing visible, storage not yet read; stated by `MountLoadsDismissed` |
| AnnouncementBanner.Active | frontend/src/components/AnnouncementBanner.tsx:30 | an announcement gets a reveal timer exactly when it was fetched and its id is not dismissed; never more than fetched |
| AnnouncementBanner.Shown | frontend/src/components/AnnouncementBanner.tsx:84-86 | an announcement is rendered exactly when it was fetched, is not dismissed and has been revealed |
| AnnouncementBanner.ShownOf | frontend/src/components/AnnouncementBanner.tsx:84-86 | the filter keeps at most the fetched announcements; its contents are stated by `ShownOfMembers`, `ShownOfAppend` and `AllRevealedShowsActive` |
| AnnouncementBanner.ShownOfMembers | frontend/src/components/AnnouncementBanner.tsx:84-86 | the filter keeps exactly the fetched, not dismissed, revealed announcements |
| AnnouncementBanner.ShownOfAppend | frontend/src/components/AnnouncementBanner.tsx:84-86 | the filter distributes over concatenation, so the fetched order is kept |
| AnnouncementBanner.AllRevealedShowsActive | frontend/src/components/AnnouncementBanner.tsx:28-36 | once every active announcement has been revealed, the banner shows exactly the active list, in order |
| AnnouncementBanner.RemoveId | frontend/src/components/AnnouncementBanner.tsx:50 | an id stays in the visible list exactly when it was there and differs from the dismissed id |
| AnnouncementBanner.RemoveIdFrom | frontend/src/components/AnnouncementBanner.tsx:50 | filtering a suffix keeps its first id unless it is the dismissed one |
| AnnouncementBanner.MountStep | frontend/src/components/AnnouncementBanner.tsx:17-22 | definition of the mount effect: a stored dismissed list replaces the empty one; stated by `MountLoadsDismissed` |
| AnnouncementBanner.MountLoadsDismissed | frontend/src/components/AnnouncementBanner.tsx:17-22 | after mounting the stored dismissed list is in effect, or the empty list when nothing is stored |
| AnnouncementBanner.FetchStep | frontend/src/components/AnnouncementBanner.tsx:38-46 | definition of the fetch: the answered list, or an empty list on failure; stated by `FailedFetchShowsNothing` |
| AnnouncementBanner.FailedFetchShowsNothing | frontend/src/components/AnnouncementBanner.tsx:42-45 | a failed fetch empties the list and nothing is shown |
| AnnouncementBanner.DismissStep | frontend/src/components/AnnouncementBanner.tsx:48-58 | definition of dismissing an announcement: hidden now, its id added to the stored list; stated by `DismissHides` and `DismissPersists` |
| AnnouncementBanner.DismissHides | frontend/src/components/AnnouncementBanner.tsx:48-58 | dismissing hides every announcement with that id, leaves all others as they were, and persists the old list plus the id |
| AnnouncementBanner.RevealStep | frontend/src/components/AnnouncementBanner.tsx:31-34 | definition of a reveal timer: the id is appended to the visible list; stated by `RevealShows` |
| AnnouncementBanner.RevealShows | frontend/src/components/AnnouncementBanner.tsx:31-34 | a revealed announcement that is not dismissed is shown |
| AnnouncementBanner.DismissPersists | frontend/src/components/AnnouncementBanner.tsx:54-56 | after a dismissal storage holds every id dismissed so far |
| AnnouncementBanner.StyleOf | frontend/src/components/AnnouncementBanner.tsx:60-82 | definition of the style picked by announcement type; stated by `StyleOfCases` |
| AnnouncementBanner.StyleOfCases | frontend/src/components/AnnouncementBanner.tsx:60-82 | `urgent` and `warning` get their own style; every other type, `info` included, gets the info style |
| AnnouncementBanner.Banner.constructor | frontend/src/components/AnnouncementBanner.tsx:13-15 | the banner starts with no announcements, no dismissals and nothing revealed |
| AnnouncementBanner.Banner.Mount | frontend/src/components/AnnouncementBanner.tsx:17-26 | the new state is the mount step's |
| AnnouncementBanner.Banner.FetchAnnouncements | frontend/src/components/AnnouncementBanner.tsx:38-46 | the new state is the fetch step's |
| AnnouncementBanner.Banner.Reveal | frontend/src/components/AnnouncementBanner.tsx:32-34 | the new state is the reveal step's |
| AnnouncementBanner.Banner.DismissAnnouncement | frontend/src/components/AnnouncementBanner.tsx:48-58 | the filtering loop and the dismissal give the dismiss step's state |
| AdminPanel.Normalize | frontend/src/pages/Admin.tsx:769-771 | definition of the displayed lobby: a bare name gets type open, matches shown and roster hash checked, an object keeps its own fields over those defaults; stated by `NormalizeDefaults` and `MergeDisplaysUpdate` |
| AdminPanel.Override | frontend/src/pages/Admin.tsx:779 | definition of one field of an object spread: the later object's field when present; stated by `MergeDisplaysUpdate` |
| AdminPanel.Merge | frontend/src/pages/Admin.tsx:773-781 | definition of `updateLobby`: `{ ...current, ...updates }` with a bare name first widened to an object with the defaults; stated by `MergeDisplaysUpdate` and `SelectShowsChoice` |
| AdminPanel.Apply | frontend/src/pages/Admin.tsx:769-781 | definition of the display with an update's fields put in, the reference `Merge` is compared with; stated by `MergeDisplaysUpdate` |
| AdminPanel.NormalizeDefaults | frontend/src/pages/Admin.tsx:767-770 | a bare name displays as an object without optional fields would, with type open, matches shown and roster hash checked; an object with every field present displays exactly its own fields |
| AdminPanel.MergeDisplaysUpdate | frontend/src/pages/Admin.tsx:772-780 | after an edit the entry is an object whose display is the old display with exactly the updated fields replaced |
| AdminPanel.UpdateAt | frontend/src/pages/Admin.tsx:772-780 | the edited list has the same length, every other entry unchanged, and the edited entry displays the old display with the update applied |
| AdminPanel.DeleteAt | frontend/src/pages/Admin.tsx:296-299 | the list loses exactly the entry at the index: one shorter, earlier entries in place, later ones shifted down by one, and the same multiset minus that entry |
| AdminPanel.TypeValue | frontend/src/pages/Admin.tsx:784-786 | definition of the selector's value: `divisions` for a list, the type's name otherwise; stated by `SelectShowsChoice` |
| AdminPanel.SelectType | frontend/src/pages/Admin.tsx:824-830 | definition of what a choice sets: the list `['A']` for `divisions`, the chosen name otherwise; stated by `SelectShowsChoice` |
| AdminPanel.TypeUpdate | frontend/src/pages/Admin.tsx:827-829 | definition of the update `{ type }` the selector and the divisions input send; stated by `SelectShowsChoice` |
| AdminPanel.SelectShowsChoice | frontend/src/pages/Admin.tsx:783-834 | whatever the entry was, choosing a value in the type selector makes the selector show that value and keeps the lobby's name |
| AdminPanel.IsDivisionName | frontend/src/pages/Admin.tsx:845-846 | definition of a division the input's parser keeps: not empty, no comma, no white space at either end; stated by `ParseDivisions` and `DivisionsRoundTrip` |
| AdminPanel.JoinDivisions | frontend/src/pages/Admin.tsx:843 | definition of `divisions.join(', ')`; stated by `DivisionsRoundTrip`, `JoinedIsTrimmed` and `ParseDivisionsStable` |
| AdminPanel.DivisionsText | frontend/src/pages/Admin.tsx:843 | definition of the divisions input's text: the joined list, or `A` when the type is not a list; stated by `DivisionsTextReadsBack` |
| AdminPanel.DivisionsTextReadsBack | frontend/src/pages/Admin.tsx:843-847 | the text in the divisions input reads back as the lobby's list when that is a list of division names, and as `['A']` when the type is not a list |
| AdminPanel.Spaced | frontend/src/pages/Admin.tsx:843 | the pieces `join(', ')` writes between commas are one per division |
| AdminPanel.TrimmedPieces | frontend/src/pages/Admin.tsx:846 | every piece of a comma-free split, once trimmed, is empty or a well-formed division name |
| AdminPanel.DivisionPieces | frontend/src/pages/Admin.tsx:845-846 | every piece kept from the typed text is a non-empty division name without commas or surrounding whitespace |
| AdminPanel.DefaultDivisionsValid | frontend/src/pages/Admin.tsx:847 | the fallback list ["A"] is a non-empty list of well-formed division names |
| AdminPanel.ParseDivisions | frontend/src/pages/Admin.tsx:845-847 | the stored division list is never empty and holds only well-formed division names |
| AdminPanel.ParseDivisionsBlank | frontend/src/pages/Admin.tsx:845-847 | a typed text of nothing but whitespace stores the default list ["A"] |
| AdminPanel.DivisionsRoundTrip | frontend/src/pages/Admin.tsx:843-847 | the text shown for a non-empty list of division names reads back as exactly that list |
| AdminPanel.JoinedIsTrimmed | frontend/src/pages/Admin.tsx:843-845 | the joined text of division names has no leading or trailing whitespace, so the input's trim leaves it alone |
| AdminPanel.TrimSpaced | frontend/src/pages/Admin.tsx:843-846 | trimming each piece undoes the space that `join(', ')` put before every division but the first |
| AdminPanel.ParseDivisionsStable | frontend/src/pages/Admin.tsx:843-847 | whatever was typed, showing the stored list and reading it back changes nothing |
| AdminPanel.LobbyEditor.constructor | frontend/src/pages/Admin.tsx:146 | the editor starts from the lobby list the server sent |
| AdminPanel.LobbyEditor.AddLobby | frontend/src/pages/Admin.tsx:747-749 | "Agregar Lobby" appends one open "Nuevo Lobby" object with matches shown and roster hash checked, keeping the list before it |
| AdminPanel.LobbyEditor.UpdateLobby | frontend/src/pages/Admin.tsx:772-780 | the new list is the old one with the entry at the index merged with the update, as UpdateAt states |
| AdminPanel.LobbyEditor.EditDivisions | frontend/src/pages/Admin.tsx:844-848 | typing in the divisions input sets the entry's type to the parsed, never-empty division list |
| AdminPanel.LobbyEditor.DeleteLobby | frontend/src/pages/Admin.tsx:296-302 | a confirmed delete removes exactly the entry at the index, as DeleteAt states; an unconfirmed one changes nothing |
| AdminPanel.TotalPages | frontend/src/pages/Admin.tsx:413 | the page count is the least number of 20-user pages holding every user |
| AdminPanel.PrevPage | frontend/src/pages/Admin.tsx:987 | definition of "Anterior": `Math.max(0, p - 1)`; stated by `PagerBounds` |
| AdminPanel.NextPage | frontend/src/pages/Admin.tsx:994 | definition of "Siguiente": `Math.min(totalPages - 1, p + 1)`; stated by `PagerBounds` |
| AdminPanel.PrevDisabled | frontend/src/pages/Admin.tsx:988 | definition of "Anterior" being disabled (`currentPage === 0`); stated by `PagerBounds` |
| AdminPanel.NextDisabled | frontend/src/pages/Admin.tsx:995 | definition of "Siguiente" being disabled (`currentPage >= totalPages - 1`); stated by `PagerBounds` |
| AdminPanel.PageInRange | frontend/src/pages/Admin.tsx:985-995 | definition of a page the list can be on: the first, or one that exists; stated by `PagerBounds` |
| AdminPanel.PagerBounds | frontend/src/pages/Admin.tsx:985-995 | "Anterior" is disabled exactly on the first page and "Siguiente" exactly on the last; an enabled button moves one page and keeps the page in range |
| AdminPanel.ShownRange | frontend/src/pages/Admin.tsx:983 | definition of the "Mostrando first - last" positions on page `p`; stated by `ShownRangeInside` |
| AdminPanel.ShownRangeInside | frontend/src/pages/Admin.tsx:983 | on an existing page the "Mostrando" range is non-empty, inside the user list and at most 20 users long |
| AdminPanel.Matching | frontend/src/pages/Admin.tsx:406-412 | an entry is kept exactly when its lower-cased key contains the lower-cased search term, and the result is no longer than the list |
| AdminPanel.MatchingAppend | frontend/src/pages/Admin.tsx:406-412 | the search keeps the list's order: filtering a concatenation is concatenating the filtered parts |
| AdminPanel.MatchingEmptyTerm | frontend/src/pages/Admin.tsx:406-412 | an empty search term keeps every entry in order |
| AdminPanel.MatchingIgnoresCase | frontend/src/pages/Admin.tsx:406-412 | searching for the upper-cased term finds exactly what searching for the term finds |
| AdminPanel.FilteredBanned | frontend/src/pages/Admin.tsx:406-408 | no ban list gives no entries; otherwise an entry is shown exactly when it contains the term, ignoring case |
| AdminPanel.FilteredUsers | frontend/src/pages/Admin.tsx:410-412 | a user is shown exactly when the username contains the term, ignoring case |
| AdminPanel.BanRequest | frontend/src/pages/Admin.tsx:204-215 | nothing is sent exactly when the entry is blank; otherwise the entry is sent as typed, untrimmed |
| AdminPanel.Reverse | frontend/src/pages/Admin.tsx:151 | the reversed list has the same length with element k taken from the k-th position from the end |
| AdminPanel.TakeLast | frontend/src/pages/Admin.tsx:151 | `slice(-n)` keeps the last n elements, or all of them when there are fewer |
| AdminPanel.TextLogLines | frontend/src/pages/Admin.tsx:150-151 | a plain-text log shows at most 50 lines, the newest first, each the matching line counted from the end |
| AdminPanel.ShownLogsAsWritten | frontend/src/pages/Admin.tsx:150-154 | definition of the stored log lines as written: a text answer split, reversed and cut to 50, a JSON answer read from `logs`; stated by `LogsKeyLosesLines` and `ErrorLineAlerts` |
| AdminPanel.ShownLogs | frontend/src/pages/Admin.tsx:150-154 | definition of the corrected reading, a JSON answer read from `lines`; stated by `LogsKeyLosesLines` and `DashboardAlerts` |
| AdminPanel.ServerJsonLog | backend/lib/fiveserver/admin.py:834-837 | definition of the log resource's JSON answer, which carries only `lines`; stated by `LogsKeyLosesLines` and `DashboardAlerts` |
| AdminPanel.LogsKeyLosesLines | frontend/src/pages/Admin.tsx:152-153 | reading `logs` from the server's JSON answer shows no line, while reading `lines` shows them all |
| AdminPanel.IsAlert | frontend/src/pages/Admin.tsx:522 | definition of an alert line: it contains `ERROR` or `WARN`; stated by `Alerts` and `DashboardAlerts` |
| AdminPanel.Alerts | frontend/src/pages/Admin.tsx:522 | a line is an alert exactly when it contains "ERROR" or "WARN"; their number is the "Activas" count |
| AdminPanel.ShownAlerts | frontend/src/pages/Admin.tsx:532 | the alert cards are the first alerts, at most ten, and all of them when there are ten or fewer |
| AdminPanel.DashboardAlerts | frontend/src/pages/Admin.tsx:522-532 | with the log read from `lines`, every card is an alert line of the server's answer, at most ten |
| AdminPanel.ErrorLineAlerts | frontend/src/pages/Admin.tsx:150-153 | an error line in the server's JSON answer raises one alert card once `lines` is read, and none as written |
| Account.IsAdmin | frontend/src/pages/Account.tsx:7-34 | definition of the administrator test: the lower-cased user name is one of three fixed names; stated by `IsAdminIgnoresCase` |
| Account.IsAdminIgnoresCase | frontend/src/pages/Account.tsx:7-34 | administrator status ignores letter case and holds exactly for "admin", "juce" and "reddwarf" |
| Account.CurrentProfile | frontend/src/pages/Account.tsx:39-43 | the selected profile is the profile at the selected index when there is one; no profiles gives none |
| Account.StatsOf | frontend/src/pages/Account.tsx:46 | definition of the statistics shown: the selected profile's, or all zero; stated by `NoProfilesAllZero` |
| Account.StreaksOf | frontend/src/pages/Account.tsx:47 | definition of the streaks shown: the selected profile's, or zero; stated by `NoProfilesAllZero` |
| Account.NoProfilesAllZero | frontend/src/pages/Account.tsx:39-52 | without profiles the statistics and streaks take their zero defaults, and the win rate and hours are 0 |
| Account.WinRate | frontend/src/pages/Account.tsx:49-50 | the win rate is 0 with no matches, else the integer nearest to won/played*100 with halves rounded up |
| Account.WinRateBounds | frontend/src/pages/Account.tsx:50 | a win count within the matches played gives a rate in 0..100, and 100 when every match was won |
| Account.HoursPlayed | frontend/src/pages/Account.tsx:52 | the hours are the floor of the seconds played (0 when absent) over 3600 |
| Account.GoalDifferenceLabel | frontend/src/pages/Account.tsx:279-282 | the label starts with '+' exactly when the difference is positive and with '-' exactly when it is negative |
| Account.GoalDifferenceLabelReadsBack | frontend/src/pages/Account.tsx:281-282 | reading the label back as a number gives goals for minus goals against |
| MatchHistory.GetWinner | frontend/src/pages/MatchHistory.tsx:56-60 | home wins exactly when its score is higher, away exactly when its score is higher, a draw exactly on equal scores |
| MatchHistory.GetWinnerSwap | frontend/src/pages/MatchHistory.tsx:56-60 | swapping the two sides swaps home and away wins and keeps a draw |
| MatchHistory.UniquePlayerCount | frontend/src/pages/MatchHistory.tsx:110 | definition of the unique-players figure: the number of distinct home and away names; stated by `UniquePlayerCountBound` and `SelfMatchesOneName` |
| MatchHistory.PlayerNames | frontend/src/pages/MatchHistory.tsx:110 | a name is in the set exactly when some match has it in the home or the away column |
| MatchHistory.UniquePlayerCountBound | frontend/src/pages/MatchHistory.tsx:110 | the distinct-player count is at most twice the matches and at least 1 when there is a match |
| MatchHistory.SelfMatchesOneName | frontend/src/pages/MatchHistory.tsx:110 | one player on both sides of every match counts as one name |
| MatchHistory.TotalGoals | frontend/src/pages/MatchHistory.tsx:119 | definition of the total-goals figure: the sum of both scores over the matches; stated by `TotalGoalsAppend`, `TotalGoalsCoversEach` and `TotalGoalsNonNegative` |
| MatchHistory.TotalGoalsAppend | frontend/src/pages/MatchHistory.tsx:119 | the goal total of two joined lists is the sum of their totals |
| MatchHistory.TotalGoalsCoversEach | frontend/src/pages/MatchHistory.tsx:119 | with non-negative scores the total is at least the goals of any single match |
| MatchHistory.TotalGoalsNonNegative | frontend/src/pages/MatchHistory.tsx:119 | non-negative scores give a non-negative total |
| MatchHistory.Summarize | frontend/src/pages/MatchHistory.tsx:102-119 | definition of the three summary figures: match count, distinct players, total goals; stated by `UniquePlayerCountBound`, `TotalGoalsNonNegative` and `MissingMatchesIsEmpty` |
| MatchHistory.FetchDone | frontend/src/pages/MatchHistory.tsx:25-43 | loading ends; a failed request sets the error message and keeps the list; an answer sets the list to its `matches` or to empty |
| MatchHistory.MissingMatchesIsEmpty | frontend/src/pages/MatchHistory.tsx:33 | an answer without `matches` shows zero matches, zero players and zero goals |
| AdminServer.IsJsonRequest | backend/lib/fiveserver/admin.py:90-91 | definition of a JSON request: `format=json` in the query or `application/json` in the Accept header; stated by `AuthGateCases` and `JsonSkipsCredentials` |
| AdminServer.AuthGate | backend/lib/fiveserver/admin.py:88-116 | definition of how a resource answers a request: the JSON renderer when JSON is asked and available; an unchecked resource dispatches; otherwise an empty user is unauthorized, the configured user with the non-empty configured password dispatches, anyone else is forbidden; stated by `AuthGateCases`, `JsonSkipsCredentials` and `EmptyPasswordNeverDispatches` |
| AdminServer.AuthGateCases | backend/lib/fiveserver/admin.py:88-116 | the four outcomes of the gate, each with exactly the requests that get it: the JSON renderer for a JSON request to a resource that has one, 401 for a missing user name, dispatch when unauthenticated or on matching non-empty credentials, 403 otherwise |
| AdminServer.JsonSkipsCredentials | backend/lib/fiveserver/admin.py:90-95 | a JSON request to a resource with a JSON renderer gets the same answer whatever credentials it carries |
| AdminServer.EmptyPasswordNeverDispatches | backend/lib/fiveserver/admin.py:99-111 | on a checked resource an empty password never passes, even when the configured password is empty |
| AdminServer.RequestedLines | backend/lib/fiveserver/admin.py:809-810 | definition of the requested count: the `n` argument, 30 when missing or not a number (also admin.py:827-828); stated by `TextLogAnswer` and `JsonLogDefault` |
| AdminServer.ClampLines | backend/lib/fiveserver/admin.py:829 | the clamped count lies in 10..5000; a count already in range is kept, one below 10 becomes 10 and one above 5000 becomes 5000 |
| AdminServer.Tail | backend/lib/fiveserver/admin.py:833 | `lines[-n:]` is the suffix of length n, or the whole list when it is shorter |
| AdminServer.TextLogAnswer | backend/lib/fiveserver/admin.py:803-818 | the header count lies in 10..5000 and the lines written are a suffix of the file |
| AdminServer.TextLogHeader | backend/lib/fiveserver/admin.py:810-817 | for a file of ten lines or more the header counts exactly the lines shown; a shorter file is shown whole under a header saying ten |
| AdminServer.TextLogShowsClampedTail | backend/lib/fiveserver/admin.py:803-818 | the lines shown are always the last `clamp(n)` lines of the file, and on a file of ten lines or more the header is the smaller of the file length and `clamp(n)` |
| AdminServer.StripAll | backend/lib/fiveserver/admin.py:836 | every line is replaced by its stripped form, in order |
| AdminServer.JsonLogLines | backend/lib/fiveserver/admin.py:823-837 | the `lines` array holds the last clamp(n) lines of the file, or all of them, each stripped, in file order |
| AdminServer.JsonLogDefault | backend/lib/fiveserver/admin.py:827-833 | without `n` a long enough file gives its last 30 lines; any request on a file of ten lines or more gives between 10 and 5000 lines |
| AdminServer.NewMaxUsers | backend/lib/fiveserver/admin.py:894-901 | the new limit is the posted integer when it lies in 0..1000 and the current value otherwise |
| AdminServer.MaxUsersStaysInRange | backend/lib/fiveserver/admin.py:894-901 | a limit in 0..1000 stays in 0..1000 whatever is posted |
| AdminServer.ParseFlag | backend/lib/fiveserver/admin.py:860-866 | definition of reading a flag argument: `0`/`false`/`no` and `1`/`true`/`yes` after lower-casing, anything else no decision; stated by `FlagIgnoresCase` and `FlagWords` |
| AdminServer.FlagIgnoresCase | backend/lib/fiveserver/admin.py:860-866 | the flag words are read whatever their letter case |
| AdminServer.FlagStep | backend/lib/fiveserver/admin.py:860-866 | definition of the new flag value: the parsed decision, else the current value; stated by `FlagStepRules` |
| AdminServer.FlagStepRules | backend/lib/fiveserver/admin.py:860-866 | a missing argument leaves the flag alone, and posting the same argument twice is posting it once |
| AdminServer.FlagWords | backend/lib/fiveserver/admin.py:929-934 | "TRUE" and "Yes" read as true and "No" as false |
| AdminServer.ServerConfig.constructor | backend/lib/fiveserver/admin.py:877-901 | the settings start at the given values |
| AdminServer.ServerConfig.PostMaxUsers | backend/lib/fiveserver/admin.py:890-901 | the limit becomes NewMaxUsers of the old one; the other settings are unchanged |
| AdminServer.ServerConfig.PostDebug | backend/lib/fiveserver/admin.py:856-866 | the debug flag takes the posted word's value or stays; the other settings are unchanged |
| AdminServer.ServerConfig.PostStoreSettings | backend/lib/fiveserver/admin.py:925-934 | the store flag takes the posted word's value or stays; the other settings are unchanged |
| AdminServer.IndexOf | backend/lib/fiveserver/admin.py:1029 | `list.index` finds the first position holding the entry, and fails exactly when the entry is absent |
| AdminServer.FirstOccurrence | backend/lib/fiveserver/admin.py:1078 | the first position holding the entry is the one `list.index` returns |
| AdminServer.FindIndex | backend/lib/fiveserver/admin.py:1078 | the linear search answers what IndexOf specifies |
| AdminServer.BanAddStep | backend/lib/fiveserver/admin.py:1029-1034 | definition of adding a ban entry: appended when absent and not blank after stripping; stated by `BanAddRules`, `BanAddSkipsBlank` and `BanAddKeepsDistinct` |
| AdminServer.BanAddRules | backend/lib/fiveserver/admin.py:1029-1034 | after adding, an entry is banned exactly when it was before or is the added non-blank entry; adding twice is adding once |
| AdminServer.BanAddSkipsBlank | backend/lib/fiveserver/admin.py:1031 | an entry of white space only is never added |
| AdminServer.BanAddKeepsDistinct | backend/lib/fiveserver/admin.py:1029-1034 | a ban list without repeats never gets one from adding |
| AdminServer.BanRemoveStep | backend/lib/fiveserver/admin.py:1078-1084 | definition of removing a ban entry: its first occurrence is deleted, if any; stated by `BanRemoveRules` and `BanRemoveUndoesAdd` |
| AdminServer.BanRemoveRules | backend/lib/fiveserver/admin.py:1078-1084 | removing takes out exactly one copy of the entry, or nothing when it is absent |
| AdminServer.BanRemoveUndoesAdd | backend/lib/fiveserver/admin.py:1029-1084 | removing a ban just added gives the list back |
| AdminServer.BannedList.constructor | backend/lib/fiveserver/admin.py:945-972 | the list starts as the stored ban list |
| AdminServer.BannedList.BanAdd | backend/lib/fiveserver/admin.py:1016-1034 | the ban list changes in place as BanAddStep states |
| AdminServer.BannedList.BanRemove | backend/lib/fiveserver/admin.py:1065-1084 | the ban list changes in place as BanRemoveStep states |
| AdminServer.PostStep | backend/lib/fiveserver/admin.py:1475-1498 | the answer is 400 exactly when title or message is missing; otherwise the list grows by one entry in front of the old list |
| AdminServer.PostStepFront | backend/lib/fiveserver/admin.py:1489-1495 | the new announcement is first, active, with the fresh id, the creation time, the posted title and message, and the posted type, or "info" when none was given |
| AdminServer.DeleteStep | backend/lib/fiveserver/admin.py:1515-1520 | an announcement is kept exactly when its id differs from the deleted one |
| AdminServer.DeleteStepRules | backend/lib/fiveserver/admin.py:1515-1520 | deleting an id nobody has keeps the list, and deleting twice is deleting once |
| AdminServer.DeleteUndoesPost | backend/lib/fiveserver/admin.py:1475-1520 | deleting the announcement just created under a fresh id gives the old list back |
| AdminServer.AnnouncementStore.constructor | backend/lib/fiveserver/admin.py:1445-1473 | the store starts from the saved announcements |
| AdminServer.AnnouncementStore.Post | backend/lib/fiveserver/admin.py:1475-1498 | the answer is PostStep of the old list, and the list is replaced only when the post is accepted |
| AdminServer.AnnouncementStore.Delete | backend/lib/fiveserver/admin.py:1515-1520 | the list becomes DeleteStep of the old one |
| AdminServer.FavPlayerId | backend/lib/fiveserver/admin.py:430 | the player half lies in 0..65535 and is congruent to the packed value modulo 2^16 |
| AdminServer.FavPlayerTeamId | backend/lib/fiveserver/admin.py:431 | the team half lies in 0..65535 |
| AdminServer.FavPlayerHalves | backend/lib/fiveserver/admin.py:429-431 | a 32-bit value is its team half times 2^16 plus its player half, and packing two halves reads them back |
| AdminServer.Games | backend/lib/fiveserver/admin.py:415-423 | the games played are at least the wins, the draws and the losses, and are zero exactly when all three are, which is when the ratios fall back to 0.0 |
| AdminServer.VerifyPreHash | backend/lib/fiveserver/admin.py:1303-1310 | the rebuilt string is the pre-hash the reset tool computes from the stored serial, user name and password |
| AdminServer.CheckPassword | backend/lib/fiveserver/admin.py:1303-1322 | the password is accepted exactly when the encrypted digest of the rebuilt pre-hash equals the stored hash |
| AdminServer.PreHashIgnoresSeparators | backend/lib/fiveserver/admin.py:1305 | dashes and spaces in the stored serial do not change the pre-hash |
| AdminServer.ColonScoreText | backend/lib/fiveserver/admin.py:616 | definition of the live-match score as written, `'%d:%d'`; stated by `ColonScoreMisread` |
| AdminServer.ColonScoreMisread | backend/lib/fiveserver/admin.py:616 | the "home:away" score text reads in the front end as the home goals and zero |
| AdminServer.ScoreText | backend/lib/fiveserver/admin.py:616 | the corrected score text reads back in the front end as exactly the home and away goals |
| AdminServer.LiveMatchData | backend/lib/fiveserver/admin.py:612-619 | a live match's score field reads back in the front end as its home and away goals |
| UpdateConfig.Falsy | backend/update_config.py:12 | definition of Python's false values of a loaded document; stated by `Loaded` |
| UpdateConfig.Loaded | backend/update_config.py:12 | an empty or false document is read as an empty map, and any other document as itself |
| UpdateConfig.Lookup | backend/update_config.py:20-31 | definition of reading the value a key path leads to; stated by `SetPathGet`, `SetPathPreserves` and `SetPathFails` |
| UpdateConfig.SetPath | backend/update_config.py:20-31 | definition of setting one dotted key path: missing maps created on the way, failure when the walk meets a non-map; stated by `SetPathGet`, `SetPathChanged`, `SetPathFails`, `SetPathPreserves` and `SetPathIdempotent` |
| UpdateConfig.SetPathGet | backend/update_config.py:20-31 | after a walk that does not raise, the key path leads to the new string value |
| UpdateConfig.SetPathChanged | backend/update_config.py:28-31 | the leaf is written, and `changed` set, exactly when the document differs afterwards |
| UpdateConfig.NeverCreatesUnchanged | backend/update_config.py:22-31 | a walk through a map it had to create always writes its leaf |
| UpdateConfig.EmptyNeverFails | backend/update_config.py:22-31 | a walk below a freshly created empty map never raises |
| UpdateConfig.SetPathFails | backend/update_config.py:20-31 | the walk raises exactly when some proper prefix of the key path leads to a value that is not a map |
| UpdateConfig.SetPathPreserves | backend/update_config.py:20-31 | every path that parts ways from the updated one leads where it led before |
| UpdateConfig.SetPathIdempotent | backend/update_config.py:20-31 | right after an update, walking it again neither raises nor writes |
| UpdateConfig.InPlacePreserved | backend/update_config.py:15-31 | an update already in place stays in place when a path that parts ways from it is written |
| UpdateConfig.PathOf | backend/update_config.py:20 | splitting a key path on '.' gives at least one key |
| UpdateConfig.UpdateYaml | backend/update_config.py:5-40 | a missing file is reported and left alone; otherwise the updates are applied in order, an exception leaves the file as it was, and the file is saved exactly when some leaf was written |
| UpdateConfig.ApplyUpdates | backend/update_config.py:14-33 | definition of applying the updates in order, skipping unset values and recording whether anything changed; stated by `ApplyFailedStays`, `ApplyUnchangedIsIdentity`, `ApplyLeavesInPlace`, `ReapplyWritesNothing` and `ApplyPreservesOthers` |
| UpdateConfig.ApplyFailedStays | backend/update_config.py:10-40 | once one update raises, the whole run ends in the error |
| UpdateConfig.ApplyUnchangedIsIdentity | backend/update_config.py:14-34 | a run that writes no leaf leaves the document exactly as it was read |
| UpdateConfig.ApplyLeavesInPlace | backend/update_config.py:15-32 | after a run of independent updates, every set key path leads to its value and walking it again writes nothing |
| UpdateConfig.ReapplyWritesNothing | backend/update_config.py:15-34 | running the same independent updates again on the result changes nothing and saves nothing |
| UpdateConfig.AllInPlace | backend/update_config.py:15-32 | updates that are all in place run without raising and without writing |
| UpdateConfig.ApplyPreservesOthers | backend/update_config.py:15-32 | paths that part ways from every set key path lead where they led before the run |
| UpdateConfig.UnsetSkipped | backend/update_config.py:16-17 | an update whose environment value is unset changes nothing |

## Left out

- Rendering: JSX markup, CSS classes, routing and the pages that only render, along with the one-line rules in thin pages (`Home.tsx`, `ServerStats.tsx`, `Header.tsx`, `MatchCard.tsx`) and `MatchModal.tsx`'s percentage bars.
- Requests and storage: axios and `fetch` calls, the WebSocket object, `localStorage` and the ipapi.co country lookup. Each operation takes the outcome of its request as input, and storage is a key-to-string map.
- Foreign primitives: MD5 (js-md5, `hashlib`), Blowfish, `btoa`, `uuid4`, `datetime.now`, JSON and YAML parsing and dumping. They are parameters or already-computed inputs. A body that fails to parse as JSON is a `None` message.
- Timers and asynchrony: the delays themselves (3000 ms reconnect, 5000 ms polling, the banner's reveal and 300 ms dismissal), React effect re-runs, and stale closures such as the `reconnectAttempts` captured in `connect` or the dismissed list captured at click time. Timers are discrete events. For the stale closures the model follows the intended per-instance machine; the close handler that `disconnect` leaves attached is modelled as written, and its consequence is under "## Findings".
- Twisted Deferred chains, and the 0.5 s wait before the match-history query in the backend.
- Floating point: the backend's win percentage and averages, CPU and memory figures, `avgGoalsPerMatch.toFixed`, and the capacity bar.
- Account.WinRate: `Math.round(won / played * 100)` is computed in doubles; the model rounds the exact rational, halves up, which can differ only where a double product lands on the wrong side of a half.
- AdminPanel.TotalPages: `Math.ceil` of a double quotient is the exact integer ceiling here, because user counts are far below 2^53.
- Text case mapping: `toLowerCase`, `toUpperCase` and Python's `lower()` map ASCII letters only; other scripts' case pairs are not modelled.
- Python's `int()` on a request argument is given as an `Option<int>`: `None` for a missing or unparsable argument.
- SQL, XML and HTML templates, `domish` trees, psutil and `ps` process queries, and the user, online, profile-query and match-history resources that only relay them.
- File I/O: the log file, `announcements.json` and the YAML file are values passed in and returned. The reset script's `print` is its returned output.
- UpdateConfig.UpdateYaml: the nested dictionary is walked by reference in the source and rebuilt as a value here, so aliasing between sub-maps is not modelled. YAML keys are strings, and a YAML parse error is not modelled (only errors raised by the walk are).
- `update_config.py`'s `main()`: reading `FSROOT` and the environment variables, and the two fixed update dictionaries; `UpdateYaml` takes any file and any update list.
- RegisterForm: the loading flag while its two requests are pending (only its value once they are answered is modelled), and the `onSuccess` callback run 2000 ms after a successful registration.
- RegisterForm.Validate, RegisterPage.ValidatePage: the browser's own constraint validation is not modelled, and the script's checks are applied to any field values. Neither form sets `noValidate`, so while a field breaks its `required`, `minLength={3}` or `maxLength={24}` attribute the browser refuses to submit and `handleSubmit` never runs. In frontend/src/components/RegisterForm.tsx:148-205 the serial has `maxLength={24}`, the user name and both passwords have `minLength={3}`, and all four are `required`. In frontend/src/pages/Register.tsx:117-165 the user name and the password have `minLength={3}`, the serial has `maxLength={24}`, and all four are `required`. For typed input the password-length messages ("La contraseña debe tener mínimo 3 caracteres." and "La contraseña debe tener al menos 3 caracteres") are therefore never shown, an empty field never reaches the script, and the page's user-name message only appears for a name with a character that is not a letter or digit.
- RegisterPage: the `getElementById` lookups of the hidden `hash` and `serial` fields are taken to succeed, and the browser's form post itself is the recorded pair of field values.
- Session.LoginStep, Session.LoginUserStep: `btoa` is called before the `try` in `login` and `loginUser` and throws on a user name or password holding a character above U+00FF, so such a login rejects instead of answering false; here the encoder is a total parameter and that path is not modelled.
- DataTransformers.ParseInt: JavaScript's `parseInt` yields a double, so a digit run beyond 2^53 loses precision and a very long one becomes `Infinity`; here the digits are read as an exact integer.
- DataTransformers.ParseMinute: a numeric clock is passed through as it is, fractions included; here a numeric clock holds an integer, so a fractional or NaN clock is not modelled.
- The log resource's answers when the log file is missing (an XML error in the text form, an error object with an empty `lines` array in JSON): fixed answers to a file-system query, which is outside the model.
- `update_config.py`'s progress messages (file not found, `Updated <key>`, `Saved updates to <file>`, the error text): console output. `UpdateYaml` returns which outcome happened (not found, error, unchanged, saved), but not the per-key `Updated` lines.
- `App.tsx`'s route guard, which sends a visitor without an administrator credential to `/login`.

## Findings

| source | as written | input that shows it | evidently intended | confidence | as-written member | corrected member |
|---|---|---|---|---|---|---|
| backend/lib/fiveserver/admin.py:616 | the live-match score is written as `'%d:%d'`, but the dashboard's `parseScore` splits on `'-'` (frontend/src/utils/dataTransformers.ts:88-93) | score_home 2, score_away 1: the text "2:1" is shown as 2 - 0 | the score text uses the separator the dashboard reads, so both goals are shown | not executed; high that the two texts disagree | AdminServer.ColonScoreMisread | AdminServer.ScoreText |
| frontend/src/pages/Admin.tsx:153 | the JSON log answer is read from its `logs` field, but the log resource answers with a `lines` field (backend/lib/fiveserver/admin.py:834-837) | a log whose last line contains "ERROR": the panel shows no log line and no alert | the panel reads `lines`, so the log and its alerts are shown | not executed; medium, because the request routing that reaches the log resource is not part of this model | AdminPanel.LogsKeyLosesLines | AdminPanel.DashboardAlerts |
| frontend/src/hooks/useWebSocket.ts:84 | `disconnect` clears the pending timer and closes the socket, but the socket's `onclose` handler (frontend/src/hooks/useWebSocket.ts:56-71) stays attached, runs on that close and schedules a reconnect timer that nothing clears | on unmount with attempts below the maximum, the events `disconnect`, close, timer: a new socket is opened after teardown | teardown leaves no timer and no socket: the close that `disconnect` causes schedules nothing | not executed; high, since the handler is never detached | WebSocket.CloseAfterDisconnectReconnects | WebSocket.DisconnectLeavesNothing |
