/**
 * The view-model transformers of the live dashboard: one server-statistics
 * snapshot (the body of `GET /api/stats` or the `data` of a `stats_update`
 * stream message) is folded into the lobby list, the waiting-room list and
 * the live-match list.
 */
module DataTransformers {
  import opened Text

  // ---------------------------------------------------------------------------
  // Wire format of a snapshot

  /** A minute field as it can arrive: absent or null, a number, or text such as "45'". */
  datatype Clock = NoClock | ClockNumber(n: int) | ClockText(s: string)

  datatype RoomInfo = RoomInfo(
    id: int, name: string, isPrivate: bool, phase: int, status: string,
    players: seq<string>, owner: Option<string>)

  datatype MatchInfo = MatchInfo(
    roomName: string, score: Option<string>,
    homeProfile: Option<string>, awayProfile: Option<string>,
    homeTeam: Option<seq<string>>, awayTeam: Option<seq<string>>,
    clock: Clock)

  datatype LobbyInfo = LobbyInfo(
    name: string, playerCount: int, matchesInProgress: int,
    matches: Option<seq<MatchInfo>>, rooms: Option<seq<RoomInfo>>)

  datatype StatsResponse = StatsResponse(playerCount: int, lobbies: seq<LobbyInfo>)

  // ---------------------------------------------------------------------------
  // View models

  datatype Region = AR | BR | CL | General
  datatype LobbyStatus = Waiting | InGame

  datatype Lobby = Lobby(
    id: string, name: string, region: Region, status: LobbyStatus,
    players: int, maxPlayers: int)

  datatype WaitingRoom = WaitingRoom(
    id: string, name: string, lobbyName: string, players: seq<string>,
    maxPlayers: int, isPrivate: bool, status: string, owner: Option<string>)

  /** A home/away pair of integers: a score or one line of match statistics. */
  datatype Score = Score(home: int, away: int)

  datatype EventKind = Goal | YellowCard | RedCard | Substitution
  datatype Side = Home | Away
  datatype MatchEvent = MatchEvent(minute: int, kind: EventKind, team: Side, player: string, description: string)

  datatype MatchStats = MatchStats(possession: Score, shots: Score, fouls: Score, corners: Score, offsides: Score)

  datatype Match = Match(
    id: string, homeTeam: string, awayTeam: string,
    homePlayer: string, awayPlayer: string, score: Score, minute: int,
    roomName: string, lobbyName: string, events: seq<MatchEvent>, stats: MatchStats)

  // ---------------------------------------------------------------------------
  // JavaScript `parseInt` without a radix; `None` stands for NaN

  function ParseInt(s: string): Option<int> {
    var t := TrimStartJs(s);
    var negative := t != [] && t[0] == '-';
    var u := if t != [] && (t[0] == '-' || t[0] == '+') then t[1..] else t;
    match ParseUnsigned(u)
    case None => None
    case Some(v) => var n: int := v; Some(if negative then -n else n)
  }

  /** The text after the sign: "0x" or "0X" selects base 16, anything else base 10. */
  function ParseUnsigned(u: string): Option<nat> {
    if |u| >= 2 && u[0] == '0' && (u[1] == 'x' || u[1] == 'X') then
      var h := HexPrefix(u[2..]);
      if h == [] then None else Some(HexValue(h))
    else
      var d := DigitPrefix(u);
      if d == [] then None else Some(DecimalValue(d))
  }

  lemma ParseUnsignedDecimal(d: string, rest: string)
    requires d != [] && AllDigits(d) && (rest == [] || !IsDigit(rest[0]))
    requires |d| >= 2 || rest == [] || (rest[0] != 'x' && rest[0] != 'X')
    ensures ParseUnsigned(d + rest) == Some(DecimalValue(d))
  {
    var s := d + rest;
    assert |s| >= 2 ==> s[1] != 'x' && s[1] != 'X' by {
      if |d| >= 2 { assert s[1] == d[1]; } else if |s| >= 2 { assert s[1] == rest[0]; }
    }
    DigitPrefixOf(d, rest);
  }

  /** Text that starts with neither whitespace nor a sign is read unsigned. */
  lemma ParseIntUnsigned(s: string)
    requires s == [] || (!IsJsSpace(s[0]) && s[0] != '-' && s[0] != '+')
    ensures ParseInt(s) == match ParseUnsigned(s) { case None => None case Some(v) => Some(v) }
  {
    TrimStartOfNonSpace(s);
  }

  /** `parseInt(x) || 0`: NaN (and zero) fall through to 0. */
  function IntOrZero(p: Option<int>): int {
    if p.Some? then p.value else 0
  }

  /**
   * A leading run of decimal digits is read as a decimal number and whatever
   * follows a non-digit is ignored, unless the run is a lone "0" followed by
   * 'x' or 'X', which starts a hexadecimal literal.
   */
  lemma ParseIntDecimal(d: string, rest: string)
    requires d != [] && AllDigits(d) && (rest == [] || !IsDigit(rest[0]))
    requires |d| >= 2 || rest == [] || (rest[0] != 'x' && rest[0] != 'X')
    ensures ParseInt(d + rest) == Some(DecimalValue(d))
  {
    var s := d + rest;
    assert s[0] == d[0];
    ParseIntUnsigned(s);
    ParseUnsignedDecimal(d, rest);
  }

  lemma ParseUnsignedHex(h: string, rest: string)
    requires h != [] && AllHexDigits(h) && (rest == [] || !IsHexDigit(rest[0]))
    ensures ParseUnsigned("0x" + h + rest) == Some(HexValue(h))
  {
    var u := "0x" + h + rest;
    assert u[0] == '0' && u[1] == 'x' && u[2..] == h + rest;
    HexPrefixOf(h, rest);
  }

  /** A lone "0" followed by 'x' and hexadecimal digits is read in base 16. */
  lemma ParseIntHex(h: string, rest: string)
    requires h != [] && AllHexDigits(h) && (rest == [] || !IsHexDigit(rest[0]))
    ensures ParseInt("0x" + h + rest) == Some(HexValue(h))
  {
    var s := "0x" + h + rest;
    assert s[0] == '0';
    ParseIntUnsigned(s);
    ParseUnsignedHex(h, rest);
  }

  /** A sign followed by decimal digits is read with that sign. */
  lemma ParseIntSignedDecimal(c: char, d: string)
    requires c == '-' || c == '+'
    requires d != [] && AllDigits(d)
    ensures ParseInt([c] + d) == Some(if c == '-' then -(DecimalValue(d) as int) else DecimalValue(d))
  {
    var s := [c] + d;
    TrimStartOfNonSpace(s);
    assert s[1..] == d && d + [] == d;
    ParseUnsignedDecimal(d, []);
  }

  /** Text without any digit after the optional sign is NaN. */
  lemma ParseIntNaN(s: string)
    requires s == [] || (!IsJsSpace(s[0]) && !IsDigit(s[0]) && s[0] != '-' && s[0] != '+')
    ensures ParseInt(s) == None
  {
    ParseIntUnsigned(s);
  }

  // ---------------------------------------------------------------------------
  // Field parsers

  /** `parseScore`: split on '-', read the first two pieces, NaN or a missing piece gives 0. */
  function ParseScore(scoreStr: string): Score {
    var parts := Split(scoreStr, '-');
    Score(IntOrZero(ParseInt(parts[0])),
          if |parts| > 1 then IntOrZero(ParseInt(parts[1])) else 0)
  }

  /** "H-A" with decimal H and A parses back to {home: H, away: A}. */
  lemma ParseScoreRoundTrip(h: nat, a: nat)
    ensures ParseScore(DecimalString(h) + "-" + DecimalString(a)) == Score(h, a)
  {
    var x, y := DecimalString(h), DecimalString(a);
    assert Avoids(x, '-') && Avoids(y, '-');
    ParseScorePair(x, y);
    ParseIntDecimalString(h);
    ParseIntDecimalString(a);
  }

  /** Text without a second '-' is read as its two sides. */
  lemma ParseScorePair(x: string, y: string)
    requires Avoids(x, '-') && Avoids(y, '-')
    ensures ParseScore(x + "-" + y) == Score(IntOrZero(ParseInt(x)), IntOrZero(ParseInt(y)))
  {
    assert x + "-" + y == x + ['-'] + y;
    SplitFirst(x, '-', y);
    SplitNoSep(y, '-');
  }

  /** A number written in decimal reads back as itself. */
  lemma ParseIntDecimalString(n: nat)
    ensures ParseInt(DecimalString(n)) == Some(n)
  {
    var x := DecimalString(n);
    assert x + [] == x;
    ParseIntDecimal(x, []);
    DecimalRoundTrip(n);
  }

  /** An integer written with `IntString` reads back as itself. */
  lemma ParseIntIntString(i: int)
    ensures ParseInt(IntString(i)) == Some(i)
  {
    if i < 0 {
      DecimalRoundTrip(-i);
      assert IntString(i) == ['-'] + DecimalString(-i);
      ParseIntSignedDecimal('-', DecimalString(-i));
    } else {
      ParseIntDecimalString(i);
    }
  }

  /** A '+' in front of a decimal number is read as the number. */
  lemma ParseIntPlus(n: nat)
    ensures ParseInt("+" + DecimalString(n)) == Some(n)
  {
    DecimalRoundTrip(n);
    ParseIntSignedDecimal('+', DecimalString(n));
  }

  /** Pieces after the second one are ignored. */
  lemma ParseScoreIgnoresTail(x: string, y: string, tail: string)
    requires Avoids(x, '-') && Avoids(y, '-')
    ensures ParseScore(x + ['-'] + (y + ['-'] + tail)) == ParseScore(x + ['-'] + y)
  {
    var long := Split(x + ['-'] + (y + ['-'] + tail), '-');
    var short := Split(x + ['-'] + y, '-');
    SplitFirst(x, '-', y + ['-'] + tail);
    SplitFirst(y, '-', tail);
    SplitFirst(x, '-', y);
    SplitNoSep(y, '-');
    assert long[0] == x == short[0];
    assert long[1] == y == short[1];
  }

  /** A string with no '-' has away = 0 and home read from the whole string. */
  lemma ParseScoreNoDash(s: string)
    requires Avoids(s, '-')
    ensures ParseScore(s) == Score(IntOrZero(ParseInt(s)), 0)
  {
    SplitNoSep(s, '-');
  }

  /** A score text that is not a number at all reads as 0-0. */
  lemma ParseScoreNotANumber(s: string)
    requires Avoids(s, '-')
    requires s == [] || (!IsJsSpace(s[0]) && !IsDigit(s[0]) && s[0] != '+')
    ensures ParseScore(s) == Score(0, 0)
  {
    ParseScoreNoDash(s);
    ParseIntNaN(s);
  }

  /** The first run of decimal digits, empty when there is none: the match of `/(\d+)/`. */
  function FirstDigitRun(s: string): (r: string)
    ensures AllDigits(r)
  {
    if s == [] then [] else if IsDigit(s[0]) then DigitPrefix(s) else FirstDigitRun(s[1..])
  }

  /** `parseMinute`: numbers pass through, absent or empty is 0, text yields its first digit run or 0. */
  function ParseMinute(clock: Clock): int {
    match clock
    case ClockNumber(n) => n
    case NoClock => 0
    case ClockText(s) =>
      var d := FirstDigitRun(s);
      if d == [] then 0 else DecimalValue(d)
  }

  /** Text is read at its first run of digits, whatever surrounds it. */
  lemma ParseMinuteText(before: string, digits: string, after: string)
    requires forall k :: 0 <= k < |before| ==> !IsDigit(before[k])
    requires digits != [] && AllDigits(digits) && (after == [] || !IsDigit(after[0]))
    ensures ParseMinute(ClockText(before + digits + after)) == DecimalValue(digits)
  {
    assert before + digits + after == before + (digits + after);
    FirstDigitRunAfter(before, digits, after);
  }

  lemma {:induction false} FirstDigitRunAfter(before: string, digits: string, after: string)
    requires forall k :: 0 <= k < |before| ==> !IsDigit(before[k])
    requires digits != [] && AllDigits(digits) && (after == [] || !IsDigit(after[0]))
    ensures FirstDigitRun(before + (digits + after)) == digits
  {
    if before == [] {
      assert before + (digits + after) == digits + after;
      assert (digits + after)[0] == digits[0];
      DigitPrefixOf(digits, after);
    } else {
      assert (before + (digits + after))[1..] == before[1..] + (digits + after);
      FirstDigitRunAfter(before[1..], digits, after);
    }
  }

  /** Text without digits gives 0. */
  lemma ParseMinuteNoDigits(s: string)
    requires forall k :: 0 <= k < |s| ==> !IsDigit(s[k])
    ensures ParseMinute(ClockText(s)) == 0
  {
    NoDigitRun(s);
  }

  lemma {:induction false} NoDigitRun(s: string)
    requires forall k :: 0 <= k < |s| ==> !IsDigit(s[k])
    ensures FirstDigitRun(s) == []
  {
    if s != [] {
      NoDigitRun(s[1..]);
    }
  }

  /** `detectRegion`: lower-case the name and test substrings in a fixed order. */
  function DetectRegion(lobbyName: string): Region {
    var name := ToLower(lobbyName);
    if Contains(name, "argentina") || Contains(name, "arg") then AR
    else if Contains(name, "brasil") || Contains(name, "bra") then BR
    else if Contains(name, "chile") || Contains(name, "chi") then CL
    else General
  }

  /**
   * Each long country name starts with its short key, so the region is
   * decided by the short keys alone, first match wins.
   */
  lemma DetectRegionByShortKey(lobbyName: string)
    ensures var name := ToLower(lobbyName);
      && (DetectRegion(lobbyName) == AR <==> Contains(name, "arg"))
      && (DetectRegion(lobbyName) == BR <==> !Contains(name, "arg") && Contains(name, "bra"))
      && (DetectRegion(lobbyName) == CL <==> !Contains(name, "arg") && !Contains(name, "bra") && Contains(name, "chi"))
      && (DetectRegion(lobbyName) == General <==> !Contains(name, "arg") && !Contains(name, "bra") && !Contains(name, "chi"))
  {
    var name := ToLower(lobbyName);
    if Contains(name, "argentina") { ContainsPrefixOf(name, "argentina", "arg"); }
    if Contains(name, "brasil") { ContainsPrefixOf(name, "brasil", "bra"); }
    if Contains(name, "chile") { ContainsPrefixOf(name, "chile", "chi"); }
  }

  /** Matching ignores the case of ASCII letters. */
  lemma DetectRegionIgnoresCase(lobbyName: string)
    ensures DetectRegion(ToUpper(lobbyName)) == DetectRegion(lobbyName)
  {
    ToLowerOfUpper(lobbyName);
  }

  // ---------------------------------------------------------------------------
  // Lobbies

  function LobbyView(index: nat, lobby: LobbyInfo): Lobby {
    Lobby("lobby-" + DecimalString(index), lobby.name, DetectRegion(lobby.name),
          if lobby.playerCount > 0 then InGame else Waiting,
          lobby.playerCount, 100)
  }

  /** `transformStatsToLobbies`: one lobby view per snapshot lobby, in order. */
  function TransformStatsToLobbies(stats: StatsResponse): (r: seq<Lobby>)
    ensures |r| == |stats.lobbies|
    ensures forall i :: 0 <= i < |r| ==>
      && r[i].id == "lobby-" + DecimalString(i)
      && r[i].name == stats.lobbies[i].name
      && r[i].region == DetectRegion(stats.lobbies[i].name)
      && r[i].players == stats.lobbies[i].playerCount
      && r[i].maxPlayers == 100
      && (r[i].status == InGame <==> stats.lobbies[i].playerCount > 0)
  {
    seq(|stats.lobbies|, i requires 0 <= i < |stats.lobbies| => LobbyView(i, stats.lobbies[i]))
  }

  /** Lobby ids are pairwise distinct. */
  lemma LobbyIdsDistinct(stats: StatsResponse, i: nat, j: nat)
    requires i < j < |stats.lobbies|
    ensures TransformStatsToLobbies(stats)[i].id != TransformStatsToLobbies(stats)[j].id
  {
    var r := TransformStatsToLobbies(stats);
    DecimalRoundTrip(i);
    DecimalRoundTrip(j);
    var p := "lobby-";
    assert r[i].id[|p|..] == DecimalString(i);
    assert r[j].id[|p|..] == DecimalString(j);
  }

  // ---------------------------------------------------------------------------
  // One list per element, concatenated

  /** `f` of every element of `xs`, one list after another, in order. */
  function FlatMap<A, B>(xs: seq<A>, f: A -> seq<B>): seq<B> {
    if xs == [] then [] else FlatMap(xs[..|xs| - 1], f) + f(xs[|xs| - 1])
  }

  /** The summed lengths of the lists of the first `n` elements. */
  function LengthBefore<A, B>(xs: seq<A>, f: A -> seq<B>, n: nat): nat
    requires n <= |xs|
  {
    if n == 0 then 0 else LengthBefore(xs, f, n - 1) + |f(xs[n - 1])|
  }

  /** Extending a prefix of `all` by one element appends that element. */
  lemma AppendNext<T>(before: seq<T>, all: seq<T>, j: nat)
    requires j < |all|
    ensures before + all[..j + 1] == (before + all[..j]) + [all[j]]
  {
    assert all[..j + 1] == all[..j] + [all[j]];
  }

  lemma FlatMapStep<A, B>(xs: seq<A>, f: A -> seq<B>, i: nat)
    requires i < |xs|
    ensures FlatMap(xs[..i + 1], f) == FlatMap(xs[..i], f) + f(xs[i])
  {
    assert xs[..i + 1][..i] == xs[..i];
  }

  /** The counts over a prefix depend on that prefix only. */
  lemma {:induction false} LengthBeforePrefix<A, B>(xs: seq<A>, f: A -> seq<B>, m: nat, n: nat)
    requires m <= n <= |xs|
    ensures LengthBefore(xs[..n], f, m) == LengthBefore(xs, f, m)
  {
    if m > 0 {
      LengthBeforePrefix(xs, f, m - 1, n);
      assert xs[..n][m - 1] == xs[m - 1];
    }
  }

  lemma {:induction false} FlatMapLength<A, B>(xs: seq<A>, f: A -> seq<B>)
    ensures |FlatMap(xs, f)| == LengthBefore(xs, f, |xs|)
  {
    if xs != [] {
      var n := |xs|;
      FlatMapLength(xs[..n - 1], f);
      LengthBeforePrefix(xs, f, n - 1, n - 1);
    }
  }

  /** Element `j` of the list of element `i` sits right after the lists of the elements before it. */
  lemma {:induction false} FlatMapAt<A, B>(xs: seq<A>, f: A -> seq<B>, i: nat, j: nat)
    requires i < |xs| && j < |f(xs[i])|
    ensures LengthBefore(xs, f, i) + j < |FlatMap(xs, f)|
    ensures FlatMap(xs, f)[LengthBefore(xs, f, i) + j] == f(xs[i])[j]
  {
    var n := |xs|;
    var init := xs[..n - 1];
    var front := FlatMap(init, f);
    FlatMapLength(init, f);
    LengthBeforePrefix(xs, f, n - 1, n - 1);
    var k := LengthBefore(xs, f, i) + j;
    if i < n - 1 {
      FlatMapAt(init, f, i, j);
      LengthBeforePrefix(xs, f, i, n - 1);
      assert init[i] == xs[i];
      assert (front + f(xs[n - 1]))[k] == front[k];
    } else {
      assert (front + f(xs[n - 1]))[k] == f(xs[n - 1])[j];
    }
  }

  lemma {:induction false} LengthBeforeMonotone<A, B>(xs: seq<A>, f: A -> seq<B>, m: nat, n: nat)
    requires m <= n <= |xs|
    ensures LengthBefore(xs, f, m) <= LengthBefore(xs, f, n)
  {
    if m < n {
      LengthBeforeMonotone(xs, f, m, n - 1);
    }
  }

  // ---------------------------------------------------------------------------
  // Waiting rooms

  /** The rooms a lobby contributes: none when the field is absent or empty. */
  function RoomsOf(lobby: LobbyInfo): seq<RoomInfo> {
    if lobby.rooms.Some? then lobby.rooms.value else []
  }

  function RoomView(lobby: LobbyInfo, room: RoomInfo): WaitingRoom {
    WaitingRoom(lobby.name + "-" + IntString(room.id), room.name, lobby.name,
                room.players, 2, room.isPrivate, room.status, room.owner)
  }

  /** The entries of one lobby, one per room, in order. */
  function LobbyRoomViews(lobby: LobbyInfo): (r: seq<WaitingRoom>)
    ensures |r| == |RoomsOf(lobby)|
  {
    var rooms := RoomsOf(lobby);
    seq(|rooms|, j requires 0 <= j < |rooms| => RoomView(lobby, rooms[j]))
  }

  /** The waiting-room list of a sequence of lobbies: every lobby's rooms, lobby after lobby. */
  function WaitingRoomsOf(lobbies: seq<LobbyInfo>): seq<WaitingRoom> {
    FlatMap(lobbies, LobbyRoomViews)
  }

  /** Number of rooms in the first `n` lobbies. */
  function RoomsBefore(lobbies: seq<LobbyInfo>, n: nat): nat
    requires n <= |lobbies|
  {
    if n == 0 then 0 else RoomsBefore(lobbies, n - 1) + |RoomsOf(lobbies[n - 1])|
  }

  lemma {:induction false} RoomsBeforeCounts(lobbies: seq<LobbyInfo>, n: nat)
    requires n <= |lobbies|
    ensures RoomsBefore(lobbies, n) == LengthBefore(lobbies, LobbyRoomViews, n)
  {
    if n > 0 {
      RoomsBeforeCounts(lobbies, n - 1);
      assert |LobbyRoomViews(lobbies[n - 1])| == |RoomsOf(lobbies[n - 1])|;
    }
  }

  /** `transformStatsToWaitingRooms`: pushes one entry per room in two nested loops. */
  method TransformStatsToWaitingRooms(stats: StatsResponse) returns (rooms: seq<WaitingRoom>)
    ensures rooms == WaitingRoomsOf(stats.lobbies)
  {
    rooms := [];
    for i := 0 to |stats.lobbies|
      invariant rooms == FlatMap(stats.lobbies[..i], LobbyRoomViews)
    {
      var lobby := stats.lobbies[i];
      ghost var before := rooms;
      if lobby.rooms.Some? && |lobby.rooms.value| > 0 {
        var lobbyRooms := lobby.rooms.value;
        for j := 0 to |lobbyRooms|
          invariant rooms == before + LobbyRoomViews(lobby)[..j]
        {
          AppendNext(before, LobbyRoomViews(lobby), j);
          rooms := rooms + [RoomView(lobby, lobbyRooms[j])];
        }
        assert LobbyRoomViews(lobby)[..|lobbyRooms|] == LobbyRoomViews(lobby);
      }
      assert rooms == before + LobbyRoomViews(lobby);
      FlatMapStep(stats.lobbies, LobbyRoomViews, i);
    }
    assert stats.lobbies[..|stats.lobbies|] == stats.lobbies;
  }

  /** The list holds exactly one entry per room of the snapshot. */
  lemma WaitingRoomsLength(lobbies: seq<LobbyInfo>)
    ensures |WaitingRoomsOf(lobbies)| == RoomsBefore(lobbies, |lobbies|)
  {
    FlatMapLength(lobbies, LobbyRoomViews);
    RoomsBeforeCounts(lobbies, |lobbies|);
  }

  /**
   * Room `j` of lobby `i` sits right after the rooms of the lobbies before
   * it, with id "<lobbyName>-<roomId>" and room for two players.
   */
  lemma WaitingRoomAt(lobbies: seq<LobbyInfo>, i: nat, j: nat)
    requires i < |lobbies| && j < |RoomsOf(lobbies[i])|
    ensures RoomsBefore(lobbies, i) + j < |WaitingRoomsOf(lobbies)|
    ensures var w := WaitingRoomsOf(lobbies)[RoomsBefore(lobbies, i) + j];
      && w == RoomView(lobbies[i], RoomsOf(lobbies[i])[j])
      && w.id == lobbies[i].name + "-" + IntString(RoomsOf(lobbies[i])[j].id)
      && w.lobbyName == lobbies[i].name
      && w.maxPlayers == 2
  {
    WaitingRoomPosition(lobbies, i, j);
  }

  /** Entry `j` of lobby `i` follows the rooms of the lobbies before it. */
  lemma WaitingRoomPosition(lobbies: seq<LobbyInfo>, i: nat, j: nat)
    requires i < |lobbies| && j < |RoomsOf(lobbies[i])|
    ensures RoomsBefore(lobbies, i) + j < |WaitingRoomsOf(lobbies)|
    ensures WaitingRoomsOf(lobbies)[RoomsBefore(lobbies, i) + j] == LobbyRoomViews(lobbies[i])[j]
  {
    RoomsBeforeCounts(lobbies, i);
    FlatMapAt(lobbies, LobbyRoomViews, i, j);
  }

  lemma RoomsBeforeMonotone(lobbies: seq<LobbyInfo>, m: nat, n: nat)
    requires m <= n <= |lobbies|
    ensures RoomsBefore(lobbies, m) <= RoomsBefore(lobbies, n)
  {
    RoomsBeforeCounts(lobbies, m);
    RoomsBeforeCounts(lobbies, n);
    LengthBeforeMonotone(lobbies, LobbyRoomViews, m, n);
  }

  // ---------------------------------------------------------------------------
  // Live matches

  /** A JavaScript value that `||` keeps: present and not the empty string. */
  predicate Truthy(o: Option<string>) {
    o.Some? && o.value != []
  }

  /** `a || b` for an optional string: absent and empty fall through. */
  function OrElse(a: Option<string>, b: string): string {
    if Truthy(a) then a.value else b
  }

  /** `team?.[0]`: the first name of an optional list. */
  function FirstName(team: Option<seq<string>>): Option<string> {
    if team.Some? && |team.value| > 0 then Some(team.value[0]) else None
  }

  const ZeroPair := Score(0, 0)
  const ZeroStats := MatchStats(ZeroPair, ZeroPair, ZeroPair, ZeroPair, ZeroPair)

  function MatchView(lobbyName: string, index: nat, m: MatchInfo): Match {
    var homePlayer := OrElse(FirstName(m.homeTeam), OrElse(m.homeProfile, "Jugador 1"));
    var awayPlayer := OrElse(FirstName(m.awayTeam), OrElse(m.awayProfile, "Jugador 2"));
    Match(lobbyName + "-" + DecimalString(index),
          OrElse(m.homeProfile, homePlayer), OrElse(m.awayProfile, awayPlayer),
          homePlayer, awayPlayer,
          ParseScore(OrElse(m.score, "0-0")), ParseMinute(m.clock),
          m.roomName, lobbyName, [], ZeroStats)
  }

  /**
   * Name fallbacks, on each side: the player is the first team member, else the
   * profile, else a placeholder; the team is the profile, else the player.
   * Neither is ever empty. A missing or empty score reads as 0-0. Events are
   * empty and every statistic is zero.
   */
  lemma MatchViewFields(lobbyName: string, index: nat, m: MatchInfo)
    ensures var v := MatchView(lobbyName, index, m);
      && v.homePlayer != [] && v.awayPlayer != [] && v.homeTeam != [] && v.awayTeam != []
      && (Truthy(FirstName(m.homeTeam)) ==> v.homePlayer == m.homeTeam.value[0])
      && (!Truthy(FirstName(m.homeTeam)) && Truthy(m.homeProfile) ==> v.homePlayer == m.homeProfile.value)
      && (!Truthy(FirstName(m.homeTeam)) && !Truthy(m.homeProfile) ==> v.homePlayer == "Jugador 1")
      && (Truthy(FirstName(m.awayTeam)) ==> v.awayPlayer == m.awayTeam.value[0])
      && (!Truthy(FirstName(m.awayTeam)) && Truthy(m.awayProfile) ==> v.awayPlayer == m.awayProfile.value)
      && (!Truthy(FirstName(m.awayTeam)) && !Truthy(m.awayProfile) ==> v.awayPlayer == "Jugador 2")
      && (Truthy(m.homeProfile) ==> v.homeTeam == m.homeProfile.value)
      && (!Truthy(m.homeProfile) ==> v.homeTeam == v.homePlayer)
      && (Truthy(m.awayProfile) ==> v.awayTeam == m.awayProfile.value)
      && (!Truthy(m.awayProfile) ==> v.awayTeam == v.awayPlayer)
      && (!Truthy(m.score) ==> v.score == Score(0, 0))
      && (Truthy(m.score) ==> v.score == ParseScore(m.score.value))
      && v.minute == ParseMinute(m.clock) && v.roomName == m.roomName
      && v.events == [] && v.stats == ZeroStats
  {
    if !Truthy(m.score) {
      ParseScoreRoundTrip(0, 0);
      assert DecimalString(0) + "-" + DecimalString(0) == "0-0";
    }
  }

  /** A match view is named after its lobby and its position inside the lobby. */
  lemma MatchViewNames(lobbyName: string, index: nat, m: MatchInfo)
    ensures MatchView(lobbyName, index, m).id == lobbyName + "-" + DecimalString(index)
    ensures MatchView(lobbyName, index, m).lobbyName == lobbyName
  {
  }

  function MatchesOf(lobby: LobbyInfo): seq<MatchInfo> {
    if lobby.matches.Some? then lobby.matches.value else []
  }

  /** The views of a lobby's matches, numbered by their position inside the lobby. */
  function LobbyMatchViews(lobby: LobbyInfo): (r: seq<Match>)
    ensures |r| == |MatchesOf(lobby)|
  {
    var ms := MatchesOf(lobby);
    seq(|ms|, j requires 0 <= j < |ms| => MatchView(lobby.name, j, ms[j]))
  }

  /** The live-match list of a sequence of lobbies. */
  function LiveMatchesOf(lobbies: seq<LobbyInfo>): seq<Match> {
    FlatMap(lobbies, LobbyMatchViews)
  }

  /** Number of matches in the first `n` lobbies. */
  function MatchesBefore(lobbies: seq<LobbyInfo>, n: nat): nat
    requires n <= |lobbies|
  {
    if n == 0 then 0 else MatchesBefore(lobbies, n - 1) + |MatchesOf(lobbies[n - 1])|
  }

  lemma {:induction false} MatchesBeforeCounts(lobbies: seq<LobbyInfo>, n: nat)
    requires n <= |lobbies|
    ensures MatchesBefore(lobbies, n) == LengthBefore(lobbies, LobbyMatchViews, n)
  {
    if n > 0 {
      MatchesBeforeCounts(lobbies, n - 1);
      assert |LobbyMatchViews(lobbies[n - 1])| == |MatchesOf(lobbies[n - 1])|;
    }
  }

  /** `transformStatsToMatches`: pushes one entry per match in two nested loops. */
  method TransformStatsToMatches(stats: StatsResponse) returns (matches: seq<Match>)
    ensures matches == LiveMatchesOf(stats.lobbies)
  {
    matches := [];
    for i := 0 to |stats.lobbies|
      invariant matches == FlatMap(stats.lobbies[..i], LobbyMatchViews)
    {
      var lobby := stats.lobbies[i];
      ghost var before := matches;
      if lobby.matches.Some? && |lobby.matches.value| > 0 {
        var lobbyMatches := lobby.matches.value;
        for index := 0 to |lobbyMatches|
          invariant matches == before + LobbyMatchViews(lobby)[..index]
        {
          AppendNext(before, LobbyMatchViews(lobby), index);
          matches := matches + [MatchView(lobby.name, index, lobbyMatches[index])];
        }
        assert LobbyMatchViews(lobby)[..|lobbyMatches|] == LobbyMatchViews(lobby);
      }
      assert matches == before + LobbyMatchViews(lobby);
      FlatMapStep(stats.lobbies, LobbyMatchViews, i);
    }
    assert stats.lobbies[..|stats.lobbies|] == stats.lobbies;
  }

  lemma MatchesBeforeMonotone(lobbies: seq<LobbyInfo>, m: nat, n: nat)
    requires m <= n <= |lobbies|
    ensures MatchesBefore(lobbies, m) <= MatchesBefore(lobbies, n)
  {
    MatchesBeforeCounts(lobbies, m);
    MatchesBeforeCounts(lobbies, n);
    LengthBeforeMonotone(lobbies, LobbyMatchViews, m, n);
  }

  /** One entry per input match. */
  lemma LiveMatchesLength(lobbies: seq<LobbyInfo>)
    ensures |LiveMatchesOf(lobbies)| == MatchesBefore(lobbies, |lobbies|)
  {
    FlatMapLength(lobbies, LobbyMatchViews);
    MatchesBeforeCounts(lobbies, |lobbies|);
  }

  /** Entry `j` of lobby `i` follows the matches of the lobbies before it. */
  lemma LiveMatchPosition(lobbies: seq<LobbyInfo>, i: nat, j: nat)
    requires i < |lobbies| && j < |MatchesOf(lobbies[i])|
    ensures MatchesBefore(lobbies, i) + j < |LiveMatchesOf(lobbies)|
    ensures LiveMatchesOf(lobbies)[MatchesBefore(lobbies, i) + j] == LobbyMatchViews(lobbies[i])[j]
  {
    MatchesBeforeCounts(lobbies, i);
    FlatMapAt(lobbies, LobbyMatchViews, i, j);
  }

  /** Match `j` of lobby `i` follows the matches of earlier lobbies, with id "<lobbyName>-<j>". */
  lemma LiveMatchAt(lobbies: seq<LobbyInfo>, i: nat, j: nat)
    requires i < |lobbies| && j < |MatchesOf(lobbies[i])|
    ensures MatchesBefore(lobbies, i) + j < |LiveMatchesOf(lobbies)|
    ensures var v := LiveMatchesOf(lobbies)[MatchesBefore(lobbies, i) + j];
      && v == MatchView(lobbies[i].name, j, MatchesOf(lobbies[i])[j])
      && v.id == lobbies[i].name + "-" + DecimalString(j)
      && v.lobbyName == lobbies[i].name
  {
    LiveMatchPosition(lobbies, i, j);
    MatchViewNames(lobbies[i].name, j, MatchesOf(lobbies[i])[j]);
  }
}
