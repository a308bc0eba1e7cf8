/**
 * The administration panel's editing rules: the lobby list (a mix of bare
 * names and objects with optional fields), its normalisation for display,
 * updating and deleting one entry, the division list typed as text, the
 * user-list pagination, the search filters, the ban-entry guard and the
 * processing of the server log for display and alerts.
 */
module AdminPanel {
  import opened Text

  // ---------------------------------------------------------------------------
  // Lobby configuration

  /** A lobby's access type: a named type ("open", "noStats", ...) or a list of divisions. */
  datatype LobbyType = TypeName(name: string) | DivisionList(divisions: seq<string>)

  /** A lobby as stored: a bare name, or an object whose optional fields may be absent. */
  datatype LobbyEntry =
    | Plain(name: string)
    | Custom(name: string, lobbyType: Option<LobbyType>, showMatches: Option<bool>, checkRosterHash: Option<bool>)

  /** A lobby as the editor shows it, every field filled in. */
  datatype LobbyView = LobbyView(name: string, lobbyType: LobbyType, showMatches: bool, checkRosterHash: bool)

  /** The fields one edit changes; an absent field is left as it was. */
  datatype LobbyUpdate = LobbyUpdate(
    name: Option<string>, lobbyType: Option<LobbyType>, showMatches: Option<bool>, checkRosterHash: Option<bool>)

  const OpenType := TypeName("open")
  const DivisionsValue := "divisions"
  const DefaultDivisions := ["A"]

  /** What "Agregar Lobby" appends. */
  const NewLobby := Custom("Nuevo Lobby", Some(OpenType), Some(true), Some(true))

  /** The field of `a` when it is present, otherwise the one of `b` (object spread, `a` last). */
  function Override<T>(a: Option<T>, b: Option<T>): Option<T> {
    if a.Some? then a else b
  }

  /** Defaults open, matches shown, roster hash checked, overridden by the object's own fields. */
  function Normalize(e: LobbyEntry): LobbyView {
    match e
    case Plain(name) => LobbyView(name, OpenType, true, true)
    case Custom(name, t, m, c) => LobbyView(name, t.GetOr(OpenType), m.GetOr(true), c.GetOr(true))
  }

  /**
   * A bare name displays like an object with no optional field, and an object
   * with every field present displays exactly its own fields.
   */
  lemma NormalizeDefaults(name: string, t: LobbyType, m: bool, c: bool)
    ensures Normalize(Plain(name)) == Normalize(Custom(name, None, None, None))
    ensures Normalize(Plain(name)) == LobbyView(name, OpenType, true, true)
    ensures Normalize(Custom(name, Some(t), Some(m), Some(c))) == LobbyView(name, t, m, c)
  {
  }

  /** `{ ...current, ...updates }`, where a bare name is first widened to an object with the defaults. */
  function Merge(e: LobbyEntry, u: LobbyUpdate): LobbyEntry {
    var current := if e.Plain? then Custom(e.name, Some(OpenType), Some(true), Some(true)) else e;
    Custom(u.name.GetOr(current.name), Override(u.lobbyType, current.lobbyType),
           Override(u.showMatches, current.showMatches), Override(u.checkRosterHash, current.checkRosterHash))
  }

  /** The displayed lobby with the fields of an update put in. */
  function Apply(v: LobbyView, u: LobbyUpdate): LobbyView {
    LobbyView(u.name.GetOr(v.name), u.lobbyType.GetOr(v.lobbyType),
              u.showMatches.GetOr(v.showMatches), u.checkRosterHash.GetOr(v.checkRosterHash))
  }

  /** After an edit the editor shows the old display with exactly the updated fields changed. */
  lemma MergeDisplaysUpdate(e: LobbyEntry, u: LobbyUpdate)
    ensures Normalize(Merge(e, u)) == Apply(Normalize(e), u)
    ensures Merge(e, u).Custom?
  {
  }

  /** Entry `index` replaced by its merge with the update; nothing else changes. */
  function UpdateAt(lobbies: seq<LobbyEntry>, index: nat, u: LobbyUpdate): (r: seq<LobbyEntry>)
    requires index < |lobbies|
    ensures |r| == |lobbies|
    ensures forall j :: 0 <= j < |r| && j != index ==> r[j] == lobbies[j]
    ensures Normalize(r[index]) == Apply(Normalize(lobbies[index]), u)
  {
    MergeDisplaysUpdate(lobbies[index], u);
    lobbies[index := Merge(lobbies[index], u)]
  }

  /** `splice(index, 1)`: the entry at `index` removed, the others kept in order. */
  function DeleteAt(lobbies: seq<LobbyEntry>, index: nat): (r: seq<LobbyEntry>)
    requires index < |lobbies|
    ensures |r| == |lobbies| - 1
    ensures forall j :: 0 <= j < index ==> r[j] == lobbies[j]
    ensures forall j :: index <= j < |r| ==> r[j] == lobbies[j + 1]
    ensures multiset(r) + multiset{lobbies[index]} == multiset(lobbies)
  {
    assert lobbies == lobbies[..index] + [lobbies[index]] + lobbies[index + 1..];
    lobbies[..index] + lobbies[index + 1..]
  }

  /** The value the type selector shows: "divisions" for a list, the type's name otherwise. */
  function TypeValue(v: LobbyView): string {
    match v.lobbyType
    case TypeName(name) => name
    case DivisionList(_) => DivisionsValue
  }

  /** What choosing `value` in the type selector sets: a one-division list for "divisions". */
  function SelectType(value: string): LobbyType {
    if value == DivisionsValue then DivisionList(DefaultDivisions) else TypeName(value)
  }

  function TypeUpdate(t: LobbyType): LobbyUpdate {
    LobbyUpdate(None, Some(t), None, None)
  }

  /** The selector shows what was chosen, whatever the entry was before. */
  lemma SelectShowsChoice(e: LobbyEntry, value: string)
    ensures TypeValue(Normalize(Merge(e, TypeUpdate(SelectType(value))))) == value
    ensures Normalize(Merge(e, TypeUpdate(SelectType(value)))).name == Normalize(e).name
  {
  }

  // ---------------------------------------------------------------------------
  // Divisions typed as text

  /** A division as the parser produces it: non-empty, no comma, no surrounding whitespace. */
  predicate IsDivisionName(d: string) {
    d != [] && Avoids(d, ',') && !IsJsSpace(d[0]) && !IsJsSpace(d[|d| - 1])
  }

  /** The pieces `join(', ')` puts between commas: every division after the first gets its space. */
  function Spaced(ds: seq<string>): (r: seq<string>)
    requires ds != []
    ensures |r| == |ds|
  {
    seq(|ds|, k requires 0 <= k < |ds| => if k == 0 then ds[0] else " " + ds[k])
  }

  /** `divisions.join(', ')` */
  function JoinDivisions(ds: seq<string>): string {
    if ds == [] then "" else Join(Spaced(ds), ',')
  }

  /** The text in the divisions input: the list joined, or "A" when the type is not a list. */
  function DivisionsText(v: LobbyView): string {
    if v.lobbyType.DivisionList? then JoinDivisions(v.lobbyType.divisions) else "A"
  }

  /**
   * The divisions input reads back as the lobby's list when its type is a
   * list of proper division names, and as the default list otherwise.
   */
  lemma DivisionsTextReadsBack(v: LobbyView)
    requires v.lobbyType.DivisionList? ==>
      v.lobbyType.divisions != [] && forall k :: 0 <= k < |v.lobbyType.divisions| ==> IsDivisionName(v.lobbyType.divisions[k])
    ensures v.lobbyType.DivisionList? ==> ParseDivisions(DivisionsText(v)) == v.lobbyType.divisions
    ensures !v.lobbyType.DivisionList? ==> ParseDivisions(DivisionsText(v)) == DefaultDivisions
  {
    if v.lobbyType.DivisionList? {
      DivisionsRoundTrip(v.lobbyType.divisions);
    } else {
      DefaultDivisionsValid();
      DivisionsRoundTrip(DefaultDivisions);
      assert Spaced(DefaultDivisions) == ["A"];
      assert JoinDivisions(DefaultDivisions) == "A";
    }
  }

  /** Every piece of a comma-free list, once trimmed, is empty or a division name. */
  lemma TrimmedPieces(pieces: seq<string>)
    requires forall k :: 0 <= k < |pieces| ==> Avoids(pieces[k], ',')
    ensures forall k :: 0 <= k < |MapTrimJs(pieces)| ==> MapTrimJs(pieces)[k] == [] || IsDivisionName(MapTrimJs(pieces)[k])
  {
    forall k | 0 <= k < |pieces|
      ensures TrimJs(pieces[k]) == [] || IsDivisionName(TrimJs(pieces[k]))
    {
      TrimJsShape(pieces[k], ',');
    }
  }

  /** The non-empty trimmed pieces of the trimmed input. */
  function DivisionPieces(input: string): (r: seq<string>)
    ensures forall k :: 0 <= k < |r| ==> IsDivisionName(r[k])
  {
    var pieces := Split(TrimJs(input), ',');
    TrimmedPieces(pieces);
    NonEmpty(MapTrimJs(pieces))
  }

  lemma DefaultDivisionsValid()
    ensures DefaultDivisions != [] && forall k :: 0 <= k < |DefaultDivisions| ==> IsDivisionName(DefaultDivisions[k])
  {
    assert DefaultDivisions[0] == "A" && "A"[0] == 'A';
  }

  /** Trim, split on ',', trim each piece, drop the empty ones; nothing left gives ["A"]. */
  function ParseDivisions(input: string): (r: seq<string>)
    ensures r != []
    ensures forall k :: 0 <= k < |r| ==> IsDivisionName(r[k])
  {
    var parts := DivisionPieces(input);
    DefaultDivisionsValid();
    if parts == [] then DefaultDivisions else parts
  }

  /** Typing in a text with nothing but commas and spaces gives the default list. */
  lemma ParseDivisionsBlank(input: string)
    requires forall i :: 0 <= i < |input| ==> IsJsSpace(input[i])
    ensures ParseDivisions(input) == DefaultDivisions
  {
    TrimJsEmptyIffBlank(input);
  }

  /** The text shown for a list of divisions reads back as the same list. */
  lemma DivisionsRoundTrip(ds: seq<string>)
    requires ds != [] && forall k :: 0 <= k < |ds| ==> IsDivisionName(ds[k])
    ensures ParseDivisions(JoinDivisions(ds)) == ds
  {
    var ps := Spaced(ds);
    JoinedIsTrimmed(ds);
    assert forall k :: 0 <= k < |ps| ==> Avoids(ps[k], ',');
    SplitJoin(ps, ',');
    TrimSpaced(ds);
    NonEmptyKeepsAll(ds);
  }

  /** The joined text neither starts nor ends with whitespace. */
  lemma JoinedIsTrimmed(ds: seq<string>)
    requires ds != [] && forall k :: 0 <= k < |ds| ==> IsDivisionName(ds[k])
    ensures TrimJs(JoinDivisions(ds)) == JoinDivisions(ds)
  {
    var ps := Spaced(ds);
    var s := Join(ps, ',');
    JoinEnds(ps, ',');
    var last := ps[|ps| - 1];
    assert last[|last| - 1] == ds[|ds| - 1][|ds[|ds| - 1]| - 1];
    assert s[0] == ps[0][0] && s[|s| - 1] == last[|last| - 1];
    TrimJsOfTrimmed(s);
  }

  /** Trimming each piece takes off the space `join` put in front. */
  lemma TrimSpaced(ds: seq<string>)
    requires ds != [] && forall k :: 0 <= k < |ds| ==> IsDivisionName(ds[k])
    ensures MapTrimJs(Spaced(ds)) == ds
  {
    var ps := Spaced(ds);
    forall k | 0 <= k < |ps|
      ensures TrimJs(ps[k]) == ds[k]
    {
      if k == 0 { TrimJsOfTrimmed(ds[0]); } else { TrimJsAfterSpace(ds[k]); }
    }
  }

  /** Whatever was typed, the displayed list is a fixed point: showing it and reading it back changes nothing. */
  lemma ParseDivisionsStable(input: string)
    ensures ParseDivisions(JoinDivisions(ParseDivisions(input))) == ParseDivisions(input)
  {
    DivisionsRoundTrip(ParseDivisions(input));
  }

  // ---------------------------------------------------------------------------
  // The lobby editor

  class LobbyEditor {
    var lobbiesConfig: seq<LobbyEntry>

    constructor (loaded: seq<LobbyEntry>)
      ensures lobbiesConfig == loaded
    {
      lobbiesConfig := loaded;
    }

    method AddLobby()
      modifies this
      ensures lobbiesConfig == old(lobbiesConfig) + [NewLobby]
    {
      lobbiesConfig := lobbiesConfig + [NewLobby];
    }

    /** `updateLobby`: copy the list, assign the merged entry at `index`, store the copy. */
    method UpdateLobby(index: nat, updates: LobbyUpdate)
      requires index < |lobbiesConfig|
      modifies this
      ensures lobbiesConfig == UpdateAt(old(lobbiesConfig), index, updates)
    {
      var newLobbies := lobbiesConfig;
      newLobbies := newLobbies[index := Merge(newLobbies[index], updates)];
      lobbiesConfig := newLobbies;
    }

    /** The division input's change handler. */
    method EditDivisions(index: nat, typed: string)
      requires index < |lobbiesConfig|
      modifies this
      ensures lobbiesConfig == UpdateAt(old(lobbiesConfig), index, TypeUpdate(DivisionList(ParseDivisions(typed))))
    {
      UpdateLobby(index, TypeUpdate(DivisionList(ParseDivisions(typed))));
    }

    /** `handleDeleteLobby`: when confirmed, splice the entry out of a copy and store the copy. */
    method DeleteLobby(index: nat, confirmed: bool)
      requires index < |lobbiesConfig|
      modifies this
      ensures lobbiesConfig == if confirmed then DeleteAt(old(lobbiesConfig), index) else old(lobbiesConfig)
    {
      if confirmed {
        var newLobbies := lobbiesConfig;
        newLobbies := newLobbies[..index] + newLobbies[index + 1..];
        lobbiesConfig := newLobbies;
      }
    }
  }

  // ---------------------------------------------------------------------------
  // Pagination of the user list

  const UsersPerPage := 20

  /** `Math.ceil(totalUsers / USERS_PER_PAGE)`: the fewest pages of 20 that hold every user. */
  function TotalPages(totalUsers: nat): (t: nat)
    ensures UsersPerPage * (t - 1) < totalUsers <= UsersPerPage * t
  {
    (totalUsers + UsersPerPage - 1) / UsersPerPage
  }

  /** "Anterior": `Math.max(0, p - 1)` */
  function PrevPage(p: int): int {
    if p - 1 > 0 then p - 1 else 0
  }

  /** "Siguiente": `Math.min(totalPages - 1, p + 1)` */
  function NextPage(p: int, totalPages: int): int {
    if totalPages - 1 < p + 1 then totalPages - 1 else p + 1
  }

  predicate PrevDisabled(p: int) { p == 0 }
  predicate NextDisabled(p: int, totalPages: int) { p >= totalPages - 1 }

  /** A page the list can be on: the first one, or one that exists. */
  predicate PageInRange(p: int, totalPages: int) {
    p == 0 || 0 <= p < totalPages
  }

  /**
   * Each button is disabled exactly at its bound, an enabled button moves one
   * page, and clicking an enabled button keeps the page in range.
   */
  lemma PagerBounds(p: int, totalPages: int)
    requires PageInRange(p, totalPages)
    ensures PrevDisabled(p) <==> p == 0
    ensures NextDisabled(p, totalPages) <==> p + 1 >= totalPages
    ensures !PrevDisabled(p) ==> PrevPage(p) == p - 1 && PageInRange(PrevPage(p), totalPages)
    ensures !NextDisabled(p, totalPages) ==> NextPage(p, totalPages) == p + 1 && PageInRange(NextPage(p, totalPages), totalPages)
    ensures 0 <= PrevPage(p) <= p
  {
  }

  /** The "Mostrando first - last de total" line: the 1-based positions of the users on page `p`. */
  function ShownRange(p: nat, totalUsers: nat): (nat, nat) {
    (p * UsersPerPage + 1, if (p + 1) * UsersPerPage < totalUsers then (p + 1) * UsersPerPage else totalUsers)
  }

  /** On an existing page the range is non-empty, at most 20 long and inside the list. */
  lemma ShownRangeInside(p: nat, totalUsers: nat)
    requires p < TotalPages(totalUsers)
    ensures var (first, last) := ShownRange(p, totalUsers);
      1 <= first <= last <= totalUsers && last - first < UsersPerPage
  {
  }

  // ---------------------------------------------------------------------------
  // Search filters

  datatype User = User(username: string, locked: bool, nonce: Option<string>)

  function Username(u: User): string { u.username }
  function Entry(s: string): string { s }

  /** `xs.filter(x => key(x).toLowerCase().includes(term.toLowerCase()))` */
  function Matching<T(==,!new)>(xs: seq<T>, key: T -> string, term: string): (r: seq<T>)
    ensures forall x :: x in r <==> x in xs && Contains(ToLower(key(x)), ToLower(term))
    ensures |r| <= |xs|
  {
    if xs == [] then []
    else
      (if Contains(ToLower(key(xs[0])), ToLower(term)) then [xs[0]] else []) + Matching(xs[1..], key, term)
  }

  /** The filter keeps the order of the list: it distributes over concatenation. */
  lemma {:induction false} MatchingAppend<T(!new)>(xs: seq<T>, ys: seq<T>, key: T -> string, term: string)
    ensures Matching(xs + ys, key, term) == Matching(xs, key, term) + Matching(ys, key, term)
  {
    if xs == [] {
      assert xs + ys == ys;
    } else {
      assert (xs + ys)[0] == xs[0] && (xs + ys)[1..] == xs[1..] + ys;
      MatchingAppend(xs[1..], ys, key, term);
    }
  }

  /** An empty search keeps every entry, in order. */
  lemma {:induction false} MatchingEmptyTerm<T(!new)>(xs: seq<T>, key: T -> string)
    ensures Matching(xs, key, "") == xs
  {
    if xs != [] {
      ContainsAt(ToLower(key(xs[0])), "", 0);
      MatchingEmptyTerm(xs[1..], key);
    }
  }

  /** The search ignores the case of the term. */
  lemma MatchingIgnoresCase<T(!new)>(xs: seq<T>, key: T -> string, term: string)
    ensures Matching(xs, key, ToUpper(term)) == Matching(xs, key, term)
  {
    ToLowerOfUpper(term);
  }

  /** `bannedList?.banned.filter(...) || []` */
  function FilteredBanned(banned: Option<seq<string>>, term: string): (r: seq<string>)
    ensures banned.None? ==> r == []
    ensures banned.Some? ==> forall x :: x in r <==> x in banned.value && Contains(ToLower(x), ToLower(term))
  {
    if banned.Some? then Matching(banned.value, Entry, term) else []
  }

  function FilteredUsers(users: seq<User>, term: string): (r: seq<User>)
    ensures forall u :: u in r <==> u in users && Contains(ToLower(u.username), ToLower(term))
  {
    Matching(users, Username, term)
  }

  // ---------------------------------------------------------------------------
  // Adding a ban

  /** `handleAddBan`: nothing is sent for a blank entry; otherwise the entry is sent as typed. */
  function BanRequest(newBanEntry: string): (r: Option<string>)
    ensures r.None? <==> forall i :: 0 <= i < |newBanEntry| ==> IsJsSpace(newBanEntry[i])
    ensures r.Some? ==> r.value == newBanEntry
  {
    TrimJsEmptyIffBlank(newBanEntry);
    if TrimJs(newBanEntry) == [] then None else Some(newBanEntry)
  }

  // ---------------------------------------------------------------------------
  // The server log

  /** The log answer: plain text, or a JSON object with optional `logs` and `lines` arrays. */
  datatype LogBody = PlainText(text: string) | JsonObject(logs: Option<seq<string>>, lines: Option<seq<string>>)

  const MaxLogLines := 50
  const MaxAlerts := 10

  function Reverse<T>(xs: seq<T>): (r: seq<T>)
    ensures |r| == |xs| && forall k :: 0 <= k < |xs| ==> r[k] == xs[|xs| - 1 - k]
  {
    if xs == [] then [] else [xs[|xs| - 1]] + Reverse(xs[..|xs| - 1])
  }

  /** `xs.slice(-n)` for a positive `n`: the last `n` elements, or all of them. */
  function TakeLast<T>(xs: seq<T>, n: nat): (r: seq<T>)
    ensures |r| == if |xs| < n then |xs| else n
    ensures r == xs[|xs| - |r|..]
  {
    if |xs| <= n then xs else xs[|xs| - n..]
  }

  /** The lines of a plain-text log, newest first, at most 50. */
  function TextLogLines(text: string): (r: seq<string>)
    ensures var pieces := Split(text, '\n');
      && |r| <= MaxLogLines && |r| == (if |pieces| < MaxLogLines then |pieces| else MaxLogLines)
      && forall k :: 0 <= k < |r| ==> r[k] == pieces[|pieces| - 1 - k]
  {
    Reverse(TakeLast(Split(text, '\n'), MaxLogLines))
  }

  /** The log lines as the panel stores them, reading the JSON object's `logs` field. */
  function ShownLogsAsWritten(body: LogBody): seq<string> {
    match body
    case PlainText(text) => TextLogLines(text)
    case JsonObject(logs, _) => logs.GetOr([])
  }

  /** The log lines read from the `lines` field, which is the field the server's JSON answer has. */
  function ShownLogs(body: LogBody): seq<string> {
    match body
    case PlainText(text) => TextLogLines(text)
    case JsonObject(_, lines) => lines.GetOr([])
  }

  /** The server's JSON log answer carries only `lines`. */
  function ServerJsonLog(lines: seq<string>): LogBody {
    JsonObject(None, Some(lines))
  }

  /** Reading `logs` loses every line of the server's JSON answer; reading `lines` keeps them. */
  lemma LogsKeyLosesLines(lines: seq<string>)
    ensures ShownLogsAsWritten(ServerJsonLog(lines)) == []
    ensures ShownLogs(ServerJsonLog(lines)) == lines
    ensures lines != [] ==> ShownLogsAsWritten(ServerJsonLog(lines)) != ShownLogs(ServerJsonLog(lines))
  {
  }

  predicate IsAlert(line: string) {
    Contains(line, "ERROR") || Contains(line, "WARN")
  }

  /** The lines containing "ERROR" or "WARN", in order; their number is the "Activas" count. */
  function Alerts(logs: seq<string>): (r: seq<string>)
    ensures forall l :: l in r <==> l in logs && IsAlert(l)
    ensures |r| <= |logs|
  {
    if logs == [] then [] else (if IsAlert(logs[0]) then [logs[0]] else []) + Alerts(logs[1..])
  }

  /** The alert cards: the first ten alerts. */
  function ShownAlerts(logs: seq<string>): (r: seq<string>)
    ensures |r| <= MaxAlerts && r <= Alerts(logs)
    ensures |Alerts(logs)| <= MaxAlerts ==> r == Alerts(logs)
  {
    if |Alerts(logs)| <= MaxAlerts then Alerts(logs) else Alerts(logs)[..MaxAlerts]
  }

  /** The alert cards of a log answer, with the log read from `lines`. */
  function DashboardAlerts(body: LogBody): (r: seq<string>)
    ensures |r| <= MaxAlerts && forall l :: l in r ==> l in ShownLogs(body) && IsAlert(l)
  {
    ShownAlerts(ShownLogs(body))
  }

  /** An error line in the server's JSON answer raises an alert once `lines` is read, and none as written. */
  lemma ErrorLineAlerts(line: string)
    requires Contains(line, "ERROR")
    ensures DashboardAlerts(ServerJsonLog([line])) == [line]
    ensures ShownAlerts(ShownLogsAsWritten(ServerJsonLog([line]))) == []
  {
    assert Alerts([line]) == [line];
  }
}
