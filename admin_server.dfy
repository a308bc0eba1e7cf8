/**
 * The admin web service's rules: the Basic-auth gate in front of every
 * resource, the log-length clamps, the server settings posted as text, the
 * banned list and the announcement list updated in place, the favourite-
 * player bit fields of a profile, the verification pre-hash of the account
 * resource and the score text of a live match.
 */
module AdminServer {
  import opened Text
  import ResetPass
  import DataTransformers

  // ---------------------------------------------------------------------------
  // The authentication gate

  datatype GateOutcome =
    | JsonRenderer   // answered by the resource's JSON renderer
    | Dispatch       // handed to the resource's method renderer
    | Unauthorized   // 401, empty body
    | Forbidden      // 403, "Not authorized"

  /** `format=json` in the query, or `application/json` in the Accept header. */
  predicate IsJsonRequest(formatArgs: Option<seq<string>>, accept: string) {
    formatArgs == Some(["json"]) || Contains(accept, "application/json")
  }

  /**
   * `BaseXmlResource.render`. A missing user name arrives as the empty string.
   * An empty password stays a byte string and never equals the configured
   * password.
   */
  function AuthGate(isJson: bool, hasJsonRenderer: bool, authenticated: bool,
                    user: string, password: string, adminUser: string, adminPassword: string): GateOutcome
  {
    if isJson && hasJsonRenderer then JsonRenderer
    else if !authenticated then Dispatch
    else if user == "" then Unauthorized
    else if user == adminUser && password != "" && password == adminPassword then Dispatch
    else Forbidden
  }

  /** The gate's outcomes, each with exactly the requests that get it. */
  lemma AuthGateCases(isJson: bool, hasJsonRenderer: bool, authenticated: bool,
                      user: string, password: string, adminUser: string, adminPassword: string)
    ensures var g := AuthGate(isJson, hasJsonRenderer, authenticated, user, password, adminUser, adminPassword);
      var checked := !(isJson && hasJsonRenderer) && authenticated;
      && (g == JsonRenderer <==> isJson && hasJsonRenderer)
      && (g == Unauthorized <==> checked && user == "")
      && (g == Dispatch <==>
            !(isJson && hasJsonRenderer) && (!authenticated || (user != "" && user == adminUser && password != "" && password == adminPassword)))
      && (g == Forbidden <==> checked && user != "" && (user != adminUser || password == "" || password != adminPassword))
  {
  }

  /** A JSON request to a resource with a JSON renderer is answered whatever the credentials. */
  lemma JsonSkipsCredentials(hasJsonRenderer: bool, authenticated: bool, user: string, password: string,
                             user2: string, password2: string, adminUser: string, adminPassword: string)
    requires hasJsonRenderer
    ensures AuthGate(true, hasJsonRenderer, authenticated, user, password, adminUser, adminPassword)
         == AuthGate(true, hasJsonRenderer, authenticated, user2, password2, adminUser, adminPassword)
         == JsonRenderer
  {
  }

  /** With an empty password no credentials pass a checked resource, even when the configured password is empty. */
  lemma EmptyPasswordNeverDispatches(isJson: bool, hasJsonRenderer: bool, user: string, adminUser: string, adminPassword: string)
    requires !(isJson && hasJsonRenderer)
    ensures AuthGate(isJson, hasJsonRenderer, true, user, "", adminUser, adminPassword) != Dispatch
  {
  }

  // ---------------------------------------------------------------------------
  // The log resource

  const DefaultLogLines := 30
  const MinLogLines := 10
  const MaxLogLines := 5000

  /** `max(10, min(5000, n))` */
  function ClampLines(n: int): (r: int)
    ensures MinLogLines <= r <= MaxLogLines
    ensures MinLogLines <= n <= MaxLogLines ==> r == n
    ensures n < MinLogLines ==> r == MinLogLines
    ensures n > MaxLogLines ==> r == MaxLogLines
  {
    if n < MinLogLines then MinLogLines else if n > MaxLogLines then MaxLogLines else n
  }

  /** The `n` argument read as an integer, 30 when it is missing or not a number. */
  function RequestedLines(n: Option<int>): int {
    n.GetOr(DefaultLogLines)
  }

  /** `lines[-n:]` for a positive `n`. */
  function Tail<T>(lines: seq<T>, n: int): (r: seq<T>)
    requires n > 0
    ensures |r| == if n < |lines| then n else |lines|
    ensures r == lines[|lines| - |r|..]
  {
    if n < |lines| then lines[|lines| - n..] else lines
  }

  /** The text answer: the count in its header line and the lines that follow it. */
  datatype TextLog = TextLog(headerCount: int, shown: seq<string>)

  /** `render_GET`: the count is first capped by the file's length, then clamped. */
  function TextLogAnswer(fileLines: seq<string>, n: Option<int>): (r: TextLog)
    ensures MinLogLines <= r.headerCount <= MaxLogLines
    ensures |r.shown| <= |fileLines| && r.shown == fileLines[|fileLines| - |r.shown|..]
  {
    var count := ClampLines(if |fileLines| < RequestedLines(n) then |fileLines| else RequestedLines(n));
    TextLog(count, Tail(fileLines, count))
  }

  /**
   * The header counts the lines shown when the file has at least ten lines;
   * a shorter file is shown whole under a header that says ten.
   */
  lemma TextLogHeader(fileLines: seq<string>, n: Option<int>)
    ensures var r := TextLogAnswer(fileLines, n);
      && (|fileLines| >= MinLogLines ==> |r.shown| == r.headerCount)
      && (|fileLines| < MinLogLines ==> r.headerCount == MinLogLines && r.shown == fileLines)
      && (|r.shown| <= RequestedLines(n) || |r.shown| <= MinLogLines)
  {
  }

  /**
   * Capping by the file's length first changes only the header: the lines shown
   * are the last `clamp(n)` of the file, and on a file of at least ten lines the
   * header is the smaller of the file's length and `clamp(n)`.
   */
  lemma TextLogShowsClampedTail(fileLines: seq<string>, n: Option<int>)
    ensures TextLogAnswer(fileLines, n).shown == Tail(fileLines, ClampLines(RequestedLines(n)))
    ensures |fileLines| >= MinLogLines ==>
              TextLogAnswer(fileLines, n).headerCount ==
              (if |fileLines| < ClampLines(RequestedLines(n)) then |fileLines| else ClampLines(RequestedLines(n)))
  {
  }

  /** Python's `str.strip()` on every line. */
  function StripAll(lines: seq<string>): (r: seq<string>)
    ensures |r| == |lines| && forall k :: 0 <= k < |r| ==> r[k] == PyStrip(lines[k])
  {
    seq(|lines|, k requires 0 <= k < |lines| => PyStrip(lines[k]))
  }

  /** `render_JSON`: the `lines` array of the last `clamp(n)` lines, stripped. */
  function JsonLogLines(fileLines: seq<string>, n: Option<int>): (r: seq<string>)
    ensures var count := ClampLines(RequestedLines(n));
      && |r| == (if count < |fileLines| then count else |fileLines|)
      && forall k :: 0 <= k < |r| ==> r[k] == PyStrip(fileLines[|fileLines| - |r| + k])
  {
    StripAll(Tail(fileLines, ClampLines(RequestedLines(n))))
  }

  /** Without `n` a long log gives its last 30 lines; no request gives fewer than 10 lines of a long enough file. */
  lemma JsonLogDefault(fileLines: seq<string>, n: Option<int>)
    ensures |fileLines| >= DefaultLogLines ==> |JsonLogLines(fileLines, None)| == DefaultLogLines
    ensures |fileLines| >= MinLogLines ==> MinLogLines <= |JsonLogLines(fileLines, n)| <= MaxLogLines
  {
  }

  // ---------------------------------------------------------------------------
  // Server settings

  /** `MaxUsers` after a POST: the posted number when it lies in 0..1000, the current value otherwise. */
  function NewMaxUsers(current: int, posted: Option<int>): (r: int)
    ensures r == current || (posted.Some? && r == posted.value && 0 <= r <= 1000)
    ensures posted.Some? && 0 <= posted.value <= 1000 ==> r == posted.value
  {
    if posted.Some? && 0 <= posted.value <= 1000 then posted.value else current
  }

  /** A value in range stays in range whatever is posted. */
  lemma MaxUsersStaysInRange(current: int, posted: Option<int>)
    requires 0 <= current <= 1000
    ensures 0 <= NewMaxUsers(current, posted) <= 1000
  {
  }

  const FalseWords := ["0", "false", "no"]
  const TrueWords := ["1", "true", "yes"]

  /** The `debug` or `store` argument lower-cased: a false word, a true word, or neither. */
  function ParseFlag(arg: Option<string>): Option<bool> {
    var word := ToLower(arg.GetOr(""));
    if word in FalseWords then Some(false)
    else if word in TrueWords then Some(true)
    else None
  }

  /** The flag after a POST: set by a recognised word, unchanged otherwise. */
  function FlagStep(current: bool, arg: Option<string>): bool {
    ParseFlag(arg).GetOr(current)
  }

  /** Letter case does not matter. */
  lemma FlagIgnoresCase(s: string)
    ensures ParseFlag(Some(ToUpper(s))) == ParseFlag(Some(s))
  {
    ToLowerOfUpper(s);
  }

  /** A missing argument changes nothing, and posting twice is posting once. */
  lemma FlagStepRules(current: bool, arg: Option<string>)
    ensures FlagStep(current, None) == current
    ensures FlagStep(FlagStep(current, arg), arg) == FlagStep(current, arg)
  {
    assert ToLower("") == "";
  }

  /** The words are read whatever their letter case. */
  lemma FlagWords()
    ensures ParseFlag(Some("TRUE")) == ParseFlag(Some("Yes")) == Some(true)
    ensures ParseFlag(Some("No")) == Some(false)
  {
    assert ToLower("TRUE") == "true" && ToLower("Yes") == "yes" && ToLower("No") == "no";
  }

  class ServerConfig {
    var maxUsers: int
    var debug: bool
    var storeSettings: bool

    constructor (maxUsers: int, debug: bool, storeSettings: bool)
      ensures this.maxUsers == maxUsers && this.debug == debug && this.storeSettings == storeSettings
    {
      this.maxUsers, this.debug, this.storeSettings := maxUsers, debug, storeSettings;
    }

    /** `MaxUsersResource.render_POST`; `posted` is None when the argument is missing or not an integer. */
    method PostMaxUsers(posted: Option<int>)
      modifies this
      ensures maxUsers == NewMaxUsers(old(maxUsers), posted)
      ensures debug == old(debug) && storeSettings == old(storeSettings)
    {
      var value := if posted.Some? then posted.value else maxUsers;
      if !(0 <= value <= 1000) {
        value := maxUsers;
      }
      maxUsers := value;
    }

    /** `DebugResource.render_POST` */
    method PostDebug(arg: Option<string>)
      modifies this
      ensures debug == FlagStep(old(debug), arg)
      ensures maxUsers == old(maxUsers) && storeSettings == old(storeSettings)
    {
      var flag := ParseFlag(arg);
      if flag == Some(false) {
        debug := false;
      } else if flag == Some(true) {
        debug := true;
      }
    }

    /** `StoreSettingsResource.render_POST` */
    method PostStoreSettings(arg: Option<string>)
      modifies this
      ensures storeSettings == FlagStep(old(storeSettings), arg)
      ensures maxUsers == old(maxUsers) && debug == old(debug)
    {
      var flag := ParseFlag(arg);
      if flag == Some(false) {
        storeSettings := false;
      } else if flag == Some(true) {
        storeSettings := true;
      }
    }
  }

  // ---------------------------------------------------------------------------
  // The banned list

  /** Python's `list.index`: the first position holding `x`, None where it raises. */
  function IndexOf(xs: seq<string>, x: string): (r: Option<nat>)
    ensures r.None? <==> x !in xs
    ensures r.Some? ==> r.value < |xs| && xs[r.value] == x && x !in xs[..r.value]
  {
    if xs == [] then None
    else if xs[0] == x then Some(0)
    else
      var rest := IndexOf(xs[1..], x);
      assert forall k :: 1 <= k < |xs| ==> xs[k] == xs[1..][k - 1];
      if rest.None? then None
      else
        assert xs[..rest.value + 1] == [xs[0]] + xs[1..][..rest.value];
        Some(rest.value + 1)
  }

  /** Only one position is the first to hold `x`. */
  lemma FirstOccurrence(xs: seq<string>, x: string, i: nat)
    requires i < |xs| && xs[i] == x && x !in xs[..i]
    ensures IndexOf(xs, x) == Some(i)
  {
  }

  /** The search `list.index` performs. */
  method FindIndex(xs: seq<string>, x: string) returns (r: Option<nat>)
    ensures r == IndexOf(xs, x)
  {
    var k := 0;
    while k < |xs|
      invariant 0 <= k <= |xs|
      invariant x !in xs[..k]
    {
      if xs[k] == x {
        FirstOccurrence(xs, x, k);
        return Some(k);
      }
      assert xs[..k + 1] == xs[..k] + [xs[k]];
      k := k + 1;
    }
    assert xs[..k] == xs;
    return None;
  }

  /** ban-add: append when the entry is absent and not blank. */
  function BanAddStep(banned: seq<string>, entry: string): seq<string> {
    if entry in banned then banned
    else if PyStrip(entry) != "" then banned + [entry]
    else banned
  }

  /** ban-remove: delete the first equal entry, if any. */
  function BanRemoveStep(banned: seq<string>, entry: string): seq<string> {
    match IndexOf(banned, entry)
    case None => banned
    case Some(i) => banned[..i] + banned[i + 1..]
  }

  predicate Distinct(xs: seq<string>) {
    forall i, j :: 0 <= i < j < |xs| ==> xs[i] != xs[j]
  }

  /** Adding puts in exactly a non-blank entry, and adding it again changes nothing. */
  lemma BanAddRules(banned: seq<string>, entry: string, x: string)
    ensures x in BanAddStep(banned, entry) <==> x in banned || (x == entry && PyStrip(entry) != "")
    ensures BanAddStep(BanAddStep(banned, entry), entry) == BanAddStep(banned, entry)
  {
  }

  /** An entry of white space only is never added. */
  lemma BanAddSkipsBlank(banned: seq<string>, entry: string)
    requires forall i :: 0 <= i < |entry| ==> IsPySpace(entry[i])
    ensures BanAddStep(banned, entry) == banned
  {
    PyStripEmptyIffBlank(entry);
  }

  /** A list without repeats keeps none. */
  lemma BanAddKeepsDistinct(banned: seq<string>, entry: string)
    requires Distinct(banned)
    ensures Distinct(BanAddStep(banned, entry))
  {
    if entry !in banned {
      var r := banned + [entry];
      forall i, j | 0 <= i < j < |r|
        ensures r[i] != r[j]
      {
        if j == |banned| {
          assert r[i] == banned[i];
        }
      }
    }
  }

  /** Removing takes out exactly one copy of the entry, or nothing when it is absent. */
  lemma BanRemoveRules(banned: seq<string>, entry: string)
    ensures multiset(BanRemoveStep(banned, entry)) == multiset(banned) - multiset{entry}
    ensures entry !in banned ==> BanRemoveStep(banned, entry) == banned
    ensures Distinct(banned) ==> entry !in BanRemoveStep(banned, entry)
  {
    match IndexOf(banned, entry)
    case None =>
      assert multiset(banned)[entry] == 0;
    case Some(i) =>
      assert banned == banned[..i] + [banned[i]] + banned[i + 1..];
  }

  /** Removing a ban just added restores the list. */
  lemma BanRemoveUndoesAdd(banned: seq<string>, entry: string)
    requires entry !in banned && PyStrip(entry) != ""
    ensures BanRemoveStep(BanAddStep(banned, entry), entry) == banned
  {
    var added := banned + [entry];
    assert added[..|banned|] == banned;
    FirstOccurrence(added, entry, |banned|);
  }

  class BannedList {
    var banned: seq<string>

    constructor (banned: seq<string>)
      ensures this.banned == banned
    {
      this.banned := banned;
    }

    /** `BanAddResource.render_POST`: `index` raises, then a non-blank entry is appended. */
    method BanAdd(entry: string)
      modifies this
      ensures banned == BanAddStep(old(banned), entry)
    {
      var found := FindIndex(banned, entry);
      if found.None? && PyStrip(entry) != "" {
        banned := banned + [entry];
      }
    }

    /** `BanRemoveResource.render_POST`: `del Banned[index]` when `index` finds the entry. */
    method BanRemove(entry: string)
      modifies this
      ensures banned == BanRemoveStep(old(banned), entry)
    {
      var found := FindIndex(banned, entry);
      if found.Some? {
        banned := banned[..found.value] + banned[found.value + 1..];
      }
    }
  }

  // ---------------------------------------------------------------------------
  // Announcements

  /** The posted JSON object: `title` and `message` may be missing, and so may `type`. */
  datatype AnnouncementRequest = AnnouncementRequest(title: Option<string>, message: Option<string>, kind: Option<string>)

  datatype StoredAnnouncement = StoredAnnouncement(
    id: string, title: string, message: string, kind: string, createdAt: string, active: bool)

  datatype PostOutcome = BadRequest | Created(announcements: seq<StoredAnnouncement>) {
    function Status(): int {
      if BadRequest? then 400 else 200
    }
  }

  const DefaultKind := "info"

  /** `render_POST` with `id` the fresh identifier and `now` the creation time. */
  function PostStep(announcements: seq<StoredAnnouncement>, req: AnnouncementRequest, id: string, now: string): (r: PostOutcome)
    ensures r.BadRequest? <==> req.title.None? || req.message.None?
    ensures r.Created? ==> |r.announcements| == |announcements| + 1 && r.announcements[1..] == announcements
  {
    if req.title.None? || req.message.None? then BadRequest
    else Created([StoredAnnouncement(id, req.title.value, req.message.value, req.kind.GetOr(DefaultKind), now, true)] + announcements)
  }

  /** The new announcement is first, active, with the given id and time, and of type "info" unless one was given. */
  lemma PostStepFront(announcements: seq<StoredAnnouncement>, req: AnnouncementRequest, id: string, now: string)
    requires req.title.Some? && req.message.Some?
    ensures var a := PostStep(announcements, req, id, now).announcements[0];
      && a.id == id && a.createdAt == now && a.active
      && a.title == req.title.value && a.message == req.message.value
      && (req.kind.None? ==> a.kind == DefaultKind)
      && (req.kind.Some? ==> a.kind == req.kind.value)
  {
  }

  /** `render_DELETE`: the announcements whose id differs, in order. */
  function DeleteStep(announcements: seq<StoredAnnouncement>, id: string): (r: seq<StoredAnnouncement>)
    ensures forall a :: a in r <==> a in announcements && a.id != id
    ensures |r| <= |announcements|
  {
    if announcements == [] then []
    else (if announcements[0].id != id then [announcements[0]] else []) + DeleteStep(announcements[1..], id)
  }

  /** Deleting an id nobody has keeps the list, and deleting twice is deleting once. */
  lemma {:induction false} DeleteStepRules(announcements: seq<StoredAnnouncement>, id: string)
    ensures (forall a :: a in announcements ==> a.id != id) ==> DeleteStep(announcements, id) == announcements
    ensures DeleteStep(DeleteStep(announcements, id), id) == DeleteStep(announcements, id)
  {
    if announcements != [] {
      DeleteStepRules(announcements[1..], id);
      var d := DeleteStep(announcements, id);
      var rest := DeleteStep(announcements[1..], id);
      if announcements[0].id != id {
        assert d == [announcements[0]] + rest;
        assert d[0] == announcements[0] && d[1..] == rest;
      } else {
        assert d == rest;
      }
    }
  }

  /** Deleting the announcement just created, under a fresh id, gives the list back. */
  lemma DeleteUndoesPost(announcements: seq<StoredAnnouncement>, req: AnnouncementRequest, id: string, now: string)
    requires req.title.Some? && req.message.Some?
    requires forall a :: a in announcements ==> a.id != id
    ensures DeleteStep(PostStep(announcements, req, id, now).announcements, id) == announcements
  {
    var posted := PostStep(announcements, req, id, now).announcements;
    assert posted[1..] == announcements;
    DeleteStepRules(announcements, id);
  }

  class AnnouncementStore {
    var announcements: seq<StoredAnnouncement>

    constructor (announcements: seq<StoredAnnouncement>)
      ensures this.announcements == announcements
    {
      this.announcements := announcements;
    }

    /** Validates, then `insert(0, ...)` and saves; the answer is the saved list. */
    method Post(req: AnnouncementRequest, id: string, now: string) returns (r: PostOutcome)
      modifies this
      ensures r == PostStep(old(announcements), req, id, now)
      ensures announcements == if r.Created? then r.announcements else old(announcements)
    {
      if req.title.None? || req.message.None? {
        return BadRequest;
      }
      var kind := if req.kind.Some? then req.kind.value else DefaultKind;
      announcements := [StoredAnnouncement(id, req.title.value, req.message.value, kind, now, true)] + announcements;
      r := Created(announcements);
    }

    method Delete(id: string)
      modifies this
      ensures announcements == DeleteStep(old(announcements), id)
    {
      announcements := DeleteStep(announcements, id);
    }
  }

  // ---------------------------------------------------------------------------
  // Profile figures

  const TwoTo16 := 0x1_0000

  /** `favPlayer & 0xFFFF` on a Python integer: the remainder modulo 2^16, negative values included. */
  function FavPlayerId(favPlayer: int): (r: int)
    ensures 0 <= r < TwoTo16 && (favPlayer - r) % TwoTo16 == 0
  {
    favPlayer % TwoTo16
  }

  /** `(favPlayer >> 16) & 0xFFFF`: the shift floors, the mask keeps sixteen bits. */
  function FavPlayerTeamId(favPlayer: int): (r: int)
    ensures 0 <= r < TwoTo16
  {
    (favPlayer / TwoTo16) % TwoTo16
  }

  /** A 32-bit value is its team half times 2^16 plus its player half, and the halves read back. */
  lemma FavPlayerHalves(favPlayer: int, team: int, player: int)
    ensures 0 <= favPlayer < TwoTo16 * TwoTo16 ==>
      favPlayer == FavPlayerTeamId(favPlayer) * TwoTo16 + FavPlayerId(favPlayer)
    ensures 0 <= team < TwoTo16 && 0 <= player < TwoTo16 ==>
      FavPlayerTeamId(team * TwoTo16 + player) == team && FavPlayerId(team * TwoTo16 + player) == player
  {
  }

  /** `games = wins + draws + losses`; the ratios are divided by it only when it is positive. */
  function Games(wins: nat, draws: nat, losses: nat): (g: nat)
    ensures g >= wins && g >= draws && g >= losses
    ensures g == 0 <==> wins == 0 && draws == 0 && losses == 0
  {
    wins + draws + losses
  }

  // ---------------------------------------------------------------------------
  // Verifying a player's password

  /** The pre-hash the account resource rebuilds from the stored serial and user name. */
  method VerifyPreHash(storedSerial: string, storedUsername: string, password: string) returns (s: string)
    ensures s == ResetPass.PreHash(storedUsername, password, storedSerial)
  {
    var serial := ResetPass.PadSerial(ResetPass.CleanSerial(storedSerial));
    s := serial + storedUsername + "-" + password;
  }

  /** The stored account: user name, serial and credential hash. */
  datatype Account = Account(username: string, serial: string, hash: string)

  /** The password check: the encrypted digest of the rebuilt pre-hash must equal the stored hash. */
  method CheckPassword(md5Hex: string -> string, encryptHex: string -> string, account: Account, password: string)
    returns (ok: bool)
    ensures ok <==> encryptHex(md5Hex(ResetPass.PreHash(account.username, password, account.serial))) == account.hash
  {
    var s := VerifyPreHash(account.serial, account.username, password);
    ok := encryptHex(md5Hex(s)) == account.hash;
  }

  /** Dashes and spaces in the stored serial do not change the pre-hash. */
  lemma PreHashIgnoresSeparators(username: string, password: string, serial: string)
    ensures ResetPass.PreHash(username, password, ResetPass.CleanSerial(serial)) == ResetPass.PreHash(username, password, serial)
  {
    ResetPass.CleanSerialKeepsClean(ResetPass.CleanSerial(serial));
  }

  // ---------------------------------------------------------------------------
  // The score of a live match

  /** `'%d:%d' % (score_home, score_away)` */
  function ColonScoreText(home: int, away: int): string {
    IntString(home) + ":" + IntString(away)
  }

  /** The front end splits on '-', so a colon score reads as the home goals and 0. */
  lemma ColonScoreMisread(home: nat, away: nat)
    ensures DataTransformers.ParseScore(ColonScoreText(home, away)) == DataTransformers.Score(home, 0)
  {
    var x, y := DecimalString(home), DecimalString(away);
    var s := ColonScoreText(home, away);
    assert s == x + (":" + y);
    assert Avoids(s, '-');
    DataTransformers.ParseScoreNoDash(s);
    DataTransformers.ParseIntDecimal(x, ":" + y);
    DecimalRoundTrip(home);
  }

  /** The score text the front end reads: home goals, '-', away goals. */
  function ScoreText(home: nat, away: nat): (s: string)
    ensures DataTransformers.ParseScore(s) == DataTransformers.Score(home, away)
  {
    DataTransformers.ParseScoreRoundTrip(home, away);
    DecimalString(home) + "-" + DecimalString(away)
  }

  /** The fields of one live match in the stats answer. */
  datatype LiveMatch = LiveMatch(roomName: string, matchTime: int, score: string, homeTeamId: int, awayTeamId: int)

  function LiveMatchData(roomName: string, matchTime: int, home: nat, away: nat, homeTeamId: int, awayTeamId: int): (m: LiveMatch)
    ensures DataTransformers.ParseScore(m.score) == DataTransformers.Score(home, away)
  {
    LiveMatch(roomName, matchTime, ScoreText(home, away), homeTeamId, awayTeamId)
  }
}
