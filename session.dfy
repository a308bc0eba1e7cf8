/**
 * The authentication context: an administrator slot and a player slot, each
 * holding a Basic credential, kept in state and mirrored in browser storage
 * (a key-to-string map). Requests are outside the model: each operation is
 * given the outcome of its request, and Base64 encoding is a parameter.
 */
module Session {
  import opened Text

  const AuthTokenKey := "auth_token"
  const UserTokenKey := "user_token"
  const UserCountryKey := "user_country"

  datatype ProfileStats = ProfileStats(played: int, won: int, drawn: int, lost: int, goalsFor: int, goalsAgainst: int)
  datatype Streaks = Streaks(current: int, best: int)
  datatype Profile = Profile(stats: Option<ProfileStats>, streaks: Option<Streaks>, secondsPlayed: Option<int>)

  /** The account record returned by `/api/my-account`. */
  datatype UserData = UserData(username: string, serial: string, profiles: Option<seq<Profile>>)

  datatype SessionState = SessionState(
    storage: map<string, string>, token: Option<string>, userToken: Option<string>,
    user: Option<UserData>, userCountry: Option<string>, isLoading: bool)

  function Lookup(storage: map<string, string>, key: string): Option<string> {
    if key in storage then Some(storage[key]) else None
  }

  /** JavaScript truthiness of a string that may be null: null and "" are false. */
  predicate Truthy(v: Option<string>) {
    v.Some? && v.value != []
  }

  /** The provider's state when it is created over the given storage. */
  function InitialSession(storage: map<string, string>): (s: SessionState)
    ensures s.storage == storage && s.user == None
    ensures s.token == Lookup(storage, AuthTokenKey)
    ensures s.userToken == Lookup(storage, UserTokenKey)
    ensures s.userCountry == Lookup(storage, UserCountryKey)
    ensures s.isLoading <==> UserTokenKey in storage && storage[UserTokenKey] != []
  {
    SessionState(storage, Lookup(storage, AuthTokenKey), Lookup(storage, UserTokenKey), None,
                 Lookup(storage, UserCountryKey), Truthy(Lookup(storage, UserTokenKey)))
  }

  /** The Authorization header value: "Basic " and the Base64 of "user:password". */
  function BasicAuth(b64: string -> string, username: string, password: string): (h: string)
    ensures "Basic " <= h && h[6..] == b64(username + ":" + password)
  {
    "Basic " + b64(username + ":" + password)
  }

  predicate IsAuthenticated(s: SessionState) { Truthy(s.token) }
  predicate IsUserAuthenticated(s: SessionState) { Truthy(s.userToken) }

  /** `login`: the administrator credential is kept only when the probe request succeeded. */
  function LoginStep(s: SessionState, b64: string -> string, username: string, password: string, probeOk: bool): (SessionState, bool) {
    if probeOk then
      var h := BasicAuth(b64, username, password);
      (s.(storage := s.storage[AuthTokenKey := h], token := Some(h)), true)
    else (s, false)
  }

  /** `loginUser`: the player credential and account are kept only when the account request answered. */
  function LoginUserStep(s: SessionState, b64: string -> string, username: string, password: string, account: Option<UserData>): (SessionState, bool) {
    if account.Some? then
      var h := BasicAuth(b64, username, password);
      (s.(storage := s.storage[UserTokenKey := h], userToken := Some(h), user := account), true)
    else (s, false)
  }

  /** `fetchCountry`: a truthy country code is kept in state and storage; anything else changes nothing. */
  function FetchCountryStep(s: SessionState, countryCode: Option<string>): SessionState {
    if Truthy(countryCode)
    then s.(userCountry := countryCode, storage := s.storage[UserCountryKey := countryCode.value])
    else s
  }

  function LogoutUserStep(s: SessionState): SessionState {
    s.(storage := s.storage - {UserTokenKey, UserCountryKey}, userToken := None, user := None, userCountry := None)
  }

  function LogoutStep(s: SessionState): SessionState {
    LogoutUserStep(s.(storage := s.storage - {AuthTokenKey}, token := None))
  }

  /** The restore effect starting: a request is issued only for a truthy player token. */
  function RestoreStartStep(s: SessionState): SessionState {
    s.(isLoading := Truthy(s.userToken))
  }

  /** The restore request's outcome: the account on success, a player logout on failure. */
  function RestoreDoneStep(s: SessionState, account: Option<UserData>): SessionState {
    if account.Some? then s.(user := account, isLoading := false)
    else LogoutUserStep(s).(isLoading := false)
  }

  /**
   * A failed probe changes nothing; a successful one fills the administrator
   * slot and its storage key, and nothing else changes: the player slot, the
   * country, the loading flag and every other key stay as they were.
   */
  lemma LoginOnlyOnSuccess(s: SessionState, b64: string -> string, username: string, password: string, probeOk: bool)
    ensures var (r, ok) := LoginStep(s, b64, username, password, probeOk);
      && ok == probeOk
      && (!probeOk ==> r == s)
      && (probeOk ==>
            && r.token == Some(BasicAuth(b64, username, password))
            && Lookup(r.storage, AuthTokenKey) == r.token && IsAuthenticated(r)
            && r.userToken == s.userToken && r.user == s.user
            && Lookup(r.storage, UserTokenKey) == Lookup(s.storage, UserTokenKey)
            && r == s.(storage := s.storage[AuthTokenKey := BasicAuth(b64, username, password)],
                       token := Some(BasicAuth(b64, username, password))))
  {
  }

  /**
   * A failed account request changes nothing; a successful one fills the
   * player token, its storage key and the account, and nothing else changes:
   * the administrator slot, the country, the loading flag and every other key
   * stay as they were.
   */
  lemma LoginUserOnlyOnSuccess(s: SessionState, b64: string -> string, username: string, password: string, account: Option<UserData>)
    ensures var (r, ok) := LoginUserStep(s, b64, username, password, account);
      && ok == account.Some?
      && (account.None? ==> r == s)
      && (account.Some? ==>
            && r.userToken == Some(BasicAuth(b64, username, password))
            && Lookup(r.storage, UserTokenKey) == r.userToken && r.user == account
            && IsUserAuthenticated(r)
            && r.token == s.token && Lookup(r.storage, AuthTokenKey) == Lookup(s.storage, AuthTokenKey)
            && r == s.(storage := s.storage[UserTokenKey := BasicAuth(b64, username, password)],
                       userToken := Some(BasicAuth(b64, username, password)), user := account))
  {
  }

  /** Logging the player out empties the player slot and its storage keys, and leaves the administrator slot alone. */
  lemma LogoutUserKeepsAdmin(s: SessionState)
    ensures var r := LogoutUserStep(s);
      && r.userToken == None && r.user == None && r.userCountry == None && !IsUserAuthenticated(r)
      && UserTokenKey !in r.storage && UserCountryKey !in r.storage
      && r.token == s.token && Lookup(r.storage, AuthTokenKey) == Lookup(s.storage, AuthTokenKey)
      && (forall k :: k in s.storage && k != UserTokenKey && k != UserCountryKey ==> k in r.storage && r.storage[k] == s.storage[k])
  {
  }

  /** `logout` empties both slots and removes exactly the three session keys from storage. */
  lemma LogoutClearsBoth(s: SessionState)
    ensures var r := LogoutStep(s);
      && !IsAuthenticated(r) && !IsUserAuthenticated(r) && r.user == None
      && r.storage == s.storage - {AuthTokenKey, UserTokenKey, UserCountryKey}
  {
  }

  /** A player login undone by a player logout leaves storage as it was, less the player keys. */
  lemma LoginUserLogoutUser(s: SessionState, b64: string -> string, username: string, password: string, account: UserData)
    ensures LogoutUserStep(LoginUserStep(s, b64, username, password, Some(account)).0).storage
            == s.storage - {UserTokenKey, UserCountryKey}
  {
    var r := LoginUserStep(s, b64, username, password, Some(account)).0;
    assert LogoutUserStep(r).storage == s.storage - {UserTokenKey, UserCountryKey};
  }

  /** A failed restore logs the player out and stops loading; the administrator slot stays. */
  lemma RestoreFailureLogsOut(s: SessionState)
    ensures var r := RestoreDoneStep(s, None);
      !r.isLoading && !IsUserAuthenticated(r) && r.user == None && r.token == s.token
      && UserTokenKey !in r.storage
  {
  }

  /** A successful restore keeps both credentials and shows the account; loading ends either way. */
  lemma RestoreSuccessKeepsSession(s: SessionState, account: UserData)
    ensures var r := RestoreDoneStep(s, Some(account));
      !r.isLoading && r.user == Some(account) && r.token == s.token && r.userToken == s.userToken
      && r.storage == s.storage
  {
  }

  /** Loading starts exactly when there is a truthy player token to check. */
  lemma RestoreStartLoadsIff(s: SessionState)
    ensures var r := RestoreStartStep(s);
      (r.isLoading <==> s.userToken.Some? && s.userToken.value != []) && r.(isLoading := s.isLoading) == s
  {
  }

  /** Only a non-empty country code is stored, under `user_country`; otherwise nothing changes. */
  lemma CountryOnlyWhenTruthy(s: SessionState, countryCode: Option<string>)
    ensures var r := FetchCountryStep(s, countryCode);
      && (countryCode.None? || countryCode.value == [] ==> r == s)
      && (countryCode.Some? && countryCode.value != [] ==>
            r.userCountry == countryCode && Lookup(r.storage, UserCountryKey) == countryCode
            && r.token == s.token && r.userToken == s.userToken && r.user == s.user
            && (forall k :: k in s.storage && k != UserCountryKey ==> k in r.storage && r.storage[k] == s.storage[k]))
  {
  }

  /** The provider instance. */
  class AuthProvider {
    var storage: map<string, string>
    var token: Option<string>
    var userToken: Option<string>
    var user: Option<UserData>
    var userCountry: Option<string>
    var isLoading: bool

    function State(): SessionState
      reads this
    {
      SessionState(storage, token, userToken, user, userCountry, isLoading)
    }

    constructor (storage: map<string, string>)
      ensures State() == InitialSession(storage)
    {
      this.storage := storage;
      token := Lookup(storage, AuthTokenKey);
      userToken := Lookup(storage, UserTokenKey);
      user := None;
      userCountry := Lookup(storage, UserCountryKey);
      isLoading := Truthy(Lookup(storage, UserTokenKey));
    }

    method Login(b64: string -> string, username: string, password: string, probeOk: bool) returns (ok: bool)
      modifies this
      ensures (State(), ok) == LoginStep(old(State()), b64, username, password, probeOk)
    {
      var basicAuth := BasicAuth(b64, username, password);
      if probeOk {
        storage := storage[AuthTokenKey := basicAuth];
        token := Some(basicAuth);
        ok := true;
      } else {
        ok := false;
      }
    }

    method LoginUser(b64: string -> string, username: string, password: string, account: Option<UserData>) returns (ok: bool)
      modifies this
      ensures (State(), ok) == LoginUserStep(old(State()), b64, username, password, account)
    {
      var basicAuth := BasicAuth(b64, username, password);
      if account.Some? {
        storage := storage[UserTokenKey := basicAuth];
        userToken := Some(basicAuth);
        user := account;
        ok := true;
      } else {
        ok := false;
      }
    }

    method FetchCountry(countryCode: Option<string>)
      modifies this
      ensures State() == FetchCountryStep(old(State()), countryCode)
    {
      if countryCode.Some? && countryCode.value != [] {
        userCountry := countryCode;
        storage := storage[UserCountryKey := countryCode.value];
      }
    }

    method LogoutUser()
      modifies this
      ensures State() == LogoutUserStep(old(State()))
    {
      storage := storage - {UserTokenKey};
      storage := storage - {UserCountryKey};
      userToken := None;
      user := None;
      userCountry := None;
    }

    method Logout()
      modifies this
      ensures State() == LogoutStep(old(State()))
    {
      storage := storage - {AuthTokenKey};
      token := None;
      LogoutUser();
    }

    method RestoreStart()
      modifies this
      ensures State() == RestoreStartStep(old(State()))
    {
      if userToken.Some? && userToken.value != [] {
        isLoading := true;
      } else {
        isLoading := false;
      }
    }

    method RestoreDone(account: Option<UserData>)
      modifies this
      ensures State() == RestoreDoneStep(old(State()), account)
    {
      if account.Some? {
        user := account;
        isLoading := false;
      } else {
        LogoutUser();
        isLoading := false;
      }
    }
  }
}
