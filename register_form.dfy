/**
 * The registration form component: serial and user-name normalisation, the
 * ordered field checks, the string that is hashed, the nonce scraped from the
 * registration page, and the classification of the server's answer. MD5 is a
 * parameter; the two requests are given by their outcomes.
 */
module RegisterForm {
  import opened Text

  const SerialLength := 20
  const MinUsernameLength := 3
  const MinPasswordLength := 3

  const SerialError := "El serial es inválido. Debe tener 20 caracteres alfanuméricos."
  const UsernameError := "El usuario debe tener mínimo 3 caracteres (solo letras y números)."
  const PasswordLengthError := "La contraseña debe tener mínimo 3 caracteres."
  const PasswordMatchError := "Las contraseñas no coinciden."
  const ConflictError := "Este usuario o serial ya está registrado."
  const InvalidError := "Datos inválidos. Por favor verifica los campos."
  const GenericError := "Error al registrar. Por favor intenta de nuevo."
  const ConnectionErrorPrefix := "Error de conexión: "

  datatype Result<T> = Ok(value: T) | Err(message: string)

  // ---------------------------------------------------------------------------
  // Field checks

  predicate IsSerialChar(c: char) { IsUpper(c) || IsDigit(c) }

  /** `/^[A-Z0-9]{20}$/` */
  predicate IsSerial(s: string) {
    |s| == SerialLength && forall i :: 0 <= i < |s| ==> IsSerialChar(s[i])
  }

  /** Trim both ends, delete every '-', upper-case. */
  function CleanSerial(serial: string): string {
    ToUpper(RemoveAll(TrimJs(serial), '-'))
  }

  /** `username.length >= 3` and `/^[0-9a-zA-Z]+$/` */
  predicate IsUsername(u: string) {
    |u| >= MinUsernameLength && AllAlnum(u)
  }

  /** The validated fields: the cleaned serial and the trimmed user name. */
  datatype Fields = Fields(serial: string, username: string)

  /** The checks in source order; the first failing one decides the message. */
  function Validate(serial: string, username: string, password: string, confirmPassword: string): Result<Fields> {
    var cleanSerial := CleanSerial(serial);
    var cleanUsername := TrimJs(username);
    if !IsSerial(cleanSerial) then Err(SerialError)
    else if !IsUsername(cleanUsername) then Err(UsernameError)
    else if JsLength(password) < MinPasswordLength then Err(PasswordLengthError)
    else if password != confirmPassword then Err(PasswordMatchError)
    else Ok(Fields(cleanSerial, cleanUsername))
  }

  /** Which check fails is decided in the order serial, user name, password length, confirmation. */
  lemma ValidateOrder(serial: string, username: string, password: string, confirmPassword: string)
    ensures var r := Validate(serial, username, password, confirmPassword);
      && (r == Err(SerialError) <==> !IsSerial(CleanSerial(serial)))
      && (r == Err(UsernameError) <==> IsSerial(CleanSerial(serial)) && !IsUsername(TrimJs(username)))
      && (r == Err(PasswordLengthError) <==>
            IsSerial(CleanSerial(serial)) && IsUsername(TrimJs(username)) && JsLength(password) < MinPasswordLength)
      && (r == Err(PasswordMatchError) <==>
            IsSerial(CleanSerial(serial)) && IsUsername(TrimJs(username)) && JsLength(password) >= MinPasswordLength
            && password != confirmPassword)
      && (r.Ok? <==>
            IsSerial(CleanSerial(serial)) && IsUsername(TrimJs(username)) && JsLength(password) >= MinPasswordLength
            && password == confirmPassword)
      && (r.Ok? ==> r.value == Fields(CleanSerial(serial), TrimJs(username)))
  {
  }

  /** A serial that passes the check is left as it is by cleaning it again. */
  lemma AcceptedSerialIsClean(s: string)
    requires IsSerial(s)
    ensures CleanSerial(s) == s
  {
    assert TrimStartJs(s) == s by { assert !IsJsSpace(s[0]); }
    assert TrimEndJs(s) == s by { assert !IsJsSpace(s[|s| - 1]); }
    assert Avoids(s, '-');
    RemoveAllAbsent(s, '-');
    assert ToUpper(s) == s;
  }

  /** Dashes between the groups make no difference to the cleaned serial. */
  lemma CleanSerialIgnoresDash(x: string, y: string)
    requires x != [] && !IsJsSpace(x[0]) && y != [] && !IsJsSpace(y[|y| - 1])
    ensures CleanSerial(x + "-" + y) == CleanSerial(x + y)
  {
    var s, t := x + "-" + y, x + y;
    assert TrimJs(s) == s by {
      assert s[0] == x[0] && s[|s| - 1] == y[|y| - 1];
      TrimJsOfTrimmed(s);
    }
    assert TrimJs(t) == t by {
      assert t[0] == x[0] && t[|t| - 1] == y[|y| - 1];
      TrimJsOfTrimmed(t);
    }
    RemoveDashJoin(x, y);
  }

  lemma RemoveDashJoin(x: string, y: string)
    ensures RemoveAll(x + "-" + y, '-') == RemoveAll(x + y, '-')
  {
    RemoveAllConcat(x + "-", y, '-');
    RemoveAllConcat(x, "-", '-');
    RemoveAllConcat(x, y, '-');
    assert RemoveAll("-", '-') == [];
  }

  /** The string whose MD5 is sent: cleaned serial, user name, '-', password, with no padding. */
  function HashInput(f: Fields, password: string): string {
    f.serial + f.username + "-" + password
  }

  lemma HashInputLength(f: Fields, password: string)
    requires IsSerial(f.serial)
    ensures |HashInput(f, password)| == SerialLength + |f.username| + 1 + |password|
    ensures HashInput(f, password)[..SerialLength] == f.serial
  {
  }

  // ---------------------------------------------------------------------------
  // Nonce extraction: the first capture of  name="nonce"[^>]*value="([^"]+)"

  const NameNonce := "name=\"nonce\""
  const ValueOpen := "value=\""

  /** The longest prefix free of `c`. */
  function PrefixWithout(s: string, c: char): (r: string)
    ensures |r| <= |s|
  {
    if s == [] || s[0] == c then [] else [s[0]] + PrefixWithout(s[1..], c)
  }

  /** The prefix is a prefix, avoids `c`, and stops only at `c` or at the end. */
  lemma {:induction false} PrefixWithoutShape(s: string, c: char)
    ensures var r := PrefixWithout(s, c);
      && r <= s && Avoids(r, c) && (|r| < |s| ==> s[|r|] == c)
  {
    if s != [] && s[0] != c {
      PrefixWithoutShape(s[1..], c);
      var r := PrefixWithout(s[1..], c);
      assert s == [s[0]] + s[1..];
      assert forall t :: 0 < t <= |r| ==> ([s[0]] + r)[t] == r[t - 1];
    }
  }

  lemma {:induction false} PrefixWithoutCovers(s: string, c: char, k: nat)
    requires k <= |s| && Avoids(s[..k], c)
    ensures |PrefixWithout(s, c)| >= k
  {
    if k > 0 {
      assert s[0] == s[..k][0];
      assert s[1..][..k - 1] == s[..k][1..];
      PrefixWithoutCovers(s[1..], c, k - 1);
    }
  }

  /** The literal `lit` occurs in `s` at position `j`. */
  predicate LiteralAt(s: string, j: nat, lit: string) {
    j + |lit| <= |s| && forall t :: 0 <= t < |lit| ==> s[j + t] == lit[t]
  }

  /** `value="([^"]+)"` matched at `j`, giving its capture. */
  function ValueAt(s: string, j: nat): Option<string>
    requires j <= |s|
  {
    if LiteralAt(s, j, ValueOpen) then
      var k := j + |ValueOpen|;
      var v := PrefixWithout(s[k..], '"');
      if v != [] && k + |v| < |s| then Some(v) else None
    else None
  }

  /** `[^>]*` is greedy: from the end of the run back to its start, the first position where the rest matches. */
  function LastValue(s: string, p: nat, j: nat): Option<string>
    requires p <= j <= |s|
    decreases j - p
  {
    var v := ValueAt(s, j);
    if v.Some? then v else if j == p then None else LastValue(s, p, j - 1)
  }

  /** The match attempt starting at `i`. */
  function NonceAt(s: string, i: nat): Option<string>
    requires i <= |s|
  {
    if LiteralAt(s, i, NameNonce) then
      var p := i + |NameNonce|;
      LastValue(s, p, p + |PrefixWithout(s[p..], '>')|)
    else None
  }

  /** Leftmost match from position `i` on. */
  function FirstNonce(s: string, i: nat): Option<string>
    requires i <= |s|
    decreases |s| - i
  {
    var v := NonceAt(s, i);
    if v.Some? then v else if i == |s| then None else FirstNonce(s, i + 1)
  }

  function ExtractNonce(html: string): Option<string> {
    FirstNonce(html, 0)
  }

  /** The pattern matches at `i`, its `[^>]*` ends at `j`, and `v` is the capture. */
  predicate MatchesAt(s: string, i: nat, j: nat, v: string) {
    && i + |NameNonce| <= j <= |s| && NameNonce <= s[i..] && Avoids(s[i + |NameNonce|..j], '>')
    && ValueOpen <= s[j..] && j + |ValueOpen| + |v| < |s|
    && v != [] && Avoids(v, '"') && v <= s[j + |ValueOpen|..] && s[j + |ValueOpen| + |v|] == '"'
  }

  lemma ValueAtSound(s: string, i: nat, j: nat)
    requires i + |NameNonce| <= j <= |s| && NameNonce <= s[i..] && Avoids(s[i + |NameNonce|..j], '>')
    requires ValueAt(s, j).Some?
    ensures MatchesAt(s, i, j, ValueAt(s, j).value)
  {
    var k := j + |ValueOpen|;
    var v := ValueAt(s, j).value;
    PrefixWithoutShape(s[k..], '"');
    assert s[k..][|v|] == s[k + |v|];
  }

  lemma {:induction false} PrefixWithoutExact(s: string, c: char, v: string)
    requires v <= s && Avoids(v, c) && |v| < |s| && s[|v|] == c
    ensures PrefixWithout(s, c) == v
  {
    if v != [] {
      assert s[0] == v[0];
      PrefixWithoutExact(s[1..], c, v[1..]);
      assert [s[0]] + v[1..] == v;
    }
  }

  lemma ValueAtComplete(s: string, i: nat, j: nat, v: string)
    requires MatchesAt(s, i, j, v)
    ensures ValueAt(s, j) == Some(v)
  {
    var k := j + |ValueOpen|;
    assert s[k..][|v|] == s[k + |v|];
    PrefixWithoutExact(s[k..], '"', v);
  }

  /** The value found is the one at the last position of the stretch where `value="..."` matches. */
  lemma {:induction false} LastValueSound(s: string, p: nat, j: nat) returns (j': nat)
    requires p <= j <= |s| && LastValue(s, p, j).Some?
    ensures p <= j' <= j && ValueAt(s, j') == LastValue(s, p, j)
    ensures forall k :: j' < k <= j ==> ValueAt(s, k).None?
    decreases j - p
  {
    if ValueAt(s, j).Some? {
      j' := j;
    } else {
      j' := LastValueSound(s, p, j - 1);
    }
  }

  lemma {:induction false} LastValueComplete(s: string, p: nat, j: nat, j0: nat)
    requires p <= j0 <= j <= |s| && ValueAt(s, j0).Some?
    ensures LastValue(s, p, j).Some?
    decreases j - p
  {
    if ValueAt(s, j).None? {
      LastValueComplete(s, p, j - 1, j0);
    }
  }

  /** The nonce found is the one of the first position, from `i` on, where an attempt succeeds. */
  lemma {:induction false} FirstNonceSound(s: string, i: nat) returns (i': nat)
    requires i <= |s| && FirstNonce(s, i).Some?
    ensures i <= i' <= |s| && NonceAt(s, i') == FirstNonce(s, i)
    ensures forall k :: i <= k < i' ==> NonceAt(s, k).None?
    decreases |s| - i
  {
    if NonceAt(s, i).Some? {
      i' := i;
    } else {
      i' := FirstNonceSound(s, i + 1);
    }
  }

  lemma {:induction false} FirstNonceComplete(s: string, i: nat, i0: nat)
    requires i <= i0 <= |s| && NonceAt(s, i0).Some?
    ensures FirstNonce(s, i).Some?
    decreases |s| - i
  {
    if NonceAt(s, i).None? {
      FirstNonceComplete(s, i + 1, i0);
    }
  }

  /** Every stretch inside the `[^>]*` run is free of '>'. */
  lemma RunAvoids(s: string, p: nat, j: nat)
    requires p <= j <= |s| && j <= p + |PrefixWithout(s[p..], '>')|
    ensures Avoids(s[p..j], '>')
  {
    PrefixWithoutShape(s[p..], '>');
    assert s[p..j] == PrefixWithout(s[p..], '>')[..j - p];
  }

  /** A match's `[^>]*` stretch lies inside the run of non-'>' characters after `name="nonce"`. */
  lemma MatchInRun(html: string, i: nat, j: nat, v: string)
    requires MatchesAt(html, i, j, v)
    ensures j <= i + |NameNonce| + |PrefixWithout(html[i + |NameNonce|..], '>')|
  {
    var p := i + |NameNonce|;
    assert html[p..][..j - p] == html[p..j];
    PrefixWithoutCovers(html[p..], '>', j - p);
  }

  /** A successful attempt at `i` is the match starting at `i` whose `[^>]*` stretch is longest. */
  lemma NonceAtSound(html: string, i: nat) returns (j: nat)
    requires i <= |html| && NonceAt(html, i).Some?
    ensures MatchesAt(html, i, j, NonceAt(html, i).value)
    ensures forall j': nat, w: string :: j < j' ==> !MatchesAt(html, i, j', w)
  {
    var p := i + |NameNonce|;
    var limit := p + |PrefixWithout(html[p..], '>')|;
    j := LastValueSound(html, p, limit);
    RunAvoids(html, p, j);
    ValueAtSound(html, i, j);
    forall j': nat, w: string | j < j' && MatchesAt(html, i, j', w)
      ensures false
    {
      MatchInRun(html, i, j', w);
      ValueAtComplete(html, i, j', w);
    }
  }

  /**
   * What is extracted is the capture of the leftmost match, and of the matches
   * starting there the one whose `[^>]*` stretch is longest: no match starts
   * earlier, and none starting there reaches further.
   */
  lemma ExtractNonceSound(html: string)
    requires ExtractNonce(html).Some?
    ensures exists i: nat, j: nat :: MatchesAt(html, i, j, ExtractNonce(html).value) &&
              (forall i': nat, j': nat, w: string :: i' < i ==> !MatchesAt(html, i', j', w)) &&
              (forall j': nat, w: string :: j < j' ==> !MatchesAt(html, i, j', w))
  {
    var i := FirstNonceSound(html, 0);
    var j := NonceAtSound(html, i);
    forall i': nat, j': nat, w: string | i' < i && MatchesAt(html, i', j', w)
      ensures false
    {
      NonceAtComplete(html, i', j', w);
    }
  }

  /** A match at `i` makes the attempt at `i` succeed. */
  lemma NonceAtComplete(html: string, i: nat, j: nat, v: string)
    requires MatchesAt(html, i, j, v)
    ensures NonceAt(html, i).Some?
  {
    var p := i + |NameNonce|;
    var limit := p + |PrefixWithout(html[p..], '>')|;
    assert j <= limit by {
      MatchInRun(html, i, j, v);
    }
    assert ValueAt(html, j).Some? by {
      ValueAtComplete(html, i, j, v);
    }
    LastValueComplete(html, p, limit, j);
  }

  /** Whenever the pattern occurs in the page, a nonce is extracted. */
  lemma ExtractNonceComplete(html: string, i: nat, j: nat, v: string)
    requires MatchesAt(html, i, j, v)
    ensures ExtractNonce(html).Some?
  {
    NonceAtComplete(html, i, j, v);
    FirstNonceComplete(html, 0, i);
  }

  /** The nonce: the capture, or "" when the page could not be fetched or has no match. */
  function Nonce(page: Option<string>): string {
    if page.Some? && ExtractNonce(page.value).Some? then ExtractNonce(page.value).value else ""
  }

  /** The posted nonce is empty exactly when no page came back or the page has no match: a capture is never empty. */
  lemma NonceEmptyIff(page: Option<string>)
    ensures Nonce(page) == "" <==> page.None? || ExtractNonce(page.value).None?
  {
    if page.Some? && ExtractNonce(page.value).Some? {
      ExtractNonceSound(page.value);
    }
  }

  // ---------------------------------------------------------------------------
  // Submission and the answer

  /** The urlencoded form posted to `/register`, as ordered name/value pairs. */
  function RegistrationForm(nonce: string, hash: string, f: Fields): seq<(string, string)> {
    [("nonce", nonce), ("hash", hash), ("serial", RemoveAll(f.serial, '\0')), ("user", f.username), ("format", "html")]
  }

  /** The serial field carries the cleaned serial unchanged: it never holds NUL. */
  lemma FormSerialIsCleanSerial(nonce: string, hash: string, f: Fields)
    requires IsSerial(f.serial)
    ensures RegistrationForm(nonce, hash, f)[2] == ("serial", f.serial)
  {
    assert Avoids(f.serial, '\0');
    RemoveAllAbsent(f.serial, '\0');
  }

  datatype RegisterResponse = NetworkFailure(message: string) | HttpResponse(status: int, body: string)

  /** Why a submission failed; `FailureMessage` gives the text shown. */
  datatype Failure =
    | Connection(message: string)
    | ServerStatus(status: int)
    | AlreadyRegistered
    | InvalidData
    | NotRegistered

  datatype SubmitOutcome = Registered | Failed(failure: Failure)

  function FailureMessage(f: Failure): (m: string)
    ensures f.Connection? || f.ServerStatus? ==> ConnectionErrorPrefix <= m
  {
    match f
    case Connection(message) => ConnectionErrorPrefix + message
    case ServerStatus(status) => ConnectionErrorPrefix + "Error del servidor: " + IntString(status)
    case AlreadyRegistered => ConflictError
    case InvalidData => InvalidError
    case NotRegistered => GenericError
  }

  /** `response.ok`: a status in 200..299. */
  predicate StatusOk(status: int) { 200 <= status <= 299 }

  predicate SuccessBody(status: int, body: string) {
    Contains(body, "Success") || Contains(body, "Usuario registrado")
    || (status == 200 && !Contains(body, "409") && !Contains(body, "400"))
  }

  predicate ConflictBody(body: string) {
    Contains(body, "409") || Contains(body, "ya existe") || Contains(body, "Conflict")
  }

  predicate InvalidBody(body: string) {
    Contains(body, "400") || Contains(body, "Invalid")
  }

  function ClassifyResponse(r: RegisterResponse): SubmitOutcome {
    match r
    case NetworkFailure(m) => Failed(Connection(m))
    case HttpResponse(status, body) =>
      if !StatusOk(status) then Failed(ServerStatus(status))
      else if SuccessBody(status, body) then Registered
      else if ConflictBody(body) then Failed(AlreadyRegistered)
      else if InvalidBody(body) then Failed(InvalidData)
      else Failed(NotRegistered)
  }

  /**
   * A 2xx answer is a registration exactly when it carries a success marker,
   * or is a 200 mentioning neither 409 nor 400; a conflict is reported before
   * an invalid request; any other status is reported as a connection error.
   */
  lemma ClassifyResponseCases(status: int, body: string)
    ensures var o := ClassifyResponse(HttpResponse(status, body));
      && (o == Registered <==> StatusOk(status) && SuccessBody(status, body))
      && (o == Failed(AlreadyRegistered) <==> StatusOk(status) && !SuccessBody(status, body) && ConflictBody(body))
      && (o == Failed(InvalidData) <==>
            StatusOk(status) && !SuccessBody(status, body) && !ConflictBody(body) && InvalidBody(body))
      && (o == Failed(ServerStatus(status)) <==> !StatusOk(status))
  {
  }

  /** A network failure and a non-2xx status both surface as connection errors. */
  lemma ConnectionErrorsPrefixed(r: RegisterResponse)
    requires r.NetworkFailure? || !StatusOk(r.status)
    ensures ClassifyResponse(r).Failed? && ConnectionErrorPrefix <= FailureMessage(ClassifyResponse(r).failure)
  {
  }

  /** A plain 200 page is a registration even when it says nothing. */
  lemma Plain200Registers(body: string)
    requires !Contains(body, "409") && !Contains(body, "400")
    ensures ClassifyResponse(HttpResponse(200, body)) == Registered
  {
  }

  // ---------------------------------------------------------------------------
  // The component

  /** The component's state: the four inputs, the flags and every form posted so far. */
  datatype FormState = FormState(
    serial: string, username: string, password: string, confirmPassword: string,
    loading: bool, error: string, success: bool, posted: seq<seq<(string, string)>>)

  /**
   * `handleSubmit`, given the MD5 function, the registration page (None when
   * it could not be fetched) and the answer to the post.
   */
  function SubmitStep(s: FormState, md5: string -> string, noncePage: Option<string>, response: RegisterResponse): FormState {
    var v := Validate(s.serial, s.username, s.password, s.confirmPassword);
    if v.Err? then s.(error := v.message, loading := false)
    else
      var f := v.value;
      var t := s.(posted := s.posted + [RegistrationForm(Nonce(noncePage), md5(HashInput(f, s.password)), f)],
                  error := "", loading := false);
      var outcome := ClassifyResponse(response);
      if outcome == Registered then t.(success := true) else t.(error := FailureMessage(outcome.failure))
  }

  /**
   * A rejected field posts nothing and shows its message; otherwise exactly one
   * form goes out, carrying the hash of the unpadded input, and the answer
   * decides between success and a message. The inputs are never changed.
   */
  lemma SubmitStepOutcome(s: FormState, md5: string -> string, noncePage: Option<string>, response: RegisterResponse)
    ensures var r := SubmitStep(s, md5, noncePage, response);
      var v := Validate(s.serial, s.username, s.password, s.confirmPassword);
      && !r.loading
      && (r.serial, r.username, r.password, r.confirmPassword) == (s.serial, s.username, s.password, s.confirmPassword)
      && (v.Err? ==> r.error == v.message && r.posted == s.posted && r.success == s.success)
      && (v.Ok? ==>
            && |r.posted| == |s.posted| + 1 && r.posted[..|s.posted|] == s.posted
            && r.posted[|s.posted|][1] == ("hash", md5(CleanSerial(s.serial) + TrimJs(s.username) + "-" + s.password))
            && r.posted[|s.posted|][3] == ("user", TrimJs(s.username))
            && (r.success <==> s.success || ClassifyResponse(response) == Registered)
            && (ClassifyResponse(response).Failed? ==> r.error == FailureMessage(ClassifyResponse(response).failure)))
  {
    var v := Validate(s.serial, s.username, s.password, s.confirmPassword);
    if v.Ok? {
      ValidateOrder(s.serial, s.username, s.password, s.confirmPassword);
    }
  }

  class RegisterFormComponent {
    var serial: string
    var username: string
    var password: string
    var confirmPassword: string
    var loading: bool
    var error: string
    var success: bool
    var posted: seq<seq<(string, string)>>

    function State(): FormState
      reads this
    {
      FormState(serial, username, password, confirmPassword, loading, error, success, posted)
    }

    constructor (serial: string, username: string, password: string, confirmPassword: string)
      ensures State() == FormState(serial, username, password, confirmPassword, false, "", false, [])
    {
      this.serial := serial;
      this.username := username;
      this.password := password;
      this.confirmPassword := confirmPassword;
      loading := false;
      error := "";
      success := false;
      posted := [];
    }

    method HandleSubmit(md5: string -> string, noncePage: Option<string>, response: RegisterResponse)
      modifies this
      ensures State() == SubmitStep(old(State()), md5, noncePage, response)
    {
      var v := Validate(serial, username, password, confirmPassword);
      if v.Err? {
        error := v.message;
      } else {
        var f := v.value;
        var hash := md5(HashInput(f, password));
        var nonce := Nonce(noncePage);
        posted := posted + [RegistrationForm(nonce, hash, f)];
        var outcome := ClassifyResponse(response);
        if outcome == Registered {
          error := "";
          success := true;
        } else {
          error := FailureMessage(outcome.failure);
        }
      }
      loading := false;
    }
  }
}
