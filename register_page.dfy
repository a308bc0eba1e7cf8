/**
 * The standalone registration page: its own order of field checks, the serial
 * NUL-padded to 36 before hashing and cut back to 20 for the form, and the
 * placeholder digest it uses instead of MD5 (a 32-bit rolling hash printed in
 * hexadecimal and filled with '0' to 32 characters).
 */
module RegisterPage {
  import opened Text
  import RegisterForm
  import ResetPass

  const ConfirmError := "Las contraseñas no coinciden"
  const PasswordError := "La contraseña debe tener al menos 3 caracteres"
  const UsernameError := "El nombre de usuario debe tener al menos 3 caracteres y solo letras/números"
  const SerialError := "El serial debe tener 20 caracteres (sin guiones)"
  const DigestLength := 32
  const TwoTo32 := 0x1_0000_0000
  const TwoTo31 := 0x8000_0000

  // ---------------------------------------------------------------------------
  // The placeholder digest

  /** ECMAScript ToInt32: the integer congruent to `x` modulo 2^32 in [-2^31, 2^31). */
  function ToInt32(x: int): (r: int)
    ensures -TwoTo31 <= r < TwoTo31 && (x - r) % TwoTo32 == 0
  {
    (x + TwoTo31) % TwoTo32 - TwoTo31
  }

  /** Two integers congruent modulo 2^32 have the same ToInt32. */
  lemma ToInt32Congruent(a: int, b: int)
    requires (a - b) % TwoTo32 == 0
    ensures ToInt32(a) == ToInt32(b)
  {
    var k := (a - b) / TwoTo32;
    assert a + TwoTo31 == (b + TwoTo31) + k * TwoTo32;
    ModAddMultiple(b + TwoTo31, k);
  }

  lemma ModAddMultiple(x: int, k: int)
    ensures (x + k * TwoTo32) % TwoTo32 == x % TwoTo32
  {
  }

  /** The fold h := ToInt32(31 * h + unit), from 0, over the code units. */
  function RollingHash(units: seq<int>): (h: int)
    ensures -TwoTo31 <= h < TwoTo31
  {
    if units == [] then 0 else ToInt32(31 * RollingHash(units[..|units| - 1]) + units[|units| - 1])
  }

  /** One step as written, `((hash << 5) - hash) + char` then `hash & hash`, is the step of `RollingHash`. */
  lemma ShiftStepIsTimes31(h: int, c: int)
    requires -TwoTo31 <= h < TwoTo31
    ensures ToInt32(ToInt32(h * 32) - h + c) == ToInt32(31 * h + c)
  {
    var s := ToInt32(h * 32);
    assert (h * 32 - s) % TwoTo32 == 0;
    assert (s - h + c) - (31 * h + c) == s - h * 32;
    ToInt32Congruent(s - h + c, 31 * h + c);
  }

  function Abs(x: int): nat { if x < 0 then -x else x }

  function Zeros(n: nat): (r: string)
    ensures |r| == n && forall i :: 0 <= i < n ==> r[i] == '0'
  {
    seq(n, _ => '0')
  }

  /** The digest of `s`: hexadecimal of |hash| followed by '0's up to 32 characters. */
  function PlaceholderDigest(s: string): (d: string)
    ensures |d| == DigestLength && AllHexDigits(d)
  {
    var hex := HexString(Abs(RollingHash(Utf16Units(s))));
    HexDigitsFit(Abs(RollingHash(Utf16Units(s))));
    hex + Zeros(DigestLength - |hex|)
  }

  /** |hash| is at most 2^31, so its hexadecimal takes at most 8 digits. */
  lemma HexDigitsFit(n: nat)
    requires n <= TwoTo31
    ensures |HexString(n)| <= 8
  {
    assert Pow16(8) == TwoTo32 by {
      assert Pow16(1) == 16;
      assert Pow16(2) == 256;
      assert Pow16(4) == Pow16(3) * 16 == 65536;
      assert Pow16(6) == Pow16(5) * 16 == 16777216;
      assert Pow16(8) == Pow16(7) * 16;
    }
    HexStringLength(n, 8, Pow16(8));
  }

  /** The digest reads back: its leading digits are |hash| in hexadecimal and the rest is '0'. */
  lemma PlaceholderDigestReadsBack(s: string)
    ensures var n := Abs(RollingHash(Utf16Units(s)));
      var k := |HexString(n)|;
      && 1 <= k <= 8
      && HexValue(PlaceholderDigest(s)[..k]) == n
      && forall i :: k <= i < DigestLength ==> PlaceholderDigest(s)[i] == '0'
  {
    var n := Abs(RollingHash(Utf16Units(s)));
    HexDigitsFit(n);
    var hex := HexString(n);
    assert PlaceholderDigest(s)[..|hex|] == hex;
    HexRoundTrip(n);
  }

  /** The page's `md5`: the rolling hash over `charCodeAt`, then the hex filled with '0' and cut to 32. */
  method PlaceholderMd5(str: string) returns (digest: string)
    ensures digest == PlaceholderDigest(str)
  {
    var units := Utf16Units(str);
    var hash := 0;
    for i := 0 to |units|
      invariant hash == RollingHash(units[..i])
    {
      var code := units[i];
      ShiftStepIsTimes31(hash, code);
      assert units[..i + 1][..i] == units[..i];
      hash := ToInt32(ToInt32(hash * 32) - hash + code);
    }
    assert units[..|units|] == units;
    var hexHash := HexString(Abs(hash));
    HexDigitsFit(Abs(hash));
    ghost var hex := hexHash;
    while |hexHash| < DigestLength
      invariant |hex| <= |hexHash| <= DigestLength
      invariant hexHash == hex + Zeros(|hexHash| - |hex|)
      decreases DigestLength - |hexHash|
    {
      hexHash := hexHash + "0";
    }
    digest := hexHash[..DigestLength];
  }

  // ---------------------------------------------------------------------------
  // Validation and the submitted form

  datatype Result<T> = Ok(value: T) | Err(message: string)

  /**
   * The page's checks, in its order: confirmation, password length, the
   * untrimmed user name, then the cleaned serial, which is the result.
   */
  function ValidatePage(username: string, serial: string, password: string, confirmPassword: string): Result<string> {
    if password != confirmPassword then Err(ConfirmError)
    else if JsLength(password) < 3 then Err(PasswordError)
    else if !RegisterForm.IsUsername(username) then Err(UsernameError)
    else if !RegisterForm.IsSerial(RegisterForm.CleanSerial(serial)) then Err(SerialError)
    else Ok(RegisterForm.CleanSerial(serial))
  }

  lemma ValidatePageOrder(username: string, serial: string, password: string, confirmPassword: string)
    ensures var r := ValidatePage(username, serial, password, confirmPassword);
      && (r == Err(ConfirmError) <==> password != confirmPassword)
      && (r == Err(PasswordError) <==> password == confirmPassword && JsLength(password) < 3)
      && (r == Err(UsernameError) <==>
            password == confirmPassword && JsLength(password) >= 3 && !RegisterForm.IsUsername(username))
      && (r == Err(SerialError) <==>
            password == confirmPassword && JsLength(password) >= 3 && RegisterForm.IsUsername(username)
            && !RegisterForm.IsSerial(RegisterForm.CleanSerial(serial)))
      && (r.Ok? ==> r.value == RegisterForm.CleanSerial(serial) && RegisterForm.IsSerial(r.value))
  {
  }

  /** The hidden fields the page fills before posting its form. */
  datatype Submission = Submission(hash: string, serial: string, user: string)

  /** The string the page hashes: the padded serial, the user name as typed, '-', the password. */
  function PageHashInput(cleanSerial: string, username: string, password: string): string {
    ResetPass.NulPadded(cleanSerial) + username + "-" + password
  }

  /** For an accepted serial the page hashes exactly the string the server rebuilds for verification. */
  lemma PageHashInputIsServerPreHash(cleanSerial: string, username: string, password: string)
    requires RegisterForm.IsSerial(cleanSerial)
    ensures PageHashInput(cleanSerial, username, password) == ResetPass.PreHash(username, password, cleanSerial)
  {
    assert Avoids(cleanSerial, '-') && Avoids(cleanSerial, ' ');
    ResetPass.CleanSerialKeepsClean(cleanSerial);
  }

  /**
   * The registration form component hashes the unpadded serial, so its
   * pre-hash string is never the server's: it is 16 characters shorter.
   */
  lemma FormHashInputIsNotServerPreHash(cleanSerial: string, username: string, password: string)
    requires RegisterForm.IsSerial(cleanSerial)
    ensures |ResetPass.PreHash(username, password, cleanSerial)|
            == |RegisterForm.HashInput(RegisterForm.Fields(cleanSerial, username), password)| + 16
    ensures RegisterForm.HashInput(RegisterForm.Fields(cleanSerial, username), password)
            != ResetPass.PreHash(username, password, cleanSerial)
  {
    PageHashInputIsServerPreHash(cleanSerial, username, password);
  }

  /** Upper-casing on every edit does not change the serial the checks see. */
  lemma EditedSerialCleansTheSame(typed: string)
    ensures RegisterForm.CleanSerial(ToUpper(typed)) == RegisterForm.CleanSerial(typed)
  {
    ToUpperTrimStart(typed);
    ToUpperTrimEnd(TrimStartJs(typed));
    ToUpperRemoveAll(TrimJs(typed), '-');
    ToUpperIdempotent(RemoveAll(TrimJs(typed), '-'));
  }

  datatype PageState = PageState(
    username: string, serial: string, password: string, confirmPassword: string,
    error: string, submitted: seq<Submission>)

  /** `handleSubmit`: a failed check shows its message; otherwise one submission goes out. */
  function SubmitStep(s: PageState): PageState {
    var v := ValidatePage(s.username, s.serial, s.password, s.confirmPassword);
    if v.Err? then s.(error := v.message)
    else
      var hash := PlaceholderDigest(PageHashInput(v.value, s.username, s.password));
      s.(error := "", submitted := s.submitted + [Submission(hash, v.value, s.username)])
  }

  /**
   * A submission carries the clean 20-character serial, without its padding,
   * and the digest of the server's pre-hash string; a failed check sends
   * nothing.
   */
  lemma SubmitStepSends(s: PageState)
    ensures var r := SubmitStep(s);
      var v := ValidatePage(s.username, s.serial, s.password, s.confirmPassword);
      && (v.Err? ==> r.submitted == s.submitted && r.error == v.message)
      && (v.Ok? ==>
            && |r.submitted| == |s.submitted| + 1 && r.submitted[..|s.submitted|] == s.submitted
            && var sub := r.submitted[|s.submitted|];
               && |sub.serial| == 20 && sub.serial == RegisterForm.CleanSerial(s.serial)
               && sub.hash == PlaceholderDigest(ResetPass.PreHash(s.username, s.password, sub.serial))
               && |sub.hash| == DigestLength)
  {
    var v := ValidatePage(s.username, s.serial, s.password, s.confirmPassword);
    if v.Ok? {
      PageHashInputIsServerPreHash(v.value, s.username, s.password);
    }
  }

  class RegisterPageComponent {
    var username: string
    var serial: string
    var password: string
    var confirmPassword: string
    var error: string
    var submitted: seq<Submission>

    function State(): PageState
      reads this
    {
      PageState(username, serial, password, confirmPassword, error, submitted)
    }

    constructor ()
      ensures State() == PageState("", "", "", "", "", [])
    {
      username, serial, password, confirmPassword := "", "", "", "";
      error := "";
      submitted := [];
    }

    /** The serial input's change handler. */
    method EditSerial(typed: string)
      modifies this
      ensures State() == old(State()).(serial := ToUpper(typed))
    {
      serial := ToUpper(typed);
    }

    method HandleSubmit()
      modifies this
      ensures State() == SubmitStep(old(State()))
    {
      var v := ValidatePage(username, serial, password, confirmPassword);
      if v.Err? {
        error := v.message;
        return;
      }
      var cleanSerial := ResetPass.PadSerial(v.value);
      var hashValue := PlaceholderMd5(cleanSerial + username + "-" + password);
      error := "";
      submitted := submitted + [Submission(hashValue, cleanSerial[..20], username)];
    }
  }
}
