/**
 * The password-reset script: it rebuilds the stored credential hash from a
 * user name, a serial and a new password, and prints the SQL statement that
 * stores it. The pre-hash recipe (serial without '-' and ' ', NUL-padded to
 * 36 characters, then user name, '-', password) is the one the server uses to
 * verify a login. MD5 and Blowfish are parameters.
 */
module ResetPass {
  import opened Text

  const PaddedSerialLength := 36
  const UsageText := "Usage: python reset_pass.py <username> <serial> <new_password>"

  /** `serial.replace('-', '').replace(' ', '')` */
  function CleanSerial(serial: string): (r: string)
    ensures Avoids(r, '-') && Avoids(r, ' ') && |r| <= |serial|
  {
    var r := RemoveAll(RemoveAll(serial, '-'), ' ');
    RemoveAllKeepsAvoiding(RemoveAll(serial, '-'), ' ', '-');
    r
  }

  lemma {:induction false} RemoveAllKeepsAvoiding(s: string, c: char, d: char)
    requires Avoids(s, d)
    ensures Avoids(RemoveAll(s, c), d)
  {
    if s != [] {
      RemoveAllKeepsAvoiding(s[1..], c, d);
    }
  }

  /** A serial free of both separators is already clean. */
  lemma CleanSerialKeepsClean(serial: string)
    requires Avoids(serial, '-') && Avoids(serial, ' ')
    ensures CleanSerial(serial) == serial
  {
    RemoveAllAbsent(serial, '-');
    RemoveAllAbsent(serial, ' ');
  }

  function Nuls(n: nat): (r: string)
    ensures |r| == n && forall i :: 0 <= i < n ==> r[i] == '\0'
  {
    seq(n, _ => '\0')
  }

  /** The serial with NUL characters appended up to 36; a longer serial is kept whole. */
  function NulPadded(s: string): (r: string)
    ensures |r| == if |s| < PaddedSerialLength then PaddedSerialLength else |s|
    ensures r[..|s|] == s
    ensures forall i :: |s| <= i < |r| ==> r[i] == '\0'
  {
    if |s| < PaddedSerialLength then s + Nuls(PaddedSerialLength - |s|) else s
  }

  /** Deleting the NULs of a padded serial gives the serial back. */
  lemma NulPaddedRemoveNuls(s: string)
    requires Avoids(s, '\0')
    ensures RemoveAll(NulPadded(s), '\0') == s
  {
    if |s| < PaddedSerialLength {
      var n := Nuls(PaddedSerialLength - |s|);
      RemoveAllConcat(s, n, '\0');
      RemoveAllNuls(|n|);
    }
    RemoveAllAbsent(s, '\0');
  }

  lemma {:induction false} RemoveAllNuls(n: nat)
    ensures RemoveAll(Nuls(n), '\0') == []
  {
    if n > 0 {
      assert Nuls(n)[1..] == Nuls(n - 1);
      RemoveAllNuls(n - 1);
    }
  }

  /** `while len(serial) < 36: serial += '\0'` */
  method PadSerial(serial: string) returns (padded: string)
    ensures padded == NulPadded(serial)
  {
    padded := serial;
    while |padded| < PaddedSerialLength
      invariant padded[..|serial|] == serial && |serial| <= |padded|
      invariant |serial| < PaddedSerialLength ==> |padded| <= PaddedSerialLength
      invariant |serial| >= PaddedSerialLength ==> padded == serial
      invariant forall i :: |serial| <= i < |padded| ==> padded[i] == '\0'
      decreases PaddedSerialLength - |padded|
    {
      padded := padded + "\0";
    }
  }

  /** The string whose MD5 is the credential: padded clean serial, user name, '-', password. */
  function PreHash(username: string, password: string, serial: string): string {
    NulPadded(CleanSerial(serial)) + username + "-" + password
  }

  /**
   * For a serial of at most 36 characters the padded part is exactly the first
   * 36 characters: the clean serial followed by NULs, and the rest is the
   * user name, '-' and the password.
   */
  lemma PreHashLayout(username: string, password: string, serial: string)
    requires |CleanSerial(serial)| <= PaddedSerialLength
    ensures var s := PreHash(username, password, serial);
      && |s| == PaddedSerialLength + |username| + 1 + |password|
      && s[..|CleanSerial(serial)|] == CleanSerial(serial)
      && (forall i :: |CleanSerial(serial)| <= i < PaddedSerialLength ==> s[i] == '\0')
      && s[PaddedSerialLength..] == username + "-" + password
  {
    var p := NulPadded(CleanSerial(serial));
    var s := PreHash(username, password, serial);
    assert s == p + (username + "-" + password);
    assert s[..|CleanSerial(serial)|] == p[..|CleanSerial(serial)|];
  }

  /** The script's hash: MD5 hex digest of the pre-hash string, then Blowfish-ECB over its bytes, in hex. */
  method CalculateHash(md5Hex: string -> string, encryptHex: string -> string, username: string, password: string, serial: string)
    returns (h: string)
    ensures h == encryptHex(md5Hex(PreHash(username, password, serial)))
  {
    var cleaned := RemoveAll(RemoveAll(serial, '-'), ' ');
    var padded := PadSerial(cleaned);
    var s := padded + username + "-" + password;
    h := encryptHex(md5Hex(s));
  }

  /** What the script ends with: an exit status and the line it prints. */
  datatype ScriptOutcome = ScriptOutcome(exitCode: int, output: string)

  function UpdateStatement(hash: string, username: string): string {
    "UPDATE users SET hash='" + hash + "' WHERE username='" + username + "';"
  }

  /** The script run with argument vector `argv` (the script name first). */
  method RunScript(md5Hex: string -> string, encryptHex: string -> string, argv: seq<string>) returns (o: ScriptOutcome)
    ensures |argv| < 4 <==> o.exitCode == 1
    ensures |argv| < 4 ==> o.output == UsageText
    ensures |argv| >= 4 ==>
      o == ScriptOutcome(0, UpdateStatement(encryptHex(md5Hex(PreHash(argv[1], argv[3], argv[2]))), argv[1]))
  {
    if |argv| < 4 {
      return ScriptOutcome(1, UsageText);
    }
    var username, serial, password := argv[1], argv[2], argv[3];
    var newHash := CalculateHash(md5Hex, encryptHex, username, password, serial);
    o := ScriptOutcome(0, UpdateStatement(newHash, username));
  }
}
