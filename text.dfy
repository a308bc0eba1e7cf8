/**
 * String helpers shared by the frontend (JavaScript semantics) and the
 * backend (Python semantics) models. Strings are `seq<char>` of Unicode
 * scalar values; case mapping is ASCII only.
 */
module Text {

  datatype Option<+T> = None | Some(value: T) {
    function GetOr(default: T): T {
      match this
      case Some(v) => v
      case None => default
    }
  }

  // ---------------------------------------------------------------------------
  // Character classes

  /** JavaScript WhiteSpace or LineTerminator: the set `\s` and `String.prototype.trim` use. */
  predicate IsJsSpace(c: char) {
    var n := c as int;
    n == 0x09 || n == 0x0A || n == 0x0B || n == 0x0C || n == 0x0D || n == 0x20
    || n == 0xA0 || n == 0x1680 || (0x2000 <= n <= 0x200A) || n == 0x2028
    || n == 0x2029 || n == 0x202F || n == 0x205F || n == 0x3000 || n == 0xFEFF
  }

  /** Python's `str.isspace`, the set `str.strip()` removes. */
  predicate IsPySpace(c: char) {
    var n := c as int;
    (0x09 <= n <= 0x0D) || (0x1C <= n <= 0x20) || n == 0x85 || n == 0xA0
    || n == 0x1680 || (0x2000 <= n <= 0x200A) || n == 0x2028 || n == 0x2029
    || n == 0x202F || n == 0x205F || n == 0x3000
  }

  predicate IsDigit(c: char) { '0' <= c <= '9' }
  predicate IsUpper(c: char) { 'A' <= c <= 'Z' }
  predicate IsLower(c: char) { 'a' <= c <= 'z' }
  predicate IsHexDigit(c: char) { IsDigit(c) || ('a' <= c <= 'f') || ('A' <= c <= 'F') }
  predicate IsAlnum(c: char) { IsDigit(c) || IsUpper(c) || IsLower(c) }

  predicate AllDigits(s: string) { forall i :: 0 <= i < |s| ==> IsDigit(s[i]) }
  predicate AllHexDigits(s: string) { forall i :: 0 <= i < |s| ==> IsHexDigit(s[i]) }
  predicate AllAlnum(s: string) { forall i :: 0 <= i < |s| ==> IsAlnum(s[i]) }

  /** JavaScript `length`: UTF-16 code units, two for a character beyond the Basic Multilingual Plane. */
  function JsLength(s: string): (n: nat)
    ensures |s| <= n <= 2 * |s|
  {
    if s == [] then 0 else (if s[0] as int >= 0x10000 then 2 else 1) + JsLength(s[1..])
  }

  /** The UTF-16 code units of `s`, as `charCodeAt` reads them: a surrogate pair beyond the Basic Multilingual Plane. */
  function Utf16Units(s: string): (u: seq<int>)
    ensures |u| == JsLength(s)
    ensures forall k :: 0 <= k < |u| ==> 0 <= u[k] < 0x10000
  {
    if s == [] then []
    else
      var c := s[0] as int;
      var first := if c >= 0x10000 then [0xD800 + (c - 0x10000) / 0x400, 0xDC00 + (c - 0x10000) % 0x400] else [c];
      first + Utf16Units(s[1..])
  }

  // ---------------------------------------------------------------------------
  // Case mapping (ASCII letters only)

  function LowerChar(c: char): char {
    if IsUpper(c) then (c as int + 32) as char else c
  }

  function UpperChar(c: char): char {
    if IsLower(c) then (c as int - 32) as char else c
  }

  function ToLower(s: string): (r: string)
    ensures |r| == |s|
    ensures forall i :: 0 <= i < |s| ==> r[i] == LowerChar(s[i])
  {
    if s == [] then [] else [LowerChar(s[0])] + ToLower(s[1..])
  }

  function ToUpper(s: string): (r: string)
    ensures |r| == |s|
    ensures forall i :: 0 <= i < |s| ==> r[i] == UpperChar(s[i])
  {
    if s == [] then [] else [UpperChar(s[0])] + ToUpper(s[1..])
  }

  /** Lower-casing forgets an earlier upper-casing. */
  lemma ToLowerOfUpper(s: string)
    ensures ToLower(ToUpper(s)) == ToLower(s)
  {
  }

  lemma ToUpperIdempotent(s: string)
    ensures ToUpper(ToUpper(s)) == ToUpper(s)
  {
  }

  /** Upper-casing first or last makes no difference to deleting a character that is not a letter. */
  lemma {:induction false} ToUpperRemoveAll(s: string, c: char)
    requires !IsUpper(c) && !IsLower(c)
    ensures RemoveAll(ToUpper(s), c) == ToUpper(RemoveAll(s, c))
  {
    if s != [] {
      assert ToUpper(s)[1..] == ToUpper(s[1..]);
      ToUpperRemoveAll(s[1..], c);
      if s[0] != c {
        assert ToUpper(RemoveAll(s, c)) == [UpperChar(s[0])] + ToUpper(RemoveAll(s[1..], c));
      }
    }
  }

  // ---------------------------------------------------------------------------
  // Trimming

  /** `s.replace(/^\s+/, '')`: drops the leading JavaScript whitespace. */
  function TrimStartJs(s: string): (r: string)
    ensures |r| <= |s|
    ensures r == [] || !IsJsSpace(r[0])
  {
    if s != [] && IsJsSpace(s[0]) then TrimStartJs(s[1..]) else s
  }

  /** What the leading trim removes is whitespace, and what it keeps is the rest of the string. */
  lemma {:induction false} TrimStartJsSuffix(s: string)
    ensures var r := TrimStartJs(s);
      && r == s[|s| - |r|..]
      && forall i :: 0 <= i < |s| - |r| ==> IsJsSpace(s[i])
  {
    if s != [] && IsJsSpace(s[0]) {
      var r := TrimStartJs(s[1..]);
      TrimStartJsSuffix(s[1..]);
      assert s[1..][|s| - 1 - |r|..] == s[|s| - |r|..];
      forall i | 0 <= i < |s| - |r|
        ensures IsJsSpace(s[i])
      {
        if i > 0 {
          assert s[i] == s[1..][i - 1];
        }
      }
    }
  }

  /** `s.replace(/\s+$/, '')`: drops the trailing JavaScript whitespace. */
  function TrimEndJs(s: string): (r: string)
    ensures |r| <= |s| && r == s[..|r|]
    ensures r == [] || !IsJsSpace(r[|r| - 1])
    ensures forall i :: |r| <= i < |s| ==> IsJsSpace(s[i])
  {
    if s != [] && IsJsSpace(s[|s| - 1]) then TrimEndJs(s[..|s| - 1]) else s
  }

  /** Upper-casing never turns a character into whitespace or back. */
  lemma UpperCharSpace(c: char)
    ensures IsJsSpace(UpperChar(c)) == IsJsSpace(c)
  {
    if IsLower(c) {
      assert 'A' as int <= UpperChar(c) as int <= 'Z' as int;
    }
  }

  lemma {:induction false} ToUpperTrimStart(s: string)
    ensures TrimStartJs(ToUpper(s)) == ToUpper(TrimStartJs(s))
  {
    if s != [] {
      var t := ToUpper(s);
      assert t[0] == UpperChar(s[0]) && t[1..] == ToUpper(s[1..]);
      UpperCharSpace(s[0]);
      if IsJsSpace(s[0]) {
        assert TrimStartJs(t) == TrimStartJs(t[1..]);
        assert TrimStartJs(s) == TrimStartJs(s[1..]);
        ToUpperTrimStart(s[1..]);
      } else {
        TrimStartOfNonSpace(t);
        TrimStartOfNonSpace(s);
      }
    }
  }

  lemma {:induction false} ToUpperTrimEnd(s: string)
    ensures TrimEndJs(ToUpper(s)) == ToUpper(TrimEndJs(s))
    decreases |s|
  {
    if s != [] {
      var t := ToUpper(s);
      assert t[|t| - 1] == UpperChar(s[|s| - 1]) && t[..|t| - 1] == ToUpper(s[..|s| - 1]);
      UpperCharSpace(s[|s| - 1]);
      if IsJsSpace(s[|s| - 1]) {
        assert TrimEndJs(t) == TrimEndJs(t[..|t| - 1]);
        assert TrimEndJs(s) == TrimEndJs(s[..|s| - 1]);
        ToUpperTrimEnd(s[..|s| - 1]);
      } else {
        TrimEndOfNonSpace(t);
        TrimEndOfNonSpace(s);
      }
    }
  }

  /** `String.prototype.trim`, equal to the two regular-expression replaces in a row. */
  function TrimJs(s: string): string {
    TrimEndJs(TrimStartJs(s))
  }

  /** The trimmed string is empty exactly when every character is JavaScript whitespace. */
  lemma TrimJsEmptyIffBlank(s: string)
    ensures TrimJs(s) == [] <==> forall i :: 0 <= i < |s| ==> IsJsSpace(s[i])
  {
    var t := TrimStartJs(s);
    TrimStartJsSuffix(s);
    if t != [] {
      assert !IsJsSpace(t[0]);
      assert TrimEndJs(t) != [];
      assert s[|s| - |t|] == t[0];
    }
  }

  /** A trimmed string is a piece of the original that neither starts nor ends with whitespace. */
  lemma TrimJsShape(s: string, c: char)
    ensures var r := TrimJs(s); r == [] || (!IsJsSpace(r[0]) && !IsJsSpace(r[|r| - 1]))
    ensures Avoids(s, c) ==> Avoids(TrimJs(s), c)
  {
    var t := TrimStartJs(s);
    var r := TrimEndJs(t);
    TrimStartJsSuffix(s);
    if r != [] {
      assert r[0] == t[0];
    }
    if Avoids(s, c) {
      assert forall i :: 0 <= i < |r| ==> r[i] == s[|s| - |t| + i];
    }
  }

  lemma TrimStartOfNonSpace(s: string)
    requires s == [] || !IsJsSpace(s[0])
    ensures TrimStartJs(s) == s
  {
  }

  lemma TrimEndOfNonSpace(s: string)
    requires s == [] || !IsJsSpace(s[|s| - 1])
    ensures TrimEndJs(s) == s
  {
  }

  /** A string that neither starts nor ends with whitespace is its own trim. */
  lemma TrimJsOfTrimmed(s: string)
    requires s != [] && !IsJsSpace(s[0]) && !IsJsSpace(s[|s| - 1])
    ensures TrimJs(s) == s
  {
    TrimStartOfNonSpace(s);
    TrimEndOfNonSpace(s);
  }

  /** Leading whitespace in front of a trimmed string is trimmed away. */
  lemma TrimJsAfterSpace(s: string)
    requires s != [] && !IsJsSpace(s[0]) && !IsJsSpace(s[|s| - 1])
    ensures TrimJs(" " + s) == s
  {
    var t := " " + s;
    assert t != [] && IsJsSpace(t[0]) && t[1..] == s;
    assert TrimStartJs(t) == TrimStartJs(s);
    TrimJsOfTrimmed(s);
  }

  function PyStripStart(s: string): (r: string)
    ensures |r| <= |s| && r == s[|s| - |r|..]
    ensures r == [] || !IsPySpace(r[0])
    ensures forall i :: 0 <= i < |s| - |r| ==> IsPySpace(s[i])
  {
    if s != [] && IsPySpace(s[0]) then PyStripStart(s[1..]) else s
  }

  function PyStripEnd(s: string): (r: string)
    ensures |r| <= |s| && r == s[..|r|]
    ensures r == [] || !IsPySpace(r[|r| - 1])
    ensures forall i :: |r| <= i < |s| ==> IsPySpace(s[i])
  {
    if s != [] && IsPySpace(s[|s| - 1]) then PyStripEnd(s[..|s| - 1]) else s
  }

  /** Python's `str.strip()` with no argument. */
  function PyStrip(s: string): string {
    PyStripEnd(PyStripStart(s))
  }

  /** The stripped string is empty exactly when every character is Python whitespace. */
  lemma {:induction false} PyStripEmptyIffBlank(s: string)
    ensures PyStrip(s) == [] <==> forall i :: 0 <= i < |s| ==> IsPySpace(s[i])
  {
    var t := PyStripStart(s);
    if t == [] {
    } else {
      assert !IsPySpace(t[0]);
      assert PyStripEnd(t) != [];
      assert s[|s| - |t|] == t[0];
    }
  }

  // ---------------------------------------------------------------------------
  // Searching

  /** `s.includes(sub)` / Python `sub in s`. */
  predicate Contains(s: string, sub: string) {
    exists i :: 0 <= i <= |s| && sub <= s[i..]
  }

  lemma ContainsAt(s: string, sub: string, i: nat)
    requires i <= |s| && sub <= s[i..]
    ensures Contains(s, sub)
  {
  }

  /** Every string containing `long` contains each prefix of `long`. */
  lemma {:induction false} ContainsPrefixOf(s: string, long: string, short: string)
    requires short <= long && Contains(s, long)
    ensures Contains(s, short)
  {
    var i :| 0 <= i <= |s| && long <= s[i..];
    assert short <= s[i..];
  }

  /** Every character of `s` is different from `c`. */
  predicate Avoids(s: string, c: char) { forall i :: 0 <= i < |s| ==> s[i] != c }

  /** All occurrences of `c` deleted: `s.replace(/c/g, '')`, Python `s.replace(c, '')`. */
  function RemoveAll(s: string, c: char): (r: string)
    ensures Avoids(r, c) && |r| <= |s|
  {
    if s == [] then [] else (if s[0] == c then [] else [s[0]]) + RemoveAll(s[1..], c)
  }

  /** Deleting a character commutes with concatenation. */
  lemma {:induction false} RemoveAllConcat(s: string, t: string, c: char)
    ensures RemoveAll(s + t, c) == RemoveAll(s, c) + RemoveAll(t, c)
  {
    if s == [] {
      assert s + t == t;
    } else {
      assert (s + t)[0] == s[0] && (s + t)[1..] == s[1..] + t;
      RemoveAllConcat(s[1..], t, c);
      var h := if s[0] == c then [] else [s[0]];
      assert RemoveAll(s + t, c) == h + RemoveAll(s[1..] + t, c);
      assert RemoveAll(s, c) == h + RemoveAll(s[1..], c);
    }
  }

  lemma {:induction false} RemoveAllAbsent(s: string, c: char)
    requires Avoids(s, c)
    ensures RemoveAll(s, c) == s
  {
    if s != [] { RemoveAllAbsent(s[1..], c); }
  }

  // ---------------------------------------------------------------------------
  // Splitting and joining

  /** `s.split(sep)` (JavaScript) and `s.split(sep)` (Python) for a one-character separator. */
  function Split(s: string, sep: char): (r: seq<string>)
    ensures |r| >= 1
    ensures forall k :: 0 <= k < |r| ==> Avoids(r[k], sep)
  {
    if s == [] then [""]
    else
      var rest := Split(s[1..], sep);
      if s[0] == sep then [""] + rest
      else [[s[0]] + rest[0]] + rest[1..]
  }

  function Join(parts: seq<string>, sep: char): string
    requires |parts| >= 1
  {
    if |parts| == 1 then parts[0] else parts[0] + [sep] + Join(parts[1..], sep)
  }

  /** Joining the pieces with the separator gives back the string. */
  lemma {:induction false} JoinSplit(s: string, sep: char)
    ensures Join(Split(s, sep), sep) == s
  {
    if s != [] {
      JoinSplit(s[1..], sep);
      var rest := Split(s[1..], sep);
      if s[0] != sep {
        var r := Split(s, sep);
        assert r[0] == [s[0]] + rest[0] && r[1..] == rest[1..];
        if |rest| > 1 {
          assert Join(r, sep) == r[0] + [sep] + Join(rest[1..], sep);
          assert Join(rest, sep) == rest[0] + [sep] + Join(rest[1..], sep);
        }
      }
    }
  }

  /** A string without the separator is one piece. */
  lemma {:induction false} SplitNoSep(s: string, sep: char)
    requires Avoids(s, sep)
    ensures Split(s, sep) == [s]
  {
    if s != [] {
      SplitNoSep(s[1..], sep);
      assert [s[0]] + s[1..] == s;
    }
  }

  /** A first piece without the separator is split off exactly. */
  lemma {:induction false} SplitFirst(x: string, sep: char, rest: string)
    requires Avoids(x, sep)
    ensures Split(x + [sep] + rest, sep) == [x] + Split(rest, sep)
  {
    if x == [] {
      assert ([sep] + rest)[1..] == rest;
    } else {
      assert (x + [sep] + rest)[1..] == x[1..] + [sep] + rest;
      SplitFirst(x[1..], sep, rest);
      assert [x[0]] + x[1..] == x;
    }
  }

  /** Splitting what was joined gives back the pieces, when no piece holds the separator. */
  lemma {:induction false} SplitJoin(parts: seq<string>, sep: char)
    requires |parts| >= 1 && forall k :: 0 <= k < |parts| ==> Avoids(parts[k], sep)
    ensures Split(Join(parts, sep), sep) == parts
  {
    if |parts| == 1 {
      SplitNoSep(parts[0], sep);
    } else {
      SplitFirst(parts[0], sep, Join(parts[1..], sep));
      SplitJoin(parts[1..], sep);
    }
  }

  /** The joined string starts with the first piece and ends with the last. */
  lemma {:induction false} JoinEnds(parts: seq<string>, sep: char)
    requires |parts| >= 1
    ensures var j := Join(parts, sep); var last := parts[|parts| - 1];
      && |parts[0]| <= |j| && j[..|parts[0]|] == parts[0]
      && |last| <= |j| && j[|j| - |last|..] == last
  {
    if |parts| > 1 {
      JoinEnds(parts[1..], sep);
      var j := Join(parts, sep);
      var rest := Join(parts[1..], sep);
      assert j == parts[0] + ([sep] + rest);
      assert j[|j| - |rest|..] == rest;
    }
  }

  /** Keeps the non-empty strings, in order: `.filter(s => s)`. */
  function NonEmpty(parts: seq<string>): (r: seq<string>)
    ensures |r| <= |parts|
    ensures forall k :: 0 <= k < |r| ==> r[k] != [] && r[k] in parts
  {
    if parts == [] then []
    else (if parts[0] == [] then [] else [parts[0]]) + NonEmpty(parts[1..])
  }

  /** A list without empty strings passes the filter whole. */
  lemma {:induction false} NonEmptyKeepsAll(parts: seq<string>)
    requires forall k :: 0 <= k < |parts| ==> parts[k] != []
    ensures NonEmpty(parts) == parts
  {
    if parts != [] {
      NonEmptyKeepsAll(parts[1..]);
    }
  }

  function MapTrimJs(parts: seq<string>): (r: seq<string>)
    ensures |r| == |parts|
    ensures forall k :: 0 <= k < |r| ==> r[k] == TrimJs(parts[k])
  {
    seq(|parts|, k requires 0 <= k < |parts| => TrimJs(parts[k]))
  }

  // ---------------------------------------------------------------------------
  // Numbers as text

  function DigitChar(d: nat): char
    requires d < 10
  {
    ('0' as int + d) as char
  }

  function HexChar(d: nat): char
    requires d < 16
  {
    if d < 10 then ('0' as int + d) as char else ('a' as int + d - 10) as char
  }

  function DigitValue(c: char): nat
    requires IsDigit(c)
  {
    c as int - '0' as int
  }

  function HexDigitValue(c: char): nat
    requires IsHexDigit(c)
  {
    if IsDigit(c) then c as int - '0' as int
    else if 'a' <= c <= 'f' then c as int - 'a' as int + 10
    else c as int - 'A' as int + 10
  }

  /** The number a run of decimal digits denotes. */
  function DecimalValue(s: string): nat
    requires AllDigits(s)
  {
    if s == [] then 0 else DecimalValue(s[..|s| - 1]) * 10 + DigitValue(s[|s| - 1])
  }

  /** The number a run of hexadecimal digits denotes. */
  function HexValue(s: string): nat
    requires AllHexDigits(s)
  {
    if s == [] then 0 else HexValue(s[..|s| - 1]) * 16 + HexDigitValue(s[|s| - 1])
  }

  /** Decimal notation of a natural number, as `String(n)` prints it. */
  function DecimalString(n: nat): (r: string)
    ensures r != [] && AllDigits(r)
  {
    if n < 10 then [DigitChar(n)] else DecimalString(n / 10) + [DigitChar(n % 10)]
  }

  /** Decimal notation of an integer, with a leading '-' when negative. */
  function IntString(i: int): string {
    if i < 0 then "-" + DecimalString(-i) else DecimalString(i)
  }

  /** Lower-case hexadecimal notation, as `n.toString(16)` prints it. */
  function HexString(n: nat): (r: string)
    ensures r != [] && AllHexDigits(r)
  {
    if n < 16 then [HexChar(n)] else HexString(n / 16) + [HexChar(n % 16)]
  }

  /** Reading back the decimal notation gives the number. */
  lemma {:induction false} DecimalRoundTrip(n: nat)
    ensures DecimalValue(DecimalString(n)) == n
  {
    if n >= 10 {
      DecimalRoundTrip(n / 10);
      var s := DecimalString(n);
      assert s[..|s| - 1] == DecimalString(n / 10);
    }
  }

  /** Reading back the hexadecimal notation gives the number. */
  lemma {:induction false} HexRoundTrip(n: nat)
    ensures HexValue(HexString(n)) == n
  {
    if n >= 16 {
      HexRoundTrip(n / 16);
      var s := HexString(n);
      assert s[..|s| - 1] == HexString(n / 16);
    }
  }

  /** A number below 16^k takes at most k hexadecimal digits. */
  lemma {:induction false} HexStringLength(n: nat, k: nat, bound: nat)
    requires bound == Pow16(k) && n < bound && k >= 1
    ensures |HexString(n)| <= k
  {
    if n >= 16 {
      assert k >= 2;
      assert n / 16 < Pow16(k - 1);
      HexStringLength(n / 16, k - 1, Pow16(k - 1));
    }
  }

  function Pow16(k: nat): (r: nat)
    ensures r >= 1
  {
    if k == 0 then 1 else 16 * Pow16(k - 1)
  }

  /** The longest prefix made only of characters satisfying `IsDigit`. */
  function DigitPrefix(s: string): (r: string)
    ensures r <= s && AllDigits(r)
    ensures |r| < |s| ==> !IsDigit(s[|r|])
  {
    if s != [] && IsDigit(s[0]) then [s[0]] + DigitPrefix(s[1..]) else []
  }

  /** The longest prefix made only of hexadecimal digits. */
  function HexPrefix(s: string): (r: string)
    ensures r <= s && AllHexDigits(r)
    ensures |r| < |s| ==> !IsHexDigit(s[|r|])
  {
    if s != [] && IsHexDigit(s[0]) then [s[0]] + HexPrefix(s[1..]) else []
  }

  /** The digit prefix of a digit run followed by a non-digit is that run. */
  lemma {:induction false} DigitPrefixOf(d: string, rest: string)
    requires AllDigits(d) && (rest == [] || !IsDigit(rest[0]))
    ensures DigitPrefix(d + rest) == d
  {
    if d != [] {
      assert (d + rest)[1..] == d[1..] + rest;
      DigitPrefixOf(d[1..], rest);
    }
  }

  /** The hexadecimal prefix of a hex-digit run followed by a non-hex-digit is that run. */
  lemma {:induction false} HexPrefixOf(h: string, rest: string)
    requires AllHexDigits(h) && (rest == [] || !IsHexDigit(rest[0]))
    ensures HexPrefix(h + rest) == h
  {
    if h != [] {
      assert (h + rest)[1..] == h[1..] + rest;
      HexPrefixOf(h[1..], rest);
    }
  }
}
