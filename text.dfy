/** String helpers with the semantics of the JavaScript and Python built-ins
    the sources call: substring search, whitespace trimming, splitting and
    joining on a separator, decimal rendering and `parseInt`, lower-casing and UTF-16 length. */
module Text {
  import opened Base

  /** Which language's notion of whitespace a trim uses. */
  datatype Flavour = Js | Py

  predicate IsAsciiDigit(c: char) {
    '0' <= c <= '9'
  }

  /** ECMAScript WhiteSpace and LineTerminator code points (`trim`, `\s`). */
  predicate IsJsSpace(c: char) {
    c == '\t' || c == '\n' || c == '\U{000B}' || c == '\U{000C}' || c == '\r' || c == ' '
    || c == '\U{00A0}' || c == '\U{1680}' || ('\U{2000}' <= c <= '\U{200A}')
    || c == '\U{2028}' || c == '\U{2029}' || c == '\U{202F}' || c == '\U{205F}'
    || c == '\U{3000}' || c == '\U{FEFF}'
  }

  /** Python 3 `str.isspace()` code points (`str.strip`, `\s` on str patterns). */
  predicate IsPySpace(c: char) {
    ('\t' <= c <= '\r') || ('\U{001C}' <= c <= '\U{001F}') || c == ' '
    || c == '\U{0085}' || c == '\U{00A0}' || c == '\U{1680}' || ('\U{2000}' <= c <= '\U{200A}')
    || c == '\U{2028}' || c == '\U{2029}' || c == '\U{202F}' || c == '\U{205F}'
    || c == '\U{3000}'
  }

  predicate IsSpace(c: char, f: Flavour) {
    match f
    case Js => IsJsSpace(c)
    case Py => IsPySpace(c)
  }

  /** `String.prototype.toLowerCase` restricted to ASCII letters. */
  function LowerChar(c: char): char {
    if 'A' <= c <= 'Z' then (c as int - 'A' as int + 'a' as int) as char else c
  }

  function Lower(s: string): (r: string)
    ensures |r| == |s|
    ensures forall i | 0 <= i < |s| :: r[i] == LowerChar(s[i])
  {
    if s == [] then [] else [LowerChar(s[0])] + Lower(s[1..])
  }

  predicate StartsWith(s: string, prefix: string) {
    |prefix| <= |s| && s[..|prefix|] == prefix
  }

  /** `needle` occurs in `hay` starting at position i. */
  predicate OccursAt(hay: string, needle: string, i: int) {
    0 <= i <= |hay| - |needle| && hay[i..i + |needle|] == needle
  }

  /** `hay.includes(needle)` / `needle in hay`. */
  predicate Contains(hay: string, needle: string) {
    exists i | 0 <= i <= |hay| - |needle| :: OccursAt(hay, needle, i)
  }

  /** Everything after the last '/', or the whole string when there is none:
      both `path.substring(path.lastIndexOf('/') + 1)` and `url.split('/').pop()`. */
  function AfterLastSlash(s: string): (r: string)
    ensures '/' !in r
    ensures exists k | 0 <= k <= |s| :: r == s[k..] && (k == 0 || s[k - 1] == '/')
    decreases |s|
  {
    if '/' !in s then
      assert s[0..] == s;
      s
    else
      var i :| 0 <= i < |s| && s[i] == '/';
      AfterFirstSlashes(s, i)
  }

  // Helper for AfterLastSlash: the part after the last '/' at or after position i.
  function AfterFirstSlashes(s: string, i: nat): (r: string)
    requires i < |s| && s[i] == '/'
    ensures '/' !in r
    ensures exists k | i < k <= |s| :: r == s[k..] && s[k - 1] == '/'
    decreases |s| - i
  {
    if '/' !in s[i + 1..] then
      s[i + 1..]
    else
      var j :| 0 <= j < |s[i + 1..]| && s[i + 1..][j] == '/';
      AfterFirstSlashes(s, i + 1 + j)
  }

  function DropLeading(s: string, f: Flavour): (r: string)
    ensures |r| <= |s| && r == s[|s| - |r|..]
    ensures r == [] || !IsSpace(r[0], f)
    ensures forall i | 0 <= i < |s| - |r| :: IsSpace(s[i], f)
  {
    if s != [] && IsSpace(s[0], f) then DropLeading(s[1..], f) else s
  }

  function DropTrailing(s: string, f: Flavour): (r: string)
    ensures |r| <= |s| && r == s[..|r|]
    ensures r == [] || !IsSpace(r[|r| - 1], f)
    ensures forall i | |r| <= i < |s| :: IsSpace(s[i], f)
  {
    if s != [] && IsSpace(s[|s| - 1], f) then DropTrailing(s[..|s| - 1], f) else s
  }

  // Helper for Trim: a string without whitespace loses nothing at either end.
  lemma NothingToDrop(s: string, f: Flavour)
    requires forall i | 0 <= i < |s| :: !IsSpace(s[i], f)
    ensures DropLeading(s, f) == s && DropTrailing(s, f) == s
  {
    if s != [] {
      assert !IsSpace(s[0], f) && !IsSpace(s[|s| - 1], f);
    }
  }

  /** JavaScript `trim()` (flavour Js) and Python `strip()` (flavour Py). */
  function Trim(s: string, f: Flavour): (r: string)
    ensures |r| <= |s|
    ensures r == [] || (!IsSpace(r[0], f) && !IsSpace(r[|r| - 1], f))
    ensures (forall i | 0 <= i < |s| :: !IsSpace(s[i], f)) ==> r == s
  {
    var d := DropLeading(s, f);
    var r := DropTrailing(d, f);
    assert r != [] ==> r[0] == d[0];
    assert (forall i | 0 <= i < |s| :: !IsSpace(s[i], f)) ==> r == s by {
      if forall i | 0 <= i < |s| :: !IsSpace(s[i], f) {
        NothingToDrop(s, f);
      }
    }
    r
  }

  /** A string that starts and ends with a non-space character is its own trim. */
  lemma TrimKeepsEnds(s: string, f: Flavour)
    requires s != [] && !IsSpace(s[0], f) && !IsSpace(s[|s| - 1], f)
    ensures Trim(s, f) == s
  {
    assert DropLeading(s, f) == s;
  }

  /** Splitting on a non-empty separator string, scanning left to right:
      Python `str.split(sep)` and JavaScript `split(sep)` agree on this. */
  function Split(s: string, sep: string): (r: seq<string>)
    requires sep != []
    ensures |r| >= 1
    decreases |s|
  {
    if |s| < |sep| then [s]
    else if s[..|sep|] == sep then [""] + Split(s[|sep|..], sep)
    else
      var rest := Split(s[1..], sep);
      [[s[0]] + rest[0]] + rest[1..]
  }

  /** `sep.join(parts)` / `parts.join(sep)`. */
  function Join(parts: seq<string>, sep: string): string {
    if parts == [] then ""
    else if |parts| == 1 then parts[0]
    else parts[0] + sep + Join(parts[1..], sep)
  }

  // Helper for JoinSplit: a character glued to the first piece comes first in the join.
  lemma JoinGluedChar(c: char, rest: seq<string>, sep: string)
    requires |rest| >= 1
    ensures Join([[c] + rest[0]] + rest[1..], sep) == [c] + Join(rest, sep)
  {
    var parts := [[c] + rest[0]] + rest[1..];
    if |rest| > 1 {
      assert parts[1..] == rest[1..];
    }
  }

  /** Joining the pieces of a split with the same separator gives the text back. */
  lemma {:induction false} JoinSplit(s: string, sep: string)
    requires sep != []
    ensures Join(Split(s, sep), sep) == s
    decreases |s|
  {
    if |s| < |sep| {
    } else if s[..|sep|] == sep {
      var rest := Split(s[|sep|..], sep);
      JoinSplit(s[|sep|..], sep);
      assert Split(s, sep) == [""] + rest;
      assert ([""] + rest)[1..] == rest;
      assert s == sep + s[|sep|..];
    } else {
      var rest := Split(s[1..], sep);
      JoinSplit(s[1..], sep);
      assert Split(s, sep) == [[s[0]] + rest[0]] + rest[1..];
      JoinGluedChar(s[0], rest, sep);
      assert s == [s[0]] + s[1..];
    }
  }

  /** Splitting at every character of a set: JavaScript `split(/[abc]/)`. */
  function SplitAny(s: string, seps: set<char>): (r: seq<string>)
    ensures |r| >= 1
    ensures forall k | 0 <= k < |r| :: forall i | 0 <= i < |r[k]| :: r[k][i] !in seps
  {
    if s == [] then [""]
    else
      var rest := SplitAny(s[1..], seps);
      if s[0] in seps then [""] + rest
      else [[s[0]] + rest[0]] + rest[1..]
  }

  /** Without a separator character the text is one piece. */
  lemma {:induction false} SplitAnyNoSeparator(s: string, seps: set<char>)
    requires forall i | 0 <= i < |s| :: s[i] !in seps
    ensures SplitAny(s, seps) == [s]
  {
    if s != [] {
      SplitAnyNoSeparator(s[1..], seps);
      assert s == [s[0]] + s[1..];
    }
  }

  function DigitChar(d: nat): (c: char)
    requires d < 10
    ensures IsAsciiDigit(c)
  {
    ('0' as int + d) as char
  }

  /** `String(n)` for a non-negative integer. */
  function NatToString(n: nat): (r: string)
    ensures |r| >= 1
    ensures forall i | 0 <= i < |r| :: IsAsciiDigit(r[i])
    decreases n
  {
    if n < 10 then [DigitChar(n)] else NatToString(n / 10) + [DigitChar(n % 10)]
  }

  /** `String(i)` for any integer. */
  function IntToString(i: int): (r: string)
    ensures |r| >= 1
    ensures i >= 0 ==> r == NatToString(i)
    ensures i < 0 ==> r == "-" + NatToString(-i)
  {
    if i < 0 then "-" + NatToString(-i) else NatToString(i)
  }

  predicate AllDigits(s: string) {
    forall i | 0 <= i < |s| :: IsAsciiDigit(s[i])
  }

  /** The value of a string of decimal digits. */
  function DigitsValue(s: string): nat
    requires AllDigits(s)
  {
    if s == [] then 0 else DigitsValue(s[..|s| - 1]) * 10 + (s[|s| - 1] as int - '0' as int)
  }

  /** Reading back the decimal rendering of a number gives the number. */
  lemma {:induction false} DigitsValueNatToString(n: nat)
    ensures DigitsValue(NatToString(n)) == n
    decreases n
  {
    if n >= 10 {
      DigitsValueNatToString(n / 10);
      var s := NatToString(n);
      assert s[..|s| - 1] == NatToString(n / 10);
    }
  }

  /** Different integers have different decimal renderings. */
  lemma IntToStringInjective(a: int, b: int)
    requires IntToString(a) == IntToString(b)
    ensures a == b
  {
    var s := IntToString(a);
    assert s[0] == '-' <==> a < 0;
    assert s[0] == '-' <==> b < 0;
    if a >= 0 {
      DigitsValueNatToString(a);
      DigitsValueNatToString(b);
    } else {
      var na: nat, nb: nat := -a, -b;
      assert NatToString(na) == s[1..] == NatToString(nb);
      DigitsValueNatToString(na);
      DigitsValueNatToString(nb);
    }
  }

  /** Different naturals have different decimal renderings, for all pairs at once. */
  lemma NatToStringInjective()
    ensures forall a: nat, b: nat {:trigger NatToString(a), NatToString(b)} ::
      NatToString(a) == NatToString(b) ==> a == b
  {
    forall a: nat, b: nat | NatToString(a) == NatToString(b)
      ensures a == b
    {
      DigitsValueNatToString(a);
      DigitsValueNatToString(b);
    }
  }

  function Repeat(c: char, n: nat): (r: string)
    ensures |r| == n && forall i | 0 <= i < n :: r[i] == c
  {
    if n == 0 then [] else [c] + Repeat(c, n - 1)
  }

  /** `s.padStart(width, c)` with a one-character filler. */
  function PadStart(s: string, width: nat, c: char): (r: string)
    ensures |s| >= width ==> r == s
    ensures |s| < width ==> |r| == width && r[width - |s|..] == s
    ensures forall i | 0 <= i < |r| - |s| :: r[i] == c
  {
    if |s| >= width then s else Repeat(c, width - |s|) + s
  }

  /** JavaScript `length`: UTF-16 code units, two for a code point above U+FFFF. */
  function Utf16Length(s: string): (n: nat)
    ensures |s| <= n <= 2 * |s|
    ensures (forall i | 0 <= i < |s| :: s[i] as int <= 0xFFFF) ==> n == |s|
  {
    if s == [] then 0 else (if s[0] as int > 0xFFFF then 2 else 1) + Utf16Length(s[1..])
  }

  predicate IsHexDigit(c: char) {
    IsAsciiDigit(c) || 'a' <= c <= 'f' || 'A' <= c <= 'F'
  }

  predicate IsRadixDigit(c: char, hex: bool) {
    if hex then IsHexDigit(c) else IsAsciiDigit(c)
  }

  /** The longest prefix of digits of the radix. */
  function LeadingRun(s: string, hex: bool): (r: string)
    ensures |r| <= |s| && r == s[..|r|]
    ensures forall i | 0 <= i < |r| :: IsRadixDigit(r[i], hex)
    ensures |r| == |s| || !IsRadixDigit(s[|r|], hex)
  {
    if s != [] && IsRadixDigit(s[0], hex) then [s[0]] + LeadingRun(s[1..], hex) else []
  }

  function HexDigitValue(c: char): nat
    requires IsHexDigit(c)
  {
    if IsAsciiDigit(c) then c as int - '0' as int
    else if 'a' <= c <= 'f' then c as int - 'a' as int + 10
    else c as int - 'A' as int + 10
  }

  function HexValue(s: string): nat
    requires forall i | 0 <= i < |s| :: IsHexDigit(s[i])
  {
    if s == [] then 0 else HexValue(s[..|s| - 1]) * 16 + HexDigitValue(s[|s| - 1])
  }

  /** The digits after the sign: a `0x`/`0X` prefix selects hexadecimal,
      then the longest run of digits of the radix; `None` when there is none. */
  function ParseUnsigned(u: string): (r: Option<nat>)
    ensures r.Some? ==> exists k | 0 <= k < |u| :: IsHexDigit(u[k])
  {
    var hex := StartsWith(u, "0x") || StartsWith(u, "0X");
    var run := LeadingRun(if hex then u[2..] else u, hex);
    if run == [] then None
    else
      assert IsHexDigit(run[0]);
      Some(if hex then HexValue(run) else DigitsValue(run))
  }

  /** `parseInt(s)` with no radix: leading whitespace, an optional sign, then
      the unsigned part; `None` stands for NaN (no digit at all). */
  function ParseInt(s: string): Option<int> {
    var t := DropLeading(s, Js);
    var neg := t != [] && t[0] == '-';
    var u := if t != [] && (t[0] == '-' || t[0] == '+') then t[1..] else t;
    match ParseUnsigned(u)
    case None => None
    case Some(n) =>
      var v: int := if neg then -(n as int) else n;
      Some(v)
  }

  /** The longest digit prefix of a rendered number followed by a non-digit is that rendering. */
  lemma LeadingRunOfRendering(n: nat, rest: string)
    requires rest == [] || !IsAsciiDigit(rest[0])
    ensures LeadingRun(NatToString(n) + rest, false) == NatToString(n)
  {
    var s, d := NatToString(n) + rest, NatToString(n);
    var r := LeadingRun(s, false);
    assert forall i | 0 <= i < |d| :: s[i] == d[i];
    assert |r| == |s| || !IsAsciiDigit(s[|r|]);
    assert |r| >= |d|;
    assert r == s[..|d|] == d;
  }

  /** The unsigned part reads back a rendered number. */
  lemma ParseUnsignedRendering(n: nat, rest: string)
    requires rest != [] && !IsAsciiDigit(rest[0]) && rest[0] != 'x' && rest[0] != 'X'
    ensures ParseUnsigned(NatToString(n) + rest) == Some(n)
  {
    var u := NatToString(n) + rest;
    assert !StartsWith(u, "0x") && !StartsWith(u, "0X") by {
      assert u[1] != 'x' && u[1] != 'X' by {
        if |NatToString(n)| == 1 {
          assert u[1] == rest[0];
        } else {
          assert IsAsciiDigit(u[1]);
        }
      }
      assert u[..2][1] == u[1];
    }
    assert LeadingRun(u, false) == NatToString(n) by {
      LeadingRunOfRendering(n, rest);
    }
    assert DigitsValue(NatToString(n)) == n by {
      DigitsValueNatToString(n);
    }
  }

}
