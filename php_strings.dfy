/** The PHP string built-ins that the definition parsers rely on, written out
    over Dafny strings: `strtolower`/`strtoupper` (ASCII letters only),
    `trim`, `explode` with a one-character separator, `strpos(..) === 0`,
    `strpos(..) !== false`, `substr`, `substr_count` for one character, and
    the numeric prefix readers `floatval` and `intval`. */
module PhpStrings {

  // ---------------------------------------------------------------- case

  function LowerChar(c: char): char {
    if 'A' <= c <= 'Z' then (c as int + 32) as char else c
  }

  function UpperChar(c: char): char {
    if 'a' <= c <= 'z' then (c as int - 32) as char else c
  }

  /** `strtolower`: every ASCII capital becomes its small letter. */
  function ToLower(s: string): (r: string)
    ensures |r| == |s|
    ensures forall i :: 0 <= i < |s| ==> r[i] == LowerChar(s[i])
    ensures forall i :: 0 <= i < |r| ==> !('A' <= r[i] <= 'Z')
  {
    seq(|s|, i requires 0 <= i < |s| => LowerChar(s[i]))
  }

  /** `strtoupper`: every ASCII small letter becomes its capital. */
  function ToUpper(s: string): (r: string)
    ensures |r| == |s|
    ensures forall i :: 0 <= i < |s| ==> r[i] == UpperChar(s[i])
    ensures forall i :: 0 <= i < |r| ==> !('a' <= r[i] <= 'z')
  {
    seq(|s|, i requires 0 <= i < |s| => UpperChar(s[i]))
  }

  // ---------------------------------------------------------------- trim

  /** The characters `trim` strips by default: space, tab, newline,
      carriage return, NUL and vertical tab. */
  predicate IsTrimmable(c: char) {
    c == ' ' || c == '\t' || c == '\n' || c == '\r' || c == 0 as char || c == 11 as char
  }

  function TrimLeft(s: string): (r: string)
    ensures |r| <= |s| && r == s[|s| - |r|..]
    ensures r == [] || !IsTrimmable(r[0])
  {
    if |s| > 0 && IsTrimmable(s[0]) then TrimLeft(s[1..]) else s
  }

  function TrimRight(s: string): (r: string)
    ensures |r| <= |s| && r == s[..|r|]
    ensures r == [] || !IsTrimmable(r[|r| - 1])
  {
    if |s| > 0 && IsTrimmable(s[|s| - 1]) then TrimRight(s[..|s| - 1]) else s
  }

  /** `trim`: the input without its leading and trailing whitespace; every
      character of the result is a character of the input. */
  function Trim(s: string): (r: string)
    ensures |r| <= |s|
    ensures r == [] || (!IsTrimmable(r[0]) && !IsTrimmable(r[|r| - 1]))
    ensures forall i :: 0 <= i < |r| ==> r[i] in s
  {
    var l := TrimLeft(s);
    var r := TrimRight(l);
    forall i | 0 <= i < |r|
      ensures r[i] in s
    {
      assert r[i] == l[i];
      assert l[i] == s[|s| - |l| + i];
    }
    r
  }

  // ---------------------------------------------------------------- search

  /** `strpos($s, $p) === 0`. */
  predicate StartsWith(s: string, p: string) {
    |p| <= |s| && s[..|p|] == p
  }

  /** `strpos($s, $p) !== false`. */
  predicate Contains(s: string, p: string)
    decreases |s|
  {
    StartsWith(s, p) || (|s| > 0 && Contains(s[1..], p))
  }

  /** Does the regular expression `pat`, made of literal characters and the
      wildcard `.` (any character but a newline), match at the start of `s`? */
  predicate MatchesAt(s: string, pat: string) {
    |pat| <= |s| && forall k :: 0 <= k < |pat| ==> (if pat[k] == '.' then s[k] != '\n' else s[k] == pat[k])
  }

  /** `preg_match("/pat/", $s)` for a pattern of literals and `.`: a match
      anywhere in `s`. */
  predicate MatchesSomewhere(s: string, pat: string)
    decreases |s|
  {
    MatchesAt(s, pat) || (|s| > 0 && MatchesSomewhere(s[1..], pat))
  }

  /** Index of the first occurrence of `c` in `s`. */
  function IndexOf(s: string, c: char): (i: nat)
    requires c in s
    ensures i < |s| && s[i] == c && c !in s[..i]
  {
    if s[0] == c then 0 else IndexOf(s[1..], c) + 1
  }

  /** `substr_count($s, $c)` for a one-character needle. */
  function CountChar(s: string, c: char): (n: nat)
    ensures n <= |s|
  {
    if s == [] then 0 else CountChar(s[..|s| - 1], c) + (if s[|s| - 1] == c then 1 else 0)
  }

  lemma {:induction false} CountCharAppend(s: string, t: string, c: char)
    ensures CountChar(s + t, c) == CountChar(s, c) + CountChar(t, c)
    decreases |t|
  {
    if t == [] {
      assert s + t == s;
    } else {
      assert (s + t)[..|s + t| - 1] == s + t[..|t| - 1];
      CountCharAppend(s, t[..|t| - 1], c);
    }
  }

  // ---------------------------------------------------------------- substr

  /** `substr($s, $start)` for a start that is not negative; a start past
      the end gives the empty string. */
  function Substr(s: string, start: nat): (r: string)
    ensures start <= |s| ==> s == s[..start] + r
    ensures start >= |s| ==> r == ""
  {
    if start <= |s| then s[start..] else ""
  }

  /** `substr($s, $start, $length)` for a start and a length that are not
      negative: at most `len` characters from `start` on. */
  function Substr3(s: string, start: nat, len: nat): (r: string)
    ensures |r| <= len
    ensures start + len <= |s| ==> r == s[start..start + len]
  {
    if start >= |s| then ""
    else if start + len <= |s| then s[start..start + len]
    else s[start..]
  }

  // ---------------------------------------------------------------- explode

  /** `explode($sep, $s)` for a one-character separator: the pieces between
      separators, at least one (the empty string gives `[""]`). */
  function Explode(s: string, sep: char): (parts: seq<string>)
    ensures |parts| >= 1
    ensures forall k :: 0 <= k < |parts| ==> sep !in parts[k]
    decreases |s|
  {
    if sep !in s then [s]
    else
      var i := IndexOf(s, sep);
      [s[..i]] + Explode(s[i + 1..], sep)
  }

  /** `implode($sep, $parts)`. */
  function Join(parts: seq<string>, sep: char): string {
    if |parts| == 0 then ""
    else if |parts| == 1 then parts[0]
    else parts[0] + [sep] + Join(parts[1..], sep)
  }

  /** Joining the pieces with the separator gives back the string. */
  lemma {:induction false} JoinExplode(s: string, sep: char)
    ensures Join(Explode(s, sep), sep) == s
    decreases |s|
  {
    if sep in s {
      var i := IndexOf(s, sep);
      var rest := Explode(s[i + 1..], sep);
      JoinExplode(s[i + 1..], sep);
      assert Explode(s, sep) == [s[..i]] + rest;
      assert ([s[..i]] + rest)[1..] == rest;
      assert s == s[..i] + [sep] + s[i + 1..];
    }
  }

  /** Splitting on a separator that the first piece does not contain gives
      that piece, then the pieces of the rest. */
  lemma ExplodeCons(a: string, sep: char, b: string)
    requires sep !in a
    ensures Explode(a + [sep] + b, sep) == [a] + Explode(b, sep)
  {
    var s := a + [sep] + b;
    assert s[|a|] == sep;
    var i := IndexOf(s, sep);
    assert i == |a|;
    assert s[..i] == a;
    assert s[i + 1..] == b;
  }

  /** Splitting the joined pieces gives them back, when no piece contains
      the separator. */
  lemma {:induction false} ExplodeJoin(parts: seq<string>, sep: char)
    requires |parts| >= 1
    requires forall k :: 0 <= k < |parts| ==> sep !in parts[k]
    ensures Explode(Join(parts, sep), sep) == parts
    decreases |parts|
  {
    if |parts| > 1 {
      var rest := parts[1..];
      assert forall k :: 0 <= k < |rest| ==> rest[k] == parts[k + 1];
      ExplodeJoin(rest, sep);
      assert sep !in parts[0];
      ExplodeCons(parts[0], sep, Join(rest, sep));
      assert Join(parts, sep) == parts[0] + [sep] + Join(rest, sep);
      assert [parts[0]] + rest == parts;
    } else {
      assert Join(parts, sep) == parts[0];
    }
  }

  /** Element `i` of a PHP list of strings; a missing index reads as null,
      which is the empty string wherever a string is needed. */
  function At(parts: seq<string>, i: int): string {
    if 0 <= i < |parts| then parts[i] else ""
  }

  // ---------------------------------------------------------------- numbers

  predicate IsDigit(c: char) {
    '0' <= c <= '9'
  }

  /** Whitespace that PHP's numeric-string reading skips at the front. */
  predicate IsLeadingSpace(c: char) {
    c == ' ' || c == '\t' || c == '\n' || c == '\r' || c == 11 as char || c == 12 as char
  }

  function SkipSpace(s: string): (r: string)
    ensures |r| <= |s|
  {
    if |s| > 0 && IsLeadingSpace(s[0]) then SkipSpace(s[1..]) else s
  }

  /** Length of the run of decimal digits at the front of `s`. */
  function LeadingDigits(s: string): (n: nat)
    ensures n <= |s|
    ensures forall i :: 0 <= i < n ==> IsDigit(s[i])
    ensures n < |s| ==> !IsDigit(s[n])
  {
    if |s| > 0 && IsDigit(s[0]) then 1 + LeadingDigits(s[1..]) else 0
  }

  /** The value of a string of decimal digits. */
  function DigitsValue(ds: string): nat
    requires forall i :: 0 <= i < |ds| ==> IsDigit(ds[i])
  {
    if ds == [] then 0
    else
      assert IsDigit(ds[|ds| - 1]);
      DigitsValue(ds[..|ds| - 1]) * 10 + (ds[|ds| - 1] as int - '0' as int)
  }

  function Pow10(n: nat): (r: nat)
    ensures r >= 1
  {
    if n == 0 then 1 else 10 * Pow10(n - 1)
  }

  /** The value of `digits[.digits]` at the front of `s`; zero if none. */
  function UnsignedDecimal(s: string): (r: real)
    ensures r >= 0.0
  {
    var n := LeadingDigits(s);
    var whole := DigitsValue(s[..n]) as real;
    var rest := s[n..];
    if |rest| > 0 && rest[0] == '.' then
      var f := rest[1..];
      var m := LeadingDigits(f);
      whole + DigitsValue(f[..m]) as real / Pow10(m) as real
    else whole
  }

  /** `floatval`: the longest numeric prefix after leading whitespace, an
      optional sign and then `digits[.digits]`; zero when there is none. */
  function FloatVal(s: string): real {
    var t := SkipSpace(s);
    if |t| > 0 && t[0] == '-' then -UnsignedDecimal(t[1..])
    else if |t| > 0 && t[0] == '+' then UnsignedDecimal(t[1..])
    else UnsignedDecimal(t)
  }

  /** `intval($s, 10)`: the optionally signed run of digits at the front,
      after leading whitespace; zero when there is none. */
  function IntVal(s: string): int {
    var t := SkipSpace(s);
    if |t| > 0 && (t[0] == '-' || t[0] == '+') then
      var u := t[1..];
      var v: int := DigitsValue(u[..LeadingDigits(u)]);
      if t[0] == '-' then -v else v
    else DigitsValue(t[..LeadingDigits(t)])
  }
}
