/** String helpers shared by the Python server and the JavaScript front-ends:
    whitespace stripping (Python `str.strip`, JavaScript `trim`), prefix and
    substring tests, splitting and joining on a one-character separator, and
    the decimal rendering and parsing of integers (Python `str`/`int`,
    JavaScript `parseInt`). */
module Text {
  import opened Common

  /** The six ASCII whitespace characters, the ones `str.strip()` and
      `trim()` both remove. Python also strips `\x1c`-`\x1f`, and both strip
      the non-ASCII spaces; neither is modelled here. */
  predicate IsSpace(c: char) {
    c == ' ' || c == '\t' || c == '\n' || c == '\r' || c == '\U{0B}' || c == '\U{0C}'
  }

  predicate AllSpace(s: string) {
    forall i :: 0 <= i < |s| ==> IsSpace(s[i])
  }

  /** A string with no whitespace at either end. */
  predicate Stripped(s: string) {
    s == [] || (!IsSpace(s[0]) && !IsSpace(s[|s| - 1]))
  }

  /** The number of whitespace characters at the start of `s`. */
  function LeadingSpaces(s: string): (n: nat)
    ensures n <= |s|
    ensures forall i :: 0 <= i < n ==> IsSpace(s[i])
    ensures n < |s| ==> !IsSpace(s[n])
  {
    if |s| > 0 && IsSpace(s[0]) then 1 + LeadingSpaces(s[1..]) else 0
  }

  /** The number of whitespace characters at the end of `s`. */
  function TrailingSpaces(s: string): (n: nat)
    ensures n <= |s|
    ensures forall i :: |s| - n <= i < |s| ==> IsSpace(s[i])
    ensures n < |s| ==> !IsSpace(s[|s| - 1 - n])
  {
    if |s| > 0 && IsSpace(s[|s| - 1]) then 1 + TrailingSpaces(s[..|s| - 1]) else 0
  }

  /** JavaScript `trimStart()`: drops the leading whitespace. */
  function TrimStart(s: string): (r: string)
    ensures r == [] || !IsSpace(r[0])
  {
    s[LeadingSpaces(s)..]
  }

  /** Python `str.strip()` and JavaScript `trim()`: the string without the
      whitespace at either end. It is empty exactly when `s` is all
      whitespace, and whatever is kept is a contiguous piece of `s`. */
  function Strip(s: string): (r: string)
    ensures Stripped(r)
    ensures |r| <= |s|
    ensures r == [] <==> AllSpace(s)
    ensures Contains(s, r)
  {
    var l := LeadingSpaces(s);
    if l == |s| then
      assert OccursAt([], s, 0);
      []
    else
      var t := TrailingSpaces(s);
      assert l < |s| - t;
      var r := s[l..|s| - t];
      assert OccursAt(r, s, l);
      r
  }

  /** Stripping an already stripped string changes nothing. */
  lemma StripStripped(s: string)
    requires Stripped(s)
    ensures Strip(s) == s
  {
    if s != [] {
      assert TrimStart(s) == s;
    }
  }

  /** Stripping is idempotent. */
  lemma StripIdempotent(s: string)
    ensures Strip(Strip(s)) == Strip(s)
  {
    StripStripped(Strip(s));
  }

  /** `hay[i..]` starts with `needle`. */
  predicate OccursAt(needle: string, hay: string, i: int) {
    0 <= i && i + |needle| <= |hay| && hay[i..i + |needle|] == needle
  }

  /** Python `needle in hay` for two strings: substring containment. */
  predicate Contains(hay: string, needle: string) {
    exists i | 0 <= i <= |hay| :: OccursAt(needle, hay, i)
  }

  /** Containment is transitive. */
  lemma ContainsTrans(a: string, b: string, c: string)
    requires Contains(a, b) && Contains(b, c)
    ensures Contains(a, c)
  {
    var i :| 0 <= i <= |a| && OccursAt(b, a, i);
    var j :| 0 <= j <= |b| && OccursAt(c, b, j);
    assert forall t :: 0 <= t < |b| ==> a[i + t] == b[t] by {
      forall t | 0 <= t < |b| ensures a[i + t] == b[t] {
        assert a[i..i + |b|][t] == b[t];
      }
    }
    assert forall t :: 0 <= t < |c| ==> b[j + t] == c[t] by {
      forall t | 0 <= t < |c| ensures b[j + t] == c[t] {
        assert b[j..j + |c|][t] == c[t];
      }
    }
    assert a[i + j..i + j + |c|] == c;
    assert OccursAt(c, a, i + j);
  }

  /** Every piece of a split occurs in the split string. */
  lemma {:induction false} SplitPiecesOccur(s: string, sep: char, k: nat)
    requires k < |Split(s, sep)|
    ensures Contains(s, Split(s, sep)[k])
    decreases |s|
  {
    match IndexOf(s, sep)
    case None =>
      assert OccursAt(s, s, 0);
    case Some(i) =>
      if k == 0 {
        assert OccursAt(s[..i], s, 0);
      } else {
        var rest := s[i + 1..];
        SplitPiecesOccur(rest, sep, k - 1);
        assert Split(s, sep)[k] == Split(rest, sep)[k - 1];
        assert OccursAt(rest, s, i + 1);
        ContainsTrans(s, rest, Split(rest, sep)[k - 1]);
      }
  }

  /** Python `s.startswith(p)` / JavaScript `s.startsWith(p)`. */
  predicate StartsWith(s: string, p: string) {
    |p| <= |s| && s[..|p|] == p
  }

  /** Python `s.endswith(p)`. */
  predicate EndsWith(s: string, p: string) {
    |p| <= |s| && s[|s| - |p|..] == p
  }

  /** Python `s[:n]` for `n >= 0`: the first `n` characters, or all of `s`. */
  function Take(s: string, n: nat): (r: string)
    ensures |r| == if n < |s| then n else |s|
    ensures StartsWith(s, r)
  {
    if n < |s| then s[..n] else s
  }

  /** The index of the first occurrence of `c` in `s`, if any. */
  function IndexOf(s: string, c: char): (r: Option<nat>)
    ensures r.None? <==> c !in s
    ensures r.Some? ==> r.value < |s| && s[r.value] == c && c !in s[..r.value]
  {
    if |s| == 0 then None
    else if s[0] == c then Some(0)
    else
      match IndexOf(s[1..], c)
      case None => None
      case Some(i) =>
        assert s[1..][..i] == s[1..i + 1];
        Some(i + 1)
  }

  /** JavaScript `s.split(sep)` / Python `s.split(sep)` for a one-character
      separator: the pieces between separators, empty pieces included. */
  function Split(s: string, sep: char): (parts: seq<string>)
    ensures |parts| >= 1
    ensures forall k :: 0 <= k < |parts| ==> sep !in parts[k]
    decreases |s|
  {
    match IndexOf(s, sep)
    case None => [s]
    case Some(i) => [s[..i]] + Split(s[i + 1..], sep)
  }

  /** A string without the separator splits into itself alone. */
  lemma SplitNoSep(s: string, sep: char)
    requires sep !in s
    ensures Split(s, sep) == [s]
  {
  }

  /** JavaScript `parts.join(sep)` / Python `sep.join(parts)`. */
  function Join(parts: seq<string>, sep: char): string
    decreases |parts|
  {
    if |parts| == 0 then ""
    else if |parts| == 1 then parts[0]
    else parts[0] + [sep] + Join(parts[1..], sep)
  }

  /** Joining the pieces of a split restores the string. */
  lemma {:induction false} JoinSplit(s: string, sep: char)
    ensures Join(Split(s, sep), sep) == s
    decreases |s|
  {
    match IndexOf(s, sep)
    case None =>
      assert Split(s, sep) == [s];
    case Some(i) =>
      var rest := Split(s[i + 1..], sep);
      assert Split(s, sep) == [s[..i]] + rest;
      JoinSplit(s[i + 1..], sep);
      assert ([s[..i]] + rest)[1..] == rest;
      assert Join([s[..i]] + rest, sep) == s[..i] + [sep] + Join(rest, sep);
      assert s == s[..i] + [sep] + s[i + 1..];
  }

  /** Splitting a join of separator-free pieces gives the pieces back. */
  lemma {:induction false} SplitJoin(parts: seq<string>, sep: char)
    requires |parts| >= 1
    requires forall k :: 0 <= k < |parts| ==> sep !in parts[k]
    ensures Split(Join(parts, sep), sep) == parts
    decreases |parts|
  {
    if |parts| > 1 {
      SplitAfterPiece(parts[0], sep, Join(parts[1..], sep));
      SplitJoin(parts[1..], sep);
    }
  }

  /** A separator-free piece followed by the separator splits off first. */
  lemma SplitAfterPiece(p: string, sep: char, t: string)
    requires sep !in p
    ensures Split(p + [sep] + t, sep) == [p] + Split(t, sep)
  {
    var s := p + [sep] + t;
    assert s[|p|] == sep && s[..|p|] == p;
    assert IndexOf(s, sep) == Some(|p|);
    assert s[|p| + 1..] == t;
  }

  /** The separator never occurs in a piece, so a join of separator-free
      pieces only holds separators between them. */
  lemma {:induction false} JoinFirstPiece(parts: seq<string>, sep: char)
    requires |parts| >= 1
    ensures StartsWith(Join(parts, sep), parts[0])
    ensures EndsWith(Join(parts, sep), parts[|parts| - 1])
    decreases |parts|
  {
    if |parts| > 1 {
      JoinFirstPiece(parts[1..], sep);
      var rest := Join(parts[1..], sep);
      assert Join(parts, sep) == parts[0] + ([sep] + rest);
      assert (parts[0] + ([sep] + rest))[..|parts[0]|] == parts[0];
      assert parts[1..][|parts[1..]| - 1] == parts[|parts| - 1];
      assert (parts[0] + [sep] + rest)[|parts[0] + [sep] + rest| - |parts[|parts| - 1]|..]
          == rest[|rest| - |parts[|parts| - 1]|..];
    }
  }

  // ---------------------------------------------------------------- digits

  predicate IsDigit(c: char) { '0' <= c <= '9' }

  function DigitValue(c: char): nat
    requires IsDigit(c)
  {
    (c as int) - ('0' as int)
  }

  function DigitChar(d: nat): (c: char)
    requires d < 10
    ensures IsDigit(c) && DigitValue(c) == d
  {
    (('0' as int) + d) as char
  }

  predicate AllDigits(s: string) {
    forall i :: 0 <= i < |s| ==> IsDigit(s[i])
  }

  /** The value of a string of decimal digits. */
  function DigitsValue(s: string): nat
    requires AllDigits(s)
  {
    if |s| == 0 then 0 else DigitsValue(s[..|s| - 1]) * 10 + DigitValue(s[|s| - 1])
  }

  /** Python `str(n)` for a natural number. */
  function NatToDecimal(n: nat): (s: string)
    ensures |s| >= 1 && AllDigits(s)
    ensures DigitsValue(s) == n
  {
    if n < 10 then [DigitChar(n)]
    else
      var s := NatToDecimal(n / 10) + [DigitChar(n % 10)];
      assert s[..|s| - 1] == NatToDecimal(n / 10);
      s
  }

  /** Python `str(i)` for an integer. */
  function IntToDecimal(i: int): (s: string)
    ensures |s| >= 1
  {
    if i < 0 then "-" + NatToDecimal(-i) else NatToDecimal(i)
  }

  /** The value of an optionally signed run of digits, as Python's `int()`
      reads it once the surrounding whitespace is gone. */
  function ParseSigned(s: string): (r: Option<int>)
    ensures r.Some? ==> |s| >= 1
  {
    if |s| >= 1 && (s[0] == '+' || s[0] == '-') then
      var d := s[1..];
      if |d| >= 1 && AllDigits(d) then
        var n: int := DigitsValue(d);
        var v: int := if s[0] == '-' then -n else n;
        Some(v)
      else None
    else if |s| >= 1 && AllDigits(s) then Some(DigitsValue(s))
    else None
  }

  /** Python `int(s)` on a string: `None` stands for the `ValueError` it raises. */
  function PyIntOfString(s: string): Option<int> {
    ParseSigned(Strip(s))
  }

  /** Python's `int(str(i)) == i`. */
  lemma DecimalRoundTrip(i: int)
    ensures PyIntOfString(IntToDecimal(i)) == Some(i)
  {
    var s := IntToDecimal(i);
    assert Stripped(s) by {
      if i < 0 {
        assert IsDigit(s[|s| - 1]);
      } else {
        assert IsDigit(s[0]) && IsDigit(s[|s| - 1]);
      }
    }
    StripStripped(s);
    if i < 0 {
      assert s[1..] == NatToDecimal(-i);
    }
  }

  // ---------------------------------------------------------- parseInt

  predicate IsHexDigit(c: char) {
    IsDigit(c) || 'a' <= c <= 'f' || 'A' <= c <= 'F'
  }

  function HexValue(c: char): nat
    requires IsHexDigit(c)
  {
    if IsDigit(c) then DigitValue(c)
    else if 'a' <= c <= 'f' then (c as int) - ('a' as int) + 10
    else (c as int) - ('A' as int) + 10
  }

  /** The longest prefix of `s` made of digits of the given radix (10 or 16). */
  function DigitRun(s: string, hex: bool): (r: string)
    ensures |r| <= |s| && r == s[..|r|]
    ensures forall i :: 0 <= i < |r| ==> (if hex then IsHexDigit(r[i]) else IsDigit(r[i]))
    ensures |r| < |s| ==> !(if hex then IsHexDigit(s[|r|]) else IsDigit(s[|r|]))
  {
    if |s| > 0 && (if hex then IsHexDigit(s[0]) else IsDigit(s[0])) then
      var t := DigitRun(s[1..], hex);
      assert s[1..][..|t|] == s[1..|t| + 1];
      [s[0]] + t
    else []
  }

  function RunValue(s: string, hex: bool): nat
    requires forall i :: 0 <= i < |s| ==> (if hex then IsHexDigit(s[i]) else IsDigit(s[i]))
  {
    if |s| == 0 then 0
    else
      var last := s[|s| - 1];
      RunValue(s[..|s| - 1], hex) * (if hex then 16 else 10) + (if hex then HexValue(last) else DigitValue(last))
  }

  /** The unsigned part of `parseInt`: a `0x`/`0X` prefix switches to
      hexadecimal, then the longest run of digits is read. `None` when there
      is no digit. */
  function ReadRun(u: string): (r: Option<nat>)
  {
    var hex := |u| >= 2 && u[0] == '0' && (u[1] == 'x' || u[1] == 'X');
    var body := if hex then u[2..] else u;
    var run := DigitRun(body, hex);
    if |run| == 0 then None else Some(RunValue(run, hex))
  }

  /** JavaScript `parseInt(s)` without a radix: leading whitespace is skipped,
      a sign is read, and the rest is read by `ReadRun`. `None` stands for
      `NaN` (no digits). */
  function JsParseInt(s: string): (r: Option<int>)
    ensures r.Some? <==> ReadRun(SignlessPart(TrimStart(s))).Some?
  {
    var t := TrimStart(s);
    var neg := |t| >= 1 && t[0] == '-';
    match ReadRun(SignlessPart(t))
    case None => None
    case Some(v) =>
      var x: int := if neg then -(v as int) else v;
      Some(x)
  }

  /** The text after an optional leading sign. */
  function SignlessPart(t: string): (u: string)
    ensures |t| >= 1 && (t[0] == '-' || t[0] == '+') ==> u == t[1..]
    ensures !(|t| >= 1 && (t[0] == '-' || t[0] == '+')) ==> u == t
  {
    if |t| >= 1 && (t[0] == '-' || t[0] == '+') then t[1..] else t
  }

  /** `parseInt` reads back the decimal rendering of any integer. */
  lemma JsParseIntDecimal(i: int)
    ensures JsParseInt(IntToDecimal(i)) == Some(i)
  {
    var s := IntToDecimal(i);
    var d := NatToDecimal(if i < 0 then -i else i);
    ReadRunDigits(d);
    assert !IsSpace(s[0]) by {
      if i >= 0 { assert IsDigit(s[0]); }
    }
    assert TrimStart(s) == s;
    if i < 0 {
      assert SignlessPart(s) == d;
    } else {
      assert SignlessPart(s) == d;
    }
  }

  /** A run of decimal digits is read as its value. */
  lemma ReadRunDigits(d: string)
    requires |d| >= 1 && AllDigits(d)
    ensures ReadRun(d) == Some(DigitsValue(d))
  {
    if |d| >= 2 {
      assert IsDigit(d[1]);
    }
    DigitRunAll(d);
    RunValueDecimal(d);
  }

  lemma {:induction false} DigitRunAll(d: string)
    requires AllDigits(d)
    ensures DigitRun(d, false) == d
    decreases |d|
  {
    if |d| > 0 {
      DigitRunAll(d[1..]);
    }
  }

  lemma {:induction false} RunValueDecimal(d: string)
    requires AllDigits(d)
    ensures RunValue(d, false) == DigitsValue(d)
    decreases |d|
  {
    if |d| > 0 {
      RunValueDecimal(d[..|d| - 1]);
    }
  }
}
