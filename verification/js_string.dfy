/**
 * The few JavaScript string operations the modelled code relies on:
 * `startsWith`, `includes`, `trim`, `split` on one character,
 * `substring(0, n)` and number-to-decimal-string conversion.
 * Strings are sequences of Unicode scalar values, while JavaScript
 * counts UTF-16 code units; `Utf16Length` relates the two, and they agree
 * inside the Basic Multilingual Plane.
 */
module JsString {

  /** `s.startsWith(p)`. */
  predicate StartsWith(s: string, p: string) {
    |p| <= |s| && s[..|p|] == p
  }

  /** `s.includes(p)`, written as a scan so that it can be evaluated. */
  predicate Contains(s: string, p: string)
    decreases |s|
  {
    StartsWith(s, p) || (|s| > 0 && Contains(s[1..], p))
  }

  /** `p` occurs in `s` at offset `i`. */
  predicate OccursAt(s: string, p: string, i: int) {
    0 <= i && i + |p| <= |s| && s[i..i + |p|] == p
  }

  /** An occurrence at any offset is found by the scan. */
  lemma {:induction false} OccursAtContains(s: string, p: string, i: int)
    requires OccursAt(s, p, i)
    ensures Contains(s, p)
    decreases i
  {
    if i == 0 {
      assert s[..|p|] == s[i..i + |p|];
    } else {
      assert s[1..][i - 1..i - 1 + |p|] == s[i..i + |p|];
      OccursAtContains(s[1..], p, i - 1);
    }
  }

  /** `Contains` holds exactly when `p` occurs at some offset of `s`. */
  lemma {:induction false} ContainsIff(s: string, p: string)
    ensures Contains(s, p) <==> exists i :: OccursAt(s, p, i)
    decreases |s|
  {
    if StartsWith(s, p) {
      assert OccursAt(s, p, 0);
    } else if Contains(s, p) {
      ContainsIff(s[1..], p);
      var i :| OccursAt(s[1..], p, i);
      assert s[i + 1..i + 1 + |p|] == s[1..][i..i + |p|];
      assert OccursAt(s, p, i + 1);
    }
    if i :| OccursAt(s, p, i) {
      OccursAtContains(s, p, i);
    }
  }

  /** A string that contains `p` at its start contains it. */
  lemma StartsWithContains(s: string, p: string)
    requires StartsWith(s, p)
    ensures Contains(s, p)
  {
  }

  /** A string that contains `p` somewhere after its first `k` characters contains it. */
  lemma {:induction false} ContainsSuffix(s: string, k: nat, p: string)
    requires k <= |s| && Contains(s[k..], p)
    ensures Contains(s, p)
    decreases k
  {
    if k > 0 {
      assert s[1..][k - 1..] == s[k..];
      ContainsSuffix(s[1..], k - 1, p);
    }
  }

  /** A string without the first character of `p` does not contain `p`. */
  lemma {:induction false} FirstCharMissing(s: string, p: string)
    requires |p| > 0 && p[0] !in s
    ensures !Contains(s, p)
    decreases |s|
  {
    if |s| > 0 {
      assert s[0] != p[0];
      FirstCharMissing(s[1..], p);
    }
  }

  /** The code points JavaScript's `String.prototype.trim` removes
      (WhiteSpace and LineTerminator of ECMA-262). */
  predicate IsJsWhitespace(c: char) {
    c == '\t' || c == '\n' || c == '\U{B}' || c == '\U{C}' || c == '\r' || c == ' '
    || c == '\U{A0}' || c == '\U{1680}' || ('\U{2000}' <= c <= '\U{200A}')
    || c == '\U{2028}' || c == '\U{2029}' || c == '\U{202F}' || c == '\U{205F}'
    || c == '\U{3000}' || c == '\U{FEFF}'
  }

  /** `!s.trim()`: the string is empty or made of whitespace only. */
  predicate IsBlank(s: string) {
    forall i :: 0 <= i < |s| ==> IsJsWhitespace(s[i])
  }

  /** `s.trimStart()`. */
  function TrimStart(s: string): (r: string)
    ensures |r| <= |s| && r == s[|s| - |r|..]
    ensures IsBlank(s[..|s| - |r|])
    ensures r == [] || !IsJsWhitespace(r[0])
    decreases |s|
  {
    if |s| > 0 && IsJsWhitespace(s[0]) then
      var t := TrimStart(s[1..]);
      assert s[..|s| - |t|] == [s[0]] + s[1..][..|s[1..]| - |t|];
      t
    else s
  }

  /** `s.trimEnd()`. */
  function TrimEnd(s: string): (r: string)
    ensures |r| <= |s| && r == s[..|r|]
    ensures IsBlank(s[|r|..])
    ensures r == [] || !IsJsWhitespace(r[|r| - 1])
    decreases |s|
  {
    if |s| > 0 && IsJsWhitespace(s[|s| - 1]) then
      var t := TrimEnd(s[..|s| - 1]);
      assert s[|t|..] == s[..|s| - 1][|t|..] + [s[|s| - 1]];
      t
    else s
  }

  /** `s.trim()`: the infix left after removing leading and trailing
      whitespace; everything removed is whitespace, and the result neither
      starts nor ends with whitespace. */
  function Trim(s: string): (r: string)
    ensures exists i, j :: 0 <= i <= j <= |s| && r == s[i..j] && IsBlank(s[..i]) && IsBlank(s[j..])
    ensures r == [] || (!IsJsWhitespace(r[0]) && !IsJsWhitespace(r[|r| - 1]))
  {
    var t := TrimStart(s);
    var u := TrimEnd(t);
    var i := |s| - |t|;
    assert u == s[i..i + |u|];
    assert s[i + |u|..] == t[|u|..];
    u
  }

  /** Trimming leaves nothing exactly when the string is blank. */
  lemma TrimEmptyIffBlank(s: string)
    ensures Trim(s) == [] <==> IsBlank(s)
  {
    var i, j :| 0 <= i <= j <= |s| && Trim(s) == s[i..j] && IsBlank(s[..i]) && IsBlank(s[j..]);
    if Trim(s) == [] {
      assert i == j;
      forall k | 0 <= k < |s| ensures IsJsWhitespace(s[k]) {
        if k < i { assert s[..i][k] == s[k]; } else { assert s[j..][k - j] == s[k]; }
      }
    } else {
      assert s[i] == Trim(s)[0];
    }
  }

  /** Trimming a trimmed string changes nothing. */
  lemma TrimIdempotent(s: string)
    ensures Trim(Trim(s)) == Trim(s)
  {
    var r := Trim(s);
    assert TrimStart(r) == r;
    assert TrimEnd(r) == r;
  }

  /** How many UTF-16 code units JavaScript uses for a character: two for
      one outside the Basic Multilingual Plane, else one. */
  function CodeUnits(c: char): nat {
    if c as int < 0x1_0000 then 1 else 2
  }

  /** A JavaScript string's `length`: the UTF-16 code units of its characters. */
  function Utf16Length(s: string): nat {
    if s == [] then 0 else CodeUnits(s[0]) + Utf16Length(s[1..])
  }

  /** Every character is in the Basic Multilingual Plane. */
  predicate InBmp(s: string) {
    forall k :: 0 <= k < |s| ==> s[k] as int < 0x1_0000
  }

  /** Inside the Basic Multilingual Plane, one character is one code unit. */
  lemma {:induction false} BmpLength(s: string)
    requires InBmp(s)
    ensures Utf16Length(s) == |s|
  {
    if s != [] {
      assert InBmp(s[1..]) by {
        forall k | 0 <= k < |s[1..]| ensures s[1..][k] as int < 0x1_0000 {
          assert s[1..][k] == s[k + 1];
        }
      }
      BmpLength(s[1..]);
    }
  }

  /** `s.substring(0, n)`: the first `n` characters, or all of them. */
  function Prefix(s: string, n: nat): (r: string)
    ensures |r| == if n <= |s| then n else |s|
    ensures r <= s
  {
    if n <= |s| then s[..n] else s
  }

  /** For text inside the Basic Multilingual Plane, `Prefix` cuts where
      `substring` does: after min(n, length) code units. */
  lemma PrefixInCodeUnits(s: string, n: nat)
    requires InBmp(s)
    ensures Utf16Length(Prefix(s, n)) == if n <= Utf16Length(s) then n else Utf16Length(s)
  {
    BmpLength(s);
    assert InBmp(Prefix(s, n)) by {
      forall k | 0 <= k < |Prefix(s, n)| ensures Prefix(s, n)[k] as int < 0x1_0000 {
        assert Prefix(s, n)[k] == s[k];
      }
    }
    BmpLength(Prefix(s, n));
  }

  /** `s.split(sep)` for a one-character separator: the pieces between
      separators, always at least one. */
  function Split(s: string, sep: char): (r: seq<string>)
    ensures |r| >= 1
    ensures forall k :: 0 <= k < |r| ==> sep !in r[k]
    decreases |s|
  {
    if sep !in s then [s]
    else
      var i := FirstIndex(s, sep);
      [s[..i]] + Split(s[i + 1..], sep)
  }

  /** The position of the first `c` in `s`. */
  function FirstIndex(s: string, c: char): (i: nat)
    requires c in s
    ensures i < |s| && s[i] == c && c !in s[..i]
  {
    if s[0] == c then 0 else 1 + FirstIndex(s[1..], c)
  }

  /** Splitting at the first separator: the piece before it, then the pieces of the rest. */
  lemma SplitFirst(a: string, sep: char, b: string)
    requires sep !in a
    ensures Split(a + [sep] + b, sep) == [a] + Split(b, sep)
  {
    var s := a + [sep] + b;
    assert s[|a|] == sep;
    var i := FirstIndex(s, sep);
    assert forall k :: 0 <= k < |a| ==> s[k] == a[k];
    assert sep !in s[..i];
    assert i <= |a| ==> s[..i] == a[..i];
    assert s[..|a|] == a && s[|a| + 1..] == b;
  }

  /** `pieces.join(sep)`. */
  function Join(pieces: seq<string>, sep: char): string
    requires |pieces| >= 1
  {
    if |pieces| == 1 then pieces[0] else pieces[0] + [sep] + Join(pieces[1..], sep)
  }

  /** Splitting loses nothing: joining the pieces gives the string back. */
  lemma {:induction false} SplitJoin(s: string, sep: char)
    ensures Join(Split(s, sep), sep) == s
    decreases |s|
  {
    if sep in s {
      var i := FirstIndex(s, sep);
      var rest := Split(s[i + 1..], sep);
      assert Split(s, sep) == [s[..i]] + rest;
      assert Split(s, sep)[1..] == rest;
      assert Join(Split(s, sep), sep) == s[..i] + [sep] + Join(rest, sep);
      SplitJoin(s[i + 1..], sep);
      assert s == s[..i] + [sep] + s[i + 1..];
    }
  }

  /** Joining pieces that hold no separator loses nothing: splitting gives them back. */
  lemma {:induction false} JoinSplit(pieces: seq<string>, sep: char)
    requires |pieces| >= 1 && forall k :: 0 <= k < |pieces| ==> sep !in pieces[k]
    ensures Split(Join(pieces, sep), sep) == pieces
  {
    if |pieces| > 1 {
      var rest := pieces[1..];
      assert forall k :: 0 <= k < |rest| ==> rest[k] == pieces[k + 1];
      JoinSplit(rest, sep);
      assert Join(pieces, sep) == pieces[0] + [sep] + Join(rest, sep);
      SplitFirst(pieces[0], sep, Join(rest, sep));
      assert [pieces[0]] + rest == pieces;
    } else {
      assert Join(pieces, sep) == pieces[0];
      assert [pieces[0]] == pieces;
    }
  }

  /** A character other than the separator is in a join only if it is in a piece. */
  lemma {:induction false} NoCharInJoin(pieces: seq<string>, sep: char, c: char)
    requires |pieces| >= 1 && c != sep && forall k :: 0 <= k < |pieces| ==> c !in pieces[k]
    ensures c !in Join(pieces, sep)
  {
    if |pieces| > 1 {
      NoCharInJoin(pieces[1..], sep, c);
      assert Join(pieces, sep) == pieces[0] + [sep] + Join(pieces[1..], sep);
    }
  }

  /** The number a string of decimal digits denotes, most significant digit first. */
  function DecimalValue(s: string): int
  {
    if s == [] then 0 else 10 * DecimalValue(s[..|s| - 1]) + (s[|s| - 1] as int - '0' as int)
  }

  /** Decimal digits of a non-negative integer, as `String(n)` prints it:
      they denote `n`, so different numbers print differently. */
  function NatToString(n: nat): (r: string)
    ensures |r| >= 1
    ensures forall k :: 0 <= k < |r| ==> '0' <= r[k] <= '9'
    ensures |r| > 1 ==> r[0] != '0'
    ensures DecimalValue(r) == n
  {
    if n < 10 then [DigitChar(n)]
    else
      var high := NatToString(n / 10);
      assert (high + [DigitChar(n % 10)])[..|high|] == high;
      high + [DigitChar(n % 10)]
  }

  /** `String` is one-to-one on the naturals. */
  lemma NatToStringInjective(a: nat, b: nat)
    ensures NatToString(a) == NatToString(b) <==> a == b
  {
    if NatToString(a) == NatToString(b) {
      assert DecimalValue(NatToString(a)) == DecimalValue(NatToString(b));
    }
  }

  /** `String(n)` for any integer: a minus sign before the digits of a negative one. */
  function IntToString(n: int): string {
    if n < 0 then "-" + NatToString(-n) else NatToString(n)
  }

  function DigitChar(d: nat): (c: char)
    requires d < 10
    ensures '0' <= c <= '9' && c as int - '0' as int == d
  {
    (d + '0' as int) as char
  }
}
