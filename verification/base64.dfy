/**
 * Base64 as in section 4 of RFC 4648, in the two forms the browser offers
 * it: `btoa` (encoding with `=` padding) and `atob` (the forgiving decoder
 * of the WHATWG Infra standard: ASCII whitespace is ignored, padding is
 * optional, a stray character or a length of 4n+1 is refused), and the two
 * helpers of services/liveGemini.ts built on them.
 */
module Base64 {
  import opened Wrappers
  import opened PcmCodec
  import opened BinaryText

  /** A six-bit group, the value one base64 character stands for. */
  type Sextet = v: int | 0 <= v < 64

  /** The base64 alphabet, RFC 4648 section 4, Table 1. */
  function Letter(v: Sextet): (c: char)
    ensures c != '=' && !IsAsciiWhitespace(c)
  {
    if v < 26 then ('A' as int + v) as char
    else if v < 52 then ('a' as int + (v - 26)) as char
    else if v < 62 then ('0' as int + (v - 52)) as char
    else if v == 62 then '+'
    else '/'
  }

  /** The value of an alphabet character; `None` for anything else. */
  function ValueOf(c: char): (r: Option<Sextet>)
    ensures r.Some? ==> Letter(r.value) == c
  {
    if 'A' <= c <= 'Z' then Some(c as int - 'A' as int)
    else if 'a' <= c <= 'z' then Some(c as int - 'a' as int + 26)
    else if '0' <= c <= '9' then Some(c as int - '0' as int + 52)
    else if c == '+' then Some(62)
    else if c == '/' then Some(63)
    else None
  }

  /** The alphabet is a bijection between sextets and its 64 characters. */
  lemma ValueOfLetter(v: Sextet)
    ensures ValueOf(Letter(v)) == Some(v)
  {
  }

  /** ASCII whitespace as the Infra standard defines it: TAB, LF, FF, CR, SPACE. */
  predicate IsAsciiWhitespace(c: char) {
    c == '\t' || c == '\n' || c == '\U{C}' || c == '\r' || c == ' '
  }

  /** One full quantum: three bytes, 24 bits, as four sextets, most significant first. */
  function Quad(b0: Byte, b1: Byte, b2: Byte): (q: seq<Sextet>)
    ensures |q| == 4
  {
    [b0 / 4, (b0 % 4) * 16 + b1 / 16, (b1 % 16) * 4 + b2 / 64, b2 % 64]
  }

  /** Four sextets as three bytes. */
  function Triple(v0: Sextet, v1: Sextet, v2: Sextet, v3: Sextet): (t: seq<Byte>)
    ensures |t| == 3
  {
    var b0: int := v0 as int * 4 + v1 as int / 16;
    var b1: int := (v1 as int % 16) * 16 + v2 as int / 4;
    var b2: int := (v2 as int % 4) * 64 + v3 as int;
    [b0, b1, b2]
  }

  /** The arithmetic of one quantum: three bytes to four sextets and back. */
  lemma TripleOfQuad(b0: Byte, b1: Byte, b2: Byte)
    ensures var q := Quad(b0, b1, b2); Triple(q[0], q[1], q[2], q[3]) == [b0, b1, b2]
  {
    assert ((b0 % 4) * 16 + b1 / 16) / 16 == b0 % 4;
    assert ((b0 % 4) * 16 + b1 / 16) % 16 == b1 / 16;
    assert ((b1 % 16) * 4 + b2 / 64) / 4 == b1 % 16;
    assert ((b1 % 16) * 4 + b2 / 64) % 4 == b2 / 64;
  }

  /** The sextets of a byte string, three bytes to four sextets; a last
      group of one or two bytes gives two or three sextets, zero-filled. */
  function Sextets(b: seq<Byte>): (vs: seq<Sextet>)
    ensures |vs| == 4 * (|b| / 3) + (if |b| % 3 == 0 then 0 else |b| % 3 + 1)
  {
    if |b| == 0 then []
    else if |b| == 1 then Quad(b[0], 0, 0)[..2]
    else if |b| == 2 then Quad(b[0], b[1], 0)[..3]
    else Quad(b[0], b[1], b[2]) + Sextets(b[3..])
  }

  /** Sextets written as alphabet characters. */
  function Letters(vs: seq<Sextet>): (s: string)
    ensures |s| == |vs| && '=' !in s
    ensures forall i :: 0 <= i < |vs| ==> s[i] == Letter(vs[i])
  {
    seq(|vs|, i requires 0 <= i < |vs| => Letter(vs[i]))
  }

  /** The padding that completes the last quantum to four characters. */
  function Padding(n: nat): string {
    if n % 3 == 1 then "==" else if n % 3 == 2 then "=" else ""
  }

  /** Base64 encoding of a byte string (what `btoa` produces). The text is
      four characters per started group of three bytes, with at most two
      `=` and only at the end. */
  function Encode(b: seq<Byte>): (s: string)
    ensures |s| == 4 * ((|b| + 2) / 3)
    ensures forall i :: 0 <= i < |s| && s[i] == '=' ==> i >= |s| - 2
  {
    Letters(Sextets(b)) + Padding(|b|)
  }

  /** The input with every ASCII whitespace character removed. */
  function StripWhitespace(s: string): (r: string)
    ensures |r| <= |s|
    ensures forall i :: 0 <= i < |r| ==> !IsAsciiWhitespace(r[i])
  {
    if s == [] then []
    else if IsAsciiWhitespace(s[0]) then StripWhitespace(s[1..])
    else [s[0]] + StripWhitespace(s[1..])
  }

  /** When the length is a multiple of four, one or two trailing `=` are dropped. */
  function StripPadding(s: string): (r: string)
    ensures r <= s && |s| - 2 <= |r|
    ensures forall k :: |r| <= k < |s| ==> s[k] == '='
  {
    if |s| % 4 == 0 && |s| >= 2 && s[|s| - 1] == '=' && s[|s| - 2] == '=' then s[..|s| - 2]
    else if |s| % 4 == 0 && |s| >= 1 && s[|s| - 1] == '=' then s[..|s| - 1]
    else s
  }

  /** The sextet values of a string of alphabet characters; `None` if any character is not one. */
  function Values(s: string): (r: Option<seq<Sextet>>)
    ensures r.Some? ==> |r.value| == |s| && Letters(r.value) == s
  {
    if s == [] then Some([])
    else
      var rest := Values(s[1..]);
      if ValueOf(s[0]).None? || rest.None? then None
      else Some([ValueOf(s[0]).value] + rest.value)
  }

  /** One character outside the alphabet is enough for `Values` to refuse. */
  lemma {:induction false} ValuesRefuses(s: string, k: nat)
    requires k < |s| && ValueOf(s[k]).None?
    ensures Values(s) == None
  {
    if k > 0 {
      ValuesRefuses(s[1..], k - 1);
    }
  }

  /** Sextets back to bytes: four to three; a trailing two or three give
      one or two bytes, the leftover low bits being discarded. */
  function DecodeSextets(vs: seq<Sextet>): (b: seq<Byte>)
    requires |vs| % 4 != 1
    ensures |b| == 3 * (|vs| / 4) + (if |vs| % 4 == 0 then 0 else |vs| % 4 - 1)
  {
    if |vs| == 0 then []
    else if |vs| == 2 then Triple(vs[0], vs[1], 0, 0)[..1]
    else if |vs| == 3 then Triple(vs[0], vs[1], vs[2], 0)[..2]
    else Triple(vs[0], vs[1], vs[2], vs[3]) + DecodeSextets(vs[4..])
  }

  /** Forgiving base64 decoding (what `atob` does before building its
      string): `None` where `atob` throws. */
  function Decode(s: string): Option<seq<Byte>> {
    var t := StripPadding(StripWhitespace(s));
    if |t| % 4 == 1 then None
    else match Values(t)
      case None => None
      case Some(vs) => Some(DecodeSextets(vs))
  }

  /** `btoa(s)`: refuses (an InvalidCharacterError) a string with a code of 256 or more. */
  function Btoa(s: string): (r: Option<string>)
    ensures r.Some? <==> IsBinary(s)
  {
    if IsBinary(s) then Some(Encode(ByteValues(s))) else None
  }

  /** `atob(s)`: the decoded bytes as a binary string. */
  function Atob(s: string): (r: Option<string>)
    ensures r.Some? <==> Decode(s).Some?
    ensures r.Some? ==> IsBinary(r.value) && ByteValues(r.value) == Decode(s).value
  {
    match Decode(s)
    case None => None
    case Some(b) =>
      BytesRoundTrip(b);
      Some(BinaryString(b))
  }

  /** Decoding the sextets of a byte string gives the byte string back. */
  lemma {:induction false} DecodeSextetsOfBytes(b: seq<Byte>)
    ensures |Sextets(b)| % 4 != 1
    ensures DecodeSextets(Sextets(b)) == b
  {
    if |b| >= 3 {
      var q := Quad(b[0], b[1], b[2]);
      var rest := Sextets(b[3..]);
      DecodeSextetsOfBytes(b[3..]);
      assert Sextets(b) == q + rest;
      DecodeGroup(q, rest);
      TripleOfQuad(b[0], b[1], b[2]);
      assert b == [b[0], b[1], b[2]] + b[3..];
    } else if |b| == 2 {
      TripleOfQuad(b[0], b[1], 0);
    } else if |b| == 1 {
      TripleOfQuad(b[0], 0, 0);
    }
  }

  /** Decoding takes one full group off the front at a time. */
  lemma DecodeGroup(q: seq<Sextet>, rest: seq<Sextet>)
    requires |q| == 4 && |rest| % 4 != 1
    ensures |q + rest| % 4 != 1
    ensures DecodeSextets(q + rest) == Triple(q[0], q[1], q[2], q[3]) + DecodeSextets(rest)
  {
    assert (q + rest)[4..] == rest;
  }

  /** A string with no whitespace is left alone by the whitespace filter. */
  lemma {:induction false} StripNoWhitespace(s: string)
    requires forall i :: 0 <= i < |s| ==> !IsAsciiWhitespace(s[i])
    ensures StripWhitespace(s) == s
  {
    if s != [] {
      StripNoWhitespace(s[1..]);
    }
  }

  /** The values of a string of letters are the sextets it was written from. */
  lemma {:induction false} ValuesOfLetters(vs: seq<Sextet>)
    ensures Values(Letters(vs)) == Some(vs)
  {
    if vs != [] {
      assert Letters(vs)[1..] == Letters(vs[1..]);
      ValuesOfLetters(vs[1..]);
      ValueOfLetter(vs[0]);
      assert [vs[0]] + vs[1..] == vs;
    }
  }

  /** Encoded text keeps its letters once the padding is stripped. */
  lemma StripPaddingOfEncode(b: seq<Byte>)
    ensures StripPadding(Encode(b)) == Letters(Sextets(b))
  {
    var letters := Letters(Sextets(b));
    var n := |b|;
    assert Encode(b) == letters + Padding(n);
    if n % 3 == 0 {
      assert |letters| % 4 == 0 by {
        assert |letters| == 4 * (n / 3);
      }
      assert letters + Padding(n) == letters;
      StripPaddingUnpadded(letters);
    } else if n % 3 == 1 {
      assert |letters| % 4 == 2 by {
        assert |letters| == 4 * (n / 3) + 2;
      }
      StripPaddingTwo(letters);
    } else {
      assert |letters| % 4 == 3 by {
        assert |letters| == 4 * (n / 3) + 3;
      }
      StripPaddingOne(letters);
    }
  }

  lemma StripPaddingUnpadded(letters: string)
    requires |letters| % 4 == 0 && '=' !in letters
    ensures StripPadding(letters) == letters
  {
    if |letters| >= 1 {
      assert letters[|letters| - 1] in letters;
    }
  }

  lemma StripPaddingTwo(letters: string)
    requires |letters| % 4 == 2
    ensures StripPadding(letters + "==") == letters
  {
    var s := letters + "==";
    assert |s| % 4 == 0 && |s| >= 2 by {
      assert |s| == |letters| + 2;
    }
    assert s[|s| - 1] == '=' && s[|s| - 2] == '=';
    assert s[..|s| - 2] == letters;
  }

  lemma StripPaddingOne(letters: string)
    requires |letters| % 4 == 3 && '=' !in letters
    ensures StripPadding(letters + "=") == letters
  {
    var s := letters + "=";
    assert s[|s| - 2] == letters[|letters| - 1];
    assert s[|s| - 2] in letters;
    assert s[..|s| - 1] == letters;
  }

  /** The round trip base64 promises: decoding what was encoded gives the bytes back. */
  lemma DecodeEncode(b: seq<Byte>)
    ensures Decode(Encode(b)) == Some(b)
  {
    var s := Encode(b);
    StripNoWhitespace(s);
    StripPaddingOfEncode(b);
    DecodeSextetsOfBytes(b);
    ValuesOfLetters(Sextets(b));
  }

  /** `atob` is forgiving: the same bytes come back when the padding is left off. */
  lemma DecodeUnpadded(b: seq<Byte>)
    ensures Decode(Letters(Sextets(b))) == Some(b)
  {
    var s := Letters(Sextets(b));
    StripNoWhitespace(s);
    assert StripPadding(s) == s by {
      if |s| >= 1 {
        assert s[|s| - 1] != '=';
      }
    }
    DecodeSextetsOfBytes(b);
    ValuesOfLetters(Sextets(b));
  }

  /** A character outside the alphabet, other than whitespace or final padding, is refused. */
  lemma DecodeRefusesStray(s: string, i: nat)
    requires i < |s| && ValueOf(s[i]).None? && s[i] != '=' && !IsAsciiWhitespace(s[i])
    ensures Decode(s) == None
  {
    var w := StripWhitespace(s);
    var t := StripPadding(w);
    StrayKept(s, i);
    var j :| 0 <= j < |w| && w[j] == s[i];
    assert j < |t|;
    assert t[j] == s[i];
    ValuesRefuses(t, j);
  }

  lemma {:induction false} StrayKept(s: string, i: nat)
    requires i < |s| && !IsAsciiWhitespace(s[i])
    ensures exists j :: 0 <= j < |StripWhitespace(s)| && StripWhitespace(s)[j] == s[i]
  {
    if i == 0 {
      assert StripWhitespace(s)[0] == s[0];
    } else {
      StrayKept(s[1..], i - 1);
      var j :| 0 <= j < |StripWhitespace(s[1..])| && StripWhitespace(s[1..])[j] == s[1..][i - 1];
      if IsAsciiWhitespace(s[0]) {
        assert StripWhitespace(s)[j] == s[i];
      } else {
        assert StripWhitespace(s)[j + 1] == s[i];
      }
    }
  }

  /** A text whose significant length is 4n+1 is refused. */
  lemma DecodeRefusesLength(s: string)
    requires |StripPadding(StripWhitespace(s))| % 4 == 1
    ensures Decode(s) == None
  {
  }

  /** `arrayBufferToBase64`: the bytes to a binary string, then `btoa`,
      which cannot refuse a binary string; the text is the bytes' base64. */
  method ArrayBufferToBase64(bytes: seq<Byte>) returns (text: string)
    ensures Btoa(BinaryString(bytes)) == Some(text) && text == Encode(bytes)
    ensures Decode(text) == Some(bytes)
  {
    var binary := ArrayBufferToBinary(bytes);
    BytesRoundTrip(bytes);
    text := Btoa(binary).value;
    DecodeEncode(bytes);
  }

  /** `base64ToArrayBuffer`: `atob`, then one `charCodeAt` per character;
      `None` where `atob` throws. */
  method Base64ToArrayBuffer(text: string) returns (bytes: Option<seq<Byte>>)
    ensures bytes == Decode(text)
  {
    var binary := Atob(text);
    if binary.None? {
      bytes := None;
    } else {
      var b := BinaryToArrayBuffer(binary.value);
      bytes := Some(b);
    }
  }
}
