/**
 * The inner loops of the live voice client's byte <-> text helpers
 * (services/liveGemini.ts, `arrayBufferToBase64` and `base64ToArrayBuffer`):
 * bytes become a "binary string" of one character per byte, and the
 * characters' codes become bytes again.
 */
module BinaryText {
  import opened PcmCodec

  /** The binary string of a buffer: one character per byte, the character's code being the byte. */
  function BinaryString(bytes: seq<Byte>): (binary: string)
    ensures |binary| == |bytes|
    ensures forall i :: 0 <= i < |bytes| ==> binary[i] as int == bytes[i]
  {
    seq(|bytes|, i requires 0 <= i < |bytes| => bytes[i] as char)
  }

  /** `bytes[i] = s.charCodeAt(i)` into a `Uint8Array`: the code, wrapped modulo 256. */
  function ByteValues(s: string): (bytes: seq<Byte>)
    ensures |bytes| == |s|
    ensures forall i :: 0 <= i < |s| ==> bytes[i] == s[i] as int % 256
  {
    seq(|s|, i requires 0 <= i < |s| => s[i] as int % 256)
  }

  /** Every character of `s` has a code below 256 (what `btoa` accepts and `atob` produces). */
  predicate IsBinary(s: string) {
    forall i :: 0 <= i < |s| ==> s[i] as int < 256
  }

  /** The loop of `arrayBufferToBase64` before `btoa`: one `String.fromCharCode` per byte. */
  method ArrayBufferToBinary(bytes: seq<Byte>) returns (binary: string)
    ensures binary == BinaryString(bytes)
  {
    binary := "";
    for i := 0 to |bytes|
      invariant |binary| == i
      invariant forall j :: 0 <= j < i ==> binary[j] as int == bytes[j]
    {
      binary := binary + [bytes[i] as char];
    }
  }

  /** The loop of `base64ToArrayBuffer` after `atob`: one `charCodeAt` per character. */
  method BinaryToArrayBuffer(binary: string) returns (bytes: seq<Byte>)
    ensures bytes == ByteValues(binary)
  {
    var arr := new Byte[|binary|];
    for i := 0 to |binary|
      invariant forall j :: 0 <= j < i ==> arr[j] == binary[j] as int % 256
    {
      arr[i] := binary[i] as int % 256;
    }
    bytes := arr[..];
  }

  /** Bytes -> binary string -> bytes is the identity. */
  lemma BytesRoundTrip(bytes: seq<Byte>)
    ensures ByteValues(BinaryString(bytes)) == bytes
    ensures IsBinary(BinaryString(bytes))
  {
    var r := ByteValues(BinaryString(bytes));
    assert forall i :: 0 <= i < |bytes| ==> r[i] == bytes[i];
  }

  /** A binary string -> bytes -> binary string is the identity. */
  lemma BinaryRoundTrip(s: string)
    requires IsBinary(s)
    ensures BinaryString(ByteValues(s)) == s
  {
    var r := BinaryString(ByteValues(s));
    forall i | 0 <= i < |s| ensures r[i] == s[i] {
      assert r[i] as int == s[i] as int;
    }
  }
}
