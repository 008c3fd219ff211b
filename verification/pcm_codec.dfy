/**
 * The sample codec of the live voice client (services/liveGemini.ts,
 * `float32ToInt16` and `int16ToFloat32`): normalised samples, idealised as
 * mathematical reals, to and from 16-bit linear PCM, and the little-endian
 * byte view of an `Int16Array`'s buffer.
 */
module PcmCodec {
  import opened Wrappers

  /** A signed 16-bit PCM sample. */
  type Int16 = k: int | -32768 <= k <= 32767

  /** An unsigned byte, as stored in a `Uint8Array`. */
  type Byte = b: int | 0 <= b < 256

  /** The largest positive sample value, `0x7FFF`. */
  const POS_SCALE: real := 32767.0
  /** The magnitude of the most negative sample value, `0x8000`. */
  const NEG_SCALE: real := 32768.0

  /** `Math.max(-1, Math.min(1, s))`. */
  function Clamp(s: real): (c: real)
    ensures -1.0 <= c <= 1.0
    ensures -1.0 <= s <= 1.0 ==> c == s
    ensures s < -1.0 ==> c == -1.0
    ensures s > 1.0 ==> c == 1.0
  {
    if s < -1.0 then -1.0 else if s > 1.0 then 1.0 else s
  }

  /** Truncation toward zero, the first step of storing a number into an integer typed array. */
  function Trunc(x: real): (r: int)
    ensures x >= 0.0 ==> 0 <= r && r as real <= x < r as real + 1.0
    ensures x < 0.0 ==> r <= 0 && r as real - 1.0 < x <= r as real
  {
    if x >= 0.0 then x.Floor else -((-x).Floor)
  }

  /** Storing a number into an `Int16Array` slot: truncate, then wrap modulo 2^16. */
  function ToInt16(x: real): (k: Int16)
    ensures -32768 <= Trunc(x) <= 32767 ==> k == Trunc(x)
  {
    (Trunc(x) + 32768) % 65536 - 32768
  }

  /** One step of `float32ToInt16`: clamp, scale negatives by 0x8000 and the
      rest by 0x7FFF, store as int16. The result keeps the sign of the sample
      and is the scaled value truncated toward zero (no wrap-around happens). */
  function EncodeSample(s: real): (k: Int16)
    ensures s < 0.0 ==> k <= 0 && k as real - 1.0 < Clamp(s) * NEG_SCALE <= k as real
    ensures s >= 0.0 ==> k >= 0 && k as real <= Clamp(s) * POS_SCALE < k as real + 1.0
  {
    var c := Clamp(s);
    if c < 0.0 then ToInt16(c * NEG_SCALE) else ToInt16(c * POS_SCALE)
  }

  /** One step of `int16ToFloat32`: non-negative samples over 0x7FFF,
      negative ones over 0x8000. The result lies in [-1, 1] and has the sign of `k`. */
  function DecodeSample(k: Int16): (x: real)
    ensures -1.0 <= x <= 1.0
    ensures (x < 0.0) == (k < 0) && (x == 0.0) == (k == 0)
  {
    if k >= 0 then k as real / POS_SCALE else k as real / NEG_SCALE
  }

  /** Decoding then encoding gives back every 16-bit sample exactly. */
  lemma EncodeDecode(k: Int16)
    ensures EncodeSample(DecodeSample(k)) == k
  {
    var x := DecodeSample(k);
    if k >= 0 {
      assert x * POS_SCALE == k as real;
    } else {
      assert x * NEG_SCALE == k as real;
    }
  }

  /** Encoding then decoding a sample in [-1, 1] loses less than one
      quantisation step (1/32767). */
  lemma DecodeEncodeWithinStep(s: real)
    requires -1.0 <= s <= 1.0
    ensures -1.0 / POS_SCALE < DecodeSample(EncodeSample(s)) - s < 1.0 / POS_SCALE
  {
    var k := EncodeSample(s);
    if s < 0.0 {
      assert k as real - 1.0 < s * NEG_SCALE <= k as real;
      if k < 0 {
        assert DecodeSample(k) * NEG_SCALE == k as real;
      }
    } else {
      assert k as real <= s * POS_SCALE < k as real + 1.0;
      assert DecodeSample(k) * POS_SCALE == k as real;
    }
  }

  /** `float32ToInt16`: a fresh `Int16Array` of the same length, filled
      sample by sample. */
  method Float32ToInt16(samples: seq<real>) returns (pcm: seq<Int16>)
    ensures |pcm| == |samples|
    ensures forall i :: 0 <= i < |samples| ==> pcm[i] == EncodeSample(samples[i])
  {
    var int16 := new Int16[|samples|];
    for i := 0 to |samples|
      invariant forall j :: 0 <= j < i ==> int16[j] == EncodeSample(samples[j])
    {
      int16[i] := EncodeSample(samples[i]);
    }
    pcm := int16[..];
  }

  /** `int16ToFloat32` after the `Int16Array` view: a fresh `Float32Array`
      of the same length, filled sample by sample. */
  method Int16ToFloat32(pcm: seq<Int16>) returns (samples: seq<real>)
    ensures |samples| == |pcm|
    ensures forall i :: 0 <= i < |pcm| ==> samples[i] == DecodeSample(pcm[i])
  {
    var float32 := new real[|pcm|];
    for i := 0 to |pcm|
      invariant forall j :: 0 <= j < i ==> float32[j] == DecodeSample(pcm[j])
    {
      float32[i] := DecodeSample(pcm[i]);
    }
    samples := float32[..];
  }

  /** The low byte of a sample in two's complement. */
  function Lo(k: Int16): Byte { (k % 65536) % 256 }

  /** The high byte of a sample in two's complement. */
  function Hi(k: Int16): Byte { (k % 65536) / 256 }

  /** The sample a little-endian byte pair stands for. */
  function Combine(lo: Byte, hi: Byte): Int16 {
    var u := lo + 256 * hi;
    if u >= 32768 then u - 65536 else u
  }

  /** A sample and its byte pair determine each other. */
  lemma CombineSplit(k: Int16)
    ensures Combine(Lo(k), Hi(k)) == k
  {
  }

  lemma SplitCombine(lo: Byte, hi: Byte)
    ensures Lo(Combine(lo, hi)) == lo && Hi(Combine(lo, hi)) == hi
  {
  }

  /** The bytes of an `Int16Array`'s buffer, low byte first. */
  function LittleEndianBytes(pcm: seq<Int16>): (bytes: seq<Byte>)
    ensures |bytes| == 2 * |pcm|
  {
    if pcm == [] then [] else [Lo(pcm[0]), Hi(pcm[0])] + LittleEndianBytes(pcm[1..])
  }

  /** Consecutive byte pairs read as samples. */
  function Pairs(bytes: seq<Byte>): (pcm: seq<Int16>)
    ensures |pcm| == |bytes| / 2
  {
    if |bytes| < 2 then [] else [Combine(bytes[0], bytes[1])] + Pairs(bytes[2..])
  }

  /** `new Int16Array(buffer)`: a buffer of odd length is refused (a RangeError). */
  function Int16View(bytes: seq<Byte>): (r: Option<seq<Int16>>)
    ensures r.Some? <==> |bytes| % 2 == 0
    ensures r.Some? ==> |r.value| == |bytes| / 2
  {
    if |bytes| % 2 == 1 then None else Some(Pairs(bytes))
  }

  /** Viewing the buffer of an `Int16Array` as an `Int16Array` again gives the same samples. */
  lemma {:induction false} ViewOfBytes(pcm: seq<Int16>)
    ensures Int16View(LittleEndianBytes(pcm)) == Some(pcm)
  {
    PairsOfBytes(pcm);
  }

  lemma {:induction false} PairsOfBytes(pcm: seq<Int16>)
    ensures Pairs(LittleEndianBytes(pcm)) == pcm
  {
    if pcm != [] {
      var b := LittleEndianBytes(pcm);
      assert b[2..] == LittleEndianBytes(pcm[1..]);
      PairsOfBytes(pcm[1..]);
      CombineSplit(pcm[0]);
    }
  }

  /** Every even-length buffer is the buffer of the samples it is viewed as. */
  lemma {:induction false} BytesOfView(bytes: seq<Byte>)
    requires |bytes| % 2 == 0
    ensures LittleEndianBytes(Pairs(bytes)) == bytes
  {
    if |bytes| >= 2 {
      BytesOfView(bytes[2..]);
      SplitCombine(bytes[0], bytes[1]);
      assert bytes == [bytes[0], bytes[1]] + bytes[2..];
    }
  }
}
