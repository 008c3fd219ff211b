/**
 * The playback side of the live voice client (services/liveGemini.ts,
 * `queueAudio` and the `onended` callback): inbound base64 chunks of 16-bit
 * PCM at 24 kHz become frames, each scheduled on the audio clock at the
 * later of the playback cursor and the current time, the cursor then moving
 * on by the frame's duration.
 */
module LiveAudio {
  import opened Wrappers
  import opened PcmCodec
  import opened Base64

  /** The sample rate `queueAudio` gives every reply buffer. */
  const OUTPUT_RATE: real := 24000.0

  /** A scheduled buffer: its start on the audio clock and its samples. */
  datatype Frame = Frame(start: real, samples: seq<real>)

  function Duration(n: nat): (d: real)
    ensures d >= 0.0
  {
    n as real / OUTPUT_RATE
  }

  function End(f: Frame): real {
    f.start + Duration(|f.samples|)
  }

  function Max(a: real, b: real): (m: real)
    ensures m >= a && m >= b && (m == a || m == b)
  {
    if a < b then b else a
  }

  /** Each frame ends no later than the next one starts. */
  predicate Chained(frames: seq<Frame>) {
    forall i :: 0 < i < |frames| ==> End(frames[i - 1]) <= frames[i].start
  }

  /** Frames of a chained schedule never overlap, however far apart they are. */
  lemma {:induction false} ChainedDisjoint(frames: seq<Frame>, i: nat, j: nat)
    requires Chained(frames) && i < j < |frames|
    ensures End(frames[i]) <= frames[j].start
    decreases j - i
  {
    if i + 1 < j {
      ChainedDisjoint(frames, i + 1, j);
      assert End(frames[i + 1]) >= frames[i + 1].start;
    }
  }

  /** Two chained schedules, the second starting after the first ends, chain. */
  lemma ChainedAppend(a: seq<Frame>, b: seq<Frame>)
    requires Chained(a) && Chained(b)
    requires |a| > 0 && |b| > 0 ==> End(a[|a| - 1]) <= b[0].start
    ensures Chained(a + b)
  {
    forall i | 0 < i < |a + b| ensures End((a + b)[i - 1]) <= (a + b)[i].start {
      if i < |a| {
        assert (a + b)[i - 1] == a[i - 1] && (a + b)[i] == a[i];
      } else if i == |a| {
        assert (a + b)[i - 1] == a[|a| - 1] && (a + b)[i] == b[0];
      } else {
        assert (a + b)[i - 1] == b[i - 1 - |a|] && (a + b)[i] == b[i - |a|];
      }
    }
  }

  /** The samples a base64 chunk stands for; `None` where `queueAudio` throws:
      `atob` refuses the text, the byte count is odd (the `Int16Array` view),
      or there are no samples (an empty `createBuffer`). */
  function Pcm(data: string): (r: Option<seq<Int16>>)
    ensures r.Some? ==> |r.value| > 0
  {
    match Decode(data)
    case None => None
    case Some(bytes) =>
      match Int16View(bytes)
      case None => None
      case Some(pcm) => if |pcm| == 0 then None else Some(pcm)
  }

  /** The samples of a chunk are exactly what its decoded bytes encode, and
      a chunk is refused only when its bytes are not a non-empty run of whole samples. */
  lemma PcmBytes(data: string)
    ensures Pcm(data).Some? ==> Decode(data) == Some(LittleEndianBytes(Pcm(data).value))
    ensures Pcm(data).None? ==> Decode(data).None? || |Decode(data).value| % 2 == 1 || Decode(data).value == []
  {
    if Pcm(data).Some? {
      BytesOfView(Decode(data).value);
    }
  }

  /** The chunk the client sends is read back as the very samples it was made from. */
  lemma PcmOfEncoded(pcm: seq<Int16>)
    requires |pcm| > 0
    ensures Pcm(Encode(LittleEndianBytes(pcm))) == Some(pcm)
  {
    DecodeEncode(LittleEndianBytes(pcm));
    ViewOfBytes(pcm);
  }

  /** `int16ToFloat32` as a value: every sample decoded. */
  function DecodeBlock(pcm: seq<Int16>): (x: seq<real>)
    ensures |x| == |pcm|
    ensures forall i :: 0 <= i < |pcm| ==> x[i] == DecodeSample(pcm[i])
  {
    seq(|pcm|, i requires 0 <= i < |pcm| => DecodeSample(pcm[i]))
  }

  /** Every payload of a message, decoded on its own. */
  function Chunks(datas: seq<string>): seq<Option<seq<Int16>>> {
    seq(|datas|, i requires 0 <= i < |datas| => Pcm(datas[i]))
  }

  /** Decoding one more payload adds its samples (or its refusal) at the end. */
  lemma ChunksAppend(datas: seq<string>, d: string)
    ensures Chunks(datas + [d]) == Chunks(datas) + [Pcm(d)]
  {
    var r := Chunks(datas + [d]);
    assert forall i :: 0 <= i < |datas| ==> r[i] == Chunks(datas)[i];
  }

  /** Decoding a leading run of payloads gives the leading run of decodings. */
  lemma ChunksPrefix(datas: seq<string>, k: nat)
    requires k <= |datas|
    ensures Chunks(datas[..k]) == Chunks(datas)[..k]
  {
  }

  /** The blocks played from a run of decoded chunks: the leading chunks that
      decoded, up to the first one that did not (where the message handler
      throws and stops). */
  function Blocks(chunks: seq<Option<seq<Int16>>>): (r: seq<seq<real>>)
    ensures |r| <= |chunks|
  {
    if chunks == [] then []
    else
      var prefix := chunks[..|chunks| - 1];
      var b := Blocks(prefix);
      var last := chunks[|chunks| - 1];
      if |b| == |prefix| && last.Some? then b + [DecodeBlock(last.value)] else b
  }

  /** The blocks are the leading chunks that decoded, each decoded sample by
      sample, and the chunk after them, if any, is one that did not decode. */
  lemma {:induction false} BlocksLeading(chunks: seq<Option<seq<Int16>>>)
    ensures forall i :: 0 <= i < |Blocks(chunks)| ==> chunks[i].Some? && Blocks(chunks)[i] == DecodeBlock(chunks[i].value)
    ensures |Blocks(chunks)| < |chunks| ==> chunks[|Blocks(chunks)|].None?
  {
    if chunks != [] {
      var prefix := chunks[..|chunks| - 1];
      BlocksLeading(prefix);
      assert forall i :: 0 <= i < |prefix| ==> prefix[i] == chunks[i];
    }
  }

  /** Past the first chunk that did not decode, later chunks play no part. */
  lemma {:induction false} BlocksStop(chunks: seq<Option<seq<Int16>>>, k: nat)
    requires k < |chunks| && |Blocks(chunks[..k])| == k && chunks[k].None?
    ensures Blocks(chunks) == Blocks(chunks[..k])
    decreases |chunks|
  {
    if |chunks| > k + 1 {
      var prefix := chunks[..|chunks| - 1];
      assert prefix[..k] == chunks[..k] && prefix[k] == chunks[k];
      BlocksStop(prefix, k);
    } else {
      assert chunks[..|chunks| - 1] == chunks[..k];
    }
  }

  /** The cursor after scheduling `blocks` from cursor `c` at time `now`. */
  function CursorAfter(c: real, now: real, blocks: seq<seq<real>>): (r: real)
    ensures r >= c
    ensures |blocks| > 0 ==> r >= now
  {
    if blocks == [] then c
    else
      var prefix := blocks[..|blocks| - 1];
      Max(CursorAfter(c, now, prefix), now) + Duration(|blocks[|blocks| - 1]|)
  }

  /** The frames `queueAudio` schedules for `blocks`, one call per block, from
      cursor `c` at time `now`: in order, each at or after `now` and after the
      cursor, none overlapping, the last ending at the new cursor. */
  function Schedule(c: real, now: real, blocks: seq<seq<real>>): (r: seq<Frame>)
    ensures |r| == |blocks|
    ensures forall i :: 0 <= i < |r| ==> r[i].samples == blocks[i] && r[i].start >= now && r[i].start >= c
    ensures Chained(r)
    ensures |r| > 0 ==> End(r[|r| - 1]) == CursorAfter(c, now, blocks)
  {
    if blocks == [] then []
    else
      var prefix := blocks[..|blocks| - 1];
      var f := Schedule(c, now, prefix);
      var frame := Frame(Max(CursorAfter(c, now, prefix), now), blocks[|blocks| - 1]);
      ChainedAppend(f, [frame]);
      f + [frame]
  }
}
