/**
 * The line handling the three streaming clients share (services/openrouter.ts,
 * services/huggingface.ts, services/groq.ts). Each client reads the response
 * body chunk by chunk, splits a chunk into lines at `\n` (a line cut by a
 * chunk boundary is not joined back together), and then looks at each line
 * in turn. Looking at a line forwards some content to `onStream`, skips the
 * line, or ends the read. The clients differ only in how they classify a
 * line and whether they first drop blank lines; the loop itself is the
 * method `ReadStream`.
 */
module StreamLines {
  import opened JsString
  import opened Lists

  /** What one line leads to. */
  datatype LineAction = Skip | Forward(content: string) | Stop

  /** What a read loop has done so far: the contents passed to `onStream`
      in order, and whether a line ended the read. */
  datatype Scanned = Scanned(forwarded: seq<string>, stopped: bool)

  const DATA_PREFIX: string := "data: "
  const DONE_LINE: string := "data: [DONE]"

  /** The lines of a chunk: `chunk.split("\n")`, without the blank ones
      when the client filters them out. */
  function ChunkLines(chunk: string, dropBlank: bool): (r: seq<string>)
    ensures dropBlank ==> forall i :: 0 <= i < |r| ==> !IsBlank(r[i])
    ensures !dropBlank ==> r == Split(chunk, '\n')
  {
    if dropBlank then Filter(Split(chunk, '\n'), NotBlank) else Split(chunk, '\n')
  }

  function NotBlank(line: string): bool {
    !IsBlank(line)
  }

  /** The actions of the lines of a chunk, in order. */
  function ChunkActions(chunk: string, classify: string -> LineAction, dropBlank: bool): (r: seq<LineAction>)
    ensures |r| == |ChunkLines(chunk, dropBlank)|
  {
    var lines := ChunkLines(chunk, dropBlank);
    seq(|lines|, i requires 0 <= i < |lines| => classify(lines[i]))
  }

  /** The actions of all the lines of a body, chunk after chunk. */
  function Actions(chunks: seq<string>, classify: string -> LineAction, dropBlank: bool): seq<LineAction> {
    FlatMap(chunks, ChunkActionsOf(classify, dropBlank))
  }

  function ChunkActionsOf(classify: string -> LineAction, dropBlank: bool): string -> seq<LineAction> {
    (chunk: string) => ChunkActions(chunk, classify, dropBlank)
  }

  /** One more line taken into account: nothing changes after a stop. */
  function Step(acc: Scanned, a: LineAction): Scanned {
    if acc.stopped then acc
    else match a
      case Skip => acc
      case Forward(c) => acc.(forwarded := acc.forwarded + [c])
      case Stop => acc.(stopped := true)
  }

  /** The effect of a run of actions taken one after the other, starting
      from what an earlier part of the read has done. */
  function Resume(acc: Scanned, actions: seq<LineAction>): Scanned {
    if actions == [] then acc
    else Step(Resume(acc, actions[..|actions| - 1]), actions[|actions| - 1])
  }

  /** The effect of a whole read. */
  function Scan(actions: seq<LineAction>): Scanned {
    Resume(Scanned([], false), actions)
  }

  /** An independent reading of the same loop, from the front: the contents
      of the forwards up to the first stop. */
  function Forwarded(actions: seq<LineAction>): seq<string> {
    if actions == [] then []
    else match actions[0]
      case Stop => []
      case Skip => Forwarded(actions[1..])
      case Forward(c) => [c] + Forwarded(actions[1..])
  }

  lemma {:induction false} ForwardedAppend(a: seq<LineAction>, x: LineAction)
    ensures Stop in a ==> Forwarded(a + [x]) == Forwarded(a)
    ensures Stop !in a ==> Forwarded(a + [x]) == Forwarded(a) + (if x.Forward? then [x.content] else [])
  {
    if a != [] {
      assert (a + [x])[1..] == a[1..] + [x];
      ForwardedAppend(a[1..], x);
    }
  }

  /** The loop forwards exactly the contents before the first stop, and it
      stops exactly when some line calls for it. */
  lemma {:induction false} ScanForwarded(actions: seq<LineAction>)
    ensures Scan(actions).forwarded == Forwarded(actions)
    ensures Scan(actions).stopped <==> Stop in actions
  {
    if actions != [] {
      var init := actions[..|actions| - 1];
      ScanForwarded(init);
      ForwardedAppend(init, actions[|actions| - 1]);
      assert actions == init + [actions[|actions| - 1]];
    }
  }

  /** A client none of whose lines ends the read takes every line of the body into account. */
  lemma {:induction false} NeverStops(chunks: seq<string>, classify: string -> LineAction, dropBlank: bool)
    requires forall line :: classify(line) != Stop
    ensures Stop !in Actions(chunks, classify, dropBlank)
    ensures Scan(Actions(chunks, classify, dropBlank)) == Scanned(Forwarded(Actions(chunks, classify, dropBlank)), false)
    decreases |chunks|
  {
    if chunks != [] {
      NeverStops(chunks[..|chunks| - 1], classify, dropBlank);
    }
    ScanForwarded(Actions(chunks, classify, dropBlank));
  }

  /** A client that forwards no line finds no forward among a body's actions. */
  lemma {:induction false} NoForwardInActions(chunks: seq<string>, classify: string -> LineAction, dropBlank: bool)
    requires forall line :: !classify(line).Forward?
    ensures forall i :: 0 <= i < |Actions(chunks, classify, dropBlank)| ==> !Actions(chunks, classify, dropBlank)[i].Forward?
    decreases |chunks|
  {
    if chunks != [] {
      NoForwardInActions(chunks[..|chunks| - 1], classify, dropBlank);
      ActionsStep(chunks, |chunks| - 1, classify, dropBlank);
      assert chunks[..|chunks|] == chunks;
    }
  }

  /** Without forwards nothing is forwarded. */
  lemma {:induction false} NothingForwarded(actions: seq<LineAction>)
    requires forall i :: 0 <= i < |actions| ==> !actions[i].Forward?
    ensures Forwarded(actions) == []
  {
    if actions != [] {
      NothingForwarded(actions[1..]);
    }
  }

  /** Reading two runs of lines is reading the first, then the second. */
  lemma {:induction false} ResumeAppend(acc: Scanned, a: seq<LineAction>, b: seq<LineAction>)
    ensures Resume(acc, a + b) == Resume(Resume(acc, a), b)
    decreases |b|
  {
    if b == [] {
      assert a + b == a;
    } else {
      var b' := b[..|b| - 1];
      assert (a + b)[..|a + b| - 1] == a + b';
      ResumeAppend(acc, a, b');
    }
  }

  /** Once a read has stopped, later lines change nothing. */
  lemma {:induction false} ResumeStopped(acc: Scanned, b: seq<LineAction>)
    requires acc.stopped
    ensures Resume(acc, b) == acc
    decreases |b|
  {
    if b != [] {
      ResumeStopped(acc, b[..|b| - 1]);
    }
  }

  /** The body's actions split at a chunk boundary. */
  lemma ActionsAppend(x: seq<string>, y: seq<string>, classify: string -> LineAction, dropBlank: bool)
    ensures Actions(x + y, classify, dropBlank) == Actions(x, classify, dropBlank) + Actions(y, classify, dropBlank)
  {
    FlatMapAppend(x, y, ChunkActionsOf(classify, dropBlank));
  }

  /** The lines of one chunk, one after the other, until a line ends the read. */
  method ReadLines(acc: Scanned, lines: seq<string>, classify: string -> LineAction) returns (r: Scanned)
    requires !acc.stopped
    ensures r == Resume(acc, seq(|lines|, i requires 0 <= i < |lines| => classify(lines[i])))
  {
    ghost var acts := seq(|lines|, i requires 0 <= i < |lines| => classify(lines[i]));
    r := acc;
    for i := 0 to |lines|
      invariant r == Resume(acc, acts[..i]) && !r.stopped
    {
      assert acts[..i + 1][..i] == acts[..i];
      match classify(lines[i])
      case Skip =>
      case Forward(content) =>
        r := r.(forwarded := r.forwarded + [content]);
      case Stop =>
        r := r.(stopped := true);
        ResumeAppend(acc, acts[..i + 1], acts[i + 1..]);
        ResumeStopped(r, acts[i + 1..]);
        assert acts[..i + 1] + acts[i + 1..] == acts;
        return;
    }
    assert acts[..|lines|] == acts;
  }

  /** A read that stopped within the first `c` chunks ends as it would after the whole body. */
  lemma StoppedEarly(chunks: seq<string>, c: nat, classify: string -> LineAction, dropBlank: bool)
    requires c <= |chunks| && Scan(Actions(chunks[..c], classify, dropBlank)).stopped
    ensures Scan(Actions(chunks, classify, dropBlank)) == Scan(Actions(chunks[..c], classify, dropBlank))
  {
    var head, tail := chunks[..c], chunks[c..];
    ghost var rest := Actions(tail, classify, dropBlank);
    ResumeAppend(Scanned([], false), Actions(head, classify, dropBlank), rest);
    ResumeStopped(Scan(Actions(head, classify, dropBlank)), rest);
    ActionsAppend(head, tail, classify, dropBlank);
    assert head + tail == chunks;
  }

  lemma ActionsStep(chunks: seq<string>, c: nat, classify: string -> LineAction, dropBlank: bool)
    requires c < |chunks|
    ensures Actions(chunks[..c + 1], classify, dropBlank)
         == Actions(chunks[..c], classify, dropBlank) + ChunkActions(chunks[c], classify, dropBlank)
  {
    assert chunks[..c + 1][..c] == chunks[..c];
  }

  /** The read loop: chunk by chunk, line by line, forwarding contents
      until a line ends the read or the body ends. */
  method ReadStream(chunks: seq<string>, classify: string -> LineAction, dropBlank: bool) returns (r: Scanned)
    ensures r == Scan(Actions(chunks, classify, dropBlank))
  {
    r := Scanned([], false);
    var c := 0;
    while c < |chunks|
      invariant 0 <= c <= |chunks|
      invariant r == Scan(Actions(chunks[..c], classify, dropBlank)) && !r.stopped
    {
      var lines := ChunkLines(chunks[c], dropBlank);
      r := ReadLines(r, lines, classify);
      ActionsStep(chunks, c, classify, dropBlank);
      ResumeAppend(Scanned([], false), Actions(chunks[..c], classify, dropBlank), ChunkActions(chunks[c], classify, dropBlank));
      c := c + 1;
      if r.stopped {
        StoppedEarly(chunks, c, classify, dropBlank);
        return;
      }
    }
    assert chunks[..c] == chunks;
  }
}
