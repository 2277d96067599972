/** What the streaming branch of the handler writes downstream: every upstream chunk whose text
    contains `[DONE]` is dropped whole, every other chunk is written byte for byte, in order, with
    the keep-alive comments of the heartbeat timer interleaved between them. */
module StreamForwarding {

  newtype byte = x: int | 0 <= x < 256

  /** One `data` event of the upstream stream, as the bytes it carries. */
  type Chunk = seq<byte>

  /** The bytes of an ASCII string. */
  function Ascii(s: string): (bytes: seq<byte>)
    requires forall i :: 0 <= i < |s| ==> s[i] as int < 128
    ensures |bytes| == |s|
    ensures forall i :: 0 <= i < |s| ==> bytes[i] as int == s[i] as int
  {
    seq(|s|, i requires 0 <= i < |s| => s[i] as int as byte)
  }

  /** The stream terminator text the handler looks for. */
  const DoneText: seq<byte> := Ascii("[DONE]")

  /** The comment frame the heartbeat writes every ten seconds. */
  const KeepAliveFrame: Chunk := Ascii(": keep-alive\n\n")

  /** `needle` occurs in `hay` starting at position `i`. */
  predicate OccursAt(hay: seq<byte>, needle: seq<byte>, i: int) {
    0 <= i && i + |needle| <= |hay| && hay[i..i + |needle|] == needle
  }

  /** `includes`: a left-to-right search for `needle` in `hay`. Because UTF-8 decoding leaves
      ASCII bytes as they are, searching the decoded text of a chunk for the ASCII text
      `[DONE]` finds it exactly when its bytes occur in the chunk. */
  function Includes(hay: seq<byte>, needle: seq<byte>): (found: bool)
    ensures found <==> exists i :: OccursAt(hay, needle, i)
  {
    if |hay| < |needle| then false
    else if hay[..|needle|] == needle then
      assert OccursAt(hay, needle, 0);
      true
    else
      var rest := Includes(hay[1..], needle);
      assert forall i :: OccursAt(hay[1..], needle, i) ==> OccursAt(hay, needle, i + 1) by {
        forall i | OccursAt(hay[1..], needle, i) ensures OccursAt(hay, needle, i + 1) {
          assert hay[i + 1..i + 1 + |needle|] == hay[1..][i..i + |needle|];
        }
      }
      assert forall i :: OccursAt(hay, needle, i) && i > 0 ==> OccursAt(hay[1..], needle, i - 1) by {
        forall i | OccursAt(hay, needle, i) && i > 0 ensures OccursAt(hay[1..], needle, i - 1) {
          assert forall j :: 0 <= j < |hay| - 1 ==> hay[1..][j] == hay[j + 1];
          assert hay[1..][i - 1..i - 1 + |needle|] == hay[i..i + |needle|];
        }
      }
      rest
  }

  /** True when the chunk's text contains `[DONE]`. */
  predicate HasDone(c: Chunk) {
    Includes(c, DoneText)
  }

  /** What the `data` callback writes for one chunk. */
  function Kept(c: Chunk): (written: seq<Chunk>)
    ensures written == [] <==> HasDone(c)
    ensures written != [] ==> written == [c]
  {
    if HasDone(c) then [] else [c]
  }

  /** What the `data` callbacks write for `chunks`, in arrival order. */
  function Forwarded(chunks: seq<Chunk>): (out: seq<Chunk>)
    ensures |out| <= |chunks|
  {
    if chunks == [] then []
    else Forwarded(chunks[..|chunks| - 1]) + Kept(chunks[|chunks| - 1])
  }

  /** Forwarding a stream in two parts is forwarding the parts one after the other. */
  lemma {:induction false} ForwardedAppend(a: seq<Chunk>, b: seq<Chunk>)
    ensures Forwarded(a + b) == Forwarded(a) + Forwarded(b)
  {
    if b == [] {
      assert a + b == a;
    } else {
      var n := |b| - 1;
      assert (a + b)[..|a + b| - 1] == a + b[..n];
      assert (a + b)[|a + b| - 1] == b[n];
      ForwardedAppend(a, b[..n]);
      assert Forwarded(a + b) == Forwarded(a + b[..n]) + Kept(b[n]);
    }
  }

  /** A chunk is written exactly when it arrived and does not contain `[DONE]`. */
  lemma {:induction false} ForwardedMembers(chunks: seq<Chunk>)
    ensures forall c :: c in Forwarded(chunks) <==> c in chunks && !HasDone(c)
  {
    if chunks != [] {
      var n := |chunks| - 1;
      ForwardedMembers(chunks[..n]);
      assert chunks == chunks[..n] + [chunks[n]];
    }
  }

  /** The positions of the chunks that are written, in increasing order. */
  function KeptPositions(chunks: seq<Chunk>): (pos: seq<nat>)
  {
    if chunks == [] then []
    else
      var n := |chunks| - 1;
      KeptPositions(chunks[..n]) + (if HasDone(chunks[n]) then [] else [n])
  }

  /** The written chunks are the chunks without `[DONE]` at strictly increasing positions: the
      upstream order is kept, nothing is duplicated, and every chunk without `[DONE]` is among them. */
  lemma {:induction false} ForwardedInOrder(chunks: seq<Chunk>)
    ensures var out, pos := Forwarded(chunks), KeptPositions(chunks);
      && |pos| == |out|
      && (forall j :: 0 <= j < |pos| ==> pos[j] < |chunks| && out[j] == chunks[pos[j]])
      && (forall j, k :: 0 <= j < k < |pos| ==> pos[j] < pos[k])
      && (forall i :: 0 <= i < |chunks| ==> (i in pos <==> !HasDone(chunks[i])))
  {
    if chunks != [] {
      var n := |chunks| - 1;
      ForwardedInOrder(chunks[..n]);
    }
  }

  /** Without any `[DONE]` in the stream, the client receives exactly the upstream chunks. */
  lemma {:induction false} ForwardedVerbatim(chunks: seq<Chunk>)
    requires forall i :: 0 <= i < |chunks| ==> !HasDone(chunks[i])
    ensures Forwarded(chunks) == chunks
  {
    if chunks != [] {
      var n := |chunks| - 1;
      ForwardedVerbatim(chunks[..n]);
      assert chunks == chunks[..n] + [chunks[n]];
    }
  }

  /** The keep-alive comment does not contain `[DONE]`. */
  lemma KeepAliveHasNoDone()
    ensures !HasDone(KeepAliveFrame)
  {
    var frame: seq<byte> := [58, 32, 107, 101, 101, 112, 45, 97, 108, 105, 118, 101, 10, 10];
    assert KeepAliveFrame == frame;
    assert DoneText[0] == 91;
    forall i | 0 <= i ensures !OccursAt(frame, DoneText, i) {
      if i < |frame| {
        assert frame[i] != 91;
      }
    }
  }

  /** A chunk that carries data frames and the terminator together is dropped whole. */
  lemma DataThenDoneDropped(frames: Chunk)
    ensures Forwarded([frames + Ascii("data: [DONE]\n\n")]) == []
  {
    var c := frames + Ascii("data: [DONE]\n\n");
    assert OccursAt(c, DoneText, |frames| + 6);
    assert [c][..0] == [];
  }

  /** `n` heartbeat comments in a row. */
  function Beats(n: nat): (frames: seq<Chunk>)
    ensures |frames| == n
    ensures forall i :: 0 <= i < n ==> frames[i] == KeepAliveFrame
  {
    seq(n, _ => KeepAliveFrame)
  }

  /** What is written for `chunks` when `beats[i]` heartbeats fire before chunk `i` arrives. */
  function Interleaved(chunks: seq<Chunk>, beats: seq<nat>): (out: seq<Chunk>)
    requires |beats| == |chunks|
    ensures |Forwarded(chunks)| <= |out|
  {
    if chunks == [] then []
    else
      var n := |chunks| - 1;
      Interleaved(chunks[..n], beats[..n]) + Beats(beats[n]) + Kept(chunks[n])
  }

  /** One more chunk extends the output by the heartbeats before it and what its callback writes. */
  lemma InterleavedStep(chunks: seq<Chunk>, beats: seq<nat>, i: nat)
    requires i < |chunks| && i < |beats|
    ensures Interleaved(chunks[..i + 1], beats[..i + 1]) ==
      Interleaved(chunks[..i], beats[..i]) + Beats(beats[i]) + Kept(chunks[i])
  {
    assert chunks[..i + 1][..i] == chunks[..i];
    assert beats[..i + 1][..i] == beats[..i];
  }

  /** The whole streamed body: the interleaved chunks, then the heartbeats that fire after the
      last chunk and before the upstream stream ends or fails (which stops the timer). */
  function StreamBody(chunks: seq<Chunk>, beats: seq<nat>): (out: seq<Chunk>)
    requires |beats| == |chunks| + 1
    ensures |Forwarded(chunks)| + beats[|chunks|] <= |out|
  {
    Interleaved(chunks, beats[..|chunks|]) + Beats(beats[|chunks|])
  }

  /** With no heartbeat firing, the streamed body is exactly the forwarded chunks. */
  lemma {:induction false} InterleavedWithoutBeats(chunks: seq<Chunk>, beats: seq<nat>)
    requires |beats| == |chunks|
    requires forall i :: 0 <= i < |beats| ==> beats[i] == 0
    ensures Interleaved(chunks, beats) == Forwarded(chunks)
  {
    if chunks != [] {
      var n := |chunks| - 1;
      InterleavedWithoutBeats(chunks[..n], beats[..n]);
    }
  }

  lemma StreamBodyWithoutBeats(chunks: seq<Chunk>, beats: seq<nat>)
    requires |beats| == |chunks| + 1
    requires forall i :: 0 <= i < |beats| ==> beats[i] == 0
    ensures StreamBody(chunks, beats) == Forwarded(chunks)
  {
    InterleavedWithoutBeats(chunks, beats[..|chunks|]);
  }

  /** Every frame written is a keep-alive comment or an upstream chunk without `[DONE]`, and
      every upstream chunk without `[DONE]` is written. */
  lemma {:induction false} InterleavedFrames(chunks: seq<Chunk>, beats: seq<nat>)
    requires |beats| == |chunks|
    ensures forall c :: c in Interleaved(chunks, beats) ==>
      c == KeepAliveFrame || (c in chunks && !HasDone(c))
    ensures forall c :: c in chunks && !HasDone(c) ==> c in Interleaved(chunks, beats)
  {
    if chunks != [] {
      var n := |chunks| - 1;
      InterleavedFrames(chunks[..n], beats[..n]);
      assert chunks == chunks[..n] + [chunks[n]];
    }
  }

  /** Where the forwarded chunks sit in the interleaved output: the heartbeats that fire before
      chunk `i` come first, then the chunk if it is kept. */
  function ChunkSlots(chunks: seq<Chunk>, beats: seq<nat>): (pos: seq<nat>)
    requires |beats| == |chunks|
  {
    if chunks == [] then []
    else
      var n := |chunks| - 1;
      var before := ChunkSlots(chunks[..n], beats[..n]);
      if HasDone(chunks[n]) then before
      else before + [|Interleaved(chunks[..n], beats[..n])| + beats[n]]
  }

  /** The forwarded chunks sit in the interleaved output in their upstream order, at strictly
      increasing positions. */
  lemma {:induction false} InterleavedSlots(chunks: seq<Chunk>, beats: seq<nat>)
    requires |beats| == |chunks|
    ensures var out, pos, fwd := Interleaved(chunks, beats), ChunkSlots(chunks, beats), Forwarded(chunks);
      && |pos| == |fwd|
      && (forall j :: 0 <= j < |pos| ==> pos[j] < |out| && out[pos[j]] == fwd[j])
      && (forall j, k :: 0 <= j < k < |pos| ==> pos[j] < pos[k])
  {
    if chunks != [] {
      var n := |chunks| - 1;
      var c, b := chunks[n], beats[n];
      var prevOut, prevPos, prevFwd :=
        Interleaved(chunks[..n], beats[..n]), ChunkSlots(chunks[..n], beats[..n]), Forwarded(chunks[..n]);
      InterleavedSlots(chunks[..n], beats[..n]);
      var out, pos, fwd := Interleaved(chunks, beats), ChunkSlots(chunks, beats), Forwarded(chunks);
      assert out == prevOut + Beats(b) + Kept(c);
      assert fwd == prevFwd + Kept(c);
      assert forall j :: 0 <= j < |prevPos| ==> pos[j] == prevPos[j] && fwd[j] == prevFwd[j];
      assert forall i :: 0 <= i < |prevOut| ==> out[i] == prevOut[i];
      if !HasDone(c) {
        assert pos == prevPos + [|prevOut| + b];
        assert out[|prevOut| + b] == c;
      }
    }
  }

  /** Every position of `out` outside `pos` holds a keep-alive comment. */
  predicate GapsAreBeats(out: seq<Chunk>, pos: seq<nat>) {
    forall i :: 0 <= i < |out| && i !in pos ==> out[i] == KeepAliveFrame
  }

  /** Every position of the interleaved output that holds no forwarded chunk holds a keep-alive
      comment. */
  lemma {:induction false} InterleavedGaps(chunks: seq<Chunk>, beats: seq<nat>)
    requires |beats| == |chunks|
    ensures GapsAreBeats(Interleaved(chunks, beats), ChunkSlots(chunks, beats))
  {
    if chunks != [] {
      var n := |chunks| - 1;
      var c, b := chunks[n], beats[n];
      var prevOut, prevPos := Interleaved(chunks[..n], beats[..n]), ChunkSlots(chunks[..n], beats[..n]);
      InterleavedGaps(chunks[..n], beats[..n]);
      assert GapsAreBeats(prevOut, prevPos);
      var out, pos := Interleaved(chunks, beats), ChunkSlots(chunks, beats);
      assert out == prevOut + Beats(b) + Kept(c);
      assert pos == prevPos + (if HasDone(c) then [] else [|prevOut| + b]);
      forall i | 0 <= i < |out| && i !in pos
        ensures out[i] == KeepAliveFrame
      {
        if i < |prevOut| {
          assert out[i] == prevOut[i];
        } else {
          assert i < |prevOut| + b;
          assert out[i] == Beats(b)[i - |prevOut|];
        }
      }
    }
  }

  /** The layout of the interleaved output: the forwarded chunks appear in their upstream order
      at strictly increasing positions, and every other position holds a keep-alive comment. */
  lemma InterleavedLayout(chunks: seq<Chunk>, beats: seq<nat>)
    requires |beats| == |chunks|
    ensures var out, pos, fwd := Interleaved(chunks, beats), ChunkSlots(chunks, beats), Forwarded(chunks);
      && |pos| == |fwd|
      && (forall j :: 0 <= j < |pos| ==> pos[j] < |out| && out[pos[j]] == fwd[j])
      && (forall j, k :: 0 <= j < k < |pos| ==> pos[j] < pos[k])
      && (forall i :: 0 <= i < |out| && i !in pos ==> out[i] == KeepAliveFrame)
  {
    InterleavedSlots(chunks, beats);
    InterleavedGaps(chunks, beats);
  }

  /** The streamed body keeps the same layout: the heartbeats after the last chunk only add
      keep-alive comments at the end. */
  lemma StreamBodyLayout(chunks: seq<Chunk>, beats: seq<nat>)
    requires |beats| == |chunks| + 1
    ensures var out, pos, fwd :=
        StreamBody(chunks, beats), ChunkSlots(chunks, beats[..|chunks|]), Forwarded(chunks);
      && |pos| == |fwd|
      && (forall j :: 0 <= j < |pos| ==> pos[j] < |out| && out[pos[j]] == fwd[j])
      && (forall j, k :: 0 <= j < k < |pos| ==> pos[j] < pos[k])
      && (forall i :: 0 <= i < |out| && i !in pos ==> out[i] == KeepAliveFrame)
  {
    var inner := Interleaved(chunks, beats[..|chunks|]);
    InterleavedLayout(chunks, beats[..|chunks|]);
    assert forall i :: 0 <= i < |inner| ==> StreamBody(chunks, beats)[i] == inner[i];
  }

  /** No frame of the streamed body contains `[DONE]`: every frame is a keep-alive comment or an
      upstream chunk, and every upstream chunk without `[DONE]` is among them. This is about single
      frames; `SplitDoneReachesClient` shows that the client's byte stream can still contain it. */
  lemma StreamBodyHasNoDone(chunks: seq<Chunk>, beats: seq<nat>)
    requires |beats| == |chunks| + 1
    ensures forall c :: c in StreamBody(chunks, beats) ==> c == KeepAliveFrame || c in chunks
    ensures forall c :: c in StreamBody(chunks, beats) ==> !HasDone(c)
    ensures forall c :: c in chunks && !HasDone(c) ==> c in StreamBody(chunks, beats)
  {
    InterleavedFrames(chunks, beats[..|chunks|]);
    KeepAliveHasNoDone();
  }

  /** A chunk with no `[` at any position where `[DONE]` could start does not contain it. */
  lemma NoOpenBracketNoDone(c: Chunk)
    requires forall i :: 0 <= i && i + 6 <= |c| ==> c[i] != 91
    ensures !HasDone(c)
  {
    assert |DoneText| == 6 && DoneText[0] == 91;
    forall i | 0 <= i ensures !OccursAt(c, DoneText, i) {
      if i + 6 <= |c| {
        assert c[i..i + 6][0] == c[i];
      }
    }
  }

  /** A terminator frame split across two `data` events. */
  const SplitFirst: Chunk := Ascii("data: [DO")
  const SplitSecond: Chunk := Ascii("NE]\n\n")

  /** Neither half contains `[DONE]`, so the filter writes both. */
  lemma SplitHalvesPass()
    ensures Forwarded([SplitFirst, SplitSecond]) == [SplitFirst, SplitSecond]
  {
    assert SplitFirst == [100, 97, 116, 97, 58, 32, 91, 68, 79];
    assert SplitSecond == [78, 69, 93, 10, 10];
    NoOpenBracketNoDone(SplitFirst);
    NoOpenBracketNoDone(SplitSecond);
    assert [SplitFirst, SplitSecond][..1] == [SplitFirst];
    assert [SplitFirst][..0] == [];
  }

  /** Together the two halves contain `[DONE]`. */
  lemma SplitHalvesJoinDone()
    ensures Includes(SplitFirst + SplitSecond, DoneText)
  {
    assert (SplitFirst + SplitSecond)[6..12] == DoneText;
    assert OccursAt(SplitFirst + SplitSecond, DoneText, 6);
  }

  /** The filter looks at one chunk at a time, so a terminator split across two `data` events
      passes it: neither half contains `[DONE]`, both are written, and their bytes together do. */
  lemma SplitDoneReachesClient()
    ensures var first, second := Ascii("data: [DO"), Ascii("NE]\n\n");
      && Forwarded([first, second]) == [first, second]
      && Includes(first + second, DoneText)
  {
    SplitHalvesPass();
    SplitHalvesJoinDone();
  }
}
