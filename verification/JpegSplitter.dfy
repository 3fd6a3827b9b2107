/**
 The MJPEG splitter: frames run from a start-of-image marker (FF D8) to the first
 end-of-image marker (FF D9) after it (section B.1.1.3 of ITU-T T.81), and the read loop
 hands it one chunk after the other together with what was left over.
 */
module JpegSplitter {
  import opened Selections

  type Byte = x: int | 0 <= x < 256
  type Bytes = seq<Byte>

  const MARKER: Byte := 0xff
  const SOI: Byte := 0xd8
  const EOI: Byte := 0xd9

  predicate PairAt(s: Bytes, i: int, b: Byte) {
    0 <= i < |s| - 1 && s[i] == MARKER && s[i + 1] == b
  }

  /** The first position from `from` on where FF is followed by `b`, or -1. */
  function Find(s: Bytes, b: Byte, from: nat): (i: int)
    ensures i == -1 || (from <= i && PairAt(s, i, b))
    ensures forall j :: from <= j < (if i < 0 then |s| else i) ==> !PairAt(s, j, b)
    decreases |s| - from
  {
    if from >= |s| then -1
    else if PairAt(s, from, b) then from
    else Find(s, b, from + 1)
  }

  datatype Split = Split(frames: seq<Bytes>, rest: Bytes)

  /** What one call of the splitter returns. */
  function Extract(buf: Bytes): Split
    decreases |buf|
  {
    var start := Find(buf, SOI, 0);
    if start < 0 then Split([], [])
    else
      var frame := buf[start..];
      var end := Find(frame, EOI, 2);
      if end < 0 then Split([], frame)
      else
        var after := Extract(frame[end + 2..]);
        Split([frame[..end + 2]] + after.frames, after.rest)
  }

  /** What the read loop has collected after all chunks. */
  function FeedAll(buf: Bytes, chunks: seq<Bytes>): Split
    decreases |chunks|
  {
    if chunks == [] then Split([], buf)
    else
      var now := Extract(buf + chunks[0]);
      var later := FeedAll(now.rest, chunks[1..]);
      Split(now.frames + later.frames, later.rest)
  }

  function Flatten(chunks: seq<Bytes>): Bytes {
    if chunks == [] then [] else chunks[0] + Flatten(chunks[1..])
  }

  // ----- The loops -----

  method FindPair(s: Bytes, b: Byte, from: nat) returns (i: int)
    ensures i == Find(s, b, from)
  {
    i := from;
    while i < |s|
      invariant from <= i
      invariant Find(s, b, from) == Find(s, b, i)
      decreases |s| - i
    {
      if i + 1 < |s| && s[i] == MARKER && s[i + 1] == b {
        return;
      }
      i := i + 1;
    }
    i := -1;
  }

  method ExtractJpegs(buf0: Bytes) returns (frames: seq<Bytes>, rest: Bytes)
    ensures Split(frames, rest) == Extract(buf0)
  {
    hide Extract, Find;
    frames := [];
    var buf := buf0;
    while true
      invariant Extract(buf0) == Split(frames + Extract(buf).frames, Extract(buf).rest)
      decreases |buf|
    {
      var start := FindPair(buf, SOI, 0);
      if start < 0 {
        NothingToExtract(buf);
        return frames, [];
      }
      if start > 0 {
        SameFromStart(buf, start);
        buf := buf[start..];
      }
      var end := FindPair(buf, EOI, 2);
      OneFrame(buf, end);
      if end < 0 {
        return frames, buf;
      }
      assert frames + Extract(buf).frames == frames + [buf[..end + 2]] + Extract(buf[end + 2..]).frames;
      frames := frames + [buf[..end + 2]];
      buf := buf[end + 2..];
    }
  }

  lemma NothingToExtract(buf: Bytes)
    requires Find(buf, SOI, 0) < 0
    ensures Extract(buf) == Split([], [])
  {
  }

  lemma OneFrame(buf: Bytes, end: int)
    requires Find(buf, SOI, 0) == 0 && end == Find(buf, EOI, 2)
    ensures Extract(buf) ==
      if end < 0 then Split([], buf)
      else Split([buf[..end + 2]] + Extract(buf[end + 2..]).frames, Extract(buf[end + 2..]).rest)
  {
    assert buf[0..] == buf;
  }

  lemma SameFromStart(buf: Bytes, start: nat)
    requires start == Find(buf, SOI, 0)
    ensures Find(buf[start..], SOI, 0) == 0 && Extract(buf[start..]) == Extract(buf)
  {
    assert PairAt(buf[start..], 0, SOI);
    assert buf[start..][0..] == buf[start..];
  }

  /** The frames the viewer is sent: those of at least 100 bytes, in order. */
  function Sent(frames: seq<Bytes>): seq<Bytes> {
    if frames == [] then []
    else (if |frames[0]| < 100 then [] else [frames[0]]) + Sent(frames[1..])
  }

  lemma {:induction false} SentConcat(a: seq<Bytes>, b: seq<Bytes>)
    ensures Sent(a + b) == Sent(a) + Sent(b)
  {
    if a == [] {
      assert a + b == b;
    } else {
      assert (a + b)[1..] == a[1..] + b;
      SentConcat(a[1..], b);
    }
  }

  predicate LongEnough(f: Bytes) {
    100 <= |f|
  }

  /** What is sent is every frame that is long enough, once, in order. */
  lemma {:induction false} SentAreTheLongOnes(frames: seq<Bytes>)
    ensures Selects(Sent(frames), frames, LongEnough)
  {
    if frames == [] {
      SelectsNone(LongEnough);
    } else {
      var front, last := frames[..|frames| - 1], frames[|frames| - 1];
      SentAreTheLongOnes(front);
      SelectsNext(Sent(front), front, last, LongEnough);
      SentConcat(front, [last]);
      assert frames == front + [last];
    }
  }

  /** The read loop; an empty read ends the stream. */
  method HandleStream(chunks: seq<Bytes>) returns (sent: seq<Bytes>, buf: Bytes)
    requires forall c | c in chunks :: c != []
    ensures sent == Sent(FeedAll([], chunks).frames) && buf == FeedAll([], chunks).rest
    ensures Selects(sent, FeedAll([], chunks).frames, LongEnough)
  {
    SentAreTheLongOnes(FeedAll([], chunks).frames);
    hide FeedAll, Extract, Selects;
    sent, buf := [], [];
    ghost var all: seq<Bytes> := [];
    assert chunks[0..] == chunks;
    var i := 0;
    while i < |chunks|
      invariant 0 <= i <= |chunks|
      invariant sent == Sent(all)
      invariant FeedAll([], chunks) == Split(all + FeedAll(buf, chunks[i..]).frames, FeedAll(buf, chunks[i..]).rest)
    {
      FeedNext(all, buf, chunks, i);
      var frames;
      frames, buf := ExtractJpegs(buf + chunks[i]);
      var more := KeepLong(frames);
      SentConcat(all, frames);
      sent := sent + more;
      all := all + frames;
      i := i + 1;
    }
    FeedNothing(all, buf, chunks[i..]);
  }

  lemma FeedNext(all: seq<Bytes>, buf: Bytes, chunks: seq<Bytes>, i: nat)
    requires i < |chunks|
    ensures var now := Extract(buf + chunks[i]);
            && all + FeedAll(buf, chunks[i..]).frames == (all + now.frames) + FeedAll(now.rest, chunks[i + 1..]).frames
            && FeedAll(buf, chunks[i..]).rest == FeedAll(now.rest, chunks[i + 1..]).rest
  {
    assert chunks[i..][1..] == chunks[i + 1..];
  }

  lemma FeedNothing(all: seq<Bytes>, buf: Bytes, chunks: seq<Bytes>)
    requires chunks == []
    ensures all + FeedAll(buf, chunks).frames == all && FeedAll(buf, chunks).rest == buf
  {
  }

  method KeepLong(frames: seq<Bytes>) returns (sent: seq<Bytes>)
    ensures sent == Sent(frames)
  {
    sent := [];
    for i := 0 to |frames|
      invariant sent == Sent(frames[..i])
    {
      SentConcat(frames[..i], [frames[i]]);
      assert frames[..i] + [frames[i]] == frames[..i + 1];
      if |frames[i]| < 100 {
        continue;
      }
      sent := sent + [frames[i]];
    }
    assert frames[..|frames|] == frames;
  }

  // ----- Every frame spans a start marker to its first end marker -----

  predicate IsFrame(f: Bytes) {
    |f| >= 4 && PairAt(f, 0, SOI) && PairAt(f, |f| - 2, EOI)
    && forall j :: 2 <= j < |f| - 2 ==> !PairAt(f, j, EOI)
  }

  /** Frames are exact; what is left over is an unfinished frame or nothing. */
  lemma {:induction false} ExtractGivesFrames(buf: Bytes)
    ensures forall f | f in Extract(buf).frames :: IsFrame(f)
    ensures var rest := Extract(buf).rest;
            rest != [] ==> PairAt(rest, 0, SOI) && forall j :: 2 <= j ==> !PairAt(rest, j, EOI)
    decreases |buf|
  {
    hide Extract, Find;
    var start := Find(buf, SOI, 0);
    if start < 0 {
      NothingToExtract(buf);
    } else {
      SameFromStart(buf, start);
      var frame := buf[start..];
      var end := Find(frame, EOI, 2);
      OneFrame(frame, end);
      if end >= 0 {
        ExtractGivesFrames(frame[end + 2..]);
        FirstFrame(frame, end);
      }
    }
  }

  lemma FirstFrame(frame: Bytes, end: nat)
    requires PairAt(frame, 0, SOI) && end == Find(frame, EOI, 2)
    ensures IsFrame(frame[..end + 2])
  {
    var f := frame[..end + 2];
    assert PairAt(f, |f| - 2, EOI);
    forall j | 2 <= j < |f| - 2 ensures !PairAt(f, j, EOI) {
      assert !PairAt(frame, j, EOI);
    }
  }
}
