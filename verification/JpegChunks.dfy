/**
 Chunk boundaries. The splitter is compared with a byte-at-a-time machine that never
 forgets; the real one forgets a trailing FF whenever no frame has begun. The two agree
 exactly if no boundary cuts a start marker in two outside a frame.
 */
module JpegChunks {
  import opened JpegSplitter

  // ----- The machine -----

  /** Outside a frame, remembering whether the last byte was FF; or inside one. */
  datatype Place = Out(ff: bool) | In(buf: Bytes, ff: bool)

  datatype Machine = Machine(frames: seq<Bytes>, place: Place)

  function Eat(m: Machine, b: Byte): Machine {
    match m.place
    case Out(ff) =>
      if ff && b == SOI then m.(place := In([MARKER, SOI], false)) else m.(place := Out(b == MARKER))
    case In(buf, ff) =>
      if ff && b == EOI then Machine(m.frames + [buf + [b]], Out(false))
      else m.(place := In(buf + [b], b == MARKER))
  }

  function EatAll(m: Machine, s: Bytes): Machine
    decreases |s|
  {
    if s == [] then m else EatAll(Eat(m, s[0]), s[1..])
  }

  function RestOf(p: Place): Bytes {
    match p
    case Out(_) => []
    case In(buf, _) => buf
  }

  function Result(m: Machine): Split {
    Split(m.frames, RestOf(m.place))
  }

  /** What the end of a call does: outside a frame everything is dropped. */
  function Forget(m: Machine): Machine {
    if m.place.Out? then m.(place := Out(false)) else m
  }

  function EatChunks(m: Machine, chunks: seq<Bytes>): Machine
    decreases |chunks|
  {
    if chunks == [] then m else EatChunks(Forget(EatAll(m, chunks[0])), chunks[1..])
  }

  const START := Machine([], Out(false))

  lemma {:induction false} EatAllConcat(m: Machine, a: Bytes, b: Bytes)
    ensures EatAll(m, a + b) == EatAll(EatAll(m, a), b)
    decreases |a|
  {
    if a == [] {
      assert a + b == b;
    } else {
      assert (a + b)[1..] == a[1..] + b;
      EatAllConcat(Eat(m, a[0]), a[1..], b);
    }
  }

  // ----- One call of the splitter is the machine -----

  /** No start marker in sight: the machine stays outside. */
  lemma {:induction false} EatOutside(frames: seq<Bytes>, ff: bool, s: Bytes)
    requires ff && s != [] ==> s[0] != SOI
    requires forall j :: 0 <= j < |s| ==> !PairAt(s, j, SOI)
    ensures EatAll(Machine(frames, Out(ff)), s) == Machine(frames, Out(if s == [] then ff else s[|s| - 1] == MARKER))
    decreases |s|
  {
    if s != [] {
      var t := s[1..];
      assert t != [] ==> !PairAt(s, 0, SOI);
      forall j | 0 <= j < |t| ensures !PairAt(t, j, SOI) {
        assert !PairAt(s, j + 1, SOI);
      }
      EatOutside(frames, s[0] == MARKER, t);
    }
  }

  /** No end marker in sight: the machine stays inside and keeps everything. */
  lemma {:induction false} EatInside(frames: seq<Bytes>, buf: Bytes, ff: bool, s: Bytes)
    requires ff && s != [] ==> s[0] != EOI
    requires forall j :: 0 <= j < |s| ==> !PairAt(s, j, EOI)
    ensures EatAll(Machine(frames, In(buf, ff)), s)
            == Machine(frames, In(buf + s, if s == [] then ff else s[|s| - 1] == MARKER))
    decreases |s|
  {
    if s == [] {
      assert buf + s == buf;
    } else {
      var t := s[1..];
      assert t != [] ==> !PairAt(s, 0, EOI);
      forall j | 0 <= j < |t| ensures !PairAt(t, j, EOI) {
        assert !PairAt(s, j + 1, EOI);
      }
      EatInside(frames, buf + [s[0]], s[0] == MARKER, t);
      assert buf + [s[0]] + t == buf + s;
    }
  }

  /** Reaching the first marker pair of its kind at position i. */
  lemma EatToStart(frames: seq<Bytes>, s: Bytes, i: nat)
    requires PairAt(s, i, SOI) && forall j :: 0 <= j < i ==> !PairAt(s, j, SOI)
    ensures EatAll(Machine(frames, Out(false)), s[..i + 2]) == Machine(frames, In([MARKER, SOI], false))
  {
    var a := s[..i + 1];
    forall j | 0 <= j < |a| ensures !PairAt(a, j, SOI) {
      assert j < i ==> !PairAt(s, j, SOI);
    }
    EatOutside(frames, false, a);
    assert s[..i + 2] == a + [SOI];
    EatAllConcat(Machine(frames, Out(false)), a, [SOI]);
    EatOne(Machine(frames, Out(true)), SOI);
  }

  lemma EatToEnd(frames: seq<Bytes>, s: Bytes, i: nat)
    requires 2 <= i && PairAt(s, 0, SOI) && PairAt(s, i, EOI) && forall j :: 2 <= j < i ==> !PairAt(s, j, EOI)
    ensures EatAll(Machine(frames, In([MARKER, SOI], false)), s[2..i + 2]) == Machine(frames + [s[..i + 2]], Out(false))
  {
    var a := s[2..i + 1];
    forall j | 0 <= j < |a| ensures !PairAt(a, j, EOI) {
      assert j + 2 < i ==> !PairAt(s, j + 2, EOI);
    }
    EatInside(frames, [MARKER, SOI], false, a);
    assert s[2..i + 2] == a + [EOI];
    EatAllConcat(Machine(frames, In([MARKER, SOI], false)), a, [EOI]);
    EatOne(Machine(frames, In([MARKER, SOI] + a, true)), EOI);
    assert [MARKER, SOI] + a + [EOI] == s[..i + 2];
  }

  lemma EatOne(m: Machine, b: Byte)
    ensures EatAll(m, [b]) == Eat(m, b)
  {
    assert [b][1..] == [];
  }

  /** The splitter computes what the machine computes. */
  lemma {:induction false} ExtractIsEatAll(frames: seq<Bytes>, s: Bytes)
    ensures Result(EatAll(Machine(frames, Out(false)), s)) == Split(frames + Extract(s).frames, Extract(s).rest)
    decreases |s|
  {
    hide Extract, EatAll, Result, TotalLength;
    var m := Machine(frames, Out(false));
    var start := Find(s, SOI, 0);
    if start < 0 {
      EatOutside(frames, false, s);
      NothingToExtract(s);
      ResultOf(EatAll(m, s));
      assert frames + [] == frames;
    } else {
      var frame := s[start..];
      SameFromStart(s, start);
      EatToStart(frames, s, start);
      assert s == s[..start + 2] + s[start + 2..];
      EatAllConcat(m, s[..start + 2], s[start + 2..]);
      assert s[start + 2..] == frame[2..];
      EatFrame(frames, frame);
      var end := Find(frame, EOI, 2);
      OneFrame(frame, end);
      if end >= 0 {
        var f := frame[..end + 2];
        ExtractIsEatAll(frames + [f], frame[end + 2..]);
        assert frames + [f] + Extract(frame[end + 2..]).frames == frames + Extract(s).frames;
      } else {
        assert frames + [] == frames;
      }
    }
  }

  lemma ResultOf(m: Machine)
    ensures m.place.Out? ==> Result(m) == Split(m.frames, [])
  {
  }

  lemma EatFrame(frames: seq<Bytes>, frame: Bytes)
    requires PairAt(frame, 0, SOI)
    ensures var end := Find(frame, EOI, 2);
            var m := EatAll(Machine(frames, In([MARKER, SOI], false)), frame[2..]);
            if end < 0 then Result(m) == Split(frames, frame)
            else m == EatAll(Machine(frames + [frame[..end + 2]], Out(false)), frame[end + 2..])
  {
    var end := Find(frame, EOI, 2);
    if end < 0 {
      var t := frame[2..];
      forall j | 0 <= j < |t| ensures !PairAt(t, j, EOI) {
        assert !PairAt(frame, j + 2, EOI);
      }
      EatInside(frames, [MARKER, SOI], false, t);
      assert [MARKER, SOI] + t == frame;
    } else {
      EatToEnd(frames, frame, end);
      assert frame[2..] == frame[2..end + 2] + frame[end + 2..];
      EatAllConcat(Machine(frames, In([MARKER, SOI], false)), frame[2..end + 2], frame[end + 2..]);
    }
  }

  // ----- The read loop is the forgetful machine -----

  /** The frame read so far starts with a start marker and has not ended. */
  predicate GoodPlace(p: Place) {
    p.In? ==>
      && PairAt(p.buf, 0, SOI)
      && (forall j :: 2 <= j < |p.buf| ==> !PairAt(p.buf, j, EOI))
      && p.ff == (|p.buf| > 2 && p.buf[|p.buf| - 1] == MARKER)
  }

  lemma {:induction false} EatAllKeepsGood(m: Machine, s: Bytes)
    requires GoodPlace(m.place)
    ensures GoodPlace(EatAll(m, s).place)
    decreases |s|
  {
    if s != [] {
      EatKeepsGood(m, s[0]);
      EatAllKeepsGood(Eat(m, s[0]), s[1..]);
    }
  }

  lemma EatKeepsGood(m: Machine, b: Byte)
    requires GoodPlace(m.place)
    ensures GoodPlace(Eat(m, b).place)
  {
    if m.place.In? {
      var buf := m.place.buf;
      forall j | 2 <= j < |buf + [b]| ensures PairAt(buf + [b], j, EOI) ==> m.place.ff && b == EOI {
        assert j < |buf| - 1 ==> !PairAt(buf, j, EOI);
      }
    }
  }

  /** Reading the left-over buffer again leads back to the place it was left at. */
  lemma Reread(frames: seq<Bytes>, p: Place)
    requires GoodPlace(p)
    ensures EatAll(Machine(frames, Out(false)), RestOf(p)) == Forget(Machine(frames, p))
  {
    if p.In? {
      EatToStart(frames, p.buf, 0);
      assert p.buf == p.buf[..2] + p.buf[2..];
      EatAllConcat(Machine(frames, Out(false)), p.buf[..2], p.buf[2..]);
      EatFrame(frames, p.buf);
      var t := p.buf[2..];
      forall j | 0 <= j < |t| ensures !PairAt(t, j, EOI) {
        assert !PairAt(p.buf, j + 2, EOI);
      }
      EatInside(frames, [MARKER, SOI], false, t);
      assert [MARKER, SOI] + t == p.buf;
    }
  }

  lemma ForgetKeepsGood(m: Machine)
    requires GoodPlace(m.place)
    ensures GoodPlace(Forget(m).place) && Forget(Forget(m)) == Forget(m) && RestOf(Forget(m).place) == RestOf(m.place)
  {
  }

  lemma {:induction false} FeedIsEatChunks(m: Machine, chunks: seq<Bytes>)
    requires GoodPlace(m.place) && Forget(m) == m
    ensures Result(EatChunks(m, chunks))
            == Split(m.frames + FeedAll(RestOf(m.place), chunks).frames, FeedAll(RestOf(m.place), chunks).rest)
    decreases |chunks|
  {
    hide Extract, EatAll, PairAt, GoodPlace, Eat;
    if chunks == [] {
      assert m.frames + [] == m.frames;
    } else {
      var rest := RestOf(m.place);
      var next := EatAll(m, chunks[0]);
      var now := Extract(rest + chunks[0]);
      Reread(m.frames, m.place);
      EatAllConcat(Machine(m.frames, Out(false)), rest, chunks[0]);
      ExtractIsEatAll(m.frames, rest + chunks[0]);
      EatAllKeepsGood(m, chunks[0]);
      ForgetKeepsGood(next);
      FeedIsEatChunks(Forget(next), chunks[1..]);
      assert m.frames + now.frames + FeedAll(now.rest, chunks[1..]).frames == m.frames + FeedAll(rest, chunks).frames;
    }
  }

  // ----- Where the two differ -----

  /** Some boundary has the never-forgetting machine between FF and a start byte, outside a frame. */
  predicate Cut(m: Machine, chunks: seq<Bytes>)
    decreases |chunks|
  {
    chunks != [] &&
    ((m.place == Out(true) && chunks[0] != [] && chunks[0][0] == SOI) || Cut(EatAll(m, chunks[0]), chunks[1..]))
  }

  predicate NonEmpty(chunks: seq<Bytes>) {
    forall c | c in chunks :: c != []
  }

  lemma ForgettingIsHarmless(m: Machine, c: Bytes)
    requires c != [] && !(m.place == Out(true) && c[0] == SOI)
    ensures EatAll(Forget(m), c) == EatAll(m, c)
  {
  }

  lemma {:induction false} SameWithoutCut(m: Machine, chunks: seq<Bytes>)
    requires NonEmpty(chunks) && !Cut(m, chunks)
    ensures Result(EatChunks(Forget(m), chunks)) == Result(EatAll(m, Flatten(chunks)))
    decreases |chunks|
  {
    if chunks != [] {
      assert chunks[0] in chunks && forall c | c in chunks[1..] :: c in chunks;
      ForgettingIsHarmless(m, chunks[0]);
      EatAllConcat(m, chunks[0], Flatten(chunks[1..]));
      SameWithoutCut(EatAll(m, chunks[0]), chunks[1..]);
    }
  }

  function TotalLength(frames: seq<Bytes>): nat {
    if frames == [] then 0 else TotalLength(frames[..|frames| - 1]) + |frames[|frames| - 1]|
  }

  /** How many bytes of the stream were kept. */
  function KeptBytes(m: Machine): nat {
    TotalLength(m.frames) + |RestOf(m.place)|
  }

  function KeptIn(s: Split): nat {
    TotalLength(s.frames) + |s.rest|
  }

  lemma KeptOne(frames: seq<Bytes>, f: Bytes)
    ensures TotalLength(frames + [f]) == TotalLength(frames) + |f|
  {
    assert (frames + [f])[..|frames|] == frames;
  }

  /** `a` has kept no more than `i`, and less once something was lost. */
  predicate Behind(i: Machine, a: Machine, lost: bool) {
    match (i.place, a.place)
    case (In(_, _), Out(ff)) => KeptBytes(i) >= KeptBytes(a) + 1 + if ff then 1 else 0
    case (In(_, fi), In(_, fa)) => fi == fa && KeptBytes(i) >= KeptBytes(a) + if lost then 1 else 0
    case (Out(fi), Out(fa)) => (fa ==> fi) && KeptBytes(i) >= KeptBytes(a) + if lost then 1 else 0
    case (Out(_), In(_, _)) => false
  }

  lemma EatStaysBehind(i: Machine, a: Machine, b: Byte, lost: bool)
    requires Behind(i, a, lost)
    ensures Behind(Eat(i, b), Eat(a, b), lost)
    ensures i.place == Out(true) && a.place == Out(false) && b == SOI ==> Behind(Eat(i, b), Eat(a, b), true)
  {
    KeptOne(i.frames, RestOf(i.place) + [b]);
    KeptOne(a.frames, RestOf(a.place) + [b]);
  }

  lemma {:induction false} EatAllStaysBehind(i: Machine, a: Machine, s: Bytes, lost: bool)
    requires Behind(i, a, lost)
    ensures Behind(EatAll(i, s), EatAll(a, s), lost)
    decreases |s|
  {
    if s != [] {
      EatStaysBehind(i, a, s[0], lost);
      EatAllStaysBehind(Eat(i, s[0]), Eat(a, s[0]), s[1..], lost);
    }
  }

  lemma {:induction false} ChunksStayBehind(i: Machine, a: Machine, chunks: seq<Bytes>, lost: bool)
    requires Behind(i, a, lost)
    ensures Behind(EatAll(i, Flatten(chunks)), EatChunks(a, chunks), lost)
    decreases |chunks|
  {
    if chunks != [] {
      EatAllStaysBehind(i, a, chunks[0], lost);
      EatAllConcat(i, chunks[0], Flatten(chunks[1..]));
      ChunksStayBehind(EatAll(i, chunks[0]), Forget(EatAll(a, chunks[0])), chunks[1..], lost);
    }
  }

  lemma {:induction false} CutLoses(m: Machine, chunks: seq<Bytes>)
    requires NonEmpty(chunks) && Cut(m, chunks)
    ensures KeptBytes(EatChunks(Forget(m), chunks)) < KeptBytes(EatAll(m, Flatten(chunks)))
    decreases |chunks|
  {
    var c, more := chunks[0], chunks[1..];
    assert c in chunks && forall x | x in more :: x in chunks;
    EatAllConcat(m, c, Flatten(more));
    if m.place == Out(true) && c[0] == SOI {
      var a := Forget(m);
      EatStaysBehind(m, a, c[0], false);
      EatAllStaysBehind(Eat(m, c[0]), Eat(a, c[0]), c[1..], true);
      ChunksStayBehind(EatAll(m, c), Forget(EatAll(a, c)), more, true);
    } else {
      ForgettingIsHarmless(m, c);
      CutLoses(EatAll(m, c), more);
    }
  }

  // ----- The condition in the splitter's own terms -----

  /** The boundary between `before` and `next` cuts a start marker outside a frame. */
  predicate CutsStartMarker(before: Bytes, next: Bytes) {
    && before != [] && before[|before| - 1] == MARKER
    && next != [] && next[0] == SOI
    && Extract(before).rest == []
  }

  ghost predicate SomeBoundaryCuts(chunks: seq<Bytes>) {
    exists k :: 0 <= k < |chunks| && CutsStartMarker(Flatten(chunks[..k]), chunks[k])
  }

  lemma FlagIsLastByte(s: Bytes)
    ensures EatAll(START, s).place == Out(true) <==>
              s != [] && s[|s| - 1] == MARKER && Extract(s).rest == []
  {
    hide Extract, PairAt, EatAll;
    ExtractIsEatAll([], s);
    EmptyEats(START);
    if s != [] {
      var front := s[..|s| - 1];
      assert s == front + [s[|s| - 1]];
      EatAllConcat(START, front, [s[|s| - 1]]);
      EatOne(EatAll(START, front), s[|s| - 1]);
      EatAllKeepsGood(START, s);
      GoodIsNotEmpty(EatAll(START, s).place);
    }
  }

  lemma EmptyEats(m: Machine)
    ensures EatAll(m, []) == m
  {
  }

  lemma GoodIsNotEmpty(p: Place)
    requires GoodPlace(p)
    ensures p.In? ==> RestOf(p) != []
  {
  }

  lemma {:induction false} FlattenConcat(a: seq<Bytes>, b: seq<Bytes>)
    ensures Flatten(a + b) == Flatten(a) + Flatten(b)
  {
    if a == [] {
      assert a + b == b;
    } else {
      assert (a + b)[1..] == a[1..] + b;
      FlattenConcat(a[1..], b);
    }
  }

  lemma {:induction false} CutIsBoundaryCut(chunks: seq<Bytes>, k: nat)
    requires k <= |chunks|
    ensures Cut(EatAll(START, Flatten(chunks[..k])), chunks[k..])
            <==> exists j :: k <= j < |chunks| && CutsStartMarker(Flatten(chunks[..j]), chunks[j])
    decreases |chunks| - k
  {
    if k < |chunks| {
      var before := Flatten(chunks[..k]);
      FlagIsLastByte(before);
      assert chunks[..k + 1] == chunks[..k] + [chunks[k]];
      FlattenConcat(chunks[..k], [chunks[k]]);
      assert Flatten([chunks[k]]) == chunks[k];
      EatAllConcat(START, before, chunks[k]);
      assert chunks[k..][1..] == chunks[k + 1..];
      CutIsBoundaryCut(chunks, k + 1);
    }
  }

  /**
   Frames and left-over from the read loop equal those of one call on the whole stream
   exactly if no chunk boundary cuts a start marker in two outside a frame; a cut always
   loses bytes.
   */
  lemma ChunkingIsInvisibleIffNoCut(chunks: seq<Bytes>)
    requires NonEmpty(chunks)
    ensures FeedAll([], chunks) == Extract(Flatten(chunks)) <==> !SomeBoundaryCuts(chunks)
    ensures SomeBoundaryCuts(chunks) ==> KeptIn(FeedAll([], chunks)) < KeptIn(Extract(Flatten(chunks)))
  {
    FeedIsEatChunks(START, chunks);
    ExtractIsEatAll([], Flatten(chunks));
    assert [] + FeedAll([], chunks).frames == FeedAll([], chunks).frames;
    assert [] + Extract(Flatten(chunks)).frames == Extract(Flatten(chunks)).frames;
    CutIsBoundaryCut(chunks, 0);
    assert chunks[0..] == chunks && Flatten(chunks[..0]) == [];
    if Cut(START, chunks) {
      CutLoses(START, chunks);
    } else {
      SameWithoutCut(START, chunks);
    }
  }
}
