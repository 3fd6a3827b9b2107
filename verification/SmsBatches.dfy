/** The purge over all batches: it looks for duplicates within a batch of 5000 rows, never across two. */
module SmsBatches {
  import opened SmsTypes
  import opened SmsPurge

  const BATCH_SIZE: nat := 5000

  function AtMost(rows: seq<Row>, n: nat): (r: seq<Row>)
    ensures r <= rows && |r| == if |rows| <= n then |rows| else n
  {
    if |rows| <= n then rows else rows[..n]
  }

  /** What is left once every batch has been purged by itself. */
  function PurgeAll(rows: seq<Row>): seq<Row>
    decreases |rows|
  {
    if rows == [] then []
    else
      var batch := AtMost(rows, BATCH_SIZE);
      PurgeRows(batch).survivors + PurgeAll(rows[|batch|..])
  }

  ghost predicate AllApart(rows: seq<Row>) {
    forall s, t | s in rows && t in rows && s != t :: !Near(s, t)
  }

  // ----- Soundness over batches -----

  lemma AscendingParts(rows: seq<Row>, n: nat)
    requires Ascending(rows) && n <= |rows|
    ensures Ascending(rows[..n]) && Ascending(rows[n..])
    ensures forall r :: r in rows <==> r in rows[..n] || r in rows[n..]
  {
    assert rows == rows[..n] + rows[n..];
  }

  /** Nothing new is left, and what is gone has an earlier near-duplicate among what is left. */
  lemma {:induction false} PurgeAllIsSound(rows: seq<Row>)
    requires Ascending(rows)
    ensures forall r | r in PurgeAll(rows) :: r in rows
    ensures forall d | d in rows && d !in PurgeAll(rows) :: HasKeeper(PurgeAll(rows), d)
    decreases |rows|
  {
    if rows != [] {
      var batch := AtMost(rows, BATCH_SIZE);
      var rest := rows[|batch|..];
      AscendingParts(rows, |batch|);
      assert batch == rows[..|batch|];
      PurgeAllIsSound(rest);
      BatchIsSound(batch);
      hide PurgeRows, Near;
    }
  }

  lemma BatchIsSound(batch: seq<Row>)
    requires Ascending(batch)
    ensures var p := PurgeRows(batch);
            && (forall r | r in p.survivors :: r in batch)
            && (forall d | d in batch && d !in p.survivors :: HasKeeper(p.survivors, d))
  {
    PurgeInvariant(batch);
    hide PurgeRows, Near;
    var p := PurgeRows(batch);
    forall d | d in batch && d !in p.survivors ensures d in p.deleted {
      assert d in multiset(batch);
    }
  }

  // ----- Completeness over batches -----

  /**
   Two rows of one body less than a window apart are always in one batch, and no row of the body
   between them lies two windows from the first.
   */
  ghost predicate StayTogether(rows: seq<Row>) {
    forall i, l | 0 <= i < l < |rows| && rows[i].body == rows[l].body && Abs(rows[l].timestamp - rows[i].timestamp) < WINDOW ::
      i / BATCH_SIZE == l / BATCH_SIZE && NothingFarBetween(rows, i, l)
  }

  ghost predicate NothingFarBetween(rows: seq<Row>, i: int, l: int)
    requires 0 <= i <= l < |rows|
  {
    forall j | i < j < l && rows[j].body == rows[i].body :: Recent(rows[i], rows[j])
  }

  /** No row of the first part is within a window of one of the same body in the second. */
  ghost predicate CleanCut(a: seq<Row>, b: seq<Row>) {
    forall x, y | x in a && y in b && x.body == y.body :: Abs(y.timestamp - x.timestamp) >= WINDOW
  }

  lemma OneBatch(rows: seq<Row>)
    requires |rows| <= BATCH_SIZE
    ensures StayTogether(rows) <==> NoReturn(rows)
  {
    if NoReturn(rows) {
      NoReturnStays(rows);
    }
    if StayTogether(rows) {
      StayingNeverReturns(rows);
    }
  }

  lemma NoReturnStays(rows: seq<Row>)
    requires |rows| <= BATCH_SIZE && NoReturn(rows)
    ensures StayTogether(rows)
  {
    forall i | 0 <= i < |rows| ensures i / BATCH_SIZE == 0 {
    }
    hide Abs;
    forall i, l, j | 0 <= i < j < l < |rows| && rows[i].body == rows[l].body == rows[j].body
                     && Abs(rows[l].timestamp - rows[i].timestamp) < WINDOW
      ensures Recent(rows[i], rows[j])
    {
    }
  }

  lemma StayingNeverReturns(rows: seq<Row>)
    requires StayTogether(rows)
    ensures NoReturn(rows)
  {
    hide Abs;
    forall i, j, l | 0 <= i < j < l < |rows| && rows[i].body == rows[j].body == rows[l].body
                     && Abs(rows[l].timestamp - rows[i].timestamp) < WINDOW
      ensures Abs(rows[j].timestamp - rows[i].timestamp) < 2 * WINDOW
    {
      assert NothingFarBetween(rows, i, l);
    }
  }

  lemma BatchSplits(rows: seq<Row>)
    requires |rows| > BATCH_SIZE
    ensures var head, tail := rows[..BATCH_SIZE], rows[BATCH_SIZE..];
            StayTogether(rows) <==> StayTogether(head) && CleanCut(head, tail) && StayTogether(tail)
  {
    var head, tail := rows[..BATCH_SIZE], rows[BATCH_SIZE..];
    hide Recent;
    if StayTogether(rows) {
      HeadStays(rows);
      TailStays(rows);
      PartsAreSeparate(rows);
    }
    if StayTogether(head) && CleanCut(head, tail) && StayTogether(tail) {
      PartsStay(rows);
    }
  }

  lemma HeadStays(rows: seq<Row>)
    requires |rows| > BATCH_SIZE && StayTogether(rows)
    ensures StayTogether(rows[..BATCH_SIZE])
  {
    var head := rows[..BATCH_SIZE];
    hide Recent, Abs;
    forall i, l | 0 <= i < l < |head| && head[i].body == head[l].body && Abs(head[l].timestamp - head[i].timestamp) < WINDOW
      ensures i / BATCH_SIZE == l / BATCH_SIZE && NothingFarBetween(head, i, l)
    {
      assert rows[i] == head[i] && rows[l] == head[l];
      assert NothingFarBetween(rows, i, l);
    }
  }

  lemma TailStays(rows: seq<Row>)
    requires |rows| > BATCH_SIZE && StayTogether(rows)
    ensures StayTogether(rows[BATCH_SIZE..])
  {
    var tail := rows[BATCH_SIZE..];
    hide Recent, Abs;
    forall i, l | 0 <= i < l < |tail| && tail[i].body == tail[l].body && Abs(tail[l].timestamp - tail[i].timestamp) < WINDOW
      ensures i / BATCH_SIZE == l / BATCH_SIZE && NothingFarBetween(tail, i, l)
    {
      var i', l' := i + BATCH_SIZE, l + BATCH_SIZE;
      assert rows[i'] == tail[i] && rows[l'] == tail[l];
      assert i' / BATCH_SIZE == l' / BATCH_SIZE && NothingFarBetween(rows, i', l');
      forall j | i < j < l && tail[j].body == tail[i].body ensures Recent(tail[i], tail[j]) {
        assert rows[j + BATCH_SIZE] == tail[j];
      }
    }
  }

  lemma PartsAreSeparate(rows: seq<Row>)
    requires |rows| > BATCH_SIZE && StayTogether(rows)
    ensures CleanCut(rows[..BATCH_SIZE], rows[BATCH_SIZE..])
  {
    var head, tail := rows[..BATCH_SIZE], rows[BATCH_SIZE..];
    forall x, y | x in head && y in tail && x.body == y.body ensures Abs(y.timestamp - x.timestamp) >= WINDOW {
      var i :| 0 <= i < |head| && head[i] == x;
      var l :| 0 <= l < |tail| && tail[l] == y;
      assert rows[i] == x && rows[l + BATCH_SIZE] == y;
      assert i / BATCH_SIZE == 0 && (l + BATCH_SIZE) / BATCH_SIZE >= 1;
    }
  }

  lemma StaysInHead(rows: seq<Row>, i: nat, l: nat)
    requires |rows| > BATCH_SIZE && StayTogether(rows[..BATCH_SIZE]) && i < l < BATCH_SIZE
    requires rows[i].body == rows[l].body && Abs(rows[l].timestamp - rows[i].timestamp) < WINDOW
    ensures i / BATCH_SIZE == l / BATCH_SIZE && NothingFarBetween(rows, i, l)
  {
    hide Recent, Abs;
    var head := rows[..BATCH_SIZE];
    assert head[i] == rows[i] && head[l] == rows[l];
    assert NothingFarBetween(head, i, l);
    forall j | i < j < l && rows[j].body == rows[i].body ensures Recent(rows[i], rows[j]) {
      assert head[j] == rows[j];
    }
  }

  lemma StaysInTail(rows: seq<Row>, i: nat, l: nat)
    requires |rows| > BATCH_SIZE && StayTogether(rows[BATCH_SIZE..]) && BATCH_SIZE <= i < l < |rows|
    requires rows[i].body == rows[l].body && Abs(rows[l].timestamp - rows[i].timestamp) < WINDOW
    ensures i / BATCH_SIZE == l / BATCH_SIZE && NothingFarBetween(rows, i, l)
  {
    hide Recent, Abs;
    var tail := rows[BATCH_SIZE..];
    var i', l' := i - BATCH_SIZE, l - BATCH_SIZE;
    assert tail[i'] == rows[i] && tail[l'] == rows[l];
    assert i' / BATCH_SIZE == l' / BATCH_SIZE && NothingFarBetween(tail, i', l');
    forall j | i < j < l && rows[j].body == rows[i].body ensures Recent(rows[i], rows[j]) {
      assert tail[j - BATCH_SIZE] == rows[j];
    }
  }

  lemma NotAcross(rows: seq<Row>, i: nat, l: nat)
    requires |rows| > BATCH_SIZE && CleanCut(rows[..BATCH_SIZE], rows[BATCH_SIZE..]) && i < l < |rows|
    requires rows[i].body == rows[l].body && Abs(rows[l].timestamp - rows[i].timestamp) < WINDOW
    ensures l < BATCH_SIZE || BATCH_SIZE <= i
  {
    InParts(rows, i, l);
  }

  lemma InParts(rows: seq<Row>, i: nat, l: nat)
    requires i < l < |rows| && |rows| > BATCH_SIZE
    ensures i < BATCH_SIZE <= l ==> rows[i] in rows[..BATCH_SIZE] && rows[l] in rows[BATCH_SIZE..]
  {
    if i < BATCH_SIZE <= l {
      assert rows[..BATCH_SIZE][i] == rows[i] && rows[BATCH_SIZE..][l - BATCH_SIZE] == rows[l];
    }
  }

  lemma PartsStay(rows: seq<Row>)
    requires |rows| > BATCH_SIZE
    requires var head, tail := rows[..BATCH_SIZE], rows[BATCH_SIZE..];
             StayTogether(head) && CleanCut(head, tail) && StayTogether(tail)
    ensures StayTogether(rows)
  {
    hide Recent, Abs, CleanCut, NothingFarBetween;
    forall i, l | 0 <= i < l < |rows| && rows[i].body == rows[l].body && Abs(rows[l].timestamp - rows[i].timestamp) < WINDOW
      ensures i / BATCH_SIZE == l / BATCH_SIZE && NothingFarBetween(rows, i, l)
    {
      NotAcross(rows, i, l);
      if l < BATCH_SIZE {
        StaysInHead(rows, i, l);
      } else {
        StaysInTail(rows, i, l);
      }
    }
  }

  // ----- Both directions -----

  lemma SendersSplit(rows: seq<Row>, senders: seq<string>, n: nat)
    requires |senders| == |rows| && n <= |rows|
    ensures WithSenders(rows, senders)[..n] == WithSenders(rows[..n], senders[..n])
    ensures WithSenders(rows, senders)[n..] == WithSenders(rows[n..], senders[n..])
  {
  }

  lemma PurgeAllSplits(rows: seq<Row>)
    requires |rows| > BATCH_SIZE
    ensures PurgeAll(rows) == PurgeRows(rows[..BATCH_SIZE]).survivors + PurgeAll(rows[BATCH_SIZE..])
  {
    hide PurgeRows;
  }

  lemma PurgeAllOfOne(rows: seq<Row>)
    requires |rows| <= BATCH_SIZE
    ensures PurgeAll(rows) == PurgeRows(rows).survivors
  {
    if rows == [] {
    } else {
      assert rows[|rows|..] == [];
      hide PurgeRows;
    }
  }

  lemma {:induction false} TogetherIsComplete(rows: seq<Row>, senders: seq<string>)
    requires |senders| == |rows| && Ascending(rows) && StayTogether(rows)
    ensures AllApart(PurgeAll(WithSenders(rows, senders)))
    decreases |rows|
  {
    hide StayTogether, NoReturn, PurgeRows, Near, CleanCut, Ascending, WithSenders;
    var all := WithSenders(rows, senders);
    if |rows| <= BATCH_SIZE {
      OneBatch(rows);
      NoReturnIgnoresSenders(rows, senders);
      PurgeIsComplete(all);
      PurgeAllOfOne(all);
    } else {
      var head, tail := rows[..BATCH_SIZE], rows[BATCH_SIZE..];
      BatchSplits(rows);
      AscendingParts(rows, BATCH_SIZE);
      SendersSplit(rows, senders, BATCH_SIZE);
      PurgeAllSplits(all);
      TogetherIsComplete(tail, senders[BATCH_SIZE..]);
      OneBatch(head);
      NoReturnIgnoresSenders(head, senders[..BATCH_SIZE]);
      PurgeIsComplete(WithSenders(head, senders[..BATCH_SIZE]));
      SendersKeepOrder(tail, senders[BATCH_SIZE..]);
      PartsApart(head, tail, senders[..BATCH_SIZE], senders[BATCH_SIZE..]);
    }
  }

  lemma SendersKeepOrder(rows: seq<Row>, senders: seq<string>)
    requires |senders| == |rows| && Ascending(rows)
    ensures Ascending(WithSenders(rows, senders))
  {
  }

  lemma AcrossNotNear(head: seq<Row>, tail: seq<Row>, s: seq<string>, t: seq<string>)
    requires |s| == |head| && |t| == |tail| && CleanCut(head, tail)
    ensures forall x, y | x in WithSenders(head, s) && y in WithSenders(tail, t) :: !Near(x, y) && !Near(y, x)
  {
    hide PhonesMatch, WithSenders;
    forall x, y | x in WithSenders(head, s) && y in WithSenders(tail, t) ensures !Near(x, y) && !Near(y, x) {
      var x0 := OriginalOf(head, s, x);
      var y0 := OriginalOf(tail, t, y);
    }
  }

  lemma OriginalOf(rows: seq<Row>, senders: seq<string>, x: Row) returns (r: Row)
    requires |senders| == |rows| && x in WithSenders(rows, senders)
    ensures r in rows && r.body == x.body && r.timestamp == x.timestamp
  {
    var i :| 0 <= i < |rows| && WithSenders(rows, senders)[i] == x;
    r := rows[i];
  }

  lemma PartsApart(head: seq<Row>, tail: seq<Row>, s: seq<string>, t: seq<string>)
    requires |s| == |head| && |t| == |tail| && CleanCut(head, tail)
    requires Ascending(WithSenders(head, s)) && Ascending(WithSenders(tail, t))
    requires Complete(WithSenders(head, s)) && AllApart(PurgeAll(WithSenders(tail, t)))
    ensures AllApart(PurgeRows(WithSenders(head, s)).survivors + PurgeAll(WithSenders(tail, t)))
  {
    hide PurgeRows, PurgeAll, Near, WithSenders, Ascending, HasKeeper;
    BatchIsSound(WithSenders(head, s));
    PurgeAllIsSound(WithSenders(tail, t));
    AcrossNotNear(head, tail, s, t);
  }

  lemma OneSpeakerAlone(rows: seq<Row>, m: nat)
    requires forall k :: 0 <= k < |rows| && k != m ==> rows[k].sender == ""
    ensures forall d, s | d in rows && s in rows && d.id != s.id :: !Near(d, s)
  {
    forall d, s | d in rows && s in rows && d.id != s.id ensures !Near(d, s) {
      NoDigitsNoMatch(d.sender);
      NoDigitsNoMatch(s.sender);
    }
  }

  /** Where a single sender has digits nothing is deleted. */
  lemma OneSpeakerStays(rows: seq<Row>, m: nat)
    requires Ascending(rows) && forall k :: 0 <= k < |rows| && k != m ==> rows[k].sender == ""
    ensures forall r | r in rows :: r in PurgeAll(rows)
  {
    hide PurgeAll, Near, Ascending;
    PurgeAllIsSound(rows);
    OneSpeakerAlone(rows, m);
  }

  /** Two rows within a window in different batches survive when nobody else has a sender. */
  lemma AcrossBatches(rows: seq<Row>, i: nat, l: nat) returns (senders: seq<string>)
    requires Ascending(rows) && i < BATCH_SIZE <= l < |rows| && rows[i].body == rows[l].body
    requires Abs(rows[l].timestamp - rows[i].timestamp) < WINDOW
    ensures |senders| == |rows| && !AllApart(PurgeAll(WithSenders(rows, senders)))
  {
    hide PurgeRows, PurgeAll, Near, PhonesMatch;
    senders := seq(|rows|, m => if m == i || m == l then "1" else "");
    var all := WithSenders(rows, senders);
    NearPair(rows[i], rows[l]);
    SendersKeepOrder(rows, senders);
    BothStay(all, i, l);
    assert rows[i].id < rows[l].id;
  }

  lemma NearPair(a: Row, b: Row)
    requires a.body == b.body && Abs(b.timestamp - a.timestamp) < WINDOW
    ensures Near(a.(sender := "1"), b.(sender := "1"))
  {
    NoDigitsNoMatch("1");
  }

  lemma BothStay(all: seq<Row>, i: nat, l: nat)
    requires Ascending(all) && i < BATCH_SIZE <= l < |all|
    requires forall m :: 0 <= m < |all| && m != i && m != l ==> all[m].sender == ""
    ensures all[i] in PurgeAll(all) && all[l] in PurgeAll(all)
  {
    hide *;
    var head, tail := all[..BATCH_SIZE], all[BATCH_SIZE..];
    AscendingParts(all, BATCH_SIZE);
    OnlySpeakerIn(all, head, 0, i);
    OnlySpeakerIn(all, tail, BATCH_SIZE, l);
    PurgeAllSplits(all);
    PurgeAllOfOne(head);
  }

  lemma OnlySpeakerIn(all: seq<Row>, part: seq<Row>, from: nat, k: nat)
    requires Ascending(part) && from <= k < from + |part| <= |all| && part == all[from..from + |part|]
    requires forall m :: from <= m < from + |part| && m != k ==> all[m].sender == ""
    ensures all[k] in PurgeAll(part)
  {
    hide *;
    forall m | 0 <= m < |part| && m != k - from ensures part[m].sender == "" {
      assert part[m] == all[from + m];
    }
    OneSpeakerStays(part, k - from);
    assert part[k - from] == all[k];
  }

  lemma {:induction false} IncompleteForSome(rows: seq<Row>) returns (senders: seq<string>)
    requires Ascending(rows) && !StayTogether(rows)
    ensures |senders| == |rows| && !AllApart(PurgeAll(WithSenders(rows, senders)))
    decreases |rows|
  {
    hide StayTogether, NoReturn, PurgeRows, Near, Ascending, WithSenders, Complete;
    if |rows| <= BATCH_SIZE {
      OneBatch(rows);
      CompleteForAllSendersIffNoReturn(rows);
      senders :| |senders| == |rows| && !Complete(WithSenders(rows, senders));
      PurgeAllOfOne(WithSenders(rows, senders));
      ApartIsComplete(WithSenders(rows, senders));
    } else {
      senders := IncompleteParts(rows);
    }
  }

  lemma ApartIsComplete(rows: seq<Row>)
    ensures AllApart(PurgeRows(rows).survivors) <==> Complete(rows)
  {
  }

  lemma ApartParts(a: seq<Row>, b: seq<Row>)
    requires AllApart(a + b)
    ensures AllApart(a) && AllApart(b)
  {
    hide Near;
    forall s | s in a || s in b ensures s in a + b {
    }
  }

  /** An incomplete part makes the whole incomplete. */
  lemma IncompletePart(rows: seq<Row>, senders: seq<string>)
    requires |senders| == |rows| > BATCH_SIZE
    requires || !AllApart(PurgeAll(WithSenders(rows[..BATCH_SIZE], senders[..BATCH_SIZE])))
             || !AllApart(PurgeAll(WithSenders(rows[BATCH_SIZE..], senders[BATCH_SIZE..])))
    ensures !AllApart(PurgeAll(WithSenders(rows, senders)))
  {
    hide AllApart, PurgeAll, PurgeRows, WithSenders;
    var all := WithSenders(rows, senders);
    SendersSplit(rows, senders, BATCH_SIZE);
    PurgeAllSplits(all);
    PurgeAllOfOne(all[..BATCH_SIZE]);
    if AllApart(PurgeAll(all)) {
      ApartParts(PurgeRows(all[..BATCH_SIZE]).survivors, PurgeAll(all[BATCH_SIZE..]));
    }
  }

  lemma CloseAcross(rows: seq<Row>) returns (i: nat, l: nat)
    requires |rows| > BATCH_SIZE && !CleanCut(rows[..BATCH_SIZE], rows[BATCH_SIZE..])
    ensures i < BATCH_SIZE <= l < |rows| && rows[i].body == rows[l].body
    ensures Abs(rows[l].timestamp - rows[i].timestamp) < WINDOW
  {
    var head, tail := rows[..BATCH_SIZE], rows[BATCH_SIZE..];
    var x, y :| x in head && y in tail && x.body == y.body && Abs(y.timestamp - x.timestamp) < WINDOW;
    i :| i < |head| && head[i] == x;
    var k: nat :| k < |tail| && tail[k] == y;
    l := k + BATCH_SIZE;
    assert rows[i] == x && rows[l] == y;
  }

  lemma {:induction false} IncompleteParts(rows: seq<Row>) returns (senders: seq<string>)
    requires Ascending(rows) && !StayTogether(rows) && |rows| > BATCH_SIZE
    ensures |senders| == |rows| && !AllApart(PurgeAll(WithSenders(rows, senders)))
    decreases |rows|, 0
  {
    hide StayTogether, AllApart, PurgeAll, CleanCut, Ascending, WithSenders;
    var head, tail := rows[..BATCH_SIZE], rows[BATCH_SIZE..];
    BatchSplits(rows);
    AscendingParts(rows, BATCH_SIZE);
    if !StayTogether(head) {
      var s := IncompleteForSome(head);
      senders := s + seq(|tail|, _ => "");
      assert senders[..BATCH_SIZE] == s;
      IncompletePart(rows, senders);
    } else if !StayTogether(tail) {
      var t := IncompleteForSome(tail);
      senders := seq(|head|, _ => "") + t;
      assert senders[BATCH_SIZE..] == t;
      IncompletePart(rows, senders);
    } else {
      var i, l := CloseAcross(rows);
      senders := AcrossBatches(rows, i, l);
    }
  }

  /**
   The purge leaves no near-duplicates, whoever the senders are, exactly if rows of one body
   within a window of each other are in one batch of 5000 and no row of the body between them
   lies two windows away.
   */
  lemma PurgeAllIsCompleteIffTogether(rows: seq<Row>)
    requires Ascending(rows)
    ensures (forall senders: seq<string> | |senders| == |rows| :: AllApart(PurgeAll(WithSenders(rows, senders))))
            <==> StayTogether(rows)
  {
    if StayTogether(rows) {
      forall senders: seq<string> | |senders| == |rows| ensures AllApart(PurgeAll(WithSenders(rows, senders))) {
        TogetherIsComplete(rows, senders);
      }
    } else {
      var senders := IncompleteForSome(rows);
    }
  }
}
