/** The message table: insertion behind the deduper, and the purge over all batches. */
module SmsTable {
  import opened Common
  import opened SmsTypes
  import opened SmsPurge
  import opened SmsBatches
  import opened Selections

  const QUERY_LIMIT: nat := 40

  // ----- The near-duplicate query -----

  predicate InWindow(r: Row, body: string, timestamp: int) {
    r.body == body && Abs(r.timestamp - timestamp) < WINDOW
  }

  /** The rows of a body within the window, in id order. */
  function Window(rows: seq<Row>, body: string, timestamp: int): (w: seq<Row>)
    ensures |w| <= |rows|
  {
    if rows == [] then []
    else
      var n := |rows| - 1;
      Window(rows[..n], body, timestamp) + if InWindow(rows[n], body, timestamp) then [rows[n]] else []
  }

  function CloseTo(body: string, timestamp: int): Row -> bool {
    (r: Row) => r.body == body && Abs(r.timestamp - timestamp) < WINDOW
  }

  lemma {:induction false} WindowSelects(rows: seq<Row>, body: string, timestamp: int)
    ensures Selects(Window(rows, body, timestamp), rows, CloseTo(body, timestamp))
  {
    hide Selects;
    if rows == [] {
      SelectsNone(CloseTo(body, timestamp));
    } else {
      var front, last := rows[..|rows| - 1], rows[|rows| - 1];
      WindowSelects(front, body, timestamp);
      SelectsNext(Window(front, body, timestamp), front, last, CloseTo(body, timestamp));
      assert rows == front + [last];
    }
  }

  function FirstMatch(rows: seq<Row>, sender: string): Option<int> {
    if rows == [] then None
    else if PhonesMatch(sender, rows[0].sender) then Some(rows[0].id)
    else FirstMatch(rows[1..], sender)
  }

  function NearDuplicateId(rows: seq<Row>, sender: string, body: string, timestamp: int): Option<int> {
    if body == "" || timestamp == 0 then None
    else FirstMatch(AtMost(Window(rows, body, timestamp), QUERY_LIMIT), sender)
  }

  // ----- Insertion -----

  predicate ExactHit(rows: seq<Row>, sender: string, body: string, timestamp: int) {
    exists r :: r in rows && r.sender == sender && r.body == body && r.timestamp == timestamp
  }

  /** The table after an insertion through the deduper, for a time stamp already filled in. */
  function Inserted(rows: seq<Row>, id: int, sender: string, body: string, timestamp: int): seq<Row> {
    if NearDuplicateId(rows, sender, body, timestamp).Some? || ExactHit(rows, sender, body, timestamp) then rows
    else rows + [Row(id, sender, body, timestamp)]
  }

  /** No two rows with text are near-duplicates of each other. */
  ghost predicate NoNear(rows: seq<Row>) {
    forall i, j :: 0 <= i < j < |rows| && rows[i].body != "" ==> !Near(rows[i], rows[j])
  }

  lemma {:induction false} WindowMembers(rows: seq<Row>, body: string, timestamp: int)
    ensures forall r :: r in Window(rows, body, timestamp) <==> r in rows && InWindow(r, body, timestamp)
  {
    if rows != [] {
      var n := |rows| - 1;
      WindowMembers(rows[..n], body, timestamp);
      assert rows == rows[..n] + [rows[n]];
    }
  }

  lemma {:induction false} FirstMatchFinds(rows: seq<Row>, sender: string)
    ensures FirstMatch(rows, sender).None? <==> forall r | r in rows :: !PhonesMatch(sender, r.sender)
    ensures FirstMatch(rows, sender).Some? ==> exists i :: FirstAt(rows, sender, i) && rows[i].id == FirstMatch(rows, sender).value
  {
    hide PhonesMatch;
    if rows != [] {
      FirstMatchFinds(rows[1..], sender);
      if PhonesMatch(sender, rows[0].sender) {
        assert FirstAt(rows, sender, 0);
      } else if FirstMatch(rows, sender).Some? {
        var i :| FirstAt(rows[1..], sender, i) && rows[1..][i].id == FirstMatch(rows, sender).value;
        assert rows[i + 1] == rows[1..][i];
        assert FirstAt(rows, sender, i + 1) by {
          forall j | 0 <= j < i + 1 ensures !PhonesMatch(sender, rows[j].sender) {
            assert j > 0 ==> rows[j] == rows[1..][j - 1];
          }
        }
      }
    }
  }

  /** The row at i is the first whose phone matches. */
  ghost predicate FirstAt(rows: seq<Row>, sender: string, i: int) {
    0 <= i < |rows| && PhonesMatch(sender, rows[i].sender) && forall j | 0 <= j < i :: !PhonesMatch(sender, rows[j].sender)
  }

  /** The id of the first match among the rows, if there is one. */
  ghost predicate FindsFirst(rows: seq<Row>, sender: string, r: Option<int>) {
    match r
    case None => forall x | x in rows :: !PhonesMatch(sender, x.sender)
    case Some(id) => exists i :: FirstAt(rows, sender, i) && rows[i].id == id
  }

  /** A message with text and time: the first match of the first forty rows of its body in the window. */
  ghost predicate NearestKnown(rows: seq<Row>, sender: string, body: string, timestamp: int, r: Option<int>) {
    if body == "" || timestamp == 0 then r.None?
    else exists w: seq<Row> :: Selects(w, rows, CloseTo(body, timestamp)) && FindsFirst(AtMost(w, QUERY_LIMIT), sender, r)
  }

  lemma QueryMeans(rows: seq<Row>, sender: string, body: string, timestamp: int)
    ensures NearestKnown(rows, sender, body, timestamp, NearDuplicateId(rows, sender, body, timestamp))
  {
    var w := Window(rows, body, timestamp);
    WindowSelects(rows, body, timestamp);
    FirstMatchFinds(AtMost(w, QUERY_LIMIT), sender);
    hide Selects, PhonesMatch, Window, FirstMatch;
  }

  /** An id returned as a duplicate belongs to a stored row that is near the message. */
  lemma DuplicateIdIsNear(rows: seq<Row>, sender: string, body: string, timestamp: int, id: int)
    requires NearDuplicateId(rows, sender, body, timestamp).Some?
    ensures exists r :: r in rows && r.id == NearDuplicateId(rows, sender, body, timestamp).value
                        && Near(Row(id, sender, body, timestamp), r)
  {
    var w := Window(rows, body, timestamp);
    WindowMembers(rows, body, timestamp);
    FirstMatchFinds(AtMost(w, QUERY_LIMIT), sender);
    var i :| FirstAt(AtMost(w, QUERY_LIMIT), sender, i)
      && AtMost(w, QUERY_LIMIT)[i].id == FirstMatch(AtMost(w, QUERY_LIMIT), sender).value;
    var r := AtMost(w, QUERY_LIMIT)[i];
    assert r in w;
    assert Near(Row(id, sender, body, timestamp), r);
  }

  /** With at most 40 rows of the body in the window, insertion keeps the table free of near-duplicates. */
  lemma InsertKeepsNoNear(rows: seq<Row>, id: int, sender: string, body: string, timestamp: int)
    requires NoNear(rows) && timestamp != 0 && |Window(rows, body, timestamp)| <= QUERY_LIMIT
    ensures NoNear(Inserted(rows, id, sender, body, timestamp))
  {
    var r := Row(id, sender, body, timestamp);
    if Inserted(rows, id, sender, body, timestamp) != rows {
      WindowMembers(rows, body, timestamp);
      FirstMatchFinds(Window(rows, body, timestamp), sender);
    }
  }

  // ----- The limit is exact -----

  /** Whatever the senders are, inserting such a message keeps a clean table clean. */
  ghost predicate AlwaysClean(rows: seq<Row>, id: int, body: string, timestamp: int) {
    forall senders: seq<string>, sender: string | |senders| == |rows| && NoNear(WithSenders(rows, senders)) ::
      NoNear(Inserted(WithSenders(rows, senders), id, sender, body, timestamp))
  }

  lemma {:induction false} WindowIgnoresSenders(rows: seq<Row>, senders: seq<string>, body: string, timestamp: int)
    requires |senders| == |rows|
    ensures |Window(WithSenders(rows, senders), body, timestamp)| == |Window(rows, body, timestamp)|
    ensures forall i :: 0 <= i < |Window(rows, body, timestamp)| ==>
              Window(WithSenders(rows, senders), body, timestamp)[i].id == Window(rows, body, timestamp)[i].id
  {
    if rows != [] {
      var n := |rows| - 1;
      assert WithSenders(rows, senders)[..n] == WithSenders(rows[..n], senders[..n]);
      WindowIgnoresSenders(rows[..n], senders[..n], body, timestamp);
    }
  }

  lemma InsertIsCleanIffFewRows(rows: seq<Row>, id: int, body: string, timestamp: int)
    requires Ascending(rows) && body != "" && timestamp != 0
    ensures AlwaysClean(rows, id, body, timestamp) <==> |Window(rows, body, timestamp)| <= QUERY_LIMIT
  {
    hide NoNear, Inserted;
    if |Window(rows, body, timestamp)| <= QUERY_LIMIT {
      forall senders: seq<string>, sender: string | |senders| == |rows| && NoNear(WithSenders(rows, senders))
        ensures NoNear(Inserted(WithSenders(rows, senders), id, sender, body, timestamp))
      {
        WindowIgnoresSenders(rows, senders, body, timestamp);
        InsertKeepsNoNear(WithSenders(rows, senders), id, sender, body, timestamp);
      }
    } else {
      var w := Window(rows, body, timestamp);
      WindowMembers(rows, body, timestamp);
      assert w[QUERY_LIMIT] in w;
      var x: nat :| x < |rows| && rows[x] == w[QUERY_LIMIT];
      var senders := seq(|rows|, m => if m == x then "1" else "");
      assert |senders| == |rows|;
      LimitHidesRow(rows, senders, x, id, body, timestamp);
    }
  }

  /** The only row with a matching sender comes after the first forty of the window. */
  lemma LimitHidesRow(rows: seq<Row>, senders: seq<string>, x: nat, id: int, body: string, timestamp: int)
    requires Ascending(rows) && body != "" && timestamp != 0 && x < |rows|
    requires |Window(rows, body, timestamp)| > QUERY_LIMIT && rows[x] == Window(rows, body, timestamp)[QUERY_LIMIT]
    requires senders == seq(|rows|, m => if m == x then "1" else "")
    ensures NoNear(WithSenders(rows, senders))
    ensures !NoNear(Inserted(WithSenders(rows, senders), id, "+1", body, timestamp))
  {
    hide NearDuplicateId, Inserted, NoNear, Window, PhonesMatch;
    var rows' := WithSenders(rows, senders);
    OneSenderIsClean(rows', x);
    WindowIgnoresSenders(rows, senders, body, timestamp);
    FirstFortyDoNotMatch(rows', x, body, timestamp);
    WindowMembers(rows, body, timestamp);
    assert rows[x] in Window(rows, body, timestamp);
    PlusOne();
    BreaksNoNear(rows', Row(id, "+1", body, timestamp), x);
  }

  lemma FirstFortyDoNotMatch(rows: seq<Row>, x: nat, body: string, timestamp: int)
    requires Ascending(rows) && x < |rows| && forall m :: 0 <= m < |rows| && m != x ==> rows[m].sender == ""
    requires |Window(rows, body, timestamp)| > QUERY_LIMIT && Window(rows, body, timestamp)[QUERY_LIMIT].id == rows[x].id
    ensures NearDuplicateId(rows, "+1", body, timestamp).None?
  {
    hide Window, PhonesMatch;
    var w := Window(rows, body, timestamp);
    WindowMembers(rows, body, timestamp);
    WindowAscends(rows, body, timestamp);
    forall r | r in w[..QUERY_LIMIT] ensures !PhonesMatch("+1", r.sender) {
      var i :| 0 <= i < QUERY_LIMIT && w[i] == r;
      assert r in w && w[i].id < w[QUERY_LIMIT].id;
      var m :| 0 <= m < |rows| && rows[m] == r;
      NoDigitsNoMatch("+1");
    }
    FirstMatchFinds(w[..QUERY_LIMIT], "+1");
  }

  lemma {:induction false} WindowAscends(rows: seq<Row>, body: string, timestamp: int)
    requires Ascending(rows)
    ensures Ascending(Window(rows, body, timestamp))
  {
    if rows != [] {
      var n := |rows| - 1;
      var w := Window(rows[..n], body, timestamp);
      WindowAscends(rows[..n], body, timestamp);
      WindowMembers(rows[..n], body, timestamp);
      forall i | 0 <= i < |w| ensures w[i].id < rows[n].id {
        assert w[i] in rows[..n];
        var m :| 0 <= m < n && rows[m] == w[i];
      }
    }
  }

  lemma PlusOne()
    ensures PhonesMatch("+1", "1") && PhonesMatch("1", "+1")
  {
    assert "+1"[..1] == "+" && "+"[..0] == "" && "1"[..0] == "";
    assert DigitsOf("+") == "" && DigitsOf("+1") == "1" && DigitsOf("1") == "1";
  }

  lemma OneSenderIsClean(rows: seq<Row>, x: nat)
    requires x < |rows| && forall m :: 0 <= m < |rows| && m != x ==> rows[m].sender == ""
    ensures NoNear(rows)
  {
    forall i, j | 0 <= i < j < |rows| ensures !Near(rows[i], rows[j]) {
      NoDigitsNoMatch(rows[i].sender);
      NoDigitsNoMatch(rows[j].sender);
    }
  }

  lemma BreaksNoNear(rows: seq<Row>, r: Row, x: nat)
    requires x < |rows| && rows[x].sender == "1" && InWindow(rows[x], r.body, r.timestamp) && r.body != ""
    requires r.sender == "+1" && PhonesMatch("1", "+1")
    requires forall m :: 0 <= m < |rows| && m != x ==> rows[m].sender == ""
    requires NearDuplicateId(rows, r.sender, r.body, r.timestamp).None?
    ensures !NoNear(Inserted(rows, r.id, r.sender, r.body, r.timestamp))
  {
    assert !ExactHit(rows, r.sender, r.body, r.timestamp);
    var rows' := rows + [r];
    assert Near(rows'[x], rows'[|rows|]);
  }

  // ----- The purge at startup -----

  /** Rows with ids above `id`, in order. */
  function Above(rows: seq<Row>, id: int): (a: seq<Row>)
    ensures |a| <= |rows|
  {
    if rows == [] then []
    else
      var n := |rows| - 1;
      Above(rows[..n], id) + if rows[n].id > id then [rows[n]] else []
  }

  function Without(rows: seq<Row>, ids: seq<int>): (k: seq<Row>)
    ensures |k| <= |rows|
  {
    if rows == [] then []
    else
      var n := |rows| - 1;
      Without(rows[..n], ids) + if rows[n].id in ids then [] else [rows[n]]
  }

  lemma {:induction false} AboveIsTheRest(done: seq<Row>, rest: seq<Row>, id: int)
    requires (forall r | r in done :: r.id <= id) && forall r | r in rest :: r.id > id
    ensures Above(done + rest, id) == rest
    decreases |done| + |rest|
  {
    var rows := done + rest;
    if rest != [] {
      var n := |rest| - 1;
      assert rows[..|rows| - 1] == done + rest[..n];
      AboveIsTheRest(done, rest[..n], id);
    } else if done != [] {
      var n := |done| - 1;
      assert rows[..|rows| - 1] == done[..n] + [];
      assert done[n] in done;
      AboveIsTheRest(done[..n], [], id);
    }
  }

  lemma {:induction false} WithoutSplits(a: seq<Row>, b: seq<Row>, ids: seq<int>)
    ensures Without(a + b, ids) == Without(a, ids) + Without(b, ids)
  {
    if b == [] {
      assert a + b == a;
    } else {
      var n := |b| - 1;
      assert (a + b)[..|a + b| - 1] == a + b[..n];
      WithoutSplits(a, b[..n], ids);
    }
  }

  lemma {:induction false} WithoutNone(rows: seq<Row>, ids: seq<int>)
    requires forall r | r in rows :: r.id !in ids
    ensures Without(rows, ids) == rows
  {
    if rows != [] {
      var n := |rows| - 1;
      WithoutNone(rows[..n], ids);
      assert rows[n] in rows && rows == rows[..n] + [rows[n]];
    }
  }

  lemma {:induction false} WithoutAgrees(rows: seq<Row>, ids: seq<int>, ids': seq<int>)
    requires forall r | r in rows :: r.id in ids <==> r.id in ids'
    ensures Without(rows, ids) == Without(rows, ids')
  {
    if rows != [] {
      var n := |rows| - 1;
      WithoutAgrees(rows[..n], ids, ids');
      assert rows[n] in rows;
    }
  }

  /** Deleting what a batch decided to delete leaves its survivors. */
  lemma {:induction false} DeletingLeavesSurvivors(batch: seq<Row>)
    requires Ascending(batch)
    ensures Without(batch, Ids(PurgeRows(batch).deleted)) == PurgeRows(batch).survivors
  {
    if batch != [] {
      var n := |batch| - 1;
      var front, r := batch[..n], batch[n];
      DeletingLeavesSurvivors(front);
      PurgeInvariant(front);
      LastRow(front, r, PurgeRows(front));
      assert batch == front + [r];
    }
  }

  lemma LastRow(front: seq<Row>, r: Row, p: Progress)
    requires Ascending(front + [r]) && (forall d | d in p.deleted :: d in front)
    requires Without(front, Ids(p.deleted)) == p.survivors
    ensures Without(front + [r], Ids(PurgeRow(p, r).deleted)) == PurgeRow(p, r).survivors
  {
    forall x | x in front ensures x.id < r.id {
      EarlierId(front, r, x);
    }
    LastRowGoes(front, r, Ids(p.deleted));
    NotYetDeleted(front, r, p);
    hide Without, Ids, Ascending, Duplicate, KeepRecent, Compacted;
  }

  lemma NotYetDeleted(front: seq<Row>, r: Row, p: Progress)
    requires forall x | x in front :: x.id < r.id
    requires forall d | d in p.deleted :: d in front
    ensures r.id !in Ids(p.deleted) && Ids(p.deleted + [r]) == Ids(p.deleted) + [r.id]
  {
    var ids := Ids(p.deleted);
    forall i | 0 <= i < |ids| ensures ids[i] != r.id {
      assert p.deleted[i] in front;
    }
  }

  lemma LastRowGoes(front: seq<Row>, r: Row, ids: seq<int>)
    requires forall x | x in front :: x.id < r.id
    ensures Without(front + [r], ids + [r.id]) == Without(front, ids)
    ensures r.id !in ids ==> Without(front + [r], ids) == Without(front, ids) + [r]
  {
    assert (front + [r])[..|front|] == front;
    WithoutAgrees(front, ids, ids + [r.id]);
    assert r.id in ids + [r.id];
  }

  /** Deleting from the table what a batch decided to delete touches that batch alone. */
  lemma DeletingInBatch(done: seq<Row>, batch: seq<Row>, rest: seq<Row>)
    requires Ascending(done + batch + rest)
    ensures Without(done + batch + rest, Ids(PurgeRows(batch).deleted)) == done + PurgeRows(batch).survivors + rest
    ensures Ascending(done + PurgeRows(batch).survivors + rest)
  {
    hide Without, PurgeRows, Ids;
    var ids := Ids(PurgeRows(batch).deleted);
    BatchesApart(done, batch, rest);
    hide Ascending;
    DeletedIds(batch);
    WithoutNone(done, ids);
    WithoutNone(rest, ids);
    DeletingLeavesSurvivors(batch);
    WithoutSplits(done + batch, rest, ids);
    WithoutSplits(done, batch, ids);
    WithoutMembers(done + batch + rest, ids);
  }

  lemma DeletedIds(batch: seq<Row>)
    requires Ascending(batch)
    ensures forall id | id in Ids(PurgeRows(batch).deleted) :: exists r :: r in batch && r.id == id
  {
    PurgeInvariant(batch);
    hide PurgeRows;
    forall id | id in Ids(PurgeRows(batch).deleted) ensures exists r :: r in batch && r.id == id {
      var i :| 0 <= i < |PurgeRows(batch).deleted| && PurgeRows(batch).deleted[i].id == id;
      assert PurgeRows(batch).deleted[i] in batch;
    }
  }

  lemma FrontIsEarlier(a: seq<Row>, b: seq<Row>)
    requires Ascending(a + b)
    ensures Ascending(a) && Ascending(b)
    ensures forall x, y | x in a && y in b :: x.id < y.id
  {
    var rows := a + b;
    forall i, j | 0 <= i < |a| && 0 <= j < |b| ensures a[i].id < b[j].id {
      assert rows[i] == a[i] && rows[|a| + j] == b[j];
    }
    assert rows[..|a|] == a && rows[|a|..] == b;
    AscendingParts(rows, |a|);
  }

  lemma BatchesApart(done: seq<Row>, batch: seq<Row>, rest: seq<Row>)
    requires Ascending(done + batch + rest)
    ensures Ascending(batch)
    ensures forall x, r | x in batch && r in done :: r.id < x.id
    ensures forall x, r | x in batch && r in rest :: x.id < r.id
  {
    FrontIsEarlier(done + batch, rest);
    FrontIsEarlier(done, batch);
    hide Ascending;
    forall x | x in batch ensures x in done + batch {
    }
  }

  lemma {:induction false} WithoutMembers(rows: seq<Row>, ids: seq<int>)
    requires Ascending(rows)
    ensures Ascending(Without(rows, ids))
    ensures forall r :: r in Without(rows, ids) <==> r in rows && r.id !in ids
  {
    if rows != [] {
      var n := |rows| - 1;
      WithoutMembers(rows[..n], ids);
      assert rows == rows[..n] + [rows[n]];
      var k := Without(rows[..n], ids);
      forall i | 0 <= i < |k| ensures k[i].id < rows[n].id {
        assert k[i] in rows[..n];
        var m :| 0 <= m < n && rows[m] == k[i];
      }
    }
  }

  // ----- The table -----

  class Table {
    var rows: seq<Row>
    var nextId: int

    ghost predicate Valid()
      reads this
    {
      Ascending(rows) && nextId > 0 && forall r | r in rows :: 0 < r.id < nextId
    }

    constructor ()
      ensures Valid() && rows == []
    {
      rows, nextId := [], 1;
    }

    method Query(sender: string, body: string, timestamp: int) returns (r: Option<int>)
      ensures r == NearDuplicateId(rows, sender, body, timestamp)
      ensures NearestKnown(rows, sender, body, timestamp, r)
    {
      QueryMeans(rows, sender, body, timestamp);
      hide NearestKnown;
      if body == "" || timestamp == 0 {
        return None;
      }
      var w := Select(rows, body, timestamp);
      w := AtMost(w, QUERY_LIMIT);
      var i := 0;
      while i < |w|
        invariant 0 <= i <= |w|
        invariant FirstMatch(w, sender) == FirstMatch(w[i..], sender)
      {
        var matches := Match(sender, w[i].sender);
        if matches {
          return Some(w[i].id);
        }
        assert w[i..][1..] == w[i + 1..];
        i := i + 1;
      }
      return None;
    }

    /** A missing time stamp becomes the current time first. */
    method InsertDeduped(sender: string, body: string, timestamp0: int, now: int)
        returns (id: int, inserted: bool)
      requires Valid()
      modifies this
      ensures Valid()
      ensures var timestamp := if timestamp0 == 0 then now else timestamp0;
              && rows == Inserted(old(rows), old(nextId), sender, body, timestamp)
              && (exists known :: NearestKnown(old(rows), sender, body, timestamp, known)
                    && (inserted <==> known.None? && !ExactHit(old(rows), sender, body, timestamp))
                    && (known.Some? ==> id == known.value))
              && (inserted ==> id == old(nextId) && rows == old(rows) + [Row(id, sender, body, timestamp)])
              && (!inserted ==> rows == old(rows))
              && (NoNear(old(rows)) && timestamp != 0 && |Window(old(rows), body, timestamp)| <= QUERY_LIMIT ==>
                    NoNear(rows))
    {
      var timestamp := if timestamp0 == 0 then now else timestamp0;
      ghost var rows0, id0 := rows, nextId;
      if NoNear(rows0) && timestamp != 0 && |Window(rows0, body, timestamp)| <= QUERY_LIMIT {
        InsertKeepsNoNear(rows0, id0, sender, body, timestamp);
      }
      hide NoNear, NearDuplicateId, Window, NearestKnown;
      var dup := Query(sender, body, timestamp);
      if dup.Some? {
        return dup.value, false;
      }
      if ExactHit(rows, sender, body, timestamp) {
        return 0, false;
      }
      var r := Row(nextId, sender, body, timestamp);
      assert (rows + [r])[|rows|] == r;
      rows := rows + [r];
      nextId := nextId + 1;
      return r.id, true;
    }

    /** Batch after batch; every deleted row leaves an earlier near-duplicate in the table. */
    method Purge()
      requires Valid()
      modifies this`rows
      ensures Valid()
      ensures rows == PurgeAll(old(rows))
      ensures forall r | r in rows :: r in old(rows)
      ensures forall r | r in old(rows) && r !in rows :: HasKeeper(rows, r)
    {
      hide Ascending, PurgeAll, PurgeRows, Above, Without, Near;
      PurgeAllIsSound(rows);
      var maxId := 0;
      ghost var done, rest := [], rows;
      while true
        invariant Ascending(rows) && nextId == old(nextId) && maxId >= 0
        invariant rows == done + rest && PurgeAll(old(rows)) == done + PurgeAll(rest)
        invariant (forall r | r in done :: r.id <= maxId) && forall r | r in rest :: maxId < r.id < nextId
        decreases nextId - maxId
      {
        AboveIsTheRest(done, rest, maxId);
        var above := SelectAbove(rows, maxId);
        var all := AtMost(above, BATCH_SIZE);
        if |all| == 0 {
          break;
        }
        var toDelete := PurgeBatch(all);
        var last := all[|all| - 1];
        Round(done, rest, all, maxId);
        rows := Delete(rows, toDelete);
        maxId := last.id;
        done, rest := done + PurgeRows(all).survivors, rest[|all|..];
      }
      NothingLeft();
    }
  }

  lemma NothingLeft()
    ensures PurgeAll([]) == []
  {
  }

  /** What one round of the loop does. */
  lemma Round(done: seq<Row>, rest: seq<Row>, batch: seq<Row>, maxId: int)
    requires Ascending(done + rest) && batch == AtMost(rest, BATCH_SIZE) && batch != []
    requires (forall r | r in done :: r.id <= maxId) && forall r | r in rest :: maxId < r.id
    ensures var done', rest' := done + PurgeRows(batch).survivors, rest[|batch|..];
            var last := batch[|batch| - 1].id;
            && Without(done + rest, Ids(PurgeRows(batch).deleted)) == done' + rest' && Ascending(done' + rest')
            && PurgeAll(rest) == PurgeRows(batch).survivors + PurgeAll(rest')
            && maxId < last && batch[|batch| - 1] in rest
            && (forall r | r in done' :: r.id <= last) && (forall r | r in rest' :: last < r.id && r in rest)
  {
    hide Without, PurgeRows, Ids;
    var rest' := rest[|batch|..];
    assert rest == batch + rest';
    assert done + rest == done + batch + rest';
    DeletingInBatch(done, batch, rest');
    LastOfBatch(done, batch, rest');
    assert batch[|batch| - 1] in rest;
  }

  lemma LastOfBatch(done: seq<Row>, batch: seq<Row>, rest: seq<Row>)
    requires Ascending(done + batch + rest) && batch != []
    ensures forall r | r in PurgeRows(batch).survivors :: r.id <= batch[|batch| - 1].id
    ensures forall r | r in rest :: batch[|batch| - 1].id < r.id
  {
    BatchesApart(done, batch, rest);
    BatchIsSound(batch);
    hide PurgeRows, HasKeeper;
    var last := batch[|batch| - 1];
    assert last in batch;
    forall r | r in batch ensures r.id <= last.id {
      var i :| 0 <= i < |batch| && batch[i] == r;
    }
  }

  method SelectAbove(rows: seq<Row>, id: int) returns (a: seq<Row>)
    ensures a == Above(rows, id)
  {
    a := [];
    for i := 0 to |rows|
      invariant a == Above(rows[..i], id)
    {
      assert rows[..i + 1][..i] == rows[..i];
      if rows[i].id > id {
        a := a + [rows[i]];
      }
    }
    assert rows[..|rows|] == rows;
  }

  method Delete(rows: seq<Row>, ids: seq<int>) returns (left: seq<Row>)
    ensures left == Without(rows, ids)
  {
    left := [];
    for i := 0 to |rows|
      invariant left == Without(rows[..i], ids)
    {
      assert rows[..i + 1][..i] == rows[..i];
      if rows[i].id !in ids {
        left := left + [rows[i]];
      }
    }
    assert rows[..|rows|] == rows;
  }

  /** The SQL filter, in id order. */
  method Select(rows: seq<Row>, body: string, timestamp: int) returns (w: seq<Row>)
    ensures w == Window(rows, body, timestamp)
  {
    w := [];
    for i := 0 to |rows|
      invariant w == Window(rows[..i], body, timestamp)
    {
      assert rows[..i + 1][..i] == rows[..i];
      if rows[i].body == body && Abs(rows[i].timestamp - timestamp) < WINDOW {
        w := w + [rows[i]];
      }
    }
    assert rows[..|rows|] == rows;
  }
}
