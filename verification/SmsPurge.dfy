/**
 Purging one batch of near-duplicates. The candidates kept per message body live in a
 slice that is compacted in place; when the row turns out to be a duplicate the shorter
 slice is not stored back, so the stored slice keeps its length and a stale tail.
 */
module SmsPurge {
  import opened SmsTypes

  predicate Recent(k: Row, r: Row) {
    Abs(r.timestamp - k.timestamp) < 2 * WINDOW
  }

  function KeepRecent(cands: seq<Row>, r: Row): (kept: seq<Row>)
    ensures |kept| <= |cands|
  {
    if cands == [] then []
    else
      var n := |cands| - 1;
      KeepRecent(cands[..n], r) + if Recent(cands[n], r) then [cands[n]] else []
  }

  /** The stored slice after compaction in place: the survivors, then whatever was there. */
  function Compacted(cands: seq<Row>, r: Row): seq<Row> {
    KeepRecent(cands, r) + cands[|KeepRecent(cands, r)|..]
  }

  predicate Duplicate(cands: seq<Row>, r: Row) {
    exists k :: k in cands && PhonesMatch(r.sender, k.sender) && Abs(r.timestamp - k.timestamp) < WINDOW
  }

  datatype Progress = Progress(kept: map<string, seq<Row>>, survivors: seq<Row>, deleted: seq<Row>)

  function Candidates(kept: map<string, seq<Row>>, body: string): seq<Row> {
    if body in kept then kept[body] else []
  }

  function PurgeRow(p: Progress, r: Row): Progress {
    var cands := Candidates(p.kept, r.body);
    var alive := KeepRecent(cands, r);
    if Duplicate(alive, r) then
      Progress(if r.body in p.kept then p.kept[r.body := Compacted(cands, r)] else p.kept,
               p.survivors, p.deleted + [r])
    else Progress(p.kept[r.body := alive + [r]], p.survivors + [r], p.deleted)
  }

  function PurgeRows(rows: seq<Row>): Progress {
    if rows == [] then Progress(map[], [], []) else PurgeRow(PurgeRows(rows[..|rows| - 1]), rows[|rows| - 1])
  }

  // ----- Soundness -----

  lemma {:induction false} KeepRecentMembers(cands: seq<Row>, r: Row)
    ensures forall k :: k in KeepRecent(cands, r) <==> k in cands && Recent(k, r)
  {
    if cands != [] {
      var n := |cands| - 1;
      KeepRecentMembers(cands[..n], r);
      assert cands == cands[..n] + [cands[n]];
    }
  }

  lemma CompactedMembers(cands: seq<Row>, r: Row)
    ensures forall k :: k in Compacted(cands, r) ==> k in cands
    ensures forall k :: k in cands && Recent(k, r) ==> k in Compacted(cands, r)
  {
    KeepRecentMembers(cands, r);
  }

  ghost predicate KeptAreSurvivors(p: Progress) {
    forall b, k | b in p.kept && k in p.kept[b] :: k in p.survivors && k.body == b
  }

  ghost predicate HasKeeper(survivors: seq<Row>, d: Row) {
    exists s :: s in survivors && s.id < d.id && Near(d, s)
  }

  lemma {:induction false} PurgeInvariant(rows: seq<Row>)
    requires Ascending(rows)
    ensures var p := PurgeRows(rows);
            && KeptAreSurvivors(p)
            && (forall s :: s in p.survivors ==> s in rows)
            && (forall d :: d in p.deleted ==> d in rows && HasKeeper(p.survivors, d))
            && multiset(p.survivors) + multiset(p.deleted) == multiset(rows)
  {
    if rows != [] {
      var n := |rows| - 1;
      var front, r := rows[..n], rows[n];
      assert rows == front + [r];
      PurgeInvariant(front);
      PurgeRowInvariant(PurgeRows(front), front, r);
    }
  }

  /** Candidates only ever come from the old ones of the same body and the new row, if it survives. */
  lemma CandidatesAfter(p: Progress, r: Row)
    ensures var p' := PurgeRow(p, r);
            && (forall b | b != r.body :: Candidates(p'.kept, b) == Candidates(p.kept, b))
            && (forall k | k in Candidates(p'.kept, r.body) ::
                  k in Candidates(p.kept, r.body) || (k == r && r in p'.survivors))
            && (forall k | k in Candidates(p.kept, r.body) && Recent(k, r) :: k in Candidates(p'.kept, r.body))
  {
    var cands := Candidates(p.kept, r.body);
    KeepRecentMembers(cands, r);
    CompactedMembers(cands, r);
    hide PhonesMatch, Abs, Recent;
    if Duplicate(KeepRecent(cands, r), r) {
      hide Duplicate, KeepRecent, Compacted;
      assert r.body in p.kept ==> Candidates(PurgeRow(p, r).kept, r.body) == Compacted(cands, r);
    }
  }

  lemma KeptStaySurvivors(p: Progress, r: Row)
    requires KeptAreSurvivors(p)
    ensures KeptAreSurvivors(PurgeRow(p, r))
  {
    CandidatesAfter(p, r);
    var p' := PurgeRow(p, r);
    hide Compacted, KeepRecent, Duplicate;
    forall b, k | b in p'.kept && k in p'.kept[b] ensures k in p'.survivors && k.body == b {
      assert k in Candidates(p'.kept, b);
      if b != r.body {
        assert k in Candidates(p.kept, b);
      }
    }
  }

  lemma PurgeRowInvariant(p: Progress, front: seq<Row>, r: Row)
    requires Ascending(front + [r]) && KeptAreSurvivors(p)
    requires forall s :: s in p.survivors ==> s in front
    requires forall d :: d in p.deleted ==> d in front && HasKeeper(p.survivors, d)
    ensures var p' := PurgeRow(p, r);
            && KeptAreSurvivors(p')
            && (forall s :: s in p'.survivors ==> s in front + [r])
            && (forall d :: d in p'.deleted ==> d in front + [r] && HasKeeper(p'.survivors, d))
  {
    var p' := PurgeRow(p, r);
    KeptStaySurvivors(p, r);
    var cands := Candidates(p.kept, r.body);
    if Duplicate(KeepRecent(cands, r), r) {
      DuplicateHasKeeper(p, front, r);
    } else {
      hide Near, Compacted, KeepRecent, Duplicate, KeptAreSurvivors;
      forall d | d in p'.deleted ensures HasKeeper(p'.survivors, d) {
        var s :| s in p.survivors && s.id < d.id && Near(d, s);
        assert s in p'.survivors;
      }
    }
  }

  lemma CandidatesAreKept(p: Progress, body: string)
    requires KeptAreSurvivors(p)
    ensures forall k :: k in Candidates(p.kept, body) ==> k in p.survivors && k.body == body
  {
  }

  lemma DuplicateHasKeeper(p: Progress, front: seq<Row>, r: Row)
    requires Ascending(front + [r]) && KeptAreSurvivors(p) && forall s :: s in p.survivors ==> s in front
    requires Duplicate(KeepRecent(Candidates(p.kept, r.body), r), r)
    ensures HasKeeper(p.survivors, r)
  {
    hide Canonical, Candidates, KeepRecent, Recent;
    var cands := Candidates(p.kept, r.body);
    KeepRecentMembers(cands, r);
    CandidatesAreKept(p, r.body);
    var k :| k in KeepRecent(cands, r) && PhonesMatch(r.sender, k.sender) && Abs(r.timestamp - k.timestamp) < WINDOW;
    assert k in p.survivors && k.body == r.body;
    EarlierId(front, r, k);
  }

  lemma EarlierId(front: seq<Row>, r: Row, k: Row)
    requires Ascending(front + [r]) && k in front
    ensures k.id < r.id
  {
    var i :| 0 <= i < |front| && front[i] == k;
    assert (front + [r])[i] == k && (front + [r])[|front|] == r;
  }

  /** Every row is kept or deleted, and every deleted row has an earlier surviving twin. */
  lemma PurgeIsSound(rows: seq<Row>)
    requires Ascending(rows)
    ensures multiset(PurgeRows(rows).survivors) + multiset(PurgeRows(rows).deleted) == multiset(rows)
    ensures forall d | d in PurgeRows(rows).deleted :: HasKeeper(PurgeRows(rows).survivors, d)
  {
    PurgeInvariant(rows);
  }

  // ----- Completeness -----

  /** No two surviving rows are near-duplicates. */
  ghost predicate Complete(rows: seq<Row>) {
    forall s, t | s in PurgeRows(rows).survivors && t in PurgeRows(rows).survivors && s != t :: !Near(s, t)
  }

  /**
   Once a row of the same body lies two windows away, no later one comes back to within
   one window. Rows in time order have this property.
   */
  ghost predicate NoReturn(rows: seq<Row>) {
    forall i, j, l | 0 <= i < j < l < |rows| && rows[i].body == rows[j].body == rows[l].body ::
      Abs(rows[j].timestamp - rows[i].timestamp) >= 2 * WINDOW ==> Abs(rows[l].timestamp - rows[i].timestamp) >= WINDOW
  }

  ghost predicate InTimeOrder(rows: seq<Row>) {
    forall i, j | 0 <= i < j < |rows| && rows[i].body == rows[j].body :: rows[i].timestamp <= rows[j].timestamp
  }

  lemma TimeOrderNeverReturns(rows: seq<Row>)
    requires InTimeOrder(rows)
    ensures NoReturn(rows)
  {
    forall i, j, l | 0 <= i < j < l < |rows| && rows[i].body == rows[j].body == rows[l].body
      ensures Abs(rows[j].timestamp - rows[i].timestamp) >= 2 * WINDOW ==> Abs(rows[l].timestamp - rows[i].timestamp) >= WINDOW
    {
      assert rows[i].timestamp <= rows[j].timestamp && rows[j].timestamp <= rows[l].timestamp;
    }
  }

  /** A survivor that is no longer a candidate was passed by a row two windows away. */
  ghost predicate DroppedWithReason(p: Progress, rows: seq<Row>) {
    forall i | 0 <= i < |rows| && rows[i] in p.survivors && rows[i] !in Candidates(p.kept, rows[i].body) ::
      Passed(rows, i)
  }

  ghost predicate Passed(rows: seq<Row>, i: int)
    requires 0 <= i < |rows|
  {
    exists j :: i < j < |rows| && rows[j].body == rows[i].body && !Recent(rows[i], rows[j])
  }

  lemma {:induction false} DropsHaveReasons(rows: seq<Row>)
    requires Ascending(rows)
    ensures DroppedWithReason(PurgeRows(rows), rows)
  {
    if rows != [] {
      var n := |rows| - 1;
      var front, r := rows[..n], rows[n];
      var p, p' := PurgeRows(front), PurgeRows(rows);
      DropsHaveReasons(front);
      PurgeInvariant(front);
      KeepRecentMembers(Candidates(p.kept, r.body), r);
      CompactedMembers(Candidates(p.kept, r.body), r);
      forall i | 0 <= i < |rows| && rows[i] in p'.survivors && rows[i] !in Candidates(p'.kept, rows[i].body)
        ensures Passed(rows, i)
      {
        if i < n {
          assert rows[i] == front[i];
          assert rows[i].id < r.id;
          StillPassed(p, rows, i);
        }
      }
    }
  }

  lemma StillPassed(p: Progress, rows: seq<Row>, i: nat)
    requires |rows| > 0 && i < |rows| - 1 && p == PurgeRows(rows[..|rows| - 1])
    requires DroppedWithReason(p, rows[..|rows| - 1])
    requires rows[i] in p.survivors && rows[i] !in Candidates(PurgeRows(rows).kept, rows[i].body)
    ensures Passed(rows, i)
  {
    hide PurgeRow, Candidates, Abs;
    var n := |rows| - 1;
    var front, r := rows[..n], rows[n];
    CandidatesAfter(p, r);
    assert PurgeRows(rows) == PurgeRow(p, r);
    if rows[i] !in Candidates(p.kept, rows[i].body) {
      assert front[i] == rows[i];
      var j :| i < j < |front| && front[j].body == front[i].body && !Recent(front[i], front[j]);
      assert rows[j] == front[j];
    } else {
      assert r.body == rows[i].body && !Recent(rows[i], r);
    }
  }

  lemma {:induction false} PurgeIsComplete(rows: seq<Row>)
    requires Ascending(rows) && NoReturn(rows)
    ensures Complete(rows)
  {
    hide PurgeRow, DroppedWithReason, NoReturn, Near;
    if rows != [] {
      var n := |rows| - 1;
      var front, r := rows[..n], rows[n];
      FrontNeverReturns(rows);
      PurgeIsComplete(front);
      PurgeInvariant(front);
      DropsHaveReasons(front);
      LastRowFits(PurgeRows(front), rows);
    }
  }

  lemma FrontNeverReturns(rows: seq<Row>)
    requires rows != [] && NoReturn(rows)
    ensures NoReturn(rows[..|rows| - 1])
  {
    hide Abs;
    var front := rows[..|rows| - 1];
    assert forall i :: 0 <= i < |front| ==> front[i] == rows[i];
  }

  /** Survivors that are apart stay apart with the newest row. */
  lemma LastRowFits(p: Progress, rows: seq<Row>)
    requires rows != [] && NoReturn(rows) && p == PurgeRows(rows[..|rows| - 1])
    requires DroppedWithReason(p, rows[..|rows| - 1]) && forall x :: x in p.survivors ==> x in rows[..|rows| - 1]
    requires forall s, t | s in p.survivors && t in p.survivors && s != t :: !Near(s, t)
    ensures var after := PurgeRow(p, rows[|rows| - 1]).survivors;
            forall s, t | s in after && t in after && s != t :: !Near(s, t)
  {
    hide PurgeRows, DroppedWithReason, NoReturn, Near, Duplicate, KeepRecent, Compacted;
    var r := rows[|rows| - 1];
    if !Duplicate(KeepRecent(Candidates(p.kept, r.body), r), r) {
      forall s | s in p.survivors ensures !Near(s, r) && !Near(r, s) {
        NotNearNewest(rows, p, s);
      }
    }
  }

  lemma NotNearNewest(rows: seq<Row>, p: Progress, s: Row)
    requires |rows| > 0 && NoReturn(rows) && p == PurgeRows(rows[..|rows| - 1]) && s in p.survivors
    requires DroppedWithReason(p, rows[..|rows| - 1]) && forall x :: x in p.survivors ==> x in rows[..|rows| - 1]
    requires var r := rows[|rows| - 1]; !Duplicate(KeepRecent(Candidates(p.kept, r.body), r), r)
    ensures !Near(s, rows[|rows| - 1]) && !Near(rows[|rows| - 1], s)
  {
    hide Candidates, PhonesMatch, KeepRecent, PurgeRows, PurgeRow, Duplicate, DroppedWithReason, NoReturn, Abs;
    var r := rows[|rows| - 1];
    if s.body == r.body {
      if s in Candidates(p.kept, s.body) {
        NotNearCandidate(p, s, r);
      } else {
        FarFromDropped(rows, p, s);
      }
    }
    NearBothWays(s, r);
  }

  lemma NearBothWays(s: Row, r: Row)
    ensures Near(s, r) <==> Near(r, s)
    ensures Near(s, r) ==> Abs(r.timestamp - s.timestamp) < WINDOW
  {
    hide Canonical;
  }

  lemma NotNearCandidate(p: Progress, s: Row, r: Row)
    requires s in Candidates(p.kept, r.body) && !Duplicate(KeepRecent(Candidates(p.kept, r.body), r), r)
    ensures !Near(s, r)
  {
    hide Candidates, Canonical, KeepRecent;
    KeepRecentMembers(Candidates(p.kept, r.body), r);
  }

  lemma FarFromDropped(rows: seq<Row>, p: Progress, s: Row)
    requires |rows| > 0 && NoReturn(rows) && s in p.survivors && s.body == rows[|rows| - 1].body
    requires DroppedWithReason(p, rows[..|rows| - 1]) && forall x :: x in p.survivors ==> x in rows[..|rows| - 1]
    requires s !in Candidates(p.kept, s.body)
    ensures Abs(rows[|rows| - 1].timestamp - s.timestamp) >= WINDOW
  {
    hide Candidates;
    var n := |rows| - 1;
    var front := rows[..n];
    var i :| 0 <= i < |front| && front[i] == s;
    assert Passed(front, i);
    var j :| i < j < |front| && front[j].body == front[i].body && !Recent(front[i], front[j]);
    assert rows[i] == s && rows[j] == front[j];
  }

  // ----- Exactly when it is complete -----

  lemma {:induction false} SurvivorsGrow(rows: seq<Row>, m: nat)
    requires m <= |rows|
    ensures forall s :: s in PurgeRows(rows[..m]).survivors ==> s in PurgeRows(rows).survivors
    decreases |rows| - m
  {
    if m < |rows| {
      assert rows[..m + 1][..m] == rows[..m];
      SurvivorsGrow(rows, m + 1);
    } else {
      assert rows[..m] == rows;
    }
  }

  /** Only rows i and l have a sender with digits, and the same one. */
  ghost predicate OnlyTwoSenders(rows: seq<Row>, i: nat, l: nat) {
    i < l < |rows| && rows[i].sender == rows[l].sender == "1" &&
    forall m :: 0 <= m < |rows| && m != i && m != l ==> rows[m].sender == ""
  }

  lemma NoDigitsNoMatch(s: string)
    ensures !PhonesMatch("", s) && !PhonesMatch(s, "") && PhonesMatch("1", "1")
  {
    assert DigitsOf("1") == "1" by {
      assert "1"[..0] == "";
    }
  }

  /** With only two senders nothing is deleted up to row l, and row j pushes row i out of the candidates. */
  lemma {:induction false} NothingDeletedYet(rows: seq<Row>, i: nat, j: nat, l: nat, m: nat)
    requires Ascending(rows) && OnlyTwoSenders(rows, i, l) && i < j < l && m <= l + 1
    requires rows[j].body == rows[i].body && !Recent(rows[i], rows[j])
    ensures PurgeRows(rows[..m]).survivors == rows[..m]
    ensures m > j ==> rows[i] !in Candidates(PurgeRows(rows[..m]).kept, rows[i].body)
  {
    hide PurgeRows, PurgeRow, Candidates, KeepRecent, Recent, Duplicate, KeptAreSurvivors;
    if m > 0 {
      NothingDeletedYet(rows, i, j, l, m - 1);
      PurgeInvariantAt(rows, m - 1);
      NotADuplicate(rows, i, j, l, m - 1);
      assert m - 1 > i ==> rows[i].id < rows[m - 1].id;
      StaysOut(rows, i, j, m);
    } else {
      NoRows(rows[..0]);
    }
  }

  lemma StaysOut(rows: seq<Row>, i: nat, j: nat, m: nat)
    requires i < j && 0 < m <= |rows| && j < |rows|
    requires rows[j].body == rows[i].body && !Recent(rows[i], rows[j])
    requires m - 1 > i ==> rows[i] != rows[m - 1]
    requires m - 1 > j ==> rows[i] !in Candidates(PurgeRows(rows[..m - 1]).kept, rows[i].body)
    requires var p, r := PurgeRows(rows[..m - 1]), rows[m - 1];
             !Duplicate(KeepRecent(Candidates(p.kept, r.body), r), r) && p.survivors == rows[..m - 1]
    ensures PurgeRows(rows[..m]).survivors == rows[..m]
    ensures m > j ==> rows[i] !in Candidates(PurgeRows(rows[..m]).kept, rows[i].body)
  {
    hide PurgeRow, PurgeRows, Candidates, KeepRecent, Recent, Duplicate;
    var p, r := PurgeRows(rows[..m - 1]), rows[m - 1];
    NextRow(rows, m - 1);
    assert rows[..m - 1 + 1] == rows[..m] == rows[..m - 1] + [r];
    NewSurvivor(p, r, rows[i]);
  }

  lemma PurgeInvariantAt(rows: seq<Row>, m: nat)
    requires Ascending(rows) && m <= |rows|
    ensures KeptAreSurvivors(PurgeRows(rows[..m]))
  {
    PurgeInvariant(rows[..m]);
  }

  lemma NotADuplicate(rows: seq<Row>, i: nat, j: nat, l: nat, m: nat)
    requires Ascending(rows) && OnlyTwoSenders(rows, i, l) && i < j < l && m <= l
    requires var p := PurgeRows(rows[..m]);
             && p.survivors == rows[..m] && KeptAreSurvivors(p)
             && (m > j ==> rows[i] !in Candidates(p.kept, rows[i].body))
    ensures var r := rows[m]; !Duplicate(KeepRecent(Candidates(PurgeRows(rows[..m]).kept, r.body), r), r)
  {
    var p, r := PurgeRows(rows[..m]), rows[m];
    hide PurgeRows, KeepRecent, DigitsOf, Canonical, Near, Recent, Candidates, PhonesMatch, KeptAreSurvivors;
    KeepRecentMembers(Candidates(p.kept, r.body), r);
    CandidatesAreKept(p, r.body);
    forall k | k in KeepRecent(Candidates(p.kept, r.body), r) ensures !PhonesMatch(r.sender, k.sender) {
      var x :| 0 <= x < m && rows[x] == k;
      NoDigitsNoMatch(r.sender);
      NoDigitsNoMatch(k.sender);
    }
  }

  lemma NewSurvivor(p: Progress, r: Row, k: Row)
    requires !Duplicate(KeepRecent(Candidates(p.kept, r.body), r), r)
    ensures PurgeRow(p, r).survivors == p.survivors + [r]
    ensures k != r && (k !in Candidates(p.kept, k.body) || (k.body == r.body && !Recent(k, r))) ==>
              k !in Candidates(PurgeRow(p, r).kept, k.body)
  {
    hide PhonesMatch, Abs, Recent;
    KeepRecentMembers(Candidates(p.kept, r.body), r);
  }

  /** Purging is complete whoever the senders are exactly if no row returns. */
  lemma CompleteForAllSendersIffNoReturn(rows: seq<Row>)
    requires Ascending(rows)
    ensures (forall senders: seq<string> | |senders| == |rows| :: Complete(WithSenders(rows, senders))) <==> NoReturn(rows)
  {
    hide Complete, NoReturn, Ascending, WithSenders;
    if NoReturn(rows) {
      forall senders: seq<string> | |senders| == |rows| ensures Complete(WithSenders(rows, senders)) {
        NoReturnIgnoresSenders(rows, senders);
        PurgeIsComplete(WithSenders(rows, senders));
      }
    } else {
      var senders := SendersThatBreak(rows);
    }
  }

  lemma SendersThatBreak(rows: seq<Row>) returns (senders: seq<string>)
    requires Ascending(rows) && !NoReturn(rows)
    ensures |senders| == |rows| && !Complete(WithSenders(rows, senders))
  {
    hide Complete, WithSenders, Ascending;
    var i, j, l :| 0 <= i < j < l < |rows| && rows[i].body == rows[j].body == rows[l].body
      && Abs(rows[j].timestamp - rows[i].timestamp) >= 2 * WINDOW && Abs(rows[l].timestamp - rows[i].timestamp) < WINDOW;
    senders := ReturnBreaks(rows, i, j, l);
  }

  lemma NoReturnIgnoresSenders(rows: seq<Row>, senders: seq<string>)
    requires |senders| == |rows| && NoReturn(rows) && Ascending(rows)
    ensures NoReturn(WithSenders(rows, senders)) && Ascending(WithSenders(rows, senders))
  {
  }

  lemma ReturnBreaks(rows: seq<Row>, i: nat, j: nat, l: nat) returns (senders: seq<string>)
    requires Ascending(rows) && i < j < l < |rows| && rows[i].body == rows[j].body == rows[l].body
    requires !Recent(rows[i], rows[j]) && Abs(rows[l].timestamp - rows[i].timestamp) < WINDOW
    ensures |senders| == |rows| && !Complete(WithSenders(rows, senders))
  {
    hide Complete, WithSenders, Ascending, Recent, Abs;
    senders := seq(|rows|, m => if m == i || m == l then "1" else "");
    TwoSenders(rows, senders, i, j, l);
    BothSurvive(WithSenders(rows, senders), i, j, l);
  }

  lemma TwoSenders(rows: seq<Row>, senders: seq<string>, i: nat, j: nat, l: nat)
    requires Ascending(rows) && i < j < l < |rows| && rows[i].body == rows[j].body == rows[l].body
    requires !Recent(rows[i], rows[j]) && Abs(rows[l].timestamp - rows[i].timestamp) < WINDOW
    requires senders == seq(|rows|, m => if m == i || m == l then "1" else "")
    ensures var rows' := WithSenders(rows, senders);
            && Ascending(rows') && OnlyTwoSenders(rows', i, l) && rows'[j].body == rows'[i].body
            && !Recent(rows'[i], rows'[j]) && Near(rows'[i], rows'[l]) && rows'[i] != rows'[l]
  {
    NoDigitsNoMatch("1");
    hide PhonesMatch;
    assert rows[i].id < rows[l].id;
  }

  lemma BothSurvive(rows: seq<Row>, i: nat, j: nat, l: nat)
    requires Ascending(rows) && OnlyTwoSenders(rows, i, l) && i < j < l && rows[j].body == rows[i].body
    requires !Recent(rows[i], rows[j]) && Near(rows[i], rows[l]) && rows[i] != rows[l]
    ensures !Complete(rows)
  {
    hide PurgeRows, Near, Recent;
    NothingDeletedYet(rows, i, j, l, l + 1);
    SurvivorsGrow(rows, l + 1);
    assert rows[i] == rows[..l + 1][i] && rows[l] == rows[..l + 1][l];
  }

  // ----- The loop over slices -----

  /** A slice header: a backing array and a length. */
  datatype Slice = Slice(backing: array<Row>, len: nat)

  ghost predicate GoodSlice(s: Slice) {
    s.len <= s.backing.Length
  }

  ghost function View(s: Slice): seq<Row>
    reads s.backing
    requires GoodSlice(s)
  {
    s.backing[..s.len]
  }

  /** `alive := cands[:0]` and appending to it: the recent candidates move to the front of the same array. */
  method CompactInPlace(s: Slice, r: Row) returns (n: nat)
    requires GoodSlice(s)
    modifies s.backing
    ensures n <= s.len && View(s) == Compacted(old(View(s)), r) && View(s)[..n] == KeepRecent(old(View(s)), r)
  {
    hide KeepRecent, Recent, Abs;
    ghost var before := View(s);
    KeepNothing(before, r);
    n := 0;
    for i := 0 to s.len
      invariant n <= i
      invariant s.backing[..n] == KeepRecent(before[..i], r)
      invariant forall k :: n <= k < s.len ==> s.backing[k] == before[k]
    {
      KeepNext(before, i, r);
      var k := s.backing[i];
      if Abs(r.timestamp - k.timestamp) < WINDOW * 2 {
        ghost var kept := s.backing[..n];
        s.backing[n] := k;
        n := n + 1;
        assert s.backing[..n] == kept + [k];
      }
    }
    assert before[..s.len] == before;
    assert View(s) == s.backing[..n] + s.backing[n..s.len];
    assert s.backing[n..s.len] == before[n..];
  }

  lemma KeepNothing(cands: seq<Row>, r: Row)
    ensures KeepRecent(cands[..0], r) == []
  {
  }

  lemma KeepNext(cands: seq<Row>, i: nat, r: Row)
    requires i < |cands|
    ensures KeepRecent(cands[..i + 1], r)
            == KeepRecent(cands[..i], r) + if Abs(r.timestamp - cands[i].timestamp) < WINDOW * 2 then [cands[i]] else []
  {
    assert cands[..i + 1][..i] == cands[..i];
  }

  method Grow(s: Slice, n: nat, r: Row) returns (s': Slice)
    requires n <= s.backing.Length
    modifies s.backing
    ensures GoodSlice(s') && s'.len == n + 1
    ensures s'.backing == s.backing || fresh(s'.backing)
    ensures View(s') == old(s.backing[..n]) + [r]
  {
    if n < s.backing.Length {
      s.backing[n] := r;
      s' := Slice(s.backing, n + 1);
    } else {
      var bigger := new Row[2 * n + 1](_ => r);
      for i := 0 to n
        invariant bigger[..i] == s.backing[..i]
        invariant bigger[n] == r
        invariant s.backing[..] == old(s.backing[..])
      {
        bigger[i] := s.backing[i];
      }
      s' := Slice(bigger, n + 1);
      assert bigger[..n + 1] == bigger[..n] + [r];
    }
  }

  /** Search the recent candidates for a match within the window. */
  method FindDuplicate(s: Slice, n: nat, r: Row) returns (dup: bool)
    requires n <= s.backing.Length
    ensures dup == Duplicate(s.backing[..n], r)
  {
    hide *;
    NoneToSearch(r);
    assert s.backing[..0] == [];
    for i := 0 to n
      invariant !Duplicate(s.backing[..i], r)
    {
      var k := s.backing[i];
      assert s.backing[..i + 1] == s.backing[..i] + [k];
      OneMoreCandidate(s.backing[..i], k, s.backing[i + 1..n], r);
      assert s.backing[..n] == s.backing[..i] + [k] + s.backing[i + 1..n];
      var matches := Match(r.sender, k.sender);
      if matches && Abs(r.timestamp - k.timestamp) < WINDOW {
        return true;
      }
    }
    return false;
  }

  lemma NoneToSearch(r: Row)
    ensures !Duplicate([], r)
  {
  }

  lemma OneMoreCandidate(front: seq<Row>, k: Row, rest: seq<Row>, r: Row)
    ensures var hit := PhonesMatch(r.sender, k.sender) && Abs(r.timestamp - k.timestamp) < WINDOW;
            && (Duplicate(front + [k], r) <==> Duplicate(front, r) || hit)
            && (hit ==> Duplicate(front + [k] + rest, r))
  {
    hide PhonesMatch, Abs;
    assert k in front + [k] + rest && k in front + [k];
    forall x | x in front ensures x in front + [k] {
    }
  }

  function Ids(rows: seq<Row>): (ids: seq<int>)
    ensures |ids| == |rows| && forall i :: 0 <= i < |ids| ==> ids[i] == rows[i].id
  {
    seq(|rows|, i requires 0 <= i < |rows| => rows[i].id)
  }

  ghost predicate Separate(kept: map<string, Slice>) {
    && (forall b | b in kept :: GoodSlice(kept[b]))
    && (forall b, c | b in kept && c in kept && b != c :: kept[b].backing != kept[c].backing)
  }

  ghost predicate Shows(kept: map<string, Slice>, views: map<string, seq<Row>>)
    requires Separate(kept)
    reads set b | b in kept :: kept[b].backing
  {
    kept.Keys == views.Keys && forall b | b in kept :: View(kept[b]) == views[b]
  }

  /** One batch: the ids to delete, computed over slices that are rewritten in place. */
  method PurgeBatch(all: seq<Row>) returns (toDelete: seq<int>)
    ensures toDelete == Ids(PurgeRows(all).deleted)
  {
    hide *;
    var kept: map<string, Slice> := map[];
    toDelete := [];
    NoRows(all[..0]);
    Nothing(kept);
    for i := 0 to |all|
      invariant Separate(kept) && Shows(kept, PurgeRows(all[..i]).kept)
      invariant forall b | b in kept :: fresh(kept[b].backing)
      invariant toDelete == Ids(PurgeRows(all[..i]).deleted)
    {
      var dup;
      ghost var p := PurgeRows(all[..i]);
      NextRow(all, i);
      kept, dup := PurgeOne(kept, all[i], p);
      if dup {
        toDelete := toDelete + [all[i].id];
      }
    }
    assert all[..|all|] == all;
  }

  lemma Nothing(kept: map<string, Slice>)
    requires kept == map[]
    ensures Separate(kept) && Shows(kept, map[]) && Ids([]) == []
  {
  }

  /** One row: compact its body's candidates, look for a duplicate, and keep the row if there is none. */
  method PurgeOne(kept0: map<string, Slice>, r: Row, ghost p: Progress) returns (kept: map<string, Slice>, dup: bool)
    requires Separate(kept0) && Shows(kept0, p.kept)
    modifies set b | b in kept0 :: kept0[b].backing
    ensures Separate(kept) && Shows(kept, PurgeRow(p, r).kept)
    ensures forall b | b in kept :: (b in kept0 && kept[b].backing == kept0[b].backing) || fresh(kept[b].backing)
    ensures PurgeRow(p, r).deleted == if dup then p.deleted + [r] else p.deleted
  {
    hide PurgeRow, KeepRecent, Compacted, Duplicate;
    RowKept(p, r);
    var cands;
    if r.body in kept0 {
      cands := kept0[r.body];
    } else {
      var none := new Row[0];
      cands := Slice(none, 0);
      assert View(cands) == [];
    }
    cands, dup := Refill(cands, r);
    kept := if dup then kept0 else kept0[r.body := cands];
  }

  /** Compaction and search together. */
  method Probe(cands: Slice, r: Row) returns (n: nat, dup: bool)
    requires GoodSlice(cands)
    modifies cands.backing
    ensures n <= cands.len
    ensures View(cands) == Compacted(old(View(cands)), r)
    ensures cands.backing[..n] == KeepRecent(old(View(cands)), r)
    ensures dup == Duplicate(KeepRecent(old(View(cands)), r), r)
  {
    n := CompactInPlace(cands, r);
    assert cands.backing[..n] == View(cands)[..n];
    dup := FindDuplicate(cands, n, r);
  }

  /** What happens to the candidates of the row's body. */
  method Refill(cands0: Slice, r: Row) returns (cands: Slice, dup: bool)
    requires GoodSlice(cands0)
    modifies cands0.backing
    ensures GoodSlice(cands) && (cands.backing == cands0.backing || fresh(cands.backing))
    ensures dup == Duplicate(KeepRecent(old(View(cands0)), r), r) && (dup ==> cands == cands0)
    ensures View(cands) == if dup then Compacted(old(View(cands0)), r) else KeepRecent(old(View(cands0)), r) + [r]
  {
    hide KeepRecent, Compacted, Duplicate;
    cands := cands0;
    var n;
    n, dup := Probe(cands, r);
    if !dup {
      cands := Grow(cands, n, r);
    }
  }

  lemma NoRows(rows: seq<Row>)
    requires rows == []
    ensures PurgeRows(rows) == Progress(map[], [], [])
  {
  }

  lemma RowKept(p: Progress, r: Row)
    ensures KeepRecent([], r) == [] && !Duplicate([], r)
    ensures
      var cands := Candidates(p.kept, r.body);
      var alive := KeepRecent(cands, r);
      if Duplicate(alive, r) then
        r.body in p.kept && PurgeRow(p, r).deleted == p.deleted + [r]
        && PurgeRow(p, r).kept == p.kept[r.body := Compacted(cands, r)]
        && cands != []
      else PurgeRow(p, r).deleted == p.deleted && PurgeRow(p, r).kept == p.kept[r.body := alive + [r]]
  {
  }

  lemma NextRow(all: seq<Row>, i: nat)
    requires i < |all|
    ensures PurgeRows(all[..i + 1]) == PurgeRow(PurgeRows(all[..i]), all[i])
  {
    assert all[..i + 1][..i] == all[..i];
  }
}
