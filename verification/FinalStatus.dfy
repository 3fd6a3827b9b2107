/**
 How every quest stands when a run has ended by itself. The specification fixes the status
 of each one; only behind a quest that waits for a human may a dependent be left untouched.
 */
module FinalStatus {
  import opened Common
  import opened Board
  import opened Scheduler
  import opened LeastFixpoint
  import opened SchedulerInvariant
  import opened WorkerInvariant
  import opened SchedulerTheorems

  /** A quest waits already, or one whose dependencies can all be brought to done will. */
  ghost predicate Waits(w: World, b0: Keys) {
    HasWaiting(b0) || exists id :: id in ReadySet(b0, Least(w, b0)) && Candidate(b0[id]) && Asks(w, b0[id])
  }

  /** The end of a quest whose dependencies are all in the fixed point. */
  function ReadyStatus(w: World, q: Quest, inLeast: bool): QuestStatus {
    if inLeast then Done
    else if Denied(w, q) then Cancelled
    else if Asks(w, q) then WaitingApproval
    else if MayClaim(w) then Failed
    else Pending
  }

  ghost function Specified(w: World, b0: Keys, id: string): QuestStatus
    requires id in b0
  {
    if !Candidate(b0[id]) then b0[id].status
    else if id in ReadySet(b0, Least(w, b0)) then ReadyStatus(w, b0[id], id in Least(w, b0))
    else Cancelled
  }

  ghost predicate Complete(w: World, b0: Keys, labels: seq<Label>, s: State) {
    Reaches(w, b0, labels, s) && s.phase == Stopped(false)
  }

  /** What the invariant says about one quest at the end of a run. */
  lemma EndFacts(w: World, b0: Keys, labels: seq<Label>, s: State, id: string)
    requires Complete(w, b0, labels, s) && id in b0
    ensures var l := Least(w, b0); var ready := ReadySet(b0, l);
            && id in s.shared.board && EntryOk(w, b0[id], s.shared.board[id], id in l, id in ready)
            && !s.phase.Level? && s.shared.done == l && (id in l ==> s.shared.board[id].status == Done)
            && (id in s.shared.failed ==> id !in l && Settled(w, s.shared.board[id], id in ready))
            && (id in s.pending ==> Candidate(b0[id]) && id !in ready && s.shared.board[id] == b0[id] && id !in s.shared.failed)
            && (s.pending == map[] || HasWaiting(s.shared.board))
            && (Candidate(b0[id]) ==> Covered(s, id))
  {
    ReachedInv(w, b0, labels, s);
    hide Least, Covered, Reaches;
  }

  lemma SameBoardKeys(w: World, b0: Keys, labels: seq<Label>, s: State)
    requires Complete(w, b0, labels, s)
    ensures s.shared.board.Keys == b0.Keys
  {
    ReachedInv(w, b0, labels, s);
  }

  lemma WaitingIsForeseen(w: World, b0: Keys, labels: seq<Label>, s: State)
    requires Complete(w, b0, labels, s) && HasWaiting(s.shared.board)
    ensures Waits(w, b0)
  {
    hide Least, Reaches, Asks;
    SameBoardKeys(w, b0, labels, s);
    var id :| id in s.shared.board && s.shared.board[id].status == WaitingApproval;
    EndFacts(w, b0, labels, s, id);
  }

  /** A quest ends with the specified status, unless it is one the run never got to. */
  lemma EndsAsSpecified(w: World, b0: Keys, labels: seq<Label>, s: State, id: string)
    requires Complete(w, b0, labels, s) && id in b0
    ensures id in s.shared.board
    ensures id !in s.pending ==> s.shared.board[id].status == Specified(w, b0, id)
    ensures id in s.pending ==>
              Waits(w, b0) && Candidate(b0[id]) && id !in ReadySet(b0, Least(w, b0)) && s.shared.board[id] == b0[id]
  {
    hide Complete, Least, Waits, ReadySet, HasWaiting;
    EndFacts(w, b0, labels, s, id);
    if id in s.pending {
      WaitingIsForeseen(w, b0, labels, s);
    } else if Candidate(b0[id]) && id in Least(w, b0) {
      InLeastIsReady(w, b0, id);
    }
  }

  lemma InLeastIsReady(w: World, b0: Keys, id: string)
    requires id in b0 && Candidate(b0[id]) && id in Least(w, b0)
    ensures id in ReadySet(b0, Least(w, b0)) && Good(w, b0[id])
  {
    LeastHasReasons(w, b0, id);
  }

  /** Where nothing waits, every run that ends by itself leaves every quest with the specified status. */
  lemma StatusesAreSpecified(w: World, b0: Keys, labels: seq<Label>, s: State)
    requires Complete(w, b0, labels, s) && !Waits(w, b0)
    ensures s.shared.board.Keys == b0.Keys
    ensures forall id | id in b0 :: s.shared.board[id].status == Specified(w, b0, id)
  {
    hide Waits, Specified;
    SameBoardKeys(w, b0, labels, s);
    forall id | id in b0 ensures s.shared.board[id].status == Specified(w, b0, id) {
      EndsAsSpecified(w, b0, labels, s, id);
    }
  }

  /** The specified statuses in terms of the fixed point: done, cancelled, failed, or refused and pending. */
  lemma SpecifiedMeans(w: World, b0: Keys, id: string)
    requires id in b0 && Candidate(b0[id]) && !Waits(w, b0)
    ensures Specified(w, b0, id) == Done <==> id in Least(w, b0)
    ensures Specified(w, b0, id) == Cancelled <==>
              Denied(w, b0[id]) || exists d :: d in b0[id].dependsOn && d !in Least(w, b0)
    ensures Specified(w, b0, id) == Failed <==>
              id in ReadySet(b0, Least(w, b0)) && Passes(w, b0[id]) && MayClaim(w) && !SucceedsFrom(w, b0[id], 0)
    ensures Specified(w, b0, id) == Pending <==> ClaimIsRefused(w, b0, id)
  {
    LeastIsLeast(w, b0);
    if id in Least(w, b0) {
      InLeastIsReady(w, b0, id);
    }
    if !MayClaim(w) {
      ClosedMissionDoesNothing(w, b0);
    }
    hide Least;
  }

  /** So all of them agree, whatever the map order and the interleaving. */
  lemma StatusConfluence(w: World, b0: Keys, labels1: seq<Label>, labels2: seq<Label>, s1: State, s2: State)
    requires Complete(w, b0, labels1, s1) && Complete(w, b0, labels2, s2) && !Waits(w, b0)
    ensures SameStatuses(s1.shared.board, s2.shared.board)
  {
    hide Waits, Specified, Complete;
    StatusesAreSpecified(w, b0, labels1, s1);
    StatusesAreSpecified(w, b0, labels2, s2);
  }

  ghost predicate SameStatuses(b1: Keys, b2: Keys) {
    b1.Keys == b2.Keys && forall id | id in b1 :: b1[id].status == b2[id].status
  }
}
