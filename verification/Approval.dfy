/** What a human decision about a waiting quest means for the scheduler runs that follow it. */
module Approval {
  import opened Common
  import opened Board
  import opened Scheduler
  import opened LeastFixpoint
  import opened SchedulerInvariant
  import opened WorkerInvariant
  import opened SchedulerTheorems
  import opened FinalStatus
  import opened MissionStore

  /** The board after a decision: one entry has changed. */
  lemma DecidedBoard(m: Mission, id: string, approve: bool, reason: string, m': Mission)
    requires Waiting(m, id) && Decided(m, id, approve, reason, m')
    ensures id in Keyed(m') && Keyed(m').Keys == Keyed(m).Keys
    ensures Keyed(m')[id].status == (if approve then Pending else Cancelled)
    ensures SameQuest(Keyed(m)[id], Keyed(m')[id])
    ensures forall x | x in Keyed(m) && x != id :: Keyed(m')[x] == Keyed(m)[x]
    ensures WellKeyed(Keyed(m'))
  {
    hide OneChanged;
    var q := Keyed(m)[id];
    if approve {
      OneChangedKeyed(m, id, q.(status := Pending), m');
    } else {
      var error := if reason == "" then "rejected by human" else "rejected by human: " + reason;
      OneChangedKeyed(m, id, q.(status := Cancelled, error := error), m');
    }
  }

  ghost predicate NobodyWorksOn(s: State, id: string) {
    s.phase.Level? ==> forall wk | wk in s.phase.workers :: wk.quest.id != id
  }

  ghost predicate NeverDone(s: State, id: string) {
    id in s.shared.board && s.shared.board[id].status != Done && NobodyWorksOn(s, id)
  }

  predicate Needs(b: Keys, x: string, id: string) {
    x in b && Candidate(b[x]) && id in b[x].dependsOn
  }

  /** A rejected quest stays cancelled in every run of every world: no worker takes it, and nothing that needs it is ever done. */
  lemma RejectedIsNeverRun(
      w: World, m: Mission, id: string, reason: string, m': Mission, labels: seq<Label>, s: State)
    requires Waiting(m, id) && Decided(m, id, false, reason, m')
    requires Reaches(w, Keyed(m'), labels, s)
    ensures id in s.shared.board && s.shared.board[id].status == Cancelled && NobodyWorksOn(s, id)
    ensures id in Keyed(m') && s.shared.board[id] == Keyed(m')[id]
    ensures forall x | Needs(Keyed(m'), x, id) :: NeverDone(s, x)
  {
    DecidedBoard(m, id, false, reason, m');
    hide Decided, Waiting, Keyed, NobodyWorksOn;
    var b0 := Keyed(m');
    CancelledIsNeverRun(w, b0, labels, s, id);
    forall x | Needs(b0, x, id) ensures NeverDone(s, x) {
      NothingBehindCancelled(w, b0, labels, s, id, x);
    }
  }

  lemma CancelledIsNeverRun(w: World, b0: Keys, labels: seq<Label>, s: State, id: string)
    requires Reaches(w, b0, labels, s) && id in b0 && b0[id].status == Cancelled
    ensures id in s.shared.board && s.shared.board[id] == b0[id] && id !in Least(w, b0)
    ensures NobodyWorksOn(s, id)
  {
    ReachedInv(w, b0, labels, s);
    var l := Least(w, b0);
    if id in l {
      LeastHasReasons(w, b0, id);
    }
    hide Least, Reaches, PlaceOk, Covered;
    assert EntryOk(w, b0[id], s.shared.board[id], id in l, id in ReadySet(b0, l));
    if s.phase.Level? {
      forall wk | wk in s.phase.workers ensures wk.quest.id != id {
        var i :| 0 <= i < |s.phase.workers| && s.phase.workers[i] == wk;
        assert WorkerOk(w, b0, s.shared, l, s.phase.workers[i]);
      }
    }
  }

  lemma NothingBehindCancelled(w: World, b0: Keys, labels: seq<Label>, s: State, id: string, x: string)
    requires Reaches(w, b0, labels, s) && id in b0 && b0[id].status == Cancelled
    requires Needs(b0, x, id)
    ensures NeverDone(s, x)
  {
    CancelledIsNeverRun(w, b0, labels, s, id);
    DoneSetIsLeast(w, b0, labels, s);
    ReachedInv(w, b0, labels, s);
    if x in Least(w, b0) {
      InLeastIsReady(w, b0, x);
    }
    hide Least, Reaches, PlaceOk, Covered;
    assert x in s.shared.board;
    if s.phase.Level? {
      forall wk | wk in s.phase.workers ensures wk.quest.id != x {
        var i :| 0 <= i < |s.phase.workers| && s.phase.workers[i] == wk;
        assert WorkerOk(w, b0, s.shared, Least(w, b0), s.phase.workers[i]);
      }
    }
  }

  /**
   An approved quest is taken on by the next run, and brought to done by it exactly if its
   dependencies can be, it is not denied, does not ask again, and one of its attempts succeeds.
   */
  lemma ApprovedCanBeDone(w: World, m: Mission, id: string, reason: string, m': Mission)
    requires Waiting(m, id) && Decided(m, id, true, reason, m')
    ensures var b0 := Keyed(m');
            && id in b0 && Candidate(b0[id]) && id in Init(b0).pending
            && (id in Least(w, b0) <==>
                  && (forall d | d in b0[id].dependsOn :: d in Least(w, b0))
                  && MayClaim(w) && !Denied(w, b0[id]) && !Asks(w, b0[id]) && SucceedsFrom(w, b0[id], 0))
  {
    DecidedBoard(m, id, true, reason, m');
    hide Decided, Waiting, Keyed;
    var b0 := Keyed(m');
    LeastIsLeast(w, b0);
    if id in Least(w, b0) {
      InLeastIsReady(w, b0, id);
    }
    assert id in Least(w, b0) <== Supported(w, b0[id], Least(w, b0));
  }

  /** With approval still required for its tool, an approved quest only ends up waiting again. */
  lemma ApprovedIsAskedAgain(
      w: World, m: Mission, id: string, reason: string, m': Mission, labels: seq<Label>, s: State)
    requires Waiting(m, id) && Decided(m, id, true, reason, m')
    requires Complete(w, Keyed(m'), labels, s) && id in Keyed(m') && Asks(w, Keyed(m')[id])
    requires forall d | d in Keyed(m')[id].dependsOn :: d in Least(w, Keyed(m'))
    ensures id in s.shared.board && s.shared.board[id].status == WaitingApproval
  {
    DecidedBoard(m, id, true, reason, m');
    ApprovedCanBeDone(w, m, id, reason, m');
    hide Decided, Waiting, Keyed, Complete, Least;
    EndsAsSpecified(w, Keyed(m'), labels, s, id);
  }
}
