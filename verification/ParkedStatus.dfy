/**
 Boards on which a quest waits for a human: between the quests that fail in every run and
 those that can fail in some run lies what the map order decides.
 */
module ParkedStatus {
  import opened Common
  import opened Board
  import opened Scheduler
  import opened LeastFixpoint
  import opened SchedulerInvariant
  import opened WorkerInvariant
  import opened SchedulerTheorems
  import opened FinalStatus
  import opened ScanOrder
  import opened ParkedRuns

  /** Failed or cancelled at the end of every run. */
  ghost function FailsAnyway(w: World, b0: Keys): set<string> {
    Rounds(w, b0, Least(w, b0), DoneIn(b0), Init(b0).shared.failed, Init(b0).pending.Keys)
  }

  // ----- What can fail at all -----

  /** Cancelled already, or worked on without success. */
  ghost function FailsFirst(w: World, b0: Keys, l: set<string>): set<string> {
    set id | id in b0 && (b0[id].status == Cancelled
                          || (Candidate(b0[id]) && id in ReadySet(b0, l) && id !in l && !Asks(w, b0[id])))
  }

  /** Quests whose first dependency outside the fixed point is in `s`. */
  ghost function Dragged(b0: Keys, l: set<string>, s: set<string>): set<string> {
    set id | id in b0 && Candidate(b0[id]) && CheckDeps(b0[id].dependsOn, l, s) == DepFailed
  }

  ghost function Spread(b0: Keys, l: set<string>, s: set<string>): set<string>
    requires s <= b0.Keys
    decreases b0.Keys - s
  {
    if Dragged(b0, l, s) <= s then s else Spread(b0, l, s + Dragged(b0, l, s))
  }

  /** Failed or cancelled at the end of some run. */
  ghost function Doomed(w: World, b0: Keys): set<string> {
    Spread(b0, Least(w, b0), FailsFirst(w, b0, Least(w, b0)))
  }

  lemma {:induction false} SpreadProperties(b0: Keys, l: set<string>, s: set<string>, bound: set<string>)
    requires s <= b0.Keys && s <= bound && bound !! l && Dragged(b0, l, bound) <= bound
    ensures s <= Spread(b0, l, s) <= bound
    ensures Dragged(b0, l, Spread(b0, l, s)) <= Spread(b0, l, s) <= b0.Keys
    decreases b0.Keys - s
  {
    if !(Dragged(b0, l, s) <= s) {
      forall id | id in Dragged(b0, l, s) ensures id in bound {
        ChecksAgree(b0[id].dependsOn, l, s, bound);
      }
      SpreadProperties(b0, l, s + Dragged(b0, l, s), bound);
    }
  }

  /** The doomed quests are the least set that holds the first failures and everything they drag along. */
  lemma DoomedIsLeast(w: World, b0: Keys, bound: set<string>)
    requires FailsFirst(w, b0, Least(w, b0)) <= bound && bound !! Least(w, b0)
    requires Dragged(b0, Least(w, b0), bound) <= bound
    ensures FailsFirst(w, b0, Least(w, b0)) <= Doomed(w, b0) <= bound
    ensures Dragged(b0, Least(w, b0), Doomed(w, b0)) <= Doomed(w, b0) <= b0.Keys
  {
    hide Least, Dragged;
    SpreadProperties(b0, Least(w, b0), FailsFirst(w, b0, Least(w, b0)), bound);
  }

  lemma DoomedIsApart(w: World, b0: Keys)
    ensures Doomed(w, b0) !! Least(w, b0) && FailsFirst(w, b0, Least(w, b0)) <= Doomed(w, b0)
    ensures Dragged(b0, Least(w, b0), Doomed(w, b0)) <= Doomed(w, b0) <= b0.Keys
  {
    var l := Least(w, b0);
    var rest := b0.Keys - l;
    LeastIsGrounded(w, b0);
    forall id | id in FailsFirst(w, b0, l) ensures id in rest {
      if id in l {
        LeastHasReasons(w, b0, id);
      }
    }
    forall id | id in Dragged(b0, l, rest) ensures id in rest {
    }
    hide Least;
    DoomedIsLeast(w, b0, rest);
  }

  // ----- No run leaves the doomed set -----

  lemma CancelledIsDoomed(w: World, b0: Keys, s: State, id: string)
    requires Inv(w, b0, s) && s.shared.failed <= Doomed(w, b0) && Enabled(s, Visit(id))
    requires CheckDeps(b0[id].dependsOn, s.shared.done, s.shared.failed) == DepFailed
    ensures id in Doomed(w, b0)
  {
    SharedFacts(w, b0, s);
    DoomedIsApart(w, b0);
    hide Inv, Least, Doomed, CheckDeps;
    ChecksLater(b0[id].dependsOn, s.shared.done, Least(w, b0), s.shared.failed);
    ChecksAgree(b0[id].dependsOn, Least(w, b0), s.shared.failed, Doomed(w, b0));
    assert id in Dragged(b0, Least(w, b0), Doomed(w, b0));
  }

  lemma WorkStaysDoomed(w: World, b0: Keys, s: State, i: nat)
    requires Inv(w, b0, s) && s.shared.failed <= Doomed(w, b0) && Enabled(s, Work(i))
    ensures DoWork(w, s, i).shared.failed <= Doomed(w, b0)
  {
    hide Inv, Least, Doomed, DoWork, ReadySet, Asks;
    var s' := DoWork(w, s, i);
    var id := s.phase.workers[i].quest.id;
    StepInv(w, b0, s, Work(i));
    WorkersAreReady(w, b0, s, i);
    OwnSets(w, s, i);
    DoomedIsApart(w, b0);
    if id in s'.shared.failed {
      FailedIsNotAsking(w, b0, s', id);
    }
  }

  lemma VisitAdds(s: State, id: string)
    requires Enabled(s, Visit(id))
    ensures DoVisit(s, id).shared.failed
            == if CheckDeps(s.pending[id].dependsOn, s.shared.done, s.shared.failed) == DepFailed
               then s.shared.failed + {id} else s.shared.failed
  {
    hide CheckDeps;
  }

  lemma OthersAddNothing(w: World, s: State, l: Label)
    requires Enabled(s, l) && !l.Visit? && !l.Work? && !l.Drop?
    ensures Do(w, s, l).shared == s.shared
  {
  }

  lemma StepStaysDoomed(w: World, b0: Keys, s: State, l: Label)
    requires Inv(w, b0, s) && s.shared.failed <= Doomed(w, b0) && Enabled(s, l) && !s.phase.Sweep?
    ensures Do(w, s, l).shared.failed <= Doomed(w, b0)
  {
    hide Inv, Doomed, CheckDeps, DoVisit, DoWork;
    if l.Visit? {
      SharedFacts(w, b0, s);
      VisitAdds(s, l.id);
      if CheckDeps(b0[l.id].dependsOn, s.shared.done, s.shared.failed) == DepFailed {
        CancelledIsDoomed(w, b0, s, l.id);
      }
    } else if l.Work? {
      WorkStaysDoomed(w, b0, s, l.i);
    } else {
      OthersAddNothing(w, s, l);
    }
  }

  /** A board on which something will wait is never swept. */
  lemma WaitingIsSeen(w: World, b0: Keys, s: State)
    requires Inv(w, b0, s) && Enabled(s, EndScan) && s.phase.level == [] && Waits(w, b0)
    ensures HasWaiting(s.shared.board)
  {
    SharedFacts(w, b0, s);
    if HasWaiting(b0) {
      StillWaiting(w, b0, s);
    } else {
      var id :| id in ReadySet(b0, Least(w, b0)) && Candidate(b0[id]) && Asks(w, b0[id]);
      AskingEndsUpWaiting(w, b0, s, id);
    }
  }

  lemma StillWaiting(w: World, b0: Keys, s: State)
    requires Inv(w, b0, s) && HasWaiting(b0)
    ensures HasWaiting(s.shared.board)
  {
    hide Least, Covered, PhaseOk;
    var id :| id in b0 && b0[id].status == WaitingApproval;
    assert EntryOk(w, b0[id], s.shared.board[id], id in Least(w, b0), id in ReadySet(b0, Least(w, b0)));
  }

  lemma AskingEndsUpWaiting(w: World, b0: Keys, s: State, id: string)
    requires Inv(w, b0, s) && Enabled(s, EndScan) && s.phase.level == []
    requires id in ReadySet(b0, Least(w, b0)) && Candidate(b0[id]) && Asks(w, b0[id])
    ensures id in s.shared.board && s.shared.board[id].status == WaitingApproval
  {
    hide Inv, Least, Covered;
    AskingIsOut(w, b0, s, id);
    NothingReadyIsPending(w, b0, s, id);
    CoveredAtTheEnd(w, b0, s, id);
    SharedFacts(w, b0, s);
  }

  lemma AskingIsOut(w: World, b0: Keys, s: State, id: string)
    requires Inv(w, b0, s)
    requires id in ReadySet(b0, Least(w, b0)) && Candidate(b0[id]) && Asks(w, b0[id])
    ensures id !in s.shared.done && id !in s.shared.failed
  {
    hide Inv, Least;
    SharedFacts(w, b0, s);
    if id in Least(w, b0) {
      InLeastIsReady(w, b0, id);
    }
    if id in s.shared.failed {
      FailedIsNotAsking(w, b0, s, id);
    }
  }

  lemma NothingReadyIsPending(w: World, b0: Keys, s: State, id: string)
    requires Inv(w, b0, s) && Enabled(s, EndScan) && s.phase.level == [] && id in ReadySet(b0, Least(w, b0))
    ensures id !in s.pending
  {
    StuckIsLeast(w, b0, s);
    hide Least, SharedOk, Covered;
  }

  lemma CoveredAtTheEnd(w: World, b0: Keys, s: State, id: string)
    requires Inv(w, b0, s) && !s.phase.Level? && id in b0 && Candidate(b0[id])
    ensures id in s.pending || id in s.shared.done || id in s.shared.failed
            || (id in s.shared.board && s.shared.board[id].status == WaitingApproval)
  {
    hide Least, SharedOk, PendingOk, PhaseOk;
    assert Covered(s, id);
  }

  lemma NeverSwept(w: World, b0: Keys, s: State, l: Label)
    requires Inv(w, b0, s) && Enabled(s, l) && !s.phase.Sweep? && Waits(w, b0)
    ensures !Do(w, s, l).phase.Sweep?
  {
    if l == EndScan && s.phase.level == [] {
      WaitingIsSeen(w, b0, s);
    }
    hide Inv, Waits, HasWaiting, Advance, CheckDeps;
  }

  lemma {:induction false} RunsStayDoomed(w: World, b0: Keys, s: State, labels: seq<Label>)
    requires Inv(w, b0, s) && s.shared.failed <= Doomed(w, b0) && !s.phase.Sweep? && Waits(w, b0)
    requires Run(w, s, labels).Some?
    ensures Run(w, s, labels).value.shared.failed <= Doomed(w, b0)
    decreases |labels|
  {
    hide Inv, Doomed, Waits, Do;
    if labels != [] {
      StepInv(w, b0, s, labels[0]);
      StepStaysDoomed(w, b0, s, labels[0]);
      NeverSwept(w, b0, s, labels[0]);
      RunsStayDoomed(w, b0, Do(w, s, labels[0]), labels[1..]);
    }
  }
}
