/** What the orchestrator does after a scheduler run: pause for a human, plan again, or finish with a report. */
module Observation {
  import opened Common
  import opened Board
  import opened Scheduler
  import opened LeastFixpoint
  import opened SchedulerInvariant
  import opened WorkerInvariant
  import opened SchedulerTheorems

  const MAX_ITERATIONS: nat := 3

  datatype Decision = PauseForHuman | PlanAgain | Finish

  predicate Closed0(q: Quest) {
    q.status == Failed || q.status == Cancelled || q.status == OtherStatus("skipped")
  }

  predicate AnyWith(quests: seq<Quest>, status: QuestStatus) {
    exists q :: q in quests && q.status == status
  }

  predicate AllClosedOrDone(quests: seq<Quest>) {
    forall q | q in quests :: q.status == Done || Closed0(q)
  }

  /** The planner is asked again: nobody waits, something was achieved, and something is left open. */
  predicate Replans(quests: seq<Quest>, iteration: nat) {
    && !AnyWith(quests, WaitingApproval) && AnyWith(quests, Done) && !AllClosedOrDone(quests)
    && iteration + 1 < MAX_ITERATIONS
  }

  /** The summary for the planner counts what was done; without any there is no replanning. */
  method CountWork(quests: seq<Quest>) returns (hasWork: nat)
    ensures hasWork > 0 <==> AnyWith(quests, Done)
  {
    hasWork := 0;
    for i := 0 to |quests|
      invariant hasWork > 0 <==> AnyWith(quests[..i], Done)
    {
      if quests[i].status == Done {
        hasWork := hasWork + 1;
      }
    }
    assert quests[..|quests|] == quests;
  }

  /** The end of one iteration and the head of the next. */
  method Observe(quests: seq<Quest>, iteration: nat) returns (d: Decision)
    requires iteration < MAX_ITERATIONS
    ensures d == PauseForHuman <==> AnyWith(quests, WaitingApproval)
    ensures d == PlanAgain <==> Replans(quests, iteration)
  {
    var waiting := 0;
    for i := 0 to |quests|
      invariant waiting > 0 <==> AnyWith(quests[..i], WaitingApproval)
      invariant waiting >= 0
    {
      if quests[i].status == WaitingApproval {
        waiting := waiting + 1;
      }
    }
    assert quests[..|quests|] == quests;
    if waiting > 0 {
      return PauseForHuman;
    }
    var pending, doneAll, hasNewDone := 0, true, false;
    for i := 0 to |quests|
      invariant pending >= 0 && (pending > 0 <==> AnyWith(quests[..i], Pending))
      invariant hasNewDone <==> AnyWith(quests[..i], Done)
      invariant doneAll <==> AllClosedOrDone(quests[..i])
    {
      if quests[i].status == Done {
        hasNewDone := true;
      } else if !Closed0(quests[i]) {
        doneAll := false;
        if quests[i].status == Pending {
          pending := pending + 1;
        }
      }
    }
    if doneAll && (hasNewDone || iteration == 0) {
      return Finish;
    }
    if pending == 0 && !hasNewDone {
      return Finish;
    }
    if iteration + 1 == MAX_ITERATIONS {
      return Finish;
    }
    var hasWork := CountWork(quests);
    return if hasWork == 0 then Finish else PlanAgain;
  }

  // ----- After a complete run -----

  /** The quests of a mission whose board, addressed by id, is `board`. */
  ghost predicate Shown(quests: seq<Quest>, board: Keys) {
    && (forall q | q in quests :: q.id in board && board[q.id] == q)
    && (forall id | id in board :: board[id] in quests)
  }

  /** A quest the scheduler never takes on and the observer does not count as closed. */
  predicate LeftOpen(q: Quest) {
    !Candidate(q) && q.status != Done && !Closed0(q)
  }

  /**
   After a run with approval off that was not cut off, the orchestrator plans again exactly
   if it is not the last iteration, the run achieved something, and either some claim was
   refused or somebody else's quest was already under way.
   */
  lemma ReplansIffSomethingIsStuck(
      w: World, b0: Keys, labels: seq<Label>, s: State, quests: seq<Quest>, iteration: nat)
    requires Reaches(w, b0, labels, s) && s.phase == Stopped(false)
    requires !w.approval && !HasWaiting(b0) && Shown(quests, s.shared.board)
    ensures Replans(quests, iteration) <==>
              && iteration + 1 < MAX_ITERATIONS && Least(w, b0) != {}
              && exists id :: id in b0 && (ClaimIsRefused(w, b0, id) || LeftOpen(b0[id]))
  {
    hide AnyWith, AllClosedOrDone, Least, ClaimIsRefused, LeftOpen, Reaches;
    NobodyIsWaiting(w, b0, labels, s, quests);
    DoneShows(w, b0, labels, s, quests);
    OpenShows(w, b0, labels, s, quests);
  }

  lemma EntryAtTheEnd(w: World, b0: Keys, labels: seq<Label>, s: State, id: string)
    requires Reaches(w, b0, labels, s) && id in s.shared.board
    ensures id in b0 && EntryOk(w, b0[id], s.shared.board[id], id in Least(w, b0), id in ReadySet(b0, Least(w, b0)))
  {
    ReachedInv(w, b0, labels, s);
  }

  lemma NobodyIsWaiting(w: World, b0: Keys, labels: seq<Label>, s: State, quests: seq<Quest>)
    requires Reaches(w, b0, labels, s) && !w.approval && !HasWaiting(b0) && Shown(quests, s.shared.board)
    ensures !AnyWith(quests, WaitingApproval)
  {
    hide Reaches, Least, Passes;
    forall q | q in quests ensures q.status != WaitingApproval {
      EntryAtTheEnd(w, b0, labels, s, q.id);
    }
  }

  lemma DoneShows(w: World, b0: Keys, labels: seq<Label>, s: State, quests: seq<Quest>)
    requires Reaches(w, b0, labels, s) && s.phase == Stopped(false) && Shown(quests, s.shared.board)
    ensures AnyWith(quests, Done) <==> Least(w, b0) != {}
  {
    DoneSetIsLeast(w, b0, labels, s);
    hide Reaches, Least;
    if id :| id in Least(w, b0) {
      assert s.shared.board[id] in quests;
    }
    if q :| q in quests && q.status == Done {
      assert q.id in DoneIn(s.shared.board);
    }
  }

  lemma OpenShows(w: World, b0: Keys, labels: seq<Label>, s: State, quests: seq<Quest>)
    requires Reaches(w, b0, labels, s) && s.phase == Stopped(false)
    requires !w.approval && !HasWaiting(b0) && Shown(quests, s.shared.board)
    ensures !AllClosedOrDone(quests) <==> exists id :: id in b0 && (ClaimIsRefused(w, b0, id) || LeftOpen(b0[id]))
  {
    hide Reaches, Least, ClaimIsRefused;
    forall id | id in s.shared.board
      ensures id in b0
      ensures s.shared.board[id].status == Done || Closed0(s.shared.board[id])
              <==> !(ClaimIsRefused(w, b0, id) || LeftOpen(b0[id]))
    {
      OpenEntry(w, b0, labels, s, id);
    }
    SameKeys(w, b0, labels, s);
  }

  lemma SameKeys(w: World, b0: Keys, labels: seq<Label>, s: State)
    requires Reaches(w, b0, labels, s)
    ensures s.shared.board.Keys == b0.Keys
  {
    ReachedInv(w, b0, labels, s);
  }

  lemma OpenEntry(w: World, b0: Keys, labels: seq<Label>, s: State, id: string)
    requires Reaches(w, b0, labels, s) && s.phase == Stopped(false) && !w.approval && !HasWaiting(b0)
    requires id in s.shared.board
    ensures id in b0
    ensures s.shared.board[id].status == Done || Closed0(s.shared.board[id])
            <==> !(ClaimIsRefused(w, b0, id) || LeftOpen(b0[id]))
  {
    EntryAtTheEnd(w, b0, labels, s, id);
    RunsResolveTheBoard(w, b0, labels, s);
    hide Reaches, Least, Passes, MayClaim;
  }
}
