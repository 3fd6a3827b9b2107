/**
 The level scheduler as the imperative loop it is: the pending, done and failed sets are
 local variables, a level is collected by walking the pending quests in any order, and
 its workers are interleaved in any order. It refines the state machine, always ends,
 and is proved against the least fixed point.
 */
module SchedulerRun {
  import opened Common
  import opened Board
  import opened Scheduler
  import opened LeastFixpoint
  import opened SchedulerInvariant
  import opened WorkerInvariant
  import opened SchedulerTheorems
  import opened Crash
  import QuestRecords

  /** The dependency loop of one visit. */
  method CheckDependencies(deps: seq<string>, done: set<string>, failed: set<string>)
      returns (depFailed: bool, depOK: bool)
    ensures CheckDeps(deps, done, failed) ==
            if depFailed then DepFailed else if depOK then Ready else Blocked
  {
    depFailed, depOK := false, true;
    var i := 0;
    while i < |deps|
      invariant 0 <= i <= |deps|
      invariant !depFailed && depOK
      invariant CheckDeps(deps, done, failed) == CheckDeps(deps[i..], done, failed)
    {
      if deps[i] in failed {
        depFailed := true;
        return;
      }
      if deps[i] !in done {
        depOK := false;
        return;
      }
      i := i + 1;
    }
  }

  predicate Before(quests: seq<Quest>, i: int, id: string) {
    0 <= IndexOf(quests, id) < i
  }

  lemma InitParts(b: Keys, pending: Keys, done: set<string>, failed: set<string>)
    requires forall id :: id in pending <==> id in b && Candidate(b[id])
    requires forall id :: id in pending ==> pending[id] == b[id]
    requires forall id :: id in done <==> id in b && b[id].status == Done
    requires forall id :: id in failed <==> id in b && b[id].status == Cancelled
    ensures State(Shared(b, done, failed), pending, Head) == Init(b)
  {
    assert pending == Init(b).pending;
    assert done == Init(b).shared.done;
    assert failed == Init(b).shared.failed;
  }

  lemma Bounds(m: Mission)
    ensures forall id :: !Before(m.quests, 0, id)
    ensures forall id | id in Keyed(m) :: Before(m.quests, |m.quests|, id)
  {
  }

  lemma OwnIndex(quests: seq<Quest>, i: nat)
    requires UniqueIds(quests) && i < |quests|
    ensures IndexOf(quests, quests[i].id) == i
  {
    hide IndexOf;
  }

  lemma BeforeNext(quests: seq<Quest>, i: nat, id: string)
    requires UniqueIds(quests) && i < |quests|
    ensures Before(quests, i + 1, id) <==> Before(quests, i, id) || id == quests[i].id
  {
    hide IndexOf, UniqueIds;
    OwnIndex(quests, i);
  }

  /** Sorting the mission's quests into the three working sets. */
  method Partition(m: Mission) returns (pending: Keys, done: set<string>, failed: set<string>)
    requires UniqueIds(m.quests)
    ensures State(Shared(Keyed(m), done, failed), pending, Head) == Init(Keyed(m))
  {
    hide UniqueIds, IndexOf, Before, Init, Keyed;
    pending, done, failed := map[], {}, {};
    ghost var b := Keyed(m);
    Bounds(m);
    var i := 0;
    while i < |m.quests|
      invariant 0 <= i <= |m.quests|
      invariant forall id :: id in pending <==> id in b && Before(m.quests, i, id) && Candidate(b[id])
      invariant forall id :: id in pending ==> pending[id] == b[id]
      invariant forall id :: id in done <==> id in b && Before(m.quests, i, id) && b[id].status == Done
      invariant forall id :: id in failed <==> id in b && Before(m.quests, i, id) && b[id].status == Cancelled
    {
      var q := m.quests[i];
      OwnIndex(m.quests, i);
      forall id ensures Before(m.quests, i + 1, id) <==> Before(m.quests, i, id) || id == q.id {
        BeforeNext(m.quests, i, id);
      }
      assert q.id in b && b[q.id] == q;
      if q.status == Pending || q.status == Failed {
        pending := pending[q.id := q];
      } else if q.status == Done {
        done := done + {q.id};
      } else if q.status == Cancelled {
        failed := failed + {q.id};
      }
      i := i + 1;
    }
    InitParts(b, pending, done, failed);
  }

  /** Collect the runnable level and cancel the quests whose dependencies failed. */
  method CollectLevel(w: World, ghost b0: Keys, ghost labels0: seq<Label>, pending0: Keys, shared0: Shared)
      returns (pending: Keys, shared: Shared, level: seq<Quest>, ghost labels: seq<Label>)
    requires Reaches(w, b0, labels0, State(shared0, pending0, Scan(pending0.Keys, [])))
    ensures Reaches(w, b0, labels, State(shared, pending, Scan({}, level)))
    ensures pending.Keys <= pending0.Keys
    ensures level != [] ==> level[0].id in pending
  {
    pending, shared, level, labels := pending0, shared0, [], labels0;
    var todo := pending0.Keys;
    while todo != {}
      invariant Reaches(w, b0, labels, State(shared, pending, Scan(todo, level)))
      invariant todo <= pending.Keys <= pending0.Keys
      decreases todo
    {
      var id :| id in todo;
      var q := pending[id];
      ghost var s := State(shared, pending, Scan(todo, level));
      var depFailed, depOK := CheckDependencies(q.dependsOn, shared.done, shared.failed);
      todo := todo - {id};
      if depFailed {
        shared := Cancelling(shared, id, "dependency failed");
        pending := pending - {id};
      } else if depOK {
        level := level + [q];
      }
      assert State(shared, pending, Scan(todo, level)) == DoVisit(s, id);
      labels := OneMore(w, b0, labels, s, Visit(id));
    }
    ReachedInv(w, b0, labels, State(shared, pending, Scan({}, level)));
  }

  /** Run one level: at each turn any worker that can move makes one step. */
  method RunLevel(w: World, ghost b0: Keys, ghost labels0: seq<Label>, level: seq<Quest>, pending: Keys, shared0: Shared)
      returns (shared: Shared, ghost labels: seq<Label>)
    requires Reaches(w, b0, labels0, State(shared0, pending, Level(Spawn(level))))
    ensures Reaches(w, b0, labels, State(shared, pending, Head))
  {
    shared, labels := shared0, labels0;
    var workers := Spawn(level);
    while !AllExited(workers)
      invariant Reaches(w, b0, labels, State(shared, pending, Level(workers)))
      decreases Ranks(workers)
    {
      ghost var s := State(shared, pending, Level(workers));
      ghost var k := SomeoneCanMove(workers);
      var i :| 0 <= i < |workers| && workers[i].place != Exited
               && (workers[i].place == Queued ==> Busy(workers) < MAX_PARALLEL);
      var (shared', worker') := Advance(w, shared, workers[i]);
      StepDescends(w, b0, labels, s, i);
      labels := OneMore(w, b0, labels, s, Work(i));
      shared, workers := shared', workers[i := worker'];
    }
    ghost var s := State(shared, pending, Level(workers));
    labels := OneMore(w, b0, labels, s, Loop);
  }

  lemma StepDescends(w: World, b0: Keys, labels: seq<Label>, s: State, i: nat)
    requires Reaches(w, b0, labels, s) && Enabled(s, Work(i))
    ensures Ranks(DoWork(w, s, i).phase.workers) < Ranks(s.phase.workers)
  {
    hide Advance;
    EveryStepDescends(w, b0, labels, s, Work(i));
  }

  /** Cancel what is left: a cycle, or dependencies that are nowhere on the board. */
  method CancelRest(w: World, ghost b0: Keys, ghost labels0: seq<Label>, pending0: Keys, shared0: Shared)
      returns (shared: Shared, ghost labels: seq<Label>)
    requires Reaches(w, b0, labels0, State(shared0, pending0, Sweep))
    ensures Reaches(w, b0, labels, State(shared, map[], Stopped(false)))
  {
    var pending := pending0;
    shared, labels := shared0, labels0;
    while pending.Keys != {}
      invariant Reaches(w, b0, labels, State(shared, pending, Sweep))
      decreases pending.Keys
    {
      var id :| id in pending.Keys;
      labels := OneMore(w, b0, labels, State(shared, pending, Sweep), Drop(id));
      shared := Cancelling(shared, id, "dependency cycle \U{2014} unsatisfiable");
      pending := pending - {id};
    }
    assert pending == map[];
    labels := OneMore(w, b0, labels, State(shared, pending, Sweep), Loop);
  }

  /**
   The whole scheduler. `final` is the state the run ends in; unless the context expired,
   its done set is the least fixed point over the board the run started from.
   */
  method ExecuteQuestLevels(w: World, m: Mission) returns (final: State, ghost labels: seq<Label>)
    requires UniqueIds(m.quests)
    ensures Reaches(w, Keyed(m), labels, final) && final.phase.Stopped?
    ensures DoneIn(Keyed(m)) <= final.shared.done <= Least(w, Keyed(m))
    ensures !final.phase.timedOut ==>
              final.shared.done == Least(w, Keyed(m)) == DoneIn(final.shared.board)
    ensures !final.phase.timedOut && !w.approval && !HasWaiting(Keyed(m)) && MayClaim(w) ==>
              forall id | id in Keyed(m) && Candidate(Keyed(m)[id]) ::
                id in final.shared.board && Resolved(final.shared.board[id])
    ensures Told(w, Keyed(m), final)
  {
    hide Reaches, Least, Do, DoneIn, Resolved, Told;
    ghost var b0 := Keyed(m);
    var pending, done, failed := Partition(m);
    var shared := Shared(Keyed(m), done, failed);
    labels := StartOf(w, m);
    while pending.Keys != {}
      invariant Reaches(w, b0, labels, State(shared, pending, Head))
      decreases |pending|
    {
      if * {
        labels := Expire(w, b0, labels, shared, pending);
        return State(shared, pending, Stopped(true)), labels;
      }
      ghost var before := pending;
      var level;
      labels := EnterScan(w, b0, labels, shared, pending);
      pending, shared, level, labels := CollectLevel(w, b0, labels, pending, shared);
      labels := LeaveScan(w, b0, labels, shared, pending, level);
      if |level| == 0 {
        if HasWaiting(shared.board) {
          final := State(shared, pending, Stopped(false));
        } else {
          shared, labels := CancelRest(w, b0, labels, pending, shared);
          final := State(shared, map[], Stopped(false));
        }
        AtTheEnd(w, b0, labels, final);
        return;
      }
      LevelShrinks(pending, level, before);
      pending := pending - IdsOf(level);
      shared, labels := RunLevel(w, b0, labels, level, pending, shared);
    }
    labels := Finish(w, b0, labels, shared, pending);
    final := State(shared, pending, Stopped(false));
    AtTheEnd(w, b0, labels, final);
  }

  lemma StartOf(w: World, m: Mission) returns (labels: seq<Label>)
    ensures Reaches(w, Keyed(m), labels, Init(Keyed(m)))
  {
    labels := [];
  }

  lemma AtTheEnd(w: World, b0: Keys, labels: seq<Label>, s: State)
    requires Reaches(w, b0, labels, s) && s.phase == Stopped(false)
    ensures DoneIn(b0) <= s.shared.done
    ensures s.shared.done == Least(w, b0) == DoneIn(s.shared.board)
    ensures !w.approval && !HasWaiting(b0) && MayClaim(w) ==>
              forall id | id in b0 && Candidate(b0[id]) :: id in s.shared.board && Resolved(s.shared.board[id])
    ensures Told(w, b0, s)
  {
    EverythingIsTold(w, b0, labels, s);
    hide Told;
    DoneSetIsLeast(w, b0, labels, s);
    if !w.approval && !HasWaiting(b0) && MayClaim(w) {
      RunsResolveTheBoard(w, b0, labels, s);
    }
  }

  /** The board tells what happened to every quest the run took on. */
  ghost predicate Told(w: World, b0: Keys, s: State) {
    forall id | id in b0 :: QuestRecords.TellsWhatHappened(w, b0, s, id)
  }

  lemma EverythingIsTold(w: World, b0: Keys, labels: seq<Label>, s: State)
    requires Reaches(w, b0, labels, s)
    ensures Told(w, b0, s)
  {
    hide QuestRecords.TellsWhatHappened, Reaches;
    forall id | id in b0 ensures QuestRecords.TellsWhatHappened(w, b0, s, id) {
      QuestRecords.BoardTellsWhatHappened(w, b0, labels, s, id);
    }
  }

  lemma LevelShrinks(pending: Keys, level: seq<Quest>, before: Keys)
    requires level != [] && level[0].id in pending && pending.Keys <= before.Keys
    ensures |pending - IdsOf(level)| < |before|
  {
    RemovingShrinks(pending, IdsOf(level), level[0].id);
    SmallerSet(pending.Keys, before.Keys);
  }

  // ----- The labels of the outer loop -----

  lemma EnterScan(w: World, b0: Keys, labels: seq<Label>, shared: Shared, pending: Keys) returns (labels': seq<Label>)
    requires Reaches(w, b0, labels, State(shared, pending, Head)) && pending.Keys != {}
    ensures Reaches(w, b0, labels', State(shared, pending, Scan(pending.Keys, [])))
  {
    labels' := OneMore(w, b0, labels, State(shared, pending, Head), Loop);
  }

  lemma LeaveScan(w: World, b0: Keys, labels: seq<Label>, shared: Shared, pending: Keys, level: seq<Quest>)
      returns (labels': seq<Label>)
    requires Reaches(w, b0, labels, State(shared, pending, Scan({}, level)))
    ensures
      Reaches(w, b0, labels',
        if level != [] then State(shared, pending - IdsOf(level), Level(Spawn(level)))
        else State(shared, pending, if HasWaiting(shared.board) then Stopped(false) else Sweep))
  {
    labels' := OneMore(w, b0, labels, State(shared, pending, Scan({}, level)), EndScan);
  }

  lemma Expire(w: World, b0: Keys, labels: seq<Label>, shared: Shared, pending: Keys) returns (labels': seq<Label>)
    requires Reaches(w, b0, labels, State(shared, pending, Head)) && pending.Keys != {}
    ensures Reaches(w, b0, labels', State(shared, pending, Stopped(true)))
    ensures DoneIn(b0) <= shared.done <= Least(w, b0)
    ensures Told(w, b0, State(shared, pending, Stopped(true)))
  {
    labels' := OneMore(w, b0, labels, State(shared, pending, Head), Timeout);
    EverythingIsTold(w, b0, labels', State(shared, pending, Stopped(true)));
    hide Told;
    DoneSetIsLeast(w, b0, labels', State(shared, pending, Stopped(true)));
  }

  lemma Finish(w: World, b0: Keys, labels: seq<Label>, shared: Shared, pending: Keys) returns (labels': seq<Label>)
    requires Reaches(w, b0, labels, State(shared, pending, Head)) && pending.Keys == {}
    ensures Reaches(w, b0, labels', State(shared, pending, Stopped(false)))
  {
    assert pending == map[];
    labels' := OneMore(w, b0, labels, State(shared, pending, Head), Loop);
  }
}
