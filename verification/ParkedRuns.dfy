/** How each step of a run moves the set of quests that are bound to fail. */
module ParkedRuns {
  import opened Common
  import opened Board
  import opened Scheduler
  import opened LeastFixpoint
  import opened SchedulerInvariant
  import opened WorkerInvariant
  import opened SchedulerTheorems
  import opened FinalStatus
  import opened ScanOrder

  ghost function Bound(w: World, b0: Keys, s: State): set<string> {
    AtLeast(w, b0, Least(w, b0), s)
  }

  lemma SharedFacts(w: World, b0: Keys, s: State)
    requires Inv(w, b0, s)
    ensures Apart(Least(w, b0), s.shared.done, s.shared.failed)
    ensures Candidates(b0, s.pending.Keys) && s.shared.board.Keys == b0.Keys
    ensures forall id | id in s.pending :: s.pending[id] == b0[id] && id !in s.shared.failed
    ensures Grounded(b0, Least(w, b0))
  {
    LeastIsGrounded(w, b0);
    hide Least, Covered, PhaseOk;
  }

  // ----- Worker steps -----

  /** A ready quest in the failed set is not one that waits. */
  lemma FailedIsNotAsking(w: World, b0: Keys, s: State, id: string)
    requires Inv(w, b0, s) && id in s.shared.failed && id in ReadySet(b0, Least(w, b0)) && Candidate(b0[id])
    ensures !Asks(w, b0[id]) && id !in Least(w, b0)
  {
    hide Least, PhaseOk, Covered, PendingOk;
    assert EntryOk(w, b0[id], s.shared.board[id], id in Least(w, b0), true);
  }

  lemma WorkersAreReady(w: World, b0: Keys, s: State, i: nat)
    requires Inv(w, b0, s) && s.phase.Level? && i < |s.phase.workers|
    ensures var id := s.phase.workers[i].quest.id;
            && id in b0 && id in ReadySet(b0, Least(w, b0)) && Candidate(b0[id])
            && id !in s.pending && id in WorkerIds(s.phase.workers)
  {
    hide Least, Covered, PlaceOk, EntryOk, Candidate;
    assert WorkerOk(w, b0, s.shared, Least(w, b0), s.phase.workers[i]);
  }

  lemma SameWorkerIds(ws: seq<Worker>, ws': seq<Worker>)
    requires |ws'| == |ws| && forall j :: 0 <= j < |ws| ==> ws'[j].quest.id == ws[j].quest.id
    ensures WorkerIds(ws') == WorkerIds(ws)
  {
    forall j | 0 <= j < |ws| ensures ws'[j].quest.id in WorkerIds(ws) && ws[j].quest.id in WorkerIds(ws') {
    }
  }

  lemma WorkerKeepsBound(w: World, b0: Keys, s: State, i: nat)
    requires Inv(w, b0, s) && Enabled(s, Work(i)) && Inv(w, b0, DoWork(w, s, i))
    ensures Bound(w, b0, DoWork(w, s, i)) == Bound(w, b0, s)
  {
    hide Inv, Advance, Least, Rounds, Blamed;
    var s' := DoWork(w, s, i);
    var ids, l := WorkerIds(s.phase.workers), Least(w, b0);
    WorkKeepsIds(w, s, i);
    SameWorkerIds(s.phase.workers, s'.phase.workers);
    WorkerSets(w, b0, s, i);
  }

  /** What the worker adds to the shared sets was counted when it was spawned. */
  lemma WorkerSets(w: World, b0: Keys, s: State, i: nat)
    requires Inv(w, b0, s) && Enabled(s, Work(i)) && Inv(w, b0, DoWork(w, s, i))
    ensures var s' := DoWork(w, s, i); var ids, l := WorkerIds(s.phase.workers), Least(w, b0);
            && s'.shared.done + ids * l == s.shared.done + ids * l
            && s'.shared.failed + Blamed(w, b0, l, ids) == s.shared.failed + Blamed(w, b0, l, ids)
  {
    hide Advance, Least, Inv, DoWork, Asks;
    var s' := DoWork(w, s, i);
    var id := s.phase.workers[i].quest.id;
    WorkersAreReady(w, b0, s, i);
    SharedFacts(w, b0, s');
    OwnSets(w, s, i);
    if id in s'.shared.failed {
      FailedIsNotAsking(w, b0, s', id);
    }
  }

  lemma OwnSets(w: World, s: State, i: nat)
    requires Enabled(s, Work(i))
    ensures var sh, sh' := s.shared, DoWork(w, s, i).shared; var id := s.phase.workers[i].quest.id;
            && (sh'.done == sh.done || sh'.done == sh.done + {id})
            && (sh'.failed == sh.failed || sh'.failed == sh.failed + {id})
  {
    hide Advance;
    AdvanceIsOwnEffect(w, s.shared, s.phase.workers[i]);
  }

  // ----- The end of a level -----

  lemma LevelEndKeepsBound(w: World, b0: Keys, s: State)
    requires Inv(w, b0, s) && s.phase.Level? && AllExited(s.phase.workers)
    ensures Bound(w, b0, DoLoop(s)) == Bound(w, b0, s)
  {
    hide Inv, Least, Rounds, Asks, AllExited;
    var ids, l := WorkerIds(s.phase.workers), Least(w, b0);
    forall id | id in ids
      ensures id in l ==> id in s.shared.done
      ensures id in Blamed(w, b0, l, ids) ==> id in s.shared.failed
    {
      var i :| 0 <= i < |s.phase.workers| && s.phase.workers[i].quest.id == id;
      ExitedIsSettled(w, b0, s, i);
    }
    assert s.shared.done + ids * l == s.shared.done;
    assert s.shared.failed + Blamed(w, b0, l, ids) == s.shared.failed;
  }

  lemma ExitedIsSettled(w: World, b0: Keys, s: State, i: nat)
    requires Inv(w, b0, s) && s.phase.Level? && AllExited(s.phase.workers) && i < |s.phase.workers|
    ensures var id := s.phase.workers[i].quest.id;
            && id in b0 && (id in Least(w, b0) ==> id in s.shared.done)
            && (id !in Least(w, b0) && !Asks(w, b0[id]) ==> id in s.shared.failed)
  {
    var id := s.phase.workers[i].quest.id;
    WorkersAreReady(w, b0, s, i);
    SharedFacts(w, b0, s);
    if id in Least(w, b0) {
      InLeastIsReady(w, b0, id);
    }
    hide Least, PhaseOk;
    assert Covered(s, id);
    assert EntryOk(w, b0[id], s.shared.board[id], id in Least(w, b0), true);
  }

  // ----- The scan -----

  lemma VisitKeepsBound(w: World, b0: Keys, s: State, id: string)
    requires Inv(w, b0, s) && Enabled(s, Visit(id))
    requires CheckDeps(b0[id].dependsOn, s.shared.done, s.shared.failed) != DepFailed
    ensures Bound(w, b0, DoVisit(s, id)) == Bound(w, b0, s)
  {
    SharedFacts(w, b0, s);
    hide Inv, Least, AfterScan, CheckDeps;
    var todo := s.phase.todo;
    assert Failing(b0, s.shared.done, s.shared.failed, todo - {id}) == Failing(b0, s.shared.done, s.shared.failed, todo);
  }

  lemma BoundInScan(w: World, b0: Keys, s: State)
    requires s.phase.Scan?
    ensures var f := Failing(b0, s.shared.done, s.shared.failed, s.phase.todo);
            Bound(w, b0, s) == AfterScan(w, b0, Least(w, b0), s.shared.done, s.shared.failed + f, s.pending.Keys - f)
  {
    hide Least, Failing, AfterScan;
  }

  lemma CancelledOne(s: State, id: string)
    requires Enabled(s, Visit(id)) && CheckDeps(s.pending[id].dependsOn, s.shared.done, s.shared.failed) == DepFailed
    ensures var s' := DoVisit(s, id);
            && s'.phase.Scan? && s'.phase.todo == s.phase.todo - {id} && s'.pending.Keys == s.pending.Keys - {id}
            && s'.shared.done == s.shared.done && s'.shared.failed == s.shared.failed + {id}
  {
    hide CheckDeps;
  }

  lemma CancelMovesBound(w: World, b0: Keys, s: State, id: string)
    requires Inv(w, b0, s) && Enabled(s, Visit(id))
    requires CheckDeps(b0[id].dependsOn, s.shared.done, s.shared.failed) == DepFailed
    ensures Bound(w, b0, s) <= Bound(w, b0, DoVisit(s, id))
    ensures Failing(b0, s.shared.done, s.shared.failed, s.phase.todo) == s.phase.todo ==>
              Bound(w, b0, s) == Bound(w, b0, DoVisit(s, id))
  {
    hide Inv, Bound, Least, AfterScan, Failing, Apart, Ahead, CheckDeps, DoVisit, Grounded, ReadySet;
    SharedFacts(w, b0, s);
    StepInv(w, b0, s, Visit(id));
    SharedFacts(w, b0, DoVisit(s, id));
    TodoIsPending(w, b0, s);
    CancelledOne(s, id);
    BoundInScan(w, b0, s);
    BoundInScan(w, b0, DoVisit(s, id));
    var l, todo, done, failed, ids := Least(w, b0), s.phase.todo, s.shared.done, s.shared.failed, s.pending.Keys;
    CancelSets(b0, l, done, failed, todo, ids, id);
    var f, f' := Failing(b0, done, failed, todo), Failing(b0, done, failed + {id}, todo - {id});
    AfterScanIsMonotone(w, b0, l, done, failed + f, ids - f, failed + {id} + f', ids - {id} - f');
  }

  lemma TodoIsPending(w: World, b0: Keys, s: State)
    requires Inv(w, b0, s) && s.phase.Scan?
    ensures s.phase.todo <= s.pending.Keys
  {
    hide Least, Covered, SharedOk;
  }

  /** Cancelling one quest of the scan: the sets before and after. */
  lemma CancelSets(
      b0: Keys, l: set<string>, done: set<string>, failed: set<string>, todo: set<string>, ids: set<string>, id: string)
    requires Grounded(b0, l) && Candidates(b0, ids) && todo <= ids && id in todo
    requires Apart(l, done, failed) && Apart(l, done, failed + {id})
    requires CheckDeps(b0[id].dependsOn, done, failed) == DepFailed
    ensures var f, f' := Failing(b0, done, failed, todo), Failing(b0, done, failed + {id}, todo - {id});
            && Apart(l, done, failed + {id} + f')
            && Ahead(b0, l, failed + f, ids - f, failed + {id} + f', ids - {id} - f')
            && (f == todo ==> failed + f == failed + {id} + f' && ids - f == ids - {id} - f')
  {
    var f, f' := Failing(b0, done, failed, todo), Failing(b0, done, failed + {id}, todo - {id});
    FailingIsMonotone(b0, done, failed, failed + {id}, todo);
    FailingAreUnready(b0, l, done, failed + {id}, todo - {id});
    FailingAreUnready(b0, l, done, failed, todo);
    hide CheckDeps;
    assert f - {id} <= f';
    assert id in f;
  }

  // ----- The end of the scan -----

  lemma LevelIsDoing(w: World, b0: Keys, s: State)
    requires Inv(w, b0, s) && Enabled(s, EndScan)
    ensures Doing(b0, s.shared.done, s.pending.Keys) == IdsOf(s.phase.level)
  {
    hide Least, Covered, SharedOk;
    var level := s.phase.level;
    forall id | id in s.pending ensures AllDone(b0[id], s.shared.done) <==> id in IdsOf(level) {
      if InLevel(level, id) {
        var i :| 0 <= i < |level| && level[i].id == id;
        assert level[i] in level;
      }
    }
  }

  lemma SpawnedIds(level: seq<Quest>)
    ensures WorkerIds(Spawn(level)) == IdsOf(level)
  {
    forall i | 0 <= i < |level| ensures level[i].id in WorkerIds(Spawn(level)) {
      assert Spawn(level)[i].quest.id == level[i].id;
    }
  }

  lemma EndScanKeepsBound(w: World, b0: Keys, s: State)
    requires Inv(w, b0, s) && Enabled(s, EndScan)
    ensures Bound(w, b0, DoEndScan(s)) == Bound(w, b0, s)
  {
    hide Inv, Least, Rounds, Blamed, Doing, Failing, Spawn, Bound, CheckDeps, HasWaiting;
    LevelIsDoing(w, b0, s);
    BoundInScan(w, b0, s);
    NoneFailing(b0, s.shared.done, s.shared.failed);
    var ids := s.pending.Keys;
    assert s.shared.failed + {} == s.shared.failed && ids - {} == ids;
    if s.phase.level != [] {
      SpawnedBound(w, b0, s);
      assert s.phase.level[0].id in IdsOf(s.phase.level);
    } else {
      assert IdsOf(s.phase.level) == {};
      StoppedBound(w, b0, DoEndScan(s));
    }
  }

  lemma NoneFailing(b0: Keys, done: set<string>, failed: set<string>)
    ensures Failing(b0, done, failed, {}) == {} && Doing(b0, done, {}) == {}
  {
  }

  lemma StoppedBound(w: World, b0: Keys, s: State)
    requires s.phase.Stopped? || s.phase.Sweep?
    ensures Bound(w, b0, s) == s.shared.failed
  {
    hide Least;
  }

  lemma SpawnedBound(w: World, b0: Keys, s: State)
    requires Enabled(s, EndScan) && s.phase.level != []
    ensures var level, l := IdsOf(s.phase.level), Least(w, b0);
            Bound(w, b0, DoEndScan(s))
            == Rounds(w, b0, l, s.shared.done + level * l, s.shared.failed + Blamed(w, b0, l, level), s.pending.Keys - level)
  {
    hide Least, Rounds, Blamed, Spawn;
    SpawnedIds(s.phase.level);
    assert DoEndScan(s).pending.Keys == s.pending.Keys - IdsOf(s.phase.level);
  }

  lemma LoopKeepsBound(w: World, b0: Keys, s: State)
    requires Inv(w, b0, s) && Enabled(s, Loop)
    ensures Bound(w, b0, DoLoop(s)) == Bound(w, b0, s)
  {
    if s.phase.Level? {
      LevelEndKeepsBound(w, b0, s);
    } else if s.phase.Sweep? {
      StoppedBound(w, b0, s);
      StoppedBound(w, b0, DoLoop(s));
    } else {
      HeadKeepsBound(w, b0, s);
    }
  }

  lemma HeadKeepsBound(w: World, b0: Keys, s: State)
    requires s.phase.Head?
    ensures Bound(w, b0, DoLoop(s)) == Bound(w, b0, s)
  {
    hide Least, Failing, AfterScan;
    if s.pending == map[] {
      assert s.pending.Keys == {};
      NothingToScan(w, b0, Least(w, b0), s.shared.done, s.shared.failed);
    }
  }

  lemma NothingToScan(w: World, b0: Keys, l: set<string>, done: set<string>, failed: set<string>)
    ensures Rounds(w, b0, l, done, failed, {}) == failed
  {
    NoneFailing(b0, done, failed);
    hide Failing, Doing;
    var none: set<string> := {};
    assert failed + none == failed && none - none == none;
  }

  // ----- Every step, every run -----

  /** No step but the expiry of the context lowers what is bound to fail. */
  lemma StepMovesBound(w: World, b0: Keys, s: State, l: Label)
    requires Inv(w, b0, s) && Enabled(s, l) && l != Timeout
    ensures Bound(w, b0, s) <= Bound(w, b0, Do(w, s, l))
  {
    hide Inv, Bound, DoWork, DoLoop, DoEndScan, DoVisit, CheckDeps;
    match l
    case Loop => LoopKeepsBound(w, b0, s);
    case Visit(id) =>
      SharedFacts(w, b0, s);
      if CheckDeps(b0[id].dependsOn, s.shared.done, s.shared.failed) == DepFailed {
        CancelMovesBound(w, b0, s, id);
      } else {
        VisitKeepsBound(w, b0, s, id);
      }
    case EndScan => EndScanKeepsBound(w, b0, s);
    case Drop(id) => DropMovesBound(w, b0, s, id);
    case Work(i) =>
      WorkInv(w, b0, s, i);
      WorkerKeepsBound(w, b0, s, i);
  }

  lemma DropMovesBound(w: World, b0: Keys, s: State, id: string)
    requires Enabled(s, Drop(id))
    ensures Bound(w, b0, s) <= Bound(w, b0, DoDrop(s, id))
  {
    hide Least;
  }

  lemma {:induction false} RunsReachBound(w: World, b0: Keys, s: State, labels: seq<Label>)
    requires Inv(w, b0, s) && Run(w, s, labels).Some? && Run(w, s, labels).value.phase == Stopped(false)
    ensures Bound(w, b0, s) <= Run(w, s, labels).value.shared.failed
    decreases |labels|
  {
    hide Inv, Least;
    if labels != [] {
      StepInv(w, b0, s, labels[0]);
      RunsReachBound(w, b0, Do(w, s, labels[0]), labels[1..]);
      if labels[0] == Timeout {
        NothingAfterTimeout(w, Do(w, s, labels[0]), labels[1..]);
        assert false;
      }
      StepMovesBound(w, b0, s, labels[0]);
    }
  }

  lemma NothingAfterTimeout(w: World, s: State, labels: seq<Label>)
    requires s.phase == Stopped(true)
    ensures Run(w, s, labels).Some? ==> Run(w, s, labels).value.phase == Stopped(true)
  {
  }
}
