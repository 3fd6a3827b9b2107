/** The invariant under worker steps, and the invariant over whole runs. */
module WorkerInvariant {
  import opened Common
  import opened Board
  import opened Scheduler
  import opened LeastFixpoint
  import opened SchedulerInvariant

  /** A worker touches its own board entry and adds at most its own id to the shared sets. */
  ghost predicate OwnEffect(sh: Shared, sh': Shared, id: string) {
    && sh'.board.Keys == sh.board.Keys
    && (forall x | x in sh.board && x != id :: sh'.board[x] == sh.board[x])
    && (sh'.done == sh.done || sh'.done == sh.done + {id})
    && (sh'.failed == sh.failed || sh'.failed == sh.failed + {id})
  }

  lemma AdvanceIsOwnEffect(w: World, sh: Shared, wk: Worker)
    requires wk.place != Exited
    ensures OwnEffect(sh, Advance(w, sh, wk).0, wk.quest.id)
    ensures SameQuest(wk.quest, Advance(w, sh, wk).1.quest) && Advance(w, sh, wk).1.quest.status == wk.quest.status
    ensures Advance(w, sh, wk).1.place != Queued
  {
    hide Interpolate, FinishRun, Rewarded, StartRun, Claim;
    if Preparing(wk.place) {
      hide Attempt, Conclude;
    } else if Attempting(wk.place) {
      hide Prepare, Conclude;
    } else {
      hide Prepare, Attempt;
    }
  }

  /** The worker's own entry and place stay in step. */
  ghost predicate OwnOk(w: World, q0: Quest, sh: Shared, wk: Worker, inLeast: bool) {
    var id := wk.quest.id;
    && id == q0.id && id in sh.board
    && SameQuest(q0, wk.quest) && wk.quest.status == q0.status && Candidate(q0)
    && EntryOk(w, q0, sh.board[id], inLeast, true)
    && PlaceOk(w, q0, sh.board[id], wk.place, inLeast)
    && (Untouched(wk.place) ==> wk.quest == q0)
    && (id in sh.done ==> wk.place == Exited && inLeast && sh.board[id].status == Done)
    && (id in sh.failed ==> wk.place == Exited && !inLeast && Settled(w, sh.board[id], true))
  }

  lemma PrepareKeepsOwn(w: World, q0: Quest, sh: Shared, wk: Worker, inLeast: bool)
    requires OwnOk(w, q0, sh, wk, inLeast) && (inLeast <==> Good(w, q0)) && Preparing(wk.place)
    ensures OwnOk(w, q0, Prepare(w, sh, wk).0, Prepare(w, sh, wk).1, inLeast)
  {
    hide Interpolate;
  }

  lemma StartingKeepsOwn(w: World, q0: Quest, sh: Shared, wk: Worker, inLeast: bool)
    requires OwnOk(w, q0, sh, wk, inLeast) && (inLeast <==> Good(w, q0)) && wk.place.Starting?
    ensures OwnOk(w, q0, Attempt(w, sh, wk).0, Attempt(w, sh, wk).1, inLeast)
  {
    assert q0.tool == "" ==> !SucceedsFrom(w, q0, wk.place.k);
  }

  lemma ExecutingKeepsOwn(w: World, q0: Quest, sh: Shared, wk: Worker, inLeast: bool)
    requires OwnOk(w, q0, sh, wk, inLeast) && (inLeast <==> Good(w, q0)) && wk.place.Executing?
    ensures OwnOk(w, q0, Attempt(w, sh, wk).0, Attempt(w, sh, wk).1, inLeast)
  {
    var k := wk.place.k;
    assert SucceedsFrom(w, q0, k) <==>
      w.attempt(q0.id, k).Some? || (k < MAX_REPAIRS && w.repair(q0.id, k).Some? && SucceedsFrom(w, q0, k + 1));
  }

  lemma RepairingKeepsOwn(w: World, q0: Quest, sh: Shared, wk: Worker, inLeast: bool)
    requires OwnOk(w, q0, sh, wk, inLeast) && (inLeast <==> Good(w, q0)) && wk.place.Repairing?
    ensures OwnOk(w, q0, Attempt(w, sh, wk).0, Attempt(w, sh, wk).1, inLeast)
  {
  }

  lemma ConcludeKeepsOwn(w: World, q0: Quest, sh: Shared, wk: Worker, inLeast: bool)
    requires OwnOk(w, q0, sh, wk, inLeast) && Concluding(wk.place)
    ensures OwnOk(w, q0, Conclude(sh, wk).0, Conclude(sh, wk).1, inLeast)
  {
  }

  lemma AdvanceKeepsOwn(w: World, q0: Quest, sh: Shared, wk: Worker, inLeast: bool)
    requires wk.place != Exited
    requires OwnOk(w, q0, sh, wk, inLeast) && (inLeast <==> Good(w, q0))
    ensures OwnOk(w, q0, Advance(w, sh, wk).0, Advance(w, sh, wk).1, inLeast)
  {
    hide OwnOk, Good, Prepare, Attempt, Conclude;
    if Preparing(wk.place) {
      PrepareKeepsOwn(w, q0, sh, wk, inLeast);
    } else if wk.place.Starting? {
      StartingKeepsOwn(w, q0, sh, wk, inLeast);
    } else if wk.place.Executing? {
      ExecutingKeepsOwn(w, q0, sh, wk, inLeast);
    } else if wk.place.Repairing? {
      RepairingKeepsOwn(w, q0, sh, wk, inLeast);
    } else {
      ConcludeKeepsOwn(w, q0, sh, wk, inLeast);
    }
  }

  /** A worker that stops has left its quest done, failed or parked. */
  lemma ExitIsAccountedFor(w: World, q0: Quest, sh: Shared, wk: Worker, inLeast: bool)
    requires wk.place != Exited && OwnOk(w, q0, sh, wk, inLeast)
    requires Advance(w, sh, wk).1.place == Exited
    ensures
      var sh' := Advance(w, sh, wk).0;
      wk.quest.id in sh'.done || wk.quest.id in sh'.failed || sh'.board[wk.quest.id].status == WaitingApproval
  {
  }

  lemma {:induction false} BusyUpdate(ws: seq<Worker>, i: nat, wk: Worker)
    requires i < |ws|
    ensures Busy(ws[i := wk]) == Busy(ws) - (if Holds(ws[i]) then 1 else 0) + (if Holds(wk) then 1 else 0)
  {
    if i == 0 {
      assert ws[i := wk][1..] == ws[1..];
    } else {
      assert ws[i := wk][1..] == ws[1..][i - 1 := wk];
      BusyUpdate(ws[1..], i - 1, wk);
    }
  }

  // ----- One worker step against the whole state -----

  lemma WorkOwn(w: World, b0: Keys, s: State, i: nat)
    requires Inv(w, b0, s) && Enabled(s, Work(i))
    ensures
      var wk := s.phase.workers[i];
      var id := wk.quest.id;
      var (sh', wk') := Advance(w, s.shared, wk);
      && OwnOk(w, b0[id], s.shared, wk, id in Least(w, b0))
      && OwnOk(w, b0[id], sh', wk', id in Least(w, b0))
      && (id in Least(w, b0) <==> Good(w, b0[id]))
  {
    var wk := s.phase.workers[i];
    assert WorkerOk(w, b0, s.shared, Least(w, b0), wk);
    assert wk.quest.id in ReadySet(b0, Least(w, b0));
    GoodIsIn(w, b0, s.shared.done, wk.quest.id);
    AdvanceKeepsOwn(w, b0[wk.quest.id], s.shared, wk, wk.quest.id in Least(w, b0));
  }

  lemma OwnEffectKeepsShared(
      w: World, b0: Keys, sh: Shared, sh': Shared, pending: Keys, l: set<string>, ready: set<string>, id: string)
    requires SharedOk(w, b0, sh, l, ready) && PendingOk(b0, sh, pending) && OwnEffect(sh, sh', id)
    requires id in b0 && id !in pending && EntryOk(w, b0[id], sh'.board[id], id in l, id in ready)
    requires id in sh'.done ==> id in l && sh'.board[id].status == Done
    requires id in sh'.failed ==> id !in l && Settled(w, sh'.board[id], id in ready)
    ensures SharedOk(w, b0, sh', l, ready)
  {
    hide Passes, MayClaim, Candidate, EntryOk, Settled, PendingOk;
  }

  lemma OwnEffectKeepsPending(b0: Keys, sh: Shared, sh': Shared, pending: Keys, id: string)
    requires PendingOk(b0, sh, pending) && OwnEffect(sh, sh', id) && id !in pending
    ensures PendingOk(b0, sh', pending)
  {
    hide Candidate;
  }

  lemma WorkKeepsShared(w: World, b0: Keys, s: State, i: nat)
    requires Inv(w, b0, s) && Enabled(s, Work(i))
    ensures SharedOk(w, b0, DoWork(w, s, i).shared, Least(w, b0), ReadySet(b0, Least(w, b0)))
    ensures PendingOk(b0, DoWork(w, s, i).shared, s.pending)
  {
    WorkOwn(w, b0, s, i);
    var wk := s.phase.workers[i];
    AdvanceIsOwnEffect(w, s.shared, wk);
    assert WorkerOk(w, b0, s.shared, Least(w, b0), wk);
    var (sh', wk') := Advance(w, s.shared, wk);
    assert wk.quest.id in ReadySet(b0, Least(w, b0));
    OwnEffectKeepsShared(w, b0, s.shared, sh', s.pending, Least(w, b0), ReadySet(b0, Least(w, b0)), wk.quest.id);
    OwnEffectKeepsPending(b0, s.shared, sh', s.pending, wk.quest.id);
  }

  lemma OtherWorkerStaysOk(w: World, b0: Keys, sh: Shared, sh': Shared, l: set<string>, id: string, wk: Worker)
    requires WorkerOk(w, b0, sh, l, wk) && OwnEffect(sh, sh', id) && wk.quest.id != id
    ensures WorkerOk(w, b0, sh', l, wk)
  {
  }

  lemma WorkKeepsOthers(w: World, b0: Keys, s: State, i: nat, j: nat)
    requires Inv(w, b0, s) && Enabled(s, Work(i)) && j < |s.phase.workers|
    ensures WorkerOk(w, b0, DoWork(w, s, i).shared, Least(w, b0), DoWork(w, s, i).phase.workers[j])
  {
    hide Advance, Iterate, SucceedsFrom, Covered, PendingOk;
    var ws, l := s.phase.workers, Least(w, b0);
    AdvanceIsOwnEffect(w, s.shared, ws[i]);
    assert WorkerOk(w, b0, s.shared, l, ws[j]);
    var (sh', wk') := Advance(w, s.shared, ws[i]);
    if j != i {
      assert ws[j].quest.id != ws[i].quest.id;
      OtherWorkerStaysOk(w, b0, s.shared, sh', l, ws[i].quest.id, ws[j]);
    } else {
      WorkOwn(w, b0, s, i);
      assert AllDone(wk'.quest, sh'.done);
      assert WorkerOk(w, b0, sh', l, wk');
    }
  }

  lemma OwnIsCovered(w: World, b0: Keys, s: State, i: nat)
    requires Inv(w, b0, s) && Enabled(s, Work(i))
    ensures Covered(DoWork(w, s, i), s.phase.workers[i].quest.id)
  {
    var wk := s.phase.workers[i];
    var s' := DoWork(w, s, i);
    var (sh', wk') := Advance(w, s.shared, wk);
    WorkOwn(w, b0, s, i);
    AdvanceIsOwnEffect(w, s.shared, wk);
    if wk'.place == Exited {
      ExitIsAccountedFor(w, b0[wk.quest.id], s.shared, wk, wk.quest.id in Least(w, b0));
    } else {
      assert s'.phase.workers[i] == wk';
      assert WorkedOn(s'.phase.workers, wk.quest.id);
    }
  }

  lemma OtherIsCovered(s: State, s': State, i: nat, id: string, x: string)
    requires Covered(s, x) && x != id && s.phase.Level? && s'.phase.Level? && i < |s.phase.workers|
    requires s.phase.workers[i].quest.id == id && |s'.phase.workers| == |s.phase.workers|
    requires forall j :: 0 <= j < |s.phase.workers| && j != i ==> s'.phase.workers[j] == s.phase.workers[j]
    requires OwnEffect(s.shared, s'.shared, id) && s'.pending == s.pending
    ensures Covered(s', x)
  {
    if WorkedOn(s.phase.workers, x) {
      var j :| 0 <= j < |s.phase.workers| && s.phase.workers[j].quest.id == x && s.phase.workers[j].place != Exited;
      assert s'.phase.workers[j] == s.phase.workers[j];
    }
  }

  lemma WorkCovers(w: World, b0: Keys, s: State, i: nat, x: string)
    requires Inv(w, b0, s) && Enabled(s, Work(i)) && Covered(s, x)
    ensures Covered(DoWork(w, s, i), x)
  {
    hide Inv, Covered, Advance;
    var id := s.phase.workers[i].quest.id;
    AdvanceIsOwnEffect(w, s.shared, s.phase.workers[i]);
    if x == id {
      OwnIsCovered(w, b0, s, i);
    } else {
      OtherIsCovered(s, DoWork(w, s, i), i, id, x);
    }
  }

  lemma WorkKeepsCover(w: World, b0: Keys, s: State, i: nat)
    requires Inv(w, b0, s) && Enabled(s, Work(i))
    ensures forall x | x in b0 && Candidate(b0[x]) :: Covered(DoWork(w, s, i), x)
  {
    hide Covered, SharedOk, PendingOk, PhaseOk, DoWork;
    forall x | x in b0 && Candidate(b0[x]) ensures Covered(DoWork(w, s, i), x) {
      WorkCovers(w, b0, s, i, x);
    }
  }

  lemma WorkKeepsBound(w: World, s: State, i: nat)
    requires Enabled(s, Work(i)) && Busy(s.phase.workers) <= MAX_PARALLEL
    ensures Busy(DoWork(w, s, i).phase.workers) <= MAX_PARALLEL
  {
    var wk := s.phase.workers[i];
    var wk' := Advance(w, s.shared, wk).1;
    BusyUpdate(s.phase.workers, i, wk');
  }

  lemma WorkKeepsIds(w: World, s: State, i: nat)
    requires Enabled(s, Work(i))
    ensures
      var ws, ws' := s.phase.workers, DoWork(w, s, i).phase.workers;
      |ws'| == |ws| && forall j :: 0 <= j < |ws| ==> ws'[j].quest.id == ws[j].quest.id
  {
    AdvanceIsOwnEffect(w, s.shared, s.phase.workers[i]);
  }

  lemma WorkKeepsLevel(w: World, b0: Keys, s: State, i: nat)
    requires Inv(w, b0, s) && Enabled(s, Work(i))
    ensures var s' := DoWork(w, s, i);
            LevelOk(w, b0, s'.shared, Least(w, b0), s'.pending, s'.phase.workers)
  {
    var s' := DoWork(w, s, i);
    var l := Least(w, b0);
    WorkKeepsBound(w, s, i);
    WorkKeepsIds(w, s, i);
    forall j | 0 <= j < |s'.phase.workers|
      ensures WorkerOk(w, b0, s'.shared, l, s'.phase.workers[j])
    {
      WorkKeepsOthers(w, b0, s, i, j);
    }
    LevelFromParts(w, b0, s, s', l);
  }

  lemma LevelFromParts(w: World, b0: Keys, s: State, s': State, l: set<string>)
    requires s.phase.Level? && s'.phase.Level? && LevelOk(w, b0, s.shared, l, s.pending, s.phase.workers)
    requires s'.pending == s.pending && |s'.phase.workers| == |s.phase.workers|
    requires forall j :: 0 <= j < |s.phase.workers| ==> s'.phase.workers[j].quest.id == s.phase.workers[j].quest.id
    requires forall j :: 0 <= j < |s.phase.workers| ==> WorkerOk(w, b0, s'.shared, l, s'.phase.workers[j])
    requires Busy(s'.phase.workers) <= MAX_PARALLEL
    ensures LevelOk(w, b0, s'.shared, l, s'.pending, s'.phase.workers)
  {
  }

  lemma WorkInv(w: World, b0: Keys, s: State, i: nat)
    requires Inv(w, b0, s) && Enabled(s, Work(i))
    ensures Inv(w, b0, DoWork(w, s, i))
  {
    WorkKeepsShared(w, b0, s, i);
    WorkKeepsLevel(w, b0, s, i);
    WorkKeepsCover(w, b0, s, i);
  }

  // ----- Every step, every run -----

  lemma StepInv(w: World, b0: Keys, s: State, l: Label)
    requires Inv(w, b0, s) && Enabled(s, l)
    ensures Inv(w, b0, Do(w, s, l))
  {
    match l
    case Loop => LoopInv(w, b0, s);
    case Timeout =>
      forall x | x in b0 && Candidate(b0[x]) ensures Covered(Do(w, s, l), x) {
        assert Covered(s, x);
      }
    case Visit(id) => VisitInv(w, b0, s, id);
    case EndScan => EndScanInv(w, b0, s);
    case Drop(id) => DropInv(w, b0, s, id);
    case Work(i) => WorkInv(w, b0, s, i);
  }

  lemma {:induction false} RunInv(w: World, b0: Keys, s: State, labels: seq<Label>)
    requires Inv(w, b0, s) && Run(w, s, labels).Some?
    ensures Inv(w, b0, Run(w, s, labels).value)
    decreases |labels|
  {
    if labels != [] {
      StepInv(w, b0, s, labels[0]);
      RunInv(w, b0, Do(w, s, labels[0]), labels[1..]);
    }
  }
}
