/** What every step of every run keeps, relative to the board the run started from. */
module SchedulerInvariant {
  import opened Common
  import opened Board
  import opened Scheduler
  import opened LeastFixpoint

  ghost predicate WellKeyed(b: Keys) {
    forall id | id in b :: b[id].id == id
  }

  predicate SameQuest(p: Quest, q: Quest) {
    p.id == q.id && p.tool == q.tool && p.dependsOn == q.dependsOn
  }

  /** How a quest in the failed set looks on the board. */
  predicate Settled(w: World, q: Quest, ready: bool) {
    || q.status == Cancelled
    || (q.status == Failed && MayClaim(w) && Passes(w, q) && ready)
    || (q.status == Pending && !MayClaim(w) && Passes(w, q) && ready)
  }

  /**
   What one board entry may look like; `ready` says that all its dependencies are in the
   fixed point. A quest is cancelled only for a permission or for a dependency.
   */
  ghost predicate EntryOk(w: World, q0: Quest, q: Quest, inLeast: bool, ready: bool) {
    && SameQuest(q0, q)
    && (q.status == Done ==> inLeast)
    && (q.status == Cancelled ==> !inLeast)
    && (q.status == Cancelled && Candidate(q0) ==> !ready || Denied(w, q0))
    && (q.status == WaitingApproval && Candidate(q0) ==> ready && Asks(w, q0))
    && (!Candidate(q0) ==> q == q0)
    && (Candidate(q0) ==> !q.status.OtherStatus?)
  }

  /** The quests whose dependencies all lie in the fixed point. */
  ghost function ReadySet(b0: Keys, l: set<string>): set<string> {
    set id | id in b0 && AllDone(b0[id], l)
  }

  ghost predicate SharedOk(w: World, b0: Keys, sh: Shared, l: set<string>, ready: set<string>) {
    && sh.board.Keys == b0.Keys
    && (forall id | id in b0 :: EntryOk(w, b0[id], sh.board[id], id in l, id in ready))
    && DoneIn(b0) <= sh.done <= l
    && (forall id | id in sh.done :: id in sh.board && sh.board[id].status == Done)
    && (forall id | id in sh.failed :: id in sh.board && id !in l && Settled(w, sh.board[id], id in ready))
  }

  ghost predicate PendingOk(b0: Keys, sh: Shared, pending: Keys) {
    forall id | id in pending ::
      id in b0 && Candidate(b0[id]) && id in sh.board && pending[id] == b0[id] == sh.board[id] && id !in sh.failed
  }

  /** What a worker's place says about the board entry of its quest. */
  ghost predicate PlaceOk(w: World, q0: Quest, q: Quest, place: Place, inLeast: bool) {
    match place
    case Queued => q.status == q0.status
    case Gate => q.status == q0.status
    case Denying => q.status == Cancelled && !inLeast
    case Interpolating => q.status == q0.status && Passes(w, q0)
    case Storing(_) => q.status == q0.status && Passes(w, q0)
    case Resetting => q.status == q0.status && Passes(w, q0)
    case Claiming => q.status == Pending && Passes(w, q0)
    case Starting(k) => Claimed0(w, q0, q) && k <= MAX_REPAIRS && SucceedsFrom(w, q0, 0) == SucceedsFrom(w, q0, k)
    case Executing(k) =>
      && MayClaim(w) && Passes(w, q0) && q.status == Running && q.claim == w.karaka && q0.tool != ""
      && k <= MAX_REPAIRS && SucceedsFrom(w, q0, 0) == SucceedsFrom(w, q0, k)
    case Repairing(k) =>
      && Claimed0(w, q0, q) && k < MAX_REPAIRS
      && SucceedsFrom(w, q0, 0) == (w.repair(q0.id, k).Some? && SucceedsFrom(w, q0, k + 1))
    case Crediting => q.status == Done && inLeast
    case MarkingDone => q.status == Done && inLeast
    case Blaming => Claimed0(w, q0, q) && !inLeast
    case MarkingFailed => Settled(w, q, true) && !inLeast
    case Exited => true
  }

  predicate Claimed0(w: World, q0: Quest, q: Quest) {
    MayClaim(w) && Passes(w, q0) && (q.status == Claimed || q.status == Failed) && q.claim == w.karaka
  }

  /** The worker has not written parameters yet. */
  predicate Untouched(place: Place) {
    place == Queued || place == Gate || place == Interpolating
  }

  ghost predicate WorkerOk(w: World, b0: Keys, sh: Shared, l: set<string>, wk: Worker) {
    var id := wk.quest.id;
    && id in b0 && id in sh.board && Candidate(b0[id])
    && SameQuest(b0[id], wk.quest) && wk.quest.status == b0[id].status
    && AllDone(wk.quest, sh.done)
    && PlaceOk(w, b0[id], sh.board[id], wk.place, id in l)
    && (Untouched(wk.place) ==> wk.quest == b0[id])
    && (wk.place != Exited ==> id !in sh.done && id !in sh.failed)
  }

  ghost predicate DistinctQuests(ws: seq<Worker>) {
    forall i, j :: 0 <= i < j < |ws| ==> ws[i].quest.id != ws[j].quest.id
  }

  ghost predicate BlockedOn(b0: Keys, done: set<string>, id: string) {
    id in b0 && exists d :: d in b0[id].dependsOn && d !in done
  }

  predicate AllDone(q: Quest, done: set<string>) {
    forall d | d in q.dependsOn :: d in done
  }

  ghost predicate InLevel(level: seq<Quest>, id: string) {
    exists i :: 0 <= i < |level| && level[i].id == id
  }

  ghost predicate ScanOk(b0: Keys, sh: Shared, pending: Keys, todo: set<string>, level: seq<Quest>) {
    && todo <= pending.Keys
    && (forall i :: 0 <= i < |level| ==>
         && level[i].id in pending && level[i] == pending[level[i].id] && level[i].id !in todo
         && AllDone(level[i], sh.done))
    && (forall i, j :: 0 <= i < j < |level| ==> level[i].id != level[j].id)
    && (forall id | id in pending && id !in todo :: InLevel(level, id) || BlockedOn(b0, sh.done, id))
  }

  ghost predicate LevelOk(w: World, b0: Keys, sh: Shared, l: set<string>, pending: Keys, ws: seq<Worker>) {
    && (forall i :: 0 <= i < |ws| ==> WorkerOk(w, b0, sh, l, ws[i]) && ws[i].quest.id !in pending)
    && DistinctQuests(ws)
    && Busy(ws) <= MAX_PARALLEL
  }

  ghost predicate PhaseOk(w: World, b0: Keys, s: State, l: set<string>) {
    match s.phase
    case Head => true
    case Scan(todo, level) => ScanOk(b0, s.shared, s.pending, todo, level)
    case Level(ws) => LevelOk(w, b0, s.shared, l, s.pending, ws)
    case Sweep => s.shared.done == l && forall id | id in s.pending :: BlockedOn(b0, l, id)
    case Stopped(timedOut) =>
      !timedOut ==>
        && s.shared.done == l && (s.pending == map[] || HasWaiting(s.shared.board))
        && forall id | id in s.pending :: BlockedOn(b0, l, id)
  }

  ghost predicate WorkedOn(ws: seq<Worker>, id: string) {
    exists i :: 0 <= i < |ws| && ws[i].quest.id == id && ws[i].place != Exited
  }

  /** Every quest the run took on is accounted for. */
  ghost predicate Covered(s: State, id: string) {
    || id in s.pending || id in s.shared.done || id in s.shared.failed
    || (id in s.shared.board && s.shared.board[id].status == WaitingApproval)
    || (s.phase.Level? && WorkedOn(s.phase.workers, id))
  }

  ghost predicate Inv(w: World, b0: Keys, s: State) {
    var l := Least(w, b0);
    && WellKeyed(b0)
    && SharedOk(w, b0, s.shared, l, ReadySet(b0, l))
    && PendingOk(b0, s.shared, s.pending)
    && PhaseOk(w, b0, s, l)
    && forall id | id in b0 && Candidate(b0[id]) :: Covered(s, id)
  }

  // ----- Preservation -----

  lemma InitInv(w: World, b0: Keys)
    requires WellKeyed(b0)
    ensures Inv(w, b0, Init(b0))
  {
    LeastIsLeast(w, b0);
    InitShared(w, b0, Least(w, b0), ReadySet(b0, Least(w, b0)));
  }

  lemma InitShared(w: World, b0: Keys, l: set<string>, ready: set<string>)
    requires DoneIn(b0) <= l == Least(w, b0)
    ensures SharedOk(w, b0, Init(b0).shared, l, ready)
  {
    forall id | id in b0 && id in l ensures b0[id].status == Done || Candidate(b0[id]) {
      LeastHasReasons(w, b0, id);
    }
  }

  /** A quest all of whose dependencies are done and that is good belongs to the fixed point. */
  lemma GoodIsIn(w: World, b0: Keys, done: set<string>, id: string)
    requires id in b0 && Candidate(b0[id]) && done <= Least(w, b0)
    requires AllDone(b0[id], done)
    ensures id in Least(w, b0) <==> Good(w, b0[id])
  {
    LeastIsLeast(w, b0);
    if Good(w, b0[id]) {
      assert Supported(w, b0[id], Least(w, b0));
    }
    if id in Least(w, b0) {
      LeastHasReasons(w, b0, id);
    }
  }

  /** Once no pending quest can move and no worker runs, the done set is the fixed point. */
  lemma StuckIsLeast(w: World, b0: Keys, s: State)
    requires Inv(w, b0, s) && !s.phase.Level?
    requires forall id | id in s.pending :: BlockedOn(b0, s.shared.done, id)
    ensures s.shared.done == Least(w, b0)
  {
    LeastIsLeast(w, b0);
    forall id | id in b0 && Supported(w, b0[id], s.shared.done) ensures id in s.shared.done {
      assert Covered(s, id);
      GoodIsIn(w, b0, s.shared.done, id);
    }
    assert Closed(w, b0, s.shared.done);
  }

  lemma StopInv(w: World, b0: Keys, s: State)
    requires Inv(w, b0, s) && s.pending == map[] && !s.phase.Level?
    ensures Inv(w, b0, s.(phase := Stopped(false)))
  {
    StuckIsLeast(w, b0, s);
  }

  lemma LoopInv(w: World, b0: Keys, s: State)
    requires Inv(w, b0, s) && Enabled(s, Loop)
    ensures Inv(w, b0, DoLoop(s))
  {
    if !s.phase.Level? && s.pending == map[] {
      StopInv(w, b0, s);
    }
  }

  lemma CannotBeIn(w: World, b0: Keys, id: string)
    requires id in b0 && Candidate(b0[id]) && id !in ReadySet(b0, Least(w, b0))
    ensures id !in Least(w, b0)
  {
    if id in Least(w, b0) {
      LeastHasReasons(w, b0, id);
    }
  }

  /** Cancelling a pending quest outside the fixed point. */
  lemma CancelPending(
      w: World, b0: Keys, sh: Shared, pending: Keys, l: set<string>, ready: set<string>, id: string, reason: string)
    requires SharedOk(w, b0, sh, l, ready) && PendingOk(b0, sh, pending)
    requires id in pending && id !in ready && id !in l
    ensures SharedOk(w, b0, Cancelling(sh, id, reason), l, ready)
    ensures PendingOk(b0, Cancelling(sh, id, reason), pending - {id})
  {
  }

  lemma FailedIsUnready(w: World, b0: Keys, s: State, id: string)
    requires Inv(w, b0, s) && Enabled(s, Visit(id))
    requires CheckDeps(s.pending[id].dependsOn, s.shared.done, s.shared.failed) == DepFailed
    ensures id !in ReadySet(b0, Least(w, b0))
  {
    hide Least, EntryOk, Settled, Covered;
  }

  lemma VisitFailed(w: World, b0: Keys, s: State, id: string)
    requires Inv(w, b0, s) && Enabled(s, Visit(id))
    requires CheckDeps(s.pending[id].dependsOn, s.shared.done, s.shared.failed) == DepFailed
    ensures Inv(w, b0, DoVisit(s, id))
  {
    hide Least, ReadySet, SharedOk, ScanOk, EntryOk, Settled, Covered;
    var s' := DoVisit(s, id);
    var l := Least(w, b0);
    FailedIsUnready(w, b0, s, id);
    CannotBeIn(w, b0, id);
    CancelPending(w, b0, s.shared, s.pending, l, ReadySet(b0, l), id, "dependency failed");
    VisitKeepsCover(w, b0, s, id);
    ScanWithout(b0, s.shared, s'.shared, s.pending, s.phase.todo, s.phase.level, id);
  }

  lemma ScanWithout(b0: Keys, sh: Shared, sh': Shared, pending: Keys, todo: set<string>, level: seq<Quest>, id: string)
    requires ScanOk(b0, sh, pending, todo, level) && id in todo && sh'.done == sh.done
    ensures ScanOk(b0, sh', pending - {id}, todo - {id}, level)
  {
  }

  lemma VisitInv(w: World, b0: Keys, s: State, id: string)
    requires Inv(w, b0, s) && Enabled(s, Visit(id))
    ensures Inv(w, b0, DoVisit(s, id))
  {
    hide SharedOk, Iterate, Covered;
    match CheckDeps(s.pending[id].dependsOn, s.shared.done, s.shared.failed)
    case DepFailed => VisitFailed(w, b0, s, id);
    case Ready =>
      VisitReady(b0, s.shared, s.pending, s.phase.todo, s.phase.level, id);
      VisitKeepsCover(w, b0, s, id);
    case Blocked =>
      assert BlockedOn(b0, s.shared.done, id);
      VisitKeepsCover(w, b0, s, id);
  }

  lemma VisitReady(b0: Keys, sh: Shared, pending: Keys, todo: set<string>, level: seq<Quest>, id: string)
    requires ScanOk(b0, sh, pending, todo, level)
    requires id in todo && id in pending && pending[id].id == id && AllDone(pending[id], sh.done)
    ensures ScanOk(b0, sh, pending, todo - {id}, level + [pending[id]])
  {
    var level' := level + [pending[id]];
    forall x | x in pending && x !in todo - {id} ensures InLevel(level', x) || BlockedOn(b0, sh.done, x) {
      if x == id {
        assert level'[|level|].id == x;
      } else if InLevel(level, x) {
        var i :| 0 <= i < |level| && level[i].id == x;
        assert level'[i].id == x;
      }
    }
  }

  lemma VisitKeepsCover(w: World, b0: Keys, s: State, id: string)
    requires Inv(w, b0, s) && Enabled(s, Visit(id))
    ensures forall x | x in b0 && Candidate(b0[x]) :: Covered(DoVisit(s, id), x)
  {
    hide SharedOk, ScanOk, Iterate, CheckDeps;
    forall x | x in b0 && Candidate(b0[x]) ensures Covered(DoVisit(s, id), x) {
      assert Covered(s, x);
    }
  }

  lemma EndScanInv(w: World, b0: Keys, s: State)
    requires Inv(w, b0, s) && Enabled(s, EndScan)
    ensures Inv(w, b0, DoEndScan(s))
  {
    if s.phase.level != [] {
      SpawnInv(w, b0, s);
    } else {
      NothingReadyInv(w, b0, s);
    }
  }

  lemma NothingReadyInv(w: World, b0: Keys, s: State)
    requires Inv(w, b0, s) && Enabled(s, EndScan) && s.phase.level == []
    ensures Inv(w, b0, DoEndScan(s))
  {
    StuckIsLeast(w, b0, s);
  }

  lemma SpawnInv(w: World, b0: Keys, s: State)
    requires Inv(w, b0, s) && Enabled(s, EndScan) && s.phase.level != []
    ensures Inv(w, b0, DoEndScan(s))
  {
    var s' := DoEndScan(s);
    NobodyBusy(s'.phase.workers);
    SpawnedAreOk(w, b0, s);
    SpawnKeepsCover(w, b0, s);
  }

  lemma SpawnedAreOk(w: World, b0: Keys, s: State)
    requires Inv(w, b0, s) && Enabled(s, EndScan) && s.phase.level != []
    ensures var s' := DoEndScan(s);
            forall i :: 0 <= i < |s'.phase.workers| ==>
              WorkerOk(w, b0, s'.shared, Least(w, b0), s'.phase.workers[i]) && s'.phase.workers[i].quest.id !in s'.pending
  {
    var level := s.phase.level;
    forall i | 0 <= i < |level|
      ensures WorkerOk(w, b0, s.shared, Least(w, b0), Worker(level[i], Queued))
    {
      var id := level[i].id;
      assert id in s.pending && s.shared.board[id].status != Done;
    }
  }

  lemma SpawnKeepsCover(w: World, b0: Keys, s: State)
    requires Inv(w, b0, s) && Enabled(s, EndScan) && s.phase.level != []
    ensures forall x | x in b0 && Candidate(b0[x]) :: Covered(DoEndScan(s), x)
  {
    hide SharedOk, PendingOk, ScanOk, Iterate;
    var s' := DoEndScan(s);
    var level := s.phase.level;
    forall x | x in b0 && Candidate(b0[x]) ensures Covered(s', x) {
      assert Covered(s, x);
      if x in s.pending && x !in s'.pending {
        var q :| q in level && q.id == x;
        var i :| 0 <= i < |level| && level[i] == q;
        assert s'.phase.workers[i].quest.id == x;
      }
    }
  }

  lemma {:induction false} NobodyBusy(ws: seq<Worker>)
    requires forall i :: 0 <= i < |ws| ==> !Holds(ws[i])
    ensures Busy(ws) == 0
  {
    if ws != [] {
      NobodyBusy(ws[1..]);
    }
  }

  lemma DropInv(w: World, b0: Keys, s: State, id: string)
    requires Inv(w, b0, s) && Enabled(s, Drop(id))
    ensures Inv(w, b0, DoDrop(s, id))
  {
    var l := Least(w, b0);
    assert id !in ReadySet(b0, l);
    CannotBeIn(w, b0, id);
    CancelPending(w, b0, s.shared, s.pending, l, ReadySet(b0, l), id, "dependency cycle \U{2014} unsatisfiable");
    forall x | x in b0 && Candidate(b0[x]) ensures Covered(DoDrop(s, id), x) {
      assert Covered(s, x);
    }
  }
}
