/** The main results about the level scheduler: what holds at every step and at the end of every run. */
module SchedulerTheorems {
  import opened Common
  import opened Board
  import opened Scheduler
  import opened LeastFixpoint
  import opened SchedulerInvariant
  import opened WorkerInvariant

  ghost predicate Reaches(w: World, b0: Keys, labels: seq<Label>, s: State) {
    WellKeyed(b0) && Run(w, Init(b0), labels) == Some(s)
  }

  lemma ReachedInv(w: World, b0: Keys, labels: seq<Label>, s: State)
    requires Reaches(w, b0, labels, s)
    ensures Inv(w, b0, s)
  {
    InitInv(w, b0);
    RunInv(w, b0, Init(b0), labels);
  }

  // ----- The done set -----

  /** No run marks more than the fixed point, and one that is not cut off marks all of it. */
  lemma DoneSetIsLeast(w: World, b0: Keys, labels: seq<Label>, s: State)
    requires Reaches(w, b0, labels, s)
    ensures DoneIn(b0) <= s.shared.done <= DoneIn(s.shared.board) <= Least(w, b0)
    ensures s.phase == Stopped(false) ==> s.shared.done == DoneIn(s.shared.board) == Least(w, b0)
  {
    ReachedInv(w, b0, labels, s);
  }

  /** Every map order and every interleaving ends with the same done set. */
  lemma Confluence(w: World, b0: Keys, labels1: seq<Label>, labels2: seq<Label>, s1: State, s2: State)
    requires Reaches(w, b0, labels1, s1) && s1.phase == Stopped(false)
    requires Reaches(w, b0, labels2, s2) && s2.phase == Stopped(false)
    ensures s1.shared.done == s2.shared.done
    ensures DoneIn(s1.shared.board) == DoneIn(s2.shared.board)
  {
    DoneSetIsLeast(w, b0, labels1, s1);
    DoneSetIsLeast(w, b0, labels2, s2);
  }

  // ----- Safety at every step -----

  /** The worker is inside a tool call. */
  predicate InTool(wk: Worker) {
    wk.place.Executing?
  }

  /**
   At most four workers hold a slot. A worker's quest was pending or failed when the run
   started, and all its dependencies are done on the board; while its tool runs, it is
   marked running, claimed by the acting karaka, and that karaka is not denied the tool.
   */
  lemma SafeAtEveryStep(w: World, b0: Keys, labels: seq<Label>, s: State)
    requires Reaches(w, b0, labels, s) && s.phase.Level?
    ensures Busy(s.phase.workers) <= 4
    ensures forall wk | wk in s.phase.workers :: Safe(w, b0, s.shared.board, wk)
  {
    ReachedInv(w, b0, labels, s);
    forall wk | wk in s.phase.workers ensures Safe(w, b0, s.shared.board, wk) {
      var i :| 0 <= i < |s.phase.workers| && s.phase.workers[i] == wk;
      WorkerIsSafe(w, b0, s.shared, Least(w, b0), s.phase.workers[i]);
    }
  }

  ghost predicate Safe(w: World, b0: Keys, board: Keys, wk: Worker) {
    var id := wk.quest.id;
    && id in b0 && b0[id].status != Done
    && (forall d | d in b0[id].dependsOn :: d in DoneIn(board))
    && (InTool(wk) ==>
          && id in board && board[id].status == Running
          && board[id].claim == w.karaka != ""
          && w.permission(w.karaka, b0[id].tool) != Deny
          && (w.approval ==> w.permission(w.karaka, b0[id].tool) != Ask))
  }

  lemma WorkerIsSafe(w: World, b0: Keys, sh: Shared, l: set<string>, wk: Worker)
    requires WorkerOk(w, b0, sh, l, wk)
    requires forall d | d in sh.done :: d in sh.board && sh.board[d].status == Done
    ensures Safe(w, b0, sh.board, wk)
  {
  }

  /** Nothing that was not running before shows as running unless some worker is in its tool. */
  lemma RunningMeansInTool(w: World, b0: Keys, labels: seq<Label>, s: State, id: string)
    requires Reaches(w, b0, labels, s)
    requires id in b0 && id in s.shared.board && s.shared.board[id].status == Running && b0[id].status != Running
    ensures s.phase.Level? && exists wk :: wk in s.phase.workers && wk.quest.id == id && InTool(wk)
  {
    ReachedInv(w, b0, labels, s);
    var i := RunningIsWorkedOn(w, b0, s, Least(w, b0), ReadySet(b0, Least(w, b0)), id);
    assert s.phase.workers[i] in s.phase.workers;
  }

  lemma RunningIsWorkedOn(w: World, b0: Keys, s: State, l: set<string>, ready: set<string>, id: string)
      returns (i: nat)
    requires SharedOk(w, b0, s.shared, l, ready) && PendingOk(b0, s.shared, s.pending)
    requires s.phase.Level? ==> LevelOk(w, b0, s.shared, l, s.pending, s.phase.workers)
    requires id in b0 && (Candidate(b0[id]) ==> Covered(s, id))
    requires s.shared.board[id].status == Running && b0[id].status != Running
    ensures s.phase.Level? && i < |s.phase.workers| && s.phase.workers[i].quest.id == id && InTool(s.phase.workers[i])
  {
    assert EntryOk(w, b0[id], s.shared.board[id], id in l, id in ready);
    i :| 0 <= i < |s.phase.workers| && s.phase.workers[i].quest.id == id && s.phase.workers[i].place != Exited;
    assert WorkerOk(w, b0, s.shared, l, s.phase.workers[i]);
  }

  /** No step takes a quest out of done or changes the result it was done with. */
  lemma DoneIsForever(w: World, b0: Keys, labels: seq<Label>, s: State, l: Label, id: string)
    requires Reaches(w, b0, labels, s) && Enabled(s, l)
    requires id in s.shared.board && s.shared.board[id].status == Done
    ensures id in Do(w, s, l).shared.board
    ensures Do(w, s, l).shared.board[id].status == Done
    ensures Do(w, s, l).shared.board[id].result == s.shared.board[id].result
  {
    ReachedInv(w, b0, labels, s);
    if l.Work? {
      var wk := s.phase.workers[l.i];
      assert WorkerOk(w, b0, s.shared, Least(w, b0), wk);
      AdvanceKeepsDone(w, b0, s.shared, Least(w, b0), wk, id);
    } else {
      OnlyPendingIsCancelled(w, s, l, id);
    }
  }

  lemma OnlyPendingIsCancelled(w: World, s: State, l: Label, id: string)
    requires Enabled(s, l) && !l.Work?
    requires id in s.shared.board && id !in s.pending
    ensures id in Do(w, s, l).shared.board && Do(w, s, l).shared.board[id] == s.shared.board[id]
  {
  }

  lemma AdvanceKeepsDone(w: World, b0: Keys, sh: Shared, l: set<string>, wk: Worker, id: string)
    requires WorkerOk(w, b0, sh, l, wk) && wk.place != Exited
    requires id in sh.board && sh.board[id].status == Done
    ensures
      var b := Advance(w, sh, wk).0.board;
      id in b && b[id].status == Done && b[id].result == sh.board[id].result
  {
  }

  // ----- Termination -----

  /** Steps a worker may still take. */
  function Rank(wk: Worker): nat
  {
    match wk.place
    case Queued => 40
    case Gate => 39
    case Denying => 1
    case Interpolating => 38
    case Storing(_) => 37
    case Resetting => 36
    case Claiming => 35
    case Starting(k) => if k <= MAX_REPAIRS then 34 - 4 * k else 5
    case Executing(k) => if k <= MAX_REPAIRS then 33 - 4 * k else 4
    case Repairing(k) => if k <= MAX_REPAIRS then 32 - 4 * k else 6
    case Crediting => 2
    case MarkingDone => 1
    case Blaming => 3
    case MarkingFailed => 1
    case Exited => 0
  }

  function Ranks(ws: seq<Worker>): nat {
    if ws == [] then 0 else Rank(ws[0]) + Ranks(ws[1..])
  }

  lemma {:induction false} RanksUpdate(ws: seq<Worker>, i: nat, wk: Worker)
    requires i < |ws|
    ensures Ranks(ws[i := wk]) == Ranks(ws) - Rank(ws[i]) + Rank(wk)
  {
    if i == 0 {
      assert ws[i := wk][1..] == ws[1..];
    } else {
      assert ws[i := wk][1..] == ws[1..][i - 1 := wk];
      RanksUpdate(ws[1..], i - 1, wk);
    }
  }

  lemma AdvanceLowersRank(w: World, sh: Shared, wk: Worker)
    requires wk.place != Exited
    requires wk.place.Starting? || wk.place.Executing? ==> wk.place.k <= MAX_REPAIRS
    requires wk.place.Repairing? ==> wk.place.k < MAX_REPAIRS
    ensures Rank(Advance(w, sh, wk).1) < Rank(wk)
  {
  }

  function Stage(s: State): nat {
    match s.phase
    case Head => 2
    case Scan(_, _) => 1
    case Level(_) => 3
    case Sweep => 1
    case Stopped(_) => 0
  }

  function Rest(s: State): nat {
    match s.phase
    case Scan(todo, _) => |todo| + 1
    case Level(ws) => Ranks(ws)
    case _ => 0
  }

  /** Pending quests first, then the stage of the loop, then the work left in the stage. */
  predicate Lower(s': State, s: State) {
    || |s'.pending| < |s.pending|
    || (|s'.pending| == |s.pending| && Stage(s') < Stage(s))
    || (|s'.pending| == |s.pending| && Stage(s') == Stage(s) && Rest(s') < Rest(s))
  }

  lemma RemovingShrinks(m: Keys, ids: set<string>, id: string)
    requires id in m && id in ids
    ensures |m - ids| < |m|
  {
    assert (m - ids).Keys <= m.Keys - {id};
    SmallerSet((m - ids).Keys, m.Keys - {id});
    assert |(m - ids).Keys| == |m - ids| && |m.Keys| == |m|;
  }

  lemma {:induction false} SmallerSet(a: set<string>, b: set<string>)
    requires a <= b
    ensures |a| <= |b|
  {
    if a != {} {
      var x :| x in a;
      SmallerSet(a - {x}, b - {x});
    }
  }

  /** Every step of every run goes down in a well-founded order, so every run is finite. */
  lemma EveryStepDescends(w: World, b0: Keys, labels: seq<Label>, s: State, l: Label)
    requires Reaches(w, b0, labels, s) && Enabled(s, l)
    ensures Lower(Do(w, s, l), s)
  {
    ReachedInv(w, b0, labels, s);
    hide Reaches, Inv, Lower, Enabled, DoLoop, DoWork, DoVisit, DoEndScan, DoDrop;
    match l
    case Visit(id) => VisitDescends(w, s, id);
    case EndScan => AnyEndScanDescends(w, b0, s);
    case Work(i) => AnyWorkDescends(w, b0, s, i);
    case _ => LoopingDescends(w, s, l);
  }

  lemma LoopingDescends(w: World, s: State, l: Label)
    requires Enabled(s, l) && (l.Loop? || l.Timeout? || l.Drop?)
    ensures Lower(Do(w, s, l), s)
  {
    hide DoWork, DoVisit, DoEndScan, Busy, Ranks;
    if l.Drop? {
      RemovingShrinks(s.pending, {l.id}, l.id);
    }
  }

  lemma AnyWorkDescends(w: World, b0: Keys, s: State, i: nat)
    requires Inv(w, b0, s) && Enabled(s, Work(i))
    ensures Lower(DoWork(w, s, i), s)
  {
    hide Least, Lower, DoWork;
    assert WorkerOk(w, b0, s.shared, Least(w, b0), s.phase.workers[i]);
    WorkDescends(w, b0, s, Least(w, b0), i);
  }

  lemma AnyEndScanDescends(w: World, b0: Keys, s: State)
    requires Inv(w, b0, s) && Enabled(s, EndScan)
    ensures Lower(DoEndScan(s), s)
  {
    hide Lower, DoEndScan;
    EndScanDescends(b0, s);
  }

  lemma EndScanDescends(b0: Keys, s: State)
    requires Enabled(s, EndScan) && ScanOk(b0, s.shared, s.pending, s.phase.todo, s.phase.level)
    ensures Lower(DoEndScan(s), s)
  {
    if s.phase.level != [] {
      var q := s.phase.level[0];
      RemovingShrinks(s.pending, IdsOf(s.phase.level), q.id);
    }
  }

  lemma VisitDescends(w: World, s: State, id: string)
    requires Enabled(s, Visit(id))
    ensures Lower(DoVisit(s, id), s)
  {
    if CheckDeps(s.pending[id].dependsOn, s.shared.done, s.shared.failed) == DepFailed {
      RemovingShrinks(s.pending, {id}, id);
    }
  }

  lemma WorkDescends(w: World, b0: Keys, s: State, l: set<string>, i: nat)
    requires Enabled(s, Work(i)) && WorkerOk(w, b0, s.shared, l, s.phase.workers[i])
    ensures Lower(DoWork(w, s, i), s)
  {
    var wk := s.phase.workers[i];
    var wk' := Advance(w, s.shared, wk).1;
    AdvanceLowersRank(w, s.shared, wk);
    RanksUpdate(s.phase.workers, i, wk');
  }

  /** A run that has not stopped can always go on without waiting for the context to expire. */
  lemma NeverStuck(w: World, b0: Keys, labels: seq<Label>, s: State)
    requires Reaches(w, b0, labels, s) && !s.phase.Stopped?
    ensures exists l :: Enabled(s, l) && l != Timeout
  {
    ReachedInv(w, b0, labels, s);
    var l := SomeLabel(s);
  }

  lemma SomeLabel(s: State) returns (l: Label)
    requires !s.phase.Stopped?
    requires s.phase.Scan? ==> s.phase.todo <= s.pending.Keys
    ensures Enabled(s, l) && l != Timeout
  {
    match s.phase
    case Head => l := Loop;
    case Scan(todo, level) =>
      if id :| id in todo {
        l := Visit(id);
      } else {
        l := EndScan;
      }
    case Level(ws) =>
      if AllExited(ws) {
        l := Loop;
      } else {
        var i := SomeoneCanMove(ws);
        l := Work(i);
      }
    case Sweep =>
      if id :| id in s.pending {
        l := Drop(id);
      } else {
        l := Loop;
      }
  }

  lemma SomeoneCanMove(ws: seq<Worker>) returns (i: nat)
    requires !AllExited(ws)
    ensures i < |ws| && ws[i].place != Exited && (ws[i].place == Queued ==> Busy(ws) < MAX_PARALLEL)
  {
    if j :| 0 <= j < |ws| && Holds(ws[j]) {
      i := j;
    } else {
      i :| 0 <= i < |ws| && ws[i].place != Exited;
      NobodyBusy(ws);
    }
  }

  // ----- Resolution -----

  predicate Resolved(q: Quest) {
    q.status == Done || q.status == Failed || q.status == Cancelled
  }

  /** Some quest gets as far as its claim although the mission takes no claims. */
  ghost predicate ClaimIsRefused(w: World, b0: Keys, id: string) {
    id in b0 && Candidate(b0[id]) && Passes(w, b0[id]) && AllDone(b0[id], DoneIn(b0)) && !MayClaim(w)
  }

  /** With claims closed nothing new is ever done. */
  lemma ClosedMissionDoesNothing(w: World, b0: Keys)
    requires !MayClaim(w)
    ensures Least(w, b0) == DoneIn(b0)
  {
    LeastIsLeast(w, b0);
    assert Closed(w, b0, DoneIn(b0));
  }

  /**
   With approval off and nothing waiting, a run that is not cut off leaves every quest it
   took on done, failed or cancelled if and only if no claim is refused; then the quests
   whose claim was refused are exactly the ones left pending.
   */
  lemma RunsResolveTheBoard(w: World, b0: Keys, labels: seq<Label>, s: State)
    requires Reaches(w, b0, labels, s) && s.phase == Stopped(false)
    requires !w.approval && !HasWaiting(b0)
    ensures forall id | id in b0 && Candidate(b0[id]) ::
              id in s.shared.board && (Resolved(s.shared.board[id]) <==> !ClaimIsRefused(w, b0, id))
    ensures s.pending == map[]
  {
    ReachedInv(w, b0, labels, s);
    hide Inv, Reaches, ClaimIsRefused, HasWaiting, Resolved;
    NobodyWaits(w, b0, s);
    NothingIsPending(w, b0, s);
    forall id | id in b0 && Candidate(b0[id])
      ensures id in s.shared.board && (Resolved(s.shared.board[id]) <==> !ClaimIsRefused(w, b0, id))
    {
      ResolvedIff(w, b0, s, id);
    }
  }

  lemma NobodyWaits(w: World, b0: Keys, s: State)
    requires Inv(w, b0, s) && !w.approval && !HasWaiting(b0)
    ensures !HasWaiting(s.shared.board)
  {
    hide Least, PhaseOk, Covered;
    forall id | id in s.shared.board ensures s.shared.board[id].status != WaitingApproval {
      assert EntryOk(w, b0[id], s.shared.board[id], id in Least(w, b0), id in ReadySet(b0, Least(w, b0)));
    }
  }

  lemma NothingIsPending(w: World, b0: Keys, s: State)
    requires Inv(w, b0, s) && s.phase == Stopped(false) && !HasWaiting(s.shared.board)
    ensures s.pending == map[] && s.shared.done == Least(w, b0)
  {
    hide Least, SharedOk, Covered;
  }

  lemma ResolvedIff(w: World, b0: Keys, s: State, id: string)
    requires Inv(w, b0, s) && s.phase == Stopped(false) && s.pending == map[] && !HasWaiting(s.shared.board)
    requires id in b0 && Candidate(b0[id])
    ensures id in s.shared.board && (Resolved(s.shared.board[id]) <==> !ClaimIsRefused(w, b0, id))
  {
    if !MayClaim(w) {
      ClosedMissionDoesNothing(w, b0);
    }
    hide Least, PhaseOk, PendingOk;
    assert Covered(s, id);
    assert EntryOk(w, b0[id], s.shared.board[id], id in Least(w, b0), id in ReadySet(b0, Least(w, b0)));
  }
}
