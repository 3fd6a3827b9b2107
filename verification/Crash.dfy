/**
 Stopping the relay at any point of a run, recovering the saved board at boot and running
 it again. The hook that saves a board runs after the store's lock is released and reads
 the board while others may change it, so what is saved may be old, and may show one quest
 as it was before an update and another as it was after a later one.
 */
module Crash {
  import opened Common
  import opened Board
  import opened Scheduler
  import opened LeastFixpoint
  import opened SchedulerInvariant
  import opened WorkerInvariant
  import opened SchedulerTheorems

  /** No quest is claimed or running yet. */
  ghost predicate NoneMidFlight(b: Keys) {
    forall id | id in b :: b[id].status != Claimed && b[id].status != Running
  }

  /** The mission's status after recovery. */
  function Rebooted(w: World): World {
    if MidRun(w.mission) then w.(mission := Interrupted) else w
  }

  /** Recovering a saved mission gives the board and the status that runs resume from. */
  lemma ResumesFromRecovered(w: World, m: Mission)
    requires m.status == w.mission
    ensures Rebooted(w).mission == Recover(m).status
    ensures RecoverKeyed(w.mission, Keyed(m)) == Keyed(Recover(m))
    ensures MidRun(m.status) ==> NoneMidFlight(Keyed(Recover(m)))
  {
    RecoverCommutesWithKeyed(m);
  }

  ghost predicate WasSeen(w: World, b0: Keys, id: string, q: Quest) {
    exists labels, s :: Reaches(w, b0, labels, s) && id in s.shared.board && s.shared.board[id] == q
  }

  /** What the table may hold: every quest as it stood at some point of a run. */
  ghost predicate SavedView(w: World, b0: Keys, m: Keys) {
    m.Keys == b0.Keys && forall id | id in m :: WasSeen(w, b0, id, m[id])
  }

  /** Recovering the saved board `m` and running again aims at the same done set. */
  ghost predicate Recovers(w: World, b0: Keys, m: Keys) {
    Least(Rebooted(w), RecoverKeyed(w.mission, m)) == Least(w, b0)
  }

  /** What the proofs need of a saved board, quest by quest. */
  ghost predicate EntriesOk(w: World, b0: Keys, m: Keys) {
    && m.Keys == b0.Keys
    && forall id | id in b0 ::
         && EntryOk(w, b0[id], m[id], id in Least(w, b0), id in ReadySet(b0, Least(w, b0)))
         && (b0[id].status == Done ==> m[id].status == Done)
  }

  lemma SeenIsOk(w: World, b0: Keys, id: string, q: Quest)
    requires WasSeen(w, b0, id, q)
    ensures id in b0 && EntryOk(w, b0[id], q, id in Least(w, b0), id in ReadySet(b0, Least(w, b0)))
    ensures b0[id].status == Done ==> q.status == Done
  {
    var labels, s :| Reaches(w, b0, labels, s) && id in s.shared.board && s.shared.board[id] == q;
    ReachedInv(w, b0, labels, s);
    hide Least, PhaseOk, Covered;
    assert id in DoneIn(b0) ==> id in s.shared.done;
  }

  lemma ViewIsOk(w: World, b0: Keys, m: Keys)
    requires SavedView(w, b0, m)
    ensures EntriesOk(w, b0, m)
  {
    hide WasSeen, EntryOk, Least, ReadySet;
    forall id | id in b0
      ensures EntryOk(w, b0[id], m[id], id in Least(w, b0), id in ReadySet(b0, Least(w, b0)))
      ensures b0[id].status == Done ==> m[id].status == Done
    {
      SeenIsOk(w, b0, id, m[id]);
    }
  }

  /** The board of a state is such a view. */
  lemma BoardIsView(w: World, b0: Keys, labels: seq<Label>, s: State)
    requires Reaches(w, b0, labels, s)
    ensures SavedView(w, b0, s.shared.board)
  {
    ReachedInv(w, b0, labels, s);
  }

  lemma SameGood(w: World, q: Quest, q': Quest)
    requires SameQuest(q, q')
    ensures Good(Rebooted(w), q') == Good(w, q)
  {
  }

  /** What a board entry of a candidate becomes. */
  lemma RecoveredEntry(w: World, q0: Quest, q: Quest, inLeast: bool, ready: bool)
    requires EntryOk(w, q0, q, inLeast, ready) && MidRun(w.mission)
    requires q0.status != Claimed && q0.status != Running
    ensures Candidate(RecoverQuest(q)) ==> Candidate(q0)
    ensures Candidate(q0) && !Candidate(RecoverQuest(q)) && q.status != Done ==> !inLeast || !Good(w, q0)
  {
  }

  /** Recovery from any such view is harmless, however old or mixed it is. */
  lemma CrashIsHarmless(w: World, b0: Keys, m: Keys)
    requires SavedView(w, b0, m) && MidRun(w.mission) && NoneMidFlight(b0)
    ensures Recovers(w, b0, m)
  {
    ViewIsOk(w, b0, m);
    hide SavedView, EntriesOk, Least;
    AimsNoHigher(w, b0, m);
    AimsNoLower(w, b0, m);
  }

  lemma AimsNoLower(w: World, b0: Keys, m: Keys)
    requires EntriesOk(w, b0, m) && MidRun(w.mission) && NoneMidFlight(b0)
    requires Least(Rebooted(w), RecoverKeyed(w.mission, m)) <= Least(w, b0)
    ensures Least(w, b0) <= Least(Rebooted(w), RecoverKeyed(w.mission, m))
  {
    var w', r := Rebooted(w), RecoverKeyed(w.mission, m);
    var l' := Least(w', r);
    LeastIsLeast(w', r);
    LeastIsLeast(w, b0);
    hide Least, Supported, NoneMidFlight, Rebooted, EntryOk, ReadySet;
    forall id | id in b0 && Supported(w, b0[id], l') ensures id in l' {
      StillSupported(w, b0, m, l', id);
    }
    forall id | id in DoneIn(b0) ensures id in l' {
      assert id in DoneIn(r);
    }
    assert Closed(w, b0, l');
  }

  lemma StillSupported(w: World, b0: Keys, m: Keys, l': set<string>, id: string)
    requires EntriesOk(w, b0, m) && MidRun(w.mission) && NoneMidFlight(b0) && l' <= Least(w, b0)
    requires id in b0 && Supported(w, b0[id], l')
    requires Closed(Rebooted(w), RecoverKeyed(w.mission, m), l')
    ensures id in l'
  {
    var w', r := Rebooted(w), RecoverKeyed(w.mission, m);
    var l := Least(w, b0);
    LeastIsLeast(w, b0);
    assert Supported(w, b0[id], l);
    hide Least, Good;
    RecoveredEntry(w, b0[id], m[id], id in l, id in ReadySet(b0, l));
    SameGood(w, b0[id], r[id]);
    if m[id].status == Done {
      assert id in DoneIn(r);
    } else {
      assert Supported(w', r[id], l');
    }
  }

  lemma AimsNoHigher(w: World, b0: Keys, m: Keys)
    requires EntriesOk(w, b0, m) && MidRun(w.mission) && NoneMidFlight(b0)
    ensures Least(Rebooted(w), RecoverKeyed(w.mission, m)) <= Least(w, b0)
  {
    var w', r := Rebooted(w), RecoverKeyed(w.mission, m);
    var l := Least(w, b0);
    LeastIsLeast(w', r);
    hide Least, Supported, NoneMidFlight;
    forall id | id in r && Supported(w', r[id], l) ensures id in l {
      WasSupported(w, b0, m, id);
    }
    assert DoneIn(r) <= l;
    assert Closed(w', r, l);
  }

  lemma WasSupported(w: World, b0: Keys, m: Keys, id: string)
    requires EntriesOk(w, b0, m) && MidRun(w.mission) && NoneMidFlight(b0) && id in b0
    requires Supported(Rebooted(w), RecoverQuest(m[id]), Least(w, b0))
    ensures id in Least(w, b0)
  {
    var q, l := m[id], Least(w, b0);
    LeastIsLeast(w, b0);
    hide Least, Good;
    RecoveredEntry(w, b0[id], q, id in l, id in ReadySet(b0, l));
    SameGood(w, b0[id], RecoverQuest(q));
    assert Supported(w, b0[id], l);
  }

  /**
   Crash transparency: stop a run anywhere, recover what was saved, run again to the end.
   The second run ends with the done set of an uninterrupted run, and never works on a
   quest that was saved as done.
   */
  lemma CrashTransparency(
      w: World, b0: Keys, m: Keys, labels2: seq<Label>, s2: State, labels: seq<Label>, s: State)
    requires MidRun(w.mission) && NoneMidFlight(b0) && SavedView(w, b0, m)
    requires Reaches(Rebooted(w), RecoverKeyed(w.mission, m), labels2, s2)
    requires Reaches(w, b0, labels, s) && s.phase == Stopped(false)
    ensures s2.phase == Stopped(false) ==> s2.shared.done == s.shared.done
    ensures s2.phase.Level? ==> forall wk | wk in s2.phase.workers :: wk.quest.id !in DoneIn(m)
  {
    hide Least, SavedView, Reaches, NoneMidFlight, DoneIn;
    var w', r := Rebooted(w), RecoverKeyed(w.mission, m);
    CrashIsHarmless(w, b0, m);
    DoneSetIsLeast(w, b0, labels, s);
    DoneSetIsLeast(w', r, labels2, s2);
    if s2.phase.Level? {
      NothingDoneAgain(w, m, labels2, s2);
    }
  }

  lemma NothingDoneAgain(w: World, m: Keys, labels: seq<Label>, s: State)
    requires Reaches(Rebooted(w), RecoverKeyed(w.mission, m), labels, s) && s.phase.Level?
    ensures forall wk | wk in s.phase.workers :: wk.quest.id !in DoneIn(m)
  {
    var w', r := Rebooted(w), RecoverKeyed(w.mission, m);
    SafeAtEveryStep(w', r, labels, s);
    hide Reaches;
    forall wk | wk in s.phase.workers ensures wk.quest.id !in DoneIn(m) {
      assert Safe(w', r, s.shared.board, wk);
    }
  }

  // ----- Exactly when every crash is harmless -----

  ghost predicate EveryCrashHarmless(w: World, b0: Keys) {
    forall m: Keys :: SavedView(w, b0, m) ==> Recovers(w, b0, m)
  }

  /** Nothing on the board can be brought to done by this run. */
  ghost predicate NothingToDo(w: World, b0: Keys) {
    forall id | id in b0 :: !Supported(w, b0[id], DoneIn(b0))
  }

  /**
   Every crash is harmless, whatever was saved, exactly if the mission's status is one that
   recovery resets, or the run had nothing to do anyway. A resumed mission stays
   "interrupted", so a second crash is the case this excludes.
   */
  lemma HarmlessIffReset(w: World, b0: Keys)
    requires WellKeyed(b0) && NoneMidFlight(b0)
    ensures EveryCrashHarmless(w, b0) <==> MidRun(w.mission) || NothingToDo(w, b0)
  {
    hide SavedView, Recovers, NoneMidFlight;
    if MidRun(w.mission) {
      forall m: Keys | SavedView(w, b0, m) ensures Recovers(w, b0, m) {
        CrashIsHarmless(w, b0, m);
      }
    } else if NothingToDo(w, b0) {
      forall m: Keys | SavedView(w, b0, m) ensures Recovers(w, b0, m) {
        NothingToLose(w, b0, m);
      }
    } else {
      var id :| id in b0 && Supported(w, b0[id], DoneIn(b0));
      var labels, s := RunToClaim(w, b0, id);
      BoardIsView(w, b0, labels, s);
      ClaimedIsLost(w, b0, s.shared.board, id);
    }
  }

  lemma NothingToLose(w: World, b0: Keys, m: Keys)
    requires SavedView(w, b0, m) && !MidRun(w.mission) && NothingToDo(w, b0) && NoneMidFlight(b0)
    ensures Recovers(w, b0, m)
  {
    hide Least, Good, SavedView, ReadySet;
    ViewIsOk(w, b0, m);
    var l := Least(w, b0);
    NothingGained(w, b0);
    LeastIsLeast(w, m);
    forall id | id in m ensures Supported(w, m[id], l) ==> Supported(w, b0[id], l) {
      SameGoodHere(w, b0[id], m[id]);
    }
    assert DoneIn(m) == l;
    assert Closed(w, m, l);
  }

  lemma SameGoodHere(w: World, q: Quest, q': Quest)
    requires SameQuest(q, q')
    ensures Good(w, q') == Good(w, q)
  {
  }

  lemma NothingGained(w: World, b0: Keys)
    requires NothingToDo(w, b0)
    ensures Least(w, b0) == DoneIn(b0)
  {
    LeastIsLeast(w, b0);
    assert Closed(w, b0, DoneIn(b0));
  }

  lemma ClaimedIsLost(w: World, b0: Keys, m: Keys, id: string)
    requires !MidRun(w.mission) && id in b0 && Supported(w, b0[id], DoneIn(b0))
    requires id in m && m[id].status == Claimed
    ensures !Recovers(w, b0, m)
  {
    LeastIsLeast(w, b0);
    assert Supported(w, b0[id], Least(w, b0));
    if id in Least(w, m) {
      LeastHasReasons(w, m, id);
    }
  }

  // ----- A run that claims a given quest -----

  lemma OneMore(w: World, b0: Keys, labels: seq<Label>, s: State, l: Label) returns (labels': seq<Label>)
    requires Reaches(w, b0, labels, s) && Enabled(s, l)
    ensures Reaches(w, b0, labels', Do(w, s, l))
  {
    RunConcat(w, Init(b0), labels, [l]);
    labels' := labels + [l];
    assert Run(w, s, [l]) == Run(w, Do(w, s, l), [l][1..]);
  }

  lemma ScanKeepsReady(w: World, b0: Keys, s: State, id: string, x: string)
    requires Inv(w, b0, s) && Enabled(s, Visit(x))
    requires id in b0 && Supported(w, b0[id], DoneIn(b0)) && id in s.pending
    requires id in s.phase.todo || InLevel(s.phase.level, id)
    ensures var s' := DoVisit(s, x);
            id in s'.pending && (id in s'.phase.todo || InLevel(s'.phase.level, id))
  {
    hide EntryOk, Settled, Covered, Least;
    var s' := DoVisit(s, x);
    forall d | d in s.shared.done ensures d !in s.shared.failed {
    }
    if x == id {
      assert s'.phase.level[|s.phase.level|].id == id;
    } else if InLevel(s.phase.level, id) {
      var i :| 0 <= i < |s.phase.level| && s.phase.level[i].id == id;
      assert s.phase.level[i].id !in s.phase.todo;
      assert s'.phase.level[i].id == id;
    }
  }

  /** Visit everything that is left. */
  lemma ScanOn(w: World, b0: Keys, labels: seq<Label>, s: State, id: string)
      returns (labels': seq<Label>, s': State)
    requires Reaches(w, b0, labels, s) && s.phase.Scan?
    requires id in b0 && Supported(w, b0[id], DoneIn(b0)) && id in s.pending
    requires id in s.phase.todo || InLevel(s.phase.level, id)
    ensures Reaches(w, b0, labels', s') && s'.phase.Scan? && s'.phase.todo == {} && InLevel(s'.phase.level, id)
    decreases s.phase.todo
  {
    hide Supported, DoneIn, Iterate, SharedOk, PendingOk, Covered;
    if x :| x in s.phase.todo {
      ReachedInv(w, b0, labels, s);
      ScanKeepsReady(w, b0, s, id, x);
      var more := OneMore(w, b0, labels, s, Visit(x));
      labels', s' := ScanOn(w, b0, more, DoVisit(s, x), id);
    } else {
      labels', s' := labels, s;
    }
  }

  predicate Onward(p: Place, p': Place) {
    && (p == Queued ==> p' == Gate)
    && (p == Gate ==> p' == Interpolating)
    && (p == Interpolating ==> p'.Storing?)
    && (p.Storing? ==> p' == Resetting)
    && (p == Resetting ==> p' == Claiming)
  }

  /** One step of worker i on the way to its claim. */
  lemma StepTowardsClaim(w: World, b0: Keys, labels: seq<Label>, s: State, i: nat)
      returns (labels': seq<Label>, s': State)
    requires Reaches(w, b0, labels, s) && s.phase.Level? && i < |s.phase.workers|
    requires var wk := s.phase.workers[i]; var id := wk.quest.id;
             && Preparing(wk.place) && wk.place != Denying && (wk.place == Queued ==> Busy(s.phase.workers) < MAX_PARALLEL)
             && id in b0 && MayClaim(w) && Passes(w, b0[id])
    ensures Reaches(w, b0, labels', s') && s'.phase.Level? && |s'.phase.workers| == |s.phase.workers|
    ensures s'.phase.workers[i].quest.id == s.phase.workers[i].quest.id
    ensures Onward(s.phase.workers[i].place, s'.phase.workers[i].place)
    ensures var id := s.phase.workers[i].quest.id;
            s.phase.workers[i].place == Claiming ==> id in s'.shared.board && s'.shared.board[id].status == Claimed
  {
    ReachedInv(w, b0, labels, s);
    var wk := s.phase.workers[i];
    assert WorkerOk(w, b0, s.shared, Least(w, b0), wk);
    labels' := OneMore(w, b0, labels, s, Work(i));
    s' := DoWork(w, s, i);
    PreparesOnward(w, b0[wk.quest.id], s.shared, wk);
  }

  lemma PreparesOnward(w: World, q0: Quest, sh: Shared, wk: Worker)
    requires Preparing(wk.place) && wk.place != Denying && wk.quest.id in sh.board
    requires PlaceOk(w, q0, sh.board[wk.quest.id], wk.place, true)
    requires SameQuest(q0, wk.quest) && MayClaim(w) && Passes(w, q0)
    ensures
      var (sh', wk') := Prepare(w, sh, wk);
      var id := wk.quest.id;
      && wk'.quest.id == id && Onward(wk.place, wk'.place)
      && (wk.place == Claiming ==> id in sh'.board && sh'.board[id].status == Claimed)
  {
  }

  /** The run: scan everything, spawn the level, drive one worker to its claim. */
  lemma RunToClaim(w: World, b0: Keys, id: string) returns (labels: seq<Label>, s: State)
    requires WellKeyed(b0) && id in b0 && Supported(w, b0[id], DoneIn(b0))
    ensures Reaches(w, b0, labels, s) && id in s.shared.board && s.shared.board[id].status == Claimed
  {
    labels, s := [], Init(b0);
    assert id in s.pending;
    labels := OneMore(w, b0, labels, s, Loop);
    s := DoLoop(s);
    labels, s := ScanOn(w, b0, labels, s, id);
    var i: nat :| i < |s.phase.level| && s.phase.level[i].id == id;
    labels := OneMore(w, b0, labels, s, EndScan);
    s := DoEndScan(s);
    assert s.phase.workers[i].quest.id == id;
    NobodyBusy(s.phase.workers);
    labels, s := StepTowardsClaim(w, b0, labels, s, i);
    labels, s := StepTowardsClaim(w, b0, labels, s, i);
    labels, s := StepTowardsClaim(w, b0, labels, s, i);
    labels, s := StepTowardsClaim(w, b0, labels, s, i);
    labels, s := StepTowardsClaim(w, b0, labels, s, i);
    labels, s := StepTowardsClaim(w, b0, labels, s, i);
  }
}
