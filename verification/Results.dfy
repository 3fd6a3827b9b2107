/** Which result a quest is done with, and which value a reference to it is replaced by. */
module Results {
  import opened Common
  import opened Board
  import opened Scheduler
  import opened LeastFixpoint
  import opened SchedulerInvariant
  import opened WorkerInvariant
  import opened SchedulerTheorems
  import opened Planner
  import opened PlannedBoard
  import opened Paths

  /** What the first successful attempt from number k on yields, each later one after a successful repair. */
  function Outcome(w: World, q: Quest, k: nat): (r: Option<Value>)
    ensures r.Some? <==> SucceedsFrom(w, q, k)
    decreases MAX_REPAIRS + 1 - k
  {
    if q.tool == "" then None
    else if w.attempt(q.id, k).Some? then w.attempt(q.id, k)
    else if k < MAX_REPAIRS && w.repair(q.id, k).Some? then Outcome(w, q, k + 1)
    else None
  }

  /** The attempts made so far have not changed what the quest will yield. */
  predicate OnTrack(w: World, q: Quest, place: Place) {
    match place
    case Starting(k) => Outcome(w, q, 0) == Outcome(w, q, k)
    case Executing(k) => q.tool != "" && Outcome(w, q, 0) == Outcome(w, q, k)
    case Repairing(k) => w.repair(q.id, k).Some? ==> Outcome(w, q, 0) == Outcome(w, q, k + 1)
    case _ => true
  }

  ghost predicate ResultsOk(w: World, b0: Keys, s: State) {
    && (forall id | id in b0 && id in s.shared.board && Candidate(b0[id]) && s.shared.board[id].status == Done ::
          s.shared.board[id].result == Outcome(w, b0[id], 0))
    && (s.phase.Level? ==> forall i :: 0 <= i < |s.phase.workers| ==>
          OnTrack(w, s.phase.workers[i].quest, s.phase.workers[i].place))
  }

  lemma AdvanceStaysOnTrack(w: World, b0: Keys, sh: Shared, l: set<string>, wk: Worker)
    requires WorkerOk(w, b0, sh, l, wk) && wk.place != Exited && OnTrack(w, wk.quest, wk.place)
    requires SameQuest(wk.quest, sh.board[wk.quest.id])
    ensures var wk' := Advance(w, sh, wk).1; OnTrack(w, wk'.quest, wk'.place)
  {
    hide SucceedsFrom, Interpolate;
    var q := wk.quest;
    match wk.place
    case Starting(k) =>
      AttemptFrom(w, q, k);
      assert q.tool != "" ==> StartRun(sh.board[q.id], w.permission).Ok?;
      hide Outcome;
    case Executing(k) =>
      AttemptFrom(w, q, k);
      hide Outcome;
    case _ =>
      hide Outcome;
  }

  lemma AttemptFrom(w: World, q: Quest, k: nat)
    ensures q.tool == "" ==> Outcome(w, q, 0) == None && Outcome(w, q, k + 1) == None
    ensures k < MAX_REPAIRS && w.attempt(q.id, k) == None && w.repair(q.id, k).Some? ==>
              Outcome(w, q, k) == Outcome(w, q, k + 1)
  {
  }

  /** A worker that makes its quest done does so with the outcome of the attempt it just made. */
  lemma AdvanceGivesOutcome(w: World, b0: Keys, sh: Shared, l: set<string>, wk: Worker)
    requires WorkerOk(w, b0, sh, l, wk) && wk.place != Exited && OnTrack(w, wk.quest, wk.place)
    requires sh.board[wk.quest.id].status != Done
    ensures var b := Advance(w, sh, wk).0.board;
            var id := wk.quest.id;
            id in b && (b[id].status == Done ==> b[id].result == Outcome(w, b0[id], 0))
  {
    hide SucceedsFrom, Interpolate;
  }

  lemma WorkKeepsResults(w: World, b0: Keys, s: State, i: nat)
    requires Inv(w, b0, s) && Enabled(s, Work(i)) && ResultsOk(w, b0, s)
    ensures ResultsOk(w, b0, DoWork(w, s, i))
  {
    var wk, l := s.phase.workers[i], Least(w, b0);
    var (sh', wk') := Advance(w, s.shared, wk);
    assert WorkerOk(w, b0, s.shared, l, wk);
    assert EntryOk(w, b0[wk.quest.id], s.shared.board[wk.quest.id], wk.quest.id in l, wk.quest.id in ReadySet(b0, l));
    AdvanceStaysOnTrack(w, b0, s.shared, l, wk);
    AdvanceIsOwnEffect(w, s.shared, wk);
    if s.shared.board[wk.quest.id].status == Done {
      AdvanceKeepsDone(w, b0, s.shared, l, wk, wk.quest.id);
    } else {
      AdvanceGivesOutcome(w, b0, s.shared, l, wk);
    }
    assert DoWork(w, s, i) == s.(shared := sh', phase := Level(s.phase.workers[i := wk']));
    hide *;
    OneWorkerMoved(w, b0, s, i, sh', wk');
  }

  lemma OneWorkerMoved(w: World, b0: Keys, s: State, i: nat, sh': Shared, wk': Worker)
    requires s.phase.Level? && i < |s.phase.workers| && ResultsOk(w, b0, s)
    requires var id := s.phase.workers[i].quest.id;
             && OwnEffect(s.shared, sh', id) && id in b0 && id in sh'.board
             && (Candidate(b0[id]) && sh'.board[id].status == Done ==> sh'.board[id].result == Outcome(w, b0[id], 0))
             && OnTrack(w, wk'.quest, wk'.place)
    ensures ResultsOk(w, b0, s.(shared := sh', phase := Level(s.phase.workers[i := wk'])))
  {
    hide Outcome, OnTrack;
  }

  lemma StepKeepsResults(w: World, b0: Keys, s: State, l: Label)
    requires Inv(w, b0, s) && Enabled(s, l) && ResultsOk(w, b0, s)
    ensures ResultsOk(w, b0, Do(w, s, l))
  {
    match l
    case Work(i) => WorkKeepsResults(w, b0, s, i);
    case _ =>
      hide Inv, Outcome;
      NoNewResults(w, s, l);
  }

  /** Steps that are not a worker's make nothing done, and start workers at the beginning. */
  lemma NoNewResults(w: World, s: State, l: Label)
    requires Enabled(s, l) && !l.Work?
    ensures var s' := Do(w, s, l);
            && (forall id | id in s'.shared.board && s'.shared.board[id].status == Done ::
                  id in s.shared.board && s.shared.board[id] == s'.shared.board[id])
            && (s'.phase.Level? ==> forall i :: 0 <= i < |s'.phase.workers| ==> s'.phase.workers[i].place == Queued)
  {
  }

  lemma {:induction false} RunKeepsResults(w: World, b0: Keys, s: State, labels: seq<Label>)
    requires Inv(w, b0, s) && ResultsOk(w, b0, s) && Run(w, s, labels).Some?
    ensures ResultsOk(w, b0, Run(w, s, labels).value)
    decreases |labels|
  {
    hide Inv, ResultsOk, Do;
    if labels != [] {
      StepInv(w, b0, s, labels[0]);
      StepKeepsResults(w, b0, s, labels[0]);
      RunKeepsResults(w, b0, Do(w, s, labels[0]), labels[1..]);
    }
  }

  lemma StartsOk(w: World, b0: Keys)
    ensures ResultsOk(w, b0, Init(b0))
  {
  }

  /** A quest a run has brought to done carries what its first successful attempt yielded. */
  lemma DoneWithFirstSuccess(w: World, b0: Keys, labels: seq<Label>, s: State, id: string)
    requires Reaches(w, b0, labels, s)
    requires id in b0 && Candidate(b0[id]) && id in DoneIn(s.shared.board)
    ensures Outcome(w, b0[id], 0).Some? && s.shared.board[id].result == Outcome(w, b0[id], 0)
  {
    StartsOk(w, b0);
    ReachedInv(w, b0, labels, s);
    InitInv(w, b0);
    RunKeepsResults(w, b0, Init(b0), labels);
    LeastHasReasons(w, b0, id);
    hide Outcome, SucceedsFrom, Init, Run, Enabled, Do;
  }

  /** What is done in some run has the same result in every run that is not cut off. */
  lemma ResultsAgree(w: World, b0: Keys, labels1: seq<Label>, labels2: seq<Label>, s1: State, s2: State, id: string)
    requires Reaches(w, b0, labels1, s1) && id in DoneIn(s1.shared.board)
    requires Reaches(w, b0, labels2, s2) && s2.phase == Stopped(false)
    ensures id in DoneIn(s2.shared.board) && s2.shared.board[id].result == s1.shared.board[id].result
  {
    DoneSetIsLeast(w, b0, labels1, s1);
    DoneSetIsLeast(w, b0, labels2, s2);
    LeastIsLeast(w, b0);
    assert id in b0;
    if Candidate(b0[id]) {
      DoneWithFirstSuccess(w, b0, labels1, s1, id);
      DoneWithFirstSuccess(w, b0, labels2, s2, id);
    } else {
      NeverTaken(w, b0, labels1, s1, id);
      NeverTaken(w, b0, labels2, s2, id);
    }
  }

  lemma NeverTaken(w: World, b0: Keys, labels: seq<Label>, s: State, id: string)
    requires Reaches(w, b0, labels, s) && id in b0 && !Candidate(b0[id])
    ensures id in s.shared.board && s.shared.board[id] == b0[id]
  {
    ReachedInv(w, b0, labels, s);
    assert EntryOk(w, b0[id], s.shared.board[id], id in Least(w, b0), id in ReadySet(b0, Least(w, b0)));
  }

  /**
   Whatever a reference stands for at some point of a run, it stands for on the final board, of
   this run or of any other interleaving that is not cut off.
   */
  lemma ReplacedValuesAreFinal(
      w: World, b0: Keys, labels1: seq<Label>, labels2: seq<Label>, s1: State, s2: State,
      digits: string, path: seq<string>, v: Value)
    requires Reaches(w, b0, labels1, s1)
    requires Reaches(w, b0, labels2, s2) && s2.phase == Stopped(false)
    requires RefersTo(s1.shared.board, digits, path, v)
    ensures RefersTo(s2.shared.board, digits, path, v)
  {
    hide Reaches, Names;
    ResultsAgree(w, b0, labels1, labels2, s1, s2, "q" + digits);
  }

  /**
   On a board that starts empty, a reference to another quest of the plan, written without a
   leading zero, is replaced by exactly what its path denotes in what that quest's first
   successful attempt yielded, and stays as it is only if the path denotes nothing there.
   */
  lemma ReferencesAreReplaced(
      w: World, m0: Mission, karaka: string, raw: seq<Planned>, plan: seq<Planned>, labels: seq<Label>, s: State,
      wk: Worker, own: nat, digits: string, path: seq<string>)
    requires m0.quests == [] && Wired(raw, plan)
    requires Reaches(w, Keyed(Planted(m0, karaka, plan)), labels, s)
    requires s.phase.Level? && wk in s.phase.workers && wk.place == Interpolating && wk.quest.id == QuestId(own)
    requires Refers(wk.quest.params, digits, path) && RefersToOther(digits, |plan|, own) && digits[0] != '0'
    ensures var b0, id := Keyed(Planted(m0, karaka, plan)), "q" + digits;
            && id in b0 && Outcome(w, b0[id], 0).Some?
            && var t := InterpolateToken(s.shared.board, Ref(digits, path));
            && (t == Ref(digits, path) || t.Subst?)
            && forall v :: t == Subst(v) <==> Names(Outcome(w, b0[id], 0).value, path, v)
  {
    hide Names, Refers, RefersToOther, Outcome, Walk, Wired, Keyed, Planted;
    var b0, id := Keyed(Planted(m0, karaka, plan)), "q" + digits;
    ReferencesAreDone(w, m0, karaka, raw, plan, labels, s, wk, own, digits, path);
    DoneSetIsLeast(w, b0, labels, s);
    LeastIsLeast(w, b0);
    assert id in b0;
    PlannedIsPending(m0, karaka, plan, id);
    DoneWithFirstSuccess(w, b0, labels, s, id);
    TokenIsReplaced(s.shared.board, Ref(digits, path));
  }

  lemma PlannedIsPending(m0: Mission, karaka: string, plan: seq<Planned>, id: string)
    requires m0.quests == [] && id in Keyed(Planted(m0, karaka, plan))
    ensures Candidate(Keyed(Planted(m0, karaka, plan))[id])
  {
    var _ := QuestOfPlan(m0, karaka, plan, id);
  }
}
