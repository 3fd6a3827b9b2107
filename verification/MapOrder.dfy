/** What depends on the order in which a level is scanned, and exactly on which boards. */
module MapOrder {
  import opened Common
  import opened Board
  import opened Scheduler
  import opened LeastFixpoint
  import opened SchedulerInvariant
  import opened WorkerInvariant
  import opened SchedulerTheorems
  import opened Crash
  import opened FinalStatus
  import opened ScanOrder
  import opened ParkedRuns
  import opened ParkedStatus

  /** All runs that end by themselves leave every quest with the same status. */
  ghost predicate AllRunsAgree(w: World, b0: Keys) {
    forall labels1, labels2, s1, s2 | Complete(w, b0, labels1, s1) && Complete(w, b0, labels2, s2) ::
      SameStatuses(s1.shared.board, s2.shared.board)
  }

  // ----- The failed set at the end of a run -----

  lemma StartIsBound(w: World, b0: Keys)
    ensures Bound(w, b0, Init(b0)) == FailsAnyway(w, b0)
    ensures Init(b0).shared.failed <= FailsAnyway(w, b0)
  {
    hide Least, Rounds;
    RoundsGrow(w, b0, Least(w, b0), DoneIn(b0), Init(b0).shared.failed, Init(b0).pending.Keys);
  }

  lemma CancelledStay(w: World, b0: Keys, labels: seq<Label>, s: State)
    requires Complete(w, b0, labels, s)
    ensures Init(b0).shared.failed <= FailsAnyway(w, b0) <= s.shared.failed
  {
    hide Inv, Least, Init;
    StartIsBound(w, b0);
    InitInv(w, b0);
    RunsReachBound(w, b0, Init(b0), labels);
  }

  lemma FirstFailuresStay(w: World, b0: Keys, labels: seq<Label>, s: State)
    requires Complete(w, b0, labels, s)
    ensures FailsFirst(w, b0, Least(w, b0)) <= s.shared.failed
  {
    CancelledStay(w, b0, labels, s);
    hide Complete, Least, FailsAnyway, HasWaiting, ReadySet;
    forall id | id in FailsFirst(w, b0, Least(w, b0)) ensures id in s.shared.failed {
      EndFacts(w, b0, labels, s, id);
    }
  }

  /** The quests left untouched are unready candidates that did not fail. */
  lemma PendingIff(w: World, b0: Keys, labels: seq<Label>, s: State, id: string)
    requires Complete(w, b0, labels, s) && id in b0
    ensures id in s.pending <==> Candidate(b0[id]) && id !in ReadySet(b0, Least(w, b0)) && id !in s.shared.failed
  {
    hide Complete, Least, ReadySet, HasWaiting;
    EndFacts(w, b0, labels, s, id);
    if Candidate(b0[id]) && id in Least(w, b0) {
      InLeastIsReady(w, b0, id);
    }
  }

  /** Every run fails at least the one set and, where something waits, at most the other. */
  lemma FailuresAreBetween(w: World, b0: Keys, labels: seq<Label>, s: State)
    requires Complete(w, b0, labels, s) && Waits(w, b0)
    ensures FailsAnyway(w, b0) <= s.shared.failed <= Doomed(w, b0)
  {
    CancelledStay(w, b0, labels, s);
    InitInv(w, b0);
    DoomedIsApart(w, b0);
    hide Inv, Least, Doomed, FailsAnyway, Waits;
    assert Init(b0).shared.failed <= FailsFirst(w, b0, Least(w, b0));
    RunsStayDoomed(w, b0, Init(b0), labels);
  }

  // ----- A run that fails as little as possible -----

  lemma QuietStepKeepsBound(w: World, b0: Keys, s: State, l: Label)
    requires Inv(w, b0, s) && Enabled(s, l) && (l == Loop || l == EndScan || l.Work?)
    ensures Bound(w, b0, Do(w, s, l)) == Bound(w, b0, s)
  {
    hide Inv, Bound, DoWork, DoLoop, DoEndScan;
    match l
    case Loop => LoopKeepsBound(w, b0, s);
    case EndScan => EndScanKeepsBound(w, b0, s);
    case Work(i) =>
      StepInv(w, b0, s, Work(i));
      WorkerKeepsBound(w, b0, s, i);
    case _ =>
  }

  /** A visit that dooms nobody: first the quests that are not doomed, then those that are. */
  lemma SparingVisit(w: World, b0: Keys, s: State) returns (id: string)
    requires Inv(w, b0, s) && s.phase.Scan? && s.phase.todo != {}
    ensures Enabled(s, Visit(id)) && Bound(w, b0, DoVisit(s, id)) == Bound(w, b0, s)
  {
    hide Inv, Bound, Least, CheckDeps, DoVisit;
    SharedFacts(w, b0, s);
    TodoIsPending(w, b0, s);
    var done, failed, todo := s.shared.done, s.shared.failed, s.phase.todo;
    if x :| x in todo && CheckDeps(b0[x].dependsOn, done, failed) != DepFailed {
      id := x;
      VisitKeepsBound(w, b0, s, id);
    } else {
      assert Failing(b0, done, failed, todo) == todo;
      id :| id in todo;
      CancelMovesBound(w, b0, s, id);
    }
  }

  lemma SparingLabel(w: World, b0: Keys, s: State) returns (l: Label)
    requires Inv(w, b0, s) && !s.phase.Stopped? && !s.phase.Sweep?
    ensures Enabled(s, l) && l != Timeout && Bound(w, b0, Do(w, s, l)) == Bound(w, b0, s)
  {
    if s.phase.Scan? && s.phase.todo != {} {
      hide Inv, Bound, DoVisit;
      var id := SparingVisit(w, b0, s);
      l := Visit(id);
    } else {
      if s.phase.Scan? {
        TodoIsPending(w, b0, s);
      }
      hide Inv, Bound;
      l := SomeLabel(s);
      QuietStepKeepsBound(w, b0, s, l);
    }
  }

  lemma NotCutOff(w: World, s: State, l: Label)
    requires Enabled(s, l) && l != Timeout
    ensures Do(w, s, l).phase != Stopped(true)
  {
    hide Advance, CheckDeps;
  }

  lemma {:induction false} SparingRun(w: World, b0: Keys, labels: seq<Label>, s: State)
      returns (labels': seq<Label>, s': State)
    requires Reaches(w, b0, labels, s) && Waits(w, b0) && !s.phase.Sweep? && s.phase != Stopped(true)
    ensures Complete(w, b0, labels', s') && s'.shared.failed == Bound(w, b0, s)
    decreases |s.pending|, Stage(s), Rest(s)
  {
    hide Reaches, Waits, Bound, Inv, Do, Stage, Rest;
    if s.phase.Stopped? {
      labels', s' := labels, s;
      StoppedBound(w, b0, s);
    } else {
      ReachedInv(w, b0, labels, s);
      var l := SparingLabel(w, b0, s);
      var more := OneMore(w, b0, labels, s, l);
      EveryStepDescends(w, b0, labels, s, l);
      NeverSwept(w, b0, s, l);
      NotCutOff(w, s, l);
      labels', s' := SparingRun(w, b0, more, Do(w, s, l));
    }
  }

  // ----- A run that fails as much as possible -----

  /** Every scan has cancelled what it could before it looked at anything else. */
  ghost predicate Thorough(b0: Keys, s: State) {
    var failing := Failing(b0, s.shared.done, s.shared.failed, s.pending.Keys);
    match s.phase
    case Scan(todo, _) => todo == s.pending.Keys || failing == {}
    case Stopped(_) => failing == {}
    case _ => true
  }

  lemma ThoroughVisit(w: World, b0: Keys, s: State) returns (id: string)
    requires Inv(w, b0, s) && Thorough(b0, s) && s.phase.Scan? && s.phase.todo != {}
    ensures Enabled(s, Visit(id)) && Thorough(b0, DoVisit(s, id))
  {
    hide Inv, Least, CheckDeps;
    SharedFacts(w, b0, s);
    TodoIsPending(w, b0, s);
    var done, failed, todo := s.shared.done, s.shared.failed, s.phase.todo;
    if x :| x in todo && CheckDeps(b0[x].dependsOn, done, failed) == DepFailed {
      id := x;
      assert id in Failing(b0, done, failed, s.pending.Keys);
    } else {
      id :| id in todo;
      if todo == s.pending.Keys {
        assert Failing(b0, done, failed, todo) == {};
      }
    }
  }

  lemma ThoroughLabel(w: World, b0: Keys, s: State) returns (l: Label)
    requires Inv(w, b0, s) && Thorough(b0, s) && !s.phase.Stopped? && !s.phase.Sweep?
    ensures Enabled(s, l) && l != Timeout && Thorough(b0, Do(w, s, l))
  {
    hide Inv, Thorough, DoVisit, DoWork;
    if s.phase.Scan? {
      TodoIsPending(w, b0, s);
    }
    if s.phase.Scan? && s.phase.todo != {} {
      var id := ThoroughVisit(w, b0, s);
      l := Visit(id);
    } else {
      l := SomeLabel(s);
      OthersStayThorough(w, b0, s, l);
    }
  }

  lemma OthersStayThorough(w: World, b0: Keys, s: State, l: Label)
    requires Thorough(b0, s) && Enabled(s, l) && (l == Loop || l == EndScan || l.Work?) && !s.phase.Sweep?
    ensures Thorough(b0, Do(w, s, l))
  {
    hide CheckDeps, Advance, Failing, HasWaiting;
    NoneFailing(b0, s.shared.done, s.shared.failed);
    assert s.pending == map[] ==> s.pending.Keys == {};
  }

  lemma {:induction false} ThoroughRun(w: World, b0: Keys, labels: seq<Label>, s: State)
      returns (labels': seq<Label>, s': State)
    requires Reaches(w, b0, labels, s) && Waits(w, b0) && !s.phase.Sweep? && s.phase != Stopped(true) && Thorough(b0, s)
    ensures Complete(w, b0, labels', s') && Thorough(b0, s')
    decreases |s.pending|, Stage(s), Rest(s)
  {
    hide Reaches, Waits, Thorough, Inv, Do, Stage, Rest;
    if s.phase.Stopped? {
      labels', s' := labels, s;
    } else {
      ReachedInv(w, b0, labels, s);
      var l := ThoroughLabel(w, b0, s);
      var more := OneMore(w, b0, labels, s, l);
      EveryStepDescends(w, b0, labels, s, l);
      NeverSwept(w, b0, s, l);
      NotCutOff(w, s, l);
      labels', s' := ThoroughRun(w, b0, more, Do(w, s, l));
    }
  }

  /** Such a run fails every doomed quest. */
  lemma ThoroughFailsAll(w: World, b0: Keys, labels: seq<Label>, s: State)
    requires Complete(w, b0, labels, s) && Thorough(b0, s)
    ensures Doomed(w, b0) <= s.shared.failed
  {
    hide Complete, Thorough, Least, Dragged, FailsFirst, Doomed;
    FirstFailuresStay(w, b0, labels, s);
    FailedAreOut(w, b0, labels, s);
    forall id | id in Dragged(b0, Least(w, b0), s.shared.failed) ensures id in s.shared.failed {
      DraggedFailed(w, b0, labels, s, id);
    }
    DoomedIsLeast(w, b0, s.shared.failed);
  }

  lemma FailedAreOut(w: World, b0: Keys, labels: seq<Label>, s: State)
    requires Complete(w, b0, labels, s)
    ensures s.shared.failed !! Least(w, b0) && s.shared.done == Least(w, b0)
  {
    ReachedInv(w, b0, labels, s);
    SharedFacts(w, b0, s);
    DoneSetIsLeast(w, b0, labels, s);
  }

  lemma DraggedFailed(w: World, b0: Keys, labels: seq<Label>, s: State, id: string)
    requires Complete(w, b0, labels, s) && Thorough(b0, s) && id in Dragged(b0, Least(w, b0), s.shared.failed)
    ensures id in s.shared.failed
  {
    hide Least, ReadySet, Reaches, CheckDeps;
    FailedAreOut(w, b0, labels, s);
    DraggedAreUnready(b0, Least(w, b0), s.shared.failed);
    PendingIff(w, b0, labels, s, id);
    assert id in s.pending ==> id in Failing(b0, s.shared.done, s.shared.failed, s.pending.Keys);
  }

  lemma DraggedAreUnready(b0: Keys, l: set<string>, failed: set<string>)
    requires failed !! l
    ensures Dragged(b0, l, failed) !! ReadySet(b0, l)
  {
  }

  // ----- Exactly when all runs agree -----

  lemma EqualFailuresAgree(
      w: World, b0: Keys, labels1: seq<Label>, labels2: seq<Label>, s1: State, s2: State)
    requires Complete(w, b0, labels1, s1) && Complete(w, b0, labels2, s2) && s1.shared.failed == s2.shared.failed
    ensures SameStatuses(s1.shared.board, s2.shared.board)
  {
    hide Complete, Specified, Waits, ReadySet, Least;
    SameBoardKeys(w, b0, labels1, s1);
    SameBoardKeys(w, b0, labels2, s2);
    forall id | id in b0 ensures s1.shared.board[id].status == s2.shared.board[id].status {
      PendingIff(w, b0, labels1, s1, id);
      PendingIff(w, b0, labels2, s2, id);
      EndsAsSpecified(w, b0, labels1, s1, id);
      EndsAsSpecified(w, b0, labels2, s2, id);
    }
  }

  /** A quest that fails in one run only shows it: cancelled there, untouched here. */
  lemma DifferentFailuresShow(
      w: World, b0: Keys, labels1: seq<Label>, labels2: seq<Label>, s1: State, s2: State, id: string)
    requires Complete(w, b0, labels1, s1) && Complete(w, b0, labels2, s2)
    requires id in b0 && id !in s1.shared.failed && id in s2.shared.failed
    ensures !SameStatuses(s1.shared.board, s2.shared.board)
  {
    FirstFailuresStay(w, b0, labels1, s1);
    hide Complete, Waits, ReadySet, Least, Covered, HasWaiting;
    EndFacts(w, b0, labels2, s2, id);
    PendingIff(w, b0, labels1, s1, id);
    EndsAsSpecified(w, b0, labels1, s1, id);
    EndsAsSpecified(w, b0, labels2, s2, id);
    PendingIff(w, b0, labels2, s2, id);
    SameBoardKeys(w, b0, labels1, s1);
  }

  lemma StartIsThorough(w: World, b0: Keys)
    requires WellKeyed(b0)
    ensures Reaches(w, b0, [], Init(b0)) && Init(b0).phase == Head && Thorough(b0, Init(b0))
  {
  }

  /** Where something waits, one run fails only what every run fails, and one all that any run can. */
  lemma BothExtremes(w: World, b0: Keys) returns (labels1: seq<Label>, s1: State, labels2: seq<Label>, s2: State)
    requires WellKeyed(b0) && Waits(w, b0)
    ensures Complete(w, b0, labels1, s1) && s1.shared.failed == FailsAnyway(w, b0)
    ensures Complete(w, b0, labels2, s2) && s2.shared.failed == Doomed(w, b0)
  {
    hide Waits, Bound, Thorough, Init, FailsAnyway, Doomed, Complete;
    StartIsThorough(w, b0);
    StartIsBound(w, b0);
    labels1, s1 := SparingRun(w, b0, [], Init(b0));
    labels2, s2 := ThoroughRun(w, b0, [], Init(b0));
    ThoroughFailsAll(w, b0, labels2, s2);
    FailuresAreBetween(w, b0, labels2, s2);
  }

  lemma DisagreeingRuns(w: World, b0: Keys)
    requires WellKeyed(b0) && Waits(w, b0) && FailsAnyway(w, b0) != Doomed(w, b0)
    ensures !AllRunsAgree(w, b0)
  {
    hide Waits, FailsAnyway, Doomed, Complete, SameStatuses;
    var labels1, s1, labels2, s2 := BothExtremes(w, b0);
    FailuresAreBetween(w, b0, labels1, s1);
    DoomedIsApart(w, b0);
    var id :| id in s2.shared.failed && id !in s1.shared.failed;
    DifferentFailuresShow(w, b0, labels1, labels2, s1, s2, id);
  }

  /**
   All runs of a board end with the same status of every quest exactly if no quest ends up
   waiting for a human, or the quests that fail in every run are all that can fail in any.
   */
  lemma RunsAgreeIff(w: World, b0: Keys)
    requires WellKeyed(b0)
    ensures AllRunsAgree(w, b0) <==> !Waits(w, b0) || FailsAnyway(w, b0) == Doomed(w, b0)
  {
    hide Complete, Waits, FailsAnyway, Doomed, SameStatuses;
    if !Waits(w, b0) || FailsAnyway(w, b0) == Doomed(w, b0) {
      forall labels1, labels2, s1, s2 | Complete(w, b0, labels1, s1) && Complete(w, b0, labels2, s2)
        ensures SameStatuses(s1.shared.board, s2.shared.board)
      {
        if !Waits(w, b0) {
          StatusConfluence(w, b0, labels1, labels2, s1, s2);
        } else {
          FailuresAreBetween(w, b0, labels1, s1);
          FailuresAreBetween(w, b0, labels2, s2);
          EqualFailuresAgree(w, b0, labels1, labels2, s1, s2);
        }
      }
    } else {
      DisagreeingRuns(w, b0);
    }
  }

  // ----- A board on which they do not -----

  function Sketch(id: string, status: QuestStatus, deps: seq<string>): Quest {
    Quest(id, "t", "", "tool", map[], deps, status, "", 30, None, "", None)
  }

  /** A parked quest, a cancelled one, its dependent, and the dependent's dependent. */
  function Example(): Keys {
    map["p" := Sketch("p", WaitingApproval, []), "x" := Sketch("x", Cancelled, []),
        "a" := Sketch("a", Pending, ["x"]), "b" := Sketch("b", Pending, ["a"])]
  }

  lemma ExampleLeast(w: World)
    ensures Least(w, Example()) == {}
  {
    ExampleInit();
    LeastIsLeast(w, Example());
    hide Least, Good, DoneIn;
    var b: Keys := Example();
    assert b.Keys == {"p", "x", "a", "b"};
    assert "x" in b["a"].dependsOn && "a" in b["b"].dependsOn;
    assert !Candidate(b["p"]) && !Candidate(b["x"]);
    assert forall id | id in b.Keys :: id == "p" || id == "x" || id == "a" || id == "b";
    assert Closed(w, b, {});
  }

  /** "b" is looked at before its dependency is cancelled, and nothing is left to run. */
  lemma ExampleFailsAnyway(w: World)
    ensures FailsAnyway(w, Example()) == {"x", "a"}
  {
    ExampleLeast(w);
    ExampleInit();
    hide Least;
    var b: Keys := Example();
    var none: set<string> := {};
    assert CheckDeps(["x"], none, {"x"}) == DepFailed && CheckDeps(["a"], none, {"x"}) == Blocked;
    assert Failing(b, none, {"x"}, {"a", "b"}) == {"a"};
    assert {"a", "b"} - {"a"} == {"b"} && {"x"} + {"a"} == {"x", "a"};
    assert Doing(b, none, {"b"}) == {};
  }

  lemma ExampleInit()
    ensures WellKeyed(Example()) && DoneIn(Example()) == {}
    ensures Init(Example()).shared.failed == {"x"} && Init(Example()).pending.Keys == {"a", "b"}
  {
    var b: Keys := Example();
    assert b.Keys == {"p", "x", "a", "b"};
  }

  lemma ExampleDoomed(w: World)
    ensures "b" in Doomed(w, Example())
  {
    ExampleLeast(w);
    DoomedIsApart(w, Example());
    hide Least, Doomed;
    var b, d := Example(), Doomed(w, Example());
    assert "x" in FailsFirst(w, b, {});
    assert CheckDeps(["x"], {}, d) == DepFailed;
    assert "a" in Dragged(b, {}, d);
    assert CheckDeps(["a"], {}, d) == DepFailed;
    assert "b" in Dragged(b, {}, d);
  }

  /**
   Behind a parked quest, the dependent of a dependent of a cancelled quest ends cancelled
   or untouched, as the map order has it.
   */
  lemma CancelledSetDependsOnOrder(w: World)
    ensures WellKeyed(Example()) && !AllRunsAgree(w, Example())
    ensures "b" in Doomed(w, Example()) && "b" !in FailsAnyway(w, Example())
  {
    hide AllRunsAgree, Doomed, FailsAnyway, Least;
    ExampleInit();
    ExampleFailsAnyway(w);
    ExampleDoomed(w);
    assert "p" in Example() && Example()["p"].status == WaitingApproval;
    RunsAgreeIff(w, Example());
  }
}
