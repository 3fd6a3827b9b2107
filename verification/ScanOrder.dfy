/**
 Behind a waiting quest the scan order decides which dependents are cancelled. `Rounds`
 computes, level by level, the quests that end failed or cancelled when every scan looks
 at a doomed quest only after the ones it dooms: no run ends with fewer.
 */
module ScanOrder {
  import opened Common
  import opened Board
  import opened Scheduler
  import opened LeastFixpoint
  import opened SchedulerInvariant
  import opened WorkerInvariant
  import opened FinalStatus

  /** The quests whose dependencies are all done. */
  ghost function Doing(b0: Keys, done: set<string>, ids: set<string>): set<string> {
    set id | id in ids && id in b0 && AllDone(b0[id], done)
  }

  /** The quests the scan would cancel now. */
  ghost function Failing(b0: Keys, done: set<string>, failed: set<string>, ids: set<string>): set<string> {
    set id | id in ids && id in b0 && CheckDeps(b0[id].dependsOn, done, failed) == DepFailed
  }

  /** Of quests that are worked on, those that end in the failed set. */
  ghost function Blamed(w: World, b0: Keys, l: set<string>, ids: set<string>): set<string> {
    set id | id in ids && id in b0 && id !in l && !Asks(w, b0[id])
  }

  /** From the head of the loop: one scan, then the level it found. */
  ghost function Rounds(
      w: World, b0: Keys, l: set<string>, done: set<string>, failed: set<string>, ids: set<string>): set<string>
    decreases ids, 1
  {
    var f := Failing(b0, done, failed, ids);
    AfterScan(w, b0, l, done, failed + f, ids - f)
  }

  ghost function AfterScan(
      w: World, b0: Keys, l: set<string>, done: set<string>, failed: set<string>, ids: set<string>): set<string>
    decreases ids, 0
  {
    var level := Doing(b0, done, ids);
    if level == {} then failed
    else
      assert ids - level < ids;
      Rounds(w, b0, l, done + level * l, failed + Blamed(w, b0, l, level), ids - level)
  }

  ghost function WorkerIds(ws: seq<Worker>): set<string> {
    set i | 0 <= i < |ws| :: ws[i].quest.id
  }

  /** The quests that are or will be failed or cancelled, whatever is still to come. */
  ghost function AtLeast(w: World, b0: Keys, l: set<string>, s: State): set<string> {
    var done, failed, ids := s.shared.done, s.shared.failed, s.pending.Keys;
    match s.phase
    case Head => Rounds(w, b0, l, done, failed, ids)
    case Scan(todo, _) =>
      var f := Failing(b0, done, failed, todo);
      AfterScan(w, b0, l, done, failed + f, ids - f)
    case Level(ws) =>
      Rounds(w, b0, l, done + WorkerIds(ws) * l, failed + Blamed(w, b0, l, WorkerIds(ws)), ids)
    case _ => failed
  }

  // ----- Monotonicity -----

  lemma {:induction false} ChecksAgree(deps: seq<string>, done: set<string>, failed: set<string>, failed': set<string>)
    requires failed <= failed' && failed' !! done && CheckDeps(deps, done, failed) == DepFailed
    ensures CheckDeps(deps, done, failed') == DepFailed
  {
    if deps[0] !in failed {
      ChecksAgree(deps[1..], done, failed, failed');
    }
  }

  lemma {:induction false} ChecksLater(deps: seq<string>, done: set<string>, done': set<string>, failed: set<string>)
    requires done <= done' && failed !! done' && CheckDeps(deps, done, failed) == DepFailed
    ensures CheckDeps(deps, done', failed) == DepFailed
  {
    if deps[0] !in failed {
      ChecksLater(deps[1..], done, done', failed);
    }
  }

  /** The sets a state may show: done quests inside the fixed point, failed ones outside. */
  ghost predicate Apart(l: set<string>, done: set<string>, failed: set<string>) {
    done <= l && failed !! l
  }

  /** More has failed, and what is gone has failed and was never going to be ready. */
  ghost predicate Ahead(
      b0: Keys, l: set<string>, failed: set<string>, ids: set<string>, failed': set<string>, ids': set<string>)
  {
    failed <= failed' && ids' <= ids && ids - ids' <= failed' && ids - ids' !! ReadySet(b0, l)
  }

  lemma FailingIsMonotone(b0: Keys, done: set<string>, failed: set<string>, failed': set<string>, ids: set<string>)
    requires failed <= failed' && failed' !! done
    ensures Failing(b0, done, failed, ids) <= Failing(b0, done, failed', ids)
  {
    forall id | id in Failing(b0, done, failed, ids) ensures id in Failing(b0, done, failed', ids) {
      ChecksAgree(b0[id].dependsOn, done, failed, failed');
    }
  }

  lemma FailingAreUnready(b0: Keys, l: set<string>, done: set<string>, failed: set<string>, ids: set<string>)
    requires Apart(l, done, failed)
    ensures Failing(b0, done, failed, ids) !! ReadySet(b0, l) && Failing(b0, done, failed, ids) <= ids
  {
  }

  /** Only ready quests are in the fixed point, and only candidates are pending. */
  ghost predicate Grounded(b0: Keys, l: set<string>) {
    forall id | id in b0 && Candidate(b0[id]) && id in l :: id in ReadySet(b0, l)
  }

  ghost predicate Candidates(b0: Keys, ids: set<string>) {
    forall id | id in ids :: id in b0 && Candidate(b0[id])
  }

  lemma LeastIsGrounded(w: World, b0: Keys)
    ensures Grounded(b0, Least(w, b0))
  {
    forall id | id in b0 && Candidate(b0[id]) && id in Least(w, b0) ensures id in ReadySet(b0, Least(w, b0)) {
      InLeastIsReady(w, b0, id);
    }
  }

  lemma ScanKeepsAhead(
      b0: Keys, l: set<string>, done: set<string>, failed: set<string>, ids: set<string>,
      failed': set<string>, ids': set<string>)
    requires Grounded(b0, l) && Candidates(b0, ids)
    requires Apart(l, done, failed') && Ahead(b0, l, failed, ids, failed', ids')
    ensures var f, f' := Failing(b0, done, failed, ids), Failing(b0, done, failed', ids');
            Apart(l, done, failed' + f') && Ahead(b0, l, failed + f, ids - f, failed' + f', ids' - f')
  {
    FailingIsMonotone(b0, done, failed, failed', ids);
    FailingAreUnready(b0, l, done, failed', ids');
    hide CheckDeps;
  }

  lemma {:induction false} RoundsAreMonotone(
      w: World, b0: Keys, l: set<string>, done: set<string>, failed: set<string>, ids: set<string>,
      failed': set<string>, ids': set<string>)
    requires Grounded(b0, l) && Candidates(b0, ids)
    requires Apart(l, done, failed') && Ahead(b0, l, failed, ids, failed', ids')
    ensures Rounds(w, b0, l, done, failed, ids) <= Rounds(w, b0, l, done, failed', ids')
    decreases ids, 1
  {
    hide Apart, Ahead, Grounded, AfterScan;
    var f, f' := Failing(b0, done, failed, ids), Failing(b0, done, failed', ids');
    ScanKeepsAhead(b0, l, done, failed, ids, failed', ids');
    AfterScanIsMonotone(w, b0, l, done, failed + f, ids - f, failed' + f', ids' - f');
  }

  lemma SameLevel(b0: Keys, l: set<string>, done: set<string>, ids: set<string>, ids': set<string>)
    requires done <= l && ids' <= ids && ids - ids' !! ReadySet(b0, l)
    ensures Doing(b0, done, ids') == Doing(b0, done, ids)
  {
    forall id | id in Doing(b0, done, ids) ensures id in ids' {
      assert id in ReadySet(b0, l);
    }
  }

  lemma {:induction false} AfterScanIsMonotone(
      w: World, b0: Keys, l: set<string>, done: set<string>, failed: set<string>, ids: set<string>,
      failed': set<string>, ids': set<string>)
    requires Grounded(b0, l) && Candidates(b0, ids)
    requires Apart(l, done, failed') && Ahead(b0, l, failed, ids, failed', ids')
    ensures AfterScan(w, b0, l, done, failed, ids) <= AfterScan(w, b0, l, done, failed', ids')
    decreases ids, 0
  {
    hide Grounded, Rounds, Asks;
    var level := Doing(b0, done, ids);
    SameLevel(b0, l, done, ids, ids');
    if level != {} {
      assert ids - level < ids;
      RoundsAreMonotone(w, b0, l, done + level * l, failed + Blamed(w, b0, l, level), ids - level,
                        failed' + Blamed(w, b0, l, level), ids' - level);
    }
  }

  /** Nothing leaves the failed set. */
  lemma {:induction false} RoundsGrow(
      w: World, b0: Keys, l: set<string>, done: set<string>, failed: set<string>, ids: set<string>)
    ensures failed <= Rounds(w, b0, l, done, failed, ids)
    decreases ids
  {
    var f := Failing(b0, done, failed, ids);
    var level := Doing(b0, done, ids - f);
    if level != {} {
      assert ids - f - level < ids;
      RoundsGrow(w, b0, l, done + level * l, failed + f + Blamed(w, b0, l, level), ids - f - level);
    }
  }
}
