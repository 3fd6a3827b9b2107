/**
 What the board records of each quest: the parameters every attempt ran with, the result and
 the reward of a quest that was done, and why another one was not.
 */
module QuestRecords {
  import opened Common
  import opened Board
  import opened Scheduler
  import opened LeastFixpoint
  import opened SchedulerInvariant
  import opened WorkerInvariant
  import opened SchedulerTheorems
  import opened Paths
  import opened Results

  // ----- The parameters an attempt runs with -----

  /** What a quest is done with, if it is ever done. */
  function Yield(w: World, b0: Keys, id: string): Option<Value>
    requires id in b0
  {
    if Candidate(b0[id]) then Outcome(w, b0[id], 0)
    else if b0[id].status == Done then b0[id].result
    else None
  }

  /** The reference stands for `v`, whatever the order of the run. */
  ghost predicate StandsFor(w: World, b0: Keys, digits: string, path: seq<string>, v: Value) {
    var id := "q" + digits;
    id in b0 && Yield(w, b0, id).Some? && Names(Yield(w, b0, id).value, path, v)
  }

  /**
   A reference to a dependency is replaced exactly if it stands for something; one to another
   quest may also be left, if that quest was not done yet.
   */
  ghost predicate TokenFor(w: World, b0: Keys, deps: seq<string>, t: Token, t': Token) {
    if !t.Ref? then t' == t
    else
      && (t' == t || (t'.Subst? && StandsFor(w, b0, t.digits, t.path, t'.value)))
      && ("q" + t.digits in deps ==> forall v :: t' == Subst(v) <==> StandsFor(w, b0, t.digits, t.path, v))
  }

  ghost predicate ParamsFor(w: World, b0: Keys, q0: Quest, p: Params) {
    && p.Keys == q0.params.Keys
    && forall k | k in p ::
         if q0.params[k].NotText? then p[k] == q0.params[k]
         else
           && p[k].Tokens? && |p[k].tokens| == |q0.params[k].tokens|
           && forall i :: 0 <= i < |p[k].tokens| ==> TokenFor(w, b0, q0.dependsOn, q0.params[k].tokens[i], p[k].tokens[i])
  }

  /** The first attempt runs with the interpolated parameters, a later one with those of the repair before it. */
  ghost predicate AttemptParams(w: World, b0: Keys, q0: Quest, k: nat, p: Params) {
    if k == 0 then ParamsFor(w, b0, q0, p) else w.repair(q0.id, k - 1) == Some(p)
  }

  /** Result and parameters are those of one and the same attempt. */
  ghost predicate Produced(w: World, b0: Keys, q0: Quest, q: Quest) {
    exists k: nat :: k <= MAX_REPAIRS && ProducedBy(w, b0, q0, q, k)
  }

  ghost predicate ProducedBy(w: World, b0: Keys, q0: Quest, q: Quest, k: nat) {
    w.attempt(q0.id, k).Some? && q.result == w.attempt(q0.id, k) && AttemptParams(w, b0, q0, k, q.params)
  }

  // ----- Interpolation against a board of a run -----

  /** Whatever is done on the board is done with its yield. */
  ghost predicate YieldsOnly(w: World, b0: Keys, b: Keys) {
    forall id | id in b && b[id].status == Done :: id in b0 && b[id].result == Yield(w, b0, id)
  }

  lemma TokenOnBoard(w: World, b0: Keys, b: Keys, deps: seq<string>, t: Token, t': Token)
    requires YieldsOnly(w, b0, b) && (forall d | d in deps :: d in b && b[d].status == Done) && Replaced(b, t, t')
    ensures TokenFor(w, b0, deps, t, t')
  {
    hide Names, Outcome;
    if t.Ref? {
      var id := "q" + t.digits;
      forall v ensures RefersTo(b, t.digits, t.path, v) ==> StandsFor(w, b0, t.digits, t.path, v)
               ensures id in deps ==> (RefersTo(b, t.digits, t.path, v) <==> StandsFor(w, b0, t.digits, t.path, v))
      {
      }
      hide RefersTo, StandsFor;
      assert t'.Subst? ==> t' == Subst(t'.value);
    }
  }

  lemma InterpolatedIsFor(w: World, b0: Keys, b: Keys, q0: Quest)
    requires YieldsOnly(w, b0, b) && forall d | d in q0.dependsOn :: d in b && b[d].status == Done
    ensures ParamsFor(w, b0, q0, Interpolate(q0.params, b))
  {
    InterpolateReplaces(b, q0.params);
    hide Replaced, TokenFor, Interpolate, YieldsOnly;
    var p := Interpolate(q0.params, b);
    forall k | k in p && q0.params[k].Tokens?
      ensures forall i :: 0 <= i < |p[k].tokens| ==> TokenFor(w, b0, q0.dependsOn, q0.params[k].tokens[i], p[k].tokens[i])
    {
      forall i | 0 <= i < |p[k].tokens| ensures TokenFor(w, b0, q0.dependsOn, q0.params[k].tokens[i], p[k].tokens[i]) {
        TokenOnBoard(w, b0, b, q0.dependsOn, q0.params[k].tokens[i], p[k].tokens[i]);
      }
    }
  }

  lemma BoardYields(w: World, b0: Keys, s: State)
    requires Inv(w, b0, s) && ResultsOk(w, b0, s)
    ensures YieldsOnly(w, b0, s.shared.board)
  {
    hide Least, Outcome, PhaseOk, Covered, OnTrack;
    forall id | id in s.shared.board && s.shared.board[id].status == Done
      ensures id in b0 && s.shared.board[id].result == Yield(w, b0, id)
    {
      assert EntryOk(w, b0[id], s.shared.board[id], id in Least(w, b0), id in ReadySet(b0, Least(w, b0)));
    }
  }

  lemma WorkerInterpolates(w: World, b0: Keys, s: State, i: nat)
    requires Inv(w, b0, s) && ResultsOk(w, b0, s) && s.phase.Level? && i < |s.phase.workers|
    ensures var id := s.phase.workers[i].quest.id;
            id in b0 && ParamsFor(w, b0, b0[id], Interpolate(b0[id].params, s.shared.board))
  {
    BoardYields(w, b0, s);
    hide Least, ResultsOk, YieldsOnly, EntryOk, PlaceOk, Covered;
    assert WorkerOk(w, b0, s.shared, Least(w, b0), s.phase.workers[i]);
    var id := s.phase.workers[i].quest.id;
    InterpolatedIsFor(w, b0, s.shared.board, b0[id]);
  }

  // ----- The records -----

  const SUCCESS := Reward(VerdictDone, 1.0, "auto: tool executed")
  const FAILURE := Reward(VerdictFailed, 0.0, "auto")
  const DENIED := "permission deny"
  const DEPENDENCY := "dependency failed"
  const CYCLE := "dependency cycle \U{2014} unsatisfiable"

  /** A run never touches a quest's identity, wording or estimate. */
  predicate SameWording(q0: Quest, q: Quest) {
    SameQuest(q0, q) && q.title == q0.title && q.organHint == q0.organHint && q.eta == q0.eta
  }

  /** The error text a quest is claimed with: that of an earlier failure is cleared. */
  function ErrorAtStart(q0: Quest): string {
    if q0.status == Failed then "" else q0.error
  }

  /** A quest whose claim was refused has its parameters and a fresh chance, and is otherwise as it was. */
  predicate Refused(q0: Quest, q: Quest) {
    q == q0.(params := q.params, status := Pending, error := ErrorAtStart(q0))
  }

  /** What attempts without success leave: the tool's error and no result, or nothing if there is no tool to run. */
  predicate Unsuccessful(q0: Quest, q: Quest) {
    if q0.tool == "" then q.error == "" || q.error == ErrorAtStart(q0) else q.error == "tool error" && q.result == None
  }

  /** What the board says of one quest, and the shared sets with it. */
  ghost predicate Recorded(w: World, b0: Keys, q0: Quest, q: Quest, done: bool, failed: bool, ready: bool) {
    && SameWording(q0, q)
    && (!Candidate(q0) ==> q == q0)
    && (Candidate(q0) && q.status == Done ==> Produced(w, b0, q0, q) && q.error == "" && q.claim == w.karaka)
    && (Candidate(q0) && done ==> q.reward == Some(SUCCESS))
    && (Candidate(q0) && failed && q.status == Failed ==>
          q.reward == Some(FAILURE) && q.claim == w.karaka && Unsuccessful(q0, q))
    && (Candidate(q0) && failed && q.status == Pending ==> Refused(q0, q) && ParamsFor(w, b0, q0, q.params))
    && (Candidate(q0) && q.status == WaitingApproval ==> q == q0.(status := WaitingApproval))
    && (Candidate(q0) && q.status == Cancelled ==> if ready then q.error == DENIED else q.error == DEPENDENCY || q.error == CYCLE)
  }

  /** What a worker's place says about it. */
  ghost predicate AtPlace(w: World, b0: Keys, q0: Quest, q: Quest, place: Place) {
    match place
    case Queued => q == q0
    case Gate => q == q0
    case Denying => q.error == DENIED
    case Interpolating => q == q0
    case Storing(p) => q == q0 && ParamsFor(w, b0, q0, p)
    case Resetting => q == q0.(params := q.params) && ParamsFor(w, b0, q0, q.params)
    case Claiming => Refused(q0, q) && ParamsFor(w, b0, q0, q.params)
    case Starting(k) =>
      q.claim == w.karaka && AttemptParams(w, b0, q0, k, q.params) && (q.error == "" || q.error == ErrorAtStart(q0))
    case Executing(k) => q.claim == w.karaka && AttemptParams(w, b0, q0, k, q.params) && q0.tool != ""
    case Repairing(k) => q.claim == w.karaka && AttemptParams(w, b0, q0, k, q.params) && Unsuccessful(q0, q)
    case Crediting => Produced(w, b0, q0, q) && q.error == "" && q.claim == w.karaka
    case MarkingDone => q.reward == Some(SUCCESS)
    case Blaming => q.claim == w.karaka && Unsuccessful(q0, q)
    case MarkingFailed =>
      && (q.status == Failed ==> q.reward == Some(FAILURE) && q.claim == w.karaka && Unsuccessful(q0, q))
      && (q.status == Pending ==> Refused(q0, q) && ParamsFor(w, b0, q0, q.params))
    case Exited => true
  }

  ghost predicate RecordsOk(w: World, b0: Keys, s: State) {
    var ready := ReadySet(b0, Least(w, b0));
    && s.shared.board.Keys == b0.Keys
    && (forall id | id in b0 ::
          Recorded(w, b0, b0[id], s.shared.board[id], id in s.shared.done, id in s.shared.failed, id in ready))
    && (s.phase.Level? ==> forall i :: 0 <= i < |s.phase.workers| ==>
          var id := s.phase.workers[i].quest.id;
          id in b0 && AtPlace(w, b0, b0[id], s.shared.board[id], s.phase.workers[i].place))
  }

  // ----- One worker step -----

  /** What a worker's step needs and gives: its own entry and place. */
  ghost predicate OwnRecord(w: World, b0: Keys, q0: Quest, sh: Shared, wk: Worker) {
    var id := wk.quest.id;
    && id == q0.id && id in sh.board && Candidate(q0)
    && (Untouched(wk.place) ==> wk.quest == q0) && wk.quest.status == q0.status
    && StatusFits(sh.board[id], wk.place)
    && (wk.place.Starting? ==> MayStart(w, q0))
    && Recorded(w, b0, q0, sh.board[id], id in sh.done, id in sh.failed, true)
    && AtPlace(w, b0, q0, sh.board[id], wk.place)
  }

  /** Only a missing tool keeps the quest from being started. */
  predicate MayStart(w: World, q0: Quest) {
    w.karaka != "" && w.permission(w.karaka, q0.tool) != Deny
  }

  /** The statuses that matter here. */
  predicate StatusFits(q: Quest, place: Place) {
    && (place.Denying? ==> q.status == Cancelled)
    && (place.Crediting? || place.MarkingDone? ==> q.status == Done)
    && (place.Claiming? ==> q.status == Pending)
    && (Preparing(place) && !place.Denying? ==> q.status == Pending || q.status == Failed)
    && (place.Starting? ==> q.status == Claimed || q.status == Failed)
    && (Attempting(place) || place.Blaming? ==> q.status == Claimed || q.status == Running || q.status == Failed)
  }

  lemma PrepareRecords(w: World, b0: Keys, q0: Quest, sh: Shared, wk: Worker)
    requires OwnRecord(w, b0, q0, sh, wk) && Preparing(wk.place) && q0.id !in sh.done && q0.id !in sh.failed
    requires wk.place.Interpolating? ==> ParamsFor(w, b0, q0, Interpolate(q0.params, sh.board))
    ensures var (sh', wk') := Prepare(w, sh, wk);
            && Recorded(w, b0, q0, sh'.board[q0.id], q0.id in sh'.done, q0.id in sh'.failed, true)
            && AtPlace(w, b0, q0, sh'.board[q0.id], wk'.place)
  {
    hide Interpolate, ParamsFor, Produced;
  }

  lemma AttemptRecords(w: World, b0: Keys, q0: Quest, sh: Shared, wk: Worker)
    requires OwnRecord(w, b0, q0, sh, wk) && Attempting(wk.place) && q0.id !in sh.done && q0.id !in sh.failed
    requires wk.place.Executing? ==> wk.place.k <= MAX_REPAIRS
    ensures var (sh', wk') := Attempt(w, sh, wk);
            && Recorded(w, b0, q0, sh'.board[q0.id], q0.id in sh'.done, q0.id in sh'.failed, true)
            && AtPlace(w, b0, q0, sh'.board[q0.id], wk'.place)
  {
    hide OwnRecord, Recorded, AtPlace;
    if wk.place.Executing? {
      ExecutingRecords(w, b0, q0, sh, wk);
    } else if wk.place.Starting? {
      StartingRecords(w, b0, q0, sh, wk);
    } else {
      RepairingRecords(w, b0, q0, sh, wk);
    }
  }

  lemma StartingRecords(w: World, b0: Keys, q0: Quest, sh: Shared, wk: Worker)
    requires OwnRecord(w, b0, q0, sh, wk) && wk.place.Starting? && q0.id !in sh.done && q0.id !in sh.failed
    ensures var (sh', wk') := Attempt(w, sh, wk);
            && Recorded(w, b0, q0, sh'.board[q0.id], q0.id in sh'.done, q0.id in sh'.failed, true)
            && AtPlace(w, b0, q0, sh'.board[q0.id], wk'.place)
  {
    hide ParamsFor, Produced, FinishRun;
  }

  lemma RepairingRecords(w: World, b0: Keys, q0: Quest, sh: Shared, wk: Worker)
    requires OwnRecord(w, b0, q0, sh, wk) && wk.place.Repairing? && q0.id !in sh.done && q0.id !in sh.failed
    ensures var (sh', wk') := Attempt(w, sh, wk);
            && Recorded(w, b0, q0, sh'.board[q0.id], q0.id in sh'.done, q0.id in sh'.failed, true)
            && AtPlace(w, b0, q0, sh'.board[q0.id], wk'.place)
  {
    hide ParamsFor, Produced, FinishRun, StartRun, Recorded, Unsuccessful;
    var q := sh.board[q0.id];
    UnderWay(w, b0, q0, q, q);
    if w.repair(q0.id, wk.place.k).Some? {
      UnderWay(w, b0, q0, q, q.(params := w.repair(q0.id, wk.place.k).value, error := ""));
    }
  }

  /** While a quest is under way its record is its wording alone. */
  lemma UnderWay(w: World, b0: Keys, q0: Quest, q: Quest, q': Quest)
    requires Candidate(q0) && Recorded(w, b0, q0, q, false, false, true) && SameWording(q, q')
    requires q'.status == Claimed || q'.status == Running || q'.status == Failed
    ensures Recorded(w, b0, q0, q', false, false, true)
  {
    hide ParamsFor, Produced, Unsuccessful;
  }

  lemma ExecutingRecords(w: World, b0: Keys, q0: Quest, sh: Shared, wk: Worker)
    requires OwnRecord(w, b0, q0, sh, wk) && wk.place.Executing? && q0.id !in sh.done && q0.id !in sh.failed
    requires wk.place.k <= MAX_REPAIRS
    ensures var (sh', wk') := Attempt(w, sh, wk);
            && Recorded(w, b0, q0, sh'.board[q0.id], q0.id in sh'.done, q0.id in sh'.failed, true)
            && AtPlace(w, b0, q0, sh'.board[q0.id], wk'.place)
  {
    hide ParamsFor, StartRun;
    if w.attempt(q0.id, wk.place.k).Some? {
      var q := Attempt(w, sh, wk).0.board[q0.id];
      assert ProducedBy(w, b0, q0, q, wk.place.k);
    }
  }

  lemma ConcludeRecords(w: World, b0: Keys, q0: Quest, sh: Shared, wk: Worker)
    requires OwnRecord(w, b0, q0, sh, wk) && Concluding(wk.place) && q0.id !in sh.done && q0.id !in sh.failed
    ensures var (sh', wk') := Conclude(sh, wk);
            && Recorded(w, b0, q0, sh'.board[q0.id], q0.id in sh'.done, q0.id in sh'.failed, true)
            && AtPlace(w, b0, q0, sh'.board[q0.id], wk'.place)
  {
    hide AttemptParams;
    if wk.place.Crediting? {
      var q, q' := sh.board[q0.id], Conclude(sh, wk).0.board[q0.id];
      var k: nat :| k <= MAX_REPAIRS && ProducedBy(w, b0, q0, q, k);
      assert ProducedBy(w, b0, q0, q', k);
    }
  }

  lemma PlaceFits(w: World, q0: Quest, q: Quest, place: Place, inLeast: bool)
    requires PlaceOk(w, q0, q, place, inLeast) && Candidate(q0)
    ensures StatusFits(q, place) && (place.Executing? ==> place.k <= MAX_REPAIRS)
    ensures place.Starting? ==> MayStart(w, q0)
  {
    hide SucceedsFrom;
  }

  lemma WorkerFacts(w: World, b0: Keys, s: State, i: nat)
    requires Inv(w, b0, s) && Enabled(s, Work(i))
    ensures var wk := s.phase.workers[i]; var id := wk.quest.id;
            && id in b0 && id in s.shared.board && Candidate(b0[id]) && b0[id].id == id
            && PlaceOk(w, b0[id], s.shared.board[id], wk.place, id in Least(w, b0))
            && (Untouched(wk.place) ==> wk.quest == b0[id]) && wk.quest.status == b0[id].status
            && id !in s.shared.done && id !in s.shared.failed
            && id in ReadySet(b0, Least(w, b0))
  {
    hide Least, PlaceOk, Covered, EntryOk, PendingOk;
    var wk := s.phase.workers[i];
    assert WorkerOk(w, b0, s.shared, Least(w, b0), wk);
  }

  lemma WorkerOwns(w: World, b0: Keys, s: State, i: nat)
    requires Inv(w, b0, s) && RecordsOk(w, b0, s) && Enabled(s, Work(i))
    ensures var wk := s.phase.workers[i]; var id := wk.quest.id;
            && id in b0 && OwnRecord(w, b0, b0[id], s.shared, wk)
            && id !in s.shared.done && id !in s.shared.failed
            && id in ReadySet(b0, Least(w, b0))
            && (wk.place.Executing? ==> wk.place.k <= MAX_REPAIRS)
  {
    hide Inv, Least, ReadySet, Recorded, AtPlace, PlaceOk, StatusFits, MayStart;
    WorkerFacts(w, b0, s, i);
    var wk := s.phase.workers[i];
    var id := wk.quest.id;
    PlaceFits(w, b0[id], s.shared.board[id], wk.place, id in Least(w, b0));
  }

  lemma AdvanceRecords(w: World, b0: Keys, s: State, i: nat)
    requires Inv(w, b0, s) && RecordsOk(w, b0, s) && ResultsOk(w, b0, s) && Enabled(s, Work(i))
    ensures var id := s.phase.workers[i].quest.id;
            var (sh', wk') := Advance(w, s.shared, s.phase.workers[i]);
            && id in b0 && id in sh'.board && id in ReadySet(b0, Least(w, b0)) && wk'.quest.id == id
            && Recorded(w, b0, b0[id], sh'.board[id], id in sh'.done, id in sh'.failed, true)
            && AtPlace(w, b0, b0[id], sh'.board[id], wk'.place)
  {
    hide Inv, RecordsOk, ResultsOk, Least, ReadySet, OwnRecord, Prepare, Attempt, Conclude, Recorded, AtPlace, Interpolate;
    hide ParamsFor, Busy;
    WorkerOwns(w, b0, s, i);
    WorkerInterpolates(w, b0, s, i);
    AdvanceIsOwnEffect(w, s.shared, s.phase.workers[i]);
    var wk := s.phase.workers[i];
    var q0 := b0[wk.quest.id];
    if Preparing(wk.place) {
      OwnIsHere(w, b0, q0, s.shared, wk);
      PrepareRecords(w, b0, q0, s.shared, wk);
    } else if Attempting(wk.place) {
      OwnIsHere(w, b0, q0, s.shared, wk);
      AttemptRecords(w, b0, q0, s.shared, wk);
    } else {
      OwnIsHere(w, b0, q0, s.shared, wk);
      ConcludeRecords(w, b0, q0, s.shared, wk);
    }
  }

  lemma OwnIsHere(w: World, b0: Keys, q0: Quest, sh: Shared, wk: Worker)
    requires OwnRecord(w, b0, q0, sh, wk)
    ensures wk.quest.id == q0.id && q0.id in sh.board
  {
  }

  lemma WorkKeepsRecords(w: World, b0: Keys, s: State, i: nat)
    requires Inv(w, b0, s) && RecordsOk(w, b0, s) && ResultsOk(w, b0, s) && Enabled(s, Work(i))
    ensures RecordsOk(w, b0, DoWork(w, s, i))
  {
    var (sh', wk') := Advance(w, s.shared, s.phase.workers[i]);
    AdvanceRecords(w, b0, s, i);
    AdvanceIsOwnEffect(w, s.shared, s.phase.workers[i]);
    OthersElsewhere(w, b0, s);
    assert DoWork(w, s, i) == s.(shared := sh', phase := Level(s.phase.workers[i := wk']));
    hide *;
    OneRecordMoved(w, b0, s, i, sh', wk');
  }

  lemma OthersElsewhere(w: World, b0: Keys, s: State)
    requires Inv(w, b0, s) && s.phase.Level?
    ensures DistinctQuests(s.phase.workers)
  {
    hide Least, SharedOk, PendingOk, Covered, WorkerOk;
  }

  lemma OneRecordMoved(w: World, b0: Keys, s: State, i: nat, sh': Shared, wk': Worker)
    requires s.phase.Level? && i < |s.phase.workers| && RecordsOk(w, b0, s) && DistinctQuests(s.phase.workers)
    requires var id := s.phase.workers[i].quest.id;
             && OwnEffect(s.shared, sh', id) && id in b0 && id in sh'.board && id in ReadySet(b0, Least(w, b0))
             && wk'.quest.id == id
             && Recorded(w, b0, b0[id], sh'.board[id], id in sh'.done, id in sh'.failed, true)
             && AtPlace(w, b0, b0[id], sh'.board[id], wk'.place)
    ensures RecordsOk(w, b0, s.(shared := sh', phase := Level(s.phase.workers[i := wk'])))
  {
    hide Recorded, AtPlace, ReadySet, Least;
  }

  // ----- The other steps -----

  /** A candidate that is cancelled where it stands, for one of the two reasons of the scan. */
  lemma CancelRecords(w: World, b0: Keys, s: State, id: string, reason: string)
    requires RecordsOk(w, b0, s) && id in s.pending && id in b0 && Candidate(b0[id]) && id !in ReadySet(b0, Least(w, b0))
    requires id !in s.shared.done && (reason == DEPENDENCY || reason == CYCLE)
    ensures var sh' := Cancelling(s.shared, id, reason);
            && sh'.board.Keys == b0.Keys
            && forall x | x in b0 ::
                 Recorded(w, b0, b0[x], sh'.board[x], x in sh'.done, x in sh'.failed, x in ReadySet(b0, Least(w, b0)))
  {
    hide Produced, ReadySet, Least;
  }

  lemma PendingIsCandidate(w: World, b0: Keys, s: State, id: string)
    requires Inv(w, b0, s) && id in s.pending
    ensures id in b0 && Candidate(b0[id]) && id !in s.shared.done && s.pending[id] == b0[id]
  {
    hide Least, PhaseOk, Covered;
  }

  lemma FailedVisitIsUnready(w: World, b0: Keys, s: State, id: string)
    requires Inv(w, b0, s) && id in s.pending && id in b0 && s.pending[id] == b0[id]
    requires CheckDeps(b0[id].dependsOn, s.shared.done, s.shared.failed) == DepFailed
    ensures id !in ReadySet(b0, Least(w, b0))
  {
    hide Least, PhaseOk, PendingOk, Covered, EntryOk;
  }

  lemma DroppedIsUnready(w: World, b0: Keys, s: State, id: string)
    requires Inv(w, b0, s) && Enabled(s, Drop(id))
    ensures id !in ReadySet(b0, Least(w, b0))
  {
    hide Least, SharedOk, PendingOk, Covered;
  }

  lemma VisitKeepsRecords(w: World, b0: Keys, s: State, id: string)
    requires Inv(w, b0, s) && RecordsOk(w, b0, s) && Enabled(s, Visit(id))
    ensures RecordsOk(w, b0, DoVisit(s, id))
  {
    hide Inv, Least, ReadySet, Recorded, CheckDeps;
    PendingIsCandidate(w, b0, s, id);
    if CheckDeps(s.pending[id].dependsOn, s.shared.done, s.shared.failed) == DepFailed {
      FailedVisitIsUnready(w, b0, s, id);
      CancelRecords(w, b0, s, id, DEPENDENCY);
    }
  }

  lemma DropKeepsRecords(w: World, b0: Keys, s: State, id: string)
    requires Inv(w, b0, s) && RecordsOk(w, b0, s) && Enabled(s, Drop(id))
    ensures RecordsOk(w, b0, DoDrop(s, id))
  {
    PendingIsCandidate(w, b0, s, id);
    DroppedIsUnready(w, b0, s, id);
    CancelRecords(w, b0, s, id, CYCLE);
    hide Inv, Least, ReadySet, Recorded;
  }

  lemma SpawnKeepsRecords(w: World, b0: Keys, s: State)
    requires Inv(w, b0, s) && RecordsOk(w, b0, s) && Enabled(s, EndScan)
    ensures RecordsOk(w, b0, DoEndScan(s))
  {
    hide Least, ReadySet, Recorded, EntryOk, Settled, Covered;
    if s.phase.level != [] {
      var s' := DoEndScan(s);
      forall i | 0 <= i < |s'.phase.workers|
        ensures var id := s'.phase.workers[i].quest.id;
                id in b0 && AtPlace(w, b0, b0[id], s.shared.board[id], Queued) && s'.phase.workers[i].place == Queued
      {
        var id := s.phase.level[i].id;
        assert id in s.pending;
      }
    }
  }

  lemma StepKeepsRecords(w: World, b0: Keys, s: State, l: Label)
    requires Inv(w, b0, s) && RecordsOk(w, b0, s) && ResultsOk(w, b0, s) && Enabled(s, l)
    ensures RecordsOk(w, b0, Do(w, s, l))
  {
    match l
    case Visit(id) => VisitKeepsRecords(w, b0, s, id);
    case Drop(id) => DropKeepsRecords(w, b0, s, id);
    case EndScan => SpawnKeepsRecords(w, b0, s);
    case Work(i) => WorkKeepsRecords(w, b0, s, i);
    case _ =>
      hide Inv, Recorded, AtPlace, ResultsOk, Least, ReadySet;
  }

  lemma {:induction false} RunKeepsRecords(w: World, b0: Keys, s: State, labels: seq<Label>)
    requires Inv(w, b0, s) && RecordsOk(w, b0, s) && ResultsOk(w, b0, s) && Run(w, s, labels).Some?
    ensures RecordsOk(w, b0, Run(w, s, labels).value)
    decreases |labels|
  {
    hide Inv, ResultsOk, RecordsOk, Do;
    if labels != [] {
      StepInv(w, b0, s, labels[0]);
      StepKeepsResults(w, b0, s, labels[0]);
      StepKeepsRecords(w, b0, s, labels[0]);
      RunKeepsRecords(w, b0, Do(w, s, labels[0]), labels[1..]);
    }
  }

  // ----- Why a quest was cancelled by the scan -----

  /** A failed dependency is there to be seen; a cycle is only called one when the scan has found nothing to run. */
  ghost predicate ReasonFits(s: State, q0: Quest, error: string) {
    && (error == DEPENDENCY ==> exists d :: d in q0.dependsOn && d in s.shared.failed)
    && (error == CYCLE ==> s.phase.Sweep? || s.phase.Stopped?)
  }

  ghost predicate ReasonsOk(b0: Keys, s: State) {
    forall id | id in b0 && Candidate(b0[id]) && id in s.shared.board && s.shared.board[id].status == Cancelled ::
      ReasonFits(s, b0[id], s.shared.board[id].error)
  }

  /** A step that cancels at most one quest keeps the reasons if it gives that one a fitting one. */
  lemma ReasonsCarryOver(b0: Keys, s: State, s': State, own: string)
    requires ReasonsOk(b0, s) && s'.shared.board.Keys == s.shared.board.Keys && s.shared.failed <= s'.shared.failed
    requires s.phase.Sweep? || s.phase.Stopped? ==> s'.phase.Sweep? || s'.phase.Stopped?
    requires forall x | x in s.shared.board && x != own :: s'.shared.board[x] == s.shared.board[x]
    requires own in b0 && Candidate(b0[own]) && own in s'.shared.board && s'.shared.board[own].status == Cancelled ==>
               ReasonFits(s', b0[own], s'.shared.board[own].error)
    ensures ReasonsOk(b0, s')
  {
    forall id | id in b0 && Candidate(b0[id]) && id in s'.shared.board && s'.shared.board[id].status == Cancelled
      ensures ReasonFits(s', b0[id], s'.shared.board[id].error)
    {
      if id != own {
        assert ReasonFits(s, b0[id], s.shared.board[id].error);
      }
    }
  }

  lemma WorkKeepsReasons(w: World, b0: Keys, s: State, i: nat)
    requires Inv(w, b0, s) && RecordsOk(w, b0, s) && ResultsOk(w, b0, s) && Enabled(s, Work(i)) && ReasonsOk(b0, s)
    ensures ReasonsOk(b0, DoWork(w, s, i))
  {
    hide Inv, RecordsOk, ResultsOk, ReasonsOk, Advance, AtPlace, Recorded, Least, ReadySet;
    AdvanceRecords(w, b0, s, i);
    AdvanceIsOwnEffect(w, s.shared, s.phase.workers[i]);
    var own, s' := s.phase.workers[i].quest.id, DoWork(w, s, i);
    DenialFits(w, b0, b0[own], s', s'.shared.board[own], own in s'.shared.done, own in s'.shared.failed);
    ReasonsCarryOver(b0, s, s', own);
  }

  lemma DenialFits(w: World, b0: Keys, q0: Quest, s: State, q: Quest, done: bool, failed: bool)
    requires Recorded(w, b0, q0, q, done, failed, true)
    ensures Candidate(q0) && q.status == Cancelled ==> ReasonFits(s, q0, q.error)
  {
    hide Produced, ParamsFor, Unsuccessful;
    DifferentReasons();
  }

  lemma DifferentReasons()
    ensures DENIED != DEPENDENCY && DENIED != CYCLE && DEPENDENCY != CYCLE
  {
    assert DENIED[0] == 'p' && DEPENDENCY[0] == 'd' && CYCLE[0] == 'd';
    assert DEPENDENCY[11] == 'f' && CYCLE[11] == 'c';
  }

  lemma VisitKeepsReasons(w: World, b0: Keys, s: State, id: string)
    requires Inv(w, b0, s) && Enabled(s, Visit(id)) && ReasonsOk(b0, s)
    ensures ReasonsOk(b0, DoVisit(s, id))
  {
    hide Inv, ReasonsOk, CheckDeps, Busy;
    PendingIsCandidate(w, b0, s, id);
    DifferentReasons();
    if CheckDeps(s.pending[id].dependsOn, s.shared.done, s.shared.failed) == DepFailed {
      ReasonsCarryOver(b0, s, DoVisit(s, id), id);
    } else {
      SamePlaceReasons(b0, s, DoVisit(s, id));
    }
  }

  lemma DropKeepsReasons(w: World, b0: Keys, s: State, id: string)
    requires Inv(w, b0, s) && Enabled(s, Drop(id)) && ReasonsOk(b0, s)
    ensures ReasonsOk(b0, DoDrop(s, id))
  {
    hide Inv, ReasonsOk, Busy;
    PendingIsCandidate(w, b0, s, id);
    DifferentReasons();
    ReasonsCarryOver(b0, s, DoDrop(s, id), id);
  }

  lemma LoopKeepsReasons(w: World, b0: Keys, s: State, l: Label)
    requires Enabled(s, l) && (l.Loop? || l.Timeout? || l.EndScan?) && ReasonsOk(b0, s)
    ensures ReasonsOk(b0, Do(w, s, l))
  {
    hide ReasonsOk, DoWork, DoVisit, DoDrop, Busy, Spawn, HasWaiting;
    var s' := Do(w, s, l);
    assert s'.shared == s.shared;
    SamePlaceReasons(b0, s, s');
  }

  lemma SamePlaceReasons(b0: Keys, s: State, s': State)
    requires ReasonsOk(b0, s) && s'.shared == s.shared
    requires s.phase.Sweep? || s.phase.Stopped? ==> s'.phase.Sweep? || s'.phase.Stopped?
    ensures ReasonsOk(b0, s')
  {
    forall id | id in b0 && Candidate(b0[id]) && id in s'.shared.board && s'.shared.board[id].status == Cancelled
      ensures ReasonFits(s', b0[id], s'.shared.board[id].error)
    {
      assert ReasonFits(s, b0[id], s.shared.board[id].error);
    }
  }

  lemma {:induction false} RunKeepsReasons(w: World, b0: Keys, s: State, labels: seq<Label>)
    requires Inv(w, b0, s) && RecordsOk(w, b0, s) && ResultsOk(w, b0, s) && ReasonsOk(b0, s) && Run(w, s, labels).Some?
    ensures ReasonsOk(b0, Run(w, s, labels).value)
    decreases |labels|
  {
    hide Inv, ResultsOk, RecordsOk, ReasonsOk, DoLoop, DoVisit, DoEndScan, DoDrop, DoWork, Enabled;
    if labels != [] {
      var l := labels[0];
      StepInv(w, b0, s, l);
      StepKeepsResults(w, b0, s, l);
      StepKeepsRecords(w, b0, s, l);
      match l {
        case Work(i) => WorkKeepsReasons(w, b0, s, i);
        case Visit(id) => VisitKeepsReasons(w, b0, s, id);
        case Drop(id) => DropKeepsReasons(w, b0, s, id);
        case _ => LoopKeepsReasons(w, b0, s, l);
      }
      RunKeepsReasons(w, b0, Do(w, s, l), labels[1..]);
    }
  }

  lemma StartReasons(b0: Keys)
    ensures ReasonsOk(b0, Init(b0))
  {
  }

  lemma ReachedReasons(w: World, b0: Keys, labels: seq<Label>, s: State)
    requires Reaches(w, b0, labels, s)
    ensures ReasonsOk(b0, s)
  {
    InitInv(w, b0);
    StartsOk(w, b0);
    StartRecords(w, b0);
    StartReasons(b0);
    hide Inv, RecordsOk, ResultsOk, ReasonsOk, Init;
    RunKeepsReasons(w, b0, Init(b0), labels);
  }

  // ----- At the start, and in every reached state -----

  lemma StartRecords(w: World, b0: Keys)
    ensures RecordsOk(w, b0, Init(b0))
  {
    hide Produced, Least;
  }

  lemma ReachedRecords(w: World, b0: Keys, labels: seq<Label>, s: State)
    requires Reaches(w, b0, labels, s)
    ensures RecordsOk(w, b0, s)
  {
    InitInv(w, b0);
    StartsOk(w, b0);
    StartRecords(w, b0);
    hide Inv, RecordsOk, ResultsOk, Init;
    RunKeepsRecords(w, b0, Init(b0), labels);
  }

  // ----- What follows -----

  /**
   Whenever a tool is about to be called, the board holds the parameters it is called with:
   for the first attempt the quest's own with every reference to a dependency replaced by
   what it stands for, for a later attempt those the repair before it proposed.
   */
  lemma ToolGetsItsParams(w: World, b0: Keys, labels: seq<Label>, s: State, wk: Worker)
    requires Reaches(w, b0, labels, s) && s.phase.Level? && wk in s.phase.workers && wk.place.Executing?
    ensures var id := wk.quest.id;
            && id in b0 && id in s.shared.board
            && AttemptParams(w, b0, b0[id], wk.place.k, s.shared.board[id].params)
  {
    hide Recorded, AttemptParams, ReadySet, Least, Reaches;
    ReachedRecords(w, b0, labels, s);
    assert exists i :: 0 <= i < |s.phase.workers| && s.phase.workers[i] == wk;
  }

  /** Every reference of the quest is to a dependency of it. */
  ghost predicate RefersToDeps(q0: Quest) {
    forall k, i | k in q0.params && q0.params[k].Tokens? && 0 <= i < |q0.params[k].tokens| ::
      q0.params[k].tokens[i].Ref? ==> "q" + q0.params[k].tokens[i].digits in q0.dependsOn
  }

  /**
   If all references are to dependencies, an attempt gets the same parameters in every run,
   whatever the order: that a tool's outcome depends on quest and attempt alone is consistent.
   */
  lemma SameParamsInEveryRun(
      w: World, b0: Keys, labels1: seq<Label>, labels2: seq<Label>, s1: State, s2: State, wk1: Worker, wk2: Worker)
    requires Reaches(w, b0, labels1, s1) && s1.phase.Level? && wk1 in s1.phase.workers && wk1.place.Executing?
    requires Reaches(w, b0, labels2, s2) && s2.phase.Level? && wk2 in s2.phase.workers && wk2.place == wk1.place
    requires wk1.quest.id == wk2.quest.id && wk1.quest.id in b0 && RefersToDeps(b0[wk1.quest.id])
    ensures var id := wk1.quest.id;
            id in s1.shared.board && id in s2.shared.board && s1.shared.board[id].params == s2.shared.board[id].params
  {
    ToolGetsItsParams(w, b0, labels1, s1, wk1);
    ToolGetsItsParams(w, b0, labels2, s2, wk2);
    hide Reaches, ParamsFor;
    var id := wk1.quest.id;
    if wk1.place.k == 0 {
      ParamsAreDetermined(w, b0, b0[id], s1.shared.board[id].params, s2.shared.board[id].params);
    }
  }

  lemma ParamsAreDetermined(w: World, b0: Keys, q0: Quest, p1: Params, p2: Params)
    requires ParamsFor(w, b0, q0, p1) && ParamsFor(w, b0, q0, p2) && RefersToDeps(q0)
    ensures p1 == p2
  {
    hide TokenFor;
    forall k | k in p1 ensures p1[k] == p2[k] {
      if q0.params[k].Tokens? {
        forall i | 0 <= i < |p1[k].tokens| ensures p1[k].tokens[i] == p2[k].tokens[i] {
          TokenIsDetermined(w, b0, q0.dependsOn, q0.params[k].tokens[i], p1[k].tokens[i], p2[k].tokens[i]);
        }
      }
    }
  }

  lemma TokenIsDetermined(w: World, b0: Keys, deps: seq<string>, t: Token, t1: Token, t2: Token)
    requires TokenFor(w, b0, deps, t, t1) && TokenFor(w, b0, deps, t, t2)
    requires t.Ref? ==> "q" + t.digits in deps
    ensures t1 == t2
  {
    hide StandsFor;
    if t.Ref? {
      assert t1.Subst? ==> t1 == Subst(t1.value);
      assert t2.Subst? ==> t2 == Subst(t2.value);
    }
  }

  /**
   What a run leaves on the board: a done quest has result and parameters of one and the same
   attempt and the automatic reward, a failed one the failing reward and the tool's error, one
   whose claim was refused only new parameters and a cleared error, a waiting one nothing new,
   and a cancelled one the reason, which is the denial exactly if its dependencies could all be
   done. A quest the run had no business with is untouched.
   */
  ghost predicate TellsWhatHappened(w: World, b0: Keys, s: State, id: string)
    requires id in b0
  {
    && id in s.shared.board && SameWording(b0[id], s.shared.board[id])
    && var q := s.shared.board[id];
       if !Candidate(b0[id]) then q == b0[id]
       else
         && (id in s.shared.done ==>
               q.status == Done && Produced(w, b0, b0[id], q) && q.reward == Some(SUCCESS) && q.error == "" && q.claim == w.karaka)
         && (id in s.shared.failed && q.status == Failed ==>
               q.reward == Some(FAILURE) && q.claim == w.karaka && Unsuccessful(b0[id], q))
         && (id in s.shared.failed && q.status == Pending ==> Refused(b0[id], q) && ParamsFor(w, b0, b0[id], q.params))
         && (q.status == WaitingApproval ==> q == b0[id].(status := WaitingApproval))
         && (q.status == Cancelled ==> (q.error == DENIED <==> id in ReadySet(b0, Least(w, b0)))
                                       && (q.error != DENIED ==> q.error == DEPENDENCY || q.error == CYCLE)
                                       && ReasonFits(s, b0[id], q.error))
  }

  lemma BoardTellsWhatHappened(w: World, b0: Keys, labels: seq<Label>, s: State, id: string)
    requires Reaches(w, b0, labels, s) && id in b0
    ensures TellsWhatHappened(w, b0, s, id)
  {
    hide Least, Produced, Reaches, ReasonFits, Unsuccessful, ParamsFor, Refused;
    ReachedReasons(w, b0, labels, s);
    ReachedRecords(w, b0, labels, s);
    DoneSetIsLeast(w, b0, labels, s);
    DifferentReasons();
  }
}
