/**
 The level scheduler as a state machine. Go map iteration and goroutine interleaving
 are nondeterminism: a run is any sequence of labels, each enabled where it is taken.
 One `Work` label is one atomic section of a worker: a board update under the store
 lock, a shared-set update under the scheduler's mutex, or a step of local work.
 */
module Scheduler {
  import opened Common
  import opened Board

  type Keys = map<string, Quest>

  /**
   What a run meets but does not change: who acts, whether "ask" tools park, the
   mission's status, the permission table, what attempt k of a quest's tool yields
   (None is an error) and what the repair after failed attempt k proposes.
   */
  datatype World = World(
    karaka: string, approval: bool, mission: MissionStatus,
    permission: (string, string) -> Permission,
    attempt: (string, nat) -> Option<Value>,
    repair: (string, nat) -> Option<Params>)

  const MAX_PARALLEL: nat := 4
  const MAX_REPAIRS: nat := 2

  /** Where a worker stands. The numbered places carry the attempt number. */
  datatype Place =
    | Queued | Gate | Denying | Interpolating | Storing(params: Params) | Resetting | Claiming
    | Starting(k: nat) | Executing(k: nat) | Repairing(k: nat)
    | Crediting | MarkingDone | Blaming | MarkingFailed | Exited

  /** A goroutine: the quest as it was copied when the level was collected, and its place. */
  datatype Worker = Worker(quest: Quest, place: Place)

  /** The state workers share: the board and the done and failed sets. */
  datatype Shared = Shared(board: Keys, done: set<string>, failed: set<string>)

  datatype Phase =
    | Head
    | Scan(todo: set<string>, level: seq<Quest>)
    | Level(workers: seq<Worker>)
    | Sweep
    | Stopped(timedOut: bool)

  datatype State = State(shared: Shared, pending: Keys, phase: Phase)

  datatype Label =
    | Loop                // loop head, end of a level, end of the sweep
    | Timeout             // the context expired at the loop head
    | Visit(id: string)   // the scan looks at one pending quest
    | EndScan
    | Drop(id: string)    // the sweep cancels one quest of a cycle
    | Work(i: nat)        // worker i makes a step

  // ----- Interpolation -----

  /** The value a reference resolves to on the board, if any. */
  function Resolve(b: Keys, digits: string, path: seq<string>): Option<Value> {
    var id := "q" + digits;
    if id in b && b[id].status == Done && b[id].result.Some? then Walk(b[id].result.value, path)
    else None
  }

  /** Follow a field path; plain strings only answer the empty path. */
  function Walk(v: Value, path: seq<string>): Option<Value> {
    if path == [] then (if v.Opaque? then None else Some(v))
    else if v.Object? then WalkFields(v, path)
    else None
  }

  function WalkFields(v: Value, path: seq<string>): Option<Value>
    requires v.Object?
    decreases |path|
  {
    if path == [] then Some(v)
    else
      var next := if path[0] in v.fields then v.fields[path[0]] else Opaque(0);
      if |path| == 1 then Some(next)
      else if next.Object? then WalkFields(next, path[1..])
      else None
  }

  function InterpolateToken(b: Keys, t: Token): Token {
    match t
    case Ref(digits, path) =>
      (match Resolve(b, digits, path)
       case None => t
       case Some(v) => Subst(v))
    case _ => t
  }

  function Interpolate(params: Params, b: Keys): Params {
    map k | k in params ::
      match params[k]
      case NotText(v) => NotText(v)
      case Tokens(ts) => Tokens(seq(|ts|, i requires 0 <= i < |ts| => InterpolateToken(b, ts[i])))
  }

  // ----- One worker step -----

  /** Write a quest back under its id; an unknown id changes nothing. */
  function Write(sh: Shared, id: string, q: Quest): Shared {
    if id in sh.board then sh.(board := sh.board[id := q]) else sh
  }

  /** The board's version of a quest, as a write-back closure sees it. */
  function Current(sh: Shared, q: Quest): Quest {
    if q.id in sh.board then sh.board[q.id] else q
  }

  function AfterFailure(k: nat): Place {
    if k >= MAX_REPAIRS then Blaming else Repairing(k)
  }

  predicate Preparing(p: Place) {
    || p.Queued? || p.Gate? || p.Denying? || p.Interpolating? || p.Storing? || p.Resetting? || p.Claiming?
  }

  predicate Attempting(p: Place) {
    p.Starting? || p.Executing? || p.Repairing?
  }

  predicate Concluding(p: Place) {
    p.Crediting? || p.MarkingDone? || p.Blaming? || p.MarkingFailed?
  }

  /** From the start of the worker up to its claim. */
  function Prepare(w: World, sh: Shared, wk: Worker): (Shared, Worker)
    requires Preparing(wk.place)
  {
    var q := wk.quest;
    var now := Current(sh, q);
    match wk.place
    case Queued => (sh, wk.(place := Gate))
    case Gate =>
      var permission := w.permission(w.karaka, q.tool);
      if permission == Deny then (Write(sh, q.id, Cancel(now, "permission deny")), wk.(place := Denying))
      else if permission == Ask && w.approval then (Write(sh, q.id, Park(now)), wk.(place := Exited))
      else (sh, wk.(place := Interpolating))
    case Denying => (sh.(failed := sh.failed + {q.id}), wk.(place := Exited))
    case Interpolating => (sh, wk.(place := Storing(Interpolate(q.params, sh.board))))
    case Storing(params) =>
      (Write(sh, q.id, now.(params := params)), Worker(q.(params := params), Resetting))
    case Resetting =>
      if q.status == Failed then (Write(sh, q.id, ResetFailed(now)), wk.(place := Claiming))
      else (sh, wk.(place := Claiming))
    case Claiming =>
      if q.id !in sh.board then (sh, wk.(place := MarkingFailed))
      else
        match Claim(w.mission, now, w.karaka)
        case Ok(claimed) => (Write(sh, q.id, claimed), wk.(place := Starting(0)))
        case Err(_) => (sh, wk.(place := MarkingFailed))
  }

  /** The attempt loop: start, execute, observe, repair. */
  function Attempt(w: World, sh: Shared, wk: Worker): (Shared, Worker)
    requires Attempting(wk.place)
  {
    var q := wk.quest;
    var now := Current(sh, q);
    match wk.place
    case Starting(k) =>
      if q.id !in sh.board then (sh, wk.(place := AfterFailure(k)))
      else (
        match StartRun(now, w.permission)
        case Ok(started) => (Write(sh, q.id, started), wk.(place := Executing(k)))
        case Err(_) => (sh, wk.(place := AfterFailure(k))))
    case Executing(k) =>
      var outcome := w.attempt(q.id, k);
      (Write(sh, q.id, FinishRun(now, outcome)),
       wk.(place := if outcome.Some? then Crediting else AfterFailure(k)))
    case Repairing(k) =>
      match w.repair(q.id, k)
      case Some(params) =>
        (Write(sh, q.id, now.(params := params, error := "")), wk.(place := Starting(k + 1)))
      case None => (sh, wk.(place := Blaming))
  }

  /** After the last attempt: the reward on the board, then the shared sets. */
  function Conclude(sh: Shared, wk: Worker): (Shared, Worker)
    requires Concluding(wk.place)
  {
    var q := wk.quest;
    var now := Current(sh, q);
    match wk.place
    case Crediting =>
      (Write(sh, q.id, Rewarded(now, VerdictDone, 1.0, "auto: tool executed")), wk.(place := MarkingDone))
    case MarkingDone => (sh.(done := sh.done + {q.id}), wk.(place := Exited))
    case Blaming => (Write(sh, q.id, Rewarded(now, VerdictFailed, 0.0, "auto")), wk.(place := MarkingFailed))
    case MarkingFailed => (sh.(failed := sh.failed + {q.id}), wk.(place := Exited))
  }

  function Advance(w: World, sh: Shared, wk: Worker): (Shared, Worker)
    requires wk.place != Exited
  {
    if Preparing(wk.place) then Prepare(w, sh, wk)
    else if Attempting(wk.place) then Attempt(w, sh, wk)
    else Conclude(sh, wk)
  }

  // ----- The level loop -----

  datatype Check = Ready | Blocked | DepFailed

  /** The dependency loop of the scan: it stops at the first failed or missing dependency. */
  function CheckDeps(deps: seq<string>, done: set<string>, failed: set<string>): (c: Check)
    ensures c == Ready ==> forall d | d in deps :: d in done
    ensures c == DepFailed ==> exists d :: d in deps && d in failed
    ensures c == Blocked ==> exists d :: d in deps && d !in done
  {
    if deps == [] then Ready
    else if deps[0] in failed then DepFailed
    else if deps[0] !in done then Blocked
    else CheckDeps(deps[1..], done, failed)
  }

  predicate Holds(wk: Worker) {
    wk.place != Queued && wk.place != Exited
  }

  /** How many workers hold one of the semaphore's slots. */
  function Busy(workers: seq<Worker>): nat {
    if workers == [] then 0
    else (if Holds(workers[0]) then 1 else 0) + Busy(workers[1..])
  }

  predicate AllExited(workers: seq<Worker>) {
    forall i :: 0 <= i < |workers| ==> workers[i].place == Exited
  }

  function Cancelling(sh: Shared, id: string, reason: string): Shared {
    if id in sh.board then
      sh.(board := sh.board[id := Cancel(sh.board[id], reason)], failed := sh.failed + {id})
    else sh.(failed := sh.failed + {id})
  }

  predicate HasWaiting(b: Keys) {
    exists id :: id in b && b[id].status == WaitingApproval
  }

  function Spawn(level: seq<Quest>): (ws: seq<Worker>)
    ensures |ws| == |level|
    ensures forall i :: 0 <= i < |ws| ==> ws[i] == Worker(level[i], Queued)
  {
    seq(|level|, i requires 0 <= i < |level| => Worker(level[i], Queued))
  }

  predicate Enabled(s: State, l: Label) {
    match l
    case Loop => s.phase.Head? || (s.phase.Level? && AllExited(s.phase.workers)) || (s.phase.Sweep? && s.pending == map[])
    case Timeout => s.phase.Head? && s.pending != map[]
    case Visit(id) => s.phase.Scan? && id in s.phase.todo && id in s.pending
    case EndScan => s.phase.Scan? && s.phase.todo == {}
    case Drop(id) => s.phase.Sweep? && id in s.pending
    case Work(i) =>
      && s.phase.Level? && i < |s.phase.workers| && s.phase.workers[i].place != Exited
      && (s.phase.workers[i].place == Queued ==> Busy(s.phase.workers) < MAX_PARALLEL)
  }

  function DoLoop(s: State): State {
    if s.phase.Head? && s.pending != map[] then s.(phase := Scan(s.pending.Keys, []))
    else if s.phase.Level? then s.(phase := Head)
    else s.(phase := Stopped(false))
  }

  function DoVisit(s: State, id: string): State
    requires Enabled(s, Visit(id))
  {
    var q := s.pending[id];
    var todo := s.phase.todo - {id};
    match CheckDeps(q.dependsOn, s.shared.done, s.shared.failed)
    case DepFailed =>
      State(Cancelling(s.shared, id, "dependency failed"), s.pending - {id}, Scan(todo, s.phase.level))
    case Ready => s.(phase := Scan(todo, s.phase.level + [q]))
    case Blocked => s.(phase := Scan(todo, s.phase.level))
  }

  function IdsOf(level: seq<Quest>): set<string> {
    set q | q in level :: q.id
  }

  function DoEndScan(s: State): State
    requires Enabled(s, EndScan)
  {
    if s.phase.level != [] then
      s.(pending := s.pending - IdsOf(s.phase.level), phase := Level(Spawn(s.phase.level)))
    else if HasWaiting(s.shared.board) then s.(phase := Stopped(false))
    else s.(phase := Sweep)
  }

  function DoDrop(s: State, id: string): State {
    State(Cancelling(s.shared, id, "dependency cycle \U{2014} unsatisfiable"), s.pending - {id}, Sweep)
  }

  function DoWork(w: World, s: State, i: nat): State
    requires Enabled(s, Work(i))
  {
    var (sh, wk) := Advance(w, s.shared, s.phase.workers[i]);
    s.(shared := sh, phase := Level(s.phase.workers[i := wk]))
  }

  function Do(w: World, s: State, l: Label): State
    requires Enabled(s, l)
  {
    match l
    case Loop => DoLoop(s)
    case Timeout => s.(phase := Stopped(true))
    case Visit(id) => DoVisit(s, id)
    case EndScan => DoEndScan(s)
    case Drop(id) => DoDrop(s, id)
    case Work(i) => DoWork(w, s, i)
  }

  // ----- Runs -----

  predicate Candidate(q: Quest) {
    q.status == Pending || q.status == Failed
  }

  function Init(b: Keys): State {
    State(
      Shared(b, set id | id in b && b[id].status == Done, set id | id in b && b[id].status == Cancelled),
      map id | id in b && Candidate(b[id]) :: b[id],
      Head)
  }

  /** The state after a run, if every label is enabled where it is taken. */
  function Run(w: World, s: State, labels: seq<Label>): Option<State>
    decreases |labels|
  {
    if labels == [] then Some(s)
    else if !Enabled(s, labels[0]) then None
    else Run(w, Do(w, s, labels[0]), labels[1..])
  }

  lemma {:induction false} RunConcat(w: World, s: State, a: seq<Label>, b: seq<Label>)
    requires Run(w, s, a).Some?
    ensures Run(w, s, a + b) == Run(w, Run(w, s, a).value, b)
    decreases |a|
  {
    if a == [] {
      assert a + b == b;
    } else {
      assert (a + b)[1..] == a[1..] + b;
      RunConcat(w, Do(w, s, a[0]), a[1..], b);
    }
  }
}
