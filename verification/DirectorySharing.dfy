/** When two interleaved requests can be handed the same safe. */
module DirectorySharing {
  import opened Common
  import opened Directory
  import opened DirectoryRace

  predicate Stale(limits: seq<Limit>, r: Request) {
    var i := Find(limits, r.ip, r.phone);
    i >= 0 && r.now - limits[i].last >= TEN_MINUTES
  }

  /** The counters as a request that finds its own ten minutes old leaves them, time stamps aside. */
  function Clear(limits: seq<Limit>, r: Request): (c: seq<Limit>)
    ensures |c| == |limits|
  {
    if Stale(limits, r) then limits[Find(limits, r.ip, r.phone) := limits[Find(limits, r.ip, r.phone)].(attempts := 0)]
    else limits
  }

  function Cleared(limits: seq<Limit>, a: Request, b: Request): (c: seq<Limit>)
    ensures |c| == |limits|
  {
    Clear(Clear(limits, a), b)
  }

  /** With the given counters the request is neither refused nor locked down. */
  predicate Admitted(limits: seq<Limit>, r: Request) {
    !Refused(limits, r) && GlobalAttempts(limits, r.phone, r.now) < LOCKDOWN
  }

  /**
   Both ask for the same phone and time, there is a safe for it, and once stale counters are
   cleared neither is refused and the phone is not locked down for either.
   */
  predicate CanShare(s: State, a: Request, b: Request) {
    && a.phone == b.phone && a.time == b.time && Newest(s.safes, a.phone, a.time) >= 0
    && Admitted(Cleared(s.limits, a, b), a) && Admitted(Cleared(s.limits, a, b), b)
  }

  /** Both are answered with the safe of one id. */
  predicate SameSafe(p: Pair) {
    p.stageA.Answered? && p.stageA.response.Real? && p.stageB.Answered? && p.stageB.response.Real?
    && p.stageA.response.id == p.stageB.response.id
  }

  function Start(s: State): Pair {
    Pair(s, Checking, Checking)
  }

  /** Where a schedule leads: true lets a run its next statement, false lets b. */
  function End(s: State, a: Request, b: Request, turns: seq<bool>): Pair {
    Turns(Start(s), a, b, turns)
  }

  /** No time stamp lies in the request's future. */
  ghost predicate StampsPast(limits: seq<Limit>, r: Request) {
    forall i :: 0 <= i < |limits| ==> limits[i].last <= Stored(r.now)
  }

  /** With a clock that does not run backwards, that is so after every run. */
  lemma {:induction false} RunsLeaveStampsPast(ops: seq<Op>, r: Request)
    requires Monotone(ops) && forall i :: 0 <= i < |ops| && ops[i].Lookup? ==> ops[i].r.now <= r.now
    ensures StampsPast(Run(ops).limits, r)
  {
    if ops != [] {
      var front, op := ops[..|ops| - 1], ops[|ops| - 1];
      RunsLeaveStampsPast(front, r);
      if op.Lookup? {
        assert Stored(op.r.now) <= Stored(r.now);
        ServeStamps(Run(front), op.r, Stored(r.now));
      }
    }
  }

  lemma ServeStamps(s: State, r: Request, bound: int)
    requires Stored(r.now) <= bound && forall i :: 0 <= i < |s.limits| ==> s.limits[i].last <= bound
    ensures forall i :: 0 <= i < |Serve(s, r).0.limits| ==> Serve(s, r).0.limits[i].last <= bound
  {
    hide Newest, GlobalAttempts, Stored, Refused, Consume, Remove;
  }

  // ----- What no schedule can undercut -----

  /** The counters are at least these, except where these are zero; no time stamp is older. */
  ghost predicate Above(least: seq<Limit>, limits: seq<Limit>) {
    && |least| <= |limits|
    && forall i :: 0 <= i < |least| ==>
         && limits[i].ip == least[i].ip && limits[i].phone == least[i].phone && limits[i].last >= least[i].last
         && (least[i].attempts == 0 || limits[i].attempts >= least[i].attempts)
  }

  lemma {:induction false} AboveCountsMore(least: seq<Limit>, limits: seq<Limit>, phone: string, now: int)
    requires Above(least, limits)
    ensures GlobalAttempts(least, phone, now) <= GlobalAttempts(limits, phone, now)
  {
    if least != [] {
      AboveCountsMore(least[1..], limits[1..], phone, now);
    }
  }

  lemma {:induction false} AboveFinds(least: seq<Limit>, limits: seq<Limit>, ip: string, phone: string)
    requires Above(least, limits)
    ensures var i, j := Find(least, ip, phone), Find(limits, ip, phone);
            if i >= 0 then j == i else j < 0 || j >= |least|
  {
  }

  /** Where the request's own counter is stale the least one is zero, and no stamp is in its future. */
  ghost predicate LeastFor(least: seq<Limit>, r: Request) {
    && StampsPast(least, r)
    && (Stale(least, r) ==> least[Find(least, r.ip, r.phone)].attempts == 0)
  }

  /** What a request that has come this far has passed. */
  predicate Passed(least: seq<Limit>, r: Request, stage: Stage) {
    match stage
    case Checking => true
    case Resetting => !Refused(least, r) && (Find(least, r.ip, r.phone) >= 0 ==> Stale(least, r))
    case Selecting => !Refused(least, r)
    case Summing(_) => !Refused(least, r)
    case Destroying(_) => true
    case Counting(found) => !Refused(least, r) && (found.Some? ==> Admitted(least, r))
    case Consuming(_) => Admitted(least, r)
    case Answered(response) => response.Real? ==> Admitted(least, r)
  }

  lemma ResetStaysAbove(least: seq<Limit>, limits: seq<Limit>, r: Request)
    requires Above(least, limits) && StampsPast(least, r)
    requires Find(least, r.ip, r.phone) >= 0 ==> least[Find(least, r.ip, r.phone)].attempts == 0
    ensures Above(least, Reset(limits, r.ip, r.phone, r.now))
  {
    AboveFinds(least, limits, r.ip, r.phone);
    hide Find;
  }

  lemma CountStaysAbove(least: seq<Limit>, limits: seq<Limit>, r: Request)
    requires Above(least, limits) && StampsPast(least, r)
    ensures Above(least, CountOne(limits, r.ip, r.phone, r.now))
  {
    AboveFinds(least, limits, r.ip, r.phone);
    hide Find;
  }

  lemma CheckPasses(least: seq<Limit>, s: State, r: Request)
    requires Above(least, s.limits) && LeastFor(least, r)
    ensures Passed(least, r, Statement(s, r, Checking).1)
  {
    AboveFinds(least, s.limits, r.ip, r.phone);
    hide Find, Newest, GlobalAttempts;
  }

  lemma StatementStaysAbove(least: seq<Limit>, s: State, r: Request, stage: Stage)
    requires !stage.Answered? && Above(least, s.limits) && LeastFor(least, r) && Passed(least, r, stage)
    ensures var (s', stage') := Statement(s, r, stage); Above(least, s'.limits) && Passed(least, r, stage')
  {
    match stage
    case Checking => CheckPasses(least, s, r);
    case Resetting =>
      hide Find, Reset;
      ResetStaysAbove(least, s.limits, r);
    case Summing(_) =>
      hide GlobalAttempts, Refused;
      AboveCountsMore(least, s.limits, r.phone, r.now);
    case Counting(_) =>
      hide CountOne, Refused, GlobalAttempts;
      CountStaysAbove(least, s.limits, r);
    case _ =>
      hide Refused, GlobalAttempts, Newest, RemoveId, ConsumeId;
  }

  // ----- Which safes are handed out -----

  function Held(stage: Stage): Option<int> {
    match stage
    case Summing(Some(safe)) => Some(safe.id)
    case Counting(Some(safe)) => Some(safe.id)
    case Consuming(safe) => Some(safe.id)
    case Answered(Real(id, _)) => Some(id)
    case _ => None
  }

  /** The safe the request would select if nobody interfered. */
  function Pick(s: State, r: Request): Option<int> {
    var i := Newest(s.safes, r.phone, r.time);
    if i < 0 then None else Some(s.safes[i].id)
  }

  /** The request has changed the safes. */
  predicate Done(stage: Stage) {
    stage.Answered? && (stage.response.Real? || stage.response.Locked?)
  }

  ghost predicate Gone(safes: seq<Safe>, id: int) {
    forall i :: 0 <= i < |safes| && safes[i].id == id ==> safes[i].consumed
  }

  /** One request's part: it holds what it would select undisturbed, unless the other was done before with another safe. */
  ghost predicate HoldsFairly(s0: State, s: State, r: Request, stage: Stage, other: Stage) {
    && (Held(stage).Some? ==>
          Held(stage) == Pick(s0, r) || (Done(other) && Held(other) != Held(stage)))
    && (stage.Answered? && stage.response.Real? ==> Gone(s.safes, stage.response.id))
  }

  ghost predicate Fair(s0: State, p: Pair, a: Request, b: Request) {
    && (!Done(p.stageA) && !Done(p.stageB) ==> p.s.safes == s0.safes)
    && HoldsFairly(s0, p.s, a, p.stageA, p.stageB)
    && HoldsFairly(s0, p.s, b, p.stageB, p.stageA)
  }

  lemma {:induction false} ConsumeIdLeaves(safes: seq<Safe>, id: int, other: int)
    ensures Gone(ConsumeId(safes, id), id)
    ensures Gone(safes, other) ==> Gone(ConsumeId(safes, id), other)
  {
    if safes != [] {
      ConsumeIdLeaves(safes[1..], id, other);
    }
  }

  lemma {:induction false} RemoveIdLeaves(safes: seq<Safe>, id: int, other: int)
    ensures Gone(safes, other) ==> Gone(RemoveId(safes, id), other)
  {
    if safes != [] {
      RemoveIdLeaves(safes[1..], id, other);
      if Gone(safes, other) {
        assert forall i :: 0 <= i < |safes[1..]| ==> safes[1..][i] == safes[i + 1];
      }
    }
  }

  /** What is gone is not selected. */
  lemma GoneIsNotNewest(safes: seq<Safe>, r: Request, id: int)
    requires Gone(safes, id)
    ensures var i := Newest(safes, r.phone, r.time); i >= 0 ==> safes[i].id != id
  {
  }

  lemma FairTurn(s0: State, p: Pair, a: Request, b: Request)
    requires Fair(s0, p, a, b)
    ensures Fair(s0, Turn(p, a, b, true), a, b)
  {
    hide Find, Refused, Reset, CountOne, GlobalAttempts, Newest, ConsumeId, RemoveId;
    var id := if Held(p.stageB).Some? then Held(p.stageB).value else 0;
    if Done(p.stageB) && Held(p.stageB).Some? {
      GoneIsNotNewest(p.s.safes, a, id);
    }
    match p.stageA
    case Consuming(safe) => ConsumeIdLeaves(p.s.safes, safe.id, id);
    case Destroying(other) => RemoveIdLeaves(p.s.safes, other, id);
    case _ =>
  }

  // ----- Both turns -----

  function Swap(p: Pair): Pair {
    Pair(p.s, p.stageB, p.stageA)
  }

  lemma Mirror(p: Pair, a: Request, b: Request, first: bool)
    ensures Turn(p, a, b, first) == Swap(Turn(Swap(p), b, a, !first))
  {
    hide Statement;
  }

  ghost predicate Tracked(s0: State, p: Pair, a: Request, b: Request) {
    var least := Cleared(s0.limits, a, b);
    && Above(least, p.s.limits) && Passed(least, a, p.stageA) && Passed(least, b, p.stageB)
    && Fair(s0, p, a, b)
  }

  lemma TrackedTurn(s0: State, p: Pair, a: Request, b: Request, first: bool)
    requires Tracked(s0, p, a, b)
    requires LeastFor(Cleared(s0.limits, a, b), a) && LeastFor(Cleared(s0.limits, a, b), b)
    ensures Tracked(s0, Turn(p, a, b, first), a, b)
  {
    var least := Cleared(s0.limits, a, b);
    if first && !p.stageA.Answered? {
      StatementStaysAbove(least, p.s, a, p.stageA);
    } else if !first && !p.stageB.Answered? {
      StatementStaysAbove(least, p.s, b, p.stageB);
    }
    if first {
      FairTurn(s0, p, a, b);
    } else {
      FairTurn(s0, Swap(p), b, a);
      Mirror(p, a, b, first);
    }
    hide Statement, Above, Passed, Cleared, Pick, Gone;
  }

  lemma {:induction false} TrackedTurns(s0: State, p: Pair, a: Request, b: Request, turns: seq<bool>)
    requires Tracked(s0, p, a, b)
    requires LeastFor(Cleared(s0.limits, a, b), a) && LeastFor(Cleared(s0.limits, a, b), b)
    ensures Tracked(s0, Turns(p, a, b, turns), a, b)
    decreases |turns|
  {
    hide Tracked, Turn, LeastFor, Cleared;
    if turns != [] {
      TrackedTurn(s0, p, a, b, turns[0]);
      TrackedTurns(s0, Turn(p, a, b, turns[0]), a, b, turns[1..]);
    }
  }

  lemma ClearKeeps(limits: seq<Limit>, r: Request, x: Request)
    ensures var c, i := Clear(limits, r), Find(limits, x.ip, x.phone);
            && Find(c, x.ip, x.phone) == i && Above(c, limits)
            && (Stale(c, x) <==> Stale(limits, x)) && (StampsPast(limits, x) ==> StampsPast(c, x))
            && (i >= 0 && limits[i].attempts == 0 ==> c[i].attempts == 0)
            && (x == r && Stale(limits, r) ==> c[i].attempts == 0)
  {
    SameKeysSameIndex(limits, Clear(limits, r), x.ip, x.phone);
    hide Find, Stored;
  }

  lemma ClearedIsLeast(limits: seq<Limit>, a: Request, b: Request)
    requires StampsPast(limits, a) && StampsPast(limits, b)
    ensures var least := Cleared(limits, a, b);
            Above(least, limits) && LeastFor(least, a) && LeastFor(least, b)
  {
    var once := Clear(limits, a);
    ClearKeeps(limits, a, a);
    ClearKeeps(limits, a, b);
    ClearKeeps(once, b, a);
    ClearKeeps(once, b, b);
    hide Find, Stored, Clear, StampsPast;
  }

  /** However the statements of two requests are interleaved, both get one safe only if the condition holds. */
  lemma OnlyIfCanShare(s: State, a: Request, b: Request, turns: seq<bool>)
    requires SafesOk(s) && StampsPast(s.limits, a) && StampsPast(s.limits, b)
    ensures SameSafe(End(s, a, b, turns)) ==> CanShare(s, a, b)
  {
    ClearedIsLeast(s.limits, a, b);
    TrackedTurns(s, Start(s), a, b, turns);
    hide Turns, Cleared, Above, LeastFor, GlobalAttempts, Refused, Newest, Gone;
  }

  // ----- A schedule that shares -----

  lemma {:induction false} TurnsConcat(p: Pair, a: Request, b: Request, x: seq<bool>, y: seq<bool>)
    ensures Turns(p, a, b, x + y) == Turns(Turns(p, a, b, x), a, b, y)
    decreases |x|
  {
    hide Turn;
    if x == [] {
      assert x + y == y;
    } else {
      assert (x + y)[1..] == x[1..] + y;
      TurnsConcat(Turn(p, a, b, x[0]), a, b, x[1..], y);
    }
  }

  function Flip(turns: seq<bool>): seq<bool> {
    if turns == [] then [] else [!turns[0]] + Flip(turns[1..])
  }

  lemma {:induction false} MirrorTurns(p: Pair, a: Request, b: Request, turns: seq<bool>)
    ensures Turns(p, a, b, Flip(turns)) == Swap(Turns(Swap(p), b, a, turns))
    decreases |turns|
  {
    hide Turn;
    if turns != [] {
      Mirror(p, a, b, !turns[0]);
      assert Flip(turns)[1..] == Flip(turns[1..]);
      MirrorTurns(Turn(p, a, b, !turns[0]), a, b, turns[1..]);
    }
  }

  /** The first request comes up to its selection. */
  lemma ToSelection(p: Pair, a: Request, b: Request) returns (turns: seq<bool>)
    requires p.stageA == Checking && !Refused(p.s.limits, a)
    ensures Turns(p, a, b, turns)
            == Pair(p.s.(limits := AfterReset(p.s.limits, a)), Selecting, p.stageB)
  {
    hide Find, Reset, Refused;
    if Stale(p.s.limits, a) {
      turns := [true, true];
      assert turns[1..] == [true] && turns[1..][1..] == [];
    } else {
      turns := [true];
      assert turns[1..] == [];
    }
  }

  /** Then the second one does. */
  lemma BothToSelection(s: State, a: Request, b: Request) returns (turns: seq<bool>)
    requires !Refused(s.limits, a) && !Refused(AfterReset(s.limits, a), b)
    ensures Turns(Start(s), a, b, turns)
            == Pair(s.(limits := AfterReset(AfterReset(s.limits, a), b)), Selecting, Selecting)
  {
    hide Turns, Refused, AfterReset, Flip, Find;
    var one := ToSelection(Start(s), a, b);
    var p := Turns(Start(s), a, b, one);
    var two := ToSelection(Swap(p), b, a);
    MirrorTurns(p, a, b, two);
    turns := one + Flip(two);
    TurnsConcat(Start(s), a, b, one, Flip(two));
  }

  /** From there both select, both sum, both count and both consume. */
  lemma SelectionToEnd(s: State, a: Request, b: Request) returns (turns: seq<bool>)
    requires a.phone == b.phone && a.time == b.time && Newest(s.safes, a.phone, a.time) >= 0
    requires GlobalAttempts(s.limits, a.phone, a.now) < LOCKDOWN && GlobalAttempts(s.limits, b.phone, b.now) < LOCKDOWN
    ensures SameSafe(Turns(Pair(s, Selecting, Selecting), a, b, turns))
  {
    hide Find, Reset, Refused, CountOne, GlobalAttempts, Newest, ConsumeId, RemoveId, Turns;
    var safe := s.safes[Newest(s.safes, a.phone, a.time)];
    var found, done := Some(safe), Answered(Real(safe.id, safe.secret));
    var p0 := Pair(s, Selecting, Selecting);
    var p1, p2 := Turn(p0, a, b, true), Pair(s, Summing(found), Summing(found));
    assert p1 == Pair(s, Summing(found), Selecting) && p2 == Turn(p1, a, b, false);
    var p3, p4 := Turn(p2, a, b, true), Pair(s, Counting(found), Counting(found));
    assert p3 == Pair(s, Counting(found), Summing(found)) && p4 == Turn(p3, a, b, false);
    var p5 := Turn(p4, a, b, true);
    var p6 := Turn(p5, a, b, false);
    assert p6.stageA == Consuming(safe) && p6.stageB == Consuming(safe);
    var p7 := Turn(p6, a, b, true);
    var p8 := Turn(p7, a, b, false);
    assert p8.stageA == done && p8.stageB == done;
    turns := [];
    turns := Before(p7, a, b, false, turns);
    turns := Before(p6, a, b, true, turns);
    turns := Before(p5, a, b, false, turns);
    turns := Before(p4, a, b, true, turns);
    turns := Before(p3, a, b, false, turns);
    turns := Before(p2, a, b, true, turns);
    turns := Before(p1, a, b, false, turns);
    turns := Before(p0, a, b, true, turns);
    NoTurns(p8, a, b);
  }

  lemma NoTurns(p: Pair, a: Request, b: Request)
    ensures Turns(p, a, b, []) == p
  {
  }

  lemma Before(p: Pair, a: Request, b: Request, first: bool, rest: seq<bool>) returns (turns: seq<bool>)
    ensures Turns(p, a, b, turns) == Turns(Turn(p, a, b, first), a, b, rest)
  {
    turns := [first] + rest;
    assert turns[1..] == rest;
    hide Turn;
  }

  /** The counters after both resets, up to time stamps of rows that are zero. */
  ghost predicate SameCounts(x: seq<Limit>, y: seq<Limit>) {
    && |x| == |y|
    && forall i :: 0 <= i < |x| ==>
         && x[i].ip == y[i].ip && x[i].phone == y[i].phone && x[i].attempts == y[i].attempts
         && (x[i].attempts > 0 ==> x[i] == y[i])
  }

  lemma {:induction false} SameCountsSameSum(x: seq<Limit>, y: seq<Limit>, phone: string, now: int)
    requires SameCounts(x, y)
    ensures GlobalAttempts(x, phone, now) == GlobalAttempts(y, phone, now)
  {
    if x != [] {
      SameCountsSameSum(x[1..], y[1..], phone, now);
    }
  }

  lemma ResetsClear(limits: seq<Limit>, a: Request, b: Request)
    ensures SameCounts(AfterReset(AfterReset(limits, a), b), Cleared(limits, a, b))
  {
    var once, clear := AfterReset(limits, a), Clear(limits, a);
    SameKeysSameIndex(limits, once, b.ip, b.phone);
    SameKeysSameIndex(limits, clear, b.ip, b.phone);
    hide Find, Stored;
  }

  /** A request that is not refused once stale counters are cleared is not refused at the start, or the other clears its counter. */
  lemma OneIsAdmittedFirst(limits: seq<Limit>, a: Request, b: Request)
    requires !Refused(Cleared(limits, a, b), a) && !Refused(Cleared(limits, a, b), b)
    ensures (!Refused(limits, a) && !Refused(AfterReset(limits, a), b))
            || (!Refused(limits, b) && !Refused(AfterReset(limits, b), a))
  {
    hide Find, Stored, GlobalAttempts, Clear, AfterReset;
    ClearRow(limits, a, a);
    ClearRow(limits, a, b);
    ClearRow(Clear(limits, a), b, a);
    ClearRow(Clear(limits, a), b, b);
    ClearKeeps(limits, a, b);
    ResetRow(limits, a, b.ip, b.phone);
    ResetRow(limits, b, a.ip, a.phone);
  }

  lemma ClearRow(limits: seq<Limit>, r: Request, x: Request)
    ensures var c, i := Clear(limits, r), Find(limits, x.ip, x.phone);
            && Find(c, x.ip, x.phone) == i
            && (i >= 0 ==> c[i] == if x.ip == r.ip && x.phone == r.phone && Stale(limits, r)
                                   then limits[i].(attempts := 0) else limits[i])
  {
    SameKeysSameIndex(limits, Clear(limits, r), x.ip, x.phone);
    hide Find;
  }

  lemma ClearingCommutes(limits: seq<Limit>, a: Request, b: Request)
    ensures Cleared(limits, a, b) == Cleared(limits, b, a)
  {
    ClearKeeps(limits, a, b);
    ClearKeeps(limits, b, a);
    hide Find;
  }

  lemma ScheduleFirst(s: State, a: Request, b: Request) returns (turns: seq<bool>)
    requires CanShare(s, a, b) && !Refused(s.limits, a) && !Refused(AfterReset(s.limits, a), b)
    ensures SameSafe(End(s, a, b, turns))
  {
    var limits := AfterReset(AfterReset(s.limits, a), b);
    ResetsClear(s.limits, a, b);
    SameCountsSameSum(limits, Cleared(s.limits, a, b), a.phone, a.now);
    SameCountsSameSum(limits, Cleared(s.limits, a, b), b.phone, b.now);
    hide Find, Newest, GlobalAttempts, Refused, AfterReset, Cleared, Turns, SameSafe, Start;
    var start := BothToSelection(s, a, b);
    var rest := SelectionToEnd(s.(limits := limits), a, b);
    turns := start + rest;
    TurnsConcat(Start(s), a, b, start, rest);
  }

  lemma Schedule(s: State, a: Request, b: Request) returns (turns: seq<bool>)
    requires CanShare(s, a, b)
    ensures SameSafe(End(s, a, b, turns))
  {
    OneIsAdmittedFirst(s.limits, a, b);
    if !Refused(s.limits, a) && !Refused(AfterReset(s.limits, a), b) {
      turns := ScheduleFirst(s, a, b);
    } else {
      ClearingCommutes(s.limits, a, b);
      var mirrored := ScheduleFirst(s, b, a);
      MirrorTurns(Start(s), a, b, mirrored);
      turns := Flip(mirrored);
    }
  }

  /**
   Two requests can be interleaved so that both are handed the same safe exactly if they ask for
   the same phone and time, there is a safe for it, and, stale counters cleared, neither is
   refused and the phone is not locked down for either.
   */
  lemma SharedIffBothAdmitted(s: State, a: Request, b: Request)
    requires SafesOk(s) && StampsPast(s.limits, a) && StampsPast(s.limits, b)
    ensures (exists turns :: SameSafe(End(s, a, b, turns))) <==> CanShare(s, a, b)
  {
    hide CanShare, SameSafe, End, SafesOk, StampsPast;
    if CanShare(s, a, b) {
      var turns := Schedule(s, a, b);
    }
    if turns :| SameSafe(End(s, a, b, turns)) {
      OnlyIfCanShare(s, a, b, turns);
    }
  }

  /** The condition is met in plain circumstances: one safe, nobody counted yet, two addresses. */
  lemma InterleavedRequestsShareASafe()
    ensures exists s: State, a: Request, b: Request, turns: seq<bool> ::
              SafesOk(s) && a.ip != b.ip && SameSafe(End(s, a, b, turns))
  {
    var safe := Safe(1, "p", "t", 7, false, 0);
    var s := State([], [safe], 2);
    var a, b := Request(0, "x", "p", "t"), Request(0, "y", "p", "t");
    assert Newest([safe], "p", "t") == 0;
    assert SafesOk(s) && CanShare(s, a, b);
    var turns := Schedule(s, a, b);
  }
}
