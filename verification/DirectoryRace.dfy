/** The same lookup as separate database statements, alone and interleaved with another request. */
module DirectoryRace {
  import opened Common
  import opened Directory

  datatype Stage =
    | Checking
    | Resetting
    | Selecting
    | Summing(found: Option<Safe>)
    | Destroying(id: int)
    | Counting(found: Option<Safe>)
    | Consuming(safe: Safe)
    | Answered(response: Response)

  function RemoveId(safes: seq<Safe>, id: int): seq<Safe> {
    if safes == [] then []
    else (if safes[0].id == id then [] else [safes[0]]) + RemoveId(safes[1..], id)
  }

  function ConsumeId(safes: seq<Safe>, id: int): seq<Safe> {
    if safes == [] then []
    else [if safes[0].id == id then safes[0].(consumed := true) else safes[0]] + ConsumeId(safes[1..], id)
  }

  /** One statement of a request. */
  function Statement(s: State, r: Request, stage: Stage): (State, Stage)
    requires !stage.Answered?
  {
    match stage
    case Checking =>
      var i := Find(s.limits, r.ip, r.phone);
      if Refused(s.limits, r) then (s, Answered(TooMany))
      else if i >= 0 && r.now - s.limits[i].last >= TEN_MINUTES then (s, Resetting)
      else (s, Selecting)
    case Resetting => (s.(limits := Reset(s.limits, r.ip, r.phone, r.now)), Selecting)
    case Selecting =>
      var i := Newest(s.safes, r.phone, r.time);
      (s, Summing(if i < 0 then None else Some(s.safes[i])))
    case Summing(found) =>
      if found.Some? && GlobalAttempts(s.limits, r.phone, r.now) >= LOCKDOWN then (s, Destroying(found.value.id))
      else (s, Counting(found))
    case Destroying(id) => (s.(safes := RemoveId(s.safes, id)), Answered(Locked))
    case Counting(found) =>
      (s.(limits := CountOne(s.limits, r.ip, r.phone, r.now)),
       if found.Some? then Consuming(found.value) else Answered(Fake))
    case Consuming(safe) =>
      (s.(safes := ConsumeId(s.safes, safe.id)), Answered(Real(safe.id, safe.secret)))
  }

  function Left(stage: Stage): nat {
    match stage
    case Checking => 6
    case Resetting => 5
    case Selecting => 4
    case Summing(_) => 3
    case Destroying(_) => 1
    case Counting(_) => 2
    case Consuming(_) => 1
    case Answered(_) => 0
  }

  /** The rest of a request without interruption. */
  function Finish(s: State, r: Request, stage: Stage): (State, Response)
    decreases Left(stage)
  {
    if stage.Answered? then (s, stage.response)
    else
      var (s', stage') := Statement(s, r, stage);
      Finish(s', r, stage')
  }

  ghost predicate DistinctIds(safes: seq<Safe>) {
    forall j, k :: 0 <= j < k < |safes| ==> safes[j].id != safes[k].id
  }

  lemma ByIdIsByPosition(safes: seq<Safe>, i: nat)
    requires i < |safes| && DistinctIds(safes)
    ensures RemoveId(safes, safes[i].id) == Remove(safes, i)
    ensures ConsumeId(safes, safes[i].id) == Consume(safes, i)
  {
    hide *;
    RemovesPosition(safes, i);
    ConsumesPosition(safes, i);
  }

  lemma {:induction false} RemovesPosition(safes: seq<Safe>, i: nat)
    requires i < |safes| && DistinctIds(safes)
    ensures RemoveId(safes, safes[i].id) == Remove(safes, i)
  {
    if i == 0 {
      Absent(safes[1..], safes[0].id);
      assert Remove(safes, 0) == safes[1..];
    } else {
      RemovesPosition(safes[1..], i - 1);
      assert Remove(safes, i) == [safes[0]] + Remove(safes[1..], i - 1);
    }
  }

  lemma {:induction false} ConsumesPosition(safes: seq<Safe>, i: nat)
    requires i < |safes| && DistinctIds(safes)
    ensures ConsumeId(safes, safes[i].id) == Consume(safes, i)
  {
    if i == 0 {
      Absent(safes[1..], safes[0].id);
      assert Consume(safes, 0) == [safes[0].(consumed := true)] + safes[1..];
    } else {
      ConsumesPosition(safes[1..], i - 1);
      assert Consume(safes, i) == [safes[0]] + Consume(safes[1..], i - 1);
    }
  }

  lemma {:induction false} Absent(safes: seq<Safe>, id: int)
    requires forall s | s in safes :: s.id != id
    ensures RemoveId(safes, id) == safes && ConsumeId(safes, id) == safes
  {
    if safes != [] {
      assert safes[0] in safes && forall s | s in safes[1..] :: s in safes;
      Absent(safes[1..], id);
    }
  }

  /** Uninterrupted, the statements are the atomic request. */
  lemma StatementsAreServe(s: State, r: Request)
    requires SafesOk(s)
    ensures Finish(s, r, Checking) == Serve(s, r)
  {
    if !Refused(s.limits, r) {
      var s1 := s.(limits := AfterReset(s.limits, r));
      assert Finish(s, r, Checking) == Finish(s1, r, Selecting);
      FromSelect(s1, r);
    }
  }

  lemma FromSelect(s: State, r: Request)
    requires SafesOk(s)
    ensures
      var i := Newest(s.safes, r.phone, r.time);
      var counted := CountOne(s.limits, r.ip, r.phone, r.now);
      Finish(s, r, Selecting) ==
        if i >= 0 && GlobalAttempts(s.limits, r.phone, r.now) >= LOCKDOWN then
          (s.(safes := Remove(s.safes, i)), Locked)
        else if i < 0 then (s.(limits := counted), Fake)
        else (s.(limits := counted, safes := Consume(s.safes, i)), Real(s.safes[i].id, s.safes[i].secret))
  {
    hide Newest, GlobalAttempts, CountOne, Finish;
    var i := Newest(s.safes, r.phone, r.time);
    var found := if i < 0 then None else Some(s.safes[i]);
    Next(s, r, Selecting);
    Next(s, r, Summing(found));
    if i >= 0 && GlobalAttempts(s.limits, r.phone, r.now) >= LOCKDOWN {
      ByIdIsByPosition(s.safes, i);
      Next(s, r, Destroying(s.safes[i].id));
      Next(s.(safes := Remove(s.safes, i)), r, Answered(Locked));
    } else {
      FromCount(s, r, i);
    }
  }

  lemma FromCount(s: State, r: Request, i: int)
    requires SafesOk(s) && -1 <= i < |s.safes|
    ensures
      var counted := CountOne(s.limits, r.ip, r.phone, r.now);
      Finish(s, r, Counting(if i < 0 then None else Some(s.safes[i]))) ==
        if i < 0 then (s.(limits := counted), Fake)
        else (s.(limits := counted, safes := Consume(s.safes, i)), Real(s.safes[i].id, s.safes[i].secret))
  {
    hide CountOne, Finish, Newest, GlobalAttempts, Refused, Find, Reset, RemoveId, ConsumeId, Consume, Remove, Opens;
    var s1 := s.(limits := CountOne(s.limits, r.ip, r.phone, r.now));
    Next(s, r, Counting(if i < 0 then None else Some(s.safes[i])));
    if i < 0 {
      Next(s1, r, Answered(Fake));
    } else {
      ByIdIsByPosition(s.safes, i);
      Next(s1, r, Consuming(s.safes[i]));
      Next(s1.(safes := Consume(s.safes, i)), r, Answered(Real(s.safes[i].id, s.safes[i].secret)));
    }
  }

  lemma Next(s: State, r: Request, stage: Stage)
    ensures stage.Answered? ==> Finish(s, r, stage) == (s, stage.response)
    ensures !stage.Answered? ==> Finish(s, r, stage) == Finish(Statement(s, r, stage).0, r, Statement(s, r, stage).1)
  {
  }

  // ----- Two requests at once -----

  /** Two requests that share the database. */
  datatype Pair = Pair(s: State, stageA: Stage, stageB: Stage)

  /** One of them runs its next statement. */
  function Turn(p: Pair, a: Request, b: Request, first: bool): Pair {
    if first then
      if p.stageA.Answered? then p
      else var (s, stage) := Statement(p.s, a, p.stageA); Pair(s, stage, p.stageB)
    else
      if p.stageB.Answered? then p
      else var (s, stage) := Statement(p.s, b, p.stageB); Pair(s, p.stageA, stage)
  }

  function Turns(p: Pair, a: Request, b: Request, turns: seq<bool>): Pair
    decreases |turns|
  {
    if turns == [] then p else Turns(Turn(p, a, b, turns[0]), a, b, turns[1..])
  }
}
