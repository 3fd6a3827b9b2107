/** Putting a wired plan on the board, and what that guarantees about references. */
module PlannedBoard {
  import opened Common
  import opened Board
  import opened Scheduler
  import opened LeastFixpoint
  import opened SchedulerInvariant
  import opened WorkerInvariant
  import opened SchedulerTheorems
  import opened Planner
  import opened Selections

  /** The ids of a quest's dependencies, on a board that already held `k` quests. */
  function DepIds(k: nat, deps: seq<int>, n: nat): seq<string> {
    if deps == [] then []
    else (if 1 <= deps[0] <= n then [QuestId(k + deps[0])] else []) + DepIds(k, deps[1..], n)
  }

  lemma {:induction false} DepIdsAppend(k: nat, deps: seq<int>, d: int, n: nat)
    ensures DepIds(k, deps + [d], n) == DepIds(k, deps, n) + if 1 <= d <= n then [QuestId(k + d)] else []
  {
    if deps != [] {
      assert (deps + [d])[1..] == deps[1..] + [d];
      DepIdsAppend(k, deps[1..], d, n);
    }
  }

  lemma {:induction false} DepIdsMember(k: nat, deps: seq<int>, n: nat, d: int)
    requires 1 <= d <= n
    ensures QuestId(k + d) in DepIds(k, deps, n) <==> d in deps
  {
    if deps != [] {
      DepIdsMember(k, deps[1..], n, d);
      if 1 <= deps[0] <= n {
        QuestIdInjective(k + d, k + deps[0]);
      }
    }
  }

  predicate Positive(deps: seq<int>) {
    forall i :: 0 <= i < |deps| ==> deps[i] >= 1
  }

  function Ids(k: nat, deps: seq<int>): seq<string>
    requires Positive(deps)
  {
    seq(|deps|, i requires 0 <= i < |deps| => QuestId(k + deps[i]))
  }

  /** The ids of the dependencies that are numbers of the plan, in their order. */
  ghost predicate IdsOfDeps(k: nat, deps: seq<int>, n: nat, ids: seq<string>) {
    exists own: seq<int> :: Selects(own, deps, Within(n)) && Positive(own) && ids == Ids(k, own)
  }

  lemma {:induction false} DepIdsMean(k: nat, deps: seq<int>, n: nat)
    ensures IdsOfDeps(k, deps, n, DepIds(k, deps, n))
  {
    hide Selects, QuestId;
    if deps == [] {
      SelectsNone(Within(n));
      assert Ids(k, []) == [];
    } else {
      var front, last := deps[..|deps| - 1], deps[|deps| - 1];
      DepIdsMean(k, front, n);
      var own: seq<int> :| Selects(own, front, Within(n)) && Positive(own) && DepIds(k, front, n) == Ids(k, own);
      SelectsNext(own, front, last, Within(n));
      DepIdsAppend(k, front, last, n);
      assert deps == front + [last];
      IdsNext(k, own, last, n);
    }
  }

  lemma IdsNext(k: nat, own: seq<int>, last: int, n: nat)
    requires Positive(own)
    ensures var more := own + if Within(n)(last) then [last] else [];
            Positive(more) && Ids(k, more) == Ids(k, own) + if 1 <= last <= n then [QuestId(k + last)] else []
  {
    hide QuestId;
    assert Ids(k, own) + [] == Ids(k, own);
  }

  /** The board with a plan behind what it held: every planned quest, pending, with its dependencies as ids. */
  ghost predicate PlanAdded(m: Mission, karaka: string, plan: seq<Planned>, m': Mission) {
    var k := |m.quests|;
    && m' == m.(quests := m'.quests, status := Active)
    && |m'.quests| == k + |plan| && m'.quests[..k] == m.quests
    && forall i :: 0 <= i < |plan| ==>
         var q := m'.quests[k + i];
         && q == Quest(QuestId(k + i + 1), plan[i].title, karaka, plan[i].tool, plan[i].params, q.dependsOn, Pending, "", 30,
                       None, "", None)
         && IdsOfDeps(k, plan[i].dependsOn, |plan|, q.dependsOn)
  }

  lemma PlantingMeans(m: Mission, karaka: string, plan: seq<Planned>)
    ensures PlanAdded(m, karaka, plan, Planted(m, karaka, plan))
  {
    hide Fresh, DepIds, IdsOfDeps, QuestId;
    var k, n := |m.quests|, |plan|;
    FreshLength(k, karaka, plan, n, n);
    forall i | 0 <= i < n
      ensures Fresh(k, karaka, plan, n, n)[i] == NewQuest(k, karaka, plan, i, DepIds(k, plan[i].dependsOn, n))
      ensures IdsOfDeps(k, plan[i].dependsOn, n, DepIds(k, plan[i].dependsOn, n))
    {
      FreshAt(k, karaka, plan, n, n, i);
      DepIdsMean(k, plan[i].dependsOn, n);
    }
  }

  function NewQuest(k: nat, karaka: string, plan: seq<Planned>, i: nat, deps: seq<string>): Quest
    requires i < |plan|
  {
    Quest(QuestId(k + i + 1), plan[i].title, karaka, plan[i].tool, plan[i].params, deps, Pending, "", 30, None, "", None)
  }

  /** The plan's quests as they end up on the board; the first `wired` have their dependencies. */
  function Fresh(k: nat, karaka: string, plan: seq<Planned>, wired: nat, n: nat): seq<Quest>
    requires wired <= n <= |plan|
  {
    seq(n, i requires 0 <= i < n =>
      NewQuest(k, karaka, plan, i, if i < wired then DepIds(k, plan[i].dependsOn, |plan|) else []))
  }

  function Planted(m: Mission, karaka: string, plan: seq<Planned>): Mission {
    m.(quests := m.quests + Fresh(|m.quests|, karaka, plan, |plan|, |plan|), status := Active)
  }

  predicate Titled(plan: seq<Planned>) {
    forall p | p in plan :: p.title != ""
  }

  /** The two loops that add the quests and then translate plan positions into quest ids. */
  method Populate(m0: Mission, karaka: string, plan: seq<Planned>) returns (m: Mission)
    requires Numbered(m0.quests) && m0.status != MissionCancelled && Titled(plan)
    ensures m == Planted(m0, karaka, plan) && PlanAdded(m0, karaka, plan, m)
  {
    PlantingMeans(m0, karaka, plan);
    hide *;
    var ids;
    m, ids := AddAll(m0, karaka, plan);
    ghost var k := |m0.quests|;
    var i := 0;
    while i < |plan|
      invariant 0 <= i <= |plan|
      invariant m == m0.(quests := m0.quests + Fresh(k, karaka, plan, i, |plan|))
    {
      WireNext(m0, karaka, plan, i);
      var deps := TranslateDeps(k, plan[i].dependsOn, ids);
      if |plan[i].dependsOn| != 0 {
        PlantedIndex(m0, karaka, plan, i);
        var j := IndexOf(m.quests, ids[i]);
        m := m.(quests := m.quests[j := m.quests[j].(dependsOn := deps)]);
      }
      i := i + 1;
    }
    m := m.(status := Active);
    PlantedIs(m0, karaka, plan);
  }

  lemma PlantedIs(m0: Mission, karaka: string, plan: seq<Planned>)
    ensures Planted(m0, karaka, plan)
            == m0.(quests := m0.quests + Fresh(|m0.quests|, karaka, plan, |plan|, |plan|), status := Active)
  {
  }

  /** Writing one quest's dependencies. */
  lemma WireNext(m0: Mission, karaka: string, plan: seq<Planned>, i: nat)
    requires i < |plan|
    ensures
      var k := |m0.quests|;
      var now := m0.quests + Fresh(k, karaka, plan, i, |plan|);
      var next := m0.quests + Fresh(k, karaka, plan, i + 1, |plan|);
      && |now| == k + |plan|
      && next == now[k + i := now[k + i].(dependsOn := DepIds(k, plan[i].dependsOn, |plan|))]
      && (plan[i].dependsOn == [] ==> next == now)
  {
    var k := |m0.quests|;
    var now, next := Fresh(k, karaka, plan, i, |plan|), Fresh(k, karaka, plan, i + 1, |plan|);
    assert next == now[i := now[i].(dependsOn := DepIds(k, plan[i].dependsOn, |plan|))];
    assert plan[i].dependsOn == [] ==> next == now;
  }

  method AddAll(m0: Mission, karaka: string, plan: seq<Planned>) returns (m: Mission, ids: seq<string>)
    requires m0.status != MissionCancelled && Titled(plan)
    ensures m == m0.(quests := m0.quests + Fresh(|m0.quests|, karaka, plan, 0, |plan|))
    ensures |ids| == |plan| && forall i :: 0 <= i < |ids| ==> ids[i] == QuestId(|m0.quests| + i + 1)
  {
    m, ids := m0, [];
    var i := 0;
    while i < |plan|
      invariant 0 <= i <= |plan|
      invariant m == m0.(quests := m0.quests + Fresh(|m0.quests|, karaka, plan, 0, i))
      invariant |ids| == i && forall j :: 0 <= j < i ==> ids[j] == QuestId(|m0.quests| + j + 1)
    {
      var added := Added(m, plan[i].title, karaka, plan[i].tool, plan[i].params, [], 30);
      assert plan[i] in plan;
      m := added.value;
      ids := ids + [m.quests[|m.quests| - 1].id];
      assert m.quests == m0.quests + Fresh(|m0.quests|, karaka, plan, 0, i + 1);
      i := i + 1;
    }
  }

  method TranslateDeps(ghost k: nat, deps: seq<int>, ids: seq<string>) returns (r: seq<string>)
    requires forall i :: 0 <= i < |ids| ==> ids[i] == QuestId(k + i + 1)
    ensures r == DepIds(k, deps, |ids|)
  {
    r := [];
    var i := 0;
    while i < |deps|
      invariant 0 <= i <= |deps|
      invariant r == DepIds(k, deps[..i], |ids|)
    {
      DepIdsAppend(k, deps[..i], deps[i], |ids|);
      assert deps[..i] + [deps[i]] == deps[..i + 1];
      if 1 <= deps[i] && deps[i] - 1 < |ids| {
        r := r + [ids[deps[i] - 1]];
      }
      i := i + 1;
    }
    assert deps[..i] == deps;
  }

  lemma FreshAt(k: nat, karaka: string, plan: seq<Planned>, wired: nat, n: nat, j: nat)
    requires wired <= n <= |plan| && j < n
    ensures |Fresh(k, karaka, plan, wired, n)| == n
    ensures Fresh(k, karaka, plan, wired, n)[j]
            == NewQuest(k, karaka, plan, j, if j < wired then DepIds(k, plan[j].dependsOn, |plan|) else [])
  {
  }

  lemma FreshLength(k: nat, karaka: string, plan: seq<Planned>, wired: nat, n: nat)
    requires wired <= n <= |plan|
    ensures |Fresh(k, karaka, plan, wired, n)| == n
  {
  }

  lemma PlantedIndex(m0: Mission, karaka: string, plan: seq<Planned>, i: nat)
    requires Numbered(m0.quests) && i < |plan|
    ensures IndexOf(m0.quests + Fresh(|m0.quests|, karaka, plan, i, |plan|), QuestId(|m0.quests| + i + 1))
            == |m0.quests| + i
  {
    var n := |m0.quests|;
    var qs := m0.quests + Fresh(n, karaka, plan, i, |plan|);
    forall j | n <= j < |qs| ensures qs[j].id == QuestId(j + 1) {
      FreshAt(n, karaka, plan, i, |plan|, j - n);
    }
    hide Fresh;
    NumberedIndex(qs, |m0.quests| + i);
  }

  lemma NumberedIndex(qs: seq<Quest>, i: nat)
    requires Numbered(qs) && i < |qs|
    ensures IndexOf(qs, QuestId(i + 1)) == i
  {
    hide IndexOf;
    var j := IndexOf(qs, QuestId(i + 1));
    assert qs[i].id == QuestId(i + 1);
    if j >= 0 {
      assert qs[j].id == QuestId(j + 1);
      QuestIdInjective(i + 1, j + 1);
    }
  }

  // ----- References -----

  /** `plan` is `raw` after wiring. */
  ghost predicate Wired(raw: seq<Planned>, plan: seq<Planned>) {
    |raw| == |plan| && forall i :: 0 <= i < |plan| ==> WiredTo(raw[i], plan[i], i, |plan|)
  }

  /** Some parameter contains the reference `{{q<digits>.result<path>}}`. */
  ghost predicate Refers(params: Params, digits: string, path: seq<string>) {
    exists k, i ::
      k in params && params[k].Tokens? && 0 <= i < |params[k].tokens| && params[k].tokens[i] == Ref(digits, path)
  }

  /** The reference is to another quest of a plan of n quests. */
  predicate RefersToOther(digits: string, n: nat, own: nat) {
    IsNumeral(digits) && NumberOf(digits) <= MAX_INT && 1 <= NumberOf(digits) <= n && NumberOf(digits) != own
  }

  lemma RefersMentions(params: Params, digits: string, path: seq<string>)
    requires Refers(params, digits, path) && IsNumeral(digits) && NumberOf(digits) <= MAX_INT
    ensures Mentions(params, NumberOf(digits))
  {
    var k, i :| k in params && params[k].Tokens? && 0 <= i < |params[k].tokens| && params[k].tokens[i] == Ref(digits, path);
    assert Mentioned(params[k].tokens[i]) == Some(NumberOf(digits));
  }

  lemma CanonicalNumeral(digits: string, n: nat)
    requires IsNumeral(digits) && NumberOf(digits) == n && n > 0
    ensures "q" + digits == QuestId(n) <==> digits[0] != '0'
  {
    if digits[0] != '0' {
      DigitsOfNumber(digits);
    }
    assert ("q" + digits)[1..] == digits && QuestId(n)[1..] == Digits(n);
  }

  lemma {:induction false} DigitsOfNumber(s: string)
    requires IsNumeral(s) && (|s| > 1 ==> s[0] != '0')
    ensures Digits(NumberOf(s)) == s
    ensures s[0] != '0' ==> NumberOf(s) > 0
  {
    var front, d := s[..|s| - 1], s[|s| - 1] as int - '0' as int;
    assert s == front + [s[|s| - 1]];
    if |s| == 1 {
      assert NumberOf(s) == 10 * NumberOf(front) + d == d;
    } else {
      DigitsOfNumber(front);
      assert NumberOf(s) / 10 == NumberOf(front) && NumberOf(s) % 10 == d;
    }
  }

  lemma QuestOfPlan(m0: Mission, karaka: string, plan: seq<Planned>, id: string) returns (i: nat)
    requires m0.quests == [] && id in Keyed(Planted(m0, karaka, plan))
    ensures i < |plan| && id == QuestId(i + 1)
    ensures Keyed(Planted(m0, karaka, plan))[id] == NewQuest(0, karaka, plan, i, DepIds(0, plan[i].dependsOn, |plan|))
  {
    hide IndexOf, DepIds, QuestId, Fresh;
    var quests := Planted(m0, karaka, plan).quests;
    assert quests == Fresh(0, karaka, plan, |plan|, |plan|);
    i := IndexOf(quests, id);
    FreshLength(0, karaka, plan, |plan|, |plan|);
    FreshAt(0, karaka, plan, |plan|, |plan|, i);
  }

  /**
   On a board that starts empty, whenever a worker is about to interpolate its quest's
   parameters, every quest they refer to is done on the board; and the reference's own
   spelling names that quest exactly if the number has no leading zero.
   */
  lemma ReferencesAreDone(
      w: World, m0: Mission, karaka: string, raw: seq<Planned>, plan: seq<Planned>, labels: seq<Label>, s: State,
      wk: Worker, own: nat, digits: string, path: seq<string>)
    requires m0.quests == [] && Wired(raw, plan)
    requires Reaches(w, Keyed(Planted(m0, karaka, plan)), labels, s)
    requires s.phase.Level? && wk in s.phase.workers && wk.place == Interpolating && wk.quest.id == QuestId(own)
    requires Refers(wk.quest.params, digits, path) && RefersToOther(digits, |plan|, own)
    ensures OnlyDigits(digits) && QuestId(NumberOf(digits)) in DoneIn(s.shared.board)
    ensures "q" + digits == QuestId(NumberOf(digits)) <==> digits[0] != '0'
  {
    hide *;
    var b0 := Keyed(Planted(m0, karaka, plan));
    ReachedInv(w, b0, labels, s);
    SafeAtEveryStep(w, b0, labels, s);
    SnapshotIsOriginal(w, b0, s, wk);
    ReferredIsDependency(m0, karaka, raw, plan, wk.quest.id, own, digits, path);
    SafeDependency(w, b0, s.shared.board, wk, QuestId(NumberOf(digits)));
  }

  lemma SafeDependency(w: World, b0: Keys, board: Keys, wk: Worker, d: string)
    requires Safe(w, b0, board, wk) && wk.quest == b0[wk.quest.id] && d in wk.quest.dependsOn
    ensures d in DoneIn(board)
  {
  }

  lemma ReferredIsDependency(
      m0: Mission, karaka: string, raw: seq<Planned>, plan: seq<Planned>, id: string, own: nat,
      digits: string, path: seq<string>)
    requires m0.quests == [] && Wired(raw, plan) && id in Keyed(Planted(m0, karaka, plan)) && id == QuestId(own)
    requires Refers(Keyed(Planted(m0, karaka, plan))[id].params, digits, path) && RefersToOther(digits, |plan|, own)
    ensures OnlyDigits(digits) && QuestId(NumberOf(digits)) in Keyed(Planted(m0, karaka, plan))[id].dependsOn
    ensures "q" + digits == QuestId(NumberOf(digits)) <==> digits[0] != '0'
  {
    hide Refers, Mentions, Planted;
    var i := QuestOfPlan(m0, karaka, plan, id);
    QuestIdInjective(own, i + 1);
    assert WiredTo(raw[i], plan[i], i, |plan|);
    RefersMentions(plan[i].params, digits, path);
    DepIdsMember(0, plan[i].dependsOn, |plan|, NumberOf(digits));
    CanonicalNumeral(digits, NumberOf(digits));
  }

  lemma SnapshotIsOriginal(w: World, b0: Keys, s: State, wk: Worker)
    requires Inv(w, b0, s) && s.phase.Level? && wk in s.phase.workers && wk.place == Interpolating
    ensures wk.quest.id in b0 && wk.quest == b0[wk.quest.id]
  {
    var i :| 0 <= i < |s.phase.workers| && s.phase.workers[i] == wk;
    assert WorkerOk(w, b0, s.shared, Least(w, b0), s.phase.workers[i]);
  }

  // ----- Replanning -----

  /** Every reference to another quest of the plan is covered by a dependency on the quest it names. */
  ghost predicate RefsAreDeps(k: nat, plan: seq<Planned>) {
    forall i, n | 0 <= i < |plan| && 1 <= n <= |plan| && n != i + 1 && Mentions(plan[i].params, n) ::
      QuestId(n) in DepIds(k, plan[i].dependsOn, |plan|)
  }

  /**
   Wiring speaks of positions in the plan, interpolation of quests on the board. The two
   agree for every plan exactly if the board was empty when the plan was added.
   */
  lemma WiringIsRightIffFirstPlan(k: nat)
    ensures (forall raw: seq<Planned>, plan: seq<Planned> :: Wired(raw, plan) ==> RefsAreDeps(k, plan)) <==> k == 0
  {
    if k == 0 {
      forall raw: seq<Planned>, plan: seq<Planned> | Wired(raw, plan) ensures RefsAreDeps(k, plan) {
        forall i, n | 0 <= i < |plan| && 1 <= n <= |plan| && n != i + 1 && Mentions(plan[i].params, n)
          ensures QuestId(n) in DepIds(k, plan[i].dependsOn, |plan|)
        {
          assert WiredTo(raw[i], plan[i], i, |plan|);
          DepIdsMember(0, plan[i].dependsOn, |plan|, n);
        }
      }
    } else {
      var raw, plan := SecondRound();
      WrongTarget(k, plan);
    }
  }

  /** Two quests; the second refers to the first. */
  lemma SecondRound() returns (raw: seq<Planned>, plan: seq<Planned>)
    ensures Wired(raw, plan) && |plan| == 2 && plan[1].dependsOn == [1] && Mentions(plan[1].params, 1)
  {
    var params := map["url" := Tokens([Ref("1", [])])];
    var a, b := Planned("fetch", "browser.fetch", map[], []), Planned("read", "browser.fetch", params, []);
    raw, plan := [a, b], [a, b.(dependsOn := [1])];
    assert NumberOf("1") == 1 by {
      assert "1"[..0] == "";
    }
    assert Mentioned(params["url"].tokens[0]) == Some(1);
    assert Mentions(params, 1);
    forall d | Mentions(params, d) ensures d == 1 {
      var k, i :| k in params && params[k].Tokens? && 0 <= i < |params[k].tokens| && d >= 0 &&
        Mentioned(params[k].tokens[i]) == Some(d);
    }
    assert WiredTo(raw[0], plan[0], 0, 2);
    assert WiredTo(raw[1], plan[1], 1, 2);
  }

  lemma WrongTarget(k: nat, plan: seq<Planned>)
    requires k > 0 && |plan| == 2 && plan[1].dependsOn == [1] && Mentions(plan[1].params, 1)
    ensures !RefsAreDeps(k, plan)
  {
    assert DepIds(k, [1], 2) == [QuestId(k + 1)] + DepIds(k, [1][1..], 2);
    QuestIdInjective(1, k + 1);
  }
}
