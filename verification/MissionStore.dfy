/**
 The mission store: the in-memory board table, its write-through copy in the database,
 the quest operations the HTTP handlers and the scheduler call, and hydration at boot.
 A change is made under the store's lock; the hook that saves the mission runs after the
 lock is released, so others may change the mission before the hook reads it and again
 before the row is written. What they do is a parameter of each operation.
 */
module MissionStore {
  import opened Common
  import opened Board

  /** A change to one mission, as a function; it must not rename the mission. */
  ghost predicate KeepsId(fn: Mission -> Result<Mission>) {
    forall m :: fn(m).Ok? ==> fn(m).value.id == m.id
  }

  /** What others do to the mission until the hook has read it, and from there until the row is written. */
  datatype Others = Others(seen: Mission -> Mission, later: Mission -> Mission) {
    ghost predicate KeepId() {
      forall m :: seen(m).id == m.id && later(m).id == m.id
    }

    function Both(m: Mission): Mission {
      later(seen(m))
    }
  }

  ghost predicate Quiet(f: Mission -> Mission) {
    forall m :: f(m) == m
  }

  // ----- What the operations mean for the board -----

  /** The quest filed under `id` has become `q`; no other quest has changed, nor has any been added. */
  ghost predicate OneChanged(quests: seq<Quest>, id: string, q: Quest, after: seq<Quest>) {
    && |after| == |quests| && exists i :: FirstWith(quests, id, i) && after == quests[i := q]
  }

  ghost predicate FirstWith(quests: seq<Quest>, id: string, i: int) {
    0 <= i < |quests| && quests[i].id == id && forall j | 0 <= j < i :: quests[j].id != id
  }

  /** A claim succeeds on an open mission, for a quest that is free or claimed, and for somebody. */
  ghost predicate Claimable(m: Mission, id: string, karaka: string) {
    && m.status != MissionDone && m.status != MissionCancelled && karaka != ""
    && id in Keyed(m) && (Keyed(m)[id].status == Pending || Keyed(m)[id].status == Claimed)
  }

  ghost predicate ClaimedBy(m: Mission, id: string, karaka: string, m': Mission)
    requires id in Keyed(m)
  {
    && m' == m.(quests := m'.quests)
    && OneChanged(m.quests, id, Keyed(m)[id].(claim := karaka, status := Claimed), m'.quests)
  }

  ghost predicate Waiting(m: Mission, id: string) {
    id in Keyed(m) && Keyed(m)[id].status == WaitingApproval
  }

  /** An approved quest is pending again and its mission awake; a rejected one is cancelled with the reason. */
  ghost predicate Decided(m: Mission, id: string, approve: bool, reason: string, m': Mission)
    requires id in Keyed(m)
  {
    var q := Keyed(m)[id];
    if approve then
      && m' == m.(quests := m'.quests, status := if m.status == MissionWaiting then Active else m.status)
      && OneChanged(m.quests, id, q.(status := Pending), m'.quests)
    else
      && m' == m.(quests := m'.quests)
      && OneChanged(m.quests, id,
                    q.(status := Cancelled,
                       error := if reason == "" then "rejected by human" else "rejected by human: " + reason),
                    m'.quests)
  }

  /** The quest as a reward leaves it. */
  ghost predicate RewardedQuest(q: Quest, verdict: Verdict, score: real, reason: string, q': Quest) {
    && q' == q.(reward := Some(Reward(verdict, score, reason)), status := q'.status)
    && q'.status ==
         if verdict == VerdictDone && (q.status == Running || q.status == Claimed || q.status == Pending) then Done
         else if verdict == VerdictFailed then Failed
         else q.status
  }

  /** The quest that follows one that needs more work: the same tool, waiting for the first. */
  ghost predicate FollowsUp(q: Quest, reason: string, n: nat, f: Quest) {
    && f.id == QuestId(n + 1) && f.status == Pending && f.dependsOn == [q.id]
    && f.tool == q.tool && f.organHint == q.organHint && f.eta == q.eta && f.params == map[]
    && f.claim == "" && f.result == None && f.error == "" && f.reward == None
    && (reason == "" ==> f.title == "Follow-up: " + q.title)
    && (reason != "" ==> exists short :: Shortens(reason, 60, short) && f.title == "Follow-up \U{2014} " + short)
  }

  /** A reward changes the one quest; a "needs more" verdict may put a follow-up behind the others. */
  ghost predicate Judged(m: Mission, id: string, verdict: Verdict, score: real, reason: string, autoAdd: bool, m': Mission)
    requires id in Keyed(m)
  {
    var q, n := Keyed(m)[id], |m.quests|;
    && m' == m.(quests := m'.quests)
    && n <= |m'.quests|
    && (exists q' :: RewardedQuest(q, verdict, score, reason, q') && OneChanged(m.quests, id, q', m'.quests[..n]))
    && if verdict == VerdictNeedsMore && autoAdd then |m'.quests| == n + 1 && FollowsUp(q, reason, n, m'.quests[n])
       else |m'.quests| == n
  }

  /** A run may start on a quest that is claimed or failed, with a tool its claimant is not denied. */
  ghost predicate Startable(m: Mission, id: string, permission: (string, string) -> Permission) {
    id in Keyed(m) &&
    var q := Keyed(m)[id];
    (q.status == Claimed || q.status == Failed) && q.tool != "" && q.claim != "" && permission(q.claim, q.tool) != Deny
  }

  /** The quest as a tool's outcome leaves it. */
  ghost predicate HasOutcome(q: Quest, outcome: Option<Value>, q': Quest) {
    match outcome
    case Some(_) => q' == q.(status := Done, error := "", result := outcome)
    case None =>
      q' == q.(status := Failed, error := "tool error", result := None,
               reward := Some(Reward(VerdictFailed, 0.0, "tool error")))
  }

  lemma FirstIsKeyed(m: Mission, id: string)
    requires id in Keyed(m)
    ensures FirstWith(m.quests, id, IndexOf(m.quests, id)) && m.quests[IndexOf(m.quests, id)] == Keyed(m)[id]
  {
  }

  /** One changed quest is one changed entry of the board. */
  lemma OneChangedKeyed(m: Mission, id: string, q: Quest, m': Mission)
    requires id in Keyed(m) && q.id == id && OneChanged(m.quests, id, q, m'.quests)
    ensures Keyed(m') == Keyed(m)[id := q]
  {
    var i :| FirstWith(m.quests, id, i) && m'.quests == m.quests[i := q];
    assert IndexOf(m.quests, id) == i;
    ReplaceKeyed(m, i, q);
    assert Keyed(m.(quests := m.quests[i := q])) == Keyed(m');
  }

  lemma ClaimMeans(m: Mission, id: string, karaka: string)
    ensures var r := ClaimedOn(m, id, karaka);
            (r.Ok? <==> Claimable(m, id, karaka)) && (r.Ok? ==> ClaimedBy(m, id, karaka, r.value))
  {
    if id in Keyed(m) {
      FirstIsKeyed(m, id);
    }
  }

  lemma DecisionMeans(m: Mission, id: string, approve: bool, reason: string)
    ensures var r := DecidedOn(m, id, approve, reason);
            && (r.Ok? <==> Waiting(m, id)) && (r.Ok? ==> Decided(m, id, approve, reason, r.value))
            && (r.Err? && id in Keyed(m) ==> r.error == "quest is not waiting for approval")
  {
    if id in Keyed(m) {
      FirstIsKeyed(m, id);
    }
  }

  lemma FollowUpFollows(q: Quest, reason: string, n: nat)
    ensures FollowsUp(q, reason, n, FollowUp(q, n, reason))
  {
    TruncatedShortens(reason, 60);
  }

  lemma RewardMeans(m: Mission, id: string, verdict: Verdict, score: real, reason: string, autoAdd: bool)
    ensures var r := RewardedOn(m, id, verdict, score, reason, autoAdd);
            && (r.Ok? <==> id in Keyed(m) && verdict != VerdictInvalid)
            && (r.Ok? ==> Judged(m, id, verdict, score, reason, autoAdd, r.value))
  {
    hide FollowUp, FollowsUp;
    if id in Keyed(m) && verdict != VerdictInvalid {
      FirstIsKeyed(m, id);
      FollowUpFollows(Keyed(m)[id], reason, |m.quests|);
      var i := IndexOf(m.quests, id);
      var q' := Rewarded(m.quests[i], verdict, score, reason);
      assert RewardedQuest(m.quests[i], verdict, score, reason, q');
      var r := RewardedOn(m, id, verdict, score, reason, autoAdd);
      assert r.value.quests[..|m.quests|] == m.quests[i := q'];
    }
  }

  lemma StartMeans(m: Mission, id: string, permission: (string, string) -> Permission)
    ensures var r := StartedOn(m, id, permission);
            && (r.Ok? <==> Startable(m, id, permission))
            && (r.Ok? ==> r.value == m.(quests := r.value.quests)
                          && OneChanged(m.quests, id, Keyed(m)[id].(status := Running), r.value.quests))
  {
    if id in Keyed(m) {
      FirstIsKeyed(m, id);
    }
  }

  lemma FinishMeans(m: Mission, id: string, outcome: Option<Value>)
    ensures var r := FinishedOn(m, id, outcome);
            && (r.Ok? <==> id in Keyed(m))
            && (r.Ok? ==> r.value == m.(quests := r.value.quests)
                          && exists q' :: HasOutcome(Keyed(m)[id], outcome, q') && OneChanged(m.quests, id, q', r.value.quests))
  {
    if id in Keyed(m) {
      FirstIsKeyed(m, id);
      assert HasOutcome(Keyed(m)[id], outcome, FinishRun(Keyed(m)[id], outcome));
    }
  }

  // ----- What the operations do to a mission -----

  function ClaimedOn(m: Mission, id: string, karaka: string): Result<Mission> {
    OnQuest(m, id, q => Claim(m.status, q, karaka))
  }

  function StartedOn(m: Mission, id: string, permission: (string, string) -> Permission): Result<Mission> {
    OnQuest(m, id, q => StartRun(q, permission))
  }

  function FinishedOn(m: Mission, id: string, outcome: Option<Value>): Result<Mission> {
    OnQuest(m, id, q => Ok(FinishRun(q, outcome)))
  }

  /** The two updates around the tool call, with what others do to the mission in between. */
  function RunQuestOn(
      m: Mission, id: string, permission: (string, string) -> Permission, tool: (string, Params) -> Option<Value>,
      meanwhile: Others)
    : Result<Mission>
  {
    match StartedOn(m, id, permission)
    case Err(e) => Err(e)
    case Ok(m') =>
      var q := m'.quests[IndexOf(m.quests, id)];
      FinishedOn(meanwhile.Both(m'), id, tool(q.tool, q.params))
  }

  /** Starting leaves the quest where it was. */
  lemma StartKeepsIndex(m: Mission, id: string, permission: (string, string) -> Permission)
    requires StartedOn(m, id, permission).Ok?
    ensures 0 <= IndexOf(m.quests, id) < |StartedOn(m, id, permission).value.quests|
    ensures IndexOf(StartedOn(m, id, permission).value.quests, id) == IndexOf(m.quests, id)
  {
    SameIdsSameIndex(m.quests, StartedOn(m, id, permission).value.quests, id);
  }

  /** The quest has been started from claimed or failed, and holds what its tool made of it. */
  ghost predicate Ran(
      m: Mission, id: string, permission: (string, string) -> Permission, tool: (string, Params) -> Option<Value>,
      m': Mission)
  {
    && Startable(m, id, permission) && id in Keyed(m')
    && var q, q' := Keyed(m)[id], Keyed(m')[id];
       && q'.result == tool(q.tool, q.params)
       && (q'.result.Some? ==> q'.status == Done && q'.error == "")
       && (q'.result.None? ==>
             q'.status == Failed && q'.error == "tool error" && q'.reward == Some(Reward(VerdictFailed, 0.0, "tool error")))
  }

  /** Whatever others do meanwhile, the run records what its tool made of the quest as it was started. */
  lemma RunRecordsItsOwnOutcome(
      m: Mission, id: string, permission: (string, string) -> Permission, tool: (string, Params) -> Option<Value>,
      meanwhile: Others)
    requires RunQuestOn(m, id, permission, tool, meanwhile).Ok?
    ensures Ran(m, id, permission, tool, RunQuestOn(m, id, permission, tool, meanwhile).value)
  {
    StartMeans(m, id, permission);
    var m' := StartedOn(m, id, permission).value;
    StartKeepsIndex(m, id, permission);
    FirstIsKeyed(m, id);
    var q := m'.quests[IndexOf(m.quests, id)];
    var now := meanwhile.Both(m');
    OnQuestKeyed(now, id, x => Ok(FinishRun(x, tool(q.tool, q.params))));
  }

  /** The human decision, which may also wake a waiting mission. */
  function DecidedOn(m: Mission, id: string, approve: bool, reason: string): Result<Mission> {
    match OnQuest(m, id, q => Decide(q, approve, reason))
    case Err(e) => Err(e)
    case Ok(m') => Ok(if approve && m.status == MissionWaiting then m'.(status := Active) else m')
  }

  class Store {
    var missions: map<string, Mission>
    var saved: map<string, Mission>
    var seqNo: nat

    /** Every mission and every row is filed under the mission's id. */
    ghost predicate Valid()
      reads this
    {
      && (forall id | id in missions :: missions[id].id == id)
      && (forall id | id in saved :: saved[id].id == id)
    }

    constructor ()
      ensures Valid() && missions == saved == map[]
    {
      missions, saved, seqNo := map[], map[], 0;
    }

    /** A relay that starts over an existing database. */
    constructor Boot(rows: map<string, Mission>)
      requires forall id | id in rows :: rows[id].id == id
      ensures Valid() && missions == map[] && saved == rows
    {
      missions, saved, seqNo := map[], rows, 0;
    }

    method GetMission(id: string) returns (r: Option<Mission>)
      ensures r.Some? <==> id in missions
      ensures r.Some? ==> r.value == missions[id]
    {
      if id in missions {
        r := Some(missions[id]);
      } else {
        r := None;
      }
    }

    /** After the lock: others change the mission, the hook reads it, others change it again, the row is written. */
    method WriteThrough(id: string, others: Others)
      requires Valid() && id in missions && others.KeepId()
      modifies this
      ensures Valid() && seqNo == old(seqNo)
      ensures saved == old(saved)[id := others.seen(old(missions)[id])]
      ensures missions == old(missions)[id := others.Both(old(missions)[id])]
      ensures Quiet(others.later) ==> saved[id] == missions[id]
    {
      var seen := others.seen(missions[id]);
      missions := missions[id := others.later(seen)];
      saved := saved[id := seen];
    }

    method SaveMission(m: Mission, others: Others)
      requires Valid() && others.KeepId()
      modifies this
      ensures Valid() && seqNo == old(seqNo)
      ensures missions == old(missions)[m.id := others.Both(m)] && saved == old(saved)[m.id := others.seen(m)]
      ensures old(saved == missions) && Quiet(others.later) ==> saved == missions
    {
      missions := missions[m.id := m];
      WriteThrough(m.id, others);
    }

    /** The row goes after the lock is released, even if the mission has been saved `again` by then. */
    method DeleteMission(id: string, again: Option<Mission>) returns (ok: bool)
      requires Valid() && (again.Some? ==> again.value.id == id)
      modifies this
      ensures Valid() && ok == (id in old(missions)) && seqNo == old(seqNo)
      ensures saved == if ok then old(saved) - {id} else old(saved)
      ensures missions == if ok && again.Some? then old(missions)[id := again.value] else old(missions) - {id}
      ensures old(saved == missions) ==> (saved == missions <==> !ok || again.None?)
    {
      ok := id in missions;
      if ok {
        missions := missions - {id};
        if again.Some? {
          missions := missions[id := again.value];
        }
        saved := saved - {id};
      }
      assert !ok ==> missions == missions - {id};
      assert ok && again.Some? ==> missions == old(missions)[id := again.value] && id in missions && id !in saved;
    }

    /** Apply a change under the lock, then write the mission through; an error changes nothing. */
    method UpdateMission(id: string, fn: Mission -> Result<Mission>, others: Others) returns (r: Result<Mission>)
      requires Valid() && KeepsId(fn) && others.KeepId()
      modifies this
      ensures Valid() && seqNo == old(seqNo)
      ensures r == if id in old(missions) then fn(old(missions)[id]) else Err("mission not found: " + id)
      ensures missions == if r.Ok? then old(missions)[id := others.Both(r.value)] else old(missions)
      ensures saved == if r.Ok? then old(saved)[id := others.seen(r.value)] else old(saved)
      ensures old(saved == missions) && Quiet(others.later) ==> saved == missions
    {
      if id !in missions {
        return Err("mission not found: " + id);
      }
      r := fn(missions[id]);
      if r.Ok? {
        missions := missions[id := r.value];
        WriteThrough(id, others);
      }
    }

    method ClaimQuest(id: string, qid: string, karaka: string, others: Others) returns (r: Result<Mission>)
      requires Valid() && others.KeepId()
      modifies this
      ensures Valid() && seqNo == old(seqNo)
      ensures r.Ok? <==> id in old(missions) && Claimable(old(missions)[id], qid, karaka)
      ensures r.Ok? ==> ClaimedBy(old(missions)[id], qid, karaka, r.value)
      ensures missions == if r.Ok? then old(missions)[id := others.Both(r.value)] else old(missions)
      ensures saved == if r.Ok? then old(saved)[id := others.seen(r.value)] else old(saved)
    {
      if id in missions {
        ClaimMeans(missions[id], qid, karaka);
      }
      hide Claimable, ClaimedBy, Quiet;
      r := UpdateMission(id, m => ClaimedOn(m, qid, karaka), others);
    }

    method StartQuest(id: string, qid: string, permission: (string, string) -> Permission, others: Others)
        returns (r: Result<Mission>)
      requires Valid() && others.KeepId()
      modifies this
      ensures Valid() && seqNo == old(seqNo)
      ensures id in old(missions) ==> r == StartedOn(old(missions)[id], qid, permission)
      ensures id !in old(missions) ==> r.Err?
      ensures missions == if r.Ok? then old(missions)[id := others.Both(r.value)] else old(missions)
      ensures saved == if r.Ok? then old(saved)[id := others.seen(r.value)] else old(saved)
    {
      r := UpdateMission(id, m => StartedOn(m, qid, permission), others);
    }

    method FinishQuest(id: string, qid: string, outcome: Option<Value>, others: Others) returns (r: Result<Mission>)
      requires Valid() && others.KeepId()
      modifies this
      ensures Valid() && seqNo == old(seqNo)
      ensures id in old(missions) ==> r == FinishedOn(old(missions)[id], qid, outcome)
      ensures id !in old(missions) ==> r.Err?
      ensures missions == if r.Ok? then old(missions)[id := others.Both(r.value)] else old(missions)
      ensures saved == if r.Ok? then old(saved)[id := others.seen(r.value)] else old(saved)
    {
      r := UpdateMission(id, m => FinishedOn(m, qid, outcome), others);
    }

    /**
     Two updates around the tool call, each written through. Others may change the mission around
     both; what they do while the tool runs is part of `first.later`.
     */
    method RunQuest(
        id: string, qid: string, permission: (string, string) -> Permission, tool: (string, Params) -> Option<Value>,
        first: Others, second: Others)
        returns (r: Result<Mission>)
      requires Valid() && first.KeepId() && second.KeepId()
      modifies this
      ensures Valid() && seqNo == old(seqNo)
      ensures id !in old(missions) ==> r.Err? && missions == old(missions) && saved == old(saved)
      ensures id in old(missions) ==>
                var started := StartedOn(old(missions)[id], qid, permission);
                && r == RunQuestOn(old(missions)[id], qid, permission, tool, first)
                && missions == (if r.Ok? then old(missions)[id := second.Both(r.value)]
                                else if started.Ok? then old(missions)[id := first.Both(started.value)]
                                else old(missions))
                && saved == (if r.Ok? then old(saved)[id := second.seen(r.value)]
                             else if started.Ok? then old(saved)[id := first.seen(started.value)]
                             else old(saved))
      ensures r.Ok? ==> Ran(old(missions)[id], qid, permission, tool, r.value)
    {
      hide StartedOn, FinishedOn, IndexOf, Quiet, Ran;
      if id in missions && RunQuestOn(missions[id], qid, permission, tool, first).Ok? {
        RunRecordsItsOwnOutcome(missions[id], qid, permission, tool, first);
      }
      r := StartQuest(id, qid, permission, first);
      if r.Ok? {
        StartKeepsIndex(old(missions)[id], qid, permission);
        var i := FindQuest(r.value.quests, qid);
        var q := r.value.quests[i];
        r := FinishQuest(id, qid, tool(q.tool, q.params), second);
      }
    }

    method ApplyReward(
        id: string, qid: string, verdict: Verdict, score: real, reason: string, autoAdd: bool, others: Others)
        returns (r: Result<Mission>)
      requires Valid() && others.KeepId()
      modifies this
      ensures Valid() && seqNo == old(seqNo)
      ensures r.Ok? <==> id in old(missions) && qid in Keyed(old(missions)[id]) && verdict != VerdictInvalid
      ensures r.Ok? ==> Judged(old(missions)[id], qid, verdict, score, reason, autoAdd, r.value)
      ensures missions == if r.Ok? then old(missions)[id := others.Both(r.value)] else old(missions)
      ensures saved == if r.Ok? then old(saved)[id := others.seen(r.value)] else old(saved)
    {
      if id in missions {
        RewardMeans(missions[id], qid, verdict, score, reason, autoAdd);
      }
      hide Judged, Keyed, Quiet;
      r := UpdateMission(id, (m: Mission) => RewardedOn(m, qid, verdict, score, reason, autoAdd), others);
    }

    method AddQuest(
        id: string, title: string, organHint: string, tool: string, params: Params, dependsOn: seq<string>, eta: int,
        others: Others)
        returns (r: Result<Mission>)
      requires Valid() && others.KeepId()
      modifies this
      ensures Valid() && seqNo == old(seqNo)
      ensures r.Ok? <==> id in old(missions) && old(missions)[id].status != MissionCancelled && title != ""
      ensures r.Ok? ==>
                var m := old(missions)[id];
                r.value == m.(quests := m.quests + [
                  Quest(QuestId(|m.quests| + 1), title, organHint, tool, params, dependsOn, Pending, "",
                        if eta > 0 then eta else 10, None, "", None)])
      ensures missions == if r.Ok? then old(missions)[id := others.Both(r.value)] else old(missions)
      ensures saved == if r.Ok? then old(saved)[id := others.seen(r.value)] else old(saved)
      ensures r.Ok? && Numbered(old(missions)[id].quests) ==> Numbered(r.value.quests) && UniqueIds(r.value.quests)
    {
      r := UpdateMission(id, (m: Mission) => Added(m, title, organHint, tool, params, dependsOn, eta), others);
      if r.Ok? && Numbered(old(missions)[id].quests) {
        AddingKeepsNumbering(old(missions)[id], title, organHint, tool, params, dependsOn, eta);
      }
    }

    method Approve(id: string, qid: string, approve: bool, reason: string, others: Others) returns (r: Result<Mission>)
      requires Valid() && others.KeepId()
      modifies this
      ensures Valid() && seqNo == old(seqNo)
      ensures r.Ok? <==> id in old(missions) && Waiting(old(missions)[id], qid)
      ensures r.Ok? ==> Decided(old(missions)[id], qid, approve, reason, r.value)
      ensures r.Err? && id in old(missions) && qid in Keyed(old(missions)[id]) ==>
                r.error == "quest is not waiting for approval"
      ensures missions == if r.Ok? then old(missions)[id := others.Both(r.value)] else old(missions)
      ensures saved == if r.Ok? then old(saved)[id := others.seen(r.value)] else old(saved)
    {
      if id in missions {
        DecisionMeans(missions[id], qid, approve, reason);
      }
      hide Waiting, Decided, Keyed, Quiet;
      r := UpdateMission(id, (m: Mission) => DecidedOn(m, qid, approve, reason), others);
    }

    /** Hydration: each row is recovered, saved again and loaded. */
    method LoadMissionsFromDB()
      requires Valid() && missions == map[]
      modifies this
      ensures Valid() && saved == missions
      ensures missions == map id | id in old(saved) :: Recover(old(saved)[id])
      ensures seqNo == |missions|
    {
      var list := RecoverRows(saved);
      saved := list;
      missions := list;
      seqNo := |missions|;
    }
  }

  /** The recovery loop over the rows, in whatever order the database returns them. */
  method RecoverRows(rows: map<string, Mission>) returns (list: map<string, Mission>)
    ensures list == map id | id in rows :: Recover(rows[id])
  {
    list := map[];
    var todo := rows.Keys;
    while todo != {}
      invariant todo <= rows.Keys && list.Keys == rows.Keys - todo
      invariant forall id | id in list :: list[id] == Recover(rows[id])
      decreases todo
    {
      hide Recover;
      var id :| id in todo;
      var m := RecoverRow(rows[id]);
      list := list[id := m];
      todo := todo - {id};
    }
  }

  /** One row: a mission that was mid-run is parked, any other is loaded as it is. */
  method RecoverRow(m0: Mission) returns (m: Mission)
    ensures m == Recover(m0)
    ensures m == if m0.status == Planning || m0.status == Active || m0.status == Synthesizing
                 then m0.(quests := m.quests, status := Interrupted, summary := m0.summary + INTERRUPTED_NOTE) else m0
    ensures MidRun(m0.status) ==> AllReset(m0.quests, m.quests)
  {
    m := m0;
    if m.status == Planning || m.status == Active || m.status == Synthesizing {
      var quests := ResetMidFlight(m.quests);
      m := m.(quests := quests, status := Interrupted, summary := m.summary + INTERRUPTED_NOTE);
    }
  }

  /** Running and claimed quests are pending again, without an error; the others are as they were. */
  ghost predicate AllReset(quests: seq<Quest>, after: seq<Quest>) {
    && |after| == |quests|
    && forall i :: 0 <= i < |quests| ==>
         after[i] == if quests[i].status == Running || quests[i].status == Claimed
                     then quests[i].(status := Pending, error := "") else quests[i]
  }

  /** The recovery loop over one mission's quests. */
  method ResetMidFlight(quests0: seq<Quest>) returns (quests: seq<Quest>)
    ensures quests == RecoverQuests(quests0) && AllReset(quests0, quests)
  {
    quests := quests0;
    var j := 0;
    while j < |quests|
      invariant 0 <= j <= |quests| == |quests0|
      invariant forall i :: 0 <= i < j ==> quests[i] == RecoverQuest(quests0[i])
      invariant forall i :: j <= i < |quests| ==> quests[i] == quests0[i]
    {
      if quests[j].status == Running || quests[j].status == Claimed {
        quests := quests[j := quests[j].(status := Pending, error := "")];
      }
      j := j + 1;
    }
  }

  method FindQuest(quests: seq<Quest>, id: string) returns (r: int)
    ensures r == IndexOf(quests, id)
  {
    hide IndexOf;
    var i := 0;
    while i < |quests|
      invariant 0 <= i <= |quests|
      invariant forall j :: 0 <= j < i ==> quests[j].id != id
    {
      if quests[i].id == id {
        return i;
      }
      i := i + 1;
    }
    return -1;
  }

  /** The number formatter behind quest ids: digits are written backwards into a 16-byte buffer. */
  method Itoa(n0: nat) returns (s: string)
    requires n0 < 10_000_000_000_000_000
    ensures s == Digits(n0)
  {
    if n0 == 0 {
      return "0";
    }
    SixteenDigits();
    var b := new char[16];
    var i, n := 16, n0;
    while n > 0
      invariant 0 <= i <= 16 && 0 <= n < PowerOfTen(i)
      invariant Digits(n0) == if n == 0 then b[i..] else Digits(n) + b[i..]
      decreases n
    {
      i := i - 1;
      b[i] := ('0' as int + n % 10) as char;
      assert b[i..] == [b[i]] + b[i + 1..];
      n := n / 10;
    }
    s := b[i..];
  }

  function PowerOfTen(i: nat): nat {
    if i == 0 then 1 else 10 * PowerOfTen(i - 1)
  }

  lemma SixteenDigits()
    ensures PowerOfTen(16) == 10_000_000_000_000_000
  {
    assert PowerOfTen(4) == 10_000;
    assert PowerOfTen(8) == 10_000 * PowerOfTen(4);
    assert PowerOfTen(12) == 10_000 * PowerOfTen(8);
    assert PowerOfTen(16) == 10_000 * PowerOfTen(12);
  }

  // ----- Which operations can take a quest out of done -----

  /** Claims and runs refuse a done quest, and of the rewards only a "failed" verdict changes it. */
  lemma OnlyAFailedVerdictUndoesDone(
      q: Quest, status: MissionStatus, karaka: string, permission: (string, string) -> Permission,
      verdict: Verdict, score: real, reason: string)
    requires q.status == Done
    ensures Claim(status, q, karaka).Err? && StartRun(q, permission).Err? && Decide(q, true, "").Err?
    ensures ResetFailed(q) == q && RecoverQuest(q) == q
    ensures Rewarded(q, verdict, score, reason).status == Done <==> verdict != VerdictFailed
  {
  }
}
