/**
 The mission board: quests, missions, and what each operation of the quest state
 machine does to one quest. The board store and the scheduler are both written in
 terms of the functions below.
 */
module Board {
  import opened Common
  import Strings

  /** A JSON value as far as the board looks into it. */
  datatype Value =
    | Text(text: string)
    | Object(fields: map<string, Value>)
    | Opaque(code: int)

  /**
   A piece of a string parameter. `Ref` is a complete `{{q<digits>.result<path>}}`
   reference, `Stub` a text `{{q<digits>.` that never becomes one, and `Subst` is the
   place of a reference that interpolation has already replaced.
   */
  datatype Token =
    | Plain(text: string)
    | Ref(digits: string, path: seq<string>)
    | Stub(digits: string)
    | Subst(value: Value)

  datatype Param = Tokens(tokens: seq<Token>) | NotText(value: Value)

  type Params = map<string, Param>

  datatype QuestStatus =
    | Pending | Claimed | Running | Done | Failed | Cancelled | WaitingApproval
    | OtherStatus(name: string)

  datatype Verdict = VerdictDone | VerdictFailed | VerdictNeedsMore | VerdictInvalid

  datatype Reward = Reward(verdict: Verdict, score: real, reason: string)

  datatype Quest = Quest(
    id: string, title: string, organHint: string, tool: string, params: Params,
    dependsOn: seq<string>, status: QuestStatus, claim: string, eta: int,
    result: Option<Value>, error: string, reward: Option<Reward>)

  datatype MissionStatus =
    | Planning | Active | MissionWaiting | Interrupted | Synthesizing | MissionDone | MissionCancelled

  datatype Mission = Mission(
    id: string, instruction: string, quests: seq<Quest>, status: MissionStatus, summary: string)

  datatype Permission = Allow | Ask | Deny

  // ----- Looking quests up -----

  /** The index of the first quest with the given id, or -1. */
  function IndexOf(quests: seq<Quest>, id: string): (i: int)
    ensures -1 <= i < |quests|
    ensures i >= 0 ==> quests[i].id == id && forall j | 0 <= j < i :: quests[j].id != id
    ensures i < 0 ==> forall j | 0 <= j < |quests| :: quests[j].id != id
  {
    if quests == [] then -1
    else if quests[0].id == id then 0
    else
      var rest := IndexOf(quests[1..], id);
      if rest < 0 then -1 else rest + 1
  }

  ghost predicate UniqueIds(quests: seq<Quest>) {
    forall i, j :: 0 <= i < j < |quests| ==> quests[i].id != quests[j].id
  }

  /** The board as the scheduler addresses it: by quest id, first match. */
  function Keyed(m: Mission): (b: map<string, Quest>)
    ensures forall id :: id in b <==> IndexOf(m.quests, id) >= 0
    ensures forall id :: id in b ==> b[id] == m.quests[IndexOf(m.quests, id)] && b[id].id == id
  {
    map id | id in (set q | q in m.quests :: q.id) :: m.quests[IndexOf(m.quests, id)]
  }

  /** Apply `f` to the quest found under `id`; an unknown id is an error. */
  function OnQuest(m: Mission, id: string, f: Quest -> Result<Quest>): Result<Mission> {
    var i := IndexOf(m.quests, id);
    if i < 0 then Err("quest not found: " + id)
    else
      match f(m.quests[i])
      case Err(e) => Err(e)
      case Ok(q) => Ok(m.(quests := m.quests[i := q]))
  }

  /** Rewriting one quest changes exactly one entry of the keyed board. */
  lemma OnQuestKeyed(m: Mission, id: string, f: Quest -> Result<Quest>)
    requires forall q :: f(q).Ok? ==> f(q).value.id == q.id
    ensures OnQuest(m, id, f).Ok? <==> id in Keyed(m) && f(Keyed(m)[id]).Ok?
    ensures OnQuest(m, id, f).Ok? ==>
              Keyed(OnQuest(m, id, f).value) == Keyed(m)[id := f(Keyed(m)[id]).value]
  {
    var i := IndexOf(m.quests, id);
    if i >= 0 && f(m.quests[i]).Ok? {
      ReplaceKeyed(m, i, f(m.quests[i]).value);
    }
  }

  lemma ReplaceKeyed(m: Mission, i: int, q: Quest)
    requires 0 <= i < |m.quests| && q.id == m.quests[i].id && IndexOf(m.quests, q.id) == i
    ensures Keyed(m.(quests := m.quests[i := q])) == Keyed(m)[q.id := q]
  {
    var m' := m.(quests := m.quests[i := q]);
    forall x ensures IndexOf(m'.quests, x) == IndexOf(m.quests, x) {
      SameIdsSameIndex(m.quests, m'.quests, x);
    }
    var b, b' := Keyed(m)[q.id := q], Keyed(m');
    forall x ensures x in b <==> x in b' {
      assert x in Keyed(m) <==> IndexOf(m.quests, x) >= 0;
    }
    forall x | x in b ensures b[x] == b'[x] {
      assert IndexOf(m.quests, x) != i ==> x != q.id;
    }
  }

  lemma SameIdsSameIndex(a: seq<Quest>, b: seq<Quest>, id: string)
    requires |a| == |b|
    requires forall i :: 0 <= i < |a| ==> a[i].id == b[i].id
    ensures IndexOf(a, id) == IndexOf(b, id)
  {
    var i, j := IndexOf(a, id), IndexOf(b, id);
    if i >= 0 && j >= 0 {
      assert !(i < j) && !(j < i);
    }
  }

  // ----- The quest state machine, one quest at a time -----

  predicate AcceptsClaims(status: MissionStatus) {
    status != MissionCancelled && status != MissionDone
  }

  function Claim(status: MissionStatus, q: Quest, karaka: string): Result<Quest> {
    if !AcceptsClaims(status) then Err("mission is closed")
    else if q.status != Pending && q.status != Claimed then Err("quest status")
    else if karaka == "" then Err("missing karaka_id")
    else Ok(q.(claim := karaka, status := Claimed))
  }

  /** The checks and the status change before a tool runs. */
  function StartRun(q: Quest, permission: (string, string) -> Permission): Result<Quest> {
    if q.status != Claimed && q.status != Failed then Err("quest must be claimed before run")
    else if q.tool == "" then Err("quest has no tool")
    else if q.claim == "" then Err("quest has no claim")
    else if permission(q.claim, q.tool) == Deny then Err("permission deny")
    else Ok(q.(status := Running))
  }

  /** What a finished tool run writes back: `None` is a tool error. */
  function FinishRun(q: Quest, outcome: Option<Value>): Quest {
    match outcome
    case None =>
      q.(status := Failed, error := "tool error", result := None,
         reward := Some(Reward(VerdictFailed, 0.0, "tool error")))
    case Some(v) => q.(status := Done, error := "", result := Some(v))
  }

  /** The effect of a reward on the rewarded quest itself. */
  function Rewarded(q: Quest, verdict: Verdict, score: real, reason: string): Quest {
    var q' := q.(reward := Some(Reward(verdict, score, reason)));
    match verdict
    case VerdictDone =>
      if q.status == Running || q.status == Claimed || q.status == Pending then q'.(status := Done) else q'
    case VerdictFailed => q'.(status := Failed)
    case _ => q'
  }

  function Cancel(q: Quest, reason: string): Quest {
    q.(status := Cancelled, error := reason)
  }

  function Park(q: Quest): Quest {
    q.(status := WaitingApproval)
  }

  /** A previously failed quest gets a fresh chance. */
  function ResetFailed(q: Quest): Quest {
    if q.status == Failed then q.(status := Pending, error := "") else q
  }

  /** A human decision on a parked quest. */
  function Decide(q: Quest, approve: bool, reason: string): Result<Quest> {
    if q.status != WaitingApproval then Err("quest is not waiting for approval")
    else if approve then Ok(q.(status := Pending))
    else Ok(Cancel(q, if reason != "" then "rejected by human: " + reason else "rejected by human"))
  }

  // ----- Crash recovery, one quest and one mission at a time -----

  predicate MidRun(status: MissionStatus) {
    status == Planning || status == Active || status == Synthesizing
  }

  function RecoverQuest(q: Quest): Quest {
    if q.status == Running || q.status == Claimed then q.(status := Pending, error := "") else q
  }

  function RecoverQuests(qs: seq<Quest>): (r: seq<Quest>)
    ensures |r| == |qs|
    ensures forall i :: 0 <= i < |qs| ==> r[i] == RecoverQuest(qs[i])
  {
    seq(|qs|, i requires 0 <= i < |qs| => RecoverQuest(qs[i]))
  }

  const INTERRUPTED_NOTE := "\n\n_Interrupted by relay restart._"

  function Recover(m: Mission): Mission {
    if !MidRun(m.status) then m
    else m.(quests := RecoverQuests(m.quests), status := Interrupted, summary := m.summary + INTERRUPTED_NOTE)
  }

  /** The same recovery on a board addressed by quest id. */
  function RecoverKeyed(status: MissionStatus, b: map<string, Quest>): map<string, Quest> {
    if MidRun(status) then map id | id in b :: RecoverQuest(b[id]) else b
  }

  lemma RecoverCommutesWithKeyed(m: Mission)
    ensures Keyed(Recover(m)) == RecoverKeyed(m.status, Keyed(m))
  {
    if MidRun(m.status) {
      forall id ensures IndexOf(m.quests, id) == IndexOf(Recover(m).quests, id) {
        SameIdsSameIndex(m.quests, Recover(m).quests, id);
      }
      assert Keyed(Recover(m)) == RecoverKeyed(m.status, Keyed(m));
    }
  }

  // ----- Quest numbering -----

  /** Decimal digits of a natural number, without leading zeros. */
  function Digits(n: nat): (s: string)
    ensures |s| > 0
    ensures OnlyDigits(s)
    ensures n > 0 ==> s[0] != '0'
  {
    if n < 10 then [('0' as int + n) as char]
    else Digits(n / 10) + [('0' as int + n % 10) as char]
  }

  predicate OnlyDigits(s: string) {
    forall i :: 0 <= i < |s| ==> '0' <= s[i] <= '9'
  }

  /** The value of a digit string (0 for the empty one). */
  function NumberOf(s: string): nat
    requires OnlyDigits(s)
  {
    if s == [] then 0 else 10 * NumberOf(s[..|s| - 1]) + (s[|s| - 1] as int - '0' as int)
  }

  lemma {:induction false} NumberOfDigits(n: nat)
    ensures NumberOf(Digits(n)) == n
  {
    if n >= 10 {
      NumberOfDigits(n / 10);
      var s := Digits(n);
      assert s[..|s| - 1] == Digits(n / 10);
    } else {
      var s := Digits(n);
      assert s[..0] == [];
    }
  }

  function QuestId(n: nat): string {
    "q" + Digits(n)
  }

  lemma QuestIdInjective(a: nat, b: nat)
    ensures QuestId(a) == QuestId(b) <==> a == b
  {
    if QuestId(a) == QuestId(b) {
      assert Digits(a) == QuestId(a)[1..] == QuestId(b)[1..] == Digits(b);
      NumberOfDigits(a);
      NumberOfDigits(b);
    }
  }

  /** The board holds exactly q1, q2, ..., in this order. */
  ghost predicate Numbered(quests: seq<Quest>) {
    forall i :: 0 <= i < |quests| ==> quests[i].id == QuestId(i + 1)
  }

  lemma NumberedIsUnique(quests: seq<Quest>)
    requires Numbered(quests)
    ensures UniqueIds(quests)
  {
    forall i, j | 0 <= i < j < |quests| ensures quests[i].id != quests[j].id {
      QuestIdInjective(i + 1, j + 1);
    }
  }

  // ----- Operations that add quests -----

  function Added(
      m: Mission, title: string, organHint: string, tool: string, params: Params, dependsOn: seq<string>, eta: int)
    : Result<Mission>
  {
    if m.status == MissionCancelled then Err("mission cancelled")
    else if title == "" then Err("missing title")
    else Ok(m.(quests := m.quests + [
      Quest(QuestId(|m.quests| + 1), title, organHint, tool, params, dependsOn, Pending, "",
            if eta <= 0 then 10 else eta, None, "", None)]))
  }

  function Truncated(s: string, n: nat): string {
    var t := Strings.Trim(s);
    if |t| <= n then t else t[..n] + "\U{2026}"
  }

  /** The text without the white space around it, whole if short enough, else its beginning and an ellipsis. */
  ghost predicate Shortens(s: string, n: nat, short: string) {
    exists i: nat, j: nat :: ShortensFrom(s, i, j, n, short)
  }

  predicate ShortensFrom(s: string, i: nat, j: nat, n: nat, short: string) {
    && i <= j <= |s| && Strings.Trimmed(s[i..j]) && Strings.OnlySpaceOutside(s, i, j)
    && short == if j - i <= n then s[i..j] else s[i..i + n] + "\U{2026}"
  }

  lemma TruncatedShortens(s: string, n: nat)
    ensures Shortens(s, n, Truncated(s, n))
  {
    Strings.TrimIsTrimmed(s);
    var i, j := Strings.TrimCutsOnlySpace(s);
    assert j - i > n ==> s[i..j][..n] == s[i..i + n];
    assert ShortensFrom(s, i, j, n, Truncated(s, n));
  }

  function FollowUpTitle(title: string, reason: string): string {
    if reason != "" then "Follow-up \U{2014} " + Truncated(reason, 60) else "Follow-up: " + title
  }

  /** The quest behind one that needs more work, on a board of `n` quests. */
  function FollowUp(q: Quest, n: nat, reason: string): Quest {
    Quest(QuestId(n + 1), FollowUpTitle(q.title, reason), q.organHint, q.tool, map[], [q.id], Pending, "", q.eta, None, "",
          None)
  }

  /** Rewarding a quest; a "needs more" verdict may append a follow-up that depends on it. */
  function RewardedOn(m: Mission, id: string, verdict: Verdict, score: real, reason: string, autoAdd: bool)
    : Result<Mission>
  {
    if verdict == VerdictInvalid then Err("invalid verdict")
    else
      match OnQuest(m, id, q => Ok(Rewarded(q, verdict, score, reason)))
      case Err(e) => Err(e)
      case Ok(m') =>
        if verdict == VerdictNeedsMore && autoAdd then
          Ok(m'.(quests := m'.quests + [FollowUp(m.quests[IndexOf(m.quests, id)], |m'.quests|, reason)]))
        else Ok(m')
  }

  /** Quest ids stay exactly q1, q2, ..., so they never repeat. */
  lemma AddingKeepsNumbering(
      m: Mission, title: string, organHint: string, tool: string, params: Params, dependsOn: seq<string>, eta: int)
    requires Numbered(m.quests)
    ensures var r := Added(m, title, organHint, tool, params, dependsOn, eta);
            r.Ok? ==> Numbered(r.value.quests) && UniqueIds(r.value.quests)
                      && r.value.quests[|m.quests|].id !in (set q | q in m.quests :: q.id)
  {
    var r := Added(m, title, organHint, tool, params, dependsOn, eta);
    if r.Ok? {
      NumberedIsUnique(r.value.quests);
      var qs := r.value.quests;
      forall q | q in m.quests ensures q.id != qs[|m.quests|].id {
        var i :| 0 <= i < |m.quests| && m.quests[i] == q;
        assert qs[i] == q;
      }
    }
  }

  lemma RewardingKeepsNumbering(m: Mission, id: string, verdict: Verdict, score: real, reason: string, autoAdd: bool)
    requires Numbered(m.quests)
    ensures var r := RewardedOn(m, id, verdict, score, reason, autoAdd);
            r.Ok? ==> Numbered(r.value.quests) && UniqueIds(r.value.quests)
  {
    hide UniqueIds, FollowUpTitle, QuestId;
    var r := RewardedOn(m, id, verdict, score, reason, autoAdd);
    if r.Ok? {
      NumberedIsUnique(r.value.quests);
    }
  }
}
