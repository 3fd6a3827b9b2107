/**
 From the planner's answer to quests on the board: validation, dependency wiring from
 `{{qN...}}` references, numbering, and what the scheduler then guarantees about every
 reference when a quest's parameters are interpolated.
 */
module Planner {
  import opened Common
  import opened Board
  import opened Scheduler
  import opened LeastFixpoint
  import opened SchedulerInvariant
  import opened WorkerInvariant
  import opened SchedulerTheorems
  import opened Strings
  import opened Selections

  /** One planned quest; dependencies are 1-based positions in the plan. */
  datatype Planned = Planned(title: string, tool: string, params: Params, dependsOn: seq<int>)

  predicate Blank(s: string) {
    forall c | c in s :: IsSpace(c)
  }

  // ----- Validation -----

  predicate Keep(p: Planned, tools: set<string>) {
    !Blank(p.title) && p.tool in tools
  }

  function InRange(deps: seq<int>, n: nat): seq<int> {
    if deps == [] then []
    else (if 1 <= deps[0] <= n then [deps[0]] else []) + InRange(deps[1..], n)
  }

  lemma {:induction false} InRangeAppend(deps: seq<int>, d: int, n: nat)
    ensures InRange(deps + [d], n) == InRange(deps, n) + (if 1 <= d <= n then [d] else [])
  {
    if deps != [] {
      assert (deps + [d])[1..] == deps[1..] + [d];
      InRangeAppend(deps[1..], d, n);
    }
  }

  function Within(n: nat): int -> bool {
    (d: int) => 1 <= d <= n
  }

  lemma {:induction false} InRangeSelects(deps: seq<int>, n: nat)
    ensures Selects(InRange(deps, n), deps, Within(n))
  {
    hide Selects, InRange;
    assert InRange([], n) == [] by {
      NoneInRange(n);
    }
    if deps == [] {
      SelectsNone(Within(n));
    } else {
      var front, last := deps[..|deps| - 1], deps[|deps| - 1];
      InRangeSelects(front, n);
      SelectsNext(InRange(front, n), front, last, Within(n));
      InRangeAppend(front, last, n);
      assert deps == front + [last];
    }
  }

  lemma NoneInRange(n: nat)
    ensures InRange([], n) == []
  {
  }

  /** The positions (0-based) of the quests validation keeps, among the first `n`. */
  function Kept(plan: seq<Planned>, tools: set<string>, n: nat): (k: seq<nat>)
    requires n <= |plan|
    ensures |k| <= n && forall i :: 0 <= i < |k| ==> k[i] < n
  {
    if n == 0 then []
    else if Keep(plan[n - 1], tools) then Kept(plan, tools, n - 1) + [n - 1]
    else Kept(plan, tools, n - 1)
  }

  /** The quest has a known tool and a title that is not all white space. */
  ghost predicate Usable(p: Planned, tools: set<string>) {
    p.tool in tools && exists i :: 0 <= i < |p.title| && !IsSpace(p.title[i])
  }

  lemma KeepsUsable(p: Planned, tools: set<string>)
    ensures Keep(p, tools) <==> Usable(p, tools)
  {
    if c :| c in p.title && !IsSpace(c) {
      var i :| 0 <= i < |p.title| && p.title[i] == c;
    }
  }

  /** They are exactly the positions worth keeping, in order. */
  lemma {:induction false} KeptAreKept(plan: seq<Planned>, tools: set<string>, n: nat)
    requires n <= |plan|
    ensures var k := Kept(plan, tools, n);
            && (forall i :: 0 <= i < |k| ==> i <= k[i] && Usable(plan[k[i]], tools))
            && (forall i, j :: 0 <= i < j < |k| ==> k[i] < k[j])
            && (forall p: nat :: p < n && Usable(plan[p], tools) ==> p in k)
  {
    hide Keep, Usable;
    if n > 0 {
      KeptAreKept(plan, tools, n - 1);
      KeepsUsable(plan[n - 1], tools);
      var before, k := Kept(plan, tools, n - 1), Kept(plan, tools, n);
      forall p: nat | p < n && Usable(plan[p], tools) ensures p in k {
        assert p == n - 1 || p in before;
      }
    }
  }

  /**
   The validation loop: unknown tools and blank titles are dropped, out-of-range
   dependencies are removed, and the loop stops once `maxQuests` are kept. Dependencies
   keep the numbers they had in the plan.
   */
  method Validate(plan: seq<Planned>, tools: set<string>, maxQuests: nat) returns (valid: seq<Planned>)
    requires maxQuests > 0
    ensures |valid| == if |Kept(plan, tools, |plan|)| < maxQuests then |Kept(plan, tools, |plan|)| else maxQuests
    ensures forall i :: 0 <= i < |valid| ==> valid[i] == Cleaned(plan[Kept(plan, tools, |plan|)[i]], |plan|)
  {
    hide Cleaned, Keep, Blank, Kept;
    valid := [];
    ghost var kept := Kept(plan, tools, |plan|);
    KeptStep(plan, tools, 0);
    var i := 0;
    while i < |plan|
      invariant 0 <= i <= |plan|
      invariant |valid| == |Kept(plan, tools, i)| < maxQuests
      invariant Kept(plan, tools, i) <= kept
      invariant forall j :: 0 <= j < |valid| ==> valid[j] == Cleaned(plan[kept[j]], |plan|)
    {
      KeptStep(plan, tools, i + 1);
      KeptPrefix(plan, tools, i + 1);
      if Keep(plan[i], tools) {
        var cleaned := Clean(plan[i], |plan|);
        assert kept[|valid|] == i;
        valid := valid + [cleaned];
        if |valid| >= maxQuests {
          return;
        }
      }
      i := i + 1;
    }
  }

  lemma KeptStep(plan: seq<Planned>, tools: set<string>, n: nat)
    requires n <= |plan|
    ensures n == 0 ==> Kept(plan, tools, n) == []
    ensures n > 0 ==> Kept(plan, tools, n) == Kept(plan, tools, n - 1) + if Keep(plan[n - 1], tools) then [n - 1] else []
  {
  }

  /** The same quest, with those of its dependencies that are numbers of the plan, in their order. */
  ghost predicate InRangeOnly(p: Planned, cleaned: Planned, n: nat) {
    cleaned == p.(dependsOn := cleaned.dependsOn) && Selects(cleaned.dependsOn, p.dependsOn, Within(n))
  }

  lemma CleaningMeans(p: Planned, n: nat)
    ensures InRangeOnly(p, Cleaned(p, n), n)
  {
    hide Selects, InRange;
    InRangeSelects(p.dependsOn, n);
  }

  function Cleaned(p: Planned, n: nat): Planned {
    p.(dependsOn := InRange(p.dependsOn, n))
  }

  method Clean(p: Planned, n: nat) returns (r: Planned)
    ensures r == Cleaned(p, n)
  {
    var deps := CleanDeps(p.dependsOn, n);
    r := p.(dependsOn := deps);
  }

  method CleanDeps(deps: seq<int>, n: nat) returns (clean: seq<int>)
    ensures clean == InRange(deps, n)
  {
    clean := [];
    var i := 0;
    while i < |deps|
      invariant 0 <= i <= |deps|
      invariant clean == InRange(deps[..i], n)
    {
      InRangeAppend(deps[..i], deps[i], n);
      assert deps[..i] + [deps[i]] == deps[..i + 1];
      if 1 <= deps[i] && deps[i] <= n {
        clean := clean + [deps[i]];
      }
      i := i + 1;
    }
    assert deps[..i] == deps;
  }

  lemma {:induction false} KeptPrefix(plan: seq<Planned>, tools: set<string>, n: nat)
    requires n <= |plan|
    ensures Kept(plan, tools, n) <= Kept(plan, tools, |plan|)
    decreases |plan| - n
  {
    if n < |plan| {
      KeptPrefix(plan, tools, n + 1);
    }
  }

  /**
   A dependency number d still means the plan's d-th quest after validation exactly if
   none of the first d quests was dropped: dropped quests are not renumbered.
   */
  lemma DependencyKeepsItsMeaning(plan: seq<Planned>, tools: set<string>, d: nat)
    requires 1 <= d <= |Kept(plan, tools, |plan|)|
    ensures Kept(plan, tools, |plan|)[d - 1] == d - 1 <==> forall p :: 0 <= p < d ==> Usable(plan[p], tools)
  {
    hide Usable;
    var k := Kept(plan, tools, |plan|);
    KeptAreKept(plan, tools, |plan|);
    if forall p :: 0 <= p < d ==> Usable(plan[p], tools) {
      PrefixKept(k, d);
    } else if k[d - 1] == d - 1 {
      var p :| 0 <= p < d && !Usable(plan[p], tools);
      Squeezed(k, d, p);
    }
  }

  lemma {:induction false} PrefixKept(k: seq<nat>, d: nat)
    requires d <= |k|
    requires forall i, j :: 0 <= i < j < |k| ==> k[i] < k[j]
    requires forall p :: 0 <= p < d ==> p in k
    ensures forall i :: 0 <= i < d ==> k[i] == i
  {
    if d > 0 {
      PrefixKept(k, d - 1);
      assert d - 1 in k;
      var i :| 0 <= i < |k| && k[i] == d - 1;
      assert d > 1 ==> k[d - 2] == d - 2;
    }
  }

  lemma {:induction false} Squeezed(k: seq<nat>, d: nat, p: nat)
    requires p < d <= |k| && k[d - 1] == d - 1
    requires forall i, j :: 0 <= i < j < |k| ==> k[i] < k[j]
    requires forall i :: 0 <= i < |k| ==> i <= k[i]
    ensures p in k
    decreases d
  {
    if p < d - 1 {
      assert k[d - 2] < k[d - 1];
      Squeezed(k, d - 1, p);
    } else {
      assert k[p] == p;
    }
  }

  // ----- Wiring -----

  const MAX_INT: nat := 0x7fff_ffff_ffff_ffff

  predicate IsNumeral(s: string) {
    |s| > 0 && OnlyDigits(s)
  }

  /** The quest number in a token the dependency pattern matches, if it fits an int. */
  function Mentioned(t: Token): Option<nat> {
    match t
    case Ref(digits, _) => NumberIn(digits)
    case Stub(digits) => NumberIn(digits)
    case _ => None
  }

  function NumberIn(digits: string): Option<nat> {
    if IsNumeral(digits) && NumberOf(digits) <= MAX_INT then Some(NumberOf(digits)) else None
  }

  /** Quest n of the plan is mentioned by a parameter of the quest at position `at`. */
  ghost predicate Mentions(params: Params, n: int) {
    exists k, i ::
      k in params && params[k].Tokens? && 0 <= i < |params[k].tokens| && n >= 0 &&
      Mentioned(params[k].tokens[i]) == Some(n)
  }

  /** What wiring makes of one quest's dependencies. */
  ghost predicate WiredTo(before: Planned, after: Planned, at: nat, n: nat) {
    && after == before.(dependsOn := after.dependsOn)
    && before.dependsOn <= after.dependsOn
    && (forall d :: d in after.dependsOn <==>
          d in before.dependsOn || (1 <= d <= n && d != at + 1 && Mentions(before.params, d)))
  }

  method AutoWireDeps(quests: array<Planned>)
    modifies quests
    ensures forall i :: 0 <= i < quests.Length ==> WiredTo(old(quests[i]), quests[i], i, quests.Length)
  {
    var qi := 0;
    while qi < quests.Length
      invariant 0 <= qi <= quests.Length
      invariant forall i :: 0 <= i < qi ==> WiredTo(old(quests[i]), quests[i], i, quests.Length)
      invariant forall i :: qi <= i < quests.Length ==> quests[i] == old(quests[i])
    {
      var deps := WireOne(quests[qi], qi, quests.Length);
      quests[qi] := quests[qi].(dependsOn := deps);
      qi := qi + 1;
    }
  }

  ghost predicate MentionsIn(params: Params, keys: set<string>, n: int) {
    exists k, i ::
      k in keys && k in params && params[k].Tokens? && 0 <= i < |params[k].tokens| && n >= 0 &&
      Mentioned(params[k].tokens[i]) == Some(n)
  }

  ghost predicate MentionsAt(tokens: seq<Token>, upTo: nat, n: int) {
    exists i :: 0 <= i < upTo && i < |tokens| && n >= 0 && Mentioned(tokens[i]) == Some(n)
  }

  method WireOne(q: Planned, at: nat, n: nat) returns (deps: seq<int>)
    ensures WiredTo(q, q.(dependsOn := deps), at, n)
  {
    deps := q.dependsOn;
    var todo := q.params.Keys;
    while todo != {}
      invariant todo <= q.params.Keys
      invariant q.dependsOn <= deps
      invariant forall d :: d in deps <==>
                  d in q.dependsOn || (1 <= d <= n && d != at + 1 && MentionsIn(q.params, q.params.Keys - todo, d))
      decreases todo
    {
      var k :| k in todo;
      if q.params[k].Tokens? {
        var more := WireTokens(q.params[k].tokens, deps, at, n);
        forall d ensures d in more <==>
            d in q.dependsOn || (1 <= d <= n && d != at + 1 && MentionsIn(q.params, q.params.Keys - (todo - {k}), d))
        {
        }
        deps := more;
      } else {
        forall d ensures MentionsIn(q.params, q.params.Keys - (todo - {k}), d) <==> MentionsIn(q.params, q.params.Keys - todo, d) {
        }
      }
      todo := todo - {k};
    }
    forall d ensures MentionsIn(q.params, q.params.Keys - todo, d) <==> Mentions(q.params, d) {
      if Mentions(q.params, d) {
        var k, i :| k in q.params && q.params[k].Tokens? && 0 <= i < |q.params[k].tokens| && d >= 0 &&
          Mentioned(q.params[k].tokens[i]) == Some(d);
        assert k in q.params.Keys - todo;
      }
    }
  }

  method WireTokens(tokens: seq<Token>, deps0: seq<int>, at: nat, n: nat) returns (deps: seq<int>)
    ensures deps0 <= deps
    ensures forall d :: d in deps <==> d in deps0 || (1 <= d <= n && d != at + 1 && MentionsAt(tokens, |tokens|, d))
  {
    deps := deps0;
    var i := 0;
    while i < |tokens|
      invariant 0 <= i <= |tokens|
      invariant deps0 <= deps
      invariant forall d :: d in deps <==> d in deps0 || (1 <= d <= n && d != at + 1 && MentionsAt(tokens, i, d))
    {
      var m := Mentioned(tokens[i]);
      ghost var before := deps;
      if m.Some? && 1 <= m.value <= n && m.value != at + 1 && m.value !in deps {
        deps := deps + [m.value];
      }
      forall d ensures MentionsAt(tokens, i + 1, d) <==> MentionsAt(tokens, i, d) || (d >= 0 && m == Some(d)) {
        if MentionsAt(tokens, i, d) {
          var j :| 0 <= j < i && j < |tokens| && d >= 0 && Mentioned(tokens[j]) == Some(d);
          assert 0 <= j < i + 1;
        }
      }
      i := i + 1;
    }
  }
}
