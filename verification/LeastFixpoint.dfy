/**
 What the scheduler is supposed to compute, without any scheduling: the least set of
 quest ids that holds the quests already done and is closed under "may run, every
 dependency is in the set, and one of the allowed attempts succeeds".
 */
module LeastFixpoint {
  import opened Common
  import opened Board
  import opened Scheduler

  predicate MayClaim(w: World) {
    AcceptsClaims(w.mission) && w.karaka != ""
  }

  predicate Denied(w: World, q: Quest) {
    w.permission(w.karaka, q.tool) == Deny
  }

  /** The permission gate parks the quest until a human decides. */
  predicate Asks(w: World, q: Quest) {
    w.permission(w.karaka, q.tool) == Ask && w.approval
  }

  /** The permission gate lets the quest through. */
  predicate Passes(w: World, q: Quest) {
    !Denied(w, q) && !Asks(w, q)
  }

  /** Attempt k or a later one succeeds, each later one after a successful repair. */
  predicate SucceedsFrom(w: World, q: Quest, k: nat)
    decreases MAX_REPAIRS + 1 - k
  {
    q.tool != "" &&
    (w.attempt(q.id, k).Some? ||
     (k < MAX_REPAIRS && w.repair(q.id, k).Some? && SucceedsFrom(w, q, k + 1)))
  }

  predicate Good(w: World, q: Quest) {
    MayClaim(w) && Passes(w, q) && SucceedsFrom(w, q, 0)
  }

  predicate Supported(w: World, q: Quest, s: set<string>) {
    Candidate(q) && Good(w, q) && forall d | d in q.dependsOn :: d in s
  }

  function DoneIn(b: Keys): set<string> {
    set id | id in b && b[id].status == Done
  }

  ghost predicate Closed(w: World, b: Keys, s: set<string>) {
    DoneIn(b) <= s && forall id | id in b && Supported(w, b[id], s) :: id in s
  }

  function Grow(w: World, b: Keys, s: set<string>): set<string> {
    s + set id | id in b && Supported(w, b[id], s)
  }

  function Iterate(w: World, b: Keys, s: set<string>): set<string>
    requires s <= b.Keys
    decreases b.Keys - s
  {
    if Grow(w, b, s) == s then s else Iterate(w, b, Grow(w, b, s))
  }

  /** The least fixed point, by iteration from the quests already done. */
  function Least(w: World, b: Keys): set<string> {
    Iterate(w, b, DoneIn(b))
  }

  lemma {:induction false} IterateProperties(w: World, b: Keys, s: set<string>, bound: set<string>)
    requires s <= b.Keys
    requires s <= bound && forall id | id in b && Supported(w, b[id], bound) :: id in bound
    ensures s <= Iterate(w, b, s) <= b.Keys
    ensures Grow(w, b, Iterate(w, b, s)) == Iterate(w, b, s)
    ensures Iterate(w, b, s) <= bound
    decreases b.Keys - s
  {
    if Grow(w, b, s) != s {
      IterateProperties(w, b, Grow(w, b, s), bound);
    }
  }

  /** It is closed, and contained in every closed set. */
  lemma LeastIsLeast(w: World, b: Keys)
    ensures Closed(w, b, Least(w, b)) && Least(w, b) <= b.Keys
    ensures forall s :: Closed(w, b, s) ==> Least(w, b) <= s
  {
    IterateProperties(w, b, DoneIn(b), b.Keys);
    var l := Least(w, b);
    forall id | id in b && Supported(w, b[id], l) ensures id in l {
      assert id in Grow(w, b, l);
    }
    forall s | Closed(w, b, s) ensures l <= s {
      IterateProperties(w, b, DoneIn(b), s);
    }
  }

  /** Nothing gets in without a reason: each member was done or is supported by the set itself. */
  lemma LeastHasReasons(w: World, b: Keys, id: string)
    requires id in Least(w, b)
    ensures id in b && (b[id].status == Done || Supported(w, b[id], Least(w, b)))
  {
    LeastIsLeast(w, b);
    var l := Least(w, b);
    var t := set x | x in l && (b[x].status == Done || Supported(w, b[x], l));
    forall x | x in b && Supported(w, b[x], t) ensures x in t {
      assert Supported(w, b[x], l);
    }
    assert Closed(w, b, t);
  }
}
