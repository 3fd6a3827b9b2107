/**
 The rendezvous directory: the per-address rate limit, the per-phone lockdown, and the
 one-shot release of a deposited safe. Times are in milliseconds; the database stores
 time stamps in whole seconds.
 */
module Directory {
  import opened Common

  const TEN_MINUTES := 600_000
  const ONE_DAY := 86_400_000
  const MAX_ATTEMPTS: nat := 3
  const LOCKDOWN: nat := 20

  datatype Limit = Limit(ip: string, phone: string, attempts: nat, last: int)

  datatype Safe = Safe(id: int, phone: string, accessTime: string, secret: int, consumed: bool, created: int)

  datatype State = State(limits: seq<Limit>, safes: seq<Safe>, nextId: int)

  datatype Request = Request(now: int, ip: string, phone: string, time: string)

  datatype Response = TooMany | Locked | Fake | Real(id: int, secret: int)

  /** A time stamp as CURRENT_TIMESTAMP stores it. */
  function Stored(now: int): int {
    now / 1000 * 1000
  }

  // ----- The statements -----

  function Find(limits: seq<Limit>, ip: string, phone: string): (i: int)
    ensures -1 <= i < |limits|
    ensures i >= 0 ==> limits[i].ip == ip && limits[i].phone == phone
    ensures forall j :: 0 <= j < (if i < 0 then |limits| else i) ==> limits[j].ip != ip || limits[j].phone != phone
  {
    if limits == [] then -1
    else if limits[0].ip == ip && limits[0].phone == phone then 0
    else
      var i := Find(limits[1..], ip, phone);
      if i < 0 then -1 else i + 1
  }

  function Reset(limits: seq<Limit>, ip: string, phone: string, now: int): seq<Limit> {
    var i := Find(limits, ip, phone);
    if i < 0 then limits else limits[i := limits[i].(attempts := 0, last := Stored(now))]
  }

  function CountOne(limits: seq<Limit>, ip: string, phone: string, now: int): seq<Limit> {
    var i := Find(limits, ip, phone);
    if i < 0 then limits + [Limit(ip, phone, 1, Stored(now))]
    else limits[i := limits[i].(attempts := limits[i].attempts + 1, last := Stored(now))]
  }

  predicate Opens(s: Safe, phone: string, time: string) {
    s.phone == phone && s.accessTime == time && !s.consumed
  }

  /** The newest unconsumed safe for the phone and time: its position, or -1. */
  function Newest(safes: seq<Safe>, phone: string, time: string): (i: int)
    ensures -1 <= i < |safes|
    ensures i >= 0 ==> Opens(safes[i], phone, time)
                       && forall j :: 0 <= j < |safes| && Opens(safes[j], phone, time) ==> safes[j].created <= safes[i].created
    ensures i < 0 ==> forall j :: 0 <= j < |safes| ==> !Opens(safes[j], phone, time)
  {
    if safes == [] then -1
    else
      var n := |safes| - 1;
      var i := Newest(safes[..n], phone, time);
      if Opens(safes[n], phone, time) && (i < 0 || safes[i].created < safes[n].created) then n else i
  }

  /** Attempts of the last day on one phone, from all addresses. */
  function GlobalAttempts(limits: seq<Limit>, phone: string, now: int): nat {
    if limits == [] then 0
    else
      (if limits[0].phone == phone && limits[0].last > Stored(now) - ONE_DAY then limits[0].attempts else 0)
      + GlobalAttempts(limits[1..], phone, now)
  }

  function Remove(safes: seq<Safe>, i: nat): seq<Safe>
    requires i < |safes|
  {
    safes[..i] + safes[i + 1..]
  }

  function Consume(safes: seq<Safe>, i: nat): seq<Safe>
    requires i < |safes|
  {
    safes[i := safes[i].(consumed := true)]
  }

  // ----- One request -----

  predicate Refused(limits: seq<Limit>, r: Request) {
    var i := Find(limits, r.ip, r.phone);
    i >= 0 && r.now - limits[i].last < TEN_MINUTES && limits[i].attempts >= MAX_ATTEMPTS
  }

  function AfterReset(limits: seq<Limit>, r: Request): seq<Limit> {
    var i := Find(limits, r.ip, r.phone);
    if i >= 0 && r.now - limits[i].last >= TEN_MINUTES then Reset(limits, r.ip, r.phone, r.now) else limits
  }

  /** The whole request as one step. */
  function Serve(s: State, r: Request): (State, Response) {
    if Refused(s.limits, r) then (s, TooMany)
    else
      var limits := AfterReset(s.limits, r);
      var i := Newest(s.safes, r.phone, r.time);
      if i >= 0 && GlobalAttempts(limits, r.phone, r.now) >= LOCKDOWN then
        (s.(limits := limits, safes := Remove(s.safes, i)), Locked)
      else
        var counted := CountOne(limits, r.ip, r.phone, r.now);
        if i < 0 then (s.(limits := counted), Fake)
        else (s.(limits := counted, safes := Consume(s.safes, i)), Real(s.safes[i].id, s.safes[i].secret))
  }

  /** The request was counted against its address: neither refused nor answered by the lockdown branch. */
  predicate Counts(s: State, r: Request) {
    Serve(s, r).1 != TooMany && Serve(s, r).1 != Locked
  }

  // ----- What a request comes to -----

  /** The address has used up its attempts on this phone, the last less than ten minutes ago. */
  ghost predicate UsedUp(limits: seq<Limit>, r: Request) {
    exists i :: FirstRow(limits, r, i) && r.now - limits[i].last < 600_000 && limits[i].attempts >= 3
  }

  ghost predicate FirstRow(limits: seq<Limit>, r: Request, i: int) {
    && 0 <= i < |limits| && limits[i].ip == r.ip && limits[i].phone == r.phone
    && forall j | 0 <= j < i :: limits[j].ip != r.ip || limits[j].phone != r.phone
  }

  /** The newest safe that has the phone and time of the request and was never handed out. */
  ghost predicate NewestFor(safes: seq<Safe>, r: Request, i: int) {
    && 0 <= i < |safes| && safes[i].phone == r.phone && safes[i].accessTime == r.time && !safes[i].consumed
    && forall j | 0 <= j < |safes| && safes[j].phone == r.phone && safes[j].accessTime == r.time && !safes[j].consumed ::
         safes[j].created <= safes[i].created
  }

  /** The attempts on a phone whose counters were touched in the last day, one by one. */
  ghost function RecentAttempts(limits: seq<Limit>, phone: string, now: int, from: nat): set<(nat, nat)> {
    set i: nat, k: nat | from <= i < |limits| && k < limits[i].attempts
                         && limits[i].phone == phone && limits[i].last > Stored(now) - ONE_DAY :: (i, k)
  }

  ghost function TokensOf(i: nat, n: nat): set<(nat, nat)> {
    set k: nat | k < n :: (i, k)
  }

  lemma {:induction false} TokensCount(i: nat, n: nat)
    ensures |TokensOf(i, n)| == n
  {
    if n > 0 {
      TokensCount(i, n - 1);
      assert TokensOf(i, n) == TokensOf(i, n - 1) + {(i, n - 1)};
    } else {
      assert TokensOf(i, 0) == {};
    }
  }

  lemma {:induction false} GlobalIsRecent(limits: seq<Limit>, phone: string, now: int, from: nat)
    requires from <= |limits|
    ensures GlobalAttempts(limits[from..], phone, now) == |RecentAttempts(limits, phone, now, from)|
    decreases |limits| - from
  {
    if from == |limits| {
      assert RecentAttempts(limits, phone, now, from) == {};
    } else {
      GlobalIsRecent(limits, phone, now, from + 1);
      assert limits[from..][0] == limits[from] && limits[from..][1..] == limits[from + 1..];
      var l := limits[from];
      var own := if l.phone == phone && l.last > Stored(now) - ONE_DAY then TokensOf(from, l.attempts) else {};
      TokensCount(from, l.attempts);
      assert RecentAttempts(limits, phone, now, from) == own + RecentAttempts(limits, phone, now, from + 1);
      assert own !! RecentAttempts(limits, phone, now, from + 1);
    }
  }

  /**
   The four outcomes, said without the code: refused and nothing changed; a fake, if no safe
   fits; twenty attempts of the last day destroy the newest fitting safe; otherwise it is
   handed out and marked.
   */
  ghost predicate Outcome(s: State, r: Request, s': State, answer: Response) {
    && (answer == TooMany <==> UsedUp(s.limits, r))
    && (answer == TooMany ==> s' == s)
    && s'.nextId == s.nextId
    && (answer == Fake ==> s'.safes == s.safes && forall i :: !NewestFor(s.safes, r, i))
    && (answer == Locked ==>
          && |RecentAttempts(s'.limits, r.phone, r.now, 0)| >= 20
          && exists i :: NewestFor(s.safes, r, i) && s'.safes == s.safes[..i] + s.safes[i + 1..])
    && (answer.Real? ==>
          exists i :: NewestFor(s.safes, r, i) && answer == Real(s.safes[i].id, s.safes[i].secret)
                      && s'.safes == s.safes[i := s.safes[i].(consumed := true)]
                      && |RecentAttempts(AfterReset(s.limits, r), r.phone, r.now, 0)| < 20)
  }

  lemma OutcomeOfServe(s: State, r: Request)
    ensures Outcome(s, r, Serve(s, r).0, Serve(s, r).1)
  {
    var limits := AfterReset(s.limits, r);
    UsedUpIsRefused(s.limits, r);
    NewestIs(s.safes, r);
    GlobalIsRecent(limits, r.phone, r.now, 0);
    assert limits[0..] == limits;
    hide UsedUp, Refused, Find, Newest, NewestFor, AfterReset, CountOne, RecentAttempts, GlobalAttempts;
  }

  lemma UsedUpIsRefused(limits: seq<Limit>, r: Request)
    ensures UsedUp(limits, r) <==> Refused(limits, r)
  {
    var i := Find(limits, r.ip, r.phone);
    assert i >= 0 ==> FirstRow(limits, r, i);
    hide Find;
    if UsedUp(limits, r) {
      var j :| FirstRow(limits, r, j) && r.now - limits[j].last < 600_000 && limits[j].attempts >= 3;
      assert j == i;
    }
  }

  lemma NewestIs(safes: seq<Safe>, r: Request)
    ensures var i := Newest(safes, r.phone, r.time);
            if i >= 0 then NewestFor(safes, r, i) else forall j :: !NewestFor(safes, r, j)
  {
  }

  /** A deposit: the database hands out the next id and never reuses one. */
  function Post(s: State, phone: string, accessTime: string, secret: int, created: int): State {
    s.(safes := s.safes + [Safe(s.nextId, phone, accessTime, secret, false, created)], nextId := s.nextId + 1)
  }

  class Server {
    var limits: seq<Limit>
    var safes: seq<Safe>
    var nextId: int

    function Now(): State
      reads this
    {
      State(limits, safes, nextId)
    }

    constructor ()
      ensures Now() == EMPTY
    {
      limits, safes, nextId := [], [], 1;
    }

    method Deposit(phone: string, accessTime: string, secret: int, created: int)
      modifies this
      ensures Now() == Post(old(Now()), phone, accessTime, secret, created)
      ensures safes == old(safes) + [Safe(old(nextId), phone, accessTime, secret, false, created)] && limits == old(limits)
      ensures SafesOk(old(Now())) ==> SafesOk(Now()) && forall s | s in old(safes) :: s.id != safes[|safes| - 1].id
    {
      safes := safes + [Safe(nextId, phone, accessTime, secret, false, created)];
      nextId := nextId + 1;
    }

    /** The lookup, statement by statement. */
    method Get(r: Request) returns (answer: Response)
      modifies this
      ensures (Now(), answer) == Serve(old(Now()), r)
      ensures Outcome(old(Now()), r, Now(), answer)
    {
      OutcomeOfServe(Now(), r);
      hide Outcome;
      var i := Find(limits, r.ip, r.phone);
      if i >= 0 {
        var lastAttempt := limits[i].last;
        if r.now - lastAttempt < TEN_MINUTES && limits[i].attempts >= 3 {
          return TooMany;
        }
        if r.now - lastAttempt >= TEN_MINUTES {
          limits := Reset(limits, r.ip, r.phone, r.now);
        }
      }
      var j := FindSafe(r.phone, r.time);
      var total := SumAttempts(r.phone, r.now);
      if j >= 0 && total >= 20 {
        safes := safes[..j] + safes[j + 1..];
        return Locked;
      }
      limits := CountOne(limits, r.ip, r.phone, r.now);
      if j < 0 {
        return Fake;
      }
      var safe := safes[j];
      safes := safes[j := safe.(consumed := true)];
      return Real(safe.id, safe.secret);
    }

    method FindSafe(phone: string, time: string) returns (j: int)
      ensures j == Newest(safes, phone, time)
    {
      j := -1;
      for n := 0 to |safes|
        invariant j == Newest(safes[..n], phone, time)
      {
        assert safes[..n + 1][..n] == safes[..n];
        if Opens(safes[n], phone, time) && (j < 0 || safes[j].created < safes[n].created) {
          j := n;
        }
      }
      assert safes[..|safes|] == safes;
    }

    method SumAttempts(phone: string, now: int) returns (total: nat)
      ensures total == GlobalAttempts(limits, phone, now)
    {
      total := 0;
      var i := 0;
      while i < |limits|
        invariant 0 <= i <= |limits|
        invariant total + GlobalAttempts(limits[i..], phone, now) == GlobalAttempts(limits, phone, now)
      {
        if limits[i].phone == phone && limits[i].last > Stored(now) - ONE_DAY {
          total := total + limits[i].attempts;
        }
        assert limits[i..][1..] == limits[i + 1..];
        i := i + 1;
      }
    }
  }

  // ----- Runs -----

  const EMPTY := State([], [], 1)

  datatype Op =
    | Lookup(r: Request)
    | Drop(phone: string, accessTime: string, secret: int, created: int)

  function Apply(s: State, op: Op): State {
    match op
    case Lookup(r) => Serve(s, r).0
    case Drop(phone, accessTime, secret, created) => Post(s, phone, accessTime, secret, created)
  }

  function Run(ops: seq<Op>): State {
    if ops == [] then EMPTY else Apply(Run(ops[..|ops| - 1]), ops[|ops| - 1])
  }

  ghost predicate Monotone(ops: seq<Op>) {
    forall i, j :: 0 <= i < j < |ops| && ops[i].Lookup? && ops[j].Lookup? ==> ops[i].r.now <= ops[j].r.now
  }

  predicate CountsFor(s: State, op: Op, ip: string, phone: string) {
    op.Lookup? && op.r.ip == ip && op.r.phone == phone && Counts(s, op.r)
  }

  /** When lookups of one address for one phone were counted. */
  function CountedTimes(ops: seq<Op>, ip: string, phone: string): seq<int> {
    if ops == [] then []
    else
      var n := |ops| - 1;
      CountedTimes(ops[..n], ip, phone)
      + if CountsFor(Run(ops[..n]), ops[n], ip, phone) then [ops[n].r.now] else []
  }

  /** The counter of an address and phone, 0 if there is no row. */
  function Attempts(s: State, ip: string, phone: string): nat {
    var i := Find(s.limits, ip, phone);
    if i < 0 then 0 else s.limits[i].attempts
  }

  // ----- What a statement does to one counter -----

  lemma SameKeysSameIndex(a: seq<Limit>, b: seq<Limit>, ip: string, phone: string)
    requires |a| == |b| && forall i :: 0 <= i < |a| ==> a[i].ip == b[i].ip && a[i].phone == b[i].phone
    ensures Find(a, ip, phone) == Find(b, ip, phone)
  {
  }

  lemma {:induction false} FindAppended(a: seq<Limit>, l: Limit, ip: string, phone: string)
    ensures Find(a + [l], ip, phone) ==
      if Find(a, ip, phone) >= 0 then Find(a, ip, phone)
      else if l.ip == ip && l.phone == phone then |a| else -1
  {
    if a != [] {
      assert (a + [l])[1..] == a[1..] + [l];
      FindAppended(a[1..], l, ip, phone);
    }
  }

  /** The row of (ip, phone) after a request from (r.ip, r.phone). */
  lemma RowAfter(s: State, r: Request, ip: string, phone: string)
    ensures
      var i, s' := Find(s.limits, ip, phone), Serve(s, r).0;
      var i' := Find(s'.limits, ip, phone);
      if ip != r.ip || phone != r.phone then
        i' == i && (i >= 0 ==> s'.limits[i] == s.limits[i])
      else if Serve(s, r).1 == TooMany then s' == s
      else
        var stale := i < 0 || r.now - s.limits[i].last >= TEN_MINUTES;
        if Counts(s, r) then
          i' >= 0 && s'.limits[i'].last == Stored(r.now)
          && s'.limits[i'].attempts == if stale then 1 else s.limits[i].attempts + 1
        else
          i' == i && (i >= 0 ==> s'.limits[i] == if stale then s.limits[i].(attempts := 0, last := Stored(r.now)) else s.limits[i])
  {
    hide AfterReset, CountOne, Find, Newest, GlobalAttempts;
    ResetRow(s.limits, r, ip, phone);
    ResetRow(s.limits, r, r.ip, r.phone);
    CountRow(AfterReset(s.limits, r), r, ip, phone);
  }

  lemma ResetRow(limits: seq<Limit>, r: Request, ip: string, phone: string)
    ensures
      var limits' := AfterReset(limits, r);
      var i := Find(limits, ip, phone);
      && |limits'| == |limits| && Find(limits', ip, phone) == i
      && (i >= 0 ==>
            limits'[i] == if ip == r.ip && phone == r.phone && r.now - limits[i].last >= TEN_MINUTES
                          then limits[i].(attempts := 0, last := Stored(r.now)) else limits[i])
  {
    SameKeysSameIndex(limits, AfterReset(limits, r), ip, phone);
  }

  lemma CountRow(limits: seq<Limit>, r: Request, ip: string, phone: string)
    ensures
      var limits' := CountOne(limits, r.ip, r.phone, r.now);
      var i, i' := Find(limits, ip, phone), Find(limits', ip, phone);
      if ip == r.ip && phone == r.phone then
        i' >= 0 && limits'[i'].last == Stored(r.now)
        && limits'[i'].attempts == if i < 0 then 1 else limits[i].attempts + 1
      else i' == i && (i >= 0 ==> limits'[i] == limits[i])
  {
    if Find(limits, r.ip, r.phone) < 0 {
      FindAppended(limits, Limit(r.ip, r.phone, 1, Stored(r.now)), ip, phone);
    } else {
      SameKeysSameIndex(limits, CountOne(limits, r.ip, r.phone, r.now), ip, phone);
    }
  }

  // ----- The rate limit -----

  /** A reset needs ten minutes on the stored clock, which may lag by 999 ms. */
  const SPAN := 599_001

  /** Four counted lookups never lie closer together than this. */
  ghost predicate Spread(t: seq<int>, span: int) {
    forall i, l :: 0 <= i && i + 3 <= l < |t| ==> t[l] - t[i] >= span
  }

  ghost predicate Sorted(t: seq<int>, now: int) {
    (forall i, j :: 0 <= i < j < |t| ==> t[i] <= t[j]) && (t != [] ==> t[|t| - 1] <= now)
  }

  /**
   The counter counts the last lookups since a reset; the one before them is far away.
   `now` is any time not before the last request.
   */
  ghost predicate CounterOk(i: int, limits: seq<Limit>, t: seq<int>, now: int)
    requires -1 <= i < |limits|
  {
    && Sorted(t, now) && Spread(t, SPAN)
    && (i < 0 <==> t == [])
    && (i >= 0 ==> RowOk(limits[i].attempts, limits[i].last, t, now))
  }

  ghost predicate RowOk(attempts: nat, last: int, t: seq<int>, now: int) {
    && t != [] && attempts <= MAX_ATTEMPTS && attempts <= |t|
    && last >= Stored(t[|t| - 1])
    && (attempts < |t| ==> now >= t[|t| - 1 - attempts] + SPAN)
    && (0 < attempts < |t| ==> t[|t| - attempts] >= t[|t| - 1 - attempts] + SPAN)
  }

  lemma RowLater(attempts: nat, last: int, t: seq<int>, at: int, now: int)
    requires RowOk(attempts, last, t, at) && Sorted(t, at) && at <= now
    ensures RowOk(attempts, last, t, now) && Sorted(t, now)
  {
  }

  /** A first lookup, or one ten minutes after the last. */
  lemma RowAfresh(attempts: nat, last: int, t: seq<int>, at: int, now: int)
    requires Sorted(t, at) && Spread(t, SPAN) && at <= now
    requires t == [] || (RowOk(attempts, last, t, at) && at - last >= TEN_MINUTES)
    ensures RowOk(1, Stored(at), t + [at], now) && Sorted(t + [at], now) && Spread(t + [at], SPAN)
    ensures t != [] ==> RowOk(0, Stored(at), t, now)
  {
  }

  /** One more lookup, of at most three in a row. */
  lemma RowCounted(attempts: nat, last: int, t: seq<int>, at: int, now: int)
    requires Sorted(t, at) && Spread(t, SPAN) && at <= now
    requires RowOk(attempts, last, t, at) && attempts < MAX_ATTEMPTS
    ensures RowOk(attempts + 1, Stored(at), t + [at], now) && Sorted(t + [at], now) && Spread(t + [at], SPAN)
  {
  }

  lemma {:induction false} CounterInvariant(ops: seq<Op>, ip: string, phone: string, now: int)
    requires Monotone(ops) && forall i :: 0 <= i < |ops| && ops[i].Lookup? ==> ops[i].r.now <= now
    ensures var s := Run(ops); CounterOk(Find(s.limits, ip, phone), s.limits, CountedTimes(ops, ip, phone), now)
  {
    hide Serve, Sorted, Spread, RowOk;
    if ops == [] {
      NoneSorted([], now);
    } else {
      var n := |ops| - 1;
      var front, op := ops[..n], ops[n];
      var before := if op.Lookup? then op.r.now else now;
      CounterInvariant(front, ip, phone, before);
      assert CountedTimes(front, ip, phone) + [] == CountedTimes(front, ip, phone);
      if op.Lookup? {
        LookupKeepsCounter(front, op.r, ip, phone, now);
      }
    }
  }

  lemma LookupKeepsCounter(front: seq<Op>, r: Request, ip: string, phone: string, now: int)
    requires r.now <= now
    requires var s := Run(front); CounterOk(Find(s.limits, ip, phone), s.limits, CountedTimes(front, ip, phone), r.now)
    ensures var s := Serve(Run(front), r).0;
            var t := CountedTimes(front, ip, phone) + if CountsFor(Run(front), Lookup(r), ip, phone) then [r.now] else [];
            CounterOk(Find(s.limits, ip, phone), s.limits, t, now)
  {
    hide Serve, Run, CountedTimes, RowOk, Sorted, Spread, Find;
    var s := Run(front);
    var s' := Serve(s, r).0;
    RowAfter(s, r, ip, phone);
    RefusalGuards(s, r);
    var t, i, i' := CountedTimes(front, ip, phone), Find(s.limits, ip, phone), Find(s'.limits, ip, phone);
    assert t + [] == t;
    if i < 0 {
      NoneSorted(t, now);
      RowAfresh(0, 0, t, r.now, now);
    } else {
      var (a, last) := (s.limits[i].attempts, s.limits[i].last);
      RowLater(a, last, t, r.now, now);
      if r.now - last >= TEN_MINUTES {
        RowAfresh(a, last, t, r.now, now);
      } else if CountsFor(s, Lookup(r), ip, phone) {
        RowCounted(a, last, t, r.now, now);
      }
    }
  }

  lemma NoneSorted(t: seq<int>, now: int)
    ensures t == [] ==> Sorted(t, now) && Spread(t, SPAN)
  {
  }

  lemma RefusalGuards(s: State, r: Request)
    ensures var i := Find(s.limits, r.ip, r.phone);
            Counts(s, r) && i >= 0 && r.now - s.limits[i].last < TEN_MINUTES ==> s.limits[i].attempts < MAX_ATTEMPTS
  {
  }

  /** The lookup starts the counter of the address and phone afresh: there is no row, or the row is ten minutes old. */
  predicate Restarts(s: State, op: Op, ip: string, phone: string) {
    && op.Lookup? && op.r.ip == ip && op.r.phone == phone && Serve(s, op.r).1 != TooMany
    && (Find(s.limits, ip, phone) < 0 || op.r.now - s.limits[Find(s.limits, ip, phone)].last >= TEN_MINUTES)
  }

  /** The position of the last operation that started the counter afresh; 0 if none has. */
  function LastRestart(ops: seq<Op>, ip: string, phone: string): (k: nat)
    ensures k <= |ops|
  {
    if ops == [] then 0
    else
      var n := |ops| - 1;
      if Restarts(Run(ops[..n]), ops[n], ip, phone) then n else LastRestart(ops[..n], ip, phone)
  }

  lemma {:induction false} LastRestartIsLast(ops: seq<Op>, ip: string, phone: string)
    ensures var k := LastRestart(ops, ip, phone);
            && (forall j :: k < j < |ops| ==> !Restarts(Run(ops[..j]), ops[j], ip, phone))
            && (k > 0 ==> k < |ops| && Restarts(Run(ops[..k]), ops[k], ip, phone))
  {
    hide Restarts, Run;
    if ops != [] {
      var front := ops[..|ops| - 1];
      LastRestartIsLast(front, ip, phone);
      assert forall j :: 0 <= j < |front| ==> front[..j] == ops[..j] && front[j] == ops[j];
    }
  }

  /** Over every run the counter is the number of counted lookups since it was last started afresh. */
  lemma {:induction false} CounterCountsSinceRestart(ops: seq<Op>, ip: string, phone: string)
    ensures Attempts(Run(ops), ip, phone)
            == |CountedTimes(ops, ip, phone)| - |CountedTimes(ops[..LastRestart(ops, ip, phone)], ip, phone)|
  {
    if ops != [] {
      var n := |ops| - 1;
      var front, op := ops[..n], ops[n];
      CounterCountsSinceRestart(front, ip, phone);
      var k := LastRestart(front, ip, phone);
      assert ops[..k] == front[..k];
      if op.Lookup? {
        RowAfter(Run(front), op.r, ip, phone);
      }
      hide Serve, Find;
    }
  }

  /** Over every run the stored counter stays at most 3 and four counted lookups span at least 599001 ms. */
  lemma RateLimitHolds(ops: seq<Op>, ip: string, phone: string)
    requires Monotone(ops)
    ensures Attempts(Run(ops), ip, phone) <= 3
    ensures Spread(CountedTimes(ops, ip, phone), SPAN)
  {
    CounterInvariant(ops, ip, phone, LastTime(ops));
  }

  function LastTime(ops: seq<Op>): (now: int)
    ensures forall i :: 0 <= i < |ops| && ops[i].Lookup? ==> ops[i].r.now <= now
  {
    if ops == [] then 0
    else
      var n := |ops| - 1;
      var m := LastTime(ops[..n]);
      if ops[n].Lookup? && ops[n].r.now > m then ops[n].r.now else m
  }

  // ----- The span is exact -----

  function At(now: int): Op {
    Lookup(Request(now, "a", "p", "t"))
  }

  /** Three lookups at the end of a second, and a fourth exactly 599001 ms later. */
  function TightRun(): seq<Op> {
    [At(999), At(999), At(999), At(600_000)]
  }

  lemma ServeFake(k: nat, now: int)
    requires k < 3 && now / 1000 == 0
    ensures Serve(State(if k == 0 then [] else [Limit("a", "p", k, 0)], [], 1), At(now).r)
            == (State([Limit("a", "p", k + 1, 0)], [], 1), Fake)
  {
    var limits := if k == 0 then [] else [Limit("a", "p", k, 0)];
    assert k > 0 ==> Find(limits, "a", "p") == 0;
    assert Stored(now) == 0 && now < TEN_MINUTES;
    assert CountOne(limits, "a", "p", now) == [Limit("a", "p", k + 1, 0)];
  }

  lemma CountFake(ops: seq<Op>, now: int, k: nat)
    requires Run(ops) == State(if k == 0 then [] else [Limit("a", "p", k, 0)], [], 1) && k < 3 && now / 1000 == 0
    ensures Run(ops + [At(now)]) == State([Limit("a", "p", k + 1, 0)], [], 1)
    ensures CountedTimes(ops + [At(now)], "a", "p") == CountedTimes(ops, "a", "p") + [now]
  {
    hide Serve;
    assert (ops + [At(now)])[..|ops|] == ops;
    ServeFake(k, now);
  }

  lemma NothingYet()
    ensures Run([]) == State([], [], 1) && CountedTimes([], "a", "p") == []
  {
  }

  lemma ThreeAtOnce()
    ensures var a := At(999); var three := [a, a, a];
            && Run(three) == State([Limit("a", "p", 3, 0)], [], 1)
            && CountedTimes(three, "a", "p") == [999, 999, 999]
  {
    hide *;
    var a := At(999);
    NothingYet();
    CountFake([], 999, 0);
    CountFake([] + [a], 999, 1);
    CountFake([] + [a] + [a], 999, 2);
    assert [] + [a] + [a] + [a] == [a, a, a];
  }

  lemma TightRunSpans()
    ensures Monotone(TightRun()) && CountedTimes(TightRun(), "a", "p") == [999, 999, 999, 600_000]
  {
    var a := At(999);
    var three := [a, a, a];
    ThreeAtOnce();
    assert TightRun() == three + [At(600_000)] && TightRun()[..3] == three;
    assert Serve(Run(three), At(600_000).r).1 == Fake;
  }

  /** The bound holds for every run exactly up to 599001 ms: ten minutes are not guaranteed. */
  lemma SpanIsExact(span: int)
    ensures (forall ops: seq<Op>, ip: string, phone: string | Monotone(ops) :: Spread(CountedTimes(ops, ip, phone), span))
            <==> span <= SPAN
  {
    if span <= SPAN {
      forall ops: seq<Op>, ip: string, phone: string | Monotone(ops) ensures Spread(CountedTimes(ops, ip, phone), span) {
        RateLimitHolds(ops, ip, phone);
      }
    } else {
      TightRunSpans();
      var t := CountedTimes(TightRun(), "a", "p");
      assert t[3] - t[0] == SPAN;
      assert !Spread(t, span);
    }
  }

  // ----- One-shot release -----

  ghost predicate SafesOk(s: State) {
    && (forall i :: 0 <= i < |s.safes| ==> s.safes[i].id < s.nextId)
    && (forall i, j :: 0 <= i < j < |s.safes| ==> s.safes[i].id != s.safes[j].id)
  }

  /** The safe cannot be handed out any more. */
  ghost predicate Spent(s: State, id: int) {
    id < s.nextId && forall i :: 0 <= i < |s.safes| && s.safes[i].id == id ==> s.safes[i].consumed
  }

  lemma ApplyKeepsSafes(s: State, op: Op)
    requires SafesOk(s)
    ensures SafesOk(Apply(s, op))
    ensures forall id | Spent(s, id) :: Spent(Apply(s, op), id)
    ensures op.Lookup? && Serve(s, op.r).1.Real? ==>
              !Spent(s, Serve(s, op.r).1.id) && Spent(Apply(s, op), Serve(s, op.r).1.id)
  {
    match op
    case Drop(_, _, _, _) =>
    case Lookup(r) => LookupKeepsSafes(s, r);
  }

  lemma LookupKeepsSafes(s: State, r: Request)
    requires SafesOk(s)
    ensures SafesOk(Serve(s, r).0)
    ensures forall id | Spent(s, id) :: Spent(Serve(s, r).0, id)
    ensures Serve(s, r).1.Real? ==> !Spent(s, Serve(s, r).1.id) && Spent(Serve(s, r).0, Serve(s, r).1.id)
  {
    var s' := Serve(s, r).0;
    var i := Newest(s.safes, r.phone, r.time);
    hide CountOne, AfterReset, Refused, GlobalAttempts, Newest, SafesOk, Spent, Remove, Consume;
    SameSafesKeep(s, s');
    if i >= 0 {
      RemoveKeeps(s, i);
      ConsumeKeeps(s, i);
      SameSafesKeep(s.(safes := Remove(s.safes, i)), s');
      SameSafesKeep(s.(safes := Consume(s.safes, i)), s');
    }
  }

  lemma SameSafesKeep(s: State, s': State)
    ensures s'.safes == s.safes && s'.nextId == s.nextId && SafesOk(s) ==> SafesOk(s')
    ensures s'.safes == s.safes && s'.nextId == s.nextId ==> forall id :: Spent(s, id) <==> Spent(s', id)
  {
  }

  lemma ConsumeKeeps(s: State, i: nat)
    requires SafesOk(s) && i < |s.safes| && !s.safes[i].consumed
    ensures var s' := s.(safes := Consume(s.safes, i));
            && SafesOk(s') && (forall id | Spent(s, id) :: Spent(s', id))
            && !Spent(s, s.safes[i].id) && Spent(s', s.safes[i].id)
  {
  }

  lemma RemoveKeeps(s: State, i: nat)
    requires SafesOk(s) && i < |s.safes|
    ensures SafesOk(s.(safes := Remove(s.safes, i)))
    ensures forall id | Spent(s, id) :: Spent(s.(safes := Remove(s.safes, i)), id)
  {
  }

  lemma {:induction false} RunKeepsSafes(ops: seq<Op>)
    ensures SafesOk(Run(ops))
  {
    hide Apply;
    if ops != [] {
      RunKeepsSafes(ops[..|ops| - 1]);
      ApplyKeepsSafes(Run(ops[..|ops| - 1]), ops[|ops| - 1]);
    }
  }

  lemma {:induction false} SpentStays(ops: seq<Op>, k: nat, id: int)
    requires k <= |ops| && Spent(Run(ops[..k]), id)
    ensures Spent(Run(ops), id)
    decreases |ops|
  {
    hide Apply, Spent, SafesOk, Serve;
    if k < |ops| {
      var n := |ops| - 1;
      assert ops[..n][..k] == ops[..k];
      SpentStays(ops[..n], k, id);
      RunKeepsSafes(ops[..n]);
      ApplyKeepsSafes(Run(ops[..n]), ops[n]);
    } else {
      assert ops[..k] == ops;
    }
  }

  /** The answer to the k-th operation of a run. */
  function Answer(ops: seq<Op>, k: nat): Response
    requires k < |ops| && ops[k].Lookup?
  {
    Serve(Run(ops[..k]), ops[k].r).1
  }

  /** Over every run of deposits and lookups, each real safe is handed out at most once. */
  lemma ReleasedOnce(ops: seq<Op>, i: nat, j: nat)
    requires i < j < |ops| && ops[i].Lookup? && ops[j].Lookup?
    requires Answer(ops, i).Real? && Answer(ops, j).Real?
    ensures Answer(ops, i).id != Answer(ops, j).id
  {
    hide Spent, SafesOk, Serve;
    var id := Answer(ops, i).id;
    RunKeepsSafes(ops[..i]);
    ApplyKeepsSafes(Run(ops[..i]), ops[i]);
    assert ops[..i + 1][..i] == ops[..i];
    assert ops[..j][..i + 1] == ops[..i + 1];
    SpentStays(ops[..j], i + 1, id);
    RunKeepsSafes(ops[..j]);
    ApplyKeepsSafes(Run(ops[..j]), ops[j]);
  }
}
