/** Every interleaving of queueing, syncing, reporting and waiting. */
module MailboxRuns {
  import opened Common
  import opened Mailbox

  /** A caller waiting for an outcome: what it knows, until it has returned. */
  datatype Wait =
    | NotFound
    | Waiting(job: string, channel: nat)
    | Taken(job: string, channel: nat, outcome: Outcome)
    | Expired(job: string, channel: nat)
    | Answered(job: string, channel: nat, outcome: Outcome)
    | TimedOut(job: string)

  datatype State = State(box: Box, waits: map<nat, Wait>, handed: seq<string>)

  datatype Label =
    | QueueInferJob(job: string, prompt: string)
    | QueueOther(wake: bool, ram: int)
    | PhoneReports(outcome: Outcome)
    | PhoneTakes
    | LookUp(wait: nat, job: string)
    | ReceiveOutcome(wait: nat)
    | TimeUp(wait: nat)
    | Unregister(wait: nat, job: string)

  function Init(): State {
    State(EMPTY, map[], [])
  }

  predicate Enabled(s: State, l: Label) {
    match l
    case QueueInferJob(job, _) => job != ""
    case PhoneReports(o) => CanReport(s.box, o)
    case LookUp(w, _) => w !in s.waits
    case ReceiveOutcome(w) =>
      w in s.waits && s.waits[w].Waiting? && s.waits[w].channel < |s.box.channels|
      && s.box.channels[s.waits[w].channel].buffer != []
    case TimeUp(w) => w in s.waits && s.waits[w].Waiting?
    case Unregister(w, job) => w in s.waits && (s.waits[w].Taken? || s.waits[w].Expired?) && s.waits[w].job == job
    case _ => true
  }

  function Do(s: State, l: Label): State
    requires Enabled(s, l)
  {
    match l
    case QueueInferJob(job, prompt) => s.(box := QueueInfer(s.box, job, prompt))
    case QueueOther(wake, ram) => s.(box := if wake then QueueWake(s.box, ram) else QueueStop(s.box))
    case PhoneReports(o) => s.(box := Report(s.box, o))
    case PhoneTakes =>
      var r := ResponseTo(s.box);
      s.(box := Take(s.box), handed := if r.command == Infer then s.handed + [r.job] else s.handed)
    case LookUp(w, job) =>
      s.(waits := s.waits[w := if job in s.box.waiters then Waiting(job, s.box.waiters[job]) else NotFound])
    case ReceiveOutcome(w) =>
      var c := s.waits[w].channel;
      s.(box := Receive(s.box, c), waits := s.waits[w := Taken(s.waits[w].job, c, s.box.channels[c].buffer[0])])
    case TimeUp(w) => s.(waits := s.waits[w := Expired(s.waits[w].job, s.waits[w].channel)])
    case Unregister(w, job) =>
      var done := match s.waits[w]
        case Taken(j, c, o) => Answered(j, c, o)
        case _ => TimedOut(job);
      s.(box := Forget(s.box, job), waits := s.waits[w := done])
  }

  /** The state after the labels, if each was possible in its turn. */
  function Run(labels: seq<Label>): Option<State> {
    if labels == [] then Some(Init())
    else
      var n := |labels| - 1;
      match Run(labels[..n])
      case None => None
      case Some(s) => if Enabled(s, labels[n]) then Some(Do(s, labels[n])) else None
  }

  /** The jobs queued so far, in order. */
  function Queued(labels: seq<Label>): seq<string> {
    if labels == [] then []
    else
      var n := |labels| - 1;
      Queued(labels[..n]) + if labels[n].QueueInferJob? then [labels[n].job] else []
  }

  // ----- The invariant -----

  ghost predicate Registered(b: Box) {
    forall job | job in b.waiters ::
      && b.waiters[job] < |b.channels|
      && b.channels[b.waiters[job]] == Channel(job, [])
  }

  ghost predicate Channels(b: Box, labels: seq<Label>) {
    && |b.channels| == |Queued(labels)|
    && forall c :: 0 <= c < |b.channels| ==>
         && b.channels[c].job == Queued(labels)[c]
         && |b.channels[c].buffer| <= CAPACITY
         && forall o | o in b.channels[c].buffer :: o.job == b.channels[c].job
  }

  /** The wait looked its job up before the phone reported the outcome. */
  ghost predicate LookedUpBefore(labels: seq<Label>, w: nat, o: Outcome) {
    exists i, j :: 0 <= i < j < |labels| && labels[i] == LookUp(w, o.job) && labels[j] == PhoneReports(o)
  }

  ghost predicate WaitOk(s: State, labels: seq<Label>, w: nat)
    requires w in s.waits
  {
    match s.waits[w]
    case Waiting(job, c) =>
      && c < |s.box.channels| && s.box.channels[c].job == job
      && LookUp(w, job) in labels
      && forall o | o in s.box.channels[c].buffer :: LookedUpBefore(labels, w, o)
    case Taken(job, c, o) =>
      c < |s.box.channels| && s.box.channels[c] == Channel(job, []) && o.job == job && LookedUpBefore(labels, w, o)
    case Answered(job, c, o) =>
      c < |s.box.channels| && s.box.channels[c] == Channel(job, []) && o.job == job && LookedUpBefore(labels, w, o)
    case _ => true
  }

  /** The wait has an outcome out of channel c. */
  predicate Holds(s: State, w: nat, c: nat) {
    w in s.waits && (s.waits[w].Taken? || s.waits[w].Answered?) && s.waits[w].channel == c
  }

  /** An outcome taken out of a channel is the only one: the job is no longer registered with it. */
  ghost predicate HeldOnce(s: State) {
    && (forall w, c | Holds(s, w, c) :: forall job | job in s.box.waiters :: s.box.waiters[job] != c)
    && (forall w, v, c | Holds(s, w, c) && Holds(s, v, c) :: w == v)
  }

  ghost predicate Inv(s: State, labels: seq<Label>) {
    && Registered(s.box)
    && Channels(s.box, labels)
    && (forall w | w in s.waits :: WaitOk(s, labels, w))
    && HeldOnce(s)
  }

  lemma LookedUpStays(labels: seq<Label>, l: Label, w: nat, o: Outcome)
    requires LookedUpBefore(labels, w, o)
    ensures LookedUpBefore(labels + [l], w, o)
  {
    var i, j :| 0 <= i < j < |labels| && labels[i] == LookUp(w, o.job) && labels[j] == PhoneReports(o);
    assert (labels + [l])[i] == labels[i] && (labels + [l])[j] == labels[j];
  }

  lemma ReportedNow(labels: seq<Label>, w: nat, o: Outcome)
    requires LookUp(w, o.job) in labels
    ensures LookedUpBefore(labels + [PhoneReports(o)], w, o)
  {
    var i :| 0 <= i < |labels| && labels[i] == LookUp(w, o.job);
    var all := labels + [PhoneReports(o)];
    assert all[i] == LookUp(w, o.job) && all[|labels|] == PhoneReports(o);
  }

  lemma StepHeld(s: State, l: Label, labels: seq<Label>)
    requires Inv(s, labels) && Enabled(s, l)
    ensures HeldOnce(Do(s, l))
  {
    hide LookedUpBefore, Queued;
    var t := Do(s, l);
    forall w: nat, c: nat | Holds(s, w, c) ensures c < |s.box.channels| && s.box.channels[c].buffer == [] {
      assert WaitOk(s, labels, w);
    }
    forall w: nat, c: nat | Holds(t, w, c)
      ensures forall job | job in t.box.waiters :: t.box.waiters[job] != c
    {
      assert Holds(s, w, c) || (l == ReceiveOutcome(w) && s.box.channels[c].buffer != []);
    }
    forall w: nat, v: nat, c: nat | Holds(t, w, c) && Holds(t, v, c) ensures w == v {
      assert Holds(s, w, c) || l == ReceiveOutcome(w);
      assert Holds(s, v, c) || l == ReceiveOutcome(v);
    }
  }

  lemma StepWait(s: State, l: Label, labels: seq<Label>, w: nat)
    requires Inv(s, labels) && Enabled(s, l) && w in Do(s, l).waits
    ensures WaitOk(Do(s, l), labels + [l], w)
  {
    hide Queued, LookedUpBefore;
    forall o | LookedUpBefore(labels, w, o) ensures LookedUpBefore(labels + [l], w, o) {
      LookedUpStays(labels, l, w, o);
    }
    if w in s.waits {
      assert WaitOk(s, labels, w);
      if l.PhoneReports? && s.waits[w].Waiting? && s.waits[w].job == l.outcome.job {
        ReportedNow(labels, w, l.outcome);
      }
      assert Holds(s, w, if s.waits[w].Taken? || s.waits[w].Answered? then s.waits[w].channel else 0)
             || !(s.waits[w].Taken? || s.waits[w].Answered?);
    }
    assert l in labels + [l];
  }

  lemma StepInv(s: State, l: Label, labels: seq<Label>)
    requires Inv(s, labels) && Enabled(s, l)
    ensures Inv(Do(s, l), labels + [l])
  {
    StepHeld(s, l, labels);
    var t := Do(s, l);
    forall w | w in t.waits ensures WaitOk(t, labels + [l], w) {
      StepWait(s, l, labels, w);
    }
  }

  lemma {:induction false} RunInv(labels: seq<Label>)
    ensures Run(labels).Some? ==> Inv(Run(labels).value, labels)
  {
    if labels != [] && Run(labels).Some? {
      var front := labels[..|labels| - 1];
      RunInv(front);
      StepInv(Run(front).value, labels[|labels| - 1], front);
      assert labels == front + [labels[|labels| - 1]];
    }
  }

  // ----- What a run guarantees -----

  /** The send under the lock never blocks: a job still registered has an empty channel. */
  lemma SendNeverBlocks(labels: seq<Label>, o: Outcome)
    requires Run(labels).Some?
    ensures Enabled(Run(labels).value, PhoneReports(o))
    ensures var b := Run(labels).value.box;
            forall job | job in b.waiters :: b.waiters[job] < |b.channels| && b.channels[b.waiters[job]].buffer == []
  {
    RunInv(labels);
  }

  /** A wait that has an answer has the answer to its own job, reported after it looked the job up. */
  lemma WaitGetsItsOwnOutcome(labels: seq<Label>, w: nat)
    requires Run(labels).Some? && w in Run(labels).value.waits && Run(labels).value.waits[w].Answered?
    ensures var a := Run(labels).value.waits[w]; a.outcome.job == a.job && LookedUpBefore(labels, w, a.outcome)
  {
    RunInv(labels);
    assert WaitOk(Run(labels).value, labels, w);
  }

  /** If job ids do not repeat, at most one wait for a job is answered. */
  lemma OneAnswerPerJob(labels: seq<Label>, w: nat, v: nat)
    requires Run(labels).Some? && w in Run(labels).value.waits && v in Run(labels).value.waits
    requires forall i, j :: 0 <= i < j < |Queued(labels)| ==> Queued(labels)[i] != Queued(labels)[j]
    ensures var s := Run(labels).value;
            s.waits[w].Answered? && s.waits[v].Answered? && s.waits[w].job == s.waits[v].job ==> w == v
  {
    RunInv(labels);
    var s := Run(labels).value;
    assert WaitOk(s, labels, w) && WaitOk(s, labels, v);
    if s.waits[w].Answered? && s.waits[v].Answered? && s.waits[w].job == s.waits[v].job {
      var c, d := s.waits[w].channel, s.waits[v].channel;
      assert s.box.channels[c].job == Queued(labels)[c] && s.box.channels[d].job == Queued(labels)[d];
      assert Holds(s, w, c) && Holds(s, v, d);
    }
  }

  // ----- When a wait finds its channel -----

  predicate Opens(l: Label, job: string) {
    l.QueueInferJob? && l.job == job
  }

  predicate Closes(l: Label, job: string) {
    (l.PhoneReports? && l.outcome.job == job) || (l.Unregister? && l.job == job)
  }

  ghost predicate IsOpen(labels: seq<Label>, job: string) {
    exists i :: 0 <= i < |labels| && Opens(labels[i], job) && forall j :: i < j < |labels| ==> !Closes(labels[j], job)
  }

  lemma OpenExtends(labels: seq<Label>, l: Label, job: string)
    ensures IsOpen(labels + [l], job) <==> Opens(l, job) || (IsOpen(labels, job) && !Closes(l, job))
  {
    var all := labels + [l];
    assert all[|labels|] == l;
    if IsOpen(labels, job) && !Closes(l, job) {
      var i :| 0 <= i < |labels| && Opens(labels[i], job) && forall j :: i < j < |labels| ==> !Closes(labels[j], job);
      assert Opens(all[i], job);
      forall j | i < j < |all| ensures !Closes(all[j], job) {
        assert j < |labels| ==> all[j] == labels[j];
      }
    }
    if IsOpen(all, job) && !Opens(l, job) {
      var i :| 0 <= i < |all| && Opens(all[i], job) && forall j :: i < j < |all| ==> !Closes(all[j], job);
      assert Opens(labels[i], job);
      forall j | i < j < |labels| ensures !Closes(labels[j], job) {
        assert all[j] == labels[j];
      }
    }
  }

  /**
   A wait finds a channel exactly if its job was queued and since then neither reported on nor
   given up by another wait. So an outcome reported before the look-up is lost: the wait does
   not find its channel.
   */
  lemma {:induction false} FoundIffNothingCameFirst(labels: seq<Label>, job: string)
    requires Run(labels).Some? && job != ""
    ensures job in Run(labels).value.box.waiters <==> IsOpen(labels, job)
  {
    if labels == [] {
    } else {
      var front, l := labels[..|labels| - 1], labels[|labels| - 1];
      assert labels == front + [l];
      FoundIffNothingCameFirst(front, job);
      OpenExtends(front, l, job);
      RunInv(front);
      hide IsOpen, LookedUpBefore, Queued;
    }
  }

  // ----- A reported outcome stays for the wait -----

  /** The outcome lies in the wait's channel, and nobody can add to it or take it but the wait. */
  ghost predicate Ready(s: State, w: nat, c: nat, o: Outcome) {
    && w in s.waits && s.waits[w] == Waiting(o.job, c) && c < |s.box.channels| && s.box.channels[c] == Channel(o.job, [o])
    && forall job | job in s.box.waiters :: s.box.waiters[job] != c
  }

  /** No other wait ever looks the job up, and this one neither takes its outcome nor gives up. */
  ghost predicate LeavesAlone(labels: seq<Label>, w: nat, job: string) {
    forall l | l in labels :: l != ReceiveOutcome(w) && l != TimeUp(w) && (l.LookUp? && l.job == job ==> l.wait == w)
  }

  lemma ReadyStep(s: State, l: Label, labels: seq<Label>, w: nat, c: nat, o: Outcome)
    requires Inv(s, labels) && Enabled(s, l) && Ready(s, w, c, o) && LeavesAlone(labels + [l], w, o.job)
    ensures Ready(Do(s, l), w, c, o)
  {
    hide LookedUpBefore, Queued;
    assert forall x | x in labels :: x in labels + [l];
    assert l in labels + [l];
    if l.ReceiveOutcome? {
      assert WaitOk(s, labels, l.wait);
    }
  }

  lemma ReadyFirst(s: State, labels: seq<Label>, w: nat, c: nat, o: Outcome)
    requires Inv(s, labels) && w in s.waits && s.waits[w] == Waiting(o.job, c)
    requires o.job != "" && o.job in s.box.waiters && s.box.waiters[o.job] == c
    ensures Enabled(s, PhoneReports(o)) && Ready(Do(s, PhoneReports(o)), w, c, o)
  {
    hide LookedUpBefore, Queued;
    forall job | job in s.box.waiters && s.box.waiters[job] == c ensures job == o.job {
      assert s.box.channels[c] == Channel(job, []);
    }
  }

  /**
   An outcome reported for a job a wait has looked up stays in its channel, whatever else
   happens, until the wait takes it or gives up; taken, it is the wait's answer.
   */
  lemma {:induction false} ReportedIsReceived(labels: seq<Label>, w: nat, c: nat, o: Outcome, rest: seq<Label>)
    requires Run(labels).Some? && w in Run(labels).value.waits && Run(labels).value.waits[w] == Waiting(o.job, c)
    requires o.job != "" && o.job in Run(labels).value.box.waiters && Run(labels).value.box.waiters[o.job] == c
    requires var all := labels + [PhoneReports(o)] + rest; Run(all).Some? && LeavesAlone(all, w, o.job)
    ensures var s := Run(labels + [PhoneReports(o)] + rest).value;
            && Ready(s, w, c, o) && Enabled(s, ReceiveOutcome(w))
            && Do(s, ReceiveOutcome(w)).waits[w] == Taken(o.job, c, o)
  {
    hide Inv, LeavesAlone;
    var reported := labels + [PhoneReports(o)];
    var all := reported + rest;
    if rest == [] {
      RunInv(labels);
      ReadyFirst(Run(labels).value, labels, w, c, o);
      assert all == reported && all[..|all| - 1] == labels && all[|all| - 1] == PhoneReports(o);
    } else {
      var n := |rest| - 1;
      var front := reported + rest[..n];
      assert all[..|all| - 1] == front && all[|all| - 1] == rest[n] && all == front + [rest[n]];
      FrontLeavesAlone(front, rest[n], w, o.job);
      ReportedIsReceived(labels, w, c, o, rest[..n]);
      RunInv(front);
      ReadyStep(Run(front).value, rest[n], front, w, c, o);
    }
  }

  lemma FrontLeavesAlone(front: seq<Label>, l: Label, w: nat, job: string)
    requires LeavesAlone(front + [l], w, job)
    ensures LeavesAlone(front, w, job)
  {
    assert forall x | x in front :: x in front + [l];
  }

  // ----- What the phone is handed -----

  predicate Queues(l: Label) {
    l.QueueInferJob? || l.QueueOther?
  }

  /** The command queued last since the phone took one. */
  function LastQueued(labels: seq<Label>): Option<Label>
    ensures LastQueued(labels).Some? ==> Queues(LastQueued(labels).value)
  {
    if labels == [] then None
    else
      var l := labels[|labels| - 1];
      if Queues(l) then Some(l) else if l.PhoneTakes? then None else LastQueued(labels[..|labels| - 1])
  }

  function Answering(l: Option<Label>): Response {
    match l
    case Some(QueueInferJob(job, prompt)) => Response(Infer, 0, job, prompt)
    case Some(QueueOther(wake, ram)) => if wake then Response(Wake, ram, "", "") else Response(Stop, 0, "", "")
    case _ => NOTHING
  }

  /** The phone gets the command queued last, whole and nothing of any earlier one; then nothing. */
  lemma {:induction false} PhoneGetsTheLastCommand(labels: seq<Label>)
    requires Run(labels).Some?
    ensures ResponseTo(Run(labels).value.box) == Answering(LastQueued(labels))
  {
    if labels != [] {
      PhoneGetsTheLastCommand(labels[..|labels| - 1]);
    }
  }

  function Count(jobs: seq<string>, job: string): nat {
    multiset(jobs)[job]
  }

  /** A job is handed to the phone at most as often as it was queued: once, if ids do not repeat. */
  lemma {:induction false} HandedAtMostOncePerQueueing(labels: seq<Label>, job: string)
    requires Run(labels).Some?
    ensures Handed(Run(labels).value, job) <= Count(Queued(labels), job)
  {
    if labels != [] {
      var n := |labels| - 1;
      HandedAtMostOncePerQueueing(labels[..n], job);
      StepHands(Run(labels[..n]).value, labels[n], job);
      hide Handed, Do;
    }
  }

  /** How often the job was handed to the phone, or is about to be. */
  function Handed(s: State, job: string): nat {
    Count(s.handed, job) + if s.box.pending.command == Infer && s.box.pending.job == job then 1 else 0
  }

  lemma StepHands(s: State, l: Label, job: string)
    requires Enabled(s, l)
    ensures Handed(Do(s, l), job) <= Handed(s, job) + if Opens(l, job) then 1 else 0
  {
    hide CanReport;
  }

  // ----- Job ids -----

  /** The digits appended to the second of a job id, drawn from the clock's nanoseconds. */
  function RandomHex(n: nat, now: nat, i: nat): (digits: seq<nat>)
    requires i <= n
    decreases n - i
  {
    if i == n then [] else [(now + i * 17) % 16] + RandomHex(n, now / 2, i + 1)
  }

  /** The digits are the same exactly if the lowest seven bits of the clock are. */
  lemma JobIdsRepeat(now: nat, later: nat)
    ensures RandomHex(4, now, 0) == RandomHex(4, later, 0) <==> now % 128 == later % 128
  {
    var r, t := now % 128, later % 128;
    Halved(now, now / 128, r);
    Halved(later, later / 128, t);
    if RandomHex(4, now, 0) == RandomHex(4, later, 0) {
      assert RandomHex(4, now, 0)[0] == RandomHex(4, later, 0)[0] && RandomHex(4, now, 0)[3] == RandomHex(4, later, 0)[3];
      HighBits(r, t);
    }
  }

  lemma HighBits(r: nat, t: nat)
    requires r < 128 && t < 128 && r % 16 == t % 16
    requires (r / 2 / 2 / 2 + 51) % 16 == (t / 2 / 2 / 2 + 51) % 16
    ensures r == t
  {
    var u, v := r / 2 / 2 / 2, t / 2 / 2 / 2;
    Eighth(r);
    Eighth(t);
    Residues(u, v);
    assert r - t == 16 * (r / 16 - t / 16);
  }

  lemma Eighth(r: nat)
    ensures var u := r / 2 / 2 / 2; 8 * u <= r < 8 * u + 8
  {
  }

  lemma Residues(u: nat, v: nat)
    requires u < 16 && v < 16 && (u + 51) % 16 == (v + 51) % 16
    ensures u == v
  {
    assert (u + 51) % 16 == if u < 13 then u + 3 else u - 13;
    assert (v + 51) % 16 == if v < 13 then v + 3 else v - 13;
  }

  /** The digits a clock at 0, 1, ..., k - 1 gives. */
  ghost function DigitsBelow(k: nat): set<seq<nat>> {
    set n: nat | n < k :: RandomHex(4, n, 0)
  }

  /**
   Within a second there are exactly 128 job ids, so ids do repeat once more jobs are queued in
   it: that they do not is an assumption of `OneAnswerPerJob`, not a fact.
   */
  lemma ExactlyAHundredAndTwentyEight()
    ensures |DigitsBelow(128)| == 128
    ensures forall now: nat :: RandomHex(4, now, 0) in DigitsBelow(128)
  {
    hide RandomHex, DigitsBelow;
    DigitsDiffer(128);
    forall now: nat ensures RandomHex(4, now, 0) in DigitsBelow(128) {
      LowBits(now);
    }
  }

  lemma LowBits(now: nat)
    ensures RandomHex(4, now, 0) in DigitsBelow(128)
  {
    hide RandomHex;
    var n := now % 128;
    assert n % 128 == n;
    JobIdsRepeat(now, n);
    assert RandomHex(4, n, 0) in DigitsBelow(128);
  }

  lemma {:induction false} DigitsDiffer(k: nat)
    requires k <= 128
    ensures |DigitsBelow(k)| == k
  {
    hide RandomHex;
    if k > 0 {
      DigitsDiffer(k - 1);
      var d := RandomHex(4, k - 1, 0);
      if d in DigitsBelow(k - 1) {
        var n: nat :| n < k - 1 && RandomHex(4, n, 0) == d;
        JobIdsRepeat(n, k - 1);
        assert false;
      }
      assert DigitsBelow(k) == DigitsBelow(k - 1) + {d};
    } else {
      assert DigitsBelow(0) == {};
    }
  }

  lemma Halved(a: nat, q: nat, r: nat)
    requires a == 128 * q + r
    ensures var d := RandomHex(4, a, 0);
            d == [r % 16, (r / 2 + 17) % 16, (r / 2 / 2 + 34) % 16, (r / 2 / 2 / 2 + 51) % 16]
  {
    assert a / 2 == 64 * q + r / 2 && a / 2 / 2 == 32 * q + r / 2 / 2 && a / 2 / 2 / 2 == 16 * q + r / 2 / 2 / 2;
    Shift(8 * q, r);
    Shift(4 * q, r / 2 + 17);
    Shift(2 * q, r / 2 / 2 + 34);
    Shift(q, r / 2 / 2 / 2 + 51);
    var x, y, z := a / 2, a / 2 / 2, a / 2 / 2 / 2;
    assert RandomHex(4, a, 0) == [a % 16] + RandomHex(4, x, 1);
    assert RandomHex(4, x, 1) == [(x + 17) % 16] + RandomHex(4, y, 2);
    assert RandomHex(4, y, 2) == [(y + 34) % 16] + RandomHex(4, z, 3);
    assert RandomHex(4, z, 3) == [(z + 51) % 16] + RandomHex(4, z / 2, 4);
  }

  lemma Shift(q: nat, r: nat)
    ensures (16 * q + r) % 16 == r % 16
  {
  }
}
