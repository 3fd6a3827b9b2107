/** One relay node of the distress cascade: what it has seen, and what it sends to its guardians. */
module Cascade {
  import opened Common
  import opened AlertFormat
  import opened AlertText
  import opened SmsTypes
  import opened Selections

  const MAX_HOPS := 3

  datatype Relay = Relay(to: string, id: string, hop: int, body: string)

  datatype Node = Node(guardians: seq<string>, seen: set<string>, outbox: seq<Relay>)

  /** What may happen at a node: a distress trigger (always hop 1), or a text message arriving. */
  datatype Call =
    | Alarm(sender: string, id: string, phone: string, name: string, message: string)
    | Incoming(sender: string, body: string)

  /** One message for every guardian that is not the sender. */
  function Batch(guardians: seq<string>, sender: string, id: string, hop: int, body: string): seq<Relay> {
    if guardians == [] then []
    else
      var n := |guardians| - 1;
      Batch(guardians[..n], sender, id, hop, body)
      + if PhonesMatch(guardians[n], sender) then [] else [Relay(guardians[n], id, hop, body)]
  }

  // ----- Everybody is told -----

  function NotFrom(sender: string): string -> bool {
    (g: string) => !PhonesMatch(g, sender)
  }

  /** Every guardian but the sender gets exactly one of the messages, in the order of the list. */
  ghost predicate AllTold(guardians: seq<string>, sender: string, id: string, hop: int, body: string, sent: seq<Relay>) {
    exists told: seq<string> :: Selects(told, guardians, NotFrom(sender)) && Carries(sent, told, id, hop, body)
  }

  ghost predicate Carries(sent: seq<Relay>, told: seq<string>, id: string, hop: int, body: string) {
    |sent| == |told| && forall i :: 0 <= i < |told| ==> sent[i] == Relay(told[i], id, hop, body)
  }

  lemma {:induction false} BatchTellsAll(guardians: seq<string>, sender: string, id: string, hop: int, body: string)
    ensures AllTold(guardians, sender, id, hop, body, Batch(guardians, sender, id, hop, body))
  {
    hide PhonesMatch, Selects;
    if guardians == [] {
      SelectsNone(NotFrom(sender));
      assert Carries([], [], id, hop, body);
    } else {
      var front, last := guardians[..|guardians| - 1], guardians[|guardians| - 1];
      BatchTellsAll(front, sender, id, hop, body);
      var sent := Batch(front, sender, id, hop, body);
      var told: seq<string> :| Selects(told, front, NotFrom(sender)) && Carries(sent, told, id, hop, body);
      SelectsNext(told, front, last, NotFrom(sender));
      assert guardians == front + [last];
      assert Carries(sent + (if NotFrom(sender)(last) then [Relay(last, id, hop, body)] else []),
                     told + (if NotFrom(sender)(last) then [last] else []), id, hop, body);
    }
  }

  ghost function NotSenders(guardians: seq<string>, sender: string): set<nat> {
    set k: nat | k < |guardians| && !PhonesMatch(guardians[k], sender)
  }

  lemma {:induction false} BatchCounts(guardians: seq<string>, sender: string, id: string, hop: int, body: string)
    ensures |Batch(guardians, sender, id, hop, body)| == |NotSenders(guardians, sender)|
  {
    hide PhonesMatch;
    if guardians != [] {
      var n := |guardians| - 1;
      BatchCounts(guardians[..n], sender, id, hop, body);
      assert NotSenders(guardians, sender)
             == NotSenders(guardians[..n], sender) + if PhonesMatch(guardians[n], sender) then {} else {n};
      assert n !in NotSenders(guardians[..n], sender);
    }
  }

  // ----- Calls -----

  /** Starting or continuing a cascade: nothing for an id seen before or a hop over the limit. */
  function Triggered(n: Node, sender: string, id: string, hop: int, phone: string, name: string, message: string): Node {
    if id in n.seen then n
    else
      var sent := if hop > MAX_HOPS then []
                  else Batch(n.guardians, sender, id, hop, Build(id, hop, phone, name, message));
      n.(seen := n.seen + {id}, outbox := n.outbox + sent)
  }

  /**
   A message arriving, as the code has it: the id is marked here, and then again by the trigger,
   which therefore always stops.
   */
  function Received(n: Node, sender: string, body: string): Node {
    match Parse(body)
    case None => n
    case Some(a) =>
      if a.id in n.seen then n
      else
        var marked := n.(seen := n.seen + {a.id});
        if a.hop >= MAX_HOPS then marked
        else Triggered(marked, sender, a.id, a.hop + 1, a.phone, a.name, a.message)
  }

  /** The same, marking once: what the file's own description of the cascade asks for. */
  function ReceivedOnce(n: Node, sender: string, body: string): Node {
    match Parse(body)
    case None => n
    case Some(a) =>
      if a.id in n.seen then n
      else if a.hop >= MAX_HOPS then n.(seen := n.seen + {a.id})
      else Triggered(n, sender, a.id, a.hop + 1, a.phone, a.name, a.message)
  }

  function Step(n: Node, c: Call, markOnce: bool): Node {
    match c
    case Alarm(sender, id, phone, name, message) => Triggered(n, sender, id, 1, phone, name, message)
    case Incoming(sender, body) => if markOnce then ReceivedOnce(n, sender, body) else Received(n, sender, body)
  }

  function Run(n: Node, calls: seq<Call>, markOnce: bool): Node {
    if calls == [] then n
    else Step(Run(n, calls[..|calls| - 1], markOnce), calls[|calls| - 1], markOnce)
  }

  // ----- The messages for one alert -----

  function For(out: seq<Relay>, id: string): seq<Relay> {
    if out == [] then []
    else For(out[..|out| - 1], id) + if out[|out| - 1].id == id then [out[|out| - 1]] else []
  }

  lemma {:induction false} ForConcat(a: seq<Relay>, b: seq<Relay>, id: string)
    ensures For(a + b, id) == For(a, id) + For(b, id)
  {
    if b == [] {
      assert a + b == a;
    } else {
      var n := |b| - 1;
      assert (a + b)[..|a + b| - 1] == a + b[..n];
      ForConcat(a, b[..n], id);
    }
  }

  lemma {:induction false} ForBatch(guardians: seq<string>, sender: string, of: string, hop: int, body: string, id: string)
    ensures var batch := Batch(guardians, sender, of, hop, body);
            && |batch| <= |guardians|
            && For(batch, id) == if of == id then batch else []
  {
    if guardians != [] {
      var n := |guardians| - 1;
      ForBatch(guardians[..n], sender, of, hop, body, id);
      var front := Batch(guardians[..n], sender, of, hop, body);
      var last := if PhonesMatch(guardians[n], sender) then [] else [Relay(guardians[n], of, hop, body)];
      ForConcat(front, last, id);
    }
  }

  /** The call is about this alert. */
  predicate About(c: Call, id: string) {
    match c
    case Alarm(_, i, _, _, _) => i == id
    case Incoming(_, body) => Parse(body).Some? && Parse(body).value.id == id
  }

  /** What a node that has not seen the alert sends because of the call. */
  function Answer(guardians: seq<string>, c: Call, id: string, markOnce: bool): seq<Relay>
    requires About(c, id)
  {
    match c
    case Alarm(sender, i, phone, name, message) =>
      Batch(guardians, sender, i, 1, Build(i, 1, phone, name, message))
    case Incoming(sender, body) =>
      var a := Parse(body).value;
      if !markOnce || a.hop >= MAX_HOPS then []
      else Batch(guardians, sender, id, a.hop + 1, Build(id, a.hop + 1, a.phone, a.name, a.message))
  }

  /** The answer to the first call about the alert, if there is one. */
  function FirstAnswer(guardians: seq<string>, calls: seq<Call>, id: string, markOnce: bool): seq<Relay> {
    if calls == [] then []
    else if About(calls[0], id) then Answer(guardians, calls[0], id, markOnce)
    else FirstAnswer(guardians, calls[1..], id, markOnce)
  }

  lemma StepSends(n: Node, c: Call, id: string, markOnce: bool)
    ensures var m := Step(n, c, markOnce);
            && m.guardians == n.guardians
            && (id in m.seen <==> id in n.seen || About(c, id))
            && For(m.outbox, id) == For(n.outbox, id)
                 + if About(c, id) && id !in n.seen then Answer(n.guardians, c, id, markOnce) else []
  {
    hide Parse, Build, For, Batch;
    match c
    case Alarm(sender, i, phone, name, message) =>
      TriggeredSends(n, sender, i, 1, phone, name, message, id);
    case Incoming(sender, body) =>
      match Parse(body)
      case None =>
        assert For(n.outbox, id) + [] == For(n.outbox, id);
      case Some(a) =>
        IncomingSends(n, sender, body, a, id, markOnce);
  }

  lemma TriggeredSends(n: Node, sender: string, of: string, hop: int, phone: string, name: string, message: string, id: string)
    ensures var m := Triggered(n, sender, of, hop, phone, name, message);
            For(m.outbox, id) == For(n.outbox, id)
              + if of == id && id !in n.seen && hop <= MAX_HOPS
                then Batch(n.guardians, sender, id, hop, Build(id, hop, phone, name, message)) else []
  {
    var body := Build(of, hop, phone, name, message);
    hide Build, For, Batch, PhonesMatch;
    ForBatch(n.guardians, sender, of, hop, body, id);
    ForConcat(n.outbox, Batch(n.guardians, sender, of, hop, body), id);
    assert n.outbox + [] == n.outbox && For(n.outbox, id) + [] == For(n.outbox, id);
  }

  lemma IncomingSends(n: Node, sender: string, body: string, a: Alert, id: string, markOnce: bool)
    requires Parse(body) == Some(a)
    ensures var m := if markOnce then ReceivedOnce(n, sender, body) else Received(n, sender, body);
            For(m.outbox, id) == For(n.outbox, id)
              + if a.id == id && id !in n.seen && markOnce && a.hop < MAX_HOPS
                then Batch(n.guardians, sender, id, a.hop + 1, Build(id, a.hop + 1, a.phone, a.name, a.message)) else []
  {
    hide Parse, Build, For, Batch;
    TriggeredSends(n, sender, a.id, a.hop + 1, a.phone, a.name, a.message, id);
    assert n.outbox + [] == n.outbox && For(n.outbox, id) + [] == For(n.outbox, id);
  }

  function AnswerToAll(n: Node, calls: seq<Call>, id: string, markOnce: bool): seq<Relay> {
    if id in n.seen then [] else FirstAnswer(n.guardians, calls, id, markOnce)
  }

  /**
   Whatever calls a node gets, in whatever order and however often repeated, what it sends
   about an alert is its answer to the first call about it, and nothing after that.
   */
  lemma {:induction false} FirstCallDecides(n: Node, calls: seq<Call>, id: string, markOnce: bool)
    ensures var m := Run(n, calls, markOnce);
            && m.guardians == n.guardians
            && (id in m.seen <==> id in n.seen || exists c :: c in calls && About(c, id))
            && For(m.outbox, id) == For(n.outbox, id) + AnswerToAll(n, calls, id, markOnce)
  {
    hide About, Answer, Step, For;
    assert forall out: seq<Relay> :: out + [] == out;
    if calls == [] {
    } else {
      var front, last := calls[..|calls| - 1], calls[|calls| - 1];
      assert calls == front + [last];
      FirstCallDecides(n, front, id, markOnce);
      StepSends(Run(n, front, markOnce), last, id, markOnce);
      OneMoreCall(n.guardians, front, last, id, markOnce);
      var m := Run(n, front, markOnce);
      assert id !in n.seen ==> (id in m.seen <==> exists c :: c in front && About(c, id));
      assert (exists c :: c in calls && About(c, id)) <==> (exists c :: c in front && About(c, id)) || About(last, id);
    }
  }

  lemma {:induction false} OneMoreCall(guardians: seq<string>, front: seq<Call>, last: Call, id: string, markOnce: bool)
    ensures FirstAnswer(guardians, front + [last], id, markOnce)
            == if exists c :: c in front && About(c, id) then FirstAnswer(guardians, front, id, markOnce)
               else if About(last, id) then Answer(guardians, last, id, markOnce)
               else []
    ensures FirstAnswer(guardians, front, id, markOnce) != [] ==> exists c :: c in front && About(c, id)
  {
    hide About, Answer;
    if front != [] {
      assert (front + [last])[1..] == front[1..] + [last];
      assert front == [front[0]] + front[1..];
      OneMoreCall(guardians, front[1..], last, id, markOnce);
    }
  }

  /** What a node sends for a call: told without the code. */
  ghost predicate Answered(guardians: seq<string>, c: Call, id: string, markOnce: bool, sent: seq<Relay>)
    requires About(c, id)
  {
    match c
    case Alarm(sender, _, phone, name, message) =>
      AllTold(guardians, sender, id, 1, Build(id, 1, phone, name, message), sent)
    case Incoming(sender, body) =>
      var a := Parse(body).value;
      if markOnce && a.hop < MAX_HOPS
      then AllTold(guardians, sender, id, a.hop + 1, Build(id, a.hop + 1, a.phone, a.name, a.message), sent)
      else sent == []
  }

  lemma AnswerTells(guardians: seq<string>, c: Call, id: string, markOnce: bool)
    requires About(c, id)
    ensures Answered(guardians, c, id, markOnce, Answer(guardians, c, id, markOnce))
  {
    hide Build, Parse, Batch, AllTold;
    match c
    case Alarm(sender, i, phone, name, message) =>
      BatchTellsAll(guardians, sender, i, 1, Build(i, 1, phone, name, message));
    case Incoming(sender, body) =>
      var a := Parse(body).value;
      BatchTellsAll(guardians, sender, id, a.hop + 1, Build(id, a.hop + 1, a.phone, a.name, a.message));
  }

  lemma {:induction false} FirstAnswerIs(
      guardians: seq<string>, before: seq<Call>, c: Call, later: seq<Call>, id: string, markOnce: bool)
    requires (forall b | b in before :: !About(b, id)) && About(c, id)
    ensures FirstAnswer(guardians, before + [c] + later, id, markOnce) == Answer(guardians, c, id, markOnce)
    decreases |before|
  {
    hide About, Answer;
    var calls := before + [c] + later;
    if before != [] {
      assert calls[0] == before[0] && before[0] in before;
      assert calls[1..] == before[1..] + [c] + later;
      FirstAnswerIs(guardians, before[1..], c, later, id, markOnce);
    }
  }

  /** A node that has not seen the alert tells all its guardians, by the first call about it, and nobody later. */
  lemma FirstCallTellsAll(
      n: Node, before: seq<Call>, c: Call, later: seq<Call>, id: string, markOnce: bool)
    requires id !in n.seen && For(n.outbox, id) == []
    requires (forall b | b in before :: !About(b, id)) && About(c, id)
    ensures Answered(n.guardians, c, id, markOnce, For(Run(n, before + [c] + later, markOnce).outbox, id))
  {
    hide About, Answer, Answered, For, Run, FirstAnswer;
    var calls := before + [c] + later;
    FirstCallDecides(n, calls, id, markOnce);
    FirstAnswerIs(n.guardians, before, c, later, id, markOnce);
    AnswerTells(n.guardians, c, id, markOnce);
    var sent := Answer(n.guardians, c, id, markOnce);
    assert [] + sent == sent;
  }

  lemma {:induction false} FirstAnswerIsSmall(guardians: seq<string>, calls: seq<Call>, id: string, markOnce: bool)
    ensures var sent := FirstAnswer(guardians, calls, id, markOnce);
            && |sent| <= |guardians|
            && (forall r | r in sent :: 1 <= r.hop <= MAX_HOPS)
            && (!markOnce && (forall c | c in calls && About(c, id) :: c.Incoming?) ==> sent == [])
  {
    if calls != [] {
      if About(calls[0], id) {
        AnswerIsSmall(guardians, calls[0], id, markOnce);
      } else {
        FirstAnswerIsSmall(guardians, calls[1..], id, markOnce);
      }
    }
  }

  lemma AnswerIsSmall(guardians: seq<string>, c: Call, id: string, markOnce: bool)
    requires About(c, id)
    ensures var sent := Answer(guardians, c, id, markOnce);
            |sent| <= |guardians| && forall r | r in sent :: 1 <= r.hop <= MAX_HOPS
  {
    hide Build, Parse, Batch, PhonesMatch, Solid;
    match c
    case Alarm(sender, i, phone, name, message) =>
      BatchIsUniform(guardians, sender, i, 1, Build(i, 1, phone, name, message));
    case Incoming(sender, body) =>
      ParsedHop(body);
      var a := Parse(body).value;
      BatchIsUniform(guardians, sender, id, a.hop + 1, Build(id, a.hop + 1, a.phone, a.name, a.message));
  }

  lemma ParsedHop(body: string)
    ensures Parse(body).Some? ==> Parse(body).value.hop >= 1 && Solid(Parse(body).value.id)
  {
    ParsedWordsAreSolid(body);
  }

  lemma {:induction false} BatchIsUniform(guardians: seq<string>, sender: string, id: string, hop: int, body: string)
    ensures var batch := Batch(guardians, sender, id, hop, body);
            && |batch| <= |guardians|
            && forall r | r in batch ::
                 r.id == id && r.hop == hop && r.body == body && r.to in guardians && !PhonesMatch(r.to, sender)
  {
    if guardians != [] {
      BatchIsUniform(guardians[..|guardians| - 1], sender, id, hop, body);
    }
  }

  // ----- A node in place -----

  class Phone {
    var guardians: seq<string>
    var seen: set<string>
    var outbox: seq<Relay>

    function State(): Node
      reads this
    {
      Node(guardians, seen, outbox)
    }

    constructor (guardians: seq<string>)
      ensures State() == Node(guardians, {}, [])
    {
      this.guardians, seen, outbox := guardians, {}, [];
    }

    method MarkSeen(id: string) returns (isNew: bool)
      modifies this`seen
      ensures isNew == (id == "" || id !in old(seen))
      ensures seen == if id == "" then old(seen) else old(seen) + {id}
    {
      if id == "" {
        return true;
      }
      isNew := id !in seen;
      seen := seen + {id};
    }

    method TriggerCascade(sender: string, given: string, minted: string, hop: int, phone: string, name: string, message: string)
      returns (relayed: nat)
      requires minted != ""
      modifies this`seen, this`outbox
      ensures State() == Triggered(old(State()), sender, if given == "" then minted else given, hop, phone, name, message)
      ensures relayed == |outbox| - |old(outbox)|
      ensures var id := if given == "" then minted else given;
              && seen == old(seen) + {id}
              && if id in old(seen) || hop > MAX_HOPS then outbox == old(outbox)
                 else
                   && old(outbox) <= outbox && relayed == |NotSenders(guardians, sender)|
                   && AllTold(guardians, sender, id, hop, Build(id, hop, phone, name, message), outbox[|old(outbox)|..])
    {
      hide AllTold, NotSenders, Build;
      var id := if given == "" then minted else given;
      var isNew := MarkSeen(id);
      if !isNew {
        assert seen == old(seen);
        return 0;
      }
      if hop > MAX_HOPS {
        return 0;
      }
      relayed := SendToAll(sender, id, hop, Build(id, hop, phone, name, message));
    }

    method SendToAll(sender: string, id: string, hop: int, body: string) returns (relayed: nat)
      modifies this`outbox
      ensures outbox == old(outbox) + Batch(guardians, sender, id, hop, body)
      ensures relayed == |outbox| - |old(outbox)| == |NotSenders(guardians, sender)|
      ensures AllTold(guardians, sender, id, hop, body, outbox[|old(outbox)|..])
    {
      hide PhonesMatch, AllTold, NotSenders;
      BatchTellsAll(guardians, sender, id, hop, body);
      BatchCounts(guardians, sender, id, hop, body);
      relayed := 0;
      for k := 0 to |guardians|
        invariant outbox == old(outbox) + Batch(guardians[..k], sender, id, hop, body)
        invariant relayed == |outbox| - |old(outbox)|
      {
        assert guardians[..k + 1][..k] == guardians[..k];
        var same := Match(guardians[k], sender);
        if !same {
          outbox := outbox + [Relay(guardians[k], id, hop, body)];
          relayed := relayed + 1;
        }
      }
      assert guardians[..|guardians|] == guardians;
      assert outbox[|old(outbox)|..] == Batch(guardians, sender, id, hop, body);
    }

    method RelayAlert(sender: string, body: string) returns (handled: bool)
      modifies this`seen, this`outbox
      ensures handled <==> Parse(body).Some?
      ensures State() == Received(old(State()), sender, body)
      ensures outbox == old(outbox)
      ensures seen == if handled then old(seen) + {Parse(body).value.id} else old(seen)
    {
      var parsed := Parse(body);
      if parsed.None? {
        return false;
      }
      var a := parsed.value;
      ParsedHop(body);
      hide Parse, Solid;
      assert a.id != "" by { NotEmpty(a.id); }
      var isNew := MarkSeen(a.id);
      if !isNew {
        assert seen == old(seen);
        return true;
      }
      if a.hop >= MAX_HOPS {
        return true;
      }
      var _ := TriggerCascade(sender, a.id, "unused", a.hop + 1, a.phone, a.name, a.message);
      return true;
    }
  }

  lemma NotEmpty(s: string)
    requires Solid(s)
    ensures s != ""
  {
  }
}
