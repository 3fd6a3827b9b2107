/** Any number of relay nodes, any calls at any of them in any order. */
module CascadeNetwork {
  import opened Common
  import opened AlertFormat
  import opened AlertText
  import opened SmsTypes
  import opened Cascade

  datatype Label = At(node: nat, call: Call)

  function RunAll(nodes: seq<Node>, labels: seq<Label>, markOnce: bool): (r: seq<Node>)
    ensures |r| == |nodes|
  {
    if labels == [] then nodes
    else StepAt(RunAll(nodes, labels[..|labels| - 1], markOnce), labels[|labels| - 1], markOnce)
  }

  function StepAt(nodes: seq<Node>, l: Label, markOnce: bool): (r: seq<Node>)
    ensures |r| == |nodes|
  {
    if l.node < |nodes| then nodes[l.node := Step(nodes[l.node], l.call, markOnce)] else nodes
  }

  function CallsAt(labels: seq<Label>, k: nat): (calls: seq<Call>)
    ensures forall c | c in calls :: At(k, c) in labels
  {
    if labels == [] then []
    else
      var n := |labels| - 1;
      CallsAt(labels[..n], k) + if labels[n].node == k then [labels[n].call] else []
  }

  lemma {:induction false} NodesAreIndependent(nodes: seq<Node>, labels: seq<Label>, k: nat, markOnce: bool)
    requires k < |nodes|
    ensures RunAll(nodes, labels, markOnce)[k] == Run(nodes[k], CallsAt(labels, k), markOnce)
  {
    hide Step;
    if labels != [] {
      var front, last := labels[..|labels| - 1], labels[|labels| - 1];
      NodesAreIndependent(nodes, front, k, markOnce);
      if last.node == k {
        var calls := CallsAt(labels, k);
        assert calls[..|calls| - 1] == CallsAt(front, k);
      } else {
        assert CallsAt(labels, k) == CallsAt(front, k);
      }
    }
  }

  /** The messages about one alert in all outboxes together. */
  function Total(nodes: seq<Node>, id: string): nat {
    if nodes == [] then 0 else Total(nodes[..|nodes| - 1], id) + |For(nodes[|nodes| - 1].outbox, id)|
  }

  function OutDegrees(nodes: seq<Node>): nat {
    if nodes == [] then 0 else OutDegrees(nodes[..|nodes| - 1]) + |nodes[|nodes| - 1].guardians|
  }

  ghost predicate NothingSent(nodes: seq<Node>, id: string) {
    forall k :: 0 <= k < |nodes| ==> For(nodes[k].outbox, id) == []
  }

  lemma NodeSendsAtMostOnce(nodes: seq<Node>, labels: seq<Label>, k: nat, id: string, markOnce: bool)
    requires k < |nodes| && NothingSent(nodes, id)
    ensures var sent := For(RunAll(nodes, labels, markOnce)[k].outbox, id);
            && |sent| <= |nodes[k].guardians|
            && (forall r | r in sent :: 1 <= r.hop <= MAX_HOPS)
            && (sent == [] || sent == FirstAnswer(nodes[k].guardians, CallsAt(labels, k), id, markOnce))
  {
    NodesAreIndependent(nodes, labels, k, markOnce);
    FirstCallDecides(nodes[k], CallsAt(labels, k), id, markOnce);
    FirstAnswerIsSmall(nodes[k].guardians, CallsAt(labels, k), id, markOnce);
    var sent := AnswerToAll(nodes[k], CallsAt(labels, k), id, markOnce);
    assert [] + sent == sent;
  }

  /**
   In any network and any order, the node at which an alert is triggered tells each of its
   guardians but the sender exactly once; with the id marked once so does every node the
   alert first reaches at hop 1 or 2, one hop further, and as the code stands no other.
   */
  lemma EveryGuardianIsTold(
      nodes: seq<Node>, labels: seq<Label>, k: nat, before: seq<Call>, c: Call, later: seq<Call>, id: string, markOnce: bool)
    requires k < |nodes| && NothingSent(nodes, id) && id !in nodes[k].seen
    requires CallsAt(labels, k) == before + [c] + later
    requires (forall b | b in before :: !About(b, id)) && About(c, id)
    ensures Answered(nodes[k].guardians, c, id, markOnce, For(RunAll(nodes, labels, markOnce)[k].outbox, id))
  {
    hide About, Answered, For, Run, RunAll, CallsAt;
    NodesAreIndependent(nodes, labels, k, markOnce);
    FirstCallTellsAll(nodes[k], before, c, later, id, markOnce);
  }

  lemma {:induction false} SumUp(nodes: seq<Node>, after: seq<Node>, id: string)
    requires |after| == |nodes|
    requires forall k :: 0 <= k < |nodes| ==> |For(after[k].outbox, id)| <= |nodes[k].guardians|
    ensures Total(after, id) <= OutDegrees(nodes)
  {
    hide For;
    if nodes != [] {
      SumUp(nodes[..|nodes| - 1], after[..|after| - 1], id);
    }
  }

  /**
   However alerts and messages arrive (late, lost, repeated, in any order, even forged), the
   messages ever sent about one alert are at most the relay out-degrees added up, and each
   carries a hop number from 1 to 3.
   */
  lemma CascadeIsBounded(nodes: seq<Node>, labels: seq<Label>, id: string, markOnce: bool)
    requires NothingSent(nodes, id)
    ensures var after := RunAll(nodes, labels, markOnce);
            && Total(after, id) <= OutDegrees(nodes)
            && forall k, r | 0 <= k < |after| && r in For(after[k].outbox, id) :: 1 <= r.hop <= MAX_HOPS
  {
    var after := RunAll(nodes, labels, markOnce);
    forall k | 0 <= k < |nodes|
      ensures |For(after[k].outbox, id)| <= |nodes[k].guardians|
      ensures forall r | r in For(after[k].outbox, id) :: 1 <= r.hop <= MAX_HOPS
    {
      NodeSendsAtMostOnce(nodes, labels, k, id, markOnce);
    }
    hide *;
    SumUp(nodes, after, id);
  }

  /**
   As the code stands, with the id marked twice, nobody but the node where an alert was
   triggered ever sends anything about it.
   */
  lemma CascadeStopsAtTheOrigin(nodes: seq<Node>, labels: seq<Label>, origin: nat, id: string)
    requires NothingSent(nodes, id) && origin < |nodes|
    requires forall l | l in labels && l.call.Alarm? && l.call.id == id :: l.node == origin
    ensures var after := RunAll(nodes, labels, false);
            && (forall k | 0 <= k < |after| && k != origin :: For(after[k].outbox, id) == [])
            && Total(after, id) == |For(after[origin].outbox, id)| <= |nodes[origin].guardians|
  {
    var after := RunAll(nodes, labels, false);
    NodeSendsAtMostOnce(nodes, labels, origin, id, false);
    forall k | 0 <= k < |after| && k != origin ensures For(after[k].outbox, id) == [] {
      NodeSendsAtMostOnce(nodes, labels, k, id, false);
      var calls := CallsAt(labels, k);
      forall c | c in calls && About(c, id) ensures c.Incoming? {
        assert At(k, c) in labels;
      }
      FirstAnswerIsSmall(nodes[k].guardians, calls, id, false);
    }
    OnlyOne(after, origin, id);
  }

  lemma {:induction false} OnlyOne(nodes: seq<Node>, origin: nat, id: string)
    requires forall k | 0 <= k < |nodes| && k != origin :: For(nodes[k].outbox, id) == []
    ensures Total(nodes, id) == if origin < |nodes| then |For(nodes[origin].outbox, id)| else 0
  {
    hide For;
    if nodes != [] {
      OnlyOne(nodes[..|nodes| - 1], origin, id);
    }
  }

  // ----- Where an alert can get to when messages are not forged -----

  /** Node j has a guardian whose number matches node k's own. */
  ghost predicate Linked(addresses: seq<string>, nodes: seq<Node>, j: nat, k: nat) {
    k < |addresses| && j < |nodes| && exists p :: p in nodes[j].guardians && PhonesMatch(p, addresses[k])
  }

  ghost predicate Within(addresses: seq<string>, nodes: seq<Node>, origin: nat, k: nat, d: nat)
    decreases d
  {
    if d == 0 then k == origin
    else exists j: nat :: Within(addresses, nodes, origin, j, d - 1) && Linked(addresses, nodes, j, k)
  }

  /** Something a node sent: to one of its guardians, with a well-formed id, and the body built for it. */
  ghost predicate Genuine(n: Node, r: Relay) {
    && r.to in n.guardians && Solid(r.id) && r.id != "|" && 1 <= r.hop <= MAX_HOPS
    && exists phone, name, message :: r.body == Build(r.id, r.hop, phone, name, message)
  }

  /** An arriving message was sent by some node to this node's number; an alarm has an id of its own. */
  ghost predicate HonestStep(addresses: seq<string>, nodes: seq<Node>, l: Label) {
    match l.call
    case Alarm(_, id, _, _, _) => Solid(id) && id != "|"
    case Incoming(_, body) =>
      l.node < |addresses|
      && exists j, r :: 0 <= j < |nodes| && r in nodes[j].outbox && r.body == body && PhonesMatch(r.to, addresses[l.node])
  }

  ghost predicate Honest(addresses: seq<string>, nodes: seq<Node>, labels: seq<Label>) {
    labels != [] ==>
      && Honest(addresses, nodes, labels[..|labels| - 1])
      && HonestStep(addresses, RunAll(nodes, labels[..|labels| - 1], true), labels[|labels| - 1])
  }

  /** A message of the node, counting the links from the origin if it is about the alert. */
  ghost predicate Placed(addresses: seq<string>, start: seq<Node>, k: nat, r: Relay, origin: nat, id: string)
    requires k < |start|
  {
    Genuine(start[k], r) && (r.id == id ==> Within(addresses, start, origin, k, r.hop - 1))
  }

  ghost predicate Tracked(addresses: seq<string>, start: seq<Node>, nodes: seq<Node>, origin: nat, id: string) {
    && |nodes| == |start|
    && (forall k :: 0 <= k < |nodes| ==> nodes[k].guardians == start[k].guardians)
    && forall k, r | 0 <= k < |nodes| && r in nodes[k].outbox :: Placed(addresses, start, k, r, origin, id)
  }

  /**
   With the id marked once and no forged messages, a message about an alert carries the length
   of a chain of guardians from the node where it was triggered: nodes more than two links
   away send nothing, and nothing reaches further than three.
   */
  lemma {:induction false} HopsCountLinks(addresses: seq<string>, nodes: seq<Node>, labels: seq<Label>, origin: nat, id: string)
    requires forall k :: 0 <= k < |nodes| ==> nodes[k].outbox == []
    requires Honest(addresses, nodes, labels)
    requires forall l | l in labels && l.call.Alarm? && l.call.id == id :: l.node == origin
    ensures Tracked(addresses, nodes, RunAll(nodes, labels, true), origin, id)
  {
    if labels != [] {
      var front, last := labels[..|labels| - 1], labels[|labels| - 1];
      HopsCountLinks(addresses, nodes, front, origin, id);
      assert last in labels;
      TrackedStep(addresses, nodes, RunAll(nodes, front, true), last, origin, id);
    }
  }

  lemma TrackedStep(addresses: seq<string>, start: seq<Node>, nodes: seq<Node>, l: Label, origin: nat, id: string)
    requires Tracked(addresses, start, nodes, origin, id) && HonestStep(addresses, nodes, l)
    requires l.call.Alarm? && l.call.id == id ==> l.node == origin
    ensures Tracked(addresses, start, StepAt(nodes, l, true), origin, id)
  {
    hide Build, Parse, Solid, PhonesMatch, Placed, Step, Answer, About;
    if l.node < |nodes| {
      var k := l.node;
      var after := StepAt(nodes, l, true);
      StepKeepsGuardians(nodes[k], l.call);
      forall r | r in after[k].outbox
        ensures Placed(addresses, start, k, r, origin, id)
      {
        if r !in nodes[k].outbox {
          NewEntry(nodes[k], l.call, r);
          if l.call.Alarm? {
            AlarmIsTracked(addresses, start, k, l.call, r, origin, id);
          } else {
            IncomingIsTracked(addresses, start, nodes, l, r, origin, id);
          }
        }
      }
    }
  }

  lemma StepKeepsGuardians(n: Node, c: Call)
    ensures Step(n, c, true).guardians == n.guardians
  {
    hide Build, Parse, Batch;
  }

  /** What a step adds to the outbox is an answer to the call. */
  lemma NewEntry(n: Node, c: Call, r: Relay)
    requires r in Step(n, c, true).outbox && r !in n.outbox
    ensures About(c, r.id) && r in Answer(n.guardians, c, r.id, true)
  {
    hide Build, Parse, Batch;
    match c
    case Alarm(sender, i, phone, name, message) =>
      BatchIsUniform(n.guardians, sender, i, 1, Build(i, 1, phone, name, message));
    case Incoming(sender, body) =>
      var a := Parse(body).value;
      BatchIsUniform(n.guardians, sender, a.id, a.hop + 1, Build(a.id, a.hop + 1, a.phone, a.name, a.message));
  }

  lemma AlarmIsTracked(addresses: seq<string>, start: seq<Node>, k: nat, c: Call, r: Relay, origin: nat, id: string)
    requires k < |start| && c.Alarm? && Solid(c.id) && c.id != "|" && (c.id == id ==> k == origin)
    requires About(c, r.id) && r in Answer(start[k].guardians, c, r.id, true)
    ensures Placed(addresses, start, k, r, origin, id)
  {
    hide Build, Parse, Batch, Solid;
    BatchIsUniform(start[k].guardians, c.sender, c.id, 1, Build(c.id, 1, c.phone, c.name, c.message));
  }

  lemma IncomingIsTracked(addresses: seq<string>, start: seq<Node>, nodes: seq<Node>, l: Label, r: Relay, origin: nat, id: string)
    requires Tracked(addresses, start, nodes, origin, id) && HonestStep(addresses, nodes, l)
    requires l.node < |nodes| && l.call.Incoming?
    requires About(l.call, r.id) && r in Answer(start[l.node].guardians, l.call, r.id, true)
    ensures Placed(addresses, start, l.node, r, origin, id)
  {
    hide Build, Parse, Batch, Solid, PhonesMatch;
    var k, body := l.node, l.call.body;
    var j, q :| 0 <= j < |nodes| && q in nodes[j].outbox && q.body == body && PhonesMatch(q.to, addresses[k]);
    assert Placed(addresses, start, j, q, origin, id);
    var phone, name, message :| q.body == Build(q.id, q.hop, phone, name, message);
    HeaderSurvives(q.id, q.hop, phone, name, message);
    var a := Parse(body).value;
    BatchIsUniform(start[k].guardians, l.call.sender, r.id, a.hop + 1, Build(r.id, a.hop + 1, a.phone, a.name, a.message));
    assert r.hop == q.hop + 1;
    if r.id == id {
      assert Within(addresses, start, origin, j, q.hop - 1);
      assert Linked(addresses, start, j, k);
    }
  }
}
