/** Every interleaving of bridges, heartbeats and viewers, with the hub's lock as it is used. */
module HubRuns {
  import opened Common
  import opened ViewerHub

  /** A broadcast in progress, under the read lock: what is sent, and the viewers still to be served. */
  datatype Casting = Casting(message: Message, todo: set<nat>)

  /**
   The hub, all connections there have been and those whose handler has not ended, the broadcasts
   in progress, all broadcasts begun so far, and how many had been begun when each viewer joined.
   */
  datatype State = State(
    hub: View, known: set<nat>, alive: set<nat>, casts: map<nat, Casting>, begun: seq<Message>, joinedAt: seq<nat>)

  datatype Label =
    | Connect(conn: nat)
    | CacheConfig(conn: nat, data: Frame)
    | Begin(thread: nat, data: Frame)
    | Send(thread: nat, viewer: nat)
    | End(thread: nat)
    | Teardown(conn: nat)
    | Join
    | Leave(viewer: nat)
    | Read(viewer: nat)

  function Init(): State {
    State(View(None, None, {}, []), {}, {}, map[], [], [])
  }

  /** No broadcast holds the read lock. */
  predicate Free(s: State) {
    s.casts == map[]
  }

  predicate Enabled(s: State, l: Label) {
    match l
    case Connect(conn) => Free(s) && conn !in s.known
    case CacheConfig(conn, _) => Free(s) && conn in s.alive
    case Begin(t, _) => t !in s.casts
    case Send(t, v) => t in s.casts && v in s.casts[t].todo
    case End(t) => t in s.casts && s.casts[t].todo == {}
    case Teardown(conn) => Free(s) && conn in s.alive
    case Join => Free(s)
    case Leave(_) => Free(s)
    case Read(v) => v < |s.hub.channels| && s.hub.channels[v].buffer != []
  }

  predicate ClosedOrGone(h: View, v: nat) {
    v >= |h.channels| || h.channels[v].closed
  }

  /** What Go would punish: a send on or a close of a closed channel, or a blocking send on a full one. */
  predicate Breaks(s: State, l: Label) {
    match l
    case Send(_, v) => ClosedOrGone(s.hub, v)
    case Teardown(conn) => s.hub.bridge == Some(conn) && exists v :: v in s.hub.viewers && ClosedOrGone(s.hub, v)
    case Join => |FirstMessages(s.hub.config)| > CAPACITY
    case _ => false
  }

  /** One viewer is served, or has read a message. */
  function WithChannel(h: View, v: nat, c: Channel): (r: View)
    requires v < |h.channels|
    ensures |r.channels| == |h.channels|
  {
    h.(channels := h.channels[v := c])
  }

  function Do(s: State, l: Label): State
    requires Enabled(s, l) && !Breaks(s, l)
  {
    match l
    case Connect(conn) =>
      s.(hub := Connected(s.hub, conn), known := s.known + {conn}, alive := s.alive + {conn})
    case CacheConfig(conn, data) => s.(hub := WithConfig(s.hub, conn, data))
    case Begin(t, data) =>
      var m := Cast(t, data);
      s.(casts := s.casts[t := Casting(m, s.hub.viewers)], begun := s.begun + [m])
    case Send(t, v) =>
      var c := s.casts[t];
      s.(hub := WithChannel(s.hub, v, Offer(s.hub.channels[v], c.message)),
         casts := s.casts[t := c.(todo := c.todo - {v})])
    case End(t) => s.(casts := s.casts - {t})
    case Teardown(conn) => s.(hub := TornDown(s.hub, conn), alive := s.alive - {conn})
    case Join => s.(hub := Joined(s.hub), joinedAt := s.joinedAt + [|s.begun|])
    case Leave(v) => s.(hub := Left(s.hub, v))
    case Read(v) =>
      var c := s.hub.channels[v];
      s.(hub := WithChannel(s.hub, v, c.(buffer := c.buffer[1..], read := c.read + [c.buffer[0]])))
  }

  /** The state after the labels, if each was possible in its turn and none broke anything. */
  function Run(labels: seq<Label>): Option<State> {
    if labels == [] then Some(Init())
    else
      var n := |labels| - 1;
      match Run(labels[..n])
      case None => None
      case Some(s) => if Enabled(s, labels[n]) && !Breaks(s, labels[n]) then Some(Do(s, labels[n])) else None
  }

  // ----- Safety -----

  ghost predicate Safe(s: State) {
    && |s.joinedAt| == |s.hub.channels|
    && (forall v | v in s.hub.viewers :: v < |s.hub.channels| && !s.hub.channels[v].closed)
    && (forall t | t in s.casts :: s.casts[t].todo <= s.hub.viewers)
    && (forall c :: 0 <= c < |s.joinedAt| ==> s.joinedAt[c] <= |s.begun|)
    && s.alive <= s.known && (s.hub.config.Some? ==> s.hub.config.value.0 in s.known)
  }

  lemma SafeStep(s: State, l: Label)
    requires Safe(s) && Enabled(s, l)
    ensures !Breaks(s, l) && Safe(Do(s, l))
  {
  }

  lemma {:induction false} RunIsSafe(labels: seq<Label>)
    ensures Run(labels).Some? ==> Safe(Run(labels).value)
  {
    if labels != [] && Run(labels).Some? {
      var front := labels[..|labels| - 1];
      RunIsSafe(front);
      SafeStep(Run(front).value, labels[|labels| - 1]);
    }
  }

  /**
   In every interleaving: no message is sent on a closed channel, no channel is closed twice,
   and the cached configuration always fits into a new viewer's buffer.
   */
  lemma NothingEverBreaks(labels: seq<Label>, l: Label)
    requires Run(labels).Some? && Enabled(Run(labels).value, l)
    ensures !Breaks(Run(labels).value, l) && Run(labels + [l]).Some?
  {
    RunIsSafe(labels);
    SafeStep(Run(labels).value, l);
    assert (labels + [l])[..|labels|] == labels;
  }

  // ----- A whole broadcast -----

  ghost predicate Lists(order: seq<nat>, viewers: set<nat>) {
    && (forall v :: v in viewers <==> v in order)
    && (forall i, j :: 0 <= i < j < |order| ==> order[i] != order[j])
  }

  /** The rest of a broadcast, with the viewers served in the given order. */
  ghost function ServeAll(s: State, t: nat, order: seq<nat>): State
    requires Safe(s) && t in s.casts && Lists(order, s.casts[t].todo)
    decreases |order|
  {
    if order == [] then s
    else
      SafeStep(s, Send(t, order[0]));
      ServeAll(Do(s, Send(t, order[0])), t, order[1..])
  }

  /** In whatever order the viewers are served, a broadcast to all of them does what the loop over the map does. */
  lemma {:induction false} OrderDoesNotMatter(s: State, t: nat, order: seq<nat>)
    requires Safe(s) && t in s.casts && Lists(order, s.casts[t].todo)
    ensures var n := ServeAll(s, t, order);
            && t in n.casts && n.casts[t].todo == {}
            && n.hub == Broadcasted(s.hub.(viewers := s.casts[t].todo), s.casts[t].message).(viewers := s.hub.viewers)
    decreases |order|
  {
    hide Offer;
    if order != [] {
      SafeStep(s, Send(t, order[0]));
      OrderDoesNotMatter(Do(s, Send(t, order[0])), t, order[1..]);
    }
  }

  // ----- Order -----

  /** The broadcasts of one thread. */
  function Of(ms: seq<Message>, t: nat): seq<Message> {
    if ms == [] then []
    else
      var n := |ms| - 1;
      Of(ms[..n], t) + if ms[n].Cast? && ms[n].thread == t then [ms[n]] else []
  }

  predicate Subsequence(a: seq<Message>, b: seq<Message>) {
    a == [] ||
    (b != [] &&
     (Subsequence(a, b[..|b| - 1]) || (a[|a| - 1] == b[|b| - 1] && Subsequence(a[..|a| - 1], b[..|b| - 1]))))
  }

  lemma {:induction false} SubsequenceOfPrefix(a: seq<Message>, rest: seq<Message>, b: seq<Message>)
    requires Subsequence(a + rest, b)
    ensures Subsequence(a, b)
    decreases |b|, |rest|
  {
    if rest == [] {
      assert a + rest == a;
    } else if Subsequence(a + rest, b[..|b| - 1]) {
      SubsequenceOfPrefix(a, rest, b[..|b| - 1]);
    } else {
      assert (a + rest)[..|a + rest| - 1] == a + rest[..|rest| - 1];
      SubsequenceOfPrefix(a, rest[..|rest| - 1], b[..|b| - 1]);
    }
  }

  /** The broadcast of thread t that viewer v is still to be served from. */
  function Pending(s: State, v: nat, t: nat): Option<Message> {
    if t in s.casts && v in s.casts[t].todo then Some(s.casts[t].message) else None
  }

  function GotOf(s: State, v: nat, t: nat): seq<Message>
    requires v < |s.hub.channels|
  {
    Of(Got(s.hub.channels[v]), t)
  }

  /** The broadcasts of thread t begun since viewer v joined. */
  function SentOf(s: State, v: nat, t: nat): seq<Message>
    requires v < |s.joinedAt| && s.joinedAt[v] <= |s.begun|
  {
    Of(s.begun[s.joinedAt[v]..], t)
  }

  ghost predicate Threaded(s: State) {
    forall t | t in s.casts :: s.casts[t].message.Cast? && s.casts[t].message.thread == t
  }

  lemma BeginGives(s: State, u: nat, data: Frame, v: nat, t: nat)
    requires Safe(s) && Enabled(s, Begin(u, data)) && v < |s.hub.channels|
    ensures var n := Do(s, Begin(u, data));
            && Safe(n) && GotOf(n, v, t) == GotOf(s, v, t)
            && SentOf(n, v, t) == SentOf(s, v, t) + if u == t then [Cast(u, data)] else []
  {
    SafeStep(s, Begin(u, data));
    var n, m, since := Do(s, Begin(u, data)), Cast(u, data), s.begun[s.joinedAt[v]..];
    assert n.begun[n.joinedAt[v]..] == since + [m];
    hide Of;
  }

  lemma SendGives(s: State, u: nat, w: nat, v: nat, t: nat)
    requires Safe(s) && Threaded(s) && Enabled(s, Send(u, w)) && !Breaks(s, Send(u, w)) && v < |s.hub.channels|
    ensures var n, m := Do(s, Send(u, w)), s.casts[u].message;
            && Safe(n) && SentOf(n, v, t) == SentOf(s, v, t)
            && (GotOf(n, v, t) == GotOf(s, v, t) || (u == t && w == v && GotOf(n, v, t) == GotOf(s, v, t) + [m]))
  {
    SafeStep(s, Send(u, w));
    if w == v {
      var c, m := s.hub.channels[v], s.casts[u].message;
      assert Got(Offer(c, m)) == if |c.buffer| < CAPACITY then Got(c) + [m] else Got(c);
      assert Of(Got(c), t) + [] == Of(Got(c), t);
      hide Of;
    }
  }

  lemma {:induction false} RunIsThreaded(labels: seq<Label>)
    ensures Run(labels).Some? ==> Safe(Run(labels).value) && Threaded(Run(labels).value)
  {
    RunIsSafe(labels);
    if labels != [] && Run(labels).Some? {
      RunIsThreaded(labels[..|labels| - 1]);
    }
  }

  lemma {:induction false} OfConcat(a: seq<Message>, b: seq<Message>, t: nat)
    ensures Of(a + b, t) == Of(a, t) + Of(b, t)
  {
    if b == [] {
      assert a + b == a;
    } else {
      assert (a + b)[..|a + b| - 1] == a + b[..|b| - 1];
      OfConcat(a, b[..|b| - 1], t);
    }
  }

  // ----- Nothing is lost but what a full channel refuses -----

  /** The messages a viewer is served, in order; or, of those, the ones that find room. */
  function Served(labels: seq<Label>, v: nat, roomOnly: bool): seq<Message>
    requires Run(labels).Some?
  {
    if labels == [] then []
    else
      var front, l := labels[..|labels| - 1], labels[|labels| - 1];
      var s := Run(front).value;
      Served(front, v, roomOnly)
      + if l.Send? && l.viewer == v && (roomOnly ==> v < |s.hub.channels| && |s.hub.channels[v].buffer| < 100)
        then [s.casts[l.thread].message] else []
  }

  /** Whenever the viewer was served, fewer than 100 messages were waiting. */
  ghost predicate AlwaysRoom(labels: seq<Label>, v: nat)
    requires Run(labels).Some?
  {
    labels != [] ==>
      var front, l := labels[..|labels| - 1], labels[|labels| - 1];
      var s := Run(front).value;
      && AlwaysRoom(front, v)
      && (l.Send? && l.viewer == v ==> v < |s.hub.channels| && |s.hub.channels[v].buffer| < 100)
  }

  /** The configuration cached when the viewer joined, which is the first it got. */
  function FirstOf(labels: seq<Label>, v: nat): seq<Message>
    requires Run(labels).Some?
  {
    if labels == [] then []
    else
      var front, l := labels[..|labels| - 1], labels[|labels| - 1];
      var s := Run(front).value;
      if l.Join? && v == |s.hub.channels| then (if s.hub.config.Some? then [Cached(s.hub.config.value.1)] else [])
      else FirstOf(front, v)
  }

  lemma FrontRuns(labels: seq<Label>)
    requires labels != [] && Run(labels).Some?
    ensures var front, l := labels[..|labels| - 1], labels[|labels| - 1];
            && Run(front).Some? && Enabled(Run(front).value, l) && !Breaks(Run(front).value, l)
            && Run(labels).value == Do(Run(front).value, l)
  {
  }

  /** A viewer has got the configuration it was sent at first, and then exactly what found room. */
  lemma {:induction false} ViewersGetWhatFits(labels: seq<Label>, v: nat)
    requires Run(labels).Some? && v < |Run(labels).value.hub.channels|
    ensures Got(Run(labels).value.hub.channels[v]) == FirstOf(labels, v) + Served(labels, v, true)
  {
    hide Run, Do, Got, Breaks, Enabled;
    NobodyAtFirst();
    if labels != [] {
      var front, l := labels[..|labels| - 1], labels[|labels| - 1];
      FrontRuns(labels);
      var s := Run(front).value;
      if v < |s.hub.channels| {
        ViewersGetWhatFits(front, v);
        GotStep(s, l, v);
        assert Served(front, v, true) + [] == Served(front, v, true);
      } else {
        NotServedYet(front, v, true);
        RunIsSafe(front);
        JoinedStep(s, l, v);
        var first := FirstOf(labels, v);
        assert first + ([] + []) == first;
      }
    }
  }

  lemma NobodyAtFirst()
    ensures Run([]) == Some(Init()) && Init().hub.channels == []
  {
  }

  /** A new channel is made by a join, and starts with the cached configuration. */
  lemma JoinedStep(s: State, l: Label, v: nat)
    requires Safe(s) && Enabled(s, l) && !Breaks(s, l) && |s.hub.channels| <= v < |Do(s, l).hub.channels|
    ensures l == Join && v == |s.hub.channels| && v !in Do(s, l).casts
    ensures Got(Do(s, l).hub.channels[v]) == if s.hub.config.Some? then [Cached(s.hub.config.value.1)] else []
    ensures v < |Do(s, l).joinedAt| && Do(s, l).joinedAt[v] == |s.begun| == |Do(s, l).begun| && Do(s, l).casts == map[]
  {
  }

  lemma GotStep(s: State, l: Label, v: nat)
    requires Enabled(s, l) && !Breaks(s, l) && v < |s.hub.channels|
    ensures v < |Do(s, l).hub.channels|
    ensures Got(Do(s, l).hub.channels[v])
            == Got(s.hub.channels[v])
               + if l.Send? && l.viewer == v && |s.hub.channels[v].buffer| < 100 then [s.casts[l.thread].message] else []
  {
    assert Got(s.hub.channels[v]) + [] == Got(s.hub.channels[v]);
  }

  lemma {:induction false} NotServedYet(labels: seq<Label>, v: nat, roomOnly: bool)
    requires Run(labels).Some? && v >= |Run(labels).value.hub.channels|
    ensures Served(labels, v, roomOnly) == []
  {
    if labels != [] {
      var front := labels[..|labels| - 1];
      FrontRuns(labels);
      RunIsSafe(front);
      NotServedYet(front, v, roomOnly);
    }
  }

  lemma {:induction false} RoomKeepsAll(labels: seq<Label>, v: nat)
    requires Run(labels).Some? && AlwaysRoom(labels, v)
    ensures Served(labels, v, true) == Served(labels, v, false)
  {
    hide Run, Enabled, Breaks, Do;
    if labels != [] {
      FrontRuns(labels);
      RoomKeepsAll(labels[..|labels| - 1], v);
    }
  }

  /** All of a thread's broadcasts that a viewer is to be served; while it watches, every one begun since it joined. */
  ghost predicate AllServed(s: State, served: seq<Message>, v: nat, t: nat)
    requires Safe(s) && v < |s.hub.channels|
  {
    var all := Of(served, t) + match Pending(s, v, t) case None => [] case Some(m) => [m];
    if v in s.hub.viewers then SentOf(s, v, t) == all else all <= SentOf(s, v, t)
  }

  lemma BeginServes(s: State, u: nat, data: Frame, served: seq<Message>, v: nat, t: nat)
    requires Safe(s) && Enabled(s, Begin(u, data)) && v < |s.hub.channels| && AllServed(s, served, v, t)
    ensures var n := Do(s, Begin(u, data)); Safe(n) && AllServed(n, served, v, t)
  {
    BeginGives(s, u, data, v, t);
    var n, m := Do(s, Begin(u, data)), Cast(u, data);
    assert Pending(s, v, u) == None;
    assert Pending(n, v, t) == if u == t then (if v in s.hub.viewers then Some(m) else None) else Pending(s, v, t);
    assert n.hub == s.hub;
    hide Do, SentOf, Of, Pending, Safe;
    assert SentOf(s, v, t) + [] == SentOf(s, v, t) && Of(served, t) + [] == Of(served, t);
  }

  lemma SendServes(s: State, u: nat, x: nat, served: seq<Message>, v: nat, t: nat)
    requires Safe(s) && Threaded(s) && Enabled(s, Send(u, x)) && v < |s.hub.channels| && AllServed(s, served, v, t)
    ensures !Breaks(s, Send(u, x))
    ensures var n := Do(s, Send(u, x));
            Safe(n) && AllServed(n, served + if x == v then [s.casts[u].message] else [], v, t)
  {
    hide Do, SentOf, Of, Pending, Safe, Breaks, Threaded, GotOf;
    SafeStep(s, Send(u, x));
    var m := s.casts[u].message;
    SendGives(s, u, x, v, t);
    SendMoves(s, u, x, v, t);
    OfOne(served, m, t);
    assert served + [] == served;
    assert Of(served, t) + [] == Of(served, t) && Of(served + [m], t) + [] == Of(served + [m], t);
  }

  lemma SendMoves(s: State, u: nat, x: nat, v: nat, t: nat)
    requires Safe(s) && Threaded(s) && Enabled(s, Send(u, x)) && !Breaks(s, Send(u, x)) && v < |s.hub.channels|
    ensures var n, m := Do(s, Send(u, x)), s.casts[u].message;
            && |n.hub.channels| == |s.hub.channels| && n.hub.viewers == s.hub.viewers && m.Cast? && m.thread == u
            && Pending(n, v, t) == (if u == t && x == v then None else Pending(s, v, t))
            && (u == t && x == v ==> Pending(s, v, t) == Some(m))
  {
    hide Offer;
  }

  lemma OfOne(served: seq<Message>, m: Message, t: nat)
    ensures Of(served + [m], t) == if m.Cast? && m.thread == t then Of(served, t) + [m] else Of(served, t)
  {
    assert (served + [m])[..|served|] == served;
  }

  lemma OtherServes(s: State, l: Label, served: seq<Message>, v: nat, t: nat)
    requires Safe(s) && Enabled(s, l) && !Breaks(s, l) && Safe(Do(s, l)) && !l.Begin? && !l.Send?
    requires v < |s.hub.channels| && AllServed(s, served, v, t)
    ensures v < |Do(s, l).hub.channels| && AllServed(Do(s, l), served, v, t)
  {
    hide Of;
    assert SentOf(Do(s, l), v, t) == SentOf(s, v, t);
    assert Of(served, t) + [] == Of(served, t);
  }

  lemma {:induction false} EveryBroadcastIsServed(labels: seq<Label>, v: nat, t: nat)
    requires Run(labels).Some? && v < |Run(labels).value.hub.channels| && Safe(Run(labels).value)
    ensures AllServed(Run(labels).value, Served(labels, v, false), v, t)
  {
    hide Run, Do, AllServed, Breaks, Enabled, Safe, Threaded;
    NobodyAtFirst();
    if labels != [] {
      var front, l := labels[..|labels| - 1], labels[|labels| - 1];
      FrontRuns(labels);
      RunIsThreaded(front);
      var s := Run(front).value;
      var served := Served(front, v, false);
      if v >= |s.hub.channels| {
        NotServedYet(front, v, false);
        JoinedStep(s, l, v);
        NewlyServed(Do(s, l), v, t);
      } else {
        EveryBroadcastIsServed(front, v, t);
        assert served + [] == served;
        match l {
          case Begin(u, data) => BeginServes(s, u, data, served, v, t);
          case Send(u, x) => SendServes(s, u, x, served, v, t);
          case _ => OtherServes(s, l, served, v, t);
        }
      }
    }
  }

  lemma NewlyServed(s: State, v: nat, t: nat)
    requires Safe(s) && v < |s.hub.channels| && s.casts == map[] && s.joinedAt[v] == |s.begun|
    ensures AllServed(s, [], v, t)
  {
    assert s.begun[s.joinedAt[v]..] == [];
  }

  lemma {:induction false} FirstIsNoCast(labels: seq<Label>, v: nat, t: nat)
    requires Run(labels).Some?
    ensures Of(FirstOf(labels, v), t) == []
  {
    hide Run;
    if labels != [] {
      FrontRuns(labels);
      FirstIsNoCast(labels[..|labels| - 1], v, t);
    }
  }

  /**
   What a viewer has got of a thread's broadcasts are those, in order, that found fewer than 100
   messages waiting. If all did, a watching viewer has got every broadcast begun since it
   joined, but for one it is just being served.
   */
  lemma OnlyFullChannelsDrop(labels: seq<Label>, v: nat, t: nat)
    requires Run(labels).Some? && v < |Run(labels).value.hub.channels|
    ensures var s := Run(labels).value;
            && Safe(s) && GotOf(s, v, t) == Of(Served(labels, v, true), t)
            && AllServed(s, Served(labels, v, false), v, t)
            && (AlwaysRoom(labels, v) && v in s.hub.viewers ==>
                  SentOf(s, v, t) == GotOf(s, v, t) + match Pending(s, v, t) case None => [] case Some(m) => [m])
  {
    RunIsSafe(labels);
    ViewersGetWhatFits(labels, v);
    EveryBroadcastIsServed(labels, v, t);
    FirstIsNoCast(labels, v, t);
    OfConcat(FirstOf(labels, v), Served(labels, v, true), t);
    hide Run, Served, FirstOf, Of, Safe;
    assert [] + Of(Served(labels, v, true), t) == Of(Served(labels, v, true), t);
    if AlwaysRoom(labels, v) {
      RoomKeepsAll(labels, v);
    }
  }

  lemma {:induction false} SubsequenceOfLonger(a: seq<Message>, b: seq<Message>, c: seq<Message>)
    requires Subsequence(a, b) && b <= c
    ensures Subsequence(a, c)
  {
    if b == c {
    } else {
      SubsequenceOfLonger(a, b, c[..|c| - 1]);
    }
  }

  lemma {:induction false} RoomIsSubsequence(labels: seq<Label>, v: nat, t: nat)
    requires Run(labels).Some?
    ensures Subsequence(Of(Served(labels, v, true), t), Of(Served(labels, v, false), t))
  {
    hide Run, Enabled, Breaks, Do, Of;
    if labels != [] {
      var front, l := labels[..|labels| - 1], labels[|labels| - 1];
      FrontRuns(labels);
      RoomIsSubsequence(front, v, t);
      if l.Send? && l.viewer == v {
        var some, all, m := Served(front, v, true), Served(front, v, false), Run(front).value.casts[l.thread].message;
        OfOne(some, m, t);
        OfOne(all, m, t);
        assert some + [] == some;
        OneMoreOfBoth(Of(some, t), Of(all, t), m);
      } else {
        assert Served(front, v, true) + [] == Served(front, v, true);
        assert Served(front, v, false) + [] == Served(front, v, false);
      }
    } else {
      OfNone(t);
    }
  }

  lemma OfNone(t: nat)
    ensures Of([], t) == []
  {
  }

  lemma OneMoreOfBoth(a: seq<Message>, b: seq<Message>, m: Message)
    requires Subsequence(a, b)
    ensures Subsequence(a, b + [m]) && Subsequence(a + [m], b + [m])
  {
    assert (b + [m])[..|b|] == b && (a + [m])[..|a|] == a;
  }

  /**
   What a viewer has read of a thread's broadcasts is a subsequence, in their order, of those
   begun after it joined: frames may be dropped but are never repeated, reordered, or older.
   */
  lemma FramesArriveInOrder(labels: seq<Label>, v: nat, t: nat)
    requires Run(labels).Some? && v < |Run(labels).value.hub.channels|
    ensures var s := Run(labels).value;
            && v < |s.joinedAt| && s.joinedAt[v] <= |s.begun|
            && Subsequence(Of(s.hub.channels[v].read, t), Of(s.begun[s.joinedAt[v]..], t))
  {
    hide Run, Subsequence, Served, Of, AllServed;
    OnlyFullChannelsDrop(labels, v, t);
    RoomIsSubsequence(labels, v, t);
    var s := Run(labels).value;
    var c := s.hub.channels[v];
    ServedIsPrefix(s, Served(labels, v, false), v, t);
    SubsequenceOfLonger(Of(Served(labels, v, true), t), Of(Served(labels, v, false), t), SentOf(s, v, t));
    OfConcat(c.read, c.buffer, t);
    SubsequenceOfPrefix(Of(c.read, t), Of(c.buffer, t), SentOf(s, v, t));
  }

  lemma ServedIsPrefix(s: State, served: seq<Message>, v: nat, t: nat)
    requires Safe(s) && v < |s.hub.channels| && AllServed(s, served, v, t)
    ensures Of(served, t) <= SentOf(s, v, t)
  {
    hide Of, SentOf, Safe;
  }

  // ----- The cached configuration -----

  /** Every bridge connects only when no earlier connection is still being handled. */
  ghost predicate NoTakeover(labels: seq<Label>) {
    labels != [] ==>
      var n := |labels| - 1;
      NoTakeover(labels[..n]) && (labels[n].Connect? && Run(labels[..n]).Some? ==> Run(labels[..n]).value.alive == {})
  }

  /** Without takeovers a new viewer gets the configuration of the bridge that is streaming. */
  lemma {:induction false} ConfigIsTheBridges(labels: seq<Label>)
    requires Run(labels).Some? && NoTakeover(labels)
    ensures var s := Run(labels).value;
            && s.alive == (if s.hub.bridge.Some? then {s.hub.bridge.value} else {})
            && (s.hub.config.Some? ==> s.hub.bridge == Some(s.hub.config.value.0))
  {
    if labels != [] {
      ConfigIsTheBridges(labels[..|labels| - 1]);
    }
  }

  /**
   A bridge that takes over while a configuration is cached never gets its own cached: until it
   is torn down itself, or taken over in turn, new viewers are sent the old one's.
   */
  lemma {:induction false} TakeoverKeepsTheOldConfig(labels: seq<Label>, conn: nat, rest: seq<Label>)
    requires Run(labels).Some? && Run(labels).value.hub.config.Some?
    requires forall l | l in rest :: !l.Connect? && l != Teardown(conn)
    requires Run(labels + [Connect(conn)] + rest).Some?
    ensures Run(labels + [Connect(conn)] + rest).value.hub.bridge == Some(conn)
    ensures Run(labels + [Connect(conn)] + rest).value.hub.config == Run(labels).value.hub.config
  {
    var all := labels + [Connect(conn)] + rest;
    if rest == [] {
      assert all == labels + [Connect(conn)] && all[..|labels|] == labels;
    } else {
      var n := |rest| - 1;
      assert all[..|all| - 1] == labels + [Connect(conn)] + rest[..n] && all[|all| - 1] == rest[n];
      TakeoverKeepsTheOldConfig(labels, conn, rest[..n]);
    }
  }

  /** From a connection on, and until the next one, the cached configuration is always that of the connected bridge. */
  ghost predicate ConfigStaysTheBridges(labels: seq<Label>, conn: nat) {
    forall rest: seq<Label> | FollowsWith(labels, conn, rest) :: OwnConfig(Run(labels + [Connect(conn)] + rest).value, conn)
  }

  ghost predicate FollowsWith(labels: seq<Label>, conn: nat, rest: seq<Label>) {
    (forall l | l in rest :: !l.Connect?) && Run(labels + [Connect(conn)] + rest).Some?
  }

  predicate OwnConfig(s: State, conn: nat) {
    s.hub.bridge == Some(conn) && s.hub.config.Some? ==> s.hub.config.value.0 == conn
  }

  /**
   Viewers are sent the configuration of the bridge that is streaming, whatever happens until the
   next connection, exactly if at its connection nothing was cached and no earlier connection was
   still being handled.
   */
  lemma ConfigStaysTheBridgesIffAlone(labels: seq<Label>, conn: nat)
    requires Run(labels).Some? && Enabled(Run(labels).value, Connect(conn))
    ensures ConfigStaysTheBridges(labels, conn)
            <==> Run(labels).value.hub.config.None? && Run(labels).value.alive == {}
  {
    var s := Run(labels).value;
    RunIsSafe(labels);
    if s.hub.config.None? && s.alive == {} {
      forall rest: seq<Label> | FollowsWith(labels, conn, rest)
        ensures OwnConfig(Run(labels + [Connect(conn)] + rest).value, conn)
      {
        AloneStaysAlone(labels, conn, rest);
      }
    } else {
      var rest := OthersConfig(labels, conn);
      assert FollowsWith(labels, conn, rest);
    }
  }

  lemma {:induction false} AloneStaysAlone(labels: seq<Label>, conn: nat, rest: seq<Label>)
    requires Run(labels).Some? && Run(labels).value.hub.config.None? && Run(labels).value.alive == {}
    requires FollowsWith(labels, conn, rest)
    ensures var s := Run(labels + [Connect(conn)] + rest).value;
            s.alive <= {conn} && (s.hub.config.Some? ==> s.hub.config.value.0 == conn)
  {
    var all := labels + [Connect(conn)] + rest;
    if rest == [] {
      assert all == labels + [Connect(conn)] && all[..|labels|] == labels;
    } else {
      var n := |rest| - 1;
      assert all[..|all| - 1] == labels + [Connect(conn)] + rest[..n] && all[|all| - 1] == rest[n];
      assert rest[n] in rest;
      AloneStaysAlone(labels, conn, rest[..n]);
    }
  }

  /** Either the cached configuration is another's already, or one still being handled gets its own cached. */
  lemma OthersConfig(labels: seq<Label>, conn: nat) returns (rest: seq<Label>)
    requires Run(labels).Some? && Enabled(Run(labels).value, Connect(conn)) && Safe(Run(labels).value)
    requires Run(labels).value.hub.config.Some? || Run(labels).value.alive != {}
    ensures FollowsWith(labels, conn, rest) && !OwnConfig(Run(labels + [Connect(conn)] + rest).value, conn)
  {
    var s := Run(labels).value;
    var connected := labels + [Connect(conn)];
    assert connected[..|labels|] == labels && connected + [] == connected;
    if s.hub.config.Some? {
      rest := [];
    } else {
      var c :| c in s.alive;
      rest := [CacheConfig(c, [])];
      assert (connected + rest)[..|connected|] == connected;
    }
  }

  // ----- Viewers that have left -----

  /** A viewer that has left, or whose channel was closed, is offered nothing any more, whatever happens later. */
  lemma {:induction false} LeftViewersGetNothing(labels: seq<Label>, rest: seq<Label>, v: nat)
    requires Run(labels).Some? && Run(labels + rest).Some?
    requires v < |Run(labels).value.hub.channels| && v !in Run(labels).value.hub.viewers
    ensures var s := Run(labels + rest).value;
            && v < |s.hub.channels| && v !in s.hub.viewers
            && Got(s.hub.channels[v]) == Got(Run(labels).value.hub.channels[v])
  {
    if rest == [] {
      assert labels + rest == labels;
    } else {
      var all, n := labels + rest, |rest| - 1;
      assert all[..|all| - 1] == labels + rest[..n] && all[|all| - 1] == rest[n];
      LeftViewersGetNothing(labels, rest[..n], v);
      RunIsSafe(labels + rest[..n]);
      LeftStep(Run(labels + rest[..n]).value, rest[n], v);
    }
  }

  lemma LeftStep(s: State, l: Label, v: nat)
    requires Safe(s) && Enabled(s, l) && !Breaks(s, l) && v < |s.hub.channels| && v !in s.hub.viewers
    ensures var n := Do(s, l);
            v < |n.hub.channels| && v !in n.hub.viewers && Got(n.hub.channels[v]) == Got(s.hub.channels[v])
  {
    hide Offer;
  }
}
