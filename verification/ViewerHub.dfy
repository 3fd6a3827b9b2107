/** The hub between the one bridge that streams the screen and the viewers that watch it. */
module ViewerHub {
  import opened Common

  type Frame = seq<int>

  /** Something put into a viewer's channel: the cached configuration, or a broadcast by some thread. */
  datatype Message = Cached(data: Frame) | Cast(thread: nat, data: Frame)

  /** A viewer's channel: what waits in it, whether it is closed, and what was read from it. */
  datatype Channel = Channel(buffer: seq<Message>, closed: bool, read: seq<Message>)

  const CAPACITY := 100

  function Got(c: Channel): seq<Message> {
    c.read + c.buffer
  }

  /** A send that gives up when the buffer is full. */
  function Offer(c: Channel, m: Message): Channel {
    if |c.buffer| < CAPACITY then c.(buffer := c.buffer + [m]) else c
  }

  function FirstMessages(config: Option<(nat, Frame)>): seq<Message> {
    match config
    case None => []
    case Some(c) => [Cached(c.1)]
  }

  /** The hub as a value: the connection it streams from, the cached configuration and who sent it, the viewers. */
  datatype View = View(
    bridge: Option<nat>, config: Option<(nat, Frame)>, viewers: set<nat>, channels: seq<Channel>)

  // ----- The critical sections -----

  function Connected(h: View, conn: nat): View {
    h.(bridge := Some(conn))
  }

  /** The first video message is kept, whoever sends it. */
  function WithConfig(h: View, conn: nat, data: Frame): View {
    if h.config.None? then h.(config := Some((conn, data))) else h
  }

  function Broadcasted(h: View, m: Message): (r: View)
    ensures |r.channels| == |h.channels|
  {
    h.(channels := seq(|h.channels|, v requires 0 <= v < |h.channels| =>
         if v in h.viewers then Offer(h.channels[v], m) else h.channels[v]))
  }

  function Joined(h: View): View {
    h.(viewers := h.viewers + {|h.channels|}, channels := h.channels + [Channel(FirstMessages(h.config), false, [])])
  }

  function Left(h: View, v: nat): View {
    h.(viewers := h.viewers - {v})
  }

  function Closed(channels: seq<Channel>, viewers: set<nat>): (r: seq<Channel>)
    ensures |r| == |channels|
  {
    seq(|channels|, v requires 0 <= v < |channels| =>
      if v in viewers then channels[v].(closed := true) else channels[v])
  }

  /** The end of a bridge connection, which does nothing if another one has taken over. */
  function TornDown(h: View, conn: nat): View {
    if h.bridge == Some(conn) then View(None, None, {}, Closed(h.channels, h.viewers)) else h
  }

  class Hub {
    var bridge: Option<nat>
    var config: Option<(nat, Frame)>
    var viewers: set<nat>
    var channels: seq<Channel>

    function Now(): View
      reads this
    {
      View(bridge, config, viewers, channels)
    }

    ghost predicate Valid()
      reads this
    {
      forall v | v in viewers :: v < |channels| && !channels[v].closed
    }

    constructor ()
      ensures Valid() && Now() == View(None, None, {}, [])
    {
      bridge, config, viewers, channels := None, None, {}, [];
    }

    method Connect(conn: nat)
      requires Valid()
      modifies this`bridge
      ensures Valid() && Now() == Connected(old(Now()), conn)
    {
      bridge := Some(conn);
    }

    method CacheConfig(conn: nat, data: Frame)
      requires Valid()
      modifies this`config
      ensures Valid() && Now() == WithConfig(old(Now()), conn, data)
      ensures config == if old(config).None? then Some((conn, data)) else old(config)
    {
      if config.None? {
        config := Some((conn, data));
      }
    }

    /** The map of viewers is walked in no particular order. */
    method Broadcast(m: Message)
      requires Valid()
      modifies this`channels
      ensures Valid() && Now() == Broadcasted(old(Now()), m)
      ensures |channels| == |old(channels)| && forall v :: 0 <= v < |channels| ==>
                channels[v] == if v in viewers && |old(channels)[v].buffer| < CAPACITY
                               then old(channels)[v].(buffer := old(channels)[v].buffer + [m]) else old(channels)[v]
    {
      var todo := viewers;
      while todo != {}
        invariant todo <= viewers && |channels| == |old(channels)|
        invariant forall v :: 0 <= v < |channels| ==>
                    channels[v] == if v in viewers && v !in todo then Offer(old(channels)[v], m) else old(channels)[v]
        decreases |todo|
      {
        var v :| v in todo;
        todo := todo - {v};
        if |channels[v].buffer| < CAPACITY {
          channels := channels[v := channels[v].(buffer := channels[v].buffer + [m])];
        }
      }
    }

    method Join() returns (v: nat)
      requires Valid()
      modifies this`viewers, this`channels
      ensures Valid() && v == |old(channels)| && Now() == Joined(old(Now()))
      ensures viewers == old(viewers) + {v} && |channels| == v + 1 && channels[..v] == old(channels)
      ensures !channels[v].closed && channels[v].read == []
      ensures channels[v].buffer == if config.Some? then [Cached(config.value.1)] else []
    {
      v := |channels|;
      channels := channels + [Channel([], false, [])];
      viewers := viewers + {v};
      match config
      case None =>
      case Some(c) =>
        assert |channels[v].buffer| < CAPACITY;
        channels := channels[v := channels[v].(buffer := channels[v].buffer + [Cached(c.1)])];
        assert channels[v].buffer == [Cached(c.1)];
    }

    method Leave(v: nat)
      requires Valid()
      modifies this`viewers
      ensures Valid() && Now() == Left(old(Now()), v)
    {
      viewers := viewers - {v};
    }

    method Teardown(conn: nat)
      requires Valid()
      modifies this
      ensures Valid() && Now() == TornDown(old(Now()), conn)
      ensures old(bridge) != Some(conn) ==> Now() == old(Now())
      ensures old(bridge) == Some(conn) ==>
                && bridge == None && config == None && viewers == {} && |channels| == |old(channels)|
                && forall v :: 0 <= v < |channels| ==>
                     channels[v] == if v in old(viewers) then old(channels)[v].(closed := true) else old(channels)[v]
    {
      if bridge == Some(conn) {
        bridge, config := None, None;
        while viewers != {}
          invariant viewers <= old(viewers) && |channels| == |old(channels)|
          invariant bridge == None && config == None
          invariant forall v :: 0 <= v < |channels| ==>
                      channels[v] == if v in old(viewers) && v !in viewers
                                     then old(channels)[v].(closed := true) else old(channels)[v]
          decreases |viewers|
        {
          var v :| v in viewers;
          channels := channels[v := channels[v].(closed := true)];
          viewers := viewers - {v};
        }
      }
    }
  }
}
