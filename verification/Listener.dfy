/** The LISTEN multiplexer: reference counts, the command queue and the
    connection that listens for all clients. */
module Listener {
  type Channel = string

  datatype Cmd = Listen(channel: Channel) | Unlisten(channel: Channel)

  /** What clients and the listener share. `open` is false once the listener gave up: its end
      of the queue is gone and commands are dropped. */
  datatype Shared = Shared(refs: map<Channel, nat>, queue: seq<Cmd>, open: bool) {
    function Send(cmd: Cmd): Shared {
      if open then this.(queue := queue + [cmd]) else this
    }

    function Count(ch: Channel): nat {
      if ch in refs then refs[ch] else 0
    }

    /** The first reference to a channel asks the server to listen. */
    function AddRef(ch: Channel): Shared {
      var s := this.(refs := refs[ch := Count(ch) + 1]);
      if Count(ch) == 0 then s.Send(Listen(ch)) else s
    }

    /** The last one asks it to stop. */
    function RemoveRef(ch: Channel): Shared {
      if ch !in refs then this
      else if refs[ch] <= 1 then this.(refs := refs - {ch}).Send(Unlisten(ch))
      else this.(refs := refs[ch := refs[ch] - 1])
    }

    function RemoveRefs(channels: seq<Channel>): Shared
      decreases |channels|
    {
      if channels == [] then this else RemoveRef(channels[0]).RemoveRefs(channels[1..])
    }
  }

  lemma {:induction false} RemoveRefsSnoc(s: Shared, channels: seq<Channel>, ch: Channel)
    ensures s.RemoveRefs(channels + [ch]) == s.RemoveRefs(channels).RemoveRef(ch)
    decreases |channels|
  {
    if channels == [] {
      assert [ch][1..] == [];
    } else {
      RemoveRefsSnoc(s.RemoveRef(channels[0]), channels[1..], ch);
      assert (channels + [ch])[1..] == channels[1..] + [ch];
    }
  }

  function Apply(subs: set<Channel>, cmd: Cmd): set<Channel> {
    match cmd
    case Listen(ch) => subs + {ch}
    case Unlisten(ch) => subs - {ch}
  }

  class ListenerPool {
    var refs: map<Channel, nat>
    var queue: seq<Cmd>
    var open: bool

    constructor ()
      ensures State() == Shared(map[], [], true)
    {
      refs, queue, open := map[], [], true;
    }

    function State(): Shared
      reads this
    {
      Shared(refs, queue, open)
    }

    method Send(cmd: Cmd)
      modifies this`queue
      ensures State() == old(State()).Send(cmd)
    {
      if open {
        queue := queue + [cmd];
      }
    }

    method AddRef(ch: Channel)
      modifies this`refs, this`queue
      ensures State() == old(State()).AddRef(ch)
    {
      if ch !in refs {
        refs := refs[ch := 0];
      }
      refs := refs[ch := refs[ch] + 1];
      if refs[ch] == 1 {
        Send(Listen(ch));
      }
    }

    method RemoveRef(ch: Channel)
      modifies this`refs, this`queue
      ensures State() == old(State()).RemoveRef(ch)
    {
      if ch in refs {
        var count := if refs[ch] > 0 then refs[ch] - 1 else 0;
        if count == 0 {
          refs := refs - {ch};
          Send(Unlisten(ch));
        } else {
          refs := refs[ch := count];
        }
      }
    }
  }

  /** The subscriptions of one client. */
  class ClientNotifications {
    const pool: ListenerPool
    var channels: set<Channel>

    constructor (pool: ListenerPool)
      ensures this.pool == pool && channels == {}
    {
      this.pool := pool;
      channels := {};
    }

    method Listen(ch: Channel)
      modifies this, pool
      ensures channels == old(channels) + {ch}
      ensures pool.State() == if ch in old(channels) then old(pool.State()) else old(pool.State()).AddRef(ch)
    {
      if ch !in channels {
        channels := channels + {ch};
        pool.AddRef(ch);
      }
    }

    method Unlisten(ch: Channel)
      modifies this, pool
      ensures channels == old(channels) - {ch}
      ensures pool.State() == if ch in old(channels) then old(pool.State()).RemoveRef(ch) else old(pool.State())
    {
      if ch in channels {
        channels := channels - {ch};
        pool.RemoveRef(ch);
      }
    }

    /** UNLISTEN *, and what a dropped client does: each channel is released once, in the
        set's own order. */
    method UnlistenAll() returns (ghost order: seq<Channel>)
      modifies this, pool
      ensures channels == {} && multiset(order) == multiset(old(channels))
      ensures pool.State() == old(pool.State()).RemoveRefs(order)
    {
      order := [];
      while channels != {}
        invariant channels <= old(channels)
        invariant multiset(order) == multiset(old(channels)) - multiset(channels)
        invariant pool.State() == old(pool.State()).RemoveRefs(order)
        decreases channels
      {
        var ch :| ch in channels;
        channels := channels - {ch};
        pool.RemoveRef(ch);
        RemoveRefsSnoc(old(pool.State()), order, ch);
        order := order + [ch];
      }
    }
  }

  /** The server's side of the listener connection. */
  class ListenerConn {
    var subs: set<Channel>

    constructor ()
      ensures subs == {}
    {
      subs := {};
    }

    /** Re-subscribes to every channel with references. */
    method Restore(channels: seq<Channel>)
      requires subs == {}
      modifies this
      ensures subs == set ch | ch in channels
    {
      var i := 0;
      while i < |channels|
        invariant 0 <= i <= |channels| && subs == set ch | ch in channels[..i]
      {
        subs := Apply(subs, Cmd.Listen(channels[i]));
        assert channels[..i + 1] == channels[..i] + [channels[i]];
        i := i + 1;
      }
      assert channels[..i] == channels;
    }

    method Handle(cmd: Cmd)
      modifies this
      ensures subs == Apply(old(subs), cmd)
    {
      match cmd
      case Listen(ch) => subs := subs + {ch};
      case Unlisten(ch) => subs := subs - {ch};
    }
  }
}
