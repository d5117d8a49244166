/** The hub as the program keeps it (internal/hub/hub.go): the registered clients and their
    channels, changed by handlers, ticks and the shutdown, each under the mutex. Offering to
    a closed channel and closing one twice are preconditions here, so that the proofs of
    these methods are proofs that the panics cannot happen. */
module Hub {
  import opened Backpressure
  import C = Channels

  class Hub<M> {
    var clients: set<nat>
    var chans: map<nat, C.Channel<M>>
    var running: bool

    ghost function Value(): C.Hub<M>
      reads this
    {
      C.Hub(clients, chans, running, false)
    }

    ghost predicate Valid()
      reads this
    {
      C.Sound(Value())
    }

    constructor ()
      ensures Valid() && Value() == C.NewHub()
    {
      clients, chans, running := {}, map[], true;
    }

    /** The channel of a new connection, with its greeting and its snapshot. */
    method Open(id: nat, hello: M, snap: M)
      requires Valid() && id !in chans
      modifies this`chans
      ensures Valid() && Value() == C.Do(old(Value()), C.Open(id, hello, snap))
    {
      C.DoSound(Value(), C.Open(id, hello, snap));
      chans := chans[id := C.Channel(Client([hello, snap], 0, false), 0, C.Joining)];
    }

    method Register(id: nat)
      requires Valid() && id in chans && chans[id].phase == C.Joining
      modifies this`chans, this`clients
      ensures Valid() && Value() == C.Do(old(Value()), C.Register(id))
    {
      C.DoSound(Value(), C.Register(id));
      chans := chans[id := chans[id].(phase := C.Serving)];
      clients := clients + {id};
    }

    /** A send that never blocks. */
    method Offer(id: nat, msg: M) returns (ok: bool)
      requires id in chans && chans[id].closes == 0
      modifies this`chans
      ensures ok == HasRoom(old(chans)[id].client)
      ensures chans == if ok then old(chans)[id := Pushed(old(chans)[id], msg)] else old(chans)
    {
      ok := |chans[id].client.queue| < SEND_QUEUE;
      if ok {
        var ch := chans[id];
        chans := chans[id := ch.(client := ch.client.(queue := ch.client.queue + [msg]))];
      }
    }

    method SetBehind(id: nat, behind: nat, resync: bool)
      requires id in chans
      modifies this`chans
      ensures var ch := old(chans)[id];
              chans == old(chans)[id := ch.(client := ch.client.(behind := behind, resync := resync))]
    {
      var ch := chans[id];
      chans := chans[id := ch.(client := ch.client.(behind := behind, resync := resync))];
    }

    /** One client's share of a tick. */
    method FanTo(id: nat, tick: M, snap: M)
      requires id in chans && chans[id].closes == 0
      modifies this`chans
      ensures chans == old(chans)[id := C.Fanned(old(chans)[id], tick, snap)]
    {
      var c := chans[id].client;
      if c.resync {
        var ok := Offer(id, snap);
        if ok {
          SetBehind(id, 0, false);
        }
        return;
      }
      var ok := Offer(id, tick);
      if !ok {
        SetBehind(id, c.behind + 1, c.behind + 1 >= RESYNC_AFTER);
      } else {
        SetBehind(id, 0, false);
      }
    }

    /** The fan-out loop, over the clients in any order. */
    method Tick(tick: M, snap: M)
      requires Valid() && running
      modifies this`chans
      ensures Valid() && Value() == C.Do(old(Value()), C.Tick(tick, snap))
    {
      ghost var h := Value();
      C.DoSound(h, C.Tick(tick, snap));
      C.NoneYet(h.chans, tick, snap);
      var todo := clients;
      ghost var done: set<nat> := {};
      while todo != {}
        invariant done !! todo && done + todo == clients
        invariant chans == C.FannedIn(h.chans, done, tick, snap)
        decreases todo
      {
        var id :| id in todo;
        todo := todo - {id};
        C.OneMore(h.chans, done, id, tick, snap);
        FanTo(id, tick, snap);
        done := done + {id};
      }
      assert done == clients;
    }

    /** A handler takes the oldest message. */
    method Read(id: nat) returns (msg: M)
      requires Valid() && id in chans && chans[id].phase == C.Serving && chans[id].client.queue != []
      modifies this`chans
      ensures msg == old(chans)[id].client.queue[0]
      ensures Valid() && Value() == C.Do(old(Value()), C.Read(id))
    {
      C.DoSound(Value(), C.Read(id));
      var ch := chans[id];
      msg := ch.client.queue[0];
      chans := chans[id := ch.(client := ch.client.(queue := ch.client.queue[1..]))];
    }

    method Close(id: nat)
      requires id in chans && chans[id].closes == 0
      modifies this`chans
      ensures chans == old(chans)[id := C.Closed(old(chans)[id])]
    {
      chans := chans[id := chans[id].(closes := chans[id].closes + 1)];
    }

    /** The deferred part of a handler: close only what the shutdown has not closed. */
    method Exit(id: nat)
      requires Valid() && id in chans && chans[id].phase == C.Serving
      modifies this`chans, this`clients
      ensures Valid() && Value() == C.Do(old(Value()), C.Exit(id))
    {
      C.DoSound(Value(), C.Exit(id));
      ghost var h := Value();
      if id in clients {
        clients := clients - {id};
        Close(id);
      }
      chans := chans[id := chans[id].(phase := C.Exited)];
      assert chans == C.Do(h, C.Exit(id)).chans;
    }

    /** The end of Run: every registered channel is closed, in any order. */
    method Shutdown()
      requires Valid() && running
      modifies this
      ensures Value() == C.Do(old(Value()), C.Shutdown)
      ensures Valid()
    {
      ghost var h := Value();
      C.DoSound(h, C.Shutdown);
      ghost var done: set<nat> := {};
      C.ClosedNoneYet(h.chans);
      while clients != {}
        invariant done !! clients && done + clients == h.clients
        invariant chans == C.ClosedIn(h.chans, done)
        decreases clients
      {
        var id :| id in clients;
        C.OneMoreClosed(h.chans, done, id);
        Close(id);
        clients := clients - {id};
        done := done + {id};
      }
      assert done == h.clients;
      running := false;
    }
  }

  function Pushed<M>(ch: C.Channel<M>, msg: M): C.Channel<M> {
    ch.(client := ch.client.(queue := ch.client.queue + [msg]))
  }
}
