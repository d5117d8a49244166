/** Who closes a client's channel (internal/hub/hub.go): handlers, ticks and the shutdown
    interleave under one mutex, and Go panics on a send to, or a second close of, a closed
    channel. */
module Channels {
  import opened Backpressure

  /** Joining: the channel exists, its handler has not registered it. */
  datatype Phase = Joining | Serving | Exited

  datatype Channel<M> = Channel(client: Client<M>, closes: nat, phase: Phase)

  datatype Hub<M> = Hub(clients: set<nat>, chans: map<nat, Channel<M>>, running: bool, panicked: bool)

  datatype Step<M> = Open(id: nat, hello: M, snap: M) | Register(id: nat) | Tick(tick: M, snap: M)
                   | Read(id: nat) | Exit(id: nat) | Shutdown

  function NewHub<M>(): Hub<M> {
    Hub({}, map[], true, false)
  }

  predicate Enabled<M>(h: Hub<M>, step: Step<M>) {
    match step
    case Open(id, _, _) => id !in h.chans
    case Register(id) => id in h.chans && h.chans[id].phase == Joining
    case Tick(_, _) => h.running && h.clients <= h.chans.Keys
    case Read(id) => id in h.chans && h.chans[id].phase == Serving && h.chans[id].client.queue != []
    case Exit(id) => id in h.chans && h.chans[id].phase == Serving
    case Shutdown => h.running && h.clients <= h.chans.Keys
  }

  predicate AnyClosed<M>(h: Hub<M>, ids: set<nat>) {
    exists id :: id in ids && id in h.chans && h.chans[id].closes > 0
  }

  function Closed<M>(ch: Channel<M>): Channel<M> {
    ch.(closes := ch.closes + 1)
  }

  function Fanned<M>(ch: Channel<M>, tick: M, snap: M): Channel<M> {
    ch.(client := FanOut(ch.client, tick, snap))
  }

  function FannedIn<M>(chans: map<nat, Channel<M>>, ids: set<nat>, tick: M, snap: M): map<nat, Channel<M>> {
    map id | id in chans :: if id in ids then Fanned(chans[id], tick, snap) else chans[id]
  }

  function ClosedIn<M>(chans: map<nat, Channel<M>>, ids: set<nat>): map<nat, Channel<M>> {
    map id | id in chans :: if id in ids then Closed(chans[id]) else chans[id]
  }

  /** One more channel of the loop over the clients. */
  lemma OneMore<M>(chans: map<nat, Channel<M>>, ids: set<nat>, id: nat, tick: M, snap: M)
    requires id in chans && id !in ids
    ensures id in FannedIn(chans, ids, tick, snap) && FannedIn(chans, ids, tick, snap)[id] == chans[id]
    ensures FannedIn(chans, ids, tick, snap)[id := Fanned(chans[id], tick, snap)] ==
            FannedIn(chans, ids + {id}, tick, snap)
  {
  }

  lemma OneMoreClosed<M>(chans: map<nat, Channel<M>>, ids: set<nat>, id: nat)
    requires id in chans && id !in ids
    ensures id in ClosedIn(chans, ids) && ClosedIn(chans, ids)[id] == chans[id]
    ensures ClosedIn(chans, ids)[id := Closed(chans[id])] == ClosedIn(chans, ids + {id})
  {
  }

  lemma NoneYet<M>(chans: map<nat, Channel<M>>, tick: M, snap: M)
    ensures FannedIn(chans, {}, tick, snap) == chans
  {
  }

  lemma ClosedNoneYet<M>(chans: map<nat, Channel<M>>)
    ensures ClosedIn(chans, {}) == chans
  {
  }

  function Do<M>(h: Hub<M>, step: Step<M>): Hub<M>
    requires Enabled(h, step)
  {
    match step
    case Open(id, hello, snap) => h.(chans := h.chans[id := Channel(Joined(hello, snap), 0, Joining)])
    case Register(id) => h.(chans := h.chans[id := h.chans[id].(phase := Serving)], clients := h.clients + {id})
    case Tick(tick, snap) =>
      h.(chans := FannedIn(h.chans, h.clients, tick, snap),
         panicked := h.panicked || AnyClosed(h, h.clients))
    case Read(id) => h.(chans := h.chans[id := h.chans[id].(client := Take(h.chans[id].client))])
    case Exit(id) =>
      var ch := h.chans[id].(phase := Exited);
      if id in h.clients then
        h.(chans := h.chans[id := Closed(ch)], clients := h.clients - {id}, panicked := h.panicked || ch.closes > 0)
      else h.(chans := h.chans[id := ch])
    case Shutdown =>
      h.(chans := ClosedIn(h.chans, h.clients),
         clients := {}, running := false, panicked := h.panicked || AnyClosed(h, h.clients))
  }

  predicate Legal<M>(h: Hub<M>, steps: seq<Step<M>>)
    decreases steps, 0
  {
    steps == [] || (Legal(h, steps[..|steps| - 1]) && Enabled(Run(h, steps[..|steps| - 1]), steps[|steps| - 1]))
  }

  function Run<M>(h: Hub<M>, steps: seq<Step<M>>): Hub<M>
    requires Legal(h, steps)
    decreases steps, 1
  {
    if steps == [] then h else Do(Run(h, steps[..|steps| - 1]), steps[|steps| - 1])
  }

  /** A registered channel is open; a channel whose client was registered and is so no
      longer was closed once; and no queue overflows. */
  predicate Sound<M>(h: Hub<M>) {
    && h.clients <= h.chans.Keys
    && !h.panicked
    && (forall id :: id in h.chans ==>
          && ClientOk(h.chans[id].client)
          && (id in h.clients ==> h.chans[id].phase == Serving && h.chans[id].closes == 0)
          && (id !in h.clients ==> h.chans[id].closes == if h.chans[id].phase == Joining then 0 else 1))
  }

  lemma DoSound<M>(h: Hub<M>, step: Step<M>)
    requires Enabled(h, step) && Sound(h)
    ensures Sound(Do(h, step))
  {
    match step
    case Tick(tick, snap) =>
      forall id | id in h.chans ensures ClientOk(FanOut(h.chans[id].client, tick, snap)) {
        FanOutOk(h.chans[id].client, tick, snap);
      }
    case _ =>
  }

  lemma {:induction false} RunSound<M>(h: Hub<M>, steps: seq<Step<M>>)
    requires Legal(h, steps) && Sound(h)
    ensures Sound(Run(h, steps))
    decreases steps
  {
    if steps != [] {
      RunSound(h, steps[..|steps| - 1]);
      DoSound(Run(h, steps[..|steps| - 1]), steps[|steps| - 1]);
    }
  }

  /** Under every interleaving: no message is offered to a closed channel and none is closed
      twice, and a channel whose handler has exited was closed exactly once, by the handler
      or by the shutdown, whichever came first. */
  lemma CloseSafety<M>(steps: seq<Step<M>>)
    requires Legal(NewHub<M>(), steps)
    ensures var h := Run(NewHub<M>(), steps);
            && !h.panicked
            && (forall id :: id in h.clients ==> id in h.chans && h.chans[id].closes == 0)
            && (forall id :: id in h.chans ==> h.chans[id].closes <= 1 && |h.chans[id].client.queue| <= SEND_QUEUE)
            && (forall id :: id in h.chans && h.chans[id].phase == Exited ==>
                  h.chans[id].closes == 1 && id !in h.clients)
  {
    RunSound(NewHub<M>(), steps);
  }
}
