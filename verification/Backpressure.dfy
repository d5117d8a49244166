/** One client of the hub (internal/hub/hub.go): a bounded queue that is never waited for,
    a count of dropped ticks, and a snapshot once the client fell too far behind. */
module Backpressure {

  const SEND_QUEUE: nat := 32
  const RESYNC_AFTER: nat := 8

  datatype Client<M> = Client(queue: seq<M>, behind: nat, resync: bool)

  predicate HasRoom<M>(c: Client<M>) {
    |c.queue| < SEND_QUEUE
  }

  /** One client's share of a tick: a client that fell behind is offered the snapshot. */
  function FanOut<M>(c: Client<M>, tick: M, snap: M): Client<M> {
    if c.resync then
      if HasRoom(c) then Client(c.queue + [snap], 0, false) else c
    else if HasRoom(c) then
      Client(c.queue + [tick], 0, false)
    else
      c.(behind := c.behind + 1, resync := c.behind + 1 >= RESYNC_AFTER)
  }

  /** The handler takes the oldest message off the queue. */
  function Take<M>(c: Client<M>): Client<M>
    requires c.queue != []
  {
    c.(queue := c.queue[1..])
  }

  predicate ClientOk<M>(c: Client<M>) {
    && |c.queue| <= SEND_QUEUE
    && c.behind <= RESYNC_AFTER
    && (c.resync <==> c.behind == RESYNC_AFTER)
  }

  function Joined<M>(hello: M, snap: M): (c: Client<M>)
    ensures ClientOk(c)
  {
    Client([hello, snap], 0, false)
  }

  lemma FanOutOk<M>(c: Client<M>, tick: M, snap: M)
    requires ClientOk(c)
    ensures ClientOk(FanOut(c, tick, snap))
  {
  }

  // ---------- whole runs ----------

  datatype Event<M> = Fan(tick: M, snap: M) | Taken

  datatype Outcome = TickSent | TickDropped | SnapSent | SnapDropped

  function OutcomeOf<M>(c: Client<M>): Outcome {
    if c.resync then (if HasRoom(c) then SnapSent else SnapDropped)
    else (if HasRoom(c) then TickSent else TickDropped)
  }

  function After<M>(c: Client<M>, ev: Event<M>): Client<M> {
    match ev
    case Fan(tick, snap) => FanOut(c, tick, snap)
    case Taken => if c.queue == [] then c else Take(c)
  }

  function Run<M>(c: Client<M>, evs: seq<Event<M>>): Client<M>
    decreases evs
  {
    if evs == [] then c else After(Run(c, evs[..|evs| - 1]), evs[|evs| - 1])
  }

  /** What became of each tick of the run, in order. */
  function History<M>(c: Client<M>, evs: seq<Event<M>>): seq<Outcome>
    decreases evs
  {
    if evs == [] then []
    else
      History(c, evs[..|evs| - 1]) +
      if evs[|evs| - 1].Fan? then [OutcomeOf(Run(c, evs[..|evs| - 1]))] else []
  }

  predicate Sent(o: Outcome) {
    o == TickSent || o == SnapSent
  }

  /** Since the last delivery, at `j`, `b` ticks were dropped: fewer than eight in a row, or
      eight and after them only snapshots. */
  predicate Stretch(h: seq<Outcome>, j: nat, b: nat) {
    && j <= |h| && (j == 0 || Sent(h[j - 1]))
    && (if b < RESYNC_AFTER then |h| == j + b else j + RESYNC_AFTER <= |h|)
    && (forall k :: j <= k < |h| && k < j + RESYNC_AFTER ==> h[k] == TickDropped)
    && (forall k :: j + RESYNC_AFTER <= k < |h| ==> h[k] == SnapDropped)
  }

  /** Every delivered tick follows at most seven consecutive drops, and every delivered
      snapshot follows exactly eight and any number of snapshots that found no room. */
  predicate Disciplined(h: seq<Outcome>) {
    && (forall i :: 0 <= i < |h| && h[i] == TickSent ==>
          exists j: nat, b: nat :: b < RESYNC_AFTER && j + b == i && Stretch(h[..i], j, b))
    && (forall i :: 0 <= i < |h| && h[i] == SnapSent ==>
          exists j: nat :: j <= i && Stretch(h[..i], j, RESYNC_AFTER))
  }

  lemma DisciplinedSnoc(h: seq<Outcome>, o: Outcome, j: nat, b: nat)
    requires Disciplined(h) && Stretch(h, j, b) && b <= RESYNC_AFTER
    requires o == TickSent ==> b < RESYNC_AFTER
    requires o == SnapSent ==> b == RESYNC_AFTER
    ensures Disciplined(h + [o])
  {
    var h' := h + [o];
    forall i | 0 <= i < |h'| && h'[i] == TickSent
      ensures exists j: nat, b: nat :: b < RESYNC_AFTER && j + b == i && Stretch(h'[..i], j, b)
    {
      if i < |h| {
        var j0: nat, b0: nat :| b0 < RESYNC_AFTER && j0 + b0 == i && Stretch(h[..i], j0, b0);
        assert h'[..i] == h[..i];
        assert Stretch(h'[..i], j0, b0);
      } else {
        assert h'[..i] == h;
        assert b < RESYNC_AFTER && j + b == i && Stretch(h'[..i], j, b);
      }
    }
    forall i | 0 <= i < |h'| && h'[i] == SnapSent
      ensures exists j: nat :: j <= i && Stretch(h'[..i], j, RESYNC_AFTER)
    {
      if i < |h| {
        var j0: nat :| j0 <= i && Stretch(h[..i], j0, RESYNC_AFTER);
        assert h'[..i] == h[..i];
        assert Stretch(h'[..i], j0, RESYNC_AFTER);
      } else {
        assert h'[..i] == h;
        assert Stretch(h'[..i], j, RESYNC_AFTER);
      }
    }
  }

  lemma StretchSnoc<M>(c: Client<M>, tick: M, snap: M, h: seq<Outcome>, j: nat) returns (j': nat)
    requires ClientOk(c) && Stretch(h, j, c.behind)
    ensures Stretch(h + [OutcomeOf(c)], j', FanOut(c, tick, snap).behind)
  {
    var o := OutcomeOf(c);
    if Sent(o) {
      j' := |h| + 1;
    } else {
      j' := j;
    }
  }

  /** Over every run of ticks and reads since a client joined: the queue is bounded, a
      resynchronisation is due exactly after eight drops, and the history is disciplined. */
  lemma {:induction false} BackpressureLaw<M>(hello: M, snap0: M, evs: seq<Event<M>>) returns (j: nat)
    ensures var c, h := Run(Joined(hello, snap0), evs), History(Joined(hello, snap0), evs);
            ClientOk(c) && Stretch(h, j, c.behind) && Disciplined(h)
    decreases evs
  {
    j := 0;
    if evs != [] {
      var init, ev := evs[..|evs| - 1], evs[|evs| - 1];
      j := BackpressureLaw(hello, snap0, init);
      var c, h := Run(Joined(hello, snap0), init), History(Joined(hello, snap0), init);
      if ev.Fan? {
        FanOutOk(c, ev.tick, ev.snap);
        DisciplinedSnoc(h, OutcomeOf(c), j, c.behind);
        j := StretchSnoc(c, ev.tick, ev.snap, h, j);
      } else {
        assert h + [] == h;
      }
    }
  }

  /** Nothing was delivered from `j` on until `k`. */
  predicate Gap(h: seq<Outcome>, j: nat, k: nat) {
    && j <= k < |h| && Sent(h[k]) && (j == 0 || Sent(h[j - 1]))
    && forall i :: j <= i < k ==> !Sent(h[i])
  }

  /** A stretch that ends where the gap does began where the gap did. */
  lemma StretchIsGap(h: seq<Outcome>, j: nat, k: nat, j0: nat, b: nat)
    requires Gap(h, j, k) && Stretch(h[..k], j0, b)
    ensures j0 == j
  {
  }

  /** Over every run: what ends a gap is a snapshot if and only if eight ticks or more went
      undelivered in it; a shorter gap is ended by the next tick that finds room, and what
      it dropped is not sent again. */
  lemma NextDelivery<M>(hello: M, snap0: M, evs: seq<Event<M>>, j: nat, k: nat)
    requires Gap(History(Joined(hello, snap0), evs), j, k)
    ensures var h := History(Joined(hello, snap0), evs);
            && (h[k] == SnapSent <==> j + RESYNC_AFTER <= k)
            && (forall i :: j <= i < k ==> h[i] == if i < j + RESYNC_AFTER then TickDropped else SnapDropped)
  {
    var h := History(Joined(hello, snap0), evs);
    var last := BackpressureLaw(hello, snap0, evs);
    var j0: nat, b: nat;
    if h[k] == TickSent {
      j0, b :| b < RESYNC_AFTER && j0 + b == k && Stretch(h[..k], j0, b);
    } else {
      b := RESYNC_AFTER;
      j0 :| j0 <= k && Stretch(h[..k], j0, RESYNC_AFTER);
    }
    StretchIsGap(h, j, k, j0, b);
    forall i | j <= i < k ensures h[i] == if i < j + RESYNC_AFTER then TickDropped else SnapDropped {
      assert h[i] == h[..k][i];
    }
  }
}
