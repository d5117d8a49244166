/** What becomes of single clients over whole runs of the system: those that are given every
    tick, those that miss one or get one twice, and those that are sent a new snapshot. */
module Recovery {
  import opened Wire
  import opened GraphModel
  import opened GraphInvariants
  import opened GraphAnchors
  import opened ReplicaModel
  import opened Coupling
  import opened Delivery
  import opened Adjacency
  import opened Gaps
  import opened System
  import B = Backpressure

  // ---------- clients that are given every tick ----------

  /** From `y` on the client stays, and every tick that is handed out finds it registered and
      with room in its queue. */
  ghost predicate Served(y: Sys, ms: seq<Move>, id: nat)
    requires Legal(y, ms)
    decreases ms
  {
    ms == [] ||
    (var y', m := Run(y, ms[..|ms| - 1]), ms[|ms| - 1];
     && Served(y, ms[..|ms| - 1], id)
     && m != Left(id)
     && (m.TickHanded? && id in y'.peers ==> y'.peers[id].registered && B.HasRoom(y'.peers[id].client)))
  }

  /** A conversation that no tick of the run expired. */
  ghost predicate Outlives(y: Sys, ms: seq<Move>, e: EdgeKey)
    requires Legal(y, ms)
    decreases ms
  {
    ms == [] ||
    (var y', m := Run(y, ms[..|ms| - 1]), ms[|ms| - 1];
     && Outlives(y, ms[..|ms| - 1], e)
     && (m.TickStarted? ==> e in Expire(y'.g, m.now).edges))
  }

  /** What the client of a snapshot counts twice, after a run of delivered ticks. */
  ghost function Surplus(y: Sys, ms: seq<Move>, drift: Drift): Drift
    requires Legal(y, ms)
  {
    map e | e in drift && Outlives(y, ms, e) :: drift[e]
  }

  /** A client in step with the ticks: it is owed the one on its way, and no snapshot. */
  predicate InStep(y: Sys, id: nat) {
    && id in y.peers
    && (y.peers[id].owed <==> y.inflight.Some?)
    && !y.peers[id].client.resync
  }

  lemma ServedStep(y: Sys, m: Move, id: nat)
    requires Enabled(y, m) && InStep(y, id) && m != Left(id)
    requires m.TickHanded? ==> y.peers[id].registered && B.HasRoom(y.peers[id].client)
    ensures InStep(Do(y, m), id)
    ensures Do(y, m).peers[id].sync ==
            if m.TickStarted? && y.peers[id].sync.Drifted?
            then Drifted(Restrict(y.peers[id].sync.drift, Expire(y.g, m.now).edges.Keys))
            else y.peers[id].sync
  {
  }

  lemma {:induction false} ServedStays(y: Sys, ms: seq<Move>, id: nat)
    requires Legal(y, ms) && Served(y, ms, id) && InStep(y, id) && !y.peers[id].sync.Lost?
    ensures InStep(Run(y, ms), id)
    ensures y.peers[id].sync.Clean? ==> Run(y, ms).peers[id].sync == Clean
    ensures y.peers[id].sync.Drifted? ==>
              Run(y, ms).peers[id].sync == Drifted(Surplus(y, ms, y.peers[id].sync.drift))
    decreases ms
  {
    if ms == [] {
      if y.peers[id].sync.Drifted? {
        assert Surplus(y, ms, y.peers[id].sync.drift) == y.peers[id].sync.drift;
      }
    } else {
      var init, m := ms[..|ms| - 1], ms[|ms| - 1];
      ServedStays(y, init, id);
      ServedStep(Run(y, init), m, id);
      if y.peers[id].sync.Drifted? {
        SurplusStep(y, ms, y.peers[id].sync.drift);
      }
    }
  }

  lemma SurplusStep(y: Sys, ms: seq<Move>, drift: Drift)
    requires Legal(y, ms) && ms != []
    ensures var y', m := Run(y, ms[..|ms| - 1]), ms[|ms| - 1];
            Surplus(y, ms, drift) ==
            if m.TickStarted? then Restrict(Surplus(y, ms[..|ms| - 1], drift), Expire(y'.g, m.now).edges.Keys)
            else Surplus(y, ms[..|ms| - 1], drift)
  {
  }

  lemma {:induction false} LegalConcat(y: Sys, a: seq<Move>, b: seq<Move>)
    requires Legal(y, a) && Legal(Run(y, a), b)
    ensures Legal(y, a + b) && Run(y, a + b) == Run(Run(y, a), b)
    decreases b
  {
    if b == [] {
      assert a + b == a;
    } else {
      assert (a + b)[..|a + b| - 1] == a + b[..|b| - 1];
      LegalConcat(y, a, b[..|b| - 1]);
    }
  }

  /** The copy has the server's conversations, linked to nodes it shows, each total too high
      by the surplus; with no surplus it is the graph. */
  predicate ShowsUpTo(y: Sys, id: nat, surplus: Drift)
    requires id in y.peers
  {
    var c := Shown(y.peers[id]);
    && Linked(c) && c.edges.Keys == y.g.edges.Keys && y.g.nodes.Keys <= c.nodes.Keys
    && forall e :: e in y.g.edges && e in c.edges ==>
         c.edges[e].totals == y.g.edges[e].counts.Plus(DriftOf(surplus, e))
  }

  lemma CleanShows(y: Sys, id: nat)
    requires Inv(y) && y.inflight.None? && NothingPending(y.g) && id in y.peers && y.peers[id].sync.Clean?
    ensures ShowsUpTo(y, id, map[]) && SameGraph(y.g, Shown(y.peers[id]))
  {
    assert PeerOk(y, y.peers[id]);
    SyncedIsSame(y.g, Expected(y, y.peers[id]));
    forall e | e in y.g.edges ensures y.g.edges[e].counts.Plus(DriftOf(map[], e)) == y.g.edges[e].counts {
      PlusZero(y.g.edges[e].counts);
    }
  }

  lemma DriftedShows(y: Sys, id: nat, surplus: Drift)
    requires Inv(y) && y.inflight.None? && NothingPending(y.g) && id in y.peers
    requires y.peers[id].sync == Drifted(surplus)
    ensures ShowsUpTo(y, id, surplus)
  {
    assert PeerOk(y, y.peers[id]);
    CoupledEdges(y.g, Expected(y, y.peers[id]), surplus);
  }

  /** A client that joined at `y`, no tick being on its way, and was given every tick since. */
  ghost predicate JoinedServed(y: Sys, id: nat, before: Replica, now: int, snap: Snapshot, after: seq<Move>) {
    && y.inflight.None? && MayJoin(y, id, now, snap)
    && var y1 := Joining(y, id, before, snap);
       Legal(y1, after) && Served(y1, after, id)
  }

  lemma JoinedServedStays(y: Sys, id: nat, before: Replica, now: int, snap: Snapshot, after: seq<Move>)
    requires Inv(y) && JoinedServed(y, id, before, now, snap, after)
    ensures var y1 := Joining(y, id, before, snap);
            var y2 := Run(y1, after);
            && Inv(y2) && id in y2.peers
            && y2.peers[id].sync == if NothingPending(y.g) then Clean else Drifted(Surplus(y1, after, y.g.dirty))
  {
    var y1 := Joining(y, id, before, snap);
    JoinedInv(y, id, before, now, snap);
    RunInv(y1, after);
    assert InStep(y1, id) && y1.peers[id].sync == FreshSync(y.g);
    ServedStays(y1, after, id);
  }

  /** A client joins while no tick is on its way and is given every tick from then on. At any
      later boundary each of its totals exceeds the server's by what was pending when it
      joined, if the conversation has lived since; with nothing pending then, the copy is
      the graph. */
  lemma JoinedAndServed(y: Sys, id: nat, before: Replica, now: int, snap: Snapshot, after: seq<Move>)
    requires Inv(y) && JoinedServed(y, id, before, now, snap, after)
    requires var y2 := Run(Joining(y, id, before, snap), after);
             y2.inflight.None? && NothingPending(y2.g)
    ensures var y1 := Joining(y, id, before, snap);
            var y2 := Run(y1, after);
            && id in y2.peers
            && ShowsUpTo(y2, id, Surplus(y1, after, y.g.dirty))
            && (NothingPending(y.g) ==> SameGraph(y2.g, Shown(y2.peers[id])))
  {
    var y1 := Joining(y, id, before, snap);
    var y2 := Run(y1, after);
    JoinedServedStays(y, id, before, now, snap, after);
    NoSurplus(y1, after, y.g);
    BoundaryShows(y2, id, Surplus(y1, after, y.g.dirty), NothingPending(y.g));
  }

  lemma NoSurplus(y: Sys, ms: seq<Move>, g: State)
    requires Legal(y, ms)
    ensures NothingPending(g) ==> Surplus(y, ms, g.dirty) == map[]
  {
    assert NothingPending(g) ==> g.dirty == map[];
  }

  lemma BoundaryShows(y: Sys, id: nat, surplus: Drift, exact: bool)
    requires Inv(y) && y.inflight.None? && NothingPending(y.g) && id in y.peers
    requires y.peers[id].sync == if exact then Clean else Drifted(surplus)
    requires exact ==> surplus == map[]
    ensures ShowsUpTo(y, id, surplus)
    ensures exact ==> SameGraph(y.g, Shown(y.peers[id]))
  {
    if exact {
      CleanShows(y, id);
    } else {
      DriftedShows(y, id, surplus);
    }
  }

  // ---------- a tick with nothing in between ----------

  /** A tick that is computed and handed out before anything else happens. */
  ghost predicate TickEnabled(y: Sys, now: int, t: Tick, snap: Snapshot) {
    && MayStart(y, now, t)
    && MayHand(Starting(y, now, t), now, snap)
  }

  function Ticked(y: Sys, now: int, t: Tick, snap: Snapshot): Sys {
    Handing(Starting(y, now, t), snap)
  }

  lemma TickedInv(y: Sys, now: int, t: Tick, snap: Snapshot)
    requires Inv(y) && TickEnabled(y, now, t, snap)
    ensures Inv(Ticked(y, now, t, snap))
    ensures var y' := Ticked(y, now, t, snap);
            y'.g == AfterTick(y.g, now) && y'.inflight.None?  && NothingPending(y'.g)
  {
    TickStartedInv(y, now, t);
    TickHandedInv(Starting(y, now, t), now, snap);
    AfterTickWellFormed(y.g, now);
  }

  /** A client that fell behind and finds room is as well informed as one that joins now. */
  lemma ResyncIsExact(y: Sys, now: int, snap: Snapshot, id: nat)
    requires MayHand(y, now, snap) && id in y.peers && Given(y.peers[id]) && y.peers[id].client.resync
    ensures Handing(y, snap).peers[id].sync == FreshSync(y.g) && InStep(Handing(y, snap), id)
  {
  }

  /** Resynchronisation, whenever the tick is handed out and whatever the client had missed:
      if it is given its snapshot and every tick from then on, its copy counts at every later
      boundary too much exactly what was pending at the snapshot; if nothing was, it is the
      graph. */
  lemma ResyncAndServed(y: Sys, now: int, snap: Snapshot, id: nat, after: seq<Move>)
    requires Inv(y) && MayHand(y, now, snap)
    requires id in y.peers && Given(y.peers[id]) && y.peers[id].client.resync
    requires Legal(Handing(y, snap), after) && Served(Handing(y, snap), after, id)
    requires var y2 := Run(Handing(y, snap), after); y2.inflight.None? && NothingPending(y2.g)
    ensures var y1 := Handing(y, snap);
            var y2 := Run(y1, after);
            && id in y2.peers
            && ShowsUpTo(y2, id, Surplus(y1, after, y.g.dirty))
            && (NothingPending(y.g) ==> SameGraph(y2.g, Shown(y2.peers[id])))
  {
    var y1 := Handing(y, snap);
    TickHandedInv(y, now, snap);
    ResyncIsExact(y, now, snap, id);
    RunInv(y1, after);
    ServedStays(y1, after, id);
    NoSurplus(y1, after, y.g);
    BoundaryShows(Run(y1, after), id, Surplus(y1, after, y.g.dirty), NothingPending(y.g));
  }

  lemma NotGiven(y: Sys, now: int, t: Tick, snap: Snapshot, id: nat)
    requires TickEnabled(y, now, t, snap) && id in y.peers && !Given(y.peers[id])
    ensures Shown(Ticked(y, now, t, snap).peers[id]) == Shown(y.peers[id])
  {
    var p1 := Starting(y, now, t).peers[id];
    HandedShown(p1, t, snap, AfterTick(y.g, now));
    assert Shown(p1) == Shown(y.peers[id]);
  }

  lemma ExpiredSynced(y: Sys, now: int, id: nat)
    requires Inv(y) && y.inflight.None? && id in y.peers && y.peers[id].sync.Clean?
    ensures WellFormed(Expire(y.g, now)) && GoneIsGone(Expire(y.g, now))
    ensures Synced(Expire(y.g, now), Shown(y.peers[id]))
  {
    assert PeerOk(y, y.peers[id]);
    AnchoredGoneIsGone(y.g);
    ExpireWellFormed(y.g, now);
    ExpiredGoneIsGone(y.g, now);
    ExpireKeeps(y.g, Shown(y.peers[id]), map[], now);
  }

  /** Exactly when one tick makes an exact copy wrong: the client is not registered or has no
      room, and the tick would have told its copy something. */
  lemma LostExactly(y: Sys, now: int, t: Tick, snap: Snapshot, id: nat)
    requires Inv(y) && TickEnabled(y, now, t, snap) && id in y.peers && y.peers[id].sync.Clean?
    ensures var y', c := Ticked(y, now, t, snap), Shown(y.peers[id]);
            && id in y'.peers
            && (SameGraph(y'.g, Shown(y'.peers[id])) <==> Given(y.peers[id]) || !News(c, t))
  {
    var y' := Ticked(y, now, t, snap);
    TickedInv(y, now, t, snap);
    if Given(y.peers[id]) {
      GivenStaysClean(y, now, t, snap, id);
      CleanShows(y', id);
    } else {
      NotGiven(y, now, t, snap, id);
      ExpiredSynced(y, now, id);
      MissedTickExactly(Expire(y.g, now), now, t, Shown(y.peers[id]));
    }
  }

  lemma GivenStaysClean(y: Sys, now: int, t: Tick, snap: Snapshot, id: nat)
    requires Inv(y) && TickEnabled(y, now, t, snap) && id in y.peers && y.peers[id].sync.Clean?
    requires Given(y.peers[id])
    ensures Ticked(y, now, t, snap).peers[id].sync == Clean
  {
    AfterTickWellFormed(y.g, now);
  }

  /** A client that joins between the computing and the handing out of a tick. */
  ghost predicate JoinsMidTick(y: Sys, now: int, t: Tick, snap: Snapshot, id: nat, before: Replica,
                  now1: int, snap1: Snapshot) {
    && MayStart(y, now, t)
    && var y1 := Starting(y, now, t);
       && MayJoin(y1, id, now1, snap1)
       && MayHand(Registering(Joining(y1, id, before, snap1), id), now, snap)
  }

  function MidTick(y: Sys, now: int, t: Tick, snap: Snapshot, id: nat, before: Replica,
                  now1: int, snap1: Snapshot): Sys {
    Handing(Registering(Joining(Starting(y, now, t), id, before, snap1), id), snap)
  }

  /** The new client: greeting, snapshot, and then the tick. */
  function MidTickPeer(g: State, t: Tick, snap: Snapshot, before: Replica, snap1: Snapshot): Peer {
    Handed(NewPeer(before, snap1, g).(registered := true), t, snap, g)
  }

  lemma MidTickPeerShown(g: State, t: Tick, snap: Snapshot, before: Replica, snap1: Snapshot)
    ensures var p := MidTickPeer(g, t, snap, before, snap1);
            Shown(p) == ApplyTick(ApplySnapshot(before, snap1), t) && p.registered && !p.owed && !p.client.resync
  {
    var p0 := NewPeer(before, snap1, g).(registered := true);
    HandedShown(p0, t, snap, g);
    NewPeerShown(before, snap1, g);
    assert Sent(p0) == Sent(NewPeer(before, snap1, g));
  }

  lemma MidTickEnds(y: Sys, now: int, t: Tick, snap: Snapshot, id: nat, before: Replica,
                  now1: int, snap1: Snapshot)
    requires JoinsMidTick(y, now, t, snap, id, before, now1, snap1)
    ensures var y' := MidTick(y, now, t, snap, id, before, now1, snap1);
            && y'.g == AfterTick(y.g, now) && y'.inflight.None?
            && id in y'.peers && y'.peers[id] == MidTickPeer(AfterTick(y.g, now), t, snap, before, snap1)
  {
    var y3 := Registering(Joining(Starting(y, now, t), id, before, snap1), id);
    assert y3.peers[id] == NewPeer(before, snap1, AfterTick(y.g, now)).(registered := true);
  }

  /** Exactly when such a client's copy is wrong: its snapshot contains the tick it is then
      given, so each increment of that tick is counted twice. */
  lemma JoinedMidTick(y: Sys, now: int, t: Tick, snap: Snapshot, id: nat, before: Replica,
                  now1: int, snap1: Snapshot)
    requires Inv(y) && JoinsMidTick(y, now, t, snap, id, before, now1, snap1)
    ensures var y' := MidTick(y, now, t, snap, id, before, now1, snap1);
            && id in y'.peers && y'.inflight.None? && NothingPending(y'.g)
            && (SameGraph(y'.g, Shown(y'.peers[id])) <==> t.edges == [])
  {
    var g := AfterTick(y.g, now);
    MidTickEnds(y, now, t, snap, id, before, now1, snap1);
    MidTickPeerShown(g, t, snap, before, snap1);
    ExpiredSound(y, now);
    AfterTickWellFormed(y.g, now);
    FreshIsSame(g, before, now1, snap1);
    DoubledTickExactly(Expire(y.g, now), now, t, ApplySnapshot(before, snap1));
  }

  lemma ExpiredSound(y: Sys, now: int)
    requires Inv(y)
    ensures WellFormed(Expire(y.g, now)) && GoneIsGone(Expire(y.g, now))
  {
    AnchoredGoneIsGone(y.g);
    ExpireWellFormed(y.g, now);
    ExpiredGoneIsGone(y.g, now);
  }

  lemma FreshIsSame(g: State, c: Replica, now: int, snap: Snapshot)
    requires WellFormed(g) && NothingPending(g) && IsSnapshot(g, now, snap)
    ensures SameGraph(g, ApplySnapshot(c, snap))
  {
    CleanSnapshotSyncs(g, c, now, snap);
    SyncedIsSame(g, ApplySnapshot(c, snap));
  }
}
