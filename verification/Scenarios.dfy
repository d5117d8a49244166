/** Runs from an empty graph that end with a copy that is not the graph. */
module Scenarios {
  import opened Wire
  import opened Endpoints
  import opened GraphModel
  import GraphSteps
  import opened GraphInvariants
  import opened GraphAnchors
  import opened ReplicaModel
  import opened Delivery
  import opened Adjacency
  import Detachment
  import opened Gaps
  import opened Messages
  import opened Recovery
  import opened System

  const EMPTY: Replica := ReplicaModel.New(10)

  lemma LegalSnoc(y: Sys, ms: seq<Move>, m: Move)
    requires Legal(y, ms) && Enabled(Run(y, ms), m)
    ensures Legal(y, ms + [m]) && Run(y, ms + [m]) == Do(Run(y, ms), m)
  {
    assert (ms + [m])[..|ms|] == ms;
  }

  lemma LegalOne(y: Sys, m: Move)
    requires Enabled(y, m)
    ensures Legal(y, [m]) && Run(y, [m]) == Do(y, m)
  {
    assert [m][..0] == [];
  }

  lemma MidTickIsRun(y: Sys, now: int, t: Tick, snap: Snapshot, id: nat, before: Replica,
                  now1: int, snap1: Snapshot)
    returns (ms: seq<Move>)
    requires JoinsMidTick(y, now, t, snap, id, before, now1, snap1)
    ensures Legal(y, ms) && Run(y, ms) == MidTick(y, now, t, snap, id, before, now1, snap1)
  {
    var y1 := Starting(y, now, t);
    var y2 := Joining(y1, id, before, snap1);
    ms := [TickStarted(now, t)];
    LegalOne(y, TickStarted(now, t));
    assert Run(y, ms) == y1;
    LegalSnoc(y, ms, Joined(id, before, now1, snap1));
    ms := ms + [Joined(id, before, now1, snap1)];
    assert Run(y, ms) == y2;
    LegalSnoc(y, ms, Registered(id));
    ms := ms + [Registered(id)];
    assert Run(y, ms) == Registering(y2, id);
    LegalSnoc(y, ms, TickHanded(now, snap));
    ms := ms + [TickHanded(now, snap)];
  }

  lemma OneFlow() returns (e: EdgeKey)
    ensures var s := Ingest(GraphModel.New(0), FIRST);
            WellFormed(s) && PendingExists(Expire(s, SECOND)) && e in Expire(s, SECOND).dirty
  {
    FirstKeys();
    FirstIngested();
    CountedRecent(GraphModel.New(0), FIRST);
    var s := Ingest(GraphModel.New(0), FIRST);
    e := GraphSteps.EdgeOf(GraphModel.New(0), FIRST);
    ExpireWellFormed(s, SECOND);
    assert Cutoff(s, SECOND) == SECOND - 10 * SECOND;
    StillPending(s, SECOND, e);
  }

  lemma StillPending(s: State, now: int, e: EdgeKey)
    requires WellFormed(s) && e in s.dirty && e in s.edges && Cutoff(s, now) <= s.edges[e].last
    ensures e in Expire(s, now).dirty
  {
  }

  /** From an empty graph: one flow, and a client that joins while its tick is on its way,
      shows twice what the server has. */
  lemma MidTickExample() returns (ms: seq<Move>)
    ensures Legal(Start(0), ms)
    ensures var y := Run(Start(0), ms);
            && y.inflight.None? && NothingPending(y.g) && 0 in y.peers && y.peers[0].registered
            && !SameGraph(y.g, Shown(y.peers[0]))
  {
    var y := AfterFirst();
    var t, snap := FirstMessages();
    ms := DoubledRun(y, t, snap);
    LegalConcat(Start(0), [Ingested(FIRST)], ms);
    ms := [Ingested(FIRST)] + ms;
  }

  lemma AfterFirst() returns (y: Sys)
    ensures y == Ingesting(Start(0), FIRST) && Inv(y) && y.inflight.None? && y.peers == map[]
    ensures y.g == Ingest(GraphModel.New(0), FIRST)
    ensures Legal(Start(0), [Ingested(FIRST)]) && Run(Start(0), [Ingested(FIRST)]) == y
  {
    MayFirst();
    StartInv(0);
    y := OneIngest(Start(0), FIRST);
  }

  lemma MayFirst()
    ensures MayIngest(Start(0), FIRST)
  {
    FirstKeys();
    assert Start(0).g == GraphModel.New(0);
  }

  lemma OneIngest(y0: Sys, f: Flow) returns (y: Sys)
    requires Inv(y0) && MayIngest(y0, f)
    ensures y == Ingesting(y0, f) && Inv(y)
    ensures Legal(y0, [Ingested(f)]) && Run(y0, [Ingested(f)]) == y
  {
    y := Ingesting(y0, f);
    IngestInv(y0, f);
    LegalOne(y0, Ingested(f));
  }

  lemma FirstMessages() returns (t: Tick, snap: Snapshot)
    ensures var g := Ingest(GraphModel.New(0), FIRST);
            IsTick(Expire(g, SECOND), SECOND, t) && t.edges != [] && IsSnapshot(AfterTick(g, SECOND), SECOND, snap)
  {
    var g := Ingest(GraphModel.New(0), FIRST);
    var e := OneFlow();
    t := TickExists(Expire(g, SECOND), SECOND);
    PendingIsListed(Expire(g, SECOND), SECOND, t);
    snap := SnapshotExists(AfterTick(g, SECOND), SECOND);
  }

  lemma DoubledRun(y: Sys, t: Tick, snap: Snapshot) returns (ms: seq<Move>)
    requires Inv(y) && y.inflight.None? && y.peers == map[]
    requires IsTick(Expire(y.g, SECOND), SECOND, t) && t.edges != [] && IsSnapshot(AfterTick(y.g, SECOND), SECOND, snap)
    ensures Legal(y, ms)
    ensures var y' := Run(y, ms);
            && y'.inflight.None? && NothingPending(y'.g) && 0 in y'.peers && y'.peers[0].registered
            && !SameGraph(y'.g, Shown(y'.peers[0]))
  {
    assert JoinsMidTick(y, SECOND, t, snap, 0, EMPTY, SECOND, snap);
    ms := MidTickIsRun(y, SECOND, t, snap, 0, EMPTY, SECOND, snap);
    JoinedMidTick(y, SECOND, t, snap, 0, EMPTY, SECOND, snap);
    MidTickEnds(y, SECOND, t, snap, 0, EMPTY, SECOND, snap);
    MidTickPeerShown(AfterTick(y.g, SECOND), t, snap, EMPTY, snap);
  }

  // ---------- a departure that comes late ----------

  const MACHINE: NodeKey := Anchor("10.0.0.7")
  const CART: NodeKey := NodeKey("shop", "Pod", "cart")

  /** Another flow between the same two, on another port. */
  function Later(now: int): Flow {
    FIRST.(time := now, port := 81)
  }

  lemma LaterKeys(s: State, now: int)
    requires s.nodeIPs == map[] && now != ZERO_TIME
    ensures PlausibleFlow(Later(now)) && !Collides(s, Later(now)) && GraphSteps.IsCounted(s, Later(now))
    ensures GraphSteps.EdgeOf(s, Later(now)) == EdgeKey(MACHINE, CART, "TCP", 81)
  {
    CollidingSides();
    assert Teaches(REMOTE_SIDE, "") == None && Teaches(POD_SIDE, "") == None;
    assert KeyOf(POD_SIDE, "", map[]) == CART;
  }

  lemma FirstEdges()
    ensures Ingest(GraphModel.New(0), FIRST).edges.Keys == {EdgeKey(MACHINE, CART, "TCP", 80)}
  {
    FirstKeys();
    assert KeyOf(POD_SIDE, "", map[]) == CART;
    GraphSteps.IngestIsLeadInAndRecord(GraphModel.New(0), FIRST);
  }

  lemma FirstQuiet()
    ensures var s := AnchorShown();
            && WellFormed(s) && NothingPending(s) && Announced(s, MACHINE) && s.nodeIPs == map[]
            && EdgeKey(MACHINE, CART, "TCP", 81) !in s.edges
  {
    FirstShowsAnchor();
    FirstEdges();
    FirstIngested();
    AfterTickWellFormed(Ingest(GraphModel.New(0), FIRST), SECOND);
    TickKeepsExactly(Ingest(GraphModel.New(0), FIRST), SECOND);
  }

  lemma OldNodeIsReported(s: State, now: int, n: NodeKey, e: EdgeKey)
    requires WellFormed(s) && NothingPending(s) && Announced(s, n) && s.nodes[n].last < Cutoff(s, now) && e !in s.edges
    ensures n in Expire(s, now).goneNodes && e !in Expire(s, now).goneEdges && Expire(s, now).nodeIPs == s.nodeIPs
    ensures PendingExists(Expire(s, now))
  {
    OldNodeIsDead(s, now, n);
    ExpireWellFormed(s, now);
    assert s.goneEdges == {};
  }

  /** After a silence that is long enough the tick reports an announced node, and no
      conversation that there has not been. */
  lemma Silence(s: State, n: NodeKey, e: EdgeKey) returns (now: int, t: Tick)
    requires WellFormed(s) && NothingPending(s) && Announced(s, n) && e !in s.edges
    ensures now != ZERO_TIME && IsTick(Expire(s, now), now, t) && AfterTick(s, now).nodeIPs == s.nodeIPs
    ensures n in t.goneNodes && e !in t.goneEdges
  {
    now := Max(0, s.nodes[n].last + s.retention + 1);
    OldNodeIsReported(s, now, n, e);
    t := TickExists(Expire(s, now), now);
    assert n in Elements(t.goneNodes) && (e in t.goneEdges ==> e in Elements(t.goneEdges));
  }

  /** The client joins after a flow that came in while the tick was on its way. */
  function LateJoin(y: Sys, now: int, t: Tick, f: Flow, snap: Snapshot): Sys {
    Registering(Joining(Ingesting(Starting(y, now, t), f), 0, EMPTY, snap), 0)
  }

  lemma LateJoinIsRun(y: Sys, now: int, t: Tick, f: Flow, snap: Snapshot) returns (ms: seq<Move>)
    requires MayStart(y, now, t) && y.peers == map[]
    requires MayIngest(Starting(y, now, t), f) && IsSnapshot(Ingest(AfterTick(y.g, now), f), now, snap)
    ensures Legal(y, ms) && Run(y, ms) == Handing(LateJoin(y, now, t, f, snap), snap)
  {
    var y1 := Starting(y, now, t);
    var y2 := Ingesting(y1, f);
    var y3 := Joining(y2, 0, EMPTY, snap);
    ms := [TickStarted(now, t)];
    LegalOne(y, TickStarted(now, t));
    assert Run(y, ms) == y1;
    LegalSnoc(y, ms, Ingested(f));
    ms := ms + [Ingested(f)];
    assert Run(y, ms) == y2;
    LegalSnoc(y, ms, Joined(0, EMPTY, now, snap));
    ms := ms + [Joined(0, EMPTY, now, snap)];
    assert Run(y, ms) == y3;
    LegalSnoc(y, ms, Registered(0));
    ms := ms + [Registered(0)];
    assert Run(y, ms) == Registering(y3, 0);
    LegalSnoc(y, ms, TickHanded(now, snap));
    ms := ms + [TickHanded(now, snap)];
  }

  lemma LateJoinEnds(y: Sys, now: int, t: Tick, f: Flow, snap: Snapshot)
    ensures var g, y' := Ingest(AfterTick(y.g, now), f), Handing(LateJoin(y, now, t, f, snap), snap);
            y'.g == g && 0 in y'.peers && y'.peers[0] == MidTickPeer(g, t, snap, EMPTY, snap)
  {
    var y3 := LateJoin(y, now, t, f, snap);
    assert y3.peers[0] == NewPeer(EMPTY, snap, Ingest(AfterTick(y.g, now), f)).(registered := true);
  }

  /** Its tick takes off the node that the flow brought back. */
  lemma LateJoinDetached(g: State, now: int, t: Tick, snap: Snapshot, e: EdgeKey, n: NodeKey)
    requires IsSnapshot(g, now, snap) && DistinctEdges(t.edges)
    requires e in g.edges && (e.src == n || e.dst == n) && n in t.goneNodes && e !in t.goneEdges
    ensures Detachment.Detached(Shown(MidTickPeer(g, t, snap, EMPTY, snap)), e, n)
    ensures !Linked(Shown(MidTickPeer(g, t, snap, EMPTY, snap)))
  {
    MidTickPeerShown(g, t, snap, EMPTY, snap);
    SnapshotEdge(g, EMPTY, now, snap, e);
    Detachment.StaleDeparture(t, ApplySnapshot(EMPTY, snap), e, n);
  }

  lemma LateFlow(y: Sys, now: int, t: Tick) returns (ms: seq<Move>)
    requires Inv(y) && MayStart(y, now, t) && y.peers == map[] && now != ZERO_TIME
    requires AfterTick(y.g, now).nodeIPs == map[]
    requires MACHINE in t.goneNodes && EdgeKey(MACHINE, CART, "TCP", 81) !in t.goneEdges
    ensures Legal(y, ms)
    ensures var y', e := Run(y, ms), EdgeKey(MACHINE, CART, "TCP", 81);
            && 0 in y'.peers && e in y'.g.edges
            && Detachment.Detached(Shown(y'.peers[0]), e, MACHINE) && !Linked(Shown(y'.peers[0]))
  {
    var g := AfterTick(y.g, now);
    LaterKeys(g, now);
    CountedRecent(g, Later(now));
    var snap := SnapshotExists(Ingest(g, Later(now)), now);
    ms := LateJoinIsRun(y, now, t, Later(now), snap);
    LateJoinEnds(y, now, t, Later(now), snap);
    LateJoinDetached(Ingest(g, Later(now)), now, t, snap, EdgeKey(MACHINE, CART, "TCP", 81), MACHINE);
  }

  lemma TickIsRun(y: Sys, now: int, t: Tick, snap: Snapshot) returns (ms: seq<Move>)
    requires TickEnabled(y, now, t, snap)
    ensures Legal(y, ms) && Run(y, ms) == Ticked(y, now, t, snap)
  {
    ms := [TickStarted(now, t)];
    LegalOne(y, TickStarted(now, t));
    assert Run(y, ms) == Starting(y, now, t);
    LegalSnoc(y, ms, TickHanded(now, snap));
    ms := ms + [TickHanded(now, snap)];
  }

  lemma FirstTick() returns (ms: seq<Move>, y: Sys)
    ensures Legal(Start(0), ms) && y == Run(Start(0), ms) && Inv(y)
    ensures y.g == AnchorShown() && y.inflight.None? && y.peers == map[]
  {
    var y1 := AfterFirst();
    var t, snap := FirstMessages();
    y := Ticked(y1, SECOND, t, snap);
    TickedInv(y1, SECOND, t, snap);
    NoPeers(y1, SECOND, t, snap);
    ms := TickIsRun(y1, SECOND, t, snap);
    LegalConcat(Start(0), [Ingested(FIRST)], ms);
    ms := [Ingested(FIRST)] + ms;
  }

  lemma NoPeers(y: Sys, now: int, t: Tick, snap: Snapshot)
    requires y.peers == map[]
    ensures Ticked(y, now, t, snap).peers == map[]
  {
    assert Starting(y, now, t).peers == map[];
  }

  /** From an empty graph: a client that joins while the tick that reports a silent machine is
      on its way, after a flow that brought the machine back, is left with a conversation at
      a node it does not show. */
  lemma LateDepartureExample() returns (ms: seq<Move>)
    ensures Legal(Start(0), ms)
    ensures var y, e := Run(Start(0), ms), EdgeKey(MACHINE, CART, "TCP", 81);
            && 0 in y.peers && e in y.g.edges
            && Detachment.Detached(Shown(y.peers[0]), e, MACHINE) && !Linked(Shown(y.peers[0]))
  {
    var first, y := FirstTick();
    FirstQuiet();
    var now, t := Silence(AnchorShown(), MACHINE, EdgeKey(MACHINE, CART, "TCP", 81));
    ms := LateFlow(y, now, t);
    LegalConcat(Start(0), first, ms);
    ms := first + ms;
  }
}
