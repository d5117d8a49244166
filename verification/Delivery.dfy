/** Delivering a tick or a snapshot: how it carries the relation between the server's graph
    and a browser's copy over to the state after it. */
module Delivery {
  import opened Wire
  import opened Rings
  import opened GraphModel
  import opened GraphInvariants
  import opened GraphAnchors
  import opened ReplicaModel
  import opened ReplicaFacts
  import opened Coupling

  // ---------- what a tick does to a copy ----------

  lemma TickedKeys(c: Replica, t: Tick)
    ensures ApplyTick(c, t).nodes.Keys == c.nodes.Keys + NodeIds(t.nodes) - Elements(t.goneNodes)
    ensures ApplyTick(c, t).edges.Keys == c.edges.Keys + EdgeIds(t.edges) - Elements(t.goneEdges)
    ensures ApplyTick(c, t).retention == c.retention
  {
    var sec := TickSecond(t);
    var c1 := UpsertNodes(c, t.nodes);
    var c2 := TickEdges(c1, t.edges, sec);
    var c3 := RemoveEdges(c2, t.goneEdges);
    UpsertNodesFrame(c, t.nodes);
    TickEdgesFrame(c1, t.edges, sec);
    RemoveEdgesFrame(c2, t.goneEdges);
    RemoveNodesFrame(c3, t.goneNodes);
    RemovalsKeepRetention(c2, t.goneEdges, t.goneNodes);
  }

  lemma RemovalsKeepRetention(c: Replica, es: seq<EdgeKey>, ns: seq<NodeKey>)
    ensures RemoveNodes(RemoveEdges(c, es), ns).retention == c.retention
  {
    RemoveEdgesRetention(c, es);
    RemoveNodesRetention(RemoveEdges(c, es), ns);
  }

  lemma {:induction false} RemoveEdgesRetention(c: Replica, es: seq<EdgeKey>)
    ensures RemoveEdges(c, es).retention == c.retention
    decreases es
  {
    if es != [] {
      RemoveEdgesRetention(c, es[..|es| - 1]);
    }
  }

  lemma {:induction false} RemoveNodesRetention(c: Replica, ns: seq<NodeKey>)
    ensures RemoveNodes(c, ns).retention == c.retention
    decreases ns
  {
    if ns != [] {
      RemoveNodesRetention(c, ns[..|ns| - 1]);
    }
  }

  /** Beyond its keys, a copy's conversations are what the increments made them. */
  lemma TickedEdges(c: Replica, t: Tick, e: EdgeKey)
    requires e in ApplyTick(c, t).edges
    ensures e in TickEdges(UpsertNodes(c, t.nodes), t.edges, TickSecond(t)).edges
    ensures ApplyTick(c, t).edges[e] == TickEdges(UpsertNodes(c, t.nodes), t.edges, TickSecond(t)).edges[e]
  {
    var c2 := TickEdges(UpsertNodes(c, t.nodes), t.edges, TickSecond(t));
    RemoveEdgesFrame(c2, t.goneEdges);
    RemoveNodesFrame(RemoveEdges(c2, t.goneEdges), t.goneNodes);
  }

  lemma TickedListed(c: Replica, t: Tick, i: nat)
    requires i < |t.edges| && DistinctEdges(t.edges) && t.edges[i].id in ApplyTick(c, t).edges
    ensures ApplyTick(c, t).edges[t.edges[i].id] == Advance(Found(c, t.edges[i]), t.edges[i], TickSecond(t))
  {
    var c1 := UpsertNodes(c, t.nodes);
    UpsertNodesFrame(c, t.nodes);
    TickedEdges(c, t, t.edges[i].id);
    TickEdgesAt(c1, t.edges, TickSecond(t), i);
    assert Found(c1, t.edges[i]) == Found(c, t.edges[i]);
  }

  lemma TickedUnlisted(c: Replica, t: Tick, e: EdgeKey)
    requires e in c.edges && e !in EdgeIds(t.edges) && e in ApplyTick(c, t).edges
    ensures ApplyTick(c, t).edges[e] == c.edges[e]
  {
    UpsertNodesFrame(c, t.nodes);
    TickedEdges(c, t, e);
    TickEdgesOther(UpsertNodes(c, t.nodes), t.edges, TickSecond(t), e);
  }

  /** Machine and birth of a node come from the node entries alone. */
  lemma TickedNode(c: Replica, t: Tick, n: NodeKey)
    requires n in ApplyTick(c, t).nodes
    ensures n in UpsertNodes(c, t.nodes).nodes
    ensures ApplyTick(c, t).nodes[n].machine == UpsertNodes(c, t.nodes).nodes[n].machine
    ensures ApplyTick(c, t).nodes[n].first == UpsertNodes(c, t.nodes).nodes[n].first
  {
    var sec := TickSecond(t);
    var c1 := UpsertNodes(c, t.nodes);
    var c2 := TickEdges(c1, t.edges, sec);
    var c3 := RemoveEdges(c2, t.goneEdges);
    TickEdgesFrame(c1, t.edges, sec);
    RemoveEdgesFrame(c2, t.goneEdges);
    RemoveNodesFrame(c3, t.goneNodes);
    assert ApplyTick(c, t).nodes[n] == c3.nodes[n];
  }

  // ---------- delivering a tick ----------

  function Restrict(drift: Drift, es: set<EdgeKey>): Drift {
    map e | e in drift && e in es :: drift[e]
  }

  /** The entry of a pending conversation. */
  function Increment(s: State, e: EdgeKey): WireEdge
    requires e in s.edges && e in s.dirty
  {
    EdgeJson(s, e, s.dirty[e], e in s.dirtyL7)
  }

  lemma DeliveredKeys(s: State, now: int, t: Tick, c: Replica)
    requires PendingExists(s) && GoneIsGone(s) && IsTick(s, now, t) && EdgesKnown(s, c)
    ensures ApplyTick(c, t).edges.Keys == s.edges.Keys
  {
    TickedKeys(c, t);
    var c' := ApplyTick(c, t);
    forall e ensures e in c'.edges.Keys <==> e in s.edges.Keys {
    }
  }

  /** What the tick makes of one conversation that both sides have. */
  lemma DeliveredEdge(s: State, now: int, t: Tick, c: Replica, e: EdgeKey)
    requires PendingExists(s) && GoneIsGone(s) && IsTick(s, now, t) && EdgesKnown(s, c) && e in s.edges
    ensures e in ApplyTick(c, t).edges
    ensures e in s.dirty ==>
              ApplyTick(c, t).edges[e] == Advance(Found(c, Increment(s, e)), Increment(s, e), TickSecond(t))
    ensures e !in s.dirty ==> e in c.edges && ApplyTick(c, t).edges[e] == c.edges[e]
  {
    DeliveredKeys(s, now, t, c);
    if e in s.dirty {
      assert e in EdgeIds(t.edges);
      var i :| 0 <= i < |t.edges| && t.edges[i].id == e;
      TickedListed(c, t, i);
    } else {
      TickedUnlisted(c, t, e);
    }
  }

  lemma PlusZero(a: Counts)
    ensures a.Plus(ZERO) == a == ZERO.Plus(a)
  {
  }

  lemma DeliveredTotals(s: State, now: int, t: Tick, c: Replica, e: EdgeKey)
    requires PendingExists(s) && GoneIsGone(s) && IsTick(s, now, t) && EdgesKnown(s, c) && e in s.edges
    ensures TotalsOf(ApplyTick(c, t), e) == TotalsOf(c, e).Plus(Pending(s, e))
  {
    DeliveredEdge(s, now, t, c, e);
    if e in s.dirty {
      AdvanceTotals(Found(c, Increment(s, e)), Increment(s, e), TickSecond(t));
      assert Found(c, Increment(s, e)).totals == TotalsOf(c, e);
    } else {
      PlusZero(TotalsOf(c, e));
    }
  }

  lemma AdvanceTotals(es: EdgeState, e: WireEdge, sec: int)
    ensures Advance(es, e, sec).totals == es.totals.Plus(e.counts)
  {
  }

  lemma DeliverTotals(s: State, now: int, t: Tick, c: Replica, drift: Drift)
    requires PendingExists(s) && GoneIsGone(s) && IsTick(s, now, t)
    requires EdgesKnown(s, c) && TotalsMatch(s, c, drift)
    ensures TotalsMatch(Flush(s), ApplyTick(c, t), Restrict(drift, s.edges.Keys))
  {
    var c', d' := ApplyTick(c, t), Restrict(drift, s.edges.Keys);
    DeliveredKeys(s, now, t, c);
    forall e | e in s.edges
      ensures TotalsOf(c', e).Plus(Pending(Flush(s), e)) == s.edges[e].counts.Plus(DriftOf(d', e))
    {
      DeliveredTotals(s, now, t, c, e);
      PlusZero(TotalsOf(c', e));
      assert DriftOf(d', e) == DriftOf(drift, e);
    }
  }

  lemma DeliverLasts(s: State, now: int, t: Tick, c: Replica)
    requires PendingExists(s) && GoneIsGone(s) && IsTick(s, now, t)
    requires EdgesKnown(s, c) && LastsMatch(s, c)
    ensures LastsMatch(Flush(s), ApplyTick(c, t))
  {
    var c' := ApplyTick(c, t);
    forall e | e in s.edges && e in c'.edges ensures c'.edges[e].last == Millis(s.edges[e].last) {
      DeliveredEdge(s, now, t, c, e);
    }
  }

  lemma DeliverDetails(s: State, now: int, t: Tick, c: Replica)
    requires PendingExists(s) && GoneIsGone(s) && IsTick(s, now, t)
    requires EdgesKnown(s, c) && DetailsMatch(s, c)
    ensures DetailsMatch(Flush(s), ApplyTick(c, t))
  {
    var c' := ApplyTick(c, t);
    forall e | e in s.edges ensures ShownDrops(c', e) == s.edges[e].drops && ShownL7(c', e) == s.edges[e].l7 {
      DeliveredEdge(s, now, t, c, e);
      assert DetailsMatchAt(s, c, e);
    }
  }

  lemma DeliverKnown(s: State, now: int, t: Tick, c: Replica)
    requires PendingExists(s) && GoneIsGone(s) && IsTick(s, now, t) && EdgesKnown(s, c)
    ensures EdgesKnown(Flush(s), ApplyTick(c, t))
  {
    var c' := ApplyTick(c, t);
    DeliveredKeys(s, now, t, c);
    forall e | e in c'.edges ensures c'.edges[e].src == e.src && c'.edges[e].dst == e.dst {
      DeliveredEdge(s, now, t, c, e);
    }
  }

  lemma DeliverEdges(s: State, now: int, t: Tick, c: Replica, drift: Drift)
    requires PendingExists(s) && GoneIsGone(s) && IsTick(s, now, t) && EdgesCoupled(s, c, drift)
    ensures EdgesCoupled(Flush(s), ApplyTick(c, t), Restrict(drift, s.edges.Keys))
  {
    DeliverKnown(s, now, t, c);
    DeliverTotals(s, now, t, c, drift);
    DeliverLasts(s, now, t, c);
    DeliverDetails(s, now, t, c);
  }

  lemma DeliverCovered(s: State, now: int, t: Tick, c: Replica)
    requires GoneIsGone(s) && IsTick(s, now, t) && NodesCovered(s, c)
    ensures NodesCovered(Flush(s), ApplyTick(c, t))
  {
    TickedKeys(c, t);
  }

  lemma ListedNode(s: State, now: int, t: Tick, n: NodeKey) returns (i: nat)
    requires IsTick(s, now, t) && (n in s.newNodes || n in s.dirtyNode)
    ensures i < |t.nodes| && t.nodes[i].id == n && n in s.nodes && t.nodes[i] == NodeJson(s, n)
  {
    assert n in NodeIds(t.nodes);
    i :| 0 <= i < |t.nodes| && t.nodes[i].id == n;
  }

  lemma DeliveredNode(s: State, now: int, t: Tick, c: Replica, n: NodeKey)
    requires PendingExists(s) && MovedArePlaced(s) && GoneIsGone(s) && IsTick(s, now, t) && NodesSynced(s, c)
    requires n in s.nodes && n in ApplyTick(c, t).nodes
    ensures ApplyTick(c, t).nodes[n].first == Millis(s.nodes[n].first)
    ensures ApplyTick(c, t).nodes[n].machine == s.nodes[n].placed.machine
  {
    TickedNode(c, t, n);
    if n in s.newNodes || n in s.dirtyNode {
      var i := ListedNode(s, now, t, n);
      UpsertNodesAt(c, t.nodes, i);
      assert n in s.newNodes ==> n !in c.nodes;
      assert n in s.dirtyNode ==> n in c.nodes && t.nodes[i].machine != "";
    } else {
      assert n !in NodeIds(t.nodes);
      UpsertNodesOther(c, t.nodes, n);
    }
  }

  lemma DeliverSynced(s: State, now: int, t: Tick, c: Replica)
    requires PendingExists(s) && MovedArePlaced(s) && GoneIsGone(s) && IsTick(s, now, t) && NodesSynced(s, c)
    ensures NodesSynced(Flush(s), ApplyTick(c, t))
  {
    var c' := ApplyTick(c, t);
    TickedKeys(c, t);
    assert c'.nodes.Keys == s.nodes.Keys;
    forall n | n in s.nodes && n in c'.nodes
      ensures c'.nodes[n].first == Millis(s.nodes[n].first)
      ensures c'.nodes[n].machine == s.nodes[n].placed.machine
    {
      DeliveredNode(s, now, t, c, n);
    }
  }

  // ---------- expiry and delivery together ----------

  lemma ExpireKeeps(s: State, c: Replica, drift: Drift, now: int)
    requires WellFormed(s) && EdgesCoupled(s, c, drift)
    ensures EdgesCoupled(Expire(s, now), c, drift)
    ensures NodesCovered(s, c) ==> NodesCovered(Expire(s, now), c)
    ensures NodesSynced(s, c) ==> NodesSynced(Expire(s, now), c)
  {
    var steps := ExpireIsRun(s, now);
    RunKeepsEdges(s, c, drift, steps);
    if NodesCovered(s, c) {
      RunKeepsCovered(s, c, steps);
    }
    if NodesSynced(s, c) {
      RunKeepsSynced(s, c, steps);
    }
  }

  lemma ExpiredGoneIsGone(s: State, now: int)
    requires WellFormed(s) && GoneIsGone(s)
    ensures GoneIsGone(Expire(s, now))
  {
  }

  /** A delivered tick keeps a copy coupled, and a synced copy synced. */
  lemma TickKeepsCoupled(s: State, c: Replica, drift: Drift, now: int, t: Tick)
    requires WellFormed(s) && GoneIsGone(s) && IsTick(Expire(s, now), now, t) && Coupled(s, c, drift)
    ensures Coupled(AfterTick(s, now), ApplyTick(c, t), Restrict(drift, Expire(s, now).edges.Keys))
  {
    ExpireKeeps(s, c, drift, now);
    ExpireWellFormed(s, now);
    ExpiredGoneIsGone(s, now);
    DeliverEdges(Expire(s, now), now, t, c, drift);
    DeliverCovered(Expire(s, now), now, t, c);
  }

  lemma TickKeepsSynced(s: State, c: Replica, now: int, t: Tick)
    requires WellFormed(s) && GoneIsGone(s) && IsTick(Expire(s, now), now, t) && Synced(s, c)
    ensures Synced(AfterTick(s, now), ApplyTick(c, t))
  {
    ExpireKeeps(s, c, map[], now);
    ExpireWellFormed(s, now);
    ExpiredGoneIsGone(s, now);
    DeliverEdges(Expire(s, now), now, t, c, map[]);
    assert Restrict(map[], Expire(s, now).edges.Keys) == map[];
    DeliverSynced(Expire(s, now), now, t, c);
  }

  // ---------- snapshots ----------

  lemma SnappedKeys(c: Replica, snap: Snapshot)
    ensures ApplySnapshot(c, snap).nodes.Keys == NodeIds(snap.nodes)
    ensures ApplySnapshot(c, snap).edges.Keys == EdgeIds(snap.edges)
    ensures ApplySnapshot(c, snap).retention == c.retention
  {
    UpsertNodesFrame(Cleared(c), snap.nodes);
    SnapEdgesFrame(UpsertNodes(Cleared(c), snap.nodes), snap.edges);
  }

  lemma SnappedEdge(c: Replica, snap: Snapshot, i: nat)
    requires i < |snap.edges| && DistinctEdges(snap.edges)
    ensures snap.edges[i].id in ApplySnapshot(c, snap).edges
    ensures ApplySnapshot(c, snap).edges[snap.edges[i].id] == Install(Opened(c, snap.edges[i]), snap.edges[i])
  {
    var c1 := UpsertNodes(Cleared(c), snap.nodes);
    UpsertNodesFrame(Cleared(c), snap.nodes);
    SnapEdgesAt(c1, snap.edges, i);
  }

  lemma SnappedNode(c: Replica, snap: Snapshot, i: nat)
    requires i < |snap.nodes| && DistinctNodes(snap.nodes)
    ensures snap.nodes[i].id in ApplySnapshot(c, snap).nodes
    ensures ApplySnapshot(c, snap).nodes[snap.nodes[i].id].machine == snap.nodes[i].machine
    ensures ApplySnapshot(c, snap).nodes[snap.nodes[i].id].first == snap.nodes[i].first
  {
    UpsertNodesAt(Cleared(c), snap.nodes, i);
    SnapEdgesFrame(UpsertNodes(Cleared(c), snap.nodes), snap.edges);
  }

  lemma SnapshotEdge(s: State, c: Replica, now: int, snap: Snapshot, e: EdgeKey)
    requires IsSnapshot(s, now, snap) && e in s.edges
    ensures e in ApplySnapshot(c, snap).edges
    ensures var es := ApplySnapshot(c, snap).edges[e];
            && es.src == e.src && es.dst == e.dst
            && es.totals == s.edges[e].counts && es.last == Millis(s.edges[e].last)
            && es.l7 == s.edges[e].l7 && es.drops == s.edges[e].drops
    ensures exists bs :: IsSparse(s.edges[e].ring, Since(s, now), bs) &&
              ApplySnapshot(c, snap).edges[e].ring == Feed(Fresh(c.retention, CLIENT_UNTOUCHED), bs)
  {
    assert e in EdgeIds(snap.edges);
    var i :| 0 <= i < |snap.edges| && snap.edges[i].id == e;
    SnappedEdge(c, snap, i);
    var w := snap.edges[i];
    assert w.(buckets := []) == EdgeJson(s, e, s.edges[e].counts, true);
  }

  /** A snapshot taken at any moment couples the copy, with what was pending at that
      moment as its drift: the next tick will send it again. */
  lemma SnapshotCouples(s: State, c: Replica, now: int, snap: Snapshot)
    requires PendingExists(s) && IsSnapshot(s, now, snap)
    ensures Coupled(s, ApplySnapshot(c, snap), s.dirty)
  {
    var c' := ApplySnapshot(c, snap);
    SnappedKeys(c, snap);
    forall e | e in s.edges
      ensures e in c'.edges && c'.edges[e].src == e.src && c'.edges[e].dst == e.dst
      ensures TotalsOf(c', e) == s.edges[e].counts && c'.edges[e].last == Millis(s.edges[e].last)
      ensures DetailsMatchAt(s, c', e)
    {
      SnapshotEdge(s, c, now, snap, e);
    }
    forall e | e in s.edges ensures Pending(s, e) == DriftOf(s.dirty, e) {
    }
  }

  /** A snapshot taken with nothing pending leaves the copy synced, whatever it was. */
  lemma CleanSnapshotSyncs(s: State, c: Replica, now: int, snap: Snapshot)
    requires PendingExists(s) && IsSnapshot(s, now, snap) && NothingPending(s)
    ensures Synced(s, ApplySnapshot(c, snap))
  {
    var c' := ApplySnapshot(c, snap);
    SnapshotCouples(s, c, now, snap);
    SnappedKeys(c, snap);
    forall n | n in s.nodes && n in c'.nodes
      ensures c'.nodes[n].first == Millis(s.nodes[n].first)
      ensures c'.nodes[n].machine == s.nodes[n].placed.machine
    {
      assert n in NodeIds(snap.nodes);
      var i :| 0 <= i < |snap.nodes| && snap.nodes[i].id == n;
      SnappedNode(c, snap, i);
    }
  }

  /** The browser's ring answers for every second of the snapshot's window what the
      server's ring of the same conversation answers. */
  lemma SnapshotRings(s: State, c: Replica, now: int, snap: Snapshot, e: EdgeKey, sec: int)
    requires RingsSized(s) && IsSnapshot(s, now, snap) && e in s.edges && c.retention == SlotCount(s)
    requires now - s.retention < sec * 1_000_000_000
    ensures e in ApplySnapshot(c, snap).edges
    ensures ApplySnapshot(c, snap).edges[e].ring.At(sec) == s.edges[e].ring.At(sec)
  {
    SnapshotEdge(s, c, now, snap, e);
    var bs :| IsSparse(s.edges[e].ring, Since(s, now), bs) &&
              ApplySnapshot(c, snap).edges[e].ring == Feed(Fresh(c.retention, CLIENT_UNTOUCHED), bs);
    SnapshotRoundTrip(s.edges[e].ring, Since(s, now), bs, sec);
  }
}
