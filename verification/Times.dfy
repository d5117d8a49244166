/** The times a copy shows (web/src/graph-state.ts): those the server last sent, and no message
    makes one fall. */
module Times {
  import opened Wire
  import opened ReplicaModel
  import opened ReplicaFacts
  import opened Touched
  import G = GraphModel

  /** The same nodes, seen as late. */
  predicate SameLasts(c: Replica, c': Replica) {
    c'.nodes.Keys == c.nodes.Keys && forall n :: n in c.nodes ==> c'.nodes[n].last == c.nodes[n].last
  }

  lemma UpsertEdgeLasts(c: Replica, w: WireEdge)
    ensures SameLasts(c, UpsertEdge(c, w))
  {
  }

  lemma {:induction false} TickEdgesLasts(c: Replica, es: seq<WireEdge>, sec: int)
    ensures SameLasts(c, TickEdges(c, es, sec))
    decreases es
  {
    if es != [] {
      TickEdgesLasts(c, es[..|es| - 1], sec);
      UpsertEdgeLasts(TickEdges(c, es[..|es| - 1], sec), es[|es| - 1]);
    }
  }

  lemma {:induction false} SnapEdgesLasts(c: Replica, es: seq<WireEdge>)
    ensures SameLasts(c, SnapEdges(c, es))
    decreases es
  {
    if es != [] {
      SnapEdgesLasts(c, es[..|es| - 1]);
      UpsertEdgeLasts(SnapEdges(c, es[..|es| - 1]), es[|es| - 1]);
    }
  }

  lemma RemoveEdgeLasts(c: Replica, id: EdgeKey)
    ensures SameLasts(c, RemoveEdge(c, id))
  {
  }

  lemma {:induction false} RemoveEdgesLasts(c: Replica, ids: seq<EdgeKey>)
    ensures SameLasts(c, RemoveEdges(c, ids))
    decreases ids
  {
    if ids != [] {
      RemoveEdgesLasts(c, ids[..|ids| - 1]);
      RemoveEdgeLasts(RemoveEdges(c, ids[..|ids| - 1]), ids[|ids| - 1]);
    }
  }

  /** What a tick leaves of a node's last time is what its node entries made of it. */
  lemma TickLastsAt(c: Replica, t: Tick, n: NodeKey)
    requires n in ApplyTick(c, t).nodes
    ensures n in UpsertNodes(c, t.nodes).nodes && ApplyTick(c, t).nodes[n].last == UpsertNodes(c, t.nodes).nodes[n].last
  {
    var c1 := UpsertNodes(c, t.nodes);
    var c2 := TickEdges(c1, t.edges, TickSecond(t));
    TickEdgesLasts(c1, t.edges, TickSecond(t));
    RemoveEdgesLasts(c2, t.goneEdges);
    RemoveNodesFrame(RemoveEdges(c2, t.goneEdges), t.goneNodes);
  }

  lemma {:induction false} UpsertNodesLast(c: Replica, ns: seq<WireNode>, i: nat)
    requires i < |ns| && G.DistinctNodes(ns)
    ensures ns[i].id in UpsertNodes(c, ns).nodes
    ensures UpsertNodes(c, ns).nodes[ns[i].id].last ==
            if ns[i].id in c.nodes then Max(c.nodes[ns[i].id].last, ns[i].last) else ns[i].last
    decreases ns
  {
    var init, k := ns[..|ns| - 1], |ns| - 1;
    if i < k {
      assert init[i] == ns[i] && ns[k].id != ns[i].id;
      UpsertNodesLast(c, init, i);
    } else {
      NotBefore(ns);
      UpsertNodesFrame(c, init);
      if ns[i].id in c.nodes {
        UpsertNodesOther(c, init, ns[i].id);
      }
    }
  }

  lemma {:induction false} UpsertNodesRise(c: Replica, ns: seq<WireNode>, n: NodeKey)
    requires n in c.nodes
    ensures n in UpsertNodes(c, ns).nodes && c.nodes[n].last <= UpsertNodes(c, ns).nodes[n].last
    decreases ns
  {
    if ns != [] {
      UpsertNodesRise(c, ns[..|ns| - 1], n);
    }
  }

  lemma {:induction false} TickEdgesRise(c: Replica, es: seq<WireEdge>, sec: int, e: EdgeKey)
    requires e in c.edges
    ensures e in TickEdges(c, es, sec).edges && c.edges[e].last <= TickEdges(c, es, sec).edges[e].last
    decreases es
  {
    if es != [] {
      TickEdgesRise(c, es[..|es| - 1], sec, e);
    }
  }

  /** No tick whatsoever, late or given twice, makes a last time fall. */
  lemma TimesNeverFall(c: Replica, t: Tick, n: NodeKey, e: EdgeKey)
    ensures n in c.nodes && n in ApplyTick(c, t).nodes ==> c.nodes[n].last <= ApplyTick(c, t).nodes[n].last
    ensures e in c.edges && e in ApplyTick(c, t).edges ==> c.edges[e].last <= ApplyTick(c, t).edges[e].last
  {
    var c1 := UpsertNodes(c, t.nodes);
    if n in c.nodes && n in ApplyTick(c, t).nodes {
      TickLastsAt(c, t, n);
      UpsertNodesRise(c, t.nodes, n);
    }
    if e in c.edges && e in ApplyTick(c, t).edges {
      UpsertNodesFrame(c, t.nodes);
      TickEdgesRise(c1, t.edges, TickSecond(t), e);
      RemoveEdgesFrame(TickEdges(c1, t.edges, TickSecond(t)), t.goneEdges);
      RemoveNodesFrame(RemoveEdges(TickEdges(c1, t.edges, TickSecond(t)), t.goneEdges), t.goneNodes);
    }
  }

  /** A tick brings the last time of the nodes it lists up to date, in milliseconds, and leaves
      that of the others. */
  lemma TickLasts(s: G.State, now: int, t: Tick, c: Replica, n: NodeKey)
    requires G.IsTick(s, now, t) && n in ApplyTick(c, t).nodes
    ensures var last := ApplyTick(c, t).nodes[n].last;
            if n in s.newNodes + s.dirtyNode then
              n in s.nodes &&
              last == if n in c.nodes then Max(c.nodes[n].last, s.nodes[n].last / 1_000_000)
                      else s.nodes[n].last / 1_000_000
            else n in c.nodes && last == c.nodes[n].last
  {
    TickLastsAt(c, t, n);
    UpsertNodesFrame(c, t.nodes);
    if n in s.newNodes + s.dirtyNode {
      assert n in G.NodeIds(t.nodes);
      var i :| 0 <= i < |t.nodes| && t.nodes[i].id == n;
      UpsertNodesLast(c, t.nodes, i);
    } else {
      assert n !in G.NodeIds(t.nodes);
      UpsertNodesOther(c, t.nodes, n);
    }
  }

  /** A snapshot brings those of all nodes up to date. */
  lemma SnapshotLasts(s: G.State, now: int, snap: Snapshot, c: Replica, n: NodeKey)
    requires G.IsSnapshot(s, now, snap) && n in s.nodes
    ensures n in ApplySnapshot(c, snap).nodes
    ensures ApplySnapshot(c, snap).nodes[n].last == s.nodes[n].last / 1_000_000
  {
    assert n in G.NodeIds(snap.nodes);
    var i :| 0 <= i < |snap.nodes| && snap.nodes[i].id == n;
    UpsertNodesLast(Cleared(c), snap.nodes, i);
    SnapEdgesLasts(UpsertNodes(Cleared(c), snap.nodes), snap.edges);
  }
}
