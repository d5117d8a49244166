/** The browser's copy as the program keeps it (web/src/graph-state.ts): maps, sets and
    flags updated in place, entry by entry. Every method is proved to take the copy to what
    `ReplicaModel` says. */
module GraphState {
  import opened Wire
  import opened Rings
  import opened ReplicaModel

  /** What consume() hands over. */
  datatype Changes = Changes(addedNodes: set<NodeKey>, removedNodes: set<NodeKey>, touchedNodes: set<NodeKey>,
                             addedEdges: set<EdgeKey>, removedEdges: set<EdgeKey>, touchedEdges: set<EdgeKey>,
                             ts: int, reset: bool)

  class GraphState {
    const retention: Positive
    var nodes: map<NodeKey, NodeState>
    var edges: map<EdgeKey, EdgeState>
    var addedNodes: set<NodeKey>
    var removedNodes: set<NodeKey>
    var touchedNodes: set<NodeKey>
    var addedEdges: set<EdgeKey>
    var removedEdges: set<EdgeKey>
    var touchedEdges: set<EdgeKey>
    var ts: int
    var reset: bool

    ghost function Value(): Replica
      reads this
    {
      Replica(retention, nodes, edges, addedNodes, removedNodes, touchedNodes,
              addedEdges, removedEdges, touchedEdges, ts, reset)
    }

    constructor (retentionSeconds: int)
      ensures Value() == New(retentionSeconds)
    {
      retention := if retentionSeconds < 10 then 10 else retentionSeconds;
      nodes, edges := map[], map[];
      addedNodes, removedNodes, touchedNodes := {}, {}, {};
      addedEdges, removedEdges, touchedEdges := {}, {}, {};
      ts, reset := 0, false;
    }

    method ApplyUpsertNode(n: WireNode)
      modifies this`nodes, this`addedNodes, this`removedNodes, this`touchedNodes
      ensures Value() == UpsertNode(old(Value()), n)
    {
      if n.id !in nodes {
        nodes := nodes[n.id := NodeState(n.machine, n.first, n.last, {})];
        addedNodes := addedNodes + {n.id};
        removedNodes := removedNodes - {n.id};
      } else {
        var ns := nodes[n.id];
        ns := ns.(last := Max(ns.last, n.last));
        if n.machine != "" && n.machine != ns.machine {
          ns := ns.(machine := n.machine);
          touchedNodes := touchedNodes + {n.id};
        }
        nodes := nodes[n.id := ns];
      }
    }

    method ApplyUpsertEdge(e: WireEdge)
      modifies this`nodes, this`edges, this`addedEdges, this`removedEdges
      ensures Value() == UpsertEdge(old(Value()), e)
    {
      if e.id !in edges {
        var ring := Fresh(retention, CLIENT_UNTOUCHED);
        edges := edges[e.id := EdgeState(e.src, e.dst, ZERO, e.last, e.l7, e.drops, ring)];
        addedEdges := addedEdges + {e.id};
        removedEdges := removedEdges - {e.id};
        if e.src in nodes {
          nodes := nodes[e.src := nodes[e.src].(edges := nodes[e.src].edges + {e.id})];
        }
        if e.dst in nodes {
          nodes := nodes[e.dst := nodes[e.dst].(edges := nodes[e.dst].edges + {e.id})];
        }
      }
    }

    method ApplyTickEdge(e: WireEdge, sec: int)
      modifies this`nodes, this`edges, this`addedEdges, this`removedEdges, this`touchedEdges
      ensures Value() == TickEdge(old(Value()), e, sec)
    {
      ApplyUpsertEdge(e);
      var es := edges[e.id];
      es := es.(totals := es.totals.Plus(e.counts));
      es := es.(ring := Add(es.ring, sec, e.counts));
      if e.last > es.last {
        es := es.(last := e.last);
      }
      if e.l7 != NO_L7 {
        es := es.(l7 := e.l7);
      }
      if e.drops != map[] {
        es := es.(drops := e.drops);
      }
      edges := edges[e.id := es];
      touchedEdges := touchedEdges + {e.id};
    }

    method ApplySnapEdge(e: WireEdge)
      modifies this`nodes, this`edges, this`addedEdges, this`removedEdges
      ensures Value() == SnapEdge(old(Value()), e)
    {
      ApplyUpsertEdge(e);
      var es := edges[e.id];
      var ring := es.ring;
      var i := 0;
      assert e.buckets[..0] == [];
      while i < |e.buckets|
        invariant 0 <= i <= |e.buckets|
        invariant ring == Feed(es.ring, e.buckets[..i])
      {
        assert e.buckets[..i + 1][..i] == e.buckets[..i];
        ring := SetBucket(ring, e.buckets[i]);
        i := i + 1;
      }
      assert e.buckets[..i] == e.buckets;
      edges := edges[e.id := es.(totals := e.counts, ring := ring)];
    }

    method ApplyRemoveEdge(id: EdgeKey)
      modifies this`nodes, this`edges, this`addedEdges, this`removedEdges, this`touchedEdges
      ensures Value() == RemoveEdge(old(Value()), id)
    {
      if id !in edges {
        return;
      }
      var e := edges[id];
      edges := edges - {id};
      if e.src in nodes {
        nodes := nodes[e.src := nodes[e.src].(edges := nodes[e.src].edges - {id})];
      }
      if e.dst in nodes {
        nodes := nodes[e.dst := nodes[e.dst].(edges := nodes[e.dst].edges - {id})];
      }
      touchedEdges := touchedEdges - {id};
      if id in addedEdges {
        addedEdges := addedEdges - {id};
      } else {
        removedEdges := removedEdges + {id};
        assert addedEdges - {id} == addedEdges;
      }
    }

    method ApplyRemoveNode(id: NodeKey)
      modifies this`nodes, this`addedNodes, this`removedNodes, this`touchedNodes
      ensures Value() == RemoveNode(old(Value()), id)
    {
      if id !in nodes {
        return;
      }
      nodes := nodes - {id};
      touchedNodes := touchedNodes - {id};
      if id in addedNodes {
        addedNodes := addedNodes - {id};
      } else {
        removedNodes := removedNodes + {id};
        assert addedNodes - {id} == addedNodes;
      }
    }

    // ---------- the loops over a message ----------

    method ApplyNodes(ns: seq<WireNode>)
      modifies this`nodes, this`addedNodes, this`removedNodes, this`touchedNodes
      ensures Value() == UpsertNodes(old(Value()), ns)
    {
      ghost var c := Value();
      assert ns[..0] == [];
      for i := 0 to |ns|
        invariant Value() == UpsertNodes(c, ns[..i])
      {
        assert ns[..i + 1][..i] == ns[..i];
        ApplyUpsertNode(ns[i]);
      }
      assert ns[..|ns|] == ns;
    }

    method ApplyTickEdges(es: seq<WireEdge>, sec: int)
      modifies this`nodes, this`edges, this`addedEdges, this`removedEdges, this`touchedEdges
      ensures Value() == TickEdges(old(Value()), es, sec)
    {
      ghost var c := Value();
      assert es[..0] == [];
      for i := 0 to |es|
        invariant Value() == TickEdges(c, es[..i], sec)
      {
        assert es[..i + 1][..i] == es[..i];
        ApplyTickEdge(es[i], sec);
      }
      assert es[..|es|] == es;
    }

    method ApplySnapEdges(es: seq<WireEdge>)
      modifies this`nodes, this`edges, this`addedEdges, this`removedEdges
      ensures Value() == SnapEdges(old(Value()), es)
    {
      ghost var c := Value();
      assert es[..0] == [];
      for i := 0 to |es|
        invariant Value() == SnapEdges(c, es[..i])
      {
        assert es[..i + 1][..i] == es[..i];
        ApplySnapEdge(es[i]);
      }
      assert es[..|es|] == es;
    }

    method ApplyRemoveEdges(ids: seq<EdgeKey>)
      modifies this`nodes, this`edges, this`addedEdges, this`removedEdges, this`touchedEdges
      ensures Value() == RemoveEdges(old(Value()), ids)
    {
      ghost var c := Value();
      assert ids[..0] == [];
      for i := 0 to |ids|
        invariant Value() == RemoveEdges(c, ids[..i])
      {
        assert ids[..i + 1][..i] == ids[..i];
        ApplyRemoveEdge(ids[i]);
      }
      assert ids[..|ids|] == ids;
    }

    method ApplyRemoveNodes(ids: seq<NodeKey>)
      modifies this`nodes, this`addedNodes, this`removedNodes, this`touchedNodes
      ensures Value() == RemoveNodes(old(Value()), ids)
    {
      ghost var c := Value();
      assert ids[..0] == [];
      for i := 0 to |ids|
        invariant Value() == RemoveNodes(c, ids[..i])
      {
        assert ids[..i + 1][..i] == ids[..i];
        ApplyRemoveNode(ids[i]);
      }
      assert ids[..|ids|] == ids;
    }

    method ApplyTick(t: Tick)
      modifies this
      ensures Value() == ReplicaModel.ApplyTick(old(Value()), t)
    {
      var sec := t.ts / 1000;
      ApplyNodes(t.nodes);
      ApplyTickEdges(t.edges, sec);
      ApplyRemoveEdges(t.goneEdges);
      ApplyRemoveNodes(t.goneNodes);
      ts := t.ts;
    }

    /** The last two loops of applySnapshot, over the ids in any order. */
    method Settle()
      modifies this`addedNodes, this`removedNodes, this`addedEdges, this`removedEdges
      ensures Value() == Settled(old(Value()))
    {
      addedNodes, removedNodes := TakeOffBoth(addedNodes, removedNodes);
      addedEdges, removedEdges := TakeOffBoth(addedEdges, removedEdges);
    }

    method ApplySnapshot(s: Snapshot)
      modifies this
      ensures Value() == ReplicaModel.ApplySnapshot(old(Value()), s)
    {
      removedNodes := removedNodes + nodes.Keys;
      removedEdges := removedEdges + edges.Keys;
      nodes, edges := map[], map[];
      addedNodes, addedEdges, touchedEdges, touchedNodes := {}, {}, {}, {};
      assert Value() == Cleared(old(Value()));
      ApplyNodes(s.nodes);
      ApplySnapEdges(s.edges);
      Settle();
      ts := s.ts;
      reset := true;
    }

    method Consume() returns (c: Changes)
      modifies this
      ensures c == Changes(old(addedNodes), old(removedNodes), old(touchedNodes),
                           old(addedEdges), old(removedEdges), old(touchedEdges), old(ts), old(reset))
      ensures Value() == Consumed(old(Value()))
    {
      c := Changes(addedNodes, removedNodes, touchedNodes, addedEdges, removedEdges, touchedEdges, ts, reset);
      addedNodes, removedNodes, touchedNodes := {}, {}, {};
      addedEdges, removedEdges, touchedEdges := {}, {}, {};
      reset := false;
    }
  }

  /** Every id on both lists is taken off both. */
  method TakeOffBoth<T(==)>(added: set<T>, removed: set<T>) returns (a: set<T>, r: set<T>)
    ensures a == added - removed && r == removed - added
  {
    a, r := added, removed;
    var todo := added;
    while todo != {}
      invariant todo <= added
      invariant a == added - (removed * (added - todo))
      invariant r == removed - (added - todo)
      decreases todo
    {
      var id :| id in todo;
      todo := todo - {id};
      if id in r {
        r := r - {id};
        a := a - {id};
      }
    }
  }
}
