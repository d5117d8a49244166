/** What a whole list of entries does to the browser's copy, entry by entry. */
module ReplicaFacts {
  import opened Wire
  import G = GraphModel
  import opened ReplicaModel

  // ---------- nodes ----------

  lemma {:induction false} UpsertNodesFrame(c: Replica, ns: seq<WireNode>)
    ensures UpsertNodes(c, ns).nodes.Keys == c.nodes.Keys + G.NodeIds(ns)
    ensures UpsertNodes(c, ns).edges == c.edges
    ensures UpsertNodes(c, ns).retention == c.retention
    decreases ns
  {
    if ns != [] {
      var init, last := ns[..|ns| - 1], ns[|ns| - 1];
      UpsertNodesFrame(c, init);
      NodeIdsSnoc(ns);
      assert UpsertNodes(c, ns).nodes.Keys == UpsertNodes(c, init).nodes.Keys + {last.id};
    }
  }

  lemma NodeIdsSnoc(ns: seq<WireNode>)
    requires ns != []
    ensures G.NodeIds(ns) == G.NodeIds(ns[..|ns| - 1]) + {ns[|ns| - 1].id}
  {
  }

  /** A node not on the list is untouched. */
  lemma {:induction false} UpsertNodesOther(c: Replica, ns: seq<WireNode>, k: NodeKey)
    requires k !in G.NodeIds(ns) && k in c.nodes
    ensures k in UpsertNodes(c, ns).nodes && UpsertNodes(c, ns).nodes[k] == c.nodes[k]
    decreases ns
  {
    if ns != [] {
      NodeIdsSnoc(ns);
      UpsertNodesOther(c, ns[..|ns| - 1], k);
    }
  }

  /** A node on the list gets its machine, if the list names one, and a known node keeps
      what it was created with. */
  lemma {:induction false} UpsertNodesAt(c: Replica, ns: seq<WireNode>, i: nat)
    requires i < |ns| && G.DistinctNodes(ns)
    ensures ns[i].id in UpsertNodes(c, ns).nodes
    ensures var n := UpsertNodes(c, ns).nodes[ns[i].id];
            if ns[i].id in c.nodes then
              && n.first == c.nodes[ns[i].id].first
              && n.machine == if ns[i].machine != "" then ns[i].machine else c.nodes[ns[i].id].machine
            else n.first == ns[i].first && n.machine == ns[i].machine
    decreases ns
  {
    var init, last := ns[..|ns| - 1], |ns| - 1;
    UpsertNodesFrame(c, init);
    NodeIdsSnoc(ns);
    if i < last {
      assert init[i] == ns[i];
      UpsertNodesAt(c, init, i);
      assert ns[last].id != ns[i].id;
    } else {
      assert ns[last].id !in G.NodeIds(init) by {
        forall j | 0 <= j < |init| ensures init[j].id != ns[last].id {
          assert init[j] == ns[j];
        }
      }
      if ns[last].id in c.nodes {
        UpsertNodesOther(c, init, ns[last].id);
      }
    }
  }

  // ---------- edges ----------

  lemma EdgeIdsSnoc(es: seq<WireEdge>)
    requires es != []
    ensures G.EdgeIds(es) == G.EdgeIds(es[..|es| - 1]) + {es[|es| - 1].id}
  {
  }

  /** Two replicas agree on everything about nodes but their adjacency. */
  predicate SameNodes(c: Replica, d: Replica) {
    && c.nodes.Keys == d.nodes.Keys
    && forall n :: n in c.nodes ==> c.nodes[n].machine == d.nodes[n].machine && c.nodes[n].first == d.nodes[n].first
  }

  lemma UpsertEdgeSameNodes(c: Replica, e: WireEdge)
    ensures SameNodes(c, UpsertEdge(c, e)) && UpsertEdge(c, e).retention == c.retention
  {
  }

  lemma RemoveEdgeSameNodes(c: Replica, id: EdgeKey)
    ensures SameNodes(c, RemoveEdge(c, id))
  {
  }

  lemma {:induction false} TickEdgesFrame(c: Replica, es: seq<WireEdge>, sec: int)
    ensures TickEdges(c, es, sec).edges.Keys == c.edges.Keys + G.EdgeIds(es)
    ensures TickEdges(c, es, sec).retention == c.retention
    ensures SameNodes(c, TickEdges(c, es, sec))
    decreases es
  {
    if es != [] {
      var init, last := es[..|es| - 1], es[|es| - 1];
      TickEdgesFrame(c, init, sec);
      EdgeIdsSnoc(es);
      var c1 := TickEdges(c, init, sec);
      UpsertEdgeSameNodes(c1, last);
      assert TickEdges(c, es, sec) == TickEdge(c1, last, sec);
      assert TickEdge(c1, last, sec).edges.Keys == c1.edges.Keys + {last.id};
    }
  }

  lemma {:induction false} TickEdgesOther(c: Replica, es: seq<WireEdge>, sec: int, k: EdgeKey)
    requires k !in G.EdgeIds(es) && k in c.edges
    ensures k in TickEdges(c, es, sec).edges && TickEdges(c, es, sec).edges[k] == c.edges[k]
    decreases es
  {
    if es != [] {
      EdgeIdsSnoc(es);
      TickEdgesOther(c, es[..|es| - 1], sec, k);
    }
  }

  /** What the entry finds: the known conversation, or a fresh one. */
  function Found(c: Replica, e: WireEdge): EdgeState {
    if e.id in c.edges then c.edges[e.id] else Opened(c, e)
  }

  /** An entry whose id did not come before finds what the list found. */
  lemma TickEdgeLast(c: Replica, es: seq<WireEdge>, sec: int, e: WireEdge)
    requires e.id !in G.EdgeIds(es)
    ensures e.id in TickEdge(TickEdges(c, es, sec), e, sec).edges
    ensures TickEdge(TickEdges(c, es, sec), e, sec).edges[e.id] == Advance(Found(c, e), e, sec)
  {
    TickEdgesFrame(c, es, sec);
    if e.id in c.edges {
      TickEdgesOther(c, es, sec, e.id);
    }
  }

  lemma {:induction false} TickEdgesAt(c: Replica, es: seq<WireEdge>, sec: int, i: nat)
    requires i < |es| && G.DistinctEdges(es)
    ensures es[i].id in TickEdges(c, es, sec).edges
    ensures TickEdges(c, es, sec).edges[es[i].id] == Advance(Found(c, es[i]), es[i], sec)
    decreases es
  {
    var init, last := es[..|es| - 1], es[|es| - 1];
    if i < |es| - 1 {
      assert init[i] == es[i] && last.id != es[i].id;
      TickEdgesAt(c, init, sec, i);
    } else {
      LastIdIsNew(es);
      TickEdgeLast(c, init, sec, last);
    }
  }

  lemma LastIdIsNew(es: seq<WireEdge>)
    requires es != [] && G.DistinctEdges(es)
    ensures es[|es| - 1].id !in G.EdgeIds(es[..|es| - 1])
  {
  }

  lemma {:induction false} SnapEdgesFrame(c: Replica, es: seq<WireEdge>)
    ensures SnapEdges(c, es).edges.Keys == c.edges.Keys + G.EdgeIds(es)
    ensures SnapEdges(c, es).retention == c.retention
    ensures SameNodes(c, SnapEdges(c, es))
    decreases es
  {
    if es != [] {
      var init, last := es[..|es| - 1], es[|es| - 1];
      SnapEdgesFrame(c, init);
      EdgeIdsSnoc(es);
      var c1 := SnapEdges(c, init);
      UpsertEdgeSameNodes(c1, last);
      assert SnapEdges(c, es) == SnapEdge(c1, last);
      assert SnapEdge(c1, last).edges.Keys == c1.edges.Keys + {last.id};
    }
  }

  lemma {:induction false} SnapEdgesAt(c: Replica, es: seq<WireEdge>, i: nat)
    requires i < |es| && G.DistinctEdges(es) && c.edges == map[]
    ensures es[i].id in SnapEdges(c, es).edges
    ensures SnapEdges(c, es).edges[es[i].id] == Install(Opened(c, es[i]), es[i])
    decreases es
  {
    var init, last := es[..|es| - 1], |es| - 1;
    SnapEdgesFrame(c, init);
    if i < last {
      assert init[i] == es[i];
      SnapEdgesAt(c, init, i);
      assert es[last].id != es[i].id;
    } else {
      LastIdIsNew(es);
    }
  }

  // ---------- removals ----------

  lemma ElementsSnoc<T>(ids: seq<T>)
    requires ids != []
    ensures G.Elements(ids) == G.Elements(ids[..|ids| - 1]) + {ids[|ids| - 1]}
  {
  }

  lemma {:induction false} RemoveEdgesFrame(c: Replica, ids: seq<EdgeKey>)
    ensures RemoveEdges(c, ids).edges == c.edges - G.Elements(ids)
    ensures SameNodes(c, RemoveEdges(c, ids))
    decreases ids
  {
    if ids != [] {
      var init, last := ids[..|ids| - 1], ids[|ids| - 1];
      RemoveEdgesFrame(c, init);
      ElementsSnoc(ids);
      RemoveEdgeSameNodes(RemoveEdges(c, init), last);
      assert c.edges - G.Elements(init) - {last} == c.edges - G.Elements(ids);
    }
  }

  lemma {:induction false} RemoveNodesFrame(c: Replica, ids: seq<NodeKey>)
    ensures RemoveNodes(c, ids).nodes == c.nodes - G.Elements(ids)
    ensures RemoveNodes(c, ids).edges == c.edges
    decreases ids
  {
    if ids != [] {
      var init, last := ids[..|ids| - 1], ids[|ids| - 1];
      RemoveNodesFrame(c, init);
      ElementsSnoc(ids);
      assert c.nodes - G.Elements(init) - {last} == c.nodes - G.Elements(ids);
    }
  }
}
