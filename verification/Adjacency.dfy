/** The browser's adjacency sets (web/src/graph-state.ts): a node's `edges` are exactly the
    conversations shown at it, and no conversation is shown without its nodes. */
module Adjacency {
  import opened Wire
  import opened ReplicaModel
  import opened ReplicaFacts
  import opened Coupling
  import opened Delivery
  import G = GraphModel
  import I = GraphInvariants
  import A = GraphAnchors

  function Touching(edges: map<EdgeKey, EdgeState>, n: NodeKey): set<EdgeKey> {
    set e | e in edges && (edges[e].src == n || edges[e].dst == n)
  }

  predicate AdjacencyExact(c: Replica) {
    forall n :: n in c.nodes ==> c.nodes[n].edges == Touching(c.edges, n)
  }

  predicate EndsShown(c: Replica) {
    forall e :: e in c.edges ==> c.edges[e].src in c.nodes && c.edges[e].dst in c.nodes
  }

  predicate Linked(c: Replica) {
    AdjacencyExact(c) && EndsShown(c)
  }

  // ---------- single entries ----------

  lemma UpsertNodeLinked(c: Replica, n: WireNode)
    requires Linked(c)
    ensures Linked(UpsertNode(c, n))
  {
  }

  lemma OpenedTouching(edges: map<EdgeKey, EdgeState>, k: EdgeKey, e: EdgeState, n: NodeKey)
    requires k !in edges
    ensures Touching(edges[k := e], n) == Touching(edges, n) + if e.src == n || e.dst == n then {k} else {}
  {
  }

  lemma LinkTwice(nodes: map<NodeKey, NodeState>, a: NodeKey, b: NodeKey, e: EdgeKey)
    ensures Link(Link(nodes, a, e), b, e).Keys == nodes.Keys
    ensures forall n :: n in nodes ==>
              Link(Link(nodes, a, e), b, e)[n].edges == nodes[n].edges + if n == a || n == b then {e} else {}
  {
  }

  lemma UpsertEdgeLinked(c: Replica, e: WireEdge)
    requires Linked(c) && e.src in c.nodes && e.dst in c.nodes
    ensures Linked(UpsertEdge(c, e)) && UpsertEdge(c, e).nodes.Keys == c.nodes.Keys
  {
    if e.id !in c.edges {
      LinkTwice(c.nodes, e.src, e.dst, e.id);
      var c' := UpsertEdge(c, e);
      forall n | n in c'.nodes ensures c'.nodes[n].edges == Touching(c'.edges, n) {
        OpenedTouching(c.edges, e.id, Opened(c, e), n);
      }
    }
  }

  lemma ReplaceLinked(c: Replica, c': Replica, k: EdgeKey, e: EdgeState)
    requires Linked(c) && k in c.edges && e.src == c.edges[k].src && e.dst == c.edges[k].dst
    requires c'.nodes == c.nodes && c'.edges == c.edges[k := e]
    ensures Linked(c')
  {
  }

  lemma TickEdgeLinked(c: Replica, e: WireEdge, sec: int)
    requires Linked(c) && e.src in c.nodes && e.dst in c.nodes
    ensures Linked(TickEdge(c, e, sec)) && TickEdge(c, e, sec).nodes.Keys == c.nodes.Keys
  {
    UpsertEdgeLinked(c, e);
    var c1 := UpsertEdge(c, e);
    ReplaceLinked(c1, TickEdge(c, e, sec), e.id, Advance(c1.edges[e.id], e, sec));
  }

  lemma SnapEdgeLinked(c: Replica, e: WireEdge)
    requires Linked(c) && e.src in c.nodes && e.dst in c.nodes
    ensures Linked(SnapEdge(c, e)) && SnapEdge(c, e).nodes.Keys == c.nodes.Keys
  {
    UpsertEdgeLinked(c, e);
    var c1 := UpsertEdge(c, e);
    ReplaceLinked(c1, SnapEdge(c, e), e.id, Install(c1.edges[e.id], e));
  }

  lemma RemoveEdgeLinked(c: Replica, id: EdgeKey)
    requires Linked(c)
    ensures Linked(RemoveEdge(c, id))
  {
  }

  // ---------- lists ----------

  lemma {:induction false} UpsertNodesLinked(c: Replica, ns: seq<WireNode>)
    requires Linked(c)
    ensures Linked(UpsertNodes(c, ns))
    decreases ns
  {
    if ns != [] {
      UpsertNodesLinked(c, ns[..|ns| - 1]);
      UpsertNodeLinked(UpsertNodes(c, ns[..|ns| - 1]), ns[|ns| - 1]);
    }
  }

  predicate EndsIn(es: seq<WireEdge>, ns: set<NodeKey>) {
    forall i :: 0 <= i < |es| ==> es[i].src in ns && es[i].dst in ns
  }

  lemma {:induction false} TickEdgesLinked(c: Replica, es: seq<WireEdge>, sec: int)
    requires Linked(c) && EndsIn(es, c.nodes.Keys)
    ensures Linked(TickEdges(c, es, sec)) && TickEdges(c, es, sec).nodes.Keys == c.nodes.Keys
    decreases es
  {
    if es != [] {
      TickEdgesLinked(c, es[..|es| - 1], sec);
      TickEdgeLinked(TickEdges(c, es[..|es| - 1], sec), es[|es| - 1], sec);
    }
  }

  lemma {:induction false} SnapEdgesLinked(c: Replica, es: seq<WireEdge>)
    requires Linked(c) && EndsIn(es, c.nodes.Keys)
    ensures Linked(SnapEdges(c, es)) && SnapEdges(c, es).nodes.Keys == c.nodes.Keys
    decreases es
  {
    if es != [] {
      SnapEdgesLinked(c, es[..|es| - 1]);
      SnapEdgeLinked(SnapEdges(c, es[..|es| - 1]), es[|es| - 1]);
    }
  }

  lemma {:induction false} RemoveEdgesLinked(c: Replica, ids: seq<EdgeKey>)
    requires Linked(c)
    ensures Linked(RemoveEdges(c, ids))
    decreases ids
  {
    if ids != [] {
      RemoveEdgesLinked(c, ids[..|ids| - 1]);
      RemoveEdgeLinked(RemoveEdges(c, ids[..|ids| - 1]), ids[|ids| - 1]);
    }
  }

  /** Nodes may go only once nothing is shown at them. */
  lemma RemoveNodesLinked(c: Replica, ids: seq<NodeKey>)
    requires Linked(c)
    requires forall e :: e in c.edges ==> c.edges[e].src !in ids && c.edges[e].dst !in ids
    ensures Linked(RemoveNodes(c, ids))
  {
    RemoveNodesFrame(c, ids);
  }

  // ---------- messages of the server ----------

  /** A copy after the node, edge and gone-edge entries of a tick. */
  function BeforeNodeRemovals(c: Replica, t: Tick): Replica {
    RemoveEdges(TickEdges(UpsertNodes(c, t.nodes), t.edges, TickSecond(t)), t.goneEdges)
  }

  lemma AnnouncedEnds(s: G.State, c: Replica, now: int, t: Tick)
    requires I.EndpointsExist(s) && G.IsTick(s, now, t) && NodesCovered(s, c)
    ensures EndsIn(t.edges, UpsertNodes(c, t.nodes).nodes.Keys)
  {
    UpsertNodesFrame(c, t.nodes);
    assert s.nodes.Keys <= UpsertNodes(c, t.nodes).nodes.Keys;
  }

  lemma LinkedBeforeNodeRemovals(s: G.State, c: Replica, now: int, t: Tick)
    requires I.EndpointsExist(s) && G.IsTick(s, now, t) && NodesCovered(s, c) && Linked(c)
    ensures Linked(BeforeNodeRemovals(c, t))
  {
    var c1 := UpsertNodes(c, t.nodes);
    UpsertNodesLinked(c, t.nodes);
    AnnouncedEnds(s, c, now, t);
    TickEdgesLinked(c1, t.edges, TickSecond(t));
    RemoveEdgesLinked(TickEdges(c1, t.edges, TickSecond(t)), t.goneEdges);
  }

  lemma GoneNodesAreBare(s: G.State, c: Replica, now: int, t: Tick, e: EdgeKey)
    requires I.EndpointsExist(s) && I.PendingExists(s) && A.GoneIsGone(s) && G.IsTick(s, now, t) && EdgesKnown(s, c)
    requires e in BeforeNodeRemovals(c, t).edges
    ensures BeforeNodeRemovals(c, t).edges[e].src !in t.goneNodes
    ensures BeforeNodeRemovals(c, t).edges[e].dst !in t.goneNodes
  {
    DeliveredKeys(s, now, t, c);
    DeliverKnown(s, now, t, c);
    RemoveNodesFrame(BeforeNodeRemovals(c, t), t.goneNodes);
    assert BeforeNodeRemovals(c, t).edges == ApplyTick(c, t).edges;
    assert e in s.edges && e.src in s.nodes && e.dst in s.nodes;
    assert forall n :: n in t.goneNodes ==> n in G.Elements(t.goneNodes);
  }

  /** The order inside a tick - nodes, conversations, gone conversations, gone nodes -
      keeps every copy linked that was coupled to the server. */
  lemma TickLinked(s: G.State, c: Replica, now: int, t: Tick)
    requires I.EndpointsExist(s) && I.PendingExists(s) && A.GoneIsGone(s) && G.IsTick(s, now, t)
    requires EdgesKnown(s, c) && NodesCovered(s, c) && Linked(c)
    ensures Linked(ApplyTick(c, t))
  {
    var c3 := BeforeNodeRemovals(c, t);
    LinkedBeforeNodeRemovals(s, c, now, t);
    forall e | e in c3.edges ensures c3.edges[e].src !in t.goneNodes && c3.edges[e].dst !in t.goneNodes {
      GoneNodesAreBare(s, c, now, t, e);
    }
    RemoveNodesLinked(c3, t.goneNodes);
    assert ApplyTick(c, t) == RemoveNodes(c3, t.goneNodes).(ts := t.ts);
  }

  lemma SnapshotEnds(s: G.State, now: int, snap: Snapshot)
    requires I.EndpointsExist(s) && G.IsSnapshot(s, now, snap)
    ensures EndsIn(snap.edges, s.nodes.Keys)
  {
    forall i | 0 <= i < |snap.edges| ensures snap.edges[i].src in s.nodes && snap.edges[i].dst in s.nodes {
      var w := snap.edges[i];
      assert w.(buckets := []) == G.EdgeJson(s, w.id, s.edges[w.id].counts, true);
    }
  }

  lemma SnapshotLinked(s: G.State, c: Replica, now: int, snap: Snapshot)
    requires I.EndpointsExist(s) && G.IsSnapshot(s, now, snap)
    ensures Linked(ApplySnapshot(c, snap))
  {
    var c0 := Cleared(c);
    var c1 := UpsertNodes(c0, snap.nodes);
    UpsertNodesLinked(c0, snap.nodes);
    UpsertNodesFrame(c0, snap.nodes);
    SnapshotEnds(s, now, snap);
    SnapEdgesLinked(c1, snap.edges);
  }
}
