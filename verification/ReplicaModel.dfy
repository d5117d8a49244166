/** The browser's copy of the graph as a state machine on values (web/src/graph-state.ts):
    what snapshots and ticks do to it, message by message and entry by entry. */
module ReplicaModel {
  import opened Wire
  import opened Rings

  datatype NodeState = NodeState(machine: string, first: int, last: int, edges: set<EdgeKey>)

  datatype EdgeState = EdgeState(src: NodeKey, dst: NodeKey, totals: Counts, last: int,
                                 l7: L7, drops: map<string, nat>, ring: LiveRing)

  type Positive = n: nat | 0 < n witness 1

  /** `added`, `removed` and `touched` are the journal that consume() hands over. */
  datatype Replica = Replica(
    retention: Positive,
    nodes: map<NodeKey, NodeState>,
    edges: map<EdgeKey, EdgeState>,
    addedNodes: set<NodeKey>,
    removedNodes: set<NodeKey>,
    touchedNodes: set<NodeKey>,
    addedEdges: set<EdgeKey>,
    removedEdges: set<EdgeKey>,
    touchedEdges: set<EdgeKey>,
    ts: int,
    reset: bool)

  function New(retention: int): Replica {
    Replica(if retention < 10 then 10 else retention, map[], map[], {}, {}, {}, {}, {}, {}, 0, false)
  }

  // ---------- single entries ----------

  function UpsertNode(c: Replica, n: WireNode): Replica {
    if n.id !in c.nodes then
      c.(nodes := c.nodes[n.id := NodeState(n.machine, n.first, n.last, {})],
         addedNodes := c.addedNodes + {n.id},
         removedNodes := c.removedNodes - {n.id})
    else
      var ns := c.nodes[n.id];
      var moved := n.machine != "" && n.machine != ns.machine;
      c.(nodes := c.nodes[n.id := ns.(last := Max(ns.last, n.last),
                                      machine := if moved then n.machine else ns.machine)],
         touchedNodes := if moved then c.touchedNodes + {n.id} else c.touchedNodes)
  }

  function Link(nodes: map<NodeKey, NodeState>, k: NodeKey, e: EdgeKey): map<NodeKey, NodeState> {
    if k in nodes then nodes[k := nodes[k].(edges := nodes[k].edges + {e})] else nodes
  }

  function Unlink(nodes: map<NodeKey, NodeState>, k: NodeKey, e: EdgeKey): map<NodeKey, NodeState> {
    if k in nodes then nodes[k := nodes[k].(edges := nodes[k].edges - {e})] else nodes
  }

  function Opened(c: Replica, e: WireEdge): EdgeState {
    EdgeState(e.src, e.dst, ZERO, e.last, e.l7, e.drops, Fresh(c.retention, CLIENT_UNTOUCHED))
  }

  function UpsertEdge(c: Replica, e: WireEdge): (c': Replica)
    ensures e.id in c'.edges
  {
    if e.id in c.edges then c
    else
      c.(edges := c.edges[e.id := Opened(c, e)],
         addedEdges := c.addedEdges + {e.id},
         removedEdges := c.removedEdges - {e.id},
         nodes := Link(Link(c.nodes, e.src, e.id), e.dst, e.id))
  }

  /** A tick adds increments; details are replaced only when the tick carries them. */
  function Advance(es: EdgeState, e: WireEdge, sec: int): EdgeState {
    es.(totals := es.totals.Plus(e.counts),
        ring := Add(es.ring, sec, e.counts),
        last := Max(es.last, e.last),
        l7 := if e.l7 != NO_L7 then e.l7 else es.l7,
        drops := if e.drops != map[] then e.drops else es.drops)
  }

  function TickEdge(c: Replica, e: WireEdge, sec: int): Replica {
    var c1 := UpsertEdge(c, e);
    c1.(edges := c1.edges[e.id := Advance(c1.edges[e.id], e, sec)],
        touchedEdges := c1.touchedEdges + {e.id})
  }

  /** A snapshot replaces totals and lays its seconds into the ring. */
  function Install(es: EdgeState, e: WireEdge): EdgeState {
    es.(totals := e.counts, ring := Feed(es.ring, e.buckets))
  }

  function SnapEdge(c: Replica, e: WireEdge): Replica {
    var c1 := UpsertEdge(c, e);
    c1.(edges := c1.edges[e.id := Install(c1.edges[e.id], e)])
  }

  function RemoveEdge(c: Replica, id: EdgeKey): Replica {
    if id !in c.edges then c
    else
      var e := c.edges[id];
      c.(edges := c.edges - {id},
         nodes := Unlink(Unlink(c.nodes, e.src, id), e.dst, id),
         touchedEdges := c.touchedEdges - {id},
         addedEdges := c.addedEdges - {id},
         removedEdges := if id in c.addedEdges then c.removedEdges else c.removedEdges + {id})
  }

  function RemoveNode(c: Replica, id: NodeKey): Replica {
    if id !in c.nodes then c
    else
      c.(nodes := c.nodes - {id},
         touchedNodes := c.touchedNodes - {id},
         addedNodes := c.addedNodes - {id},
         removedNodes := if id in c.addedNodes then c.removedNodes else c.removedNodes + {id})
  }

  // ---------- lists ----------

  function UpsertNodes(c: Replica, ns: seq<WireNode>): Replica
    decreases ns
  {
    if ns == [] then c else UpsertNode(UpsertNodes(c, ns[..|ns| - 1]), ns[|ns| - 1])
  }

  function TickEdges(c: Replica, es: seq<WireEdge>, sec: int): Replica
    decreases es
  {
    if es == [] then c else TickEdge(TickEdges(c, es[..|es| - 1], sec), es[|es| - 1], sec)
  }

  function SnapEdges(c: Replica, es: seq<WireEdge>): Replica
    decreases es
  {
    if es == [] then c else SnapEdge(SnapEdges(c, es[..|es| - 1]), es[|es| - 1])
  }

  function RemoveEdges(c: Replica, ids: seq<EdgeKey>): Replica
    decreases ids
  {
    if ids == [] then c else RemoveEdge(RemoveEdges(c, ids[..|ids| - 1]), ids[|ids| - 1])
  }

  function RemoveNodes(c: Replica, ids: seq<NodeKey>): Replica
    decreases ids
  {
    if ids == [] then c else RemoveNode(RemoveNodes(c, ids[..|ids| - 1]), ids[|ids| - 1])
  }

  // ---------- messages ----------

  function TickSecond(t: Tick): int {
    t.ts / 1000
  }

  function ApplyTick(c: Replica, t: Tick): Replica {
    var c1 := UpsertNodes(c, t.nodes);
    var c2 := TickEdges(c1, t.edges, TickSecond(t));
    var c3 := RemoveEdges(c2, t.goneEdges);
    RemoveNodes(c3, t.goneNodes).(ts := t.ts)
  }

  function ApplyTicks(c: Replica, ts: seq<Tick>): Replica
    decreases ts
  {
    if ts == [] then c else ApplyTick(ApplyTicks(c, ts[..|ts| - 1]), ts[|ts| - 1])
  }

  function Cleared(c: Replica): Replica {
    c.(nodes := map[], edges := map[],
       removedNodes := c.removedNodes + c.nodes.Keys,
       removedEdges := c.removedEdges + c.edges.Keys,
       addedNodes := {}, addedEdges := {}, touchedNodes := {}, touchedEdges := {})
  }

  /** The last two loops of applySnapshot: an id on both lists is taken off both. */
  function Settled(c: Replica): Replica {
    c.(addedNodes := c.addedNodes - c.removedNodes, removedNodes := c.removedNodes - c.addedNodes,
       addedEdges := c.addedEdges - c.removedEdges, removedEdges := c.removedEdges - c.addedEdges)
  }

  function ApplySnapshot(c: Replica, s: Snapshot): Replica {
    var c1 := SnapEdges(UpsertNodes(Cleared(c), s.nodes), s.edges);
    Settled(c1).(ts := s.ts, reset := true)
  }

  function Consumed(c: Replica): Replica {
    c.(addedNodes := {}, removedNodes := {}, touchedNodes := {},
       addedEdges := {}, removedEdges := {}, touchedEdges := {}, reset := false)
  }
}
