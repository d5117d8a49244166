/** The change journal between two calls of consume() (web/src/graph-state.ts) and what its
    reader shows (web/src/main.ts): exactly when the picture equals the graph. */
module Journal {
  import opened Wire
  import opened ReplicaModel

  /** One id space of a copy - its nodes or its conversations - and what the reader shows.
      `lost` are ids the journal forgot: shown, but not in the graph and not reported. */
  datatype Track<T(==)> = Track(live: set<T>, added: set<T>, removed: set<T>, shown: set<T>, lost: set<T>)

  datatype Op<T> = Add(id: T) | Remove(id: T) | Clear | Settle | Consume

  function Apply<T>(k: Track<T>, op: Op<T>): Track<T> {
    match op
    case Add(id) =>
      if id in k.live then k
      else k.(live := k.live + {id}, added := k.added + {id}, removed := k.removed - {id}, lost := k.lost - {id})
    case Remove(id) =>
      if id !in k.live then k
      else if id in k.added then
        k.(live := k.live - {id}, added := k.added - {id},
           lost := if id in k.shown then k.lost + {id} else k.lost)
      else k.(live := k.live - {id}, removed := k.removed + {id})
    case Clear => k.(live := {}, removed := k.removed + k.live, added := {})
    case Settle => k.(added := k.added - k.removed, removed := k.removed - k.added)
    case Consume => k.(shown := (k.shown - k.removed) + k.added, added := {}, removed := {})
  }

  function Run<T>(k: Track<T>, ops: seq<Op<T>>): Track<T>
    decreases ops
  {
    if ops == [] then k else Apply(Run(k, ops[..|ops| - 1]), ops[|ops| - 1])
  }

  /** What the reader will show after the next consume: removals first, then additions. */
  function Upcoming<T>(k: Track<T>): set<T> {
    (k.shown - k.removed) + k.added
  }

  /** The exact law: the reader shows what lives and what the journal lost, no more. */
  predicate Exact<T>(k: Track<T>) {
    && Upcoming(k) == k.live + k.lost
    && k.live !! k.lost
    && k.added <= k.live
    && k.removed !! k.live
    && k.removed !! k.lost
  }

  lemma ApplyExact<T>(k: Track<T>, op: Op<T>)
    requires Exact(k)
    ensures Exact(Apply(k, op))
  {
  }

  function Start<T>(): Track<T> {
    Track({}, {}, {}, {}, {})
  }

  lemma {:induction false} RunExact<T>(k: Track<T>, ops: seq<Op<T>>)
    requires Exact(k)
    ensures Exact(Run(k, ops))
    decreases ops
  {
    if ops != [] {
      RunExact(k, ops[..|ops| - 1]);
      ApplyExact(Run(k, ops[..|ops| - 1]), ops[|ops| - 1]);
    }
  }

  /** Over any sequence of messages and reads: nothing live is missing from the picture,
      the two lists stay disjoint, the settling loops of a snapshot find nothing to settle,
      and the picture is the graph if and only if no id is lost. */
  lemma JournalLaw<T>(ops: seq<Op<T>>)
    ensures var k := Run(Start<T>(), ops);
            && k.live <= Upcoming(k)
            && k.added !! k.removed
            && Apply(k, Settle) == k
            && (Upcoming(k) == k.live <==> k.lost == {})
            && Upcoming(k) - k.live == k.lost
  {
    RunExact(Start<T>(), ops);
    var k := Run(Start<T>(), ops);
    assert k.added - k.removed == k.added && k.removed - k.added == k.removed;
    assert Upcoming(k) - k.live == k.lost;
  }

  /** The one step that loses an id: a removal that finds it both shown and freshly added. */
  predicate Loses<T>(k: Track<T>, op: Op<T>) {
    op.Remove? && op.id in k.live && op.id in k.added && op.id in k.shown
  }

  lemma LostExactly<T>(k: Track<T>, op: Op<T>, x: T)
    ensures x in Apply(k, op).lost <==>
            (Loses(k, op) && op.id == x) || (x in k.lost && !(op == Add(x) && x !in k.live))
  {
  }

  /** So a history in which no shown id is removed while it sits in the added set is
      rendered faithfully, read after read. */
  lemma {:induction false} NothingLost<T>(ops: seq<Op<T>>)
    requires forall i :: 0 <= i < |ops| ==> !Loses(Run(Start<T>(), ops[..i]), ops[i])
    ensures Run(Start<T>(), ops).lost == {}
    ensures Upcoming(Run(Start<T>(), ops)) == Run(Start<T>(), ops).live
    decreases ops
  {
    if ops != [] {
      var init := ops[..|ops| - 1];
      forall i | 0 <= i < |init| ensures !Loses(Run(Start<T>(), init[..i]), init[i]) {
        assert init[..i] == ops[..i] && init[i] == ops[i];
      }
      NothingLost(init);
      var k, op := Run(Start<T>(), init), ops[|ops| - 1];
      assert !Loses(k, op);
      forall x | x in Apply(k, op).lost ensures false {
        LostExactly(k, op, x);
      }
    }
    JournalLaw(ops);
  }

  lemma RunSnoc<T>(k: Track<T>, ops: seq<Op<T>>, op: Op<T>)
    ensures Run(k, ops + [op]) == Apply(Run(k, ops), op)
  {
  }

  /** Shown, removed, added again and removed again before a read: neither list has it. */
  lemma LostExample(x: NodeKey)
    ensures var k := Run(Start<NodeKey>(), [Add(x)] + [Consume] + [Remove(x)] + [Add(x)] + [Remove(x)]);
            x in Upcoming(k) && x !in k.live && x !in k.added && x !in k.removed
  {
    var k0: Track<NodeKey> := Start();
    var shown := Track({x}, {}, {}, {x}, {});
    var back := Track({x}, {x}, {}, {x}, {});
    var one, two := [Add(x)], [Add(x)] + [Consume];
    RunSnoc(k0, [], Add(x));
    assert [] + [Add(x)] == one;
    RunSnoc(k0, one, Consume);
    assert Run(k0, two) == shown;
    RunSnoc(k0, two, Remove(x));
    RunSnoc(k0, two + [Remove(x)], Add(x));
    assert Run(k0, two + [Remove(x)] + [Add(x)]) == back;
    RunSnoc(k0, two + [Remove(x)] + [Add(x)], Remove(x));
    assert Apply(back, Remove(x)) == Track({}, {}, {}, {x}, {x});
  }

  // ---------- the copy's journals are such tracks ----------

  /** The node journal of a copy. */
  predicate NodeJournal(c: Replica, k: Track<NodeKey>) {
    k.live == c.nodes.Keys && k.added == c.addedNodes && k.removed == c.removedNodes
  }

  predicate EdgeJournal(c: Replica, k: Track<EdgeKey>) {
    k.live == c.edges.Keys && k.added == c.addedEdges && k.removed == c.removedEdges
  }

  function Adds<T>(ids: seq<T>): seq<Op<T>> {
    seq(|ids|, i requires 0 <= i < |ids| => Add(ids[i]))
  }

  function Removes<T>(ids: seq<T>): seq<Op<T>> {
    seq(|ids|, i requires 0 <= i < |ids| => Remove(ids[i]))
  }

  function NodesListed(ns: seq<WireNode>): seq<NodeKey> {
    seq(|ns|, i requires 0 <= i < |ns| => ns[i].id)
  }

  function EdgesListed(es: seq<WireEdge>): seq<EdgeKey> {
    seq(|es|, i requires 0 <= i < |es| => es[i].id)
  }

  lemma {:induction false} RunConcat<T>(k: Track<T>, a: seq<Op<T>>, b: seq<Op<T>>)
    ensures Run(k, a + b) == Run(Run(k, a), b)
    decreases b
  {
    if b == [] {
      assert a + b == a;
    } else {
      assert (a + b)[..|a + b| - 1] == a + b[..|b| - 1];
      RunConcat(k, a, b[..|b| - 1]);
    }
  }

  lemma {:induction false} UpsertNodesTracked(c: Replica, kn: Track<NodeKey>, ke: Track<EdgeKey>, ns: seq<WireNode>)
    requires NodeJournal(c, kn) && EdgeJournal(c, ke)
    ensures NodeJournal(UpsertNodes(c, ns), Run(kn, Adds(NodesListed(ns)))) && EdgeJournal(UpsertNodes(c, ns), ke)
    decreases ns
  {
    if ns != [] {
      var init := ns[..|ns| - 1];
      UpsertNodesTracked(c, kn, ke, init);
      var ops := Adds(NodesListed(ns));
      assert ops[..|ops| - 1] == Adds(NodesListed(init));
    }
  }

  lemma TickEdgeTracked(c: Replica, kn: Track<NodeKey>, ke: Track<EdgeKey>, e: WireEdge, sec: int)
    requires NodeJournal(c, kn) && EdgeJournal(c, ke)
    ensures NodeJournal(TickEdge(c, e, sec), kn) && EdgeJournal(TickEdge(c, e, sec), Apply(ke, Add(e.id)))
    ensures NodeJournal(SnapEdge(c, e), kn) && EdgeJournal(SnapEdge(c, e), Apply(ke, Add(e.id)))
  {
  }

  lemma {:induction false} TickEdgesTracked(c: Replica, kn: Track<NodeKey>, ke: Track<EdgeKey>,
                                            es: seq<WireEdge>, sec: int)
    requires NodeJournal(c, kn) && EdgeJournal(c, ke)
    ensures NodeJournal(TickEdges(c, es, sec), kn)
    ensures EdgeJournal(TickEdges(c, es, sec), Run(ke, Adds(EdgesListed(es))))
    decreases es
  {
    if es != [] {
      var init := es[..|es| - 1];
      TickEdgesTracked(c, kn, ke, init, sec);
      var ops := Adds(EdgesListed(es));
      assert ops[..|ops| - 1] == Adds(EdgesListed(init));
      TickEdgeTracked(TickEdges(c, init, sec), kn, Run(ke, Adds(EdgesListed(init))), es[|es| - 1], sec);
    }
  }

  lemma {:induction false} SnapEdgesTracked(c: Replica, kn: Track<NodeKey>, ke: Track<EdgeKey>, es: seq<WireEdge>)
    requires NodeJournal(c, kn) && EdgeJournal(c, ke)
    ensures NodeJournal(SnapEdges(c, es), kn)
    ensures EdgeJournal(SnapEdges(c, es), Run(ke, Adds(EdgesListed(es))))
    decreases es
  {
    if es != [] {
      var init := es[..|es| - 1];
      SnapEdgesTracked(c, kn, ke, init);
      var ops := Adds(EdgesListed(es));
      assert ops[..|ops| - 1] == Adds(EdgesListed(init));
      TickEdgeTracked(SnapEdges(c, init), kn, Run(ke, Adds(EdgesListed(init))), es[|es| - 1], 0);
    }
  }

  lemma RemoveEdgeTracked(c: Replica, kn: Track<NodeKey>, ke: Track<EdgeKey>, id: EdgeKey)
    requires NodeJournal(c, kn) && EdgeJournal(c, ke)
    ensures NodeJournal(RemoveEdge(c, id), kn) && EdgeJournal(RemoveEdge(c, id), Apply(ke, Remove(id)))
  {
  }

  lemma {:induction false} RemoveEdgesTracked(c: Replica, kn: Track<NodeKey>, ke: Track<EdgeKey>, ids: seq<EdgeKey>)
    requires NodeJournal(c, kn) && EdgeJournal(c, ke)
    ensures NodeJournal(RemoveEdges(c, ids), kn)
    ensures EdgeJournal(RemoveEdges(c, ids), Run(ke, Removes(ids)))
    decreases ids
  {
    if ids != [] {
      var init := ids[..|ids| - 1];
      RemoveEdgesTracked(c, kn, ke, init);
      var ops := Removes(ids);
      assert ops[..|ops| - 1] == Removes(init);
      RemoveEdgeTracked(RemoveEdges(c, init), kn, Run(ke, Removes(init)), ids[|ids| - 1]);
    }
  }

  lemma RemoveNodeTracked(c: Replica, kn: Track<NodeKey>, ke: Track<EdgeKey>, id: NodeKey)
    requires NodeJournal(c, kn) && EdgeJournal(c, ke)
    ensures NodeJournal(RemoveNode(c, id), Apply(kn, Remove(id))) && EdgeJournal(RemoveNode(c, id), ke)
  {
  }

  lemma {:induction false} RemoveNodesTracked(c: Replica, kn: Track<NodeKey>, ke: Track<EdgeKey>, ids: seq<NodeKey>)
    requires NodeJournal(c, kn) && EdgeJournal(c, ke)
    ensures NodeJournal(RemoveNodes(c, ids), Run(kn, Removes(ids)))
    ensures EdgeJournal(RemoveNodes(c, ids), ke)
    decreases ids
  {
    if ids != [] {
      var init := ids[..|ids| - 1];
      RemoveNodesTracked(c, kn, ke, init);
      var ops := Removes(ids);
      assert ops[..|ops| - 1] == Removes(init);
      RemoveNodeTracked(RemoveNodes(c, init), Run(kn, Removes(init)), ke, ids[|ids| - 1]);
    }
  }

  function TickNodeOps(t: Tick): seq<Op<NodeKey>> {
    Adds(NodesListed(t.nodes)) + Removes(t.goneNodes)
  }

  function TickEdgeOps(t: Tick): seq<Op<EdgeKey>> {
    Adds(EdgesListed(t.edges)) + Removes(t.goneEdges)
  }

  /** A tick is a run of additions and removals on both journals. */
  lemma TickTracked(c: Replica, kn: Track<NodeKey>, ke: Track<EdgeKey>, t: Tick)
    requires NodeJournal(c, kn) && EdgeJournal(c, ke)
    ensures NodeJournal(ApplyTick(c, t), Run(kn, TickNodeOps(t)))
    ensures EdgeJournal(ApplyTick(c, t), Run(ke, TickEdgeOps(t)))
  {
    var kn1, ke1 := Run(kn, Adds(NodesListed(t.nodes))), Run(ke, Adds(EdgesListed(t.edges)));
    UpsertNodesTracked(c, kn, ke, t.nodes);
    var c1 := UpsertNodes(c, t.nodes);
    TickEdgesTracked(c1, kn1, ke, t.edges, TickSecond(t));
    var c2 := TickEdges(c1, t.edges, TickSecond(t));
    RemoveEdgesTracked(c2, kn1, ke1, t.goneEdges);
    RemoveNodesTracked(RemoveEdges(c2, t.goneEdges), kn1, Run(ke1, Removes(t.goneEdges)), t.goneNodes);
    RunConcat(kn, Adds(NodesListed(t.nodes)), Removes(t.goneNodes));
    RunConcat(ke, Adds(EdgesListed(t.edges)), Removes(t.goneEdges));
  }

  function SnapshotOps<T>(ids: seq<T>): seq<Op<T>> {
    [Clear] + Adds(ids) + [Settle]
  }

  /** A snapshot clears, adds and settles. */
  lemma SnapshotTracked(c: Replica, kn: Track<NodeKey>, ke: Track<EdgeKey>, s: Snapshot)
    requires NodeJournal(c, kn) && EdgeJournal(c, ke)
    ensures NodeJournal(ApplySnapshot(c, s), Run(kn, SnapshotOps(NodesListed(s.nodes))))
    ensures EdgeJournal(ApplySnapshot(c, s), Run(ke, SnapshotOps(EdgesListed(s.edges))))
  {
    var c0 := Cleared(c);
    var kn0, ke0 := Apply(kn, Clear), Apply(ke, Clear);
    UpsertNodesTracked(c0, kn0, ke0, s.nodes);
    var kn1, ke1 := Run(kn0, Adds(NodesListed(s.nodes))), Run(ke0, Adds(EdgesListed(s.edges)));
    SnapEdgesTracked(UpsertNodes(c0, s.nodes), kn1, ke0, s.edges);
    RunSnapshotOps(kn, NodesListed(s.nodes));
    RunSnapshotOps(ke, EdgesListed(s.edges));
  }

  lemma RunSnapshotOps<T>(k: Track<T>, ids: seq<T>)
    ensures Run(k, SnapshotOps(ids)) == Apply(Run(Apply(k, Clear), Adds(ids)), Settle)
  {
    var clear: seq<Op<T>> := [Clear];
    assert clear[..0] == [];
    assert Run(k, clear) == Apply(k, Clear);
    RunConcat(k, clear, Adds(ids));
    var ops := clear + Adds(ids) + [Settle];
    assert ops[..|ops| - 1] == clear + Adds(ids);
  }

  lemma ConsumeTracked(c: Replica, kn: Track<NodeKey>, ke: Track<EdgeKey>)
    requires NodeJournal(c, kn) && EdgeJournal(c, ke)
    ensures NodeJournal(Consumed(c), Apply(kn, Consume)) && EdgeJournal(Consumed(c), Apply(ke, Consume))
  {
  }

  // ---------- whole histories of a browser ----------

  datatype Event = Snap(s: Snapshot) | Tock(t: Tick) | Read

  function Browse(retention: int, evs: seq<Event>): Replica
    decreases evs
  {
    if evs == [] then New(retention)
    else
      var c, ev := Browse(retention, evs[..|evs| - 1]), evs[|evs| - 1];
      match ev
      case Snap(s) => ApplySnapshot(c, s)
      case Tock(t) => ApplyTick(c, t)
      case Read => Consumed(c)
  }

  function NodeOps(evs: seq<Event>): seq<Op<NodeKey>>
    decreases evs
  {
    if evs == [] then []
    else
      NodeOps(evs[..|evs| - 1]) +
      match evs[|evs| - 1]
      case Snap(s) => SnapshotOps(NodesListed(s.nodes))
      case Tock(t) => TickNodeOps(t)
      case Read => [Consume]
  }

  function EdgeOps(evs: seq<Event>): seq<Op<EdgeKey>>
    decreases evs
  {
    if evs == [] then []
    else
      EdgeOps(evs[..|evs| - 1]) +
      match evs[|evs| - 1]
      case Snap(s) => SnapshotOps(EdgesListed(s.edges))
      case Tock(t) => TickEdgeOps(t)
      case Read => [Consume]
  }

  lemma {:induction false} BrowseTracked(retention: int, evs: seq<Event>)
    ensures NodeJournal(Browse(retention, evs), Run(Start<NodeKey>(), NodeOps(evs)))
    ensures EdgeJournal(Browse(retention, evs), Run(Start<EdgeKey>(), EdgeOps(evs)))
    decreases evs
  {
    if evs != [] {
      var init, ev := evs[..|evs| - 1], evs[|evs| - 1];
      BrowseTracked(retention, init);
      var c := Browse(retention, init);
      var kn, ke := Run(Start<NodeKey>(), NodeOps(init)), Run(Start<EdgeKey>(), EdgeOps(init));
      match ev
      case Snap(s) =>
        SnapshotTracked(c, kn, ke, s);
        RunConcat(Start<NodeKey>(), NodeOps(init), SnapshotOps(NodesListed(s.nodes)));
        RunConcat(Start<EdgeKey>(), EdgeOps(init), SnapshotOps(EdgesListed(s.edges)));
      case Tock(t) =>
        TickTracked(c, kn, ke, t);
        RunConcat(Start<NodeKey>(), NodeOps(init), TickNodeOps(t));
        RunConcat(Start<EdgeKey>(), EdgeOps(init), TickEdgeOps(t));
      case Read =>
        ConsumeTracked(c, kn, ke);
        RunSnoc(Start<NodeKey>(), NodeOps(init), Consume);
        RunSnoc(Start<EdgeKey>(), EdgeOps(init), Consume);
    }
  }

  /** Whatever messages came and whenever they were read: the reader is told of every node
      and conversation that lives, and shows one too many exactly for each lost id. */
  lemma RenderedLaw(retention: int, evs: seq<Event>)
    ensures var c, kn := Browse(retention, evs), Run(Start<NodeKey>(), NodeOps(evs));
            (kn.shown - c.removedNodes) + c.addedNodes == c.nodes.Keys + kn.lost && c.nodes.Keys !! kn.lost
    ensures var c, ke := Browse(retention, evs), Run(Start<EdgeKey>(), EdgeOps(evs));
            (ke.shown - c.removedEdges) + c.addedEdges == c.edges.Keys + ke.lost && c.edges.Keys !! ke.lost
  {
    BrowseTracked(retention, evs);
    RunExact(Start<NodeKey>(), NodeOps(evs));
    RunExact(Start<EdgeKey>(), EdgeOps(evs));
  }
}
