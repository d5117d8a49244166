/** When a tick leaves a copy with a conversation that its nodes do not know of
    (web/src/graph-state.ts): exactly when, and that no later tick sets it right. */
module Detachment {
  import opened Wire
  import opened ReplicaModel
  import opened ReplicaFacts
  import opened Delivery
  import opened Adjacency
  import opened System
  import opened Shortfalls
  import G = GraphModel
  import I = GraphInvariants
  import A = GraphAnchors

  // ---------- what a node knows ----------

  predicate Knows(c: Replica, n: NodeKey, e: EdgeKey) {
    n in c.nodes && e in c.nodes[n].edges
  }

  predicate EndOf(c: Replica, e: EdgeKey, n: NodeKey) {
    e in c.edges && (c.edges[e].src == n || c.edges[e].dst == n)
  }

  /** The conversation is shown, but not at its end `n`, which is not shown or does not know
      of it. */
  predicate Detached(c: Replica, e: EdgeKey, n: NodeKey) {
    EndOf(c, e, n) && !Knows(c, n, e)
  }

  /** A node knows of no conversation that is not shown at it. */
  predicate NotStale(c: Replica, e: EdgeKey, n: NodeKey) {
    Knows(c, n, e) ==> EndOf(c, e, n)
  }

  lemma LinkedExactly(c: Replica)
    ensures Linked(c) <==> forall e, n :: NotStale(c, e, n) && !Detached(c, e, n)
  {
    if forall e, n :: NotStale(c, e, n) && !Detached(c, e, n) {
      forall n | n in c.nodes ensures c.nodes[n].edges == Touching(c.edges, n) {
        forall e ensures e in c.nodes[n].edges <==> e in Touching(c.edges, n) {
          assert NotStale(c, e, n) && !Detached(c, e, n);
        }
      }
      forall e | e in c.edges ensures c.edges[e].src in c.nodes && c.edges[e].dst in c.nodes {
        assert !Detached(c, e, c.edges[e].src) && !Detached(c, e, c.edges[e].dst);
      }
    } else {
      var e, n :| !NotStale(c, e, n) || Detached(c, e, n);
      assert n in c.nodes ==> (e in Touching(c.edges, n) <==> EndOf(c, e, n));
    }
  }

  lemma {:induction false} UpsertNodesKnows(c: Replica, ns: seq<WireNode>, e: EdgeKey, n: NodeKey)
    ensures Knows(UpsertNodes(c, ns), n, e) <==> Knows(c, n, e)
    ensures UpsertNodes(c, ns).edges == c.edges
    decreases ns
  {
    if ns != [] {
      UpsertNodesKnows(c, ns[..|ns| - 1], e, n);
    }
  }

  /** A conversation that is opened becomes known to those of its ends that are shown. */
  lemma TickEdgeKnows(c: Replica, w: WireEdge, sec: int, e: EdgeKey, n: NodeKey)
    ensures TickEdge(c, w, sec).nodes.Keys == c.nodes.Keys
    ensures var opens := w.id == e && e !in c.edges && (w.src == n || w.dst == n);
            && (Knows(TickEdge(c, w, sec), n, e) <==> Knows(c, n, e) || (opens && n in c.nodes))
            && (EndOf(TickEdge(c, w, sec), e, n) <==> EndOf(c, e, n) || opens)
  {
    if w.id !in c.edges {
      LinkTwice(c.nodes, w.src, w.dst, w.id);
    }
  }

  lemma {:induction false} TickEdgesKnows(c: Replica, es: seq<WireEdge>, sec: int, e: EdgeKey, n: NodeKey)
    requires NotStale(c, e, n)
    ensures var c' := TickEdges(c, es, sec);
            && c'.nodes.Keys == c.nodes.Keys
            && NotStale(c', e, n)
            && (e in c.edges ==> e in c'.edges && (EndOf(c', e, n) <==> EndOf(c, e, n)))
            && (Detached(c', e, n) <==> EndOf(c', e, n) && (Detached(c, e, n) || n !in c.nodes))
    decreases es
  {
    if es != [] {
      var init, w := es[..|es| - 1], es[|es| - 1];
      TickEdgesKnows(c, init, sec, e, n);
      TickEdgeKnows(TickEdges(c, init, sec), w, sec, e, n);
    }
  }

  lemma UnlinkTwice(nodes: map<NodeKey, NodeState>, a: NodeKey, b: NodeKey, e: EdgeKey)
    ensures Unlink(Unlink(nodes, a, e), b, e).Keys == nodes.Keys
    ensures forall n :: n in nodes ==>
              Unlink(Unlink(nodes, a, e), b, e)[n].edges == nodes[n].edges - if n == a || n == b then {e} else {}
  {
  }

  lemma {:induction false} RemoveEdgesKnows(c: Replica, ids: seq<EdgeKey>, e: EdgeKey, n: NodeKey)
    requires NotStale(c, e, n)
    ensures var c' := RemoveEdges(c, ids);
            && c'.nodes.Keys == c.nodes.Keys
            && (EndOf(c', e, n) <==> EndOf(c, e, n) && e !in ids)
            && (Knows(c', n, e) <==> Knows(c, n, e) && e !in ids)
    decreases ids
  {
    if ids != [] {
      var c1, id := RemoveEdges(c, ids[..|ids| - 1]), ids[|ids| - 1];
      RemoveEdgesKnows(c, ids[..|ids| - 1], e, n);
      if id in c1.edges {
        UnlinkTwice(c1.nodes, c1.edges[id].src, c1.edges[id].dst, id);
      }
    }
  }

  /** Exactly when a conversation is detached from an end after a tick: it was, or the end is
      not shown. The tick mends nothing but by removing the conversation. */
  lemma TickDetachedExactly(c: Replica, t: Tick, e: EdgeKey, n: NodeKey)
    requires NotStale(c, e, n)
    ensures var c' := ApplyTick(c, t);
            && NotStale(c', e, n)
            && (e in c.edges && EndOf(c', e, n) ==> EndOf(c, e, n))
            && (EndOf(c, e, n) && e !in t.goneEdges ==> EndOf(c', e, n))
            && (Detached(c', e, n) <==> EndOf(c', e, n) && (Detached(c, e, n) || n !in c'.nodes))
  {
    var c1 := UpsertNodes(c, t.nodes);
    var c2 := TickEdges(c1, t.edges, TickSecond(t));
    var c3 := RemoveEdges(c2, t.goneEdges);
    UpsertNodesKnows(c, t.nodes, e, n);
    UpsertNodesFrame(c, t.nodes);
    TickEdgesKnows(c1, t.edges, TickSecond(t), e, n);
    RemoveEdgesKnows(c2, t.goneEdges, e, n);
    RemoveNodesFrame(c3, t.goneNodes);
    assert EndOf(ApplyTick(c, t), e, n) <==> EndOf(c3, e, n);
    assert Knows(ApplyTick(c, t), n, e) <==> Knows(c3, n, e) && n in ApplyTick(c, t).nodes;
    assert n in c.nodes ==> n in c3.nodes;
  }

  // ---------- exactly when a tick breaks the links ----------

  /** The nodes a copy shows after a tick. */
  function NodesAfterTick(c: Replica, t: Tick): set<NodeKey> {
    c.nodes.Keys + G.NodeIds(t.nodes) - G.Elements(t.goneNodes)
  }

  /** What the tick opens, beyond these conversations, has both its ends among these nodes. */
  predicate OpensAt(t: Tick, known: set<EdgeKey>, ns: set<NodeKey>) {
    forall i :: 0 <= i < |t.edges| && t.edges[i].id !in known && t.edges[i].id !in G.Elements(t.goneEdges) ==>
      t.edges[i].src in ns && t.edges[i].dst in ns
  }

  /** Every conversation that the copy keeps, and every one that the tick opens, has both its
      ends among the nodes shown afterwards. */
  predicate Fits(c: Replica, t: Tick) {
    var ns := NodesAfterTick(c, t);
    && (forall e :: e in c.edges && e !in G.Elements(t.goneEdges) ==> c.edges[e].src in ns && c.edges[e].dst in ns)
    && OpensAt(t, c.edges.Keys, ns)
  }

  lemma TickedEnds(c: Replica, t: Tick, e: EdgeKey)
    requires G.DistinctEdges(t.edges) && e in ApplyTick(c, t).edges
    ensures e in c.edges ==>
              ApplyTick(c, t).edges[e].src == c.edges[e].src && ApplyTick(c, t).edges[e].dst == c.edges[e].dst
    ensures forall i :: 0 <= i < |t.edges| && t.edges[i].id == e && e !in c.edges ==>
              ApplyTick(c, t).edges[e].src == t.edges[i].src && ApplyTick(c, t).edges[e].dst == t.edges[i].dst
  {
    if e in G.EdgeIds(t.edges) {
      forall i | 0 <= i < |t.edges| && t.edges[i].id == e
        ensures ApplyTick(c, t).edges[e] == Advance(Found(c, t.edges[i]), t.edges[i], TickSecond(t))
      {
        TickedListed(c, t, i);
      }
    } else if e in c.edges {
      TickedUnlisted(c, t, e);
    }
  }

  /** A conversation among those a tick lists has the ends that the copy or the tick gives it. */
  predicate FitsAt(c: Replica, t: Tick, ns: set<NodeKey>, e: EdgeKey) {
    && (e in c.edges ==> c.edges[e].src in ns && c.edges[e].dst in ns)
    && (forall i :: 0 <= i < |t.edges| && t.edges[i].id == e && e !in c.edges ==>
          t.edges[i].src in ns && t.edges[i].dst in ns)
  }

  lemma TickedFitsAt(c: Replica, t: Tick, c': Replica, e: EdgeKey)
    requires G.DistinctEdges(t.edges) && c' == ApplyTick(c, t) && e in c'.edges
    requires e in c.edges || e in G.EdgeIds(t.edges)
    ensures FitsAt(c, t, c'.nodes.Keys, e) <==> c'.edges[e].src in c'.nodes && c'.edges[e].dst in c'.nodes
  {
    TickedEnds(c, t, e);
  }

  lemma FitsEach(c: Replica, t: Tick)
    ensures Fits(c, t) <==>
            forall e :: e in c.edges.Keys + G.EdgeIds(t.edges) - G.Elements(t.goneEdges) ==>
              FitsAt(c, t, NodesAfterTick(c, t), e)
  {
    var ns, es := NodesAfterTick(c, t), c.edges.Keys + G.EdgeIds(t.edges) - G.Elements(t.goneEdges);
    if forall e :: e in es ==> FitsAt(c, t, ns, e) {
      forall e | e in c.edges && e !in G.Elements(t.goneEdges) ensures c.edges[e].src in ns && c.edges[e].dst in ns {
        assert e in es && FitsAt(c, t, ns, e);
      }
      forall i | 0 <= i < |t.edges| && t.edges[i].id !in c.edges && t.edges[i].id !in G.Elements(t.goneEdges)
        ensures t.edges[i].src in ns && t.edges[i].dst in ns
      {
        assert t.edges[i].id in G.EdgeIds(t.edges);
        assert t.edges[i].id in es && FitsAt(c, t, ns, t.edges[i].id);
      }
    }
  }

  lemma TickedLinked(c: Replica, t: Tick)
    requires Linked(c)
    ensures Linked(ApplyTick(c, t)) <==> EndsShown(ApplyTick(c, t))
  {
    var c' := ApplyTick(c, t);
    LinkedExactly(c);
    LinkedExactly(c');
    forall e, n ensures NotStale(c', e, n) && (Detached(c', e, n) <==> EndOf(c', e, n) && n !in c'.nodes) {
      assert NotStale(c, e, n) && !Detached(c, e, n);
      TickDetachedExactly(c, t, e, n);
    }
    if EndsShown(c') {
      assert forall e, n :: EndOf(c', e, n) ==> n in c'.nodes;
    }
  }

  /** Exactly when a tick leaves a linked copy linked. */
  lemma TickLinkedExactly(c: Replica, t: Tick)
    requires Linked(c) && G.DistinctEdges(t.edges)
    ensures Linked(ApplyTick(c, t)) <==> Fits(c, t)
  {
    TickedLinked(c, t);
    TickedKeys(c, t);
    FitsEach(c, t);
    var c' := ApplyTick(c, t);
    forall e | e in c'.edges
      ensures FitsAt(c, t, c'.nodes.Keys, e) <==> c'.edges[e].src in c'.nodes && c'.edges[e].dst in c'.nodes
    {
      TickedFitsAt(c, t, c', e);
    }
    assert c'.nodes.Keys == NodesAfterTick(c, t);
  }

  /** Removing nodes breaks the links exactly if a conversation is shown at one of them. */
  lemma RemoveNodesLinkedExactly(c: Replica, ids: seq<NodeKey>)
    requires Linked(c)
    ensures Linked(RemoveNodes(c, ids)) <==>
            forall e :: e in c.edges ==> c.edges[e].src !in ids && c.edges[e].dst !in ids
  {
    RemoveNodesFrame(c, ids);
    var c' := RemoveNodes(c, ids);
    forall n ensures n in G.Elements(ids) <==> n in ids {
    }
    if forall e :: e in c.edges ==> c.edges[e].src !in ids && c.edges[e].dst !in ids {
      RemoveNodesLinked(c, ids);
    } else {
      var e :| e in c.edges && (c.edges[e].src in ids || c.edges[e].dst in ids);
      assert e in c'.edges && c'.edges[e] == c.edges[e];
    }
  }

  // ---------- no tick sets it right ----------

  lemma DetachedIsUnlinked(c: Replica, e: EdgeKey, n: NodeKey)
    requires Detached(c, e, n)
    ensures !Linked(c) && (n in c.nodes ==> !AdjacencyExact(c)) && (n !in c.nodes ==> !EndsShown(c))
  {
    assert e in Touching(c.edges, n);
  }

  lemma TickDetached(c: Replica, t: Tick, e: EdgeKey, n: NodeKey)
    requires Detached(c, e, n) && e !in t.goneEdges
    ensures Detached(ApplyTick(c, t), e, n)
  {
    TickDetachedExactly(c, t, e, n);
  }

  /** Whatever ticks follow, one that announces the node again included: while no tick says
      that the conversation is gone, it stays detached and the copy unlinked. */
  lemma {:induction false} DetachedForGood(c: Replica, ts: seq<Tick>, e: EdgeKey, n: NodeKey)
    requires Detached(c, e, n) && forall i :: 0 <= i < |ts| ==> e !in ts[i].goneEdges
    ensures Detached(ApplyTicks(c, ts), e, n) && !Linked(ApplyTicks(c, ts))
    decreases ts
  {
    if ts != [] {
      var init := ts[..|ts| - 1];
      assert forall i :: 0 <= i < |init| ==> init[i] == ts[i];
      DetachedForGood(c, init, e, n);
      TickDetached(ApplyTicks(c, init), ts[|ts| - 1], e, n);
    }
    DetachedIsUnlinked(ApplyTicks(c, ts), e, n);
  }

  // ---------- what the server's ticks do to a copy with a gap ----------

  /** After a missed announcement: an increment of a conversation that the copy does not show,
      at a node that it does not show and is not told of again, detaches the conversation. */
  lemma MissedAnnouncement(s: G.State, now: int, t: Tick, c: Replica, i: nat, n: NodeKey)
    requires A.GoneIsGone(s) && G.IsTick(s, now, t) && i < |t.edges| && (t.edges[i].src == n || t.edges[i].dst == n)
    requires t.edges[i].id !in c.edges && n !in c.nodes && n !in s.newNodes && n !in s.dirtyNode
    ensures Detached(ApplyTick(c, t), t.edges[i].id, n) && !Linked(ApplyTick(c, t))
  {
    var e := t.edges[i].id;
    assert e in G.EdgeIds(t.edges) && G.IsIncrement(s, t.edges[i]);
    assert e !in G.Elements(t.goneEdges);
    TickedKeys(c, t);
    TickedEnds(c, t, e);
    DetachedIsUnlinked(ApplyTick(c, t), e, n);
  }

  /** After a missed departure: what no later tick reports as gone stays, a ghost. */
  lemma {:induction false} GhostsStay(c: Replica, ts: seq<Tick>)
    ensures forall e :: e in c.edges && (forall i :: 0 <= i < |ts| ==> e !in ts[i].goneEdges) ==>
              e in ApplyTicks(c, ts).edges
    ensures forall n :: n in c.nodes && (forall i :: 0 <= i < |ts| ==> n !in ts[i].goneNodes) ==>
              n in ApplyTicks(c, ts).nodes
    decreases ts
  {
    if ts != [] {
      var init, t := ts[..|ts| - 1], ts[|ts| - 1];
      assert forall i :: 0 <= i < |init| ==> init[i] == ts[i];
      GhostsStay(c, init);
      TickedKeys(ApplyTicks(c, init), t);
    }
  }

  /** A departure that is given late: a tick that removes a node at which the copy already
      shows a newer conversation detaches that conversation. */
  lemma StaleDeparture(t: Tick, c: Replica, e: EdgeKey, n: NodeKey)
    requires G.DistinctEdges(t.edges)
    requires n in t.goneNodes && e in c.edges && (c.edges[e].src == n || c.edges[e].dst == n) && e !in t.goneEdges
    ensures Detached(ApplyTick(c, t), e, n) && !Linked(ApplyTick(c, t))
  {
    TickedKeys(c, t);
    assert n in G.Elements(t.goneNodes) && (e in t.goneEdges <==> e in G.Elements(t.goneEdges));
    TickedEnds(c, t, e);
    DetachedIsUnlinked(ApplyTick(c, t), e, n);
  }

  // ---------- over whole runs ----------

  /** The move gives the client a tick that does not fit what it shows. */
  ghost predicate Misfits(y: Sys, m: Move, id: nat)
    requires Enabled(y, m) && id in y.peers
  {
    && m.TickHanded? && Given(y.peers[id]) && !y.peers[id].client.resync
    && !Fits(Shown(y.peers[id]), y.inflight.value)
  }

  lemma HandedLinkedExactly(p: Peer, t: Tick, g: G.State, now: int, snap: Snapshot)
    requires Linked(Shown(p)) && I.WellFormed(g) && G.IsSnapshot(g, now, snap) && G.DistinctEdges(t.edges)
    ensures Linked(Shown(Handed(p, t, snap, g))) <==> !Given(p) || p.client.resync || Fits(Shown(p), t)
  {
    HandedShown(p, t, snap, g);
    SnapshotLinked(g, Shown(p), now, snap);
    TickLinkedExactly(Shown(p), t);
  }

  /** The one move that breaks the links of a client's copy. */
  lemma MoveLinkedExactly(y: Sys, m: Move, id: nat)
    requires Inv(y) && Enabled(y, m) && m != Left(id) && id in y.peers && Linked(Shown(y.peers[id]))
    ensures id in Do(y, m).peers && (Linked(Shown(Do(y, m).peers[id])) <==> !Misfits(y, m, id))
  {
    match m
    case TickHanded(now, snap) => HandedLinkedExactly(y.peers[id], y.inflight.value, y.g, now, snap);
    case Received(x) => ReadsSame(y.peers[x]);
    case _ => assert Shown(Do(y, m).peers[id]) == Shown(y.peers[id]);
  }

  /** The move gives the client a new snapshot, or tells it that the conversation is gone. */
  ghost predicate Cures(y: Sys, m: Move, id: nat, e: EdgeKey)
    requires Enabled(y, m) && id in y.peers
  {
    && m.TickHanded? && Given(y.peers[id])
    && (y.peers[id].client.resync || e in y.inflight.value.goneEdges)
  }

  lemma MoveDetached(y: Sys, m: Move, id: nat, e: EdgeKey, n: NodeKey)
    requires Enabled(y, m) && m != Left(id) && id in y.peers && Detached(Shown(y.peers[id]), e, n)
    requires !Cures(y, m, id, e)
    ensures id in Do(y, m).peers && Detached(Shown(Do(y, m).peers[id]), e, n)
  {
    match m
    case TickHanded(now, snap) =>
      HandedShown(y.peers[id], y.inflight.value, snap, y.g);
      if Given(y.peers[id]) {
        TickDetached(Shown(y.peers[id]), y.inflight.value, e, n);
      }
    case Received(x) => ReadsSame(y.peers[x]);
    case _ => assert Shown(Do(y, m).peers[id]) == Shown(y.peers[id]);
  }

  /** The move gives the client a new snapshot. */
  ghost predicate Resyncs(y: Sys, m: Move, id: nat)
    requires Enabled(y, m) && id in y.peers
  {
    m.TickHanded? && Given(y.peers[id]) && y.peers[id].client.resync
  }

  lemma MoveDetachedExactly(y: Sys, m: Move, id: nat, e: EdgeKey, n: NodeKey)
    requires Inv(y) && Enabled(y, m) && m != Left(id) && id in y.peers && NotStale(Shown(y.peers[id]), e, n)
    ensures id in Do(y, m).peers
    ensures var c, c' := Shown(y.peers[id]), Shown(Do(y, m).peers[id]);
            && NotStale(c', e, n)
            && (!Resyncs(y, m, id) && e in c.edges && EndOf(c', e, n) ==> EndOf(c, e, n))
            && (Detached(c', e, n) <==>
                EndOf(c', e, n) && (n !in c'.nodes || (!Resyncs(y, m, id) && Detached(c, e, n))))
  {
    var p := y.peers[id];
    match m
    case TickHanded(now, snap) =>
      HandedShown(p, y.inflight.value, snap, y.g);
      if Resyncs(y, m, id) {
        SnapshotLinked(y.g, Shown(p), now, snap);
        LinkedExactly(ApplySnapshot(Shown(p), snap));
        assert !Detached(ApplySnapshot(Shown(p), snap), e, n);
      } else if Given(p) {
        TickDetachedExactly(Shown(p), y.inflight.value, e, n);
      }
    case Received(x) => ReadsSame(y.peers[x]);
    case _ => assert Shown(Do(y, m).peers[id]) == Shown(p);
  }

  /** At some moment since it was last sent a snapshot, the client showed the conversation
      without the node, and it has shown the conversation ever since. */
  ghost predicate ShownWithout(y: Sys, ms: seq<Move>, id: nat, e: EdgeKey, n: NodeKey)
    requires Legal(y, ms) && id in y.peers && Left(id) !in ms
    decreases ms
  {
    StaysOn(y, ms, id);
    var c := Shown(Run(y, ms).peers[id]);
    && e in c.edges
    && (n !in c.nodes ||
        (ms != [] &&
         (StaysOn(y, ms[..|ms| - 1], id);
          !Resyncs(Run(y, ms[..|ms| - 1]), ms[|ms| - 1], id) && ShownWithout(y, ms[..|ms| - 1], id, e, n))))
  }

  lemma {:induction false} DetachedExactly(y: Sys, ms: seq<Move>, id: nat, e: EdgeKey, n: NodeKey)
    requires Inv(y) && Legal(y, ms) && id in y.peers && Left(id) !in ms && Linked(Shown(y.peers[id]))
    ensures id in Run(y, ms).peers
    ensures var c := Shown(Run(y, ms).peers[id]);
            NotStale(c, e, n) && (Detached(c, e, n) <==> EndOf(c, e, n) && ShownWithout(y, ms, id, e, n))
    decreases ms
  {
    if ms == [] {
      LinkedExactly(Shown(y.peers[id]));
      assert NotStale(Shown(y.peers[id]), e, n) && !Detached(Shown(y.peers[id]), e, n);
    } else {
      var init, m := ms[..|ms| - 1], ms[|ms| - 1];
      DetachedExactly(y, init, id, e, n);
      RunInv(y, init);
      assert m in ms;
      MoveDetachedExactly(Run(y, init), m, id, e, n);
    }
  }

  /** Over every run, whatever is missed or given twice: a client's copy is linked if and only
      if each end of each conversation it shows has been shown along with it, at every moment
      since it has shown the conversation or was last sent a snapshot. */
  lemma LinkedOverRun(y: Sys, ms: seq<Move>, id: nat)
    requires Inv(y) && Legal(y, ms) && id in y.peers && Left(id) !in ms && Linked(Shown(y.peers[id]))
    ensures id in Run(y, ms).peers
    ensures var c := Shown(Run(y, ms).peers[id]);
            Linked(c) <==> forall e, n :: EndOf(c, e, n) ==> !ShownWithout(y, ms, id, e, n)
  {
    StaysOn(y, ms, id);
    LinkedExactly(Shown(Run(y, ms).peers[id]));
    forall e, n
      ensures NotStale(Shown(Run(y, ms).peers[id]), e, n)
      ensures Detached(Shown(Run(y, ms).peers[id]), e, n) <==>
              EndOf(Shown(Run(y, ms).peers[id]), e, n) && ShownWithout(y, ms, id, e, n)
    {
      DetachedExactly(y, ms, id, e, n);
    }
  }

  /** No move of the run mends the conversation in the client's copy. */
  ghost predicate NoneCures(y: Sys, ms: seq<Move>, id: nat, e: EdgeKey)
    requires Legal(y, ms)
    decreases ms
  {
    ms == [] ||
    (var y', m := Run(y, ms[..|ms| - 1]), ms[|ms| - 1];
     && NoneCures(y, ms[..|ms| - 1], id, e)
     && m != Left(id)
     && (id in y'.peers ==> !Cures(y', m, id, e)))
  }

  /** Over any run: a detached conversation stays so, and the copy unlinked. */
  lemma {:induction false} StaysDetached(y: Sys, ms: seq<Move>, id: nat, e: EdgeKey, n: NodeKey)
    requires Legal(y, ms) && NoneCures(y, ms, id, e) && id in y.peers && Detached(Shown(y.peers[id]), e, n)
    ensures id in Run(y, ms).peers
    ensures Detached(Shown(Run(y, ms).peers[id]), e, n) && !Linked(Shown(Run(y, ms).peers[id]))
    decreases ms
  {
    if ms != [] {
      var init := ms[..|ms| - 1];
      StaysDetached(y, init, id, e, n);
      MoveDetached(Run(y, init), ms[|ms| - 1], id, e, n);
    }
    DetachedIsUnlinked(Shown(Run(y, ms).peers[id]), e, n);
  }

  /** What the graph must be like when a client joins for the tick on its way to fit its copy:
      no conversation in it that the tick does not remove has an end the tick removes, and
      whatever the tick opens anew has both ends there or among the nodes it announces. */
  predicate JoinerFits(g: G.State, t: Tick) {
    && (forall e :: e in g.edges && e !in G.Elements(t.goneEdges) ==>
          e.src !in G.Elements(t.goneNodes) && e.dst !in G.Elements(t.goneNodes))
    && OpensAt(t, g.edges.Keys, g.nodes.Keys + G.NodeIds(t.nodes) - G.Elements(t.goneNodes))
  }

  lemma JoinerLinkedExactly(g: G.State, before: Replica, now: int, snap: Snapshot, t: Tick)
    requires I.WellFormed(g) && G.IsSnapshot(g, now, snap) && G.DistinctEdges(t.edges)
    ensures Linked(ApplyTick(ApplySnapshot(before, snap), t)) <==> JoinerFits(g, t)
  {
    var c := ApplySnapshot(before, snap);
    SnapshotLinked(g, before, now, snap);
    TickLinkedExactly(c, t);
    SnappedKeys(before, snap);
    forall e | e in g.edges ensures e in c.edges && c.edges[e].src == e.src && c.edges[e].dst == e.dst {
      SnapshotEdge(g, before, now, snap, e);
    }
    SameFits(g, c, t);
  }

  lemma SameFits(g: G.State, c: Replica, t: Tick)
    requires I.EndpointsExist(g) && c.nodes.Keys == g.nodes.Keys && c.edges.Keys == g.edges.Keys
    requires forall e :: e in g.edges && e in c.edges ==> c.edges[e].src == e.src && c.edges[e].dst == e.dst
    ensures Fits(c, t) <==> JoinerFits(g, t)
  {
    var ns, gone := NodesAfterTick(c, t), G.Elements(t.goneNodes);
    assert ns == g.nodes.Keys + G.NodeIds(t.nodes) - gone;
    forall e | e in g.edges
      ensures e in c.edges && (c.edges[e].src in ns <==> e.src !in gone) && (c.edges[e].dst in ns <==> e.dst !in gone)
    {
      assert e.src in g.nodes && e.dst in g.nodes;
    }
  }
}
