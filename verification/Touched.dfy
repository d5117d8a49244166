/** The nodes and conversations that a copy reports as changed (web/src/graph-state.ts), and
    the machines its reader shows (web/src/main.ts, applyChanges; web/src/nodes.ts). */
module Touched {
  import opened Wire
  import opened ReplicaModel
  import opened ReplicaFacts
  import opened Journal
  import G = GraphModel

  // ---------- one message ----------

  predicate TouchedShown(c: Replica) {
    c.touchedNodes <= c.nodes.Keys && c.touchedEdges <= c.edges.Keys
      && forall n :: n in c.touchedNodes && n in c.nodes ==> c.nodes[n].machine != ""
  }

  /** The node was shown before and after, on another machine. */
  predicate Moved(c: Replica, c': Replica, n: NodeKey) {
    n in c.nodes && n in c'.nodes && c.nodes[n].machine != c'.nodes[n].machine
  }

  lemma {:induction false} UpsertNodesTouched(c: Replica, ns: seq<WireNode>, n: NodeKey)
    requires G.DistinctNodes(ns) && TouchedShown(c)
    ensures var c' := UpsertNodes(c, ns);
            && TouchedShown(c') && c'.edges == c.edges && c'.touchedEdges == c.touchedEdges
            && (n in c.nodes ==> n in c'.nodes)
            && (n in c'.touchedNodes <==> n in c.touchedNodes || Moved(c, c', n))
    decreases ns
  {
    if ns != [] {
      var init, w := ns[..|ns| - 1], ns[|ns| - 1];
      UpsertNodesTouched(c, init, n);
      UpsertNodesFrame(c, init);
      if w.id == n {
        NotBefore(ns);
        if n in c.nodes {
          UpsertNodesOther(c, init, n);
        }
      }
    }
  }

  lemma NotBefore(ns: seq<WireNode>)
    requires ns != [] && G.DistinctNodes(ns)
    ensures ns[|ns| - 1].id !in G.NodeIds(ns[..|ns| - 1])
  {
    var init := ns[..|ns| - 1];
    forall j | 0 <= j < |init| ensures init[j].id != ns[|ns| - 1].id {
      assert init[j] == ns[j];
    }
  }

  lemma TickEdgeTouched(c: Replica, w: WireEdge, sec: int)
    requires TouchedShown(c)
    ensures var c' := TickEdge(c, w, sec);
            && TouchedShown(c') && SameNodes(c, c') && c'.touchedNodes == c.touchedNodes
            && c'.touchedEdges == c.touchedEdges + {w.id} && c'.edges.Keys == c.edges.Keys + {w.id}
  {
    UpsertEdgeSameNodes(c, w);
  }

  lemma {:induction false} TickEdgesTouched(c: Replica, es: seq<WireEdge>, sec: int)
    requires TouchedShown(c)
    ensures var c' := TickEdges(c, es, sec);
            && TouchedShown(c') && SameNodes(c, c') && c'.touchedNodes == c.touchedNodes
            && c'.touchedEdges == c.touchedEdges + G.EdgeIds(es)
            && c'.edges.Keys == c.edges.Keys + G.EdgeIds(es)
    decreases es
  {
    if es != [] {
      TickEdgesTouched(c, es[..|es| - 1], sec);
      EdgeIdsSnoc(es);
      TickEdgeTouched(TickEdges(c, es[..|es| - 1], sec), es[|es| - 1], sec);
    }
  }

  lemma {:induction false} RemoveEdgesTouched(c: Replica, ids: seq<EdgeKey>)
    requires TouchedShown(c)
    ensures var c' := RemoveEdges(c, ids);
            && TouchedShown(c') && SameNodes(c, c') && c'.touchedNodes == c.touchedNodes
            && c'.touchedEdges == c.touchedEdges - G.Elements(ids)
            && c'.edges.Keys == c.edges.Keys - G.Elements(ids)
    decreases ids
  {
    if ids != [] {
      var init, id := ids[..|ids| - 1], ids[|ids| - 1];
      RemoveEdgesTouched(c, init);
      RemoveEdgeSameNodes(RemoveEdges(c, init), id);
      assert G.Elements(ids) == G.Elements(init) + {id};
    }
  }

  lemma {:induction false} RemoveNodesTouched(c: Replica, ids: seq<NodeKey>)
    requires TouchedShown(c)
    ensures var c' := RemoveNodes(c, ids);
            && TouchedShown(c') && c'.edges == c.edges && c'.touchedEdges == c.touchedEdges
            && c'.touchedNodes == c.touchedNodes - G.Elements(ids) && c'.nodes == c.nodes - G.Elements(ids)
    decreases ids
  {
    if ids != [] {
      var init, id := ids[..|ids| - 1], ids[|ids| - 1];
      RemoveNodesTouched(c, init);
      assert G.Elements(ids) == G.Elements(init) + {id};
    } else {
      assert c.nodes - {} == c.nodes;
    }
  }

  /** After a tick the reported nodes are those still shown that were reported before or have
      another machine than before; the reported conversations those still shown that were
      reported before or are on its list. */
  lemma TickTouched(c: Replica, t: Tick, n: NodeKey, e: EdgeKey)
    requires TouchedShown(c) && G.DistinctNodes(t.nodes)
    ensures var c' := ApplyTick(c, t);
            && TouchedShown(c')
            && (n in c'.touchedNodes <==> n in c'.nodes && (n in c.touchedNodes || Moved(c, c', n)))
            && (e in c'.touchedEdges <==> e in c'.edges && (e in c.touchedEdges || e in G.EdgeIds(t.edges)))
  {
    var c1 := UpsertNodes(c, t.nodes);
    var c2 := TickEdges(c1, t.edges, TickSecond(t));
    var c3 := RemoveEdges(c2, t.goneEdges);
    UpsertNodesTouched(c, t.nodes, n);
    TickEdgesTouched(c1, t.edges, TickSecond(t));
    RemoveEdgesTouched(c2, t.goneEdges);
    RemoveNodesTouched(c3, t.goneNodes);
  }

  lemma {:induction false} SnapEdgesTouched(c: Replica, es: seq<WireEdge>)
    ensures var c' := SnapEdges(c, es);
            SameNodes(c, c') && c'.touchedNodes == c.touchedNodes && c'.touchedEdges == c.touchedEdges
    decreases es
  {
    if es != [] {
      SnapEdgesTouched(c, es[..|es| - 1]);
      UpsertEdgeSameNodes(SnapEdges(c, es[..|es| - 1]), es[|es| - 1]);
    }
  }

  /** A snapshot reports nothing as changed. */
  lemma SnapshotTouched(c: Replica, s: Snapshot)
    requires G.DistinctNodes(s.nodes)
    ensures ApplySnapshot(c, s).touchedNodes == {} && ApplySnapshot(c, s).touchedEdges == {}
  {
    forall n ensures n !in UpsertNodes(Cleared(c), s.nodes).touchedNodes {
      UpsertNodesTouched(Cleared(c), s.nodes, n);
    }
    UpsertNodesTouched(Cleared(c), s.nodes, NodeKey("", "", ""));
    SnapEdgesTouched(UpsertNodes(Cleared(c), s.nodes), s.edges);
  }

  // ---------- whole histories ----------

  predicate Listed(ev: Event) {
    (ev.Tock? ==> G.DistinctNodes(ev.t.nodes)) && (ev.Snap? ==> G.DistinctNodes(ev.s.nodes))
  }

  predicate AllListed(evs: seq<Event>) {
    forall i :: 0 <= i < |evs| ==> Listed(evs[i])
  }

  predicate ShownAfter(retention: int, evs: seq<Event>, j: nat, n: NodeKey)
    requires j < |evs|
  {
    evs[j].Tock? && n in Browse(retention, evs[..j + 1]).nodes
  }

  lemma ShownAfterSnoc(retention: int, evs: seq<Event>, ev: Event, j: nat, n: NodeKey)
    requires j < |evs|
    ensures ShownAfter(retention, evs + [ev], j, n) <==> ShownAfter(retention, evs, j, n)
  {
    assert (evs + [ev])[..j + 1] == evs[..j + 1];
  }

  /** The `k`-th message is a tick that moved the node to another machine; since then the node
      has been shown, and nothing was read and no snapshot came. */
  predicate MovedAt(retention: int, evs: seq<Event>, k: nat, n: NodeKey) {
    && k < |evs| && evs[k].Tock?
    && Moved(Browse(retention, evs[..k]), Browse(retention, evs[..k + 1]), n)
    && ShownSince(retention, evs, k, n)
  }

  ghost predicate EverMoved(retention: int, evs: seq<Event>, n: NodeKey) {
    exists k: nat :: MovedAt(retention, evs, k, n)
  }

  /** Since the `k`-th message only ticks came, and the node stayed. */
  predicate ShownSince(retention: int, evs: seq<Event>, k: nat, n: NodeKey) {
    forall j :: k < j < |evs| ==> ShownAfter(retention, evs, j, n)
  }

  lemma ShownSinceSnoc(retention: int, evs: seq<Event>, ev: Event, k: nat, n: NodeKey)
    requires k < |evs|
    ensures ShownSince(retention, evs + [ev], k, n) <==>
            ShownSince(retention, evs, k, n) && ev.Tock? && n in Browse(retention, evs + [ev]).nodes
  {
    var all := evs + [ev];
    assert all[..|all|] == all && all[|evs|] == ev;
    forall j: nat | j < |evs| ensures ShownAfter(retention, all, j, n) <==> ShownAfter(retention, evs, j, n) {
      ShownAfterSnoc(retention, evs, ev, j, n);
    }
    assert ShownAfter(retention, all, |evs|, n) <==> ev.Tock? && n in Browse(retention, all).nodes;
  }

  lemma MovedAtSnoc(retention: int, evs: seq<Event>, ev: Event, k: nat, n: NodeKey)
    requires k < |evs|
    ensures MovedAt(retention, evs + [ev], k, n) <==>
            MovedAt(retention, evs, k, n) && ev.Tock? && n in Browse(retention, evs + [ev]).nodes
  {
    var all := evs + [ev];
    assert all[k] == evs[k] && all[..k] == evs[..k] && all[..k + 1] == evs[..k + 1];
    ShownSinceSnoc(retention, evs, ev, k, n);
  }

  lemma EverMovedSnoc(retention: int, evs: seq<Event>, ev: Event, n: NodeKey)
    ensures EverMoved(retention, evs + [ev], n) <==>
            && ev.Tock? && n in Browse(retention, evs + [ev]).nodes
            && (EverMoved(retention, evs, n) || Moved(Browse(retention, evs), Browse(retention, evs + [ev]), n))
  {
    var all := evs + [ev];
    assert all[..|all|] == all && all[..|evs|] == evs && all[|evs|] == ev;
    assert MovedAt(retention, all, |evs|, n) <==> ev.Tock? && Moved(Browse(retention, evs), Browse(retention, all), n);
    if EverMoved(retention, evs, n) {
      var k: nat :| MovedAt(retention, evs, k, n);
      MovedAtSnoc(retention, evs, ev, k, n);
    }
    if EverMoved(retention, all, n) {
      var k: nat :| MovedAt(retention, all, k, n);
      if k < |evs| {
        MovedAtSnoc(retention, evs, ev, k, n);
      }
    }
  }

  lemma BrowseSnoc(retention: int, evs: seq<Event>, ev: Event)
    ensures var c := Browse(retention, evs);
            Browse(retention, evs + [ev]) ==
            if ev.Snap? then ApplySnapshot(c, ev.s) else if ev.Tock? then ApplyTick(c, ev.t) else Consumed(c)
  {
    assert (evs + [ev])[..|evs|] == evs;
  }

  /** Over every history: the nodes reported as changed are exactly those that a tick has moved
      since the last read or snapshot and that have been shown ever since. */
  lemma {:induction false} TouchedExactly(retention: int, evs: seq<Event>, n: NodeKey)
    requires AllListed(evs)
    ensures TouchedShown(Browse(retention, evs))
    ensures n in Browse(retention, evs).touchedNodes <==> EverMoved(retention, evs, n)
    decreases evs
  {
    if evs != [] {
      var init, ev := evs[..|evs| - 1], evs[|evs| - 1];
      assert evs == init + [ev] && Listed(ev);
      assert forall i :: 0 <= i < |init| ==> init[i] == evs[i];
      TouchedExactly(retention, init, n);
      EverMovedSnoc(retention, init, ev, n);
      BrowseSnoc(retention, init, ev);
      match ev
      case Snap(s) => SnapshotTouched(Browse(retention, init), s);
      case Tock(t) => TickTouched(Browse(retention, init), t, n, EdgeKey(n, n, "", 0));
      case Read =>
    }
  }

  /** A snapshot came, and nothing was read since. */
  predicate Unread(evs: seq<Event>) {
    exists k :: 0 <= k < |evs| && evs[k].Snap? && forall j :: k < j < |evs| ==> !evs[j].Read?
  }

  lemma UnreadSnoc(evs: seq<Event>, ev: Event)
    ensures Unread(evs + [ev]) <==> ev.Snap? || (Unread(evs) && !ev.Read?)
  {
    var all := evs + [ev];
    assert all[|evs|] == ev && forall i :: 0 <= i < |evs| ==> all[i] == evs[i];
    if Unread(evs) && !ev.Read? {
      var k :| 0 <= k < |evs| && evs[k].Snap? && forall j :: k < j < |evs| ==> !evs[j].Read?;
      assert all[k].Snap? && forall j :: k < j < |all| ==> !all[j].Read?;
    }
    if Unread(all) {
      var k :| 0 <= k < |all| && all[k].Snap? && forall j :: k < j < |all| ==> !all[j].Read?;
      if k < |evs| {
        assert !all[|evs|].Read?;
        forall j | k < j < |evs| ensures !evs[j].Read? {
          assert !all[j].Read?;
        }
        assert evs[k].Snap?;
      }
    }
  }

  /** The time of the last message, 0 before the first. */
  function LastStamp(evs: seq<Event>): int
    decreases evs
  {
    if evs == [] then 0
    else
      var ev := evs[|evs| - 1];
      if ev.Snap? then ev.s.ts else if ev.Tock? then ev.t.ts else LastStamp(evs[..|evs| - 1])
  }

  /** Over every history: the reader is told to start over exactly if a snapshot came since the
      last read, the time is that of the last message, and the rings have the length asked
      for, but at least ten seconds. */
  lemma {:induction false} HeaderExactly(retention: int, evs: seq<Event>)
    ensures Browse(retention, evs).reset <==> Unread(evs)
    ensures Browse(retention, evs).ts == LastStamp(evs)
    ensures Browse(retention, evs).retention == Max(10, retention)
    decreases evs
  {
    if evs != [] {
      var init, ev := evs[..|evs| - 1], evs[|evs| - 1];
      assert evs == init + [ev];
      HeaderExactly(retention, init);
      UnreadSnoc(init, ev);
      HeaderStep(Browse(retention, init), ev);
      BrowseSnoc(retention, init, ev);
    }
  }

  lemma HeaderStep(c: Replica, ev: Event)
    ensures ev.Snap? ==>
              var c' := ApplySnapshot(c, ev.s); c'.reset && c'.ts == ev.s.ts && c'.retention == c.retention
    ensures ev.Tock? ==>
              var c' := ApplyTick(c, ev.t);
              c'.reset == c.reset && c'.ts == ev.t.ts && c'.retention == c.retention
  {
    match ev
    case Snap(s) =>
      UpsertNodesReset(Cleared(c), s.nodes);
      SnapEdgesReset(UpsertNodes(Cleared(c), s.nodes), s.edges);
    case Tock(t) =>
      var c2 := TickEdges(UpsertNodes(c, t.nodes), t.edges, TickSecond(t));
      UpsertNodesReset(c, t.nodes);
      TickEdgesReset(UpsertNodes(c, t.nodes), t.edges, TickSecond(t));
      RemoveEdgesReset(c2, t.goneEdges);
      RemoveNodesReset(RemoveEdges(c2, t.goneEdges), t.goneNodes);
    case Read =>
  }

  lemma {:induction false} UpsertNodesReset(c: Replica, ns: seq<WireNode>)
    ensures UpsertNodes(c, ns).reset == c.reset && UpsertNodes(c, ns).retention == c.retention
    decreases ns
  {
    if ns != [] {
      UpsertNodesReset(c, ns[..|ns| - 1]);
    }
  }

  lemma {:induction false} TickEdgesReset(c: Replica, es: seq<WireEdge>, sec: int)
    ensures TickEdges(c, es, sec).reset == c.reset && TickEdges(c, es, sec).retention == c.retention
    decreases es
  {
    if es != [] {
      TickEdgesReset(c, es[..|es| - 1], sec);
    }
  }

  lemma {:induction false} SnapEdgesReset(c: Replica, es: seq<WireEdge>)
    ensures SnapEdges(c, es).retention == c.retention
    decreases es
  {
    if es != [] {
      SnapEdgesReset(c, es[..|es| - 1]);
    }
  }

  lemma {:induction false} RemoveEdgesReset(c: Replica, ids: seq<EdgeKey>)
    ensures RemoveEdges(c, ids).reset == c.reset && RemoveEdges(c, ids).retention == c.retention
    decreases ids
  {
    if ids != [] {
      RemoveEdgesReset(c, ids[..|ids| - 1]);
    }
  }

  lemma {:induction false} RemoveNodesReset(c: Replica, ids: seq<NodeKey>)
    ensures RemoveNodes(c, ids).reset == c.reset && RemoveNodes(c, ids).retention == c.retention
    decreases ids
  {
    if ids != [] {
      RemoveNodesReset(c, ids[..|ids| - 1]);
    }
  }

  // ---------- the machines that the reader shows ----------

  /** What a read makes of the machines shown: removed nodes go, reported ones get their machine,
      and the nodes that are not shown yet are added as they are. */
  function Reader(pic: map<NodeKey, string>, c: Replica): map<NodeKey, string> {
    var kept := pic.Keys - c.removedNodes;
    var rebuilt := c.addedNodes != {} || c.removedNodes != {} || c.reset;
    map n | n in kept + (if rebuilt then c.nodes.Keys else {}) ::
      if n !in kept then c.nodes[n].machine
      else if n in c.touchedNodes && n in c.nodes && c.nodes[n].machine != "" then c.nodes[n].machine
      else pic[n]
  }

  function Pictured(retention: int, evs: seq<Event>): map<NodeKey, string>
    decreases evs
  {
    if evs == [] then map[]
    else
      var pic := Pictured(retention, evs[..|evs| - 1]);
      if evs[|evs| - 1].Read? then Reader(pic, Browse(retention, evs[..|evs| - 1])) else pic
  }

  lemma PicturedSnoc(retention: int, evs: seq<Event>, ev: Event)
    ensures Pictured(retention, evs + [ev]) ==
            if ev.Read? then Reader(Pictured(retention, evs), Browse(retention, evs)) else Pictured(retention, evs)
  {
    assert (evs + [ev])[..|evs|] == evs;
  }

  lemma ShownIsNotRemoved(retention: int, evs: seq<Event>)
    ensures Browse(retention, evs).removedNodes !! Browse(retention, evs).nodes.Keys
  {
    BrowseTracked(retention, evs);
    RunExact(Start<NodeKey>(), NodeOps(evs));
  }

  /** Over every history: a read leaves a node on the right machine exactly if it was not shown
      yet, or was shown there already, or a tick has moved it since the last read or snapshot
      and it has been shown ever since. */
  lemma ReadExactly(retention: int, evs: seq<Event>, n: NodeKey)
    requires AllListed(evs)
    requires n in Browse(retention, evs).nodes && n in Pictured(retention, evs + [Read])
    ensures var pic, machine := Pictured(retention, evs), Browse(retention, evs).nodes[n].machine;
            Pictured(retention, evs + [Read])[n] == machine <==>
            n !in pic || pic[n] == machine || EverMoved(retention, evs, n)
  {
    PicturedSnoc(retention, evs, Read);
    ShownIsNotRemoved(retention, evs);
    TouchedExactly(retention, evs, n);
  }

  /** The reader shows the node where it is, or will with the next read. */
  predicate Agreed(retention: int, evs: seq<Event>, n: NodeKey) {
    var c, pic := Browse(retention, evs), Pictured(retention, evs);
    n in c.nodes && n in pic && (n in c.touchedNodes || pic[n] == c.nodes[n].machine)
  }

  lemma AgreedStep(retention: int, evs: seq<Event>, ev: Event, n: NodeKey)
    requires AllListed(evs) && Listed(ev) && !ev.Snap? && Agreed(retention, evs, n)
    requires n in Browse(retention, evs + [ev]).nodes
    ensures Agreed(retention, evs + [ev], n)
    ensures ev.Read? ==>
              Pictured(retention, evs + [ev])[n] == Browse(retention, evs + [ev]).nodes[n].machine
  {
    var c := Browse(retention, evs);
    BrowseSnoc(retention, evs, ev);
    PicturedSnoc(retention, evs, ev);
    TouchedExactly(retention, evs, n);
    ShownIsNotRemoved(retention, evs);
    if ev.Tock? {
      TickTouched(c, ev.t, n, EdgeKey(n, n, "", 0));
    }
  }

  /** Only ticks and reads follow, and the node stays. */
  predicate StaysShown(retention: int, evs: seq<Event>, more: seq<Event>, n: NodeKey)
    decreases more
  {
    more == [] ||
    (&& StaysShown(retention, evs, more[..|more| - 1], n)
     && Listed(more[|more| - 1]) && !more[|more| - 1].Snap? && n in Browse(retention, evs + more).nodes)
  }

  lemma ListedSnoc(evs: seq<Event>, ev: Event)
    requires AllListed(evs) && Listed(ev)
    ensures AllListed(evs + [ev])
  {
  }

  /** While only ticks come and the node stays, every read shows it where it is. */
  lemma {:induction false} PictureStays(retention: int, evs: seq<Event>, more: seq<Event>, n: NodeKey)
    requires AllListed(evs) && Agreed(retention, evs, n) && StaysShown(retention, evs, more, n)
    ensures AllListed(evs + more) && Agreed(retention, evs + more, n)
    ensures more != [] && more[|more| - 1].Read? ==>
              Pictured(retention, evs + more)[n] == Browse(retention, evs + more).nodes[n].machine
    decreases more
  {
    if more == [] {
      assert evs + more == evs;
    } else {
      var init, ev := more[..|more| - 1], more[|more| - 1];
      assert evs + more == evs + init + [ev];
      PictureStays(retention, evs, init, n);
      ListedSnoc(evs + init, ev);
      AgreedStep(retention, evs + init, ev, n);
    }
  }

  /** A snapshot hides a move: a node that is shown and that the snapshot lists keeps the
      machine it is shown on, even one it was about to be moved from. So it is shown where
      it is exactly if the snapshot lists it where it is shown. */
  lemma SnapshotHidesMove(retention: int, evs: seq<Event>, s: Snapshot, i: nat)
    requires AllListed(evs) && G.DistinctNodes(s.nodes) && i < |s.nodes|
    requires s.nodes[i].id in Pictured(retention, evs)
    requires s.nodes[i].id in Browse(retention, evs).nodes
    ensures var n, evs' := s.nodes[i].id, evs + [Snap(s)] + [Read];
            && n in Pictured(retention, evs') && n in Browse(retention, evs').nodes
            && Pictured(retention, evs')[n] == Pictured(retention, evs)[n]
            && Browse(retention, evs').nodes[n].machine == s.nodes[i].machine
  {
    var n, c := s.nodes[i].id, Browse(retention, evs);
    BrowseSnoc(retention, evs, Snap(s));
    BrowseSnoc(retention, evs + [Snap(s)], Read);
    PicturedSnoc(retention, evs, Snap(s));
    PicturedSnoc(retention, evs + [Snap(s)], Read);
    SnapshotTouched(c, s);
    SnapshotMachine(c, s, i);
    ShownIsNotRemoved(retention, evs + [Snap(s)]);
  }

  lemma SnapshotMachine(c: Replica, s: Snapshot, i: nat)
    requires G.DistinctNodes(s.nodes) && i < |s.nodes|
    ensures s.nodes[i].id in ApplySnapshot(c, s).nodes
    ensures ApplySnapshot(c, s).nodes[s.nodes[i].id].machine == s.nodes[i].machine
  {
    UpsertNodesAt(Cleared(c), s.nodes, i);
    SnapEdgesTouched(UpsertNodes(Cleared(c), s.nodes), s.edges);
  }

  /** It happens: a pod that moves between two snapshots is shown on its old machine. */
  lemma MovedUnseen(n: NodeKey, before: WireNode, after: WireNode)
    requires before.id == after.id == n && before.machine != after.machine
    ensures var first, second := Snapshot(0, [before], []), Snapshot(0, [after], []);
            var evs := [Snap(first)] + [Read] + [Snap(second)] + [Read];
            && n in Pictured(10, evs) && n in Browse(10, evs).nodes
            && Pictured(10, evs)[n] == before.machine && Browse(10, evs).nodes[n].machine == after.machine
  {
    var first, second := Snapshot(0, [before], []), Snapshot(0, [after], []);
    var one: seq<Event> := [Snap(first)];
    assert [] + one == one;
    BrowseSnoc(10, [], Snap(first));
    PicturedSnoc(10, [], Snap(first));
    BrowseSnoc(10, one, Read);
    PicturedSnoc(10, one, Read);
    SnapshotMachine(New(10), first, 0);
    SnapshotHidesMove(10, one + [Read], second, 0);
  }
}
