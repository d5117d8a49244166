/** The messages of the server (internal/graph/graph.go): how their lists grow entry by entry,
    and that every state has its tick and its snapshot. */
module Messages {
  import opened Wire
  import opened Rings
  import opened GraphModel
  import opened GraphInvariants

  // ---------- lists, entry by entry ----------

  lemma ElementsAppend<T>(xs: seq<T>, x: T)
    ensures Elements(xs + [x]) == Elements(xs) + {x}
  {
  }

  lemma OneLess<T>(all: set<T>, todo: set<T>, x: T)
    requires x !in todo
    ensures x in all ==> all - todo == all - (todo + {x}) + {x}
    ensures x !in all ==> all - todo == all - (todo + {x})
  {
  }

  ghost predicate TotalsSoFar(s: State, now: int, es: seq<WireEdge>, todo: set<EdgeKey>) {
    && todo <= s.edges.Keys
    && EdgeIds(es) == s.edges.Keys - todo && DistinctEdges(es)
    && forall i :: 0 <= i < |es| ==> IsTotal(s, now, es[i])
  }

  lemma TotalsAppend(s: State, now: int, es: seq<WireEdge>, todo: set<EdgeKey>, k: EdgeKey, bs: seq<Bucket>)
    requires k in s.edges && k !in todo && TotalsSoFar(s, now, es, todo + {k})
    requires IsSparse(s.edges[k].ring, Since(s, now), bs)
    ensures var e := s.edges[k];
            var w := WireEdge(k, k.src, k.dst, e.counts, Millis(e.last), e.l7, e.drops, bs);
            TotalsSoFar(s, now, es + [w], todo)
  {
    var e := s.edges[k];
    var w := WireEdge(k, k.src, k.dst, e.counts, Millis(e.last), e.l7, e.drops, bs);
    assert IsTotal(s, now, w);
    EdgeIdsAppend(es, w);
    OneLess(s.edges.Keys, todo, k);
  }

  predicate IncrementsSoFar(s: State, es: seq<WireEdge>, todo: set<EdgeKey>) {
    && todo <= s.dirty.Keys
    && EdgeIds(es) == s.dirty.Keys - todo && DistinctEdges(es)
    && forall i :: 0 <= i < |es| ==> IsIncrement(s, es[i])
  }

  lemma IncrementsAppend(s: State, es: seq<WireEdge>, todo: set<EdgeKey>, k: EdgeKey, w: WireEdge)
    requires k in s.edges && k in s.dirty && k !in todo && IncrementsSoFar(s, es, todo + {k})
    requires w == EdgeJson(s, k, s.dirty[k], k in s.dirtyL7)
    ensures IncrementsSoFar(s, es + [w], todo)
  {
    EdgeIdsAppend(es, w);
    OneLess(s.dirty.Keys, todo, k);
  }

  lemma NodeIdsAppend(ns: seq<WireNode>, w: WireNode)
    ensures NodeIds(ns + [w]) == NodeIds(ns) + {w.id}
    ensures DistinctNodes(ns) && w.id !in NodeIds(ns) ==> DistinctNodes(ns + [w])
  {
    var ms := ns + [w];
    forall k | k in NodeIds(ns) + {w.id} ensures k in NodeIds(ms) {
      if k in NodeIds(ns) {
        var i :| 0 <= i < |ns| && ns[i].id == k;
        assert ms[i].id == k;
      } else {
        assert ms[|ns|].id == k;
      }
    }
  }

  lemma EdgeIdsAppend(es: seq<WireEdge>, w: WireEdge)
    ensures EdgeIds(es + [w]) == EdgeIds(es) + {w.id}
    ensures DistinctEdges(es) && w.id !in EdgeIds(es) ==> DistinctEdges(es + [w])
  {
    var ms := es + [w];
    forall k | k in EdgeIds(es) + {w.id} ensures k in EdgeIds(ms) {
      if k in EdgeIds(es) {
        var i :| 0 <= i < |es| && es[i].id == k;
        assert ms[i].id == k;
      } else {
        assert ms[|es|].id == k;
      }
    }
  }

  predicate NodesSoFar(s: State, ns: seq<WireNode>, all: set<NodeKey>, todo: set<NodeKey>) {
    && all <= s.nodes.Keys && todo <= all
    && ListsNodes(s, all - todo, ns)
  }

  lemma NodesAppend(s: State, ns: seq<WireNode>, all: set<NodeKey>, todo: set<NodeKey>, k: NodeKey)
    requires k in s.nodes && k !in todo && NodesSoFar(s, ns, all, todo + {k})
    ensures NodesSoFar(s, ns + [NodeJson(s, k)], all, todo)
  {
    NodeIdsAppend(ns, NodeJson(s, k));
    OneLess(all, todo, k);
  }

  // ---------- every state has its messages ----------

  lemma {:induction false} ListNodes(s: State, all: set<NodeKey>, todo: set<NodeKey>) returns (ns: seq<WireNode>)
    requires all <= s.nodes.Keys && todo <= all
    ensures NodesSoFar(s, ns, all, todo)
    decreases all - todo
  {
    if all - todo == {} {
      ns := [];
    } else {
      var k :| k in all - todo;
      ns := ListNodes(s, all, todo + {k});
      NodesAppend(s, ns, all, todo, k);
      ns := ns + [NodeJson(s, k)];
    }
  }

  lemma {:induction false} ListIncrements(s: State, todo: set<EdgeKey>) returns (es: seq<WireEdge>)
    requires PendingExists(s) && todo <= s.dirty.Keys
    ensures IncrementsSoFar(s, es, todo)
    decreases s.dirty.Keys - todo
  {
    if s.dirty.Keys - todo == {} {
      es := [];
    } else {
      var k :| k in s.dirty.Keys - todo;
      es := ListIncrements(s, todo + {k});
      var w := EdgeJson(s, k, s.dirty[k], k in s.dirtyL7);
      IncrementsAppend(s, es, todo, k, w);
      es := es + [w];
    }
  }

  lemma {:induction false} ListTotals(s: State, now: int, todo: set<EdgeKey>) returns (es: seq<WireEdge>)
    requires todo <= s.edges.Keys
    ensures TotalsSoFar(s, now, es, todo)
    decreases s.edges.Keys - todo
  {
    if s.edges.Keys - todo == {} {
      es := [];
    } else {
      var k :| k in s.edges.Keys - todo;
      es := ListTotals(s, now, todo + {k});
      var e := s.edges[k];
      var bs := ListSeconds(e.ring, Since(s, now));
      TotalsAppend(s, now, es, todo, k, bs);
      es := es + [WireEdge(k, k.src, k.dst, e.counts, Millis(e.last), e.l7, e.drops, bs)];
    }
  }

  lemma {:induction false} ListElements<T>(all: set<T>) returns (xs: seq<T>)
    ensures Elements(xs) == all
    decreases all
  {
    if all == {} {
      xs := [];
    } else {
      var x :| x in all;
      xs := ListElements(all - {x});
      ElementsAppend(xs, x);
      xs := xs + [x];
    }
  }

  lemma {:induction false} Insert(bs: seq<Bucket>, x: Bucket) returns (out: seq<Bucket>)
    requires Increasing(bs) && forall b :: b in bs ==> b.sec != x.sec
    ensures Increasing(out)
    ensures forall b :: b in out <==> b in bs || b == x
    decreases bs
  {
    if bs == [] || bs[|bs| - 1].sec < x.sec {
      out := bs + [x];
    } else {
      var init, last := bs[..|bs| - 1], bs[|bs| - 1];
      assert bs == init + [last];
      assert last in bs;
      out := Insert(init, x);
      forall i | 0 <= i < |out| ensures out[i].sec < last.sec {
        assert out[i] in out;
      }
      out := out + [last];
    }
  }

  /** `bs` lists the seconds after `since` that the first `n` slots count something in. */
  ghost predicate IsSparseUpTo(r: LiveRing, since: int, n: nat, bs: seq<Bucket>) {
    && Increasing(bs)
    && forall b: Bucket :: b in bs <==>
         Slot(b.sec, |r.epoch|) < n && since < b.sec && b.counts != ZERO && r.At(b.sec) == b.counts
  }

  lemma {:induction false} ListSlots(r: LiveRing, since: int, n: nat) returns (bs: seq<Bucket>)
    requires n <= |r.epoch|
    ensures IsSparseUpTo(r, since, n, bs)
    decreases n
  {
    bs := [];
    if n > 0 {
      bs := ListSlots(r, since, n - 1);
      var x := Bucket(r.epoch[n - 1], r.counts[n - 1]);
      if since < x.sec && x.counts != ZERO {
        assert Slot(x.sec, |r.epoch|) == n - 1;
        var was := bs;
        bs := Insert(bs, x);
        forall b: Bucket ensures b in bs <==>
            Slot(b.sec, |r.epoch|) < n && since < b.sec && b.counts != ZERO && r.At(b.sec) == b.counts
        {
          assert b in bs <==> b in was || b == x;
        }
      }
    }
  }

  lemma ListSeconds(r: LiveRing, since: int) returns (bs: seq<Bucket>)
    ensures IsSparse(r, since, bs)
  {
    bs := ListSlots(r, since, |r.epoch|);
  }

  /** Every state has a snapshot, and every state with its pending sets in order a tick. */
  lemma SnapshotExists(s: State, now: int) returns (snap: Snapshot)
    ensures IsSnapshot(s, now, snap)
  {
    var ns := ListNodes(s, s.nodes.Keys, {});
    var es := ListTotals(s, now, {});
    assert s.nodes.Keys - {} == s.nodes.Keys && s.edges.Keys - {} == s.edges.Keys;
    snap := Snapshot(Millis(now), ns, es);
  }

  lemma TickExists(s: State, now: int) returns (t: Tick)
    requires PendingExists(s)
    ensures IsTick(s, now, t)
  {
    var all := s.newNodes + s.dirtyNode;
    var ns := ListNodes(s, all, {});
    var es := ListIncrements(s, {});
    assert all - {} == all && s.dirty.Keys - {} == s.dirty.Keys;
    var gn := ListElements(s.goneNodes);
    var ge := ListElements(s.goneEdges);
    t := Tick(Millis(now), ns, es, gn, ge);
  }
}
