/** The graph as the program keeps it (internal/graph/graph.go, internal/graph/key.go):
    fields updated in place under one mutex. Every method is proved to take the state to
    what `GraphModel` says, so every result about that model is about these fields. */
module Graph {
  import opened Wire
  import opened Rings
  import opened Placement
  import opened Endpoints
  import opened GraphModel
  import opened GraphSteps
  import opened GraphInvariants
  import opened Messages
  import ServerRing

  class Graph {
    const retention: Retention
    var nodes: map<NodeKey, Node>
    var edges: map<EdgeKey, Edge>
    var newNodes: set<NodeKey>
    var dirtyNode: set<NodeKey>
    var dirty: map<EdgeKey, Counts>
    var dirtyL7: set<EdgeKey>
    var goneNodes: seq<NodeKey>
    var goneEdges: seq<EdgeKey>
    var nodeIPs: map<string, string>

    ghost function Value(): State
      reads this
    {
      State(retention, nodes, edges, newNodes, dirtyNode, dirty, dirtyL7,
            Elements(goneNodes), Elements(goneEdges), nodeIPs)
    }

    ghost predicate Valid()
      reads this
    {
      WellFormed(Value())
    }

    constructor (retention: int)
      ensures Valid() && Value() == New(retention)
    {
      this.retention := if retention < 10 * SECOND then 10 * SECOND else retention;
      nodes, edges := map[], map[];
      newNodes, dirtyNode, dirty, dirtyL7 := {}, {}, map[], {};
      goneNodes, goneEdges := [], [];
      nodeIPs := map[];
      new;
      assert Value() == New(retention);
      NewWellFormed(retention);
    }

    // ---------- deletion ----------

    /** The body both deletion loops share: one conversation leaves, its ends lose a degree. */
    method DropEdge(e: EdgeKey)
      requires e.src in nodes && e.dst in nodes
      modifies this`nodes, this`edges, this`dirty, this`dirtyL7, this`goneEdges
      ensures Value() == CutOne(old(Value()), e)
    {
      edges := edges - {e};
      dirty := dirty - {e};
      dirtyL7 := dirtyL7 - {e};
      nodes := nodes[e.src := nodes[e.src].(edges := nodes[e.src].edges - 1)];
      nodes := nodes[e.dst := nodes[e.dst].(edges := nodes[e.dst].edges - 1)];
      ElementsAppend(goneEdges, e);
      goneEdges := goneEdges + [e];
    }

    /** The anchor of a named address leaves with its conversations; the loop visits the
        conversations in any order. */
    method RetireAddress(ip: string)
      requires EndpointsExist(Value())
      modifies this`nodes, this`edges, this`dirty, this`dirtyL7, this`goneEdges
      modifies this`dirtyNode, this`newNodes, this`goneNodes
      ensures Value() == Retire(old(Value()), ip)
    {
      var id := Anchor(ip);
      if id !in nodes {
        return;
      }
      ghost var s := Value();
      ghost var gone := Incident(s.edges.Keys, id);
      ghost var order: seq<EdgeKey> := [];
      var todo := edges.Keys;
      while todo != {}
        invariant Visited(s, gone, order, todo) && Value() == CutSeq(s, order)
        decreases todo
      {
        var e :| e in todo;
        todo := todo - {e};
        VisitedStep(s, gone, order, todo, e);
        if e.src == id || e.dst == id {
          DropEdge(e);
          order := order + [e];
        }
      }
      CutSeqIsCut(s, gone, order);
      DropNode(id);
      DropOneIsDrop(CutEdges(s, gone), id);
    }

    method DropNode(n: NodeKey)
      modifies this`nodes, this`dirtyNode, this`newNodes, this`goneNodes
      ensures Value() == DropOne(old(Value()), n)
    {
      nodes := nodes - {n};
      dirtyNode := dirtyNode - {n};
      if n in newNodes {
        newNodes := newNodes - {n};
      } else {
        ElementsAppend(goneNodes, n);
        goneNodes := goneNodes + [n];
      }
    }

    method LearnMachine(ip: string, machine: string)
      requires EndpointsExist(Value())
      modifies this
      ensures Value() == Learn(old(Value()), ip, machine)
    {
      if ip == "" || machine == "" {
        return;
      }
      if ip in nodeIPs && nodeIPs[ip] == machine {
        return;
      }
      nodeIPs := nodeIPs[ip := machine];
      assert Value() == Name(old(Value()), ip, machine);
      RetireAddress(ip);
    }

    /** Addresses learned from outside the flow stream, in any order. */
    method LearnMachines(addrs: seq<Address>)
      requires Valid()
      modifies this
      ensures Valid()
      ensures Value() == LearnAll(old(Value()), addrs)
    {
      ghost var s := Value();
      assert addrs[..0] == [];
      for i := 0 to |addrs|
        invariant Value() == LearnAll(s, addrs[..i]) && EndpointsExist(Value())
      {
        assert addrs[..i + 1][..i] == addrs[..i];
        LearnEndpoints(Value(), addrs[i].ip, addrs[i].machine);
        LearnMachine(addrs[i].ip, addrs[i].machine);
      }
      assert addrs[..|addrs|] == addrs;
      LearnAllWellFormed(s, addrs);
    }

    // ---------- flows ----------

    /** The node of one side of a flow. A host names its machine on the way. */
    method EndpointKey(side: Side, observer: string) returns (k: NodeKey)
      requires EndpointsExist(Value())
      modifies this
      ensures Value() == AfterSide(old(Value()), side, observer)
      ensures k == KeyOf(side, observer, old(nodeIPs))
    {
      if !side.known {
        return NodeKey(UNKNOWN, "ip", side.ip);
      }
      if side.ns != "" {
        if side.workload.Some? && side.workload.value.name != "" {
          var kind, name := side.workload.value.kind, side.workload.value.name;
          if kind == "ReplicaSet" {
            kind, name := "Deployment", StripHash(name);
          }
          return NodeKey(side.ns, kind, name);
        }
        if side.pod != "" {
          return NodeKey(side.ns, "Pod", side.pod);
        }
        return NodeKey(side.ns, "Namespace", side.ns);
      }
      var reserved, cidr := ScanLabels(side.labels);
      if reserved == "" {
        if cidr != "" {
          return NodeKey(RESERVED, WORLD, cidr);
        }
      } else if IsWorld(reserved) {
        var name := WORLD;
        if |side.names| > 0 {
          name := side.names[0];
        } else if cidr != "" {
          name := cidr;
        }
        return NodeKey(RESERVED, WORLD, name);
      } else if reserved == HOST {
        if observer != "" {
          LearnMachine(side.ip, observer);
          return NodeKey(RESERVED, "node", observer);
        }
        return NodeKey(RESERVED, HOST, HOST);
      } else if reserved == REMOTE_NODE {
        if side.ip in nodeIPs {
          return NodeKey(RESERVED, "node", nodeIPs[side.ip]);
        }
        if side.ip != "" {
          return Anchor(side.ip);
        }
        return Anchor(REMOTE_NODE);
      } else {
        return NodeKey(RESERVED, reserved, reserved);
      }
      return NodeKey(UNKNOWN, "ip", side.ip);
    }

    method TouchNode(k: NodeKey, t: int)
      modifies this`nodes, this`newNodes
      ensures Value() == Touch(old(Value()), k, t)
    {
      if k !in nodes {
        nodes := nodes[k := Node(t, ZERO_TIME, 0, NOWHERE)];
        newNodes := newNodes + {k};
      }
      if t > nodes[k].last {
        nodes := nodes[k := nodes[k].(last := t)];
      }
    }

    method PlaceOnMachine(k: NodeKey, machine: string)
      requires k in nodes
      modifies this`nodes, this`dirtyNode
      ensures Value() == PlaceOn(old(Value()), k, machine)
    {
      if machine == "" || k.ns == RESERVED || k.ns == UNKNOWN {
        return;
      }
      var p := nodes[k].placed;
      var n := (if machine in p.machines then p.machines[machine] else 0) + 1;
      p := p.(machines := p.machines[machine := n]);
      var leader := if p.machine in p.machines then p.machines[p.machine] else 0;
      if n > leader || p.machine == "" {
        if p.machine != machine {
          p := p.(machine := machine);
          if k !in newNodes {
            dirtyNode := dirtyNode + {k};
          }
        }
      }
      assert p == Place(old(nodes)[k].placed, machine);
      nodes := nodes[k := nodes[k].(placed := p)];
    }

    /** A conversation with one more flow. */
    method Increased(old_e: Edge, f: Flow, v: Verdict) returns (e: Edge)
      ensures e == Bump(old_e, f, v)
    {
      e := old_e.(counts := old_e.counts.Plus(Unit(v)));
      if f.time > e.last {
        e := e.(last := f.time);
      }
      e := e.(ring := Add(e.ring, Seconds(f.time), Unit(v)));
      e := e.(drops := NewDrops(e.drops, f), l7 := NewL7(e.l7, f));
    }

    /** The conversation as it is, or a new one that raises the degree of its ends. */
    method FindOrOpen(ek: EdgeKey) returns (e: Edge)
      requires ek.src in nodes && ek.dst in nodes
      modifies this`nodes
      ensures e == if ek in edges then edges[ek] else FreshEdge(old(Value()))
      ensures nodes == if ek in edges then old(nodes) else OneMoreEdge(OneMoreEdge(old(nodes), ek.src), ek.dst)
    {
      if ek in edges {
        e := edges[ek];
      } else {
        e := Edge(ZERO, ZERO_TIME, map[], NO_L7, Fresh(retention / SECOND, SERVER_UNTOUCHED));
        nodes := nodes[ek.src := nodes[ek.src].(edges := nodes[ek.src].edges + 1)];
        nodes := nodes[ek.dst := nodes[ek.dst].(edges := nodes[ek.dst].edges + 1)];
      }
    }

    /** Counts a flow on its conversation. */
    method Count(ek: EdgeKey, f: Flow, v: Verdict)
      requires ek.src in nodes && ek.dst in nodes
      modifies this`nodes, this`edges, this`dirty, this`dirtyL7
      ensures Value() == Record(old(Value()), ek, f, v)
    {
      ghost var s := Value();
      var e := FindOrOpen(ek);
      e := Increased(e, f, v);
      assert e == NextEdge(s, ek, f, v);
      Put(ek, e, v, HasDetail(f), s);
      RecordIsStore(s, ek, f, v);
    }

    method Put(ek: EdgeKey, e: Edge, v: Verdict, detail: bool, ghost s: State)
      requires ek.src in s.nodes && ek.dst in s.nodes
      requires Value() ==
               s.(nodes := if ek in s.edges then s.nodes else OneMoreEdge(OneMoreEdge(s.nodes, ek.src), ek.dst))
      modifies this`edges, this`dirty, this`dirtyL7
      ensures Value() == Store(s, ek, e, v, detail)
    {
      if detail {
        dirtyL7 := dirtyL7 + {ek};
      }
      var d := if ek in dirty then dirty[ek] else ZERO;
      dirty := dirty[ek := d.Plus(Unit(v))];
      edges := edges[ek := e];
    }

    /** The part of a flow after its nodes are known. */
    method Converse(src: NodeKey, dst: NodeKey, f: Flow, v: Verdict)
      requires src != dst && VerdictCode(f.verdict) == Some(v)
      modifies this
      ensures Value() == Record(Prepared(old(Value()), src, dst, f), EdgeKey(src, dst, f.proto, f.port), f, v)
    {
      ghost var s := Value();
      TouchNode(src, f.time);
      TouchNode(dst, f.time);
      assert Value() == Touched(s, src, dst, f);
      if f.direction.Egress? {
        PlaceOnMachine(src, f.observer);
      } else if f.direction.Ingress? {
        PlaceOnMachine(dst, f.observer);
      }
      assert Value() == Prepared(s, src, dst, f);
      Count(EdgeKey(src, dst, f.proto, f.port), f, v);
    }

    method Admit(f: Flow) returns (r: Result)
      requires EndpointsExist(Value())
      requires Accepted(f) ==> 0 <= f.time
      modifies this
      ensures Value() == GraphModel.Ingest(old(Value()), f)
      ensures r == IngestResult(old(Value()), f)
    {
      ghost var s := Value();
      if f.reply {
        return Skipped("reply");
      }
      var code := VerdictCode(f.verdict);
      if code.None? {
        return Skipped("verdict");
      }
      if f.time == ZERO_TIME {
        return Skipped("time");
      }
      AfterSideEndpoints(s, f.src, f.observer);
      var src := EndpointKey(f.src, f.observer);
      var dst := EndpointKey(f.dst, f.observer);
      assert src == SrcKey(s, f) && dst == DstKey(s, f) && Value() == Resolved(s, f);
      if src == dst {
        return Skipped("self");
      }
      Converse(src, dst, f, code.value);
      return Counted(EdgeKey(src, dst, f.proto, f.port), code.value);
    }

    /** One flow. A flow before 1970 would index the ring with a negative number. */
    method Ingest(f: Flow) returns (r: Result)
      requires Valid()
      requires Accepted(f) ==> 0 <= f.time
      modifies this
      ensures Valid()
      ensures Value() == GraphModel.Ingest(old(Value()), f)
      ensures r == IngestResult(old(Value()), f)
    {
      ghost var s := Value();
      r := Admit(f);
      IngestedWellFormed(s, f, Value());
    }

    // ---------- messages ----------

    /** Appends the entries of some nodes, in any order. */
    method AppendNodes(known: seq<WireNode>, ids: set<NodeKey>) returns (ns: seq<WireNode>)
      requires ListsNodes(Value(), NodeIds(known), known)
      requires ids !! NodeIds(known) && ids <= nodes.Keys
      ensures ListsNodes(Value(), NodeIds(known) + ids, ns)
    {
      ghost var s := Value();
      ghost var all := NodeIds(known) + ids;
      ns := known;
      var todo := ids;
      while todo != {}
        invariant s == Value() && NodesSoFar(s, ns, all, todo)
        decreases todo
      {
        var k :| k in todo;
        todo := todo - {k};
        var n := nodes[k];
        NodesAppend(s, ns, all, todo, k);
        ns := ns + [WireNode(k, n.placed.machine, Millis(n.first), Millis(n.last))];
      }
    }

    /** The increments of every pending conversation, in any order. */
    method ListDirty() returns (es: seq<WireEdge>)
      requires PendingExists(Value())
      ensures ListsIncrements(Value(), es)
    {
      ghost var s := Value();
      es := [];
      var todo := dirty.Keys;
      while todo != {}
        invariant s == Value() && IncrementsSoFar(s, es, todo)
        decreases todo
      {
        var k :| k in todo;
        todo := todo - {k};
        var e, withL7 := edges[k], k in dirtyL7;
        var w := WireEdge(k, k.src, k.dst, dirty[k], Millis(e.last),
                          if withL7 then e.l7 else NO_L7, if withL7 then e.drops else map[], []);
        IncrementsAppend(s, es, todo, k, w);
        es := es + [w];
      }
    }

    /** The totals, details and recent seconds of every conversation, in any order. */
    method ListEdges(now: int) returns (es: seq<WireEdge>)
      ensures ListsTotals(Value(), now, es)
    {
      ghost var s := Value();
      var since := Seconds(now - retention);
      es := [];
      var todo := edges.Keys;
      while todo != {}
        invariant s == Value() && TotalsSoFar(s, now, es, todo)
        decreases todo
      {
        var k :| k in todo;
        todo := todo - {k};
        var e := edges[k];
        var bs := ServerRing.SparseSlots(e.ring, since);
        TotalsAppend(s, now, es, todo, k, bs);
        es := es + [WireEdge(k, k.src, k.dst, e.counts, Millis(e.last), e.l7, e.drops, bs)];
      }
    }

    method Snapshot(now: int) returns (snap: Wire.Snapshot)
      ensures IsSnapshot(Value(), now, snap)
    {
      assert NodeIds([]) == {};
      var ns := AppendNodes([], nodes.Keys);
      assert {} + nodes.Keys == nodes.Keys;
      var es := ListEdges(now);
      snap := Wire.Snapshot(Millis(now), ns, es);
    }

    /** The first loop of a tick. */
    method ExpireEdges(cutoff: int)
      requires EndpointsExist(Value())
      modifies this`nodes, this`edges, this`dirty, this`dirtyL7, this`goneEdges
      ensures Value() == CutEdges(old(Value()), Idle(old(Value()), cutoff))
    {
      ghost var s := Value();
      ghost var gone := Idle(s, cutoff);
      ghost var order: seq<EdgeKey> := [];
      var todo := edges.Keys;
      while todo != {}
        invariant Visited(s, gone, order, todo) && Value() == CutSeq(s, order)
        decreases todo
      {
        var e :| e in todo;
        todo := todo - {e};
        VisitedStep(s, gone, order, todo, e);
        if edges[e].last < cutoff {
          DropEdge(e);
          order := order + [e];
        }
      }
      CutSeqIsCut(s, gone, order);
    }

    /** The second loop of a tick. */
    method ExpireNodes(cutoff: int)
      modifies this`nodes, this`dirtyNode, this`newNodes, this`goneNodes
      ensures Value() == DropNodes(old(Value()), Dead(old(Value()), cutoff))
    {
      ghost var s := Value();
      ghost var dead := Dead(s, cutoff);
      ghost var order: seq<NodeKey> := [];
      var todo := nodes.Keys;
      while todo != {}
        invariant NodesVisited(s, dead, order, todo) && Value() == DropSeq(s, order)
        decreases todo
      {
        var n :| n in todo;
        todo := todo - {n};
        NodesVisitedStep(s, dead, order, todo, n);
        if nodes[n].edges <= 0 && nodes[n].last < cutoff {
          DropNode(n);
          order := order + [n];
        }
      }
      DropSeqIsDrop(s, dead, order);
    }

    /** The message with everything that changed. */
    method Delta(now: int) returns (t: Wire.Tick)
      requires PendingExists(Value())
      ensures IsTick(Value(), now, t)
    {
      assert NodeIds([]) == {};
      var news := AppendNodes([], newNodes);
      assert {} + newNodes == newNodes;
      var ns := AppendNodes(news, dirtyNode - newNodes);
      assert newNodes + (dirtyNode - newNodes) == newNodes + dirtyNode;
      var es := ListDirty();
      t := Wire.Tick(Millis(now), ns, es, goneNodes, goneEdges);
    }

    method ExpireIdle(cutoff: int)
      requires EndpointsExist(Value())
      modifies this`nodes, this`edges, this`dirty, this`dirtyL7, this`goneEdges
      modifies this`dirtyNode, this`newNodes, this`goneNodes
      ensures Value() == ExpireBefore(old(Value()), cutoff)
    {
      ExpireEdges(cutoff);
      ExpireNodes(cutoff);
    }

    method Forget()
      modifies this
      ensures Value() == Flush(old(Value()))
    {
      newNodes, dirtyNode, dirty, dirtyL7 := {}, {}, map[], {};
      goneNodes, goneEdges := [], [];
    }

    /** Expiry, the message with everything that changed, and a clean slate. */
    method Tick(now: int) returns (t: Wire.Tick)
      requires Valid()
      modifies this
      ensures Valid() && NothingPending(Value())
      ensures IsTick(Expire(old(Value()), now), now, t)
      ensures Value() == AfterTick(old(Value()), now)
    {
      ExpirePending(Value(), now);
      AfterTickWellFormed(Value(), now);
      var cutoff := now - retention;
      assert cutoff == Cutoff(Value(), now);
      ExpireIdle(cutoff);
      t := Delta(now);
      Forget();
    }
  }

  // ---------- lemmas for the loops ----------

  lemma IngestedWellFormed(s: State, f: Flow, s': State)
    requires WellFormed(s) && s' == GraphModel.Ingest(s, f)
    ensures WellFormed(s')
  {
    IngestWellFormed(s, f);
  }

  lemma LearnEndpoints(s: State, ip: string, machine: string)
    requires EndpointsExist(s)
    ensures EndpointsExist(Learn(s, ip, machine))
  {
  }

  lemma AfterSideEndpoints(s: State, side: Side, observer: string)
    requires EndpointsExist(s)
    ensures EndpointsExist(AfterSide(s, side, observer))
  {
  }

  lemma ExpirePending(s: State, now: int)
    requires WellFormed(s)
    ensures EndpointsExist(s) && PendingExists(Expire(s, now))
  {
  }

  lemma RecordIsStore(s: State, ek: EdgeKey, f: Flow, v: Verdict)
    requires ek.src in s.nodes && ek.dst in s.nodes
    ensures Record(s, ek, f, v) == Store(s, ek, NextEdge(s, ek, f, v), v, HasDetail(f))
  {
  }

  // ---------- cutting one conversation at a time ----------

  function OneLessEdge(nodes: map<NodeKey, Node>, k: NodeKey): map<NodeKey, Node>
    requires k in nodes
  {
    nodes[k := nodes[k].(edges := nodes[k].edges - 1)]
  }

  function CutOne(s: State, e: EdgeKey): State
    requires e.src in s.nodes && e.dst in s.nodes
  {
    s.(edges := s.edges - {e}, dirty := s.dirty - {e}, dirtyL7 := s.dirtyL7 - {e},
       nodes := OneLessEdge(OneLessEdge(s.nodes, e.src), e.dst), goneEdges := s.goneEdges + {e})
  }

  predicate Cuttable(s: State, order: seq<EdgeKey>) {
    forall i :: 0 <= i < |order| ==> order[i].src in s.nodes && order[i].dst in s.nodes && order[i].src != order[i].dst
  }

  function CutSeq(s: State, order: seq<EdgeKey>): (s': State)
    requires Cuttable(s, order)
    ensures s'.nodes.Keys == s.nodes.Keys
    decreases order
  {
    if order == [] then s else CutOne(CutSeq(s, order[..|order| - 1]), order[|order| - 1])
  }

  /** The loop has dropped, in this order, the members of `gone` it has seen. */
  predicate Visited(s: State, gone: set<EdgeKey>, order: seq<EdgeKey>, todo: set<EdgeKey>) {
    && Cuttable(s, order)
    && todo <= s.edges.Keys && gone <= s.edges.Keys
    && Elements(order) == gone - todo
    && (forall i, j :: 0 <= i < j < |order| ==> order[i] != order[j])
  }

  lemma CutSeqStep(s: State, order: seq<EdgeKey>, e: EdgeKey)
    requires Cuttable(s, order) && EndpointsExist(s) && e in s.edges && e !in order
    ensures Cuttable(s, order + [e])
    ensures CutSeq(s, order + [e]) == CutOne(CutSeq(s, order), e)
    ensures e in CutSeq(s, order).edges && CutSeq(s, order).edges[e] == s.edges[e]
    ensures Elements(order + [e]) == Elements(order) + {e}
  {
    assert (order + [e])[..|order|] == order;
    CutSeqEdges(s, order);
  }

  lemma VisitedStep(s: State, gone: set<EdgeKey>, order: seq<EdgeKey>, todo: set<EdgeKey>, e: EdgeKey)
    requires EndpointsExist(s) && e in s.edges && e !in todo && Visited(s, gone, order, todo + {e})
    ensures e.src in s.nodes && e.dst in s.nodes
    ensures e in CutSeq(s, order).edges && CutSeq(s, order).edges[e] == s.edges[e]
    ensures if e in gone then Visited(s, gone, order + [e], todo) else Visited(s, gone, order, todo)
    ensures e in gone ==> CutSeq(s, order + [e]) == CutOne(CutSeq(s, order), e)
  {
    assert e !in Elements(order);
    CutSeqStep(s, order, e);
    OneLess(gone, todo, e);
  }

  lemma {:induction false} CutSeqEdges(s: State, order: seq<EdgeKey>)
    requires Cuttable(s, order)
    ensures CutSeq(s, order).edges == s.edges - Elements(order)
    decreases order
  {
    if order != [] {
      var init, e := order[..|order| - 1], order[|order| - 1];
      CutSeqEdges(s, init);
      assert order == init + [e];
      ElementsAppend(init, e);
      MinusTwice(s.edges, Elements(init), e);
    } else {
      assert s.edges - {} == s.edges;
    }
  }

  lemma CutSeqIsCut(s: State, gone: set<EdgeKey>, order: seq<EdgeKey>)
    requires Visited(s, gone, order, {})
    ensures CutSeq(s, order) == CutEdges(s, gone)
  {
    assert gone - {} == gone;
    CutSeqIsCutElements(s, order);
  }

  lemma {:induction false} CutSeqIsCutElements(s: State, order: seq<EdgeKey>)
    requires Cuttable(s, order) && forall i, j :: 0 <= i < j < |order| ==> order[i] != order[j]
    ensures CutSeq(s, order) == CutEdges(s, Elements(order))
    decreases order
  {
    if order == [] {
      CutNone(s);
      assert Elements<EdgeKey>([]) == {};
    } else {
      var init, e := order[..|order| - 1], order[|order| - 1];
      assert order == init + [e];
      CutSeqIsCutElements(s, init);
      ElementsAppend(init, e);
      CutComposes(s, Elements(init), e);
    }
  }

  lemma CutNone(s: State)
    ensures CutEdges(s, {}) == s
  {
  }

  lemma IncidentMore(done: set<EdgeKey>, e: EdgeKey, n: NodeKey)
    requires e !in done
    ensures |Incident(done + {e}, n)| == |Incident(done, n)| + if e.src == n || e.dst == n then 1 else 0
  {
    IncidentPlus(done, e, n);
  }

  lemma OneLessEdgeAt(nodes: map<NodeKey, Node>, a: NodeKey, b: NodeKey, n: NodeKey)
    requires a in nodes && b in nodes && a != b && n in nodes
    ensures OneLessEdge(OneLessEdge(nodes, a), b)[n] ==
            nodes[n].(edges := nodes[n].edges - if n == a || n == b then 1 else 0)
  {
  }

  lemma CutNodeAt(s: State, done: set<EdgeKey>, e: EdgeKey, n: NodeKey)
    requires e !in done && e.src in s.nodes && e.dst in s.nodes && e.src != e.dst && n in s.nodes
    ensures CutOne(CutEdges(s, done), e).nodes[n] == CutEdges(s, done + {e}).nodes[n]
  {
    IncidentMore(done, e, n);
    OneLessEdgeAt(CutEdges(s, done).nodes, e.src, e.dst, n);
  }

  lemma CutNodesCompose(s: State, done: set<EdgeKey>, e: EdgeKey)
    requires e !in done && e.src in s.nodes && e.dst in s.nodes && e.src != e.dst
    ensures CutOne(CutEdges(s, done), e).nodes == CutEdges(s, done + {e}).nodes
  {
    var a, b := CutOne(CutEdges(s, done), e).nodes, CutEdges(s, done + {e}).nodes;
    assert a.Keys == s.nodes.Keys == b.Keys;
    forall n | n in s.nodes ensures a[n] == b[n] {
      CutNodeAt(s, done, e, n);
    }
  }

  lemma MinusTwice<K, V>(m: map<K, V>, done: set<K>, e: K)
    ensures m - done - {e} == m - (done + {e})
  {
  }

  lemma CutComposes(s: State, done: set<EdgeKey>, e: EdgeKey)
    requires e !in done && e.src in s.nodes && e.dst in s.nodes && e.src != e.dst
    ensures CutOne(CutEdges(s, done), e) == CutEdges(s, done + {e})
  {
    CutNodesCompose(s, done, e);
    MinusTwice(s.edges, done, e);
    MinusTwice(s.dirty, done, e);
    assert s.dirtyL7 - done - {e} == s.dirtyL7 - (done + {e});
    assert s.goneEdges + done + {e} == s.goneEdges + (done + {e});
  }

  // ---------- dropping one node at a time ----------

  function DropOne(s: State, n: NodeKey): State {
    s.(nodes := s.nodes - {n}, dirtyNode := s.dirtyNode - {n},
       newNodes := if n in s.newNodes then s.newNodes - {n} else s.newNodes,
       goneNodes := if n in s.newNodes then s.goneNodes else s.goneNodes + {n})
  }

  lemma DropOneIsDrop(s: State, n: NodeKey)
    ensures DropOne(s, n) == DropNodes(s, {n})
  {
  }

  function DropSeq(s: State, order: seq<NodeKey>): State
    decreases order
  {
    if order == [] then s else DropOne(DropSeq(s, order[..|order| - 1]), order[|order| - 1])
  }

  predicate NodesVisited(s: State, dead: set<NodeKey>, order: seq<NodeKey>, todo: set<NodeKey>) {
    && todo <= s.nodes.Keys && dead <= s.nodes.Keys
    && Elements(order) == dead - todo
    && (forall i, j :: 0 <= i < j < |order| ==> order[i] != order[j])
  }

  lemma DropSeqStep(s: State, order: seq<NodeKey>, n: NodeKey)
    requires n in s.nodes && n !in order
    ensures DropSeq(s, order + [n]) == DropOne(DropSeq(s, order), n)
    ensures n in DropSeq(s, order).nodes && DropSeq(s, order).nodes[n] == s.nodes[n]
    ensures Elements(order + [n]) == Elements(order) + {n}
  {
  }

  lemma NodesVisitedStep(s: State, dead: set<NodeKey>, order: seq<NodeKey>, todo: set<NodeKey>, n: NodeKey)
    requires n in s.nodes && n !in todo && NodesVisited(s, dead, order, todo + {n})
    ensures n in DropSeq(s, order).nodes && DropSeq(s, order).nodes[n] == s.nodes[n]
    ensures if n in dead then NodesVisited(s, dead, order + [n], todo) else NodesVisited(s, dead, order, todo)
    ensures n in dead ==> DropSeq(s, order + [n]) == DropOne(DropSeq(s, order), n)
  {
    assert n !in Elements(order);
    DropSeqStep(s, order, n);
    OneLess(dead, todo, n);
  }

  lemma DropSeqIsDrop(s: State, dead: set<NodeKey>, order: seq<NodeKey>)
    requires NodesVisited(s, dead, order, {})
    ensures DropSeq(s, order) == DropNodes(s, dead)
  {
    assert dead - {} == dead;
    DropSeqIsDropElements(s, order);
  }

  lemma {:induction false} DropSeqIsDropElements(s: State, order: seq<NodeKey>)
    requires forall i, j :: 0 <= i < j < |order| ==> order[i] != order[j]
    ensures DropSeq(s, order) == DropNodes(s, Elements(order))
    decreases order
  {
    if order == [] {
      assert Elements<NodeKey>([]) == {};
      assert s.nodes - {} == s.nodes;
    } else {
      var init, n := order[..|order| - 1], order[|order| - 1];
      assert order == init + [n];
      DropSeqIsDropElements(s, init);
      ElementsAppend(init, n);
      DropComposes(s, Elements(init), n);
    }
  }

  lemma DropComposes(s: State, done: set<NodeKey>, n: NodeKey)
    requires n !in done
    ensures DropOne(DropNodes(s, done), n) == DropNodes(s, done + {n})
  {
  }
}
