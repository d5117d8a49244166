/** A node against the flows it stands for (internal/graph/graph.go, touch and placeOn): over
    any history of flows, addresses and ticks, its first and last time and the machine it is
    shown on are what the flows that touched it since it was opened say. */
module NodeHistory {
  import opened Wire
  import opened Placement
  import opened Endpoints
  import opened GraphModel
  import opened GraphSteps
  import opened GraphInvariants
  import opened GraphHistory

  /** A flow at one of its ends; `seen` holds the machine whose agent saw the end's own pod. */
  datatype Visit = Visit(time: int, seen: seq<string>)

  function VisitOf(k: NodeKey, src: NodeKey, dst: NodeKey, f: Flow): Visit {
    var own := (f.direction.Egress? && k == src) || (f.direction.Ingress? && k == dst);
    Visit(f.time, if own && f.observer != "" && k.ns != RESERVED && k.ns != UNKNOWN then [f.observer] else [])
  }

  predicate Visits(s: State, op: Op, k: NodeKey) {
    op.FlowOp? && IsCounted(s, op.f) && (k == SrcKey(s, op.f) || k == DstKey(s, op.f))
  }

  /** The visits of a node since it was opened, oldest first: expiry and the retirement of an
      anchor start the list over. */
  function VisitsOf(retention: int, ops: seq<Op>, k: NodeKey): seq<Visit>
    decreases ops
  {
    if ops == [] then []
    else
      var init, op := ops[..|ops| - 1], ops[|ops| - 1];
      VisitsAfter(After(retention, init), op, k, VisitsOf(retention, init, k))
  }

  function VisitsAfter(s: State, op: Op, k: NodeKey, earlier: seq<Visit>): seq<Visit> {
    if Visits(s, op, k) then
      (if k in Resolved(s, op.f).nodes then earlier else [])
      + [VisitOf(k, SrcKey(s, op.f), DstKey(s, op.f), op.f)]
    else if k in Next(s, op).nodes then earlier
    else []
  }

  // ---------- what a list of visits says ----------

  function MachinesOf(vs: seq<Visit>): seq<string>
    decreases vs
  {
    if vs == [] then [] else MachinesOf(vs[..|vs| - 1]) + vs[|vs| - 1].seen
  }

  function NewestOf(vs: seq<Visit>): int
    decreases vs
  {
    if vs == [] then ZERO_TIME else Max(NewestOf(vs[..|vs| - 1]), vs[|vs| - 1].time)
  }

  lemma {:induction false} NewestIsNewest(vs: seq<Visit>)
    ensures forall i :: 0 <= i < |vs| ==> vs[i].time <= NewestOf(vs)
    ensures NewestOf(vs) == ZERO_TIME || exists i :: 0 <= i < |vs| && vs[i].time == NewestOf(vs)
    decreases vs
  {
    if vs != [] {
      var init := vs[..|vs| - 1];
      NewestIsNewest(init);
      forall i | 0 <= i < |vs| ensures vs[i].time <= NewestOf(vs) {
        if i < |init| {
          assert vs[i] == init[i];
        }
      }
      if NewestOf(vs) == NewestOf(init) && NewestOf(vs) != ZERO_TIME {
        var i :| 0 <= i < |init| && init[i].time == NewestOf(init);
        assert vs[i].time == NewestOf(vs);
      } else {
        assert NewestOf(vs) == ZERO_TIME || vs[|vs| - 1].time == NewestOf(vs);
      }
    }
  }

  /** The node is what its visits make of it. */
  predicate Stands(n: Node, vs: seq<Visit>) {
    && vs != [] && n.first == vs[0].time && n.last == NewestOf(vs)
    && n.placed == PlaceAll(MachinesOf(vs))
  }

  // ---------- one visit, or none ----------

  function Visited(n: Node, v: Visit): Node {
    n.(last := Max(n.last, v.time), placed := if v.seen == [] then n.placed else Place(n.placed, v.seen[0]))
  }

  lemma VisitStands(n: Node, vs: seq<Visit>, v: Visit)
    requires |v.seen| <= 1
    requires if vs == [] then n.first == v.time && n.last == ZERO_TIME && n.placed == NOWHERE else Stands(n, vs)
    ensures Stands(Visited(n, v), vs + [v])
  {
    var all := vs + [v];
    assert all[..|all| - 1] == vs && all[|all| - 1] == v;
    MachinesSnoc(vs, v);
    if v.seen != [] {
      assert MachinesOf(all)[..|MachinesOf(all)| - 1] == MachinesOf(vs);
    } else {
      assert MachinesOf(all) == MachinesOf(vs);
    }
  }

  /** But for its degree the same. */
  predicate Alike(n: Node, n': Node) {
    n'.first == n.first && n'.last == n.last && n'.placed == n.placed
  }

  /** `s'` has no node that `s` has not, and those it has are alike. */
  predicate KeepsNodes(s: State, s': State) {
    forall k :: k in s'.nodes ==> k in s.nodes && Alike(s.nodes[k], s'.nodes[k])
  }

  lemma RetireNodes(s: State, ip: string)
    ensures KeepsNodes(s, Retire(s, ip))
  {
  }

  lemma LearnNodes(s: State, ip: string, machine: string)
    ensures KeepsNodes(s, Learn(s, ip, machine))
  {
    RetireNodes(Name(s, ip, machine), ip);
  }

  lemma ResolvedNodes(s: State, f: Flow)
    ensures KeepsNodes(s, Resolved(s, f))
  {
    SideNodes(s, f.src, f.observer);
    SideNodes(AfterSide(s, f.src, f.observer), f.dst, f.observer);
  }

  lemma SideNodes(s: State, side: Side, observer: string)
    ensures KeepsNodes(s, AfterSide(s, side, observer))
  {
    match Teaches(side, observer)
    case Some(ip) => LearnNodes(s, ip, observer);
    case None =>
  }

  lemma {:induction false} LearnAllNodes(s: State, addrs: seq<Address>)
    ensures KeepsNodes(s, LearnAll(s, addrs))
  {
    if addrs != [] {
      var init, a := addrs[..|addrs| - 1], addrs[|addrs| - 1];
      LearnAllNodes(s, init);
      LearnNodes(LearnAll(s, init), a.ip, a.machine);
    }
  }

  lemma TickNodes(s: State, now: int)
    ensures KeepsNodes(s, AfterTick(s, now))
  {
  }

  lemma PreparedNode(s: State, src: NodeKey, dst: NodeKey, f: Flow, k: NodeKey)
    requires src != dst
    ensures k in Prepared(s, src, dst, f).nodes <==> k in s.nodes || k == src || k == dst
    ensures k in Prepared(s, src, dst, f).nodes ==>
              Prepared(s, src, dst, f).nodes[k] ==
              if k != src && k != dst then s.nodes[k]
              else Visited(if k in s.nodes then s.nodes[k] else Node(f.time, ZERO_TIME, 0, NOWHERE),
                           VisitOf(k, src, dst, f))
  {
  }

  lemma RecordNodes(s: State, ek: EdgeKey, f: Flow, v: Verdict)
    requires ek.src in s.nodes && ek.dst in s.nodes && ek.src != ek.dst
    ensures Record(s, ek, f, v).nodes.Keys == s.nodes.Keys && KeepsNodes(s, Record(s, ek, f, v))
  {
    var e := NextEdge(s, ek, f, v);
    assert Record(s, ek, f, v) == Store(s, ek, e, v, HasDetail(f));
    StoreNodes(s, ek, e, v, HasDetail(f));
  }

  lemma IngestNode(s: State, f: Flow, k: NodeKey)
    requires k in Ingest(s, f).nodes
    ensures var s0 := Resolved(s, f);
            if Visits(s, FlowOp(f), k) then
              Alike(Visited(if k in s0.nodes then s0.nodes[k] else Node(f.time, ZERO_TIME, 0, NOWHERE),
                            VisitOf(k, SrcKey(s, f), DstKey(s, f), f)), Ingest(s, f).nodes[k])
            else k in s.nodes && Alike(s.nodes[k], Ingest(s, f).nodes[k])
  {
    ResolvedNodes(s, f);
    IngestIsLeadInAndRecord(s, f);
    if IsCounted(s, f) {
      PreparedNode(Resolved(s, f), SrcKey(s, f), DstKey(s, f), f, k);
      RecordNodes(LeadIn(s, f), EdgeOf(s, f), f, VerdictCode(f.verdict).value);
    }
  }

  // ---------- over every history ----------

  predicate NodeStands(s: State, k: NodeKey, vs: seq<Visit>) {
    k in s.nodes ==> Stands(s.nodes[k], vs)
  }

  lemma NextStands(s: State, op: Op, k: NodeKey, vs: seq<Visit>)
    requires NodeStands(s, k, vs)
    ensures NodeStands(Next(s, op), k, VisitsAfter(s, op, k, vs))
  {
    match op
    case FlowOp(f) =>
      if k in Ingest(s, f).nodes {
        IngestNode(s, f, k);
        if Visits(s, op, k) {
          FlowStands(s, f, k, vs);
        }
      }
    case LearnOp(addrs) => LearnAllNodes(s, addrs);
    case TickOp(now) => TickNodes(s, now);
  }

  lemma FlowStands(s: State, f: Flow, k: NodeKey, vs: seq<Visit>)
    requires NodeStands(s, k, vs) && Visits(s, FlowOp(f), k)
    ensures var s0, v := Resolved(s, f), VisitOf(k, SrcKey(s, f), DstKey(s, f), f);
            Stands(Visited(if k in s0.nodes then s0.nodes[k] else Node(f.time, ZERO_TIME, 0, NOWHERE), v),
                   (if k in s0.nodes then vs else []) + [v])
  {
    var s0, v := Resolved(s, f), VisitOf(k, SrcKey(s, f), DstKey(s, f), f);
    ResolvedNodes(s, f);
    if k in s0.nodes {
      VisitStands(s0.nodes[k], vs, v);
    } else {
      VisitStands(Node(f.time, ZERO_TIME, 0, NOWHERE), [], v);
    }
  }

  /** Over every history: a node in the graph is exactly what its visits make of it. */
  lemma {:induction false} NodeIsItsVisits(retention: int, ops: seq<Op>, k: NodeKey)
    ensures NodeStands(After(retention, ops), k, VisitsOf(retention, ops, k))
    decreases ops
  {
    if ops != [] {
      var init, op := ops[..|ops| - 1], ops[|ops| - 1];
      NodeIsItsVisits(retention, init, k);
      NextStands(After(retention, init), op, k, VisitsOf(retention, init, k));
    }
  }

  lemma {:induction false} MachinesAreNamed(retention: int, ops: seq<Op>, k: NodeKey)
    ensures "" !in MachinesOf(VisitsOf(retention, ops, k))
    decreases ops
  {
    if ops != [] {
      var init, op := ops[..|ops| - 1], ops[|ops| - 1];
      var s, vs := After(retention, init), VisitsOf(retention, init, k);
      MachinesAreNamed(retention, init, k);
      if Visits(s, op, k) {
        MachinesSnoc(if k in Resolved(s, op.f).nodes then vs else [],
                     VisitOf(k, SrcKey(s, op.f), DstKey(s, op.f), op.f));
      }
    }
  }

  lemma MachinesSnoc(vs: seq<Visit>, v: Visit)
    ensures MachinesOf(vs + [v]) == MachinesOf(vs) + v.seen
  {
    assert (vs + [v])[..|vs|] == vs;
  }

  /** So its first time is that of the flow that opened it, its last time the newest, it is
      shown on the machine that was first to see its pods as often as any has, on none if
      none has, and a tick removes it exactly if the newest of its flows is too old. */
  lemma NodeTheorem(retention: int, ops: seq<Op>, k: NodeKey, now: int)
    requires k in After(retention, ops).nodes
    ensures var s, vs := After(retention, ops), VisitsOf(retention, ops, k);
            var n, ms := s.nodes[k], MachinesOf(vs);
            && vs != [] && n.first == vs[0].time
            && (forall i :: 0 <= i < |vs| ==> vs[i].time <= n.last)
            && (n.last == ZERO_TIME || exists i :: 0 <= i < |vs| && vs[i].time == n.last)
            && (forall m :: Seen(n.placed, m) == Count(ms, m))
            && (if ms == [] then n.placed.machine == "" else exists i: nat :: LedFrom(ms, n.placed.machine, i))
            && (k in AfterTick(s, now).nodes <==> Cutoff(s, now) <= NewestOf(vs))
  {
    var vs := VisitsOf(retention, ops, k);
    var ms := MachinesOf(vs);
    NodeIsItsVisits(retention, ops, k);
    NewestIsNewest(vs);
    forall m ensures Seen(PlaceAll(ms), m) == Count(ms, m) {
      PlaceAllCounts(ms, m);
    }
    if ms != [] {
      MachinesAreNamed(retention, ops, k);
      MachineIsFirstLeader(ms);
    }
    AfterWellFormed(retention, ops);
    TickKeepsExactly(After(retention, ops), now);
  }
}
