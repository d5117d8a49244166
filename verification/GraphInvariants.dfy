/** What every step of the server's graph keeps, and what follows from it. */
module GraphInvariants {
  import opened Wire
  import opened Placement
  import opened GraphModel
  import opened GraphSteps

  // ---------- the invariant ----------

  /** Every conversation has both its nodes, and they differ. */
  predicate EndpointsExist(s: State) {
    forall e :: e in s.edges ==> e.src in s.nodes && e.dst in s.nodes && e.src != e.dst
  }

  /** The hand-kept degree of a node is its number of incident conversations. */
  predicate DegreesExact(s: State) {
    forall n :: n in s.nodes ==> s.nodes[n].edges == |Incident(s.edges.Keys, n)|
  }

  /** A node is at least as recent as each of its conversations. */
  predicate NodesRecent(s: State) {
    && (forall n :: n in s.nodes ==> ZERO_TIME <= s.nodes[n].last)
    && (forall e :: e in s.edges && e.src in s.nodes ==> s.edges[e].last <= s.nodes[e.src].last)
    && (forall e :: e in s.edges && e.dst in s.nodes ==> s.edges[e].last <= s.nodes[e.dst].last)
  }

  /** What is waiting for the next tick exists, and no node waits twice. */
  predicate PendingExists(s: State) {
    && s.dirtyL7 <= s.dirty.Keys <= s.edges.Keys
    && s.newNodes <= s.nodes.Keys
    && s.dirtyNode <= s.nodes.Keys
    && s.newNodes !! s.dirtyNode
  }

  /** A conversation waits only if a flow was counted on it. */
  predicate IncrementsCount(s: State) {
    forall e :: e in s.dirty ==> s.dirty[e] != ZERO
  }

  /** A node waits with a changed machine only if it has one. */
  predicate MovedArePlaced(s: State) {
    forall n :: n in s.dirtyNode && n in s.nodes ==> s.nodes[n].placed.machine != ""
  }

  /** No other machine has been seen more often. */
  predicate Leads(p: Placed) {
    && (p.machine == "" <==> p.machines == map[])
    && (p.machine != "" ==> p.machine in p.machines)
    && (forall m :: m in p.machines && p.machine in p.machines ==> p.machines[m] <= p.machines[p.machine])
  }

  predicate MachinesLead(s: State) {
    forall n :: n in s.nodes ==> Leads(s.nodes[n].placed)
  }

  predicate RingsSized(s: State) {
    forall e :: e in s.edges ==> s.edges[e].ring.Size() == SlotCount(s)
  }

  predicate WellFormed(s: State) {
    && EndpointsExist(s)
    && DegreesExact(s)
    && NodesRecent(s)
    && PendingExists(s)
    && IncrementsCount(s)
    && MovedArePlaced(s)
    && MachinesLead(s)
    && RingsSized(s)
  }

  lemma NewWellFormed(retention: int)
    ensures WellFormed(New(retention))
  {
  }

  // ---------- what one step keeps ----------

  function NodesAfter(s: State, step: Step): set<NodeKey> {
    match step
    case DropStep(dead) => s.nodes.Keys - dead
    case TouchStep(k, _) => s.nodes.Keys + {k}
    case _ => s.nodes.Keys
  }

  function EdgesAfter(s: State, step: Step): set<EdgeKey> {
    match step
    case CutStep(gone) => s.edges.Keys - gone
    case StoreStep(ek, _, _, _) => s.edges.Keys + {ek}
    case _ => s.edges.Keys
  }

  lemma OneMoreEdgeTwice(nodes: map<NodeKey, Node>, a: NodeKey, b: NodeKey)
    requires a in nodes && b in nodes && a != b
    ensures OneMoreEdge(OneMoreEdge(nodes, a), b).Keys == nodes.Keys
    ensures forall n :: n in nodes ==>
              OneMoreEdge(OneMoreEdge(nodes, a), b)[n] ==
              nodes[n].(edges := nodes[n].edges + if n == a || n == b then 1 else 0)
  {
  }

  /** Storing a conversation leaves every node as it is, but for its degree. */
  lemma StoreNodes(s: State, ek: EdgeKey, e: Edge, v: Verdict, detail: bool)
    requires ek.src in s.nodes && ek.dst in s.nodes && ek.src != ek.dst
    ensures Store(s, ek, e, v, detail).nodes.Keys == s.nodes.Keys
    ensures forall n :: n in s.nodes ==>
              && Store(s, ek, e, v, detail).nodes[n].last == s.nodes[n].last
              && Store(s, ek, e, v, detail).nodes[n].placed == s.nodes[n].placed
              && Store(s, ek, e, v, detail).nodes[n].first == s.nodes[n].first
  {
  }

  lemma StepKeys(s: State, step: Step)
    requires Enabled(s, step)
    ensures Do(s, step).nodes.Keys == NodesAfter(s, step)
    ensures Do(s, step).edges.Keys == EdgesAfter(s, step)
  {
  }

  lemma StepKeepsEndpoints(s: State, step: Step)
    requires Enabled(s, step) && EndpointsExist(s)
    ensures EndpointsExist(Do(s, step))
  {
  }

  lemma IncidentMinus(es: set<EdgeKey>, gone: set<EdgeKey>, n: NodeKey)
    requires gone <= es
    ensures |Incident(es - gone, n)| == |Incident(es, n)| - |Incident(gone, n)|
  {
    assert Incident(es, n) == Incident(es - gone, n) + Incident(gone, n);
  }

  lemma IncidentPlus(es: set<EdgeKey>, e: EdgeKey, n: NodeKey)
    requires e !in es
    ensures |Incident(es + {e}, n)| == |Incident(es, n)| + if e.src == n || e.dst == n then 1 else 0
  {
    if e.src == n || e.dst == n {
      assert Incident(es + {e}, n) == Incident(es, n) + {e};
    } else {
      assert Incident(es + {e}, n) == Incident(es, n);
    }
  }

  lemma CutDegrees(s: State, gone: set<EdgeKey>)
    requires DegreesExact(s) && gone <= s.edges.Keys
    ensures DegreesExact(CutEdges(s, gone))
  {
    var s' := CutEdges(s, gone);
    assert s'.edges.Keys == s.edges.Keys - gone;
    forall n | n in s'.nodes ensures s'.nodes[n].edges == |Incident(s'.edges.Keys, n)| {
      IncidentMinus(s.edges.Keys, gone, n);
    }
  }

  lemma TouchDegrees(s: State, k: NodeKey, t: int)
    requires DegreesExact(s) && EndpointsExist(s)
    ensures DegreesExact(Touch(s, k, t))
  {
  }

  lemma OneMoreEdgeDegrees(nodes: map<NodeKey, Node>, es: set<EdgeKey>, ek: EdgeKey, n: NodeKey)
    requires ek !in es && ek.src in nodes && ek.dst in nodes && ek.src != ek.dst && n in nodes
    requires nodes[n].edges == |Incident(es, n)|
    ensures OneMoreEdge(OneMoreEdge(nodes, ek.src), ek.dst)[n].edges == |Incident(es + {ek}, n)|
  {
    OneMoreEdgeTwice(nodes, ek.src, ek.dst);
    IncidentPlus(es, ek, n);
  }

  lemma StoreDegrees(s: State, ek: EdgeKey, e: Edge, v: Verdict, detail: bool)
    requires DegreesExact(s) && ek.src in s.nodes && ek.dst in s.nodes && ek.src != ek.dst
    ensures DegreesExact(Store(s, ek, e, v, detail))
  {
    var s' := Store(s, ek, e, v, detail);
    assert s'.edges.Keys == s.edges.Keys + {ek};
    if ek in s.edges {
      assert s'.nodes == s.nodes && s'.edges.Keys == s.edges.Keys;
    } else {
      StoreNodes(s, ek, e, v, detail);
      forall n | n in s'.nodes ensures s'.nodes[n].edges == |Incident(s'.edges.Keys, n)| {
        OneMoreEdgeDegrees(s.nodes, s.edges.Keys, ek, n);
      }
    }
  }

  lemma StepKeepsDegrees(s: State, step: Step)
    requires Enabled(s, step) && EndpointsExist(s) && DegreesExact(s)
    ensures DegreesExact(Do(s, step))
  {
    StepKeys(s, step);
    match step
    case CutStep(gone) => CutDegrees(s, gone);
    case TouchStep(k, t) => TouchDegrees(s, k, t);
    case StoreStep(ek, e, v, detail) => StoreDegrees(s, ek, e, v, detail);
    case _ =>
  }

  lemma StoreRecent(s: State, ek: EdgeKey, e: Edge, v: Verdict, detail: bool)
    requires NodesRecent(s) && EndsRecent(s, ek, e.last)
    ensures NodesRecent(Store(s, ek, e, v, detail))
  {
    var s' := Store(s, ek, e, v, detail);
    StoreNodes(s, ek, e, v, detail);
    forall x | x in s'.edges && x.src in s'.nodes ensures s'.edges[x].last <= s'.nodes[x.src].last {
      assert x == ek || (x in s.edges && s'.edges[x] == s.edges[x]);
    }
    forall x | x in s'.edges && x.dst in s'.nodes ensures s'.edges[x].last <= s'.nodes[x.dst].last {
      assert x == ek || (x in s.edges && s'.edges[x] == s.edges[x]);
    }
  }

  lemma StepKeepsRecent(s: State, step: Step)
    requires Enabled(s, step) && EndpointsExist(s) && NodesRecent(s)
    ensures NodesRecent(Do(s, step))
  {
    match step
    case StoreStep(ek, e, v, detail) => StoreRecent(s, ek, e, v, detail);
    case _ =>
  }

  lemma StepKeepsPending(s: State, step: Step)
    requires Enabled(s, step) && PendingExists(s)
    ensures PendingExists(Do(s, step))
  {
  }

  lemma StepKeepsIncrements(s: State, step: Step)
    requires Enabled(s, step) && IncrementsCount(s)
    ensures IncrementsCount(Do(s, step))
  {
    match step
    case StoreStep(ek, e, v, detail) =>
      PlusUnit(Pending(s, ek), v);
      assert Store(s, ek, e, v, detail).dirty == s.dirty[ek := Pending(s, ek).Plus(Unit(v))];
    case PlaceStep(k, machine) => assert PlaceOn(s, k, machine).dirty == s.dirty;
    case _ =>
  }

  lemma PlusUnit(c: Counts, v: Verdict)
    ensures c.Plus(Unit(v)) != ZERO
  {
    var u := Unit(v);
    match v
    case Forwarded => assert u.f == 1;
    case Dropped => assert u.d == 1;
    case Audit => assert u.a == 1;
    case Error => assert u.e == 1;
  }

  lemma StepKeepsMoved(s: State, step: Step)
    requires Enabled(s, step) && PendingExists(s) && MovedArePlaced(s)
    ensures MovedArePlaced(Do(s, step))
  {
  }

  lemma StepKeepsLeads(s: State, step: Step)
    requires Enabled(s, step) && MachinesLead(s)
    ensures MachinesLead(Do(s, step))
  {
  }

  lemma StepKeepsRings(s: State, step: Step)
    requires Enabled(s, step) && RingsSized(s)
    ensures RingsSized(Do(s, step))
  {
  }

  lemma StepKeepsWellFormed(s: State, step: Step)
    requires Enabled(s, step) && WellFormed(s)
    ensures WellFormed(Do(s, step))
  {
    StepKeepsEndpoints(s, step);
    StepKeepsDegrees(s, step);
    StepKeepsRecent(s, step);
    StepKeepsPending(s, step);
    StepKeepsIncrements(s, step);
    StepKeepsMoved(s, step);
    StepKeepsLeads(s, step);
    StepKeepsRings(s, step);
  }

  lemma {:induction false} RunKeepsWellFormed(s: State, steps: seq<Step>)
    requires Legal(s, steps) && WellFormed(s)
    ensures WellFormed(Run(s, steps))
    decreases steps
  {
    if steps != [] {
      StepKeepsWellFormed(s, steps[0]);
      RunKeepsWellFormed(Do(s, steps[0]), steps[1..]);
    }
  }

  // ---------- what the operations keep ----------

  lemma LeadInWellFormed(s: State, f: Flow)
    requires WellFormed(s)
    ensures WellFormed(LeadIn(s, f))
  {
    LeadInIsRun(s, f);
    RunKeepsWellFormed(s, LeadInSteps(s, f));
  }

  /** A counted flow is one more step after its lead-in. */
  lemma IngestLastStep(s: State, f: Flow)
    requires WellFormed(s) && IsCounted(s, f)
    ensures var s1, step := LeadIn(s, f), CountStep(LeadIn(s, f), EdgeOf(s, f), f, VerdictCode(f.verdict).value);
            WellFormed(s1) && Enabled(s1, step) && Do(s1, step) == Ingest(s, f)
  {
    LeadInWellFormed(s, f);
    assert EdgeRecent(LeadIn(s, f), EdgeOf(s, f));
    IngestIsCounting(s, f);
  }

  /** All of a flow as one run. */
  lemma IngestIsRun(s: State, f: Flow) returns (steps: seq<Step>)
    requires WellFormed(s)
    ensures Legal(s, steps) && Run(s, steps) == Ingest(s, f)
  {
    LeadInIsRun(s, f);
    steps := LeadInSteps(s, f);
    if IsCounted(s, f) {
      IngestLastStep(s, f);
      var last := CountStep(LeadIn(s, f), EdgeOf(s, f), f, VerdictCode(f.verdict).value);
      RunSnoc(s, steps, last);
      steps := steps + [last];
    } else {
      IngestIsLeadInAndRecord(s, f);
    }
  }

  /** A counted flow leaves its conversation there, waiting for the next tick, and no older
      than itself. */
  lemma CountedRecent(s: State, f: Flow)
    requires IsCounted(s, f)
    ensures EdgeOf(s, f) in Ingest(s, f).edges && EdgeOf(s, f) in Ingest(s, f).dirty
    ensures EndsRecent(Ingest(s, f), EdgeOf(s, f), f.time)
    ensures f.time <= Ingest(s, f).edges[EdgeOf(s, f)].last
  {
    IngestIsLeadInAndRecord(s, f);
    var s1, ek, v := LeadIn(s, f), EdgeOf(s, f), VerdictCode(f.verdict).value;
    var e := NextEdge(s1, ek, f, v);
    CountGrows(s1, ek, f, v);
    assert Record(s1, ek, f, v) == Store(s1, ek, e, v, HasDetail(f));
    StoreNodes(s1, ek, e, v, HasDetail(f));
  }

  lemma IngestWellFormed(s: State, f: Flow)
    requires WellFormed(s)
    ensures WellFormed(Ingest(s, f))
  {
    var steps := IngestIsRun(s, f);
    RunKeepsWellFormed(s, steps);
  }

  lemma LearnAllWellFormed(s: State, addrs: seq<Address>)
    requires WellFormed(s)
    ensures WellFormed(LearnAll(s, addrs))
  {
    LearnAllIsRun(s, addrs);
    RunKeepsWellFormed(s, LearnAllSteps(s, addrs));
  }

  /** The state between the two loops of a tick. */
  function Cut(s: State, now: int): State {
    CutEdges(s, Idle(s, Cutoff(s, now)))
  }

  function DeadNow(s: State, now: int): set<NodeKey> {
    Dead(Cut(s, now), Cutoff(s, now))
  }

  lemma IsolatedNode(s: State, n: NodeKey)
    requires DegreesExact(s) && n in s.nodes && s.nodes[n].edges <= 0
    ensures forall e :: e in s.edges ==> e.src != n && e.dst != n
  {
    assert Incident(s.edges.Keys, n) == {};
    forall e | e in s.edges ensures e.src != n && e.dst != n {
      assert e !in Incident(s.edges.Keys, n);
    }
  }

  lemma CutWellFormed(s: State, now: int)
    requires WellFormed(s)
    ensures WellFormed(Cut(s, now))
  {
    StepKeepsWellFormed(s, CutStep(Idle(s, Cutoff(s, now))));
  }

  lemma DeadAreIsolated(s: State, now: int)
    requires DegreesExact(Cut(s, now))
    ensures Enabled(Cut(s, now), DropStep(DeadNow(s, now)))
  {
    forall n | n in DeadNow(s, now) ensures forall e :: e in Cut(s, now).edges ==> e.src != n && e.dst != n {
      IsolatedNode(Cut(s, now), n);
    }
  }

  lemma RunTwo(s: State, a: Step, b: Step) returns (steps: seq<Step>)
    requires Enabled(s, a) && Enabled(Do(s, a), b) && !a.StoreStep? && !b.StoreStep?
    ensures Legal(s, steps) && Run(s, steps) == Do(Do(s, a), b)
    ensures forall i :: 0 <= i < |steps| ==> !steps[i].StoreStep?
  {
    RunOne(s, a);
    RunSnoc(s, [a], b);
    steps := [a] + [b];
  }

  /** Expiry as one run that counts nothing. */
  lemma ExpireIsRun(s: State, now: int) returns (steps: seq<Step>)
    requires WellFormed(s)
    ensures Legal(s, steps) && Run(s, steps) == Expire(s, now)
    ensures forall i :: 0 <= i < |steps| ==> !steps[i].StoreStep?
  {
    CutWellFormed(s, now);
    DeadAreIsolated(s, now);
    assert Do(s, CutStep(Idle(s, Cutoff(s, now)))) == Cut(s, now);
    steps := RunTwo(s, CutStep(Idle(s, Cutoff(s, now))), DropStep(DeadNow(s, now)));
  }

  lemma ExpireWellFormed(s: State, now: int)
    requires WellFormed(s)
    ensures WellFormed(Expire(s, now))
  {
    var steps := ExpireIsRun(s, now);
    RunKeepsWellFormed(s, steps);
  }

  lemma FlushWellFormed(s: State)
    requires WellFormed(s)
    ensures WellFormed(Flush(s)) && NothingPending(Flush(s))
  {
  }

  lemma AfterTickWellFormed(s: State, now: int)
    requires WellFormed(s)
    ensures WellFormed(AfterTick(s, now)) && NothingPending(AfterTick(s, now))
  {
    ExpireWellFormed(s, now);
    FlushWellFormed(Expire(s, now));
  }

  lemma OldNodeIsIsolated(s: State, cutoff: int, n: NodeKey)
    requires EndpointsExist(s) && NodesRecent(s) && n in s.nodes && s.nodes[n].last < cutoff
    ensures Incident(s.edges.Keys - Idle(s, cutoff), n) == {}
  {
  }

  lemma OldNodeIsDead(s: State, now: int, n: NodeKey)
    requires WellFormed(s) && n in s.nodes && s.nodes[n].last < Cutoff(s, now)
    ensures n in DeadNow(s, now)
  {
    var cutoff := Cutoff(s, now);
    OldNodeIsIsolated(s, cutoff, n);
    CutDegrees(s, Idle(s, cutoff));
    assert Cut(s, now).edges.Keys == s.edges.Keys - Idle(s, cutoff);
    assert Cut(s, now).nodes[n].edges == 0;
  }

  /** A tick keeps exactly the nodes and conversations whose newest flow is within the
      retention: the degree test of the second loop never spares an old node. */
  lemma TickKeepsExactly(s: State, now: int)
    requires WellFormed(s)
    ensures forall n :: n in AfterTick(s, now).nodes <==> n in s.nodes && Cutoff(s, now) <= s.nodes[n].last
    ensures forall e :: e in AfterTick(s, now).edges <==> e in s.edges && Cutoff(s, now) <= s.edges[e].last
  {
    forall n | n in s.nodes ensures n in DeadNow(s, now) <==> s.nodes[n].last < Cutoff(s, now) {
      if s.nodes[n].last < Cutoff(s, now) {
        OldNodeIsDead(s, now, n);
      }
    }
    assert AfterTick(s, now).nodes.Keys == s.nodes.Keys - DeadNow(s, now);
    assert AfterTick(s, now).edges.Keys == s.edges.Keys - Idle(s, Cutoff(s, now));
  }
}
