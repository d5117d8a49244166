/** What becomes of a copy that misses a tick, or is given one twice: exactly when it differs
    from the graph, and by how much for how long. */
module Gaps {
  import opened Wire
  import opened Endpoints
  import opened GraphModel
  import opened GraphSteps
  import opened GraphInvariants
  import opened GraphAnchors
  import opened ReplicaModel
  import opened ReplicaFacts
  import opened Coupling
  import opened Delivery

  /** The copy is the graph: same nodes on the same machines, same conversations with the
      same totals, last flow, drop reasons and layer-7 summary. */
  predicate SameGraph(g: State, c: Replica) {
    && c.nodes.Keys == g.nodes.Keys
    && (forall n :: n in g.nodes && n in c.nodes ==>
          c.nodes[n].machine == g.nodes[n].placed.machine && c.nodes[n].first == Millis(g.nodes[n].first))
    && c.edges.Keys == g.edges.Keys
    && (forall e :: e in g.edges && e in c.edges ==>
          && c.edges[e].totals == g.edges[e].counts && c.edges[e].last == Millis(g.edges[e].last)
          && c.edges[e].drops == g.edges[e].drops && c.edges[e].l7 == g.edges[e].l7
          && c.edges[e].src == e.src && c.edges[e].dst == e.dst)
  }

  lemma CoupledEdges(g: State, c: Replica, drift: Drift)
    requires EdgesCoupled(g, c, drift) && NothingPending(g)
    ensures c.edges.Keys == g.edges.Keys
    ensures forall e :: e in g.edges && e in c.edges ==>
              && c.edges[e].totals == g.edges[e].counts.Plus(DriftOf(drift, e))
              && c.edges[e].last == Millis(g.edges[e].last)
              && c.edges[e].drops == g.edges[e].drops && c.edges[e].l7 == g.edges[e].l7
              && c.edges[e].src == e.src && c.edges[e].dst == e.dst
  {
    assert g.dirty == map[] && g.dirtyL7 == {} && g.goneEdges == {};
    forall e | e in g.edges && e in c.edges
      ensures c.edges[e].totals == g.edges[e].counts.Plus(DriftOf(drift, e))
      ensures c.edges[e].drops == g.edges[e].drops && c.edges[e].l7 == g.edges[e].l7
    {
      PlusZero(TotalsOf(c, e));
      assert TotalsOf(c, e).Plus(Pending(g, e)) == g.edges[e].counts.Plus(DriftOf(drift, e));
      assert DetailsMatchAt(g, c, e);
    }
  }

  lemma SyncedIsSame(g: State, c: Replica)
    requires Synced(g, c) && NothingPending(g)
    ensures SameGraph(g, c)
  {
    CoupledEdges(g, c, map[]);
    assert g.newNodes == {} && g.dirtyNode == {} && g.goneNodes == {};
    forall e | e in g.edges && e in c.edges ensures c.edges[e].totals == g.edges[e].counts {
      PlusZero(g.edges[e].counts);
    }
  }

  // ---------- one tick missed ----------

  predicate NodeNews(c: Replica, w: WireNode) {
    w.id !in c.nodes || (w.machine != "" && w.machine != c.nodes[w.id].machine)
  }

  /** The tick tells the copy something: a node it does not show, or shows elsewhere, any
      increment, or that something it shows is gone. */
  predicate News(c: Replica, t: Tick) {
    || t.edges != []
    || (exists i :: 0 <= i < |t.nodes| && NodeNews(c, t.nodes[i]))
    || (exists n :: n in t.goneNodes && n in c.nodes)
    || (exists e :: e in t.goneEdges && e in c.edges)
  }

  /** `s` is the state after expiry that the tick reports. */
  lemma PendingIsListed(s: State, now: int, t: Tick)
    requires IsTick(s, now, t)
    ensures t.edges == [] <==> s.dirty == map[]
  {
    if t.edges != [] {
      assert t.edges[0].id in EdgeIds(t.edges);
    }
    assert s.dirty == map[] <==> s.dirty.Keys == {};
  }

  lemma MissedShows(s: State, now: int, t: Tick, c: Replica)
    requires WellFormed(s) && GoneIsGone(s) && IsTick(s, now, t) && Synced(s, c) && SameGraph(Flush(s), c)
    ensures !News(c, t)
  {
    PendingIsListed(s, now, t);
    NoIncrementMissed(s, c);
    forall i | 0 <= i < |t.nodes| ensures !NodeNews(c, t.nodes[i]) {
      NoNodeMissed(s, now, t, c, i);
    }
    NothingGoneMissed(s, now, t, c);
  }

  lemma NoNodeMissed(s: State, now: int, t: Tick, c: Replica, i: nat)
    requires IsTick(s, now, t) && SameGraph(Flush(s), c) && i < |t.nodes|
    ensures !NodeNews(c, t.nodes[i])
  {
    var w := t.nodes[i];
    assert w.id in s.nodes && w == NodeJson(s, w.id);
    assert w.id in Flush(s).nodes && Flush(s).nodes[w.id] == s.nodes[w.id];
  }

  lemma NothingGoneMissed(s: State, now: int, t: Tick, c: Replica)
    requires GoneIsGone(s) && IsTick(s, now, t) && SameGraph(Flush(s), c)
    ensures forall n :: n in t.goneNodes ==> n !in c.nodes
    ensures forall e :: e in t.goneEdges ==> e !in c.edges
  {
    assert forall n :: n in t.goneNodes ==> n in Elements(t.goneNodes);
    assert forall e :: e in t.goneEdges ==> e in Elements(t.goneEdges);
  }

  lemma NoIncrementMissed(s: State, c: Replica)
    requires PendingExists(s) && IncrementsCount(s) && TotalsMatch(s, c, map[]) && SameGraph(Flush(s), c)
    ensures s.dirty == map[]
  {
    assert Flush(s).edges == s.edges;
    forall e ensures e !in s.dirty {
      if e in s.dirty {
        assert TotalsOf(c, e).Plus(s.dirty[e]) == s.edges[e].counts.Plus(ZERO);
        assert TotalsOf(c, e) == s.edges[e].counts;
        PlusNothing(s.edges[e].counts, s.dirty[e]);
      }
    }
  }

  lemma PlusNothing(a: Counts, b: Counts)
    ensures a.Plus(b) == a.Plus(ZERO) <==> b == ZERO
    ensures a.Plus(b) == a <==> b == ZERO
  {
  }

  lemma NothingMissed(s: State, now: int, t: Tick, c: Replica)
    requires WellFormed(s) && GoneIsGone(s) && IsTick(s, now, t) && Synced(s, c) && !News(c, t)
    ensures Synced(Flush(s), c)
  {
    PendingIsListed(s, now, t);
    forall n | n in s.newNodes || n in s.dirtyNode
      ensures n in c.nodes && (s.nodes[n].placed.machine != "" ==> c.nodes[n].machine == s.nodes[n].placed.machine)
    {
      var i := ListedNode(s, now, t, n);
      assert !NodeNews(c, t.nodes[i]);
    }
    forall n | n in s.goneNodes ensures n !in c.nodes {
      assert n in Elements(t.goneNodes);
    }
    forall e | e in s.goneEdges ensures e !in c.edges {
      assert e in Elements(t.goneEdges);
    }
    NothingMissedNodes(s, c);
    NothingMissedEdges(s, c);
  }

  lemma NothingMissedNodes(s: State, c: Replica)
    requires PendingExists(s) && MovedArePlaced(s) && NodesSynced(s, c)
    requires forall n :: n in s.newNodes || n in s.dirtyNode ==>
               n in c.nodes && (s.nodes[n].placed.machine != "" ==> c.nodes[n].machine == s.nodes[n].placed.machine)
    requires (forall n :: n in s.goneNodes ==> n !in c.nodes) && s.goneNodes !! s.nodes.Keys
    ensures NodesSynced(Flush(s), c)
  {
    assert forall n :: n in s.goneNodes ==> n in c.nodes.Keys;
    assert s.goneNodes == {};
    assert forall n :: n in s.newNodes ==> n in c.nodes.Keys && n !in s.nodes.Keys - s.newNodes;
    assert s.newNodes == {};
  }

  lemma NothingMissedEdges(s: State, c: Replica)
    requires PendingExists(s) && EdgesCoupled(s, c, map[]) && s.dirty == map[]
    requires forall e :: e in s.goneEdges ==> e !in c.edges
    ensures EdgesCoupled(Flush(s), c, map[])
  {
    assert s.dirtyL7 == {};
    forall e | e in s.edges ensures DetailsMatchAt(Flush(s), c, e) {
      assert DetailsMatchAt(s, c, e);
    }
    forall e | e in s.edges ensures Pending(Flush(s), e) == Pending(s, e) {
    }
  }

  /** An exact copy that misses a tick is the graph afterwards if and only if the tick would
      have told it nothing. */
  lemma MissedTickExactly(s: State, now: int, t: Tick, c: Replica)
    requires WellFormed(s) && GoneIsGone(s) && IsTick(s, now, t) && Synced(s, c)
    ensures SameGraph(Flush(s), c) <==> !News(c, t)
  {
    if SameGraph(Flush(s), c) {
      MissedShows(s, now, t, c);
    }
    if !News(c, t) {
      NothingMissed(s, now, t, c);
      SyncedIsSame(Flush(s), c);
    }
  }

  // ---------- one tick twice ----------

  /** A copy that has everything up to a tick, and is given that tick, counts its increments
      twice: they become its drift. */
  lemma DoubledIsDrift(s: State, now: int, t: Tick, c: Replica)
    requires PendingExists(s) && GoneIsGone(s) && IsTick(s, now, t) && EdgesCoupled(s, c, s.dirty)
    ensures EdgesCoupled(Flush(s), ApplyTick(c, t), s.dirty)
  {
    DeliverEdges(s, now, t, c, s.dirty);
    RestrictAll(s.dirty, s.edges.Keys);
  }

  lemma RestrictAll(drift: Drift, es: set<EdgeKey>)
    requires drift.Keys <= es
    ensures Restrict(drift, es) == drift
  {
  }

  lemma SameIsKnown(s: State, c: Replica)
    requires SameGraph(Flush(s), c)
    ensures EdgesKnown(s, c) && LastsMatch(s, c) && DetailsMatch(s, c)
  {
    assert Flush(s).edges == s.edges;
    forall e | e in s.edges ensures DetailsMatchAt(s, c, e) {
      assert e in c.edges;
    }
  }

  lemma SameTotals(s: State, c: Replica)
    requires PendingExists(s) && SameGraph(Flush(s), c)
    ensures TotalsMatch(s, c, s.dirty)
  {
    assert Flush(s).edges == s.edges;
    forall e | e in s.edges
      ensures TotalsOf(c, e).Plus(Pending(s, e)) == s.edges[e].counts.Plus(DriftOf(s.dirty, e))
    {
      assert e in c.edges;
    }
  }

  lemma DoubledNodes(s: State, now: int, t: Tick, c: Replica)
    requires WellFormed(s) && GoneIsGone(s) && IsTick(s, now, t) && SameGraph(Flush(s), c)
    ensures ApplyTick(c, t).nodes.Keys == s.nodes.Keys
    ensures forall n :: n in s.nodes && n in ApplyTick(c, t).nodes ==>
              && ApplyTick(c, t).nodes[n].machine == s.nodes[n].placed.machine
              && ApplyTick(c, t).nodes[n].first == Millis(s.nodes[n].first)
  {
    TickedKeys(c, t);
    assert NodeIds(t.nodes) <= s.nodes.Keys;
    forall n | n in s.nodes && n in ApplyTick(c, t).nodes
      ensures ApplyTick(c, t).nodes[n].machine == s.nodes[n].placed.machine
      ensures ApplyTick(c, t).nodes[n].first == Millis(s.nodes[n].first)
    {
      TickedNode(c, t, n);
      if n in s.newNodes || n in s.dirtyNode {
        var i := ListedNode(s, now, t, n);
        UpsertNodesAt(c, t.nodes, i);
      } else {
        UpsertNodesOther(c, t.nodes, n);
      }
    }
  }

  /** Such a copy is the graph afterwards if and only if the tick carries no increment. */
  lemma DoubledTickExactly(s: State, now: int, t: Tick, c: Replica)
    requires WellFormed(s) && GoneIsGone(s) && IsTick(s, now, t) && SameGraph(Flush(s), c)
    ensures SameGraph(Flush(s), ApplyTick(c, t)) <==> t.edges == []
  {
    SameIsKnown(s, c);
    SameTotals(s, c);
    DoubledIsDrift(s, now, t, c);
    DoubledNodes(s, now, t, c);
    PendingIsListed(s, now, t);
    DriftShows(Flush(s), ApplyTick(c, t), s.dirty);
  }

  /** A copy whose nodes are right is the graph if and only if it counts nothing too much. */
  lemma DriftShows(g: State, c: Replica, drift: Drift)
    requires EdgesCoupled(g, c, drift) && NothingPending(g) && c.nodes.Keys == g.nodes.Keys
    requires forall n :: n in g.nodes && n in c.nodes ==>
               c.nodes[n].machine == g.nodes[n].placed.machine && c.nodes[n].first == Millis(g.nodes[n].first)
    requires forall e :: e in drift ==> e in g.edges && drift[e] != ZERO
    ensures SameGraph(g, c) <==> drift == map[]
  {
    CoupledEdges(g, c, drift);
    forall e | e in g.edges
      ensures g.edges[e].counts.Plus(DriftOf(drift, e)) == g.edges[e].counts <==> e !in drift
    {
      PlusNothing(g.edges[e].counts, DriftOf(drift, e));
    }
    assert drift == map[] <==> forall e :: e !in drift;
  }

  // ---------- for how long ----------

  /** What the copy shows and what is pending is `minus` short of, and `plus` over, the
      server's counters of a conversation. */
  predicate OffBy(s: State, c: Replica, e: EdgeKey, plus: Counts, minus: Counts) {
    && e in s.edges
    && TotalsOf(c, e).Plus(Pending(s, e)).Plus(minus) == s.edges[e].counts.Plus(plus)
  }

  lemma OneMore(shown: Counts, pending: Counts, minus: Counts, counts: Counts, plus: Counts, u: Counts)
    requires shown.Plus(pending).Plus(minus) == counts.Plus(plus)
    ensures shown.Plus(pending.Plus(u)).Plus(minus) == counts.Plus(u).Plus(plus)
  {
  }

  lemma StepKeepsOff(s: State, c: Replica, step: Step, e: EdgeKey, plus: Counts, minus: Counts)
    requires Enabled(s, step) && OffBy(s, c, e, plus, minus) && e in Do(s, step).edges
    ensures OffBy(Do(s, step), c, e, plus, minus)
  {
    match step
    case StoreStep(ek, x, v, detail) =>
      if e == ek {
        OneMore(TotalsOf(c, e), Pending(s, e), minus, s.edges[e].counts, plus, Unit(v));
      } else {
        StoreFrame(s, ek, x, v, detail, e);
      }
    case CutStep(gone) => assert Pending(CutEdges(s, gone), e) == Pending(s, e);
    case _ =>
  }

  /** A run that counts nothing only takes conversations out, and says so. */
  lemma {:induction false} QuietRunGone(s: State, steps: seq<Step>)
    requires Legal(s, steps) && Quiet(steps)
    ensures Run(s, steps).edges.Keys <= s.edges.Keys
    ensures s.edges.Keys - Run(s, steps).edges.Keys <= Run(s, steps).goneEdges
    ensures s.goneEdges <= Run(s, steps).goneEdges
    decreases steps
  {
    if steps != [] {
      var s' := Do(s, steps[0]);
      QuietRunGone(s', steps[1..]);
      QuietStepGone(s, steps[0]);
    }
  }

  lemma QuietStepGone(s: State, step: Step)
    requires Enabled(s, step) && !step.StoreStep?
    ensures Do(s, step).edges.Keys <= s.edges.Keys
    ensures s.edges.Keys - Do(s, step).edges.Keys <= Do(s, step).goneEdges
    ensures s.goneEdges <= Do(s, step).goneEdges
  {
    StepKeys(s, step);
  }

  lemma {:induction false} QuietRunKeepsOff(s: State, c: Replica, steps: seq<Step>, e: EdgeKey,
                                            plus: Counts, minus: Counts)
    requires Legal(s, steps) && Quiet(steps) && OffBy(s, c, e, plus, minus) && e in Run(s, steps).edges
    ensures OffBy(Run(s, steps), c, e, plus, minus)
    decreases steps
  {
    if steps != [] {
      QuietRunGone(Do(s, steps[0]), steps[1..]);
      StepKeepsOff(s, c, steps[0], e, plus, minus);
      QuietRunKeepsOff(Do(s, steps[0]), c, steps[1..], e, plus, minus);
    }
  }

  lemma LearnKeepsOff(s: State, c: Replica, addrs: seq<Address>, e: EdgeKey, plus: Counts, minus: Counts)
    requires OffBy(s, c, e, plus, minus) && e in LearnAll(s, addrs).edges
    ensures OffBy(LearnAll(s, addrs), c, e, plus, minus)
  {
    LearnAllIsRun(s, addrs);
    LearnAllQuiet(s, addrs);
    QuietRunKeepsOff(s, c, LearnAllSteps(s, addrs), e, plus, minus);
  }

  lemma LearnOpensNone(s: State, addrs: seq<Address>)
    ensures LearnAll(s, addrs).edges.Keys <= s.edges.Keys
  {
    LearnAllIsRun(s, addrs);
    LearnAllQuiet(s, addrs);
    QuietRunGone(s, LearnAllSteps(s, addrs));
  }

  lemma TickOpensNone(s: State, now: int)
    ensures AfterTick(s, now).edges.Keys <= s.edges.Keys
  {
  }

  lemma IngestKeepsOff(s: State, c: Replica, f: Flow, e: EdgeKey, plus: Counts, minus: Counts)
    requires WellFormed(s) && Anchored(Ingest(s, f))
    requires OffBy(s, c, e, plus, minus) && e in Ingest(s, f).edges
    ensures OffBy(Ingest(s, f), c, e, plus, minus)
  {
    LeadInIsRun(s, f);
    LeadInQuiet(s, f);
    QuietRunGone(s, LeadInSteps(s, f));
    if IsCounted(s, f) {
      var step := CountStep(LeadIn(s, f), EdgeOf(s, f), f, VerdictCode(f.verdict).value);
      IngestLastStep(s, f);
      CountedEdgeNotGone(s, f);
      StepKeys(LeadIn(s, f), step);
      QuietRunKeepsOff(s, c, LeadInSteps(s, f), e, plus, minus);
      StepKeepsOff(LeadIn(s, f), c, step, e, plus, minus);
    } else {
      IngestIsLeadInAndRecord(s, f);
      QuietRunKeepsOff(s, c, LeadInSteps(s, f), e, plus, minus);
    }
  }

  lemma ListedEdge(s: State, now: int, t: Tick, e: EdgeKey) returns (i: nat)
    requires IsTick(s, now, t) && e in s.dirty
    ensures i < |t.edges| && t.edges[i].id == e && t.edges[i].counts == s.dirty[e]
  {
    assert e in EdgeIds(t.edges);
    i :| 0 <= i < |t.edges| && t.edges[i].id == e;
    assert IsIncrement(s, t.edges[i]);
  }

  lemma ListedTotals(c: Replica, t: Tick, i: nat)
    requires i < |t.edges| && DistinctEdges(t.edges) && t.edges[i].id in EdgeIds(t.edges)
    requires t.edges[i].id !in Elements(t.goneEdges)
    ensures TotalsOf(ApplyTick(c, t), t.edges[i].id) == TotalsOf(c, t.edges[i].id).Plus(t.edges[i].counts)
  {
    TickedKeys(c, t);
    TickedListed(c, t, i);
    AdvanceTotals(Found(c, t.edges[i]), t.edges[i], TickSecond(t));
    assert Found(c, t.edges[i]).totals == TotalsOf(c, t.edges[i].id);
  }

  lemma UnlistedTotals(c: Replica, t: Tick, e: EdgeKey)
    requires e !in EdgeIds(t.edges) && e !in Elements(t.goneEdges)
    ensures TotalsOf(ApplyTick(c, t), e) == TotalsOf(c, e)
  {
    TickedKeys(c, t);
    if e in c.edges {
      TickedUnlisted(c, t, e);
    }
  }

  /** A delivered tick adds to each surviving total exactly what was pending. */
  lemma DeliveredExactly(s: State, now: int, t: Tick, c: Replica, e: EdgeKey)
    requires GoneIsGone(s) && IsTick(s, now, t) && e in s.edges
    ensures TotalsOf(ApplyTick(c, t), e) == TotalsOf(c, e).Plus(Pending(s, e))
  {
    assert e !in Elements(t.goneEdges);
    if e in s.dirty {
      var i := ListedEdge(s, now, t, e);
      ListedTotals(c, t, i);
    } else {
      UnlistedTotals(c, t, e);
      PlusZero(TotalsOf(c, e));
    }
  }

  lemma TickKeepsOff(s: State, c: Replica, now: int, t: Tick, e: EdgeKey, plus: Counts, minus: Counts)
    requires WellFormed(s) && GoneIsGone(s) && IsTick(Expire(s, now), now, t)
    requires OffBy(s, c, e, plus, minus) && e in AfterTick(s, now).edges
    ensures OffBy(AfterTick(s, now), ApplyTick(c, t), e, plus, minus)
  {
    var steps := ExpireIsRun(s, now);
    QuietRunKeepsOff(s, c, steps, e, plus, minus);
    ExpireWellFormed(s, now);
    ExpiredGoneIsGone(s, now);
    DeliveredExactly(Expire(s, now), now, t, c, e);
    PlusZero(TotalsOf(ApplyTick(c, t), e));
  }

  // ---------- where an account begins ----------

  /** When a conversation opens, whatever the copy still shows of it is too much. */
  lemma OpenedOff(s: State, c: Replica, f: Flow, e: EdgeKey)
    requires WellFormed(s) && e !in s.edges && e in Ingest(s, f).edges
    ensures OffBy(Ingest(s, f), c, e, TotalsOf(c, e), ZERO)
  {
    LeadInIsRun(s, f);
    LeadInQuiet(s, f);
    QuietRunGone(s, LeadInSteps(s, f));
    IngestIsLeadInAndRecord(s, f);
    IngestLastStep(s, f);
    var s1, v := LeadIn(s, f), VerdictCode(f.verdict).value;
    StepKeys(s1, CountStep(s1, EdgeOf(s, f), f, v));
    assert e == EdgeOf(s, f) && e !in s1.edges;
    CountGrows(s1, e, f, v);
    StoredOff(s1, c, e, NextEdge(s1, e, f, v), v, HasDetail(f));
  }

  lemma StoredOff(s: State, c: Replica, ek: EdgeKey, x: Edge, v: Verdict, detail: bool)
    requires PendingExists(s) && ek !in s.edges && ek.src in s.nodes && ek.dst in s.nodes
    requires x.counts == CountsOf(s, ek).Plus(Unit(v))
    ensures OffBy(Store(s, ek, x, v, detail), c, ek, TotalsOf(c, ek), ZERO)
  {
    var s' := Store(s, ek, x, v, detail);
    assert Pending(s, ek) == ZERO && CountsOf(s, ek) == ZERO;
    assert Pending(s', ek) == ZERO.Plus(Unit(v)) && s'.edges[ek] == x;
    PlusSwap(TotalsOf(c, ek), ZERO.Plus(Unit(v)));
  }

  lemma PlusSwap(a: Counts, b: Counts)
    ensures a.Plus(b).Plus(ZERO) == b.Plus(a)
  {
  }

  /** What a tick carries for a conversation. */
  function Carried(es: seq<WireEdge>, e: EdgeKey): Counts
    decreases es
  {
    if es == [] then ZERO
    else if es[|es| - 1].id == e then es[|es| - 1].counts
    else Carried(es[..|es| - 1], e)
  }

  lemma {:induction false} CarriedAt(es: seq<WireEdge>, i: nat)
    requires i < |es| && DistinctEdges(es)
    ensures Carried(es, es[i].id) == es[i].counts
    decreases es
  {
    if i < |es| - 1 {
      assert es[..|es| - 1][i] == es[i];
      CarriedAt(es[..|es| - 1], i);
    }
  }

  lemma {:induction false} CarriedNone(es: seq<WireEdge>, e: EdgeKey)
    requires e !in EdgeIds(es)
    ensures Carried(es, e) == ZERO
    decreases es
  {
    if es != [] {
      EdgeIdsSnoc(es);
      CarriedNone(es[..|es| - 1], e);
    }
  }

  /** What any copy shows of any conversation after a tick. */
  lemma ShownAfterTick(c: Replica, t: Tick, e: EdgeKey)
    requires DistinctEdges(t.edges)
    ensures TotalsOf(ApplyTick(c, t), e) ==
            if e in t.goneEdges then ZERO else TotalsOf(c, e).Plus(Carried(t.edges, e))
  {
    TickedKeys(c, t);
    assert e in t.goneEdges <==> e in Elements(t.goneEdges);
    if e !in t.goneEdges {
      if e in EdgeIds(t.edges) {
        var i :| 0 <= i < |t.edges| && t.edges[i].id == e;
        ListedTotals(c, t, i);
        CarriedAt(t.edges, i);
      } else {
        UnlistedTotals(c, t, e);
        CarriedNone(t.edges, e);
        PlusZero(TotalsOf(c, e));
      }
    }
  }

  // ---------- a collision takes a live node off every copy ----------

  /** The tick after a collision on an announced anchor removes from every copy a node that
      stays in the graph. */
  lemma CollisionLosesNode(s: State, f: Flow, now: int, t: Tick, c: Replica)
    requires WellFormed(s) && Anchored(s) && PlausibleFlow(f)
    requires Collides(s, f) && Announced(s, Anchor(f.src.ip))
    requires IsTick(Expire(Ingest(s, f), now), now, t) && Cutoff(Ingest(s, f), now) <= f.time
    ensures Anchor(f.src.ip) in AfterTick(Ingest(s, f), now).nodes
    ensures Anchor(f.src.ip) !in ApplyTick(c, t).nodes
  {
    var s' := Ingest(s, f);
    AnnouncedComesBack(s, f);
    IngestWellFormed(s, f);
    TickKeepsExactly(s', now);
    assert Anchor(f.src.ip) in Expire(s', now).goneNodes;
    TickedKeys(c, t);
  }
}
