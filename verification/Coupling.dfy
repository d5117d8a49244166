/** What a browser that has been told everything knows between two ticks.

    The relation ties the server's graph, with what it still owes the clients, to one
    browser's copy. It holds for a fixed copy while flows come in, and delivering a tick
    carries it over. `drift` is what a snapshot counted twice. */
module Coupling {
  import opened Wire
  import opened GraphModel
  import opened GraphSteps
  import opened GraphInvariants
  import opened GraphAnchors
  import opened ReplicaModel

  type Drift = map<EdgeKey, Counts>

  function DriftOf(drift: Drift, e: EdgeKey): Counts {
    if e in drift then drift[e] else ZERO
  }

  function TotalsOf(c: Replica, e: EdgeKey): Counts {
    if e in c.edges then c.edges[e].totals else ZERO
  }

  function ShownDrops(c: Replica, e: EdgeKey): map<string, nat> {
    if e in c.edges then c.edges[e].drops else map[]
  }

  function ShownL7(c: Replica, e: EdgeKey): L7 {
    if e in c.edges then c.edges[e].l7 else NO_L7
  }

  // ---------- conversations ----------

  /** The browser has every conversation but those still pending, and what it has beyond
      that is on the list of the gone. */
  predicate EdgesKnown(s: State, c: Replica) {
    && (forall e :: e in s.edges ==> e in c.edges || e in s.dirty)
    && (forall e :: e in c.edges ==> e in s.edges || e in s.goneEdges)
    && (forall e :: e in c.edges ==> c.edges[e].src == e.src && c.edges[e].dst == e.dst)
  }

  /** What the browser shows and what is pending make up the server's counters. */
  predicate TotalsMatch(s: State, c: Replica, drift: Drift) {
    && (forall e :: e in s.edges ==>
          TotalsOf(c, e).Plus(Pending(s, e)) == s.edges[e].counts.Plus(DriftOf(drift, e)))
    && (forall e :: e in drift ==> e in c.edges)
  }

  predicate LastsMatch(s: State, c: Replica) {
    forall e :: e in s.edges && e in c.edges ==>
      && c.edges[e].last <= Millis(s.edges[e].last)
      && (e !in s.dirty ==> c.edges[e].last == Millis(s.edges[e].last))
  }

  predicate DetailsMatchAt(s: State, c: Replica, e: EdgeKey)
    requires e in s.edges
  {
    && (e !in s.dirtyL7 ==> ShownDrops(c, e) == s.edges[e].drops && ShownL7(c, e) == s.edges[e].l7)
    && (s.edges[e].drops == map[] ==> ShownDrops(c, e) == map[])
    && (s.edges[e].l7 == NO_L7 ==> ShownL7(c, e) == NO_L7)
  }

  predicate DetailsMatch(s: State, c: Replica) {
    forall e :: e in s.edges ==> DetailsMatchAt(s, c, e)
  }

  predicate EdgesCoupled(s: State, c: Replica, drift: Drift) {
    && EdgesKnown(s, c)
    && TotalsMatch(s, c, drift)
    && LastsMatch(s, c)
    && DetailsMatch(s, c)
  }

  // ---------- nodes ----------

  /** Every node is known to the browser or about to be announced. */
  predicate NodesCovered(s: State, c: Replica) {
    forall n :: n in s.nodes ==> n in c.nodes || n in s.newNodes
  }

  /** The browser has exactly the announced nodes and those it has yet to be told are
      gone, each on its machine unless a move is pending. */
  predicate NodesSynced(s: State, c: Replica) {
    && c.nodes.Keys == (s.nodes.Keys - s.newNodes) + s.goneNodes
    && (forall n :: n in s.nodes && n in c.nodes && n !in s.newNodes ==>
          && c.nodes[n].first == Millis(s.nodes[n].first)
          && (n !in s.dirtyNode ==> c.nodes[n].machine == s.nodes[n].placed.machine))
  }

  // ---------- one step, fixed browser ----------

  /** No conversation is opened again before the clients heard that it was gone. */
  predicate StepFresh(s: State, step: Step) {
    step.StoreStep? ==> step.ek !in s.goneEdges
  }

  /** What storing one conversation leaves alone. */
  lemma StoreFrame(s: State, ek: EdgeKey, e: Edge, v: Verdict, detail: bool, x: EdgeKey)
    requires ek.src in s.nodes && ek.dst in s.nodes && x != ek
    ensures var s' := Store(s, ek, e, v, detail);
            && (x in s'.edges <==> x in s.edges) && (x in s.edges ==> s'.edges[x] == s.edges[x])
            && (x in s'.dirty <==> x in s.dirty) && Pending(s', x) == Pending(s, x)
            && (x in s'.dirtyL7 <==> x in s.dirtyL7)
  {
  }

  lemma PlusShift(shown: Counts, pending: Counts, u: Counts, counts: Counts, drift: Counts)
    requires shown.Plus(pending) == counts.Plus(drift)
    ensures shown.Plus(pending.Plus(u)) == counts.Plus(u).Plus(drift)
  {
  }

  lemma TotalsBefore(s: State, c: Replica, drift: Drift, ek: EdgeKey)
    requires EdgesKnown(s, c) && TotalsMatch(s, c, drift) && PendingExists(s) && ek !in s.goneEdges
    ensures TotalsOf(c, ek).Plus(Pending(s, ek)) == CountsOf(s, ek).Plus(DriftOf(drift, ek))
  {
  }

  lemma StoreTotalsAt(s: State, c: Replica, drift: Drift, ek: EdgeKey, e: Edge, v: Verdict, detail: bool)
    requires EdgesKnown(s, c) && TotalsMatch(s, c, drift) && PendingExists(s)
    requires ek.src in s.nodes && ek.dst in s.nodes && ek !in s.goneEdges
    requires e.counts == CountsOf(s, ek).Plus(Unit(v))
    ensures TotalsOf(c, ek).Plus(Pending(Store(s, ek, e, v, detail), ek)) == e.counts.Plus(DriftOf(drift, ek))
  {
    TotalsBefore(s, c, drift, ek);
    PlusShift(TotalsOf(c, ek), Pending(s, ek), Unit(v), CountsOf(s, ek), DriftOf(drift, ek));
    assert Pending(Store(s, ek, e, v, detail), ek) == Pending(s, ek).Plus(Unit(v));
  }

  lemma StoreTotals(s: State, c: Replica, drift: Drift, ek: EdgeKey, e: Edge, v: Verdict, detail: bool)
    requires EdgesKnown(s, c) && TotalsMatch(s, c, drift) && PendingExists(s)
    requires ek.src in s.nodes && ek.dst in s.nodes && ek !in s.goneEdges
    requires e.counts == CountsOf(s, ek).Plus(Unit(v))
    ensures TotalsMatch(Store(s, ek, e, v, detail), c, drift)
  {
    var s' := Store(s, ek, e, v, detail);
    StoreTotalsAt(s, c, drift, ek, e, v, detail);
    forall x | x in s'.edges
      ensures TotalsOf(c, x).Plus(Pending(s', x)) == s'.edges[x].counts.Plus(DriftOf(drift, x))
    {
      if x != ek {
        StoreFrame(s, ek, e, v, detail, x);
      }
    }
  }

  lemma StoreKnown(s: State, c: Replica, ek: EdgeKey, e: Edge, v: Verdict, detail: bool)
    requires EdgesKnown(s, c) && ek.src in s.nodes && ek.dst in s.nodes
    ensures EdgesKnown(Store(s, ek, e, v, detail), c)
  {
  }

  lemma StoreLasts(s: State, c: Replica, ek: EdgeKey, e: Edge, v: Verdict, detail: bool)
    requires EdgesKnown(s, c) && LastsMatch(s, c)
    requires ek.src in s.nodes && ek.dst in s.nodes && ek !in s.goneEdges && LastOf(s, ek) <= e.last
    ensures LastsMatch(Store(s, ek, e, v, detail), c)
  {
  }

  lemma StoreDetails(s: State, c: Replica, ek: EdgeKey, e: Edge, v: Verdict, detail: bool)
    requires EdgesKnown(s, c) && DetailsMatch(s, c)
    requires ek.src in s.nodes && ek.dst in s.nodes && ek !in s.goneEdges && Grows(s, ek, e, v, detail)
    ensures DetailsMatch(Store(s, ek, e, v, detail), c)
  {
  }

  lemma CutCoupled(s: State, c: Replica, drift: Drift, gone: set<EdgeKey>)
    requires EdgesCoupled(s, c, drift)
    ensures EdgesCoupled(CutEdges(s, gone), c, drift)
  {
    var s' := CutEdges(s, gone);
    forall e | e in s'.edges ensures e in s.edges && s'.edges[e] == s.edges[e] && Pending(s', e) == Pending(s, e) {
    }
    forall e | e in s'.edges ensures DetailsMatchAt(s', c, e) {
      assert DetailsMatchAt(s, c, e);
    }
  }

  lemma StoreCoupled(s: State, c: Replica, drift: Drift, ek: EdgeKey, e: Edge, v: Verdict, detail: bool)
    requires PendingExists(s) && EdgesCoupled(s, c, drift)
    requires EndsRecent(s, ek, e.last) && Grows(s, ek, e, v, detail) && ek !in s.goneEdges
    ensures EdgesCoupled(Store(s, ek, e, v, detail), c, drift)
  {
    StoreTotals(s, c, drift, ek, e, v, detail);
    StoreKnown(s, c, ek, e, v, detail);
    StoreLasts(s, c, ek, e, v, detail);
    StoreDetails(s, c, ek, e, v, detail);
  }

  lemma StepKeepsEdges(s: State, c: Replica, drift: Drift, step: Step)
    requires Enabled(s, step) && StepFresh(s, step) && PendingExists(s) && EdgesCoupled(s, c, drift)
    ensures EdgesCoupled(Do(s, step), c, drift)
  {
    match step
    case CutStep(gone) => CutCoupled(s, c, drift, gone);
    case StoreStep(ek, e, v, detail) =>
      StoreCoupled(s, c, drift, ek, e, v, detail);
    case _ => SameBooks(s, Do(s, step), c, drift);
  }

  lemma SameBooks(s: State, s': State, c: Replica, drift: Drift)
    requires EdgesCoupled(s, c, drift)
    requires s'.edges == s.edges && s'.dirty == s.dirty && s'.dirtyL7 == s.dirtyL7 && s'.goneEdges == s.goneEdges
    ensures EdgesCoupled(s', c, drift)
  {
  }

  lemma StepKeepsCovered(s: State, c: Replica, step: Step)
    requires Enabled(s, step) && PendingExists(s) && NodesCovered(s, c)
    ensures NodesCovered(Do(s, step), c)
  {
  }

  lemma StepKeepsSynced(s: State, c: Replica, step: Step)
    requires Enabled(s, step) && PendingExists(s) && NodesSynced(s, c)
    ensures NodesSynced(Do(s, step), c)
  {
  }

  // ---------- runs, fixed browser ----------

  lemma {:induction false} RunKeepsEdges(s: State, c: Replica, drift: Drift, steps: seq<Step>)
    requires Legal(s, steps) && Quiet(steps) && WellFormed(s) && EdgesCoupled(s, c, drift)
    ensures EdgesCoupled(Run(s, steps), c, drift)
    decreases steps
  {
    if steps != [] {
      StepKeepsEdges(s, c, drift, steps[0]);
      StepKeepsWellFormed(s, steps[0]);
      RunKeepsEdges(Do(s, steps[0]), c, drift, steps[1..]);
    }
  }

  lemma {:induction false} RunKeepsCovered(s: State, c: Replica, steps: seq<Step>)
    requires Legal(s, steps) && WellFormed(s) && NodesCovered(s, c)
    ensures NodesCovered(Run(s, steps), c)
    decreases steps
  {
    if steps != [] {
      StepKeepsCovered(s, c, steps[0]);
      StepKeepsWellFormed(s, steps[0]);
      RunKeepsCovered(Do(s, steps[0]), c, steps[1..]);
    }
  }

  lemma {:induction false} RunKeepsSynced(s: State, c: Replica, steps: seq<Step>)
    requires Legal(s, steps) && WellFormed(s) && NodesSynced(s, c)
    ensures NodesSynced(Run(s, steps), c)
    decreases steps
  {
    if steps != [] {
      StepKeepsSynced(s, c, steps[0]);
      StepKeepsWellFormed(s, steps[0]);
      RunKeepsSynced(Do(s, steps[0]), c, steps[1..]);
    }
  }

  // ---------- the three relations the system keeps ----------

  /** Everything but the double counting of a snapshot taken between two ticks. */
  predicate Coupled(s: State, c: Replica, drift: Drift) {
    EdgesCoupled(s, c, drift) && NodesCovered(s, c)
  }

  predicate Synced(s: State, c: Replica) {
    EdgesCoupled(s, c, map[]) && NodesSynced(s, c)
  }

  lemma SyncedIsCoupled(s: State, c: Replica)
    requires Synced(s, c)
    ensures Coupled(s, c, map[])
  {
  }

  lemma LearnAllKeepsEdges(s: State, c: Replica, drift: Drift, addrs: seq<Address>)
    requires WellFormed(s) && EdgesCoupled(s, c, drift)
    ensures EdgesCoupled(LearnAll(s, addrs), c, drift)
    ensures NodesCovered(s, c) ==> NodesCovered(LearnAll(s, addrs), c)
    ensures NodesSynced(s, c) ==> NodesSynced(LearnAll(s, addrs), c)
  {
    LearnAllIsRun(s, addrs);
    LearnAllQuiet(s, addrs);
    RunKeepsEdges(s, c, drift, LearnAllSteps(s, addrs));
    if NodesCovered(s, c) {
      RunKeepsCovered(s, c, LearnAllSteps(s, addrs));
    }
    if NodesSynced(s, c) {
      RunKeepsSynced(s, c, LearnAllSteps(s, addrs));
    }
  }

  /** A flow that does not collide leaves the browser as informed as it was. */
  lemma IngestKeepsEdges(s: State, c: Replica, drift: Drift, f: Flow)
    requires WellFormed(s) && EdgesCoupled(s, c, drift) && Anchored(Ingest(s, f))
    ensures EdgesCoupled(Ingest(s, f), c, drift)
  {
    var s1 := LeadIn(s, f);
    LeadInIsRun(s, f);
    LeadInQuiet(s, f);
    RunKeepsEdges(s, c, drift, LeadInSteps(s, f));
    if IsCounted(s, f) {
      IngestLastStep(s, f);
      var step := CountStep(s1, EdgeOf(s, f), f, VerdictCode(f.verdict).value);
      CountedEdgeNotGone(s, f);
      StepKeepsEdges(s1, c, drift, step);
    } else {
      IngestIsLeadInAndRecord(s, f);
    }
  }

  lemma CountedEdgeNotGone(s: State, f: Flow)
    requires WellFormed(s) && IsCounted(s, f) && Anchored(Ingest(s, f))
    ensures EdgeOf(s, f) !in LeadIn(s, f).goneEdges
  {
    IngestWellFormed(s, f);
    AnchoredGoneIsGone(Ingest(s, f));
    IngestIsLeadInAndRecord(s, f);
    assert EdgeOf(s, f) in Ingest(s, f).edges;
    assert Ingest(s, f).goneEdges == LeadIn(s, f).goneEdges;
  }

  lemma IngestKeepsNodes(s: State, c: Replica, f: Flow)
    requires WellFormed(s)
    ensures NodesCovered(s, c) ==> NodesCovered(Ingest(s, f), c)
    ensures NodesSynced(s, c) ==> NodesSynced(Ingest(s, f), c)
  {
    var steps := IngestIsRun(s, f);
    if NodesCovered(s, c) {
      RunKeepsCovered(s, c, steps);
    }
    if NodesSynced(s, c) {
      RunKeepsSynced(s, c, steps);
    }
  }
}
