/** What waits for the next tick (internal/graph/graph.go), told from the flows since the last:
    the increment of a conversation, whether its details are sent again, and which nodes are. */
module Increments {
  import opened Wire
  import opened Endpoints
  import opened GraphModel
  import opened GraphSteps
  import opened GraphInvariants
  import opened GraphHistory
  import opened NodeHistory

  /** The flows counted on a conversation since the last tick, and since it was opened. */
  function SinceTick(retention: int, ops: seq<Op>, e: EdgeKey): seq<Flow>
    decreases ops
  {
    if ops == [] then []
    else
      var init, op := ops[..|ops| - 1], ops[|ops| - 1];
      SinceAfter(After(retention, init), op, e, SinceTick(retention, init, e))
  }

  function SinceAfter(s: State, op: Op, e: EdgeKey, earlier: seq<Flow>): seq<Flow> {
    if op.TickOp? then [] else FlowsAfter(s, op, e, earlier)
  }

  /** The flow tells why it was dropped, or what it carried. */
  predicate Detailed(f: Flow) {
    (f.verdict == RawDropped && f.dropReason.Some?) || f.l7.Some?
  }

  predicate AnyDetailed(fs: seq<Flow>) {
    exists i :: 0 <= i < |fs| && Detailed(fs[i])
  }

  /** What is pending for a conversation is what these flows say. */
  predicate PendingOf(s: State, e: EdgeKey, fs: seq<Flow>) {
    && (e in s.dirty <==> fs != [])
    && (e in s.dirty ==> CountsOfFlows(s.dirty[e], fs))
    && (e in s.dirtyL7 <==> AnyDetailed(fs))
  }

  // ---------- steps that count nothing ----------

  predicate Nested(s: State) {
    s.dirty.Keys <= s.edges.Keys && s.dirtyL7 <= s.dirty.Keys
  }

  /** What survives keeps its increment. */
  ghost predicate KeepsPending(s: State, s': State) {
    && (forall e :: e in s'.dirty <==> e in s.dirty && e in s'.edges)
    && (forall e :: e in s'.dirty && e in s.dirty ==> s'.dirty[e] == s.dirty[e])
    && (forall e :: e in s'.dirtyL7 <==> e in s.dirtyL7 && e in s'.edges)
  }

  lemma StepPending(s: State, step: Step)
    requires Enabled(s, step) && !step.StoreStep? && Nested(s)
    ensures Nested(Do(s, step)) && KeepsPending(s, Do(s, step))
  {
  }

  lemma {:induction false} QuietRunPending(s: State, steps: seq<Step>)
    requires Legal(s, steps) && Quiet(steps) && Nested(s)
    ensures Nested(Run(s, steps)) && KeepsPending(s, Run(s, steps))
    decreases steps
  {
    if steps != [] {
      var s1 := Do(s, steps[0]);
      StepPending(s, steps[0]);
      assert forall i :: 0 <= i < |steps[1..]| ==> steps[1..][i] == steps[i + 1];
      QuietRunPending(s1, steps[1..]);
      QuietRunEdges(s1, steps[1..]);
    }
  }

  lemma LeadInPending(s: State, f: Flow)
    requires Nested(s)
    ensures Nested(LeadIn(s, f)) && KeepsPending(s, LeadIn(s, f))
  {
    LeadInIsRun(s, f);
    LeadInQuiet(s, f);
    QuietRunPending(s, LeadInSteps(s, f));
  }

  lemma LearnAllPending(s: State, addrs: seq<Address>)
    requires Nested(s)
    ensures Nested(LearnAll(s, addrs)) && KeepsPending(s, LearnAll(s, addrs))
  {
    LearnAllIsRun(s, addrs);
    LearnAllQuiet(s, addrs);
    QuietRunPending(s, LearnAllSteps(s, addrs));
  }

  // ---------- one operation ----------

  lemma DetailedSnoc(fs: seq<Flow>, f: Flow)
    ensures AnyDetailed(fs + [f]) <==> AnyDetailed(fs) || Detailed(f)
  {
    var all := fs + [f];
    assert all[|fs|] == f;
    if i :| 0 <= i < |fs| && Detailed(fs[i]) {
      assert Detailed(all[i]);
    }
    if i :| 0 <= i < |all| && Detailed(all[i]) {
      assert i < |fs| ==> Detailed(fs[i]);
    }
  }

  lemma PendingTold(s: State, e: EdgeKey, fs: seq<Flow>)
    requires PendingOf(s, e, fs)
    ensures CountsOfFlows(Pending(s, e), fs)
  {
  }

  lemma CountsGrow(c: Counts, c': Counts, fs: seq<Flow>, f: Flow)
    requires CountsOfFlows(c, fs) && VerdictCode(f.verdict).Some? && c' == c.Plus(Unit(CodeOf(f)))
    ensures CountsOfFlows(c', fs + [f])
  {
    CountsSnoc(c, fs, f);
  }

  lemma SumSnoc(s: State, s': State, e: EdgeKey, fs: seq<Flow>, f: Flow)
    requires PendingOf(s, e, fs) && VerdictCode(f.verdict).Some?
    requires e in s'.dirty && s'.dirty[e] == Pending(s, e).Plus(Unit(CodeOf(f)))
    ensures CountsOfFlows(s'.dirty[e], fs + [f])
  {
    PendingTold(s, e, fs);
    CountsGrow(Pending(s, e), s'.dirty[e], fs, f);
  }

  lemma PendingSnoc(s: State, s': State, e: EdgeKey, fs: seq<Flow>, f: Flow, all: seq<Flow>)
    requires PendingOf(s, e, fs) && VerdictCode(f.verdict).Some? && all == fs + [f]
    requires e in s'.dirty && s'.dirty[e] == Pending(s, e).Plus(Unit(CodeOf(f)))
    requires e in s'.dirtyL7 <==> e in s.dirtyL7 || Detailed(f)
    ensures PendingOf(s', e, all)
  {
    SumSnoc(s, s', e, fs, f);
    DetailedSnoc(fs, f);
    assert all[|fs|] == f;
  }

  lemma StoredPending(s: State, ek: EdgeKey, f: Flow, v: Verdict, e: EdgeKey)
    requires ek.src in s.nodes && ek.dst in s.nodes
    ensures var s' := Record(s, ek, f, v);
            if e == ek then
              && e in s'.dirty && s'.dirty[e] == Pending(s, e).Plus(Unit(v))
              && (e in s'.dirtyL7 <==> e in s.dirtyL7 || Detailed(f))
            else
              && (e in s'.dirty <==> e in s.dirty) && (e in s.dirty ==> s'.dirty[e] == s.dirty[e])
              && (e in s'.dirtyL7 <==> e in s.dirtyL7) && (e in s'.edges <==> e in s.edges)
  {
    assert Record(s, ek, f, v) == Store(s, ek, NextEdge(s, ek, f, v), v, Detailed(f));
    StorePending(s, ek, NextEdge(s, ek, f, v), v, Detailed(f), e);
  }

  lemma StorePending(s: State, ek: EdgeKey, x: Edge, v: Verdict, detail: bool, e: EdgeKey)
    requires ek.src in s.nodes && ek.dst in s.nodes
    ensures var s' := Store(s, ek, x, v, detail);
            if e == ek then
              && e in s'.dirty && s'.dirty[e] == Pending(s, e).Plus(Unit(v))
              && (e in s'.dirtyL7 <==> e in s.dirtyL7 || detail)
            else
              && (e in s'.dirty <==> e in s.dirty) && (e in s.dirty ==> s'.dirty[e] == s.dirty[e])
              && (e in s'.dirtyL7 <==> e in s.dirtyL7) && (e in s'.edges <==> e in s.edges)
  {
  }

  lemma KeptPending(s: State, s': State, e: EdgeKey, fs: seq<Flow>)
    requires PendingOf(s, e, fs) && KeepsPending(s, s')
    ensures PendingOf(s', e, if e in s'.edges then fs else [])
  {
  }

  lemma RecordPending(s: State, ek: EdgeKey, f: Flow, e: EdgeKey, fs: seq<Flow>)
    requires ek.src in s.nodes && ek.dst in s.nodes && VerdictCode(f.verdict).Some? && PendingOf(s, e, fs)
    ensures PendingOf(Record(s, ek, f, CodeOf(f)), e, if e == ek then fs + [f] else fs)
    ensures e != ek ==> (e in Record(s, ek, f, CodeOf(f)).edges <==> e in s.edges)
  {
    StoredPending(s, ek, f, CodeOf(f), e);
    if e == ek {
      PendingSnoc(s, Record(s, ek, f, CodeOf(f)), e, fs, f, fs + [f]);
    } else {
      SamePending(s, Record(s, ek, f, CodeOf(f)), e, fs);
    }
  }

  lemma FlowPending(s: State, f: Flow, e: EdgeKey, fs: seq<Flow>)
    requires WellFormed(s) && PendingOf(s, e, fs)
    ensures PendingOf(Ingest(s, f), e, FlowsAfter(s, FlowOp(f), e, fs))
  {
    var s1 := LeadIn(s, f);
    var kept := if e in s1.edges then fs else [];
    LeadInPending(s, f);
    IngestIsLeadInAndRecord(s, f);
    KeptPending(s, s1, e, fs);
    if IsCounted(s, f) {
      PreparedEdges(Resolved(s, f), SrcKey(s, f), DstKey(s, f), f);
      RecordPending(s1, EdgeOf(s, f), f, e, kept);
    }
    FlowsKept(s, f, e, fs);
  }

  lemma FlowsKept(s: State, f: Flow, e: EdgeKey, fs: seq<Flow>)
    ensures var kept := if e in LeadIn(s, f).edges then fs else [];
            FlowsAfter(s, FlowOp(f), e, fs) == if IsCounted(s, f) && e == EdgeOf(s, f) then kept + [f] else kept
  {
    IngestIsLeadInAndRecord(s, f);
    if IsCounted(s, f) {
      PreparedEdges(Resolved(s, f), SrcKey(s, f), DstKey(s, f), f);
      assert e != EdgeOf(s, f) ==> (e in Ingest(s, f).edges <==> e in LeadIn(s, f).edges);
    }
  }

  lemma SamePending(s: State, s': State, e: EdgeKey, fs: seq<Flow>)
    requires PendingOf(s, e, fs)
    requires (e in s'.dirty <==> e in s.dirty) && (e in s.dirty && e in s'.dirty ==> s'.dirty[e] == s.dirty[e])
    requires e in s'.dirtyL7 <==> e in s.dirtyL7
    ensures PendingOf(s', e, fs)
  {
  }

  lemma NextPending(s: State, op: Op, e: EdgeKey, fs: seq<Flow>)
    requires WellFormed(s) && PendingOf(s, e, fs)
    ensures PendingOf(Next(s, op), e, SinceAfter(s, op, e, fs))
  {
    match op
    case FlowOp(f) =>
      assert Next(s, op) == Ingest(s, f);
      FlowPending(s, f, e, fs);
    case LearnOp(addrs) =>
      LearnAllPending(s, addrs);
      KeptPending(s, LearnAll(s, addrs), e, fs);
    case TickOp(now) =>
  }

  /** Over every history: a conversation waits for the next tick exactly if flows were counted on
      it since the last, its increment is their numbers by verdict, and its details are sent
      again exactly if one of them told any. */
  lemma {:induction false} IncrementsAreFlows(retention: int, ops: seq<Op>, e: EdgeKey)
    ensures PendingOf(After(retention, ops), e, SinceTick(retention, ops, e))
    decreases ops
  {
    if ops != [] {
      var init, op := ops[..|ops| - 1], ops[|ops| - 1];
      IncrementsAreFlows(retention, init, e);
      AfterWellFormed(retention, init);
      NextPending(After(retention, init), op, e, SinceTick(retention, init, e));
    }
  }

  // ---------- nodes ----------

  /** What survives is as new, and waits as much, as before. */
  predicate KeepsFlags(s: State, s': State) {
    && s'.nodes.Keys <= s.nodes.Keys
    && s'.newNodes == s.newNodes * s'.nodes.Keys
    && s'.dirtyNode == s.dirtyNode * s'.nodes.Keys
  }

  predicate FlagsNested(s: State) {
    s.newNodes <= s.nodes.Keys && s.dirtyNode <= s.nodes.Keys && s.newNodes !! s.dirtyNode
  }

  lemma LearnFlags(s: State, ip: string, machine: string)
    requires FlagsNested(s)
    ensures KeepsFlags(s, Learn(s, ip, machine)) && FlagsNested(Learn(s, ip, machine))
  {
    RetireFlags(Name(s, ip, machine), ip);
  }

  lemma RetireFlags(s: State, ip: string)
    requires FlagsNested(s)
    ensures KeepsFlags(s, Retire(s, ip)) && FlagsNested(Retire(s, ip))
  {
  }

  lemma SideFlags(s: State, side: Side, observer: string)
    requires FlagsNested(s)
    ensures KeepsFlags(s, AfterSide(s, side, observer)) && FlagsNested(AfterSide(s, side, observer))
  {
    match Teaches(side, observer)
    case Some(ip) => LearnFlags(s, ip, observer);
    case None =>
  }

  lemma ResolvedFlags(s: State, f: Flow)
    requires FlagsNested(s)
    ensures KeepsFlags(s, Resolved(s, f)) && FlagsNested(Resolved(s, f))
  {
    SideFlags(s, f.src, f.observer);
    SideFlags(AfterSide(s, f.src, f.observer), f.dst, f.observer);
  }

  lemma {:induction false} LearnAllFlags(s: State, addrs: seq<Address>)
    requires FlagsNested(s)
    ensures KeepsFlags(s, LearnAll(s, addrs)) && FlagsNested(LearnAll(s, addrs))
    decreases addrs
  {
    if addrs != [] {
      var init, a := addrs[..|addrs| - 1], addrs[|addrs| - 1];
      LearnAllFlags(s, init);
      LearnFlags(LearnAll(s, init), a.ip, a.machine);
    }
  }

  function MachineOf(s: State, k: NodeKey): string {
    if k in s.nodes then s.nodes[k].placed.machine else ""
  }

  lemma TouchFlags(s: State, src: NodeKey, dst: NodeKey, f: Flow, k: NodeKey)
    ensures var s' := Touched(s, src, dst, f);
            && (k in s'.newNodes <==> k in s.newNodes || (k !in s.nodes && (k == src || k == dst)))
            && (k in s'.dirtyNode <==> k in s.dirtyNode) && MachineOf(s', k) == MachineOf(s, k)
  {
  }

  lemma PlaceFlags(s: State, k: NodeKey, machine: string, n: NodeKey)
    requires k in s.nodes
    ensures var s' := PlaceOn(s, k, machine);
            && s'.newNodes == s.newNodes && s'.nodes.Keys == s.nodes.Keys
            && (n in s'.dirtyNode <==> n in s.dirtyNode || (n !in s.newNodes && MachineOf(s', n) != MachineOf(s, n)))
  {
  }

  lemma PreparedFlags(s: State, src: NodeKey, dst: NodeKey, f: Flow, k: NodeKey)
    requires FlagsNested(s)
    ensures var s' := Prepared(s, src, dst, f);
            && (k in s'.newNodes <==> k in s.newNodes || (k !in s.nodes && (k == src || k == dst)))
            && (k in s'.dirtyNode <==> k in s.dirtyNode || (k !in s'.newNodes && MachineOf(s', k) != MachineOf(s, k)))
  {
    TouchFlags(s, src, dst, f, k);
    var s1 := Touched(s, src, dst, f);
    if f.direction.Egress? {
      PlaceFlags(s1, src, f.observer, k);
    } else if f.direction.Ingress? {
      PlaceFlags(s1, dst, f.observer, k);
    }
  }

  lemma RecordFlags(s: State, ek: EdgeKey, f: Flow, v: Verdict, k: NodeKey)
    requires ek.src in s.nodes && ek.dst in s.nodes && ek.src != ek.dst
    ensures var s' := Record(s, ek, f, v);
            && s'.newNodes == s.newNodes && s'.dirtyNode == s.dirtyNode && s'.nodes.Keys == s.nodes.Keys
            && MachineOf(s', k) == MachineOf(s, k)
  {
    RecordNodes(s, ek, f, v);
  }

  /** A node waits to be sent again exactly if clients have been told of it and its machine is
      another than before: the operation does that, or one since the last tick did. */
  predicate WaitsExactly(s: State, s': State, k: NodeKey) {
    k in s'.dirtyNode <==>
    k in s'.nodes && k !in s'.newNodes && (k in s.dirtyNode || (k in s.nodes && MachineOf(s', k) != MachineOf(s, k)))
  }

  lemma FlowWaits(s: State, f: Flow, k: NodeKey)
    requires WellFormed(s)
    ensures WaitsExactly(s, Ingest(s, f), k)
  {
    var s0 := Resolved(s, f);
    ResolvedFlags(s, f);
    ResolvedNodes(s, f);
    IngestIsLeadInAndRecord(s, f);
    if IsCounted(s, f) {
      var src, dst := SrcKey(s, f), DstKey(s, f);
      PreparedFlags(s0, src, dst, f, k);
      PreparedNode(s0, src, dst, f, k);
      RecordFlags(LeadIn(s, f), EdgeOf(s, f), f, CodeOf(f), k);
    }
  }

  /** Over every history: what each operation makes of the nodes that wait. */
  lemma MovesExactly(retention: int, ops: seq<Op>, op: Op, k: NodeKey)
    ensures var s, s' := After(retention, ops), After(retention, ops + [op]);
            if op.TickOp? then s'.dirtyNode == {} else WaitsExactly(s, s', k)
  {
    var s := After(retention, ops);
    assert (ops + [op])[..|ops|] == ops;
    AfterWellFormed(retention, ops);
    match op
    case FlowOp(f) => FlowWaits(s, f, k);
    case LearnOp(addrs) =>
      LearnAllFlags(s, addrs);
      LearnAllNodes(s, addrs);
    case TickOp(now) =>
  }
}
