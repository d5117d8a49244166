/** A conversation against the flows it stands for (internal/graph/graph.go, Ingest): over any
    history of flows, addresses and ticks, everything the graph keeps about a conversation is
    what the flows counted on it since it was last opened say. */
module GraphHistory {
  import opened Wire
  import opened Rings
  import opened TopCounter
  import opened GraphModel
  import opened GraphSteps
  import opened GraphInvariants

  datatype Op = FlowOp(f: Flow) | LearnOp(addrs: seq<Address>) | TickOp(now: int)

  function Next(s: State, op: Op): State {
    match op
    case FlowOp(f) => Ingest(s, f)
    case LearnOp(addrs) => LearnAll(s, addrs)
    case TickOp(now) => AfterTick(s, now)
  }

  function After(retention: int, ops: seq<Op>): State
    decreases ops
  {
    if ops == [] then New(retention) else Next(After(retention, ops[..|ops| - 1]), ops[|ops| - 1])
  }

  lemma NextWellFormed(s: State, op: Op)
    requires WellFormed(s)
    ensures WellFormed(Next(s, op))
  {
    match op
    case FlowOp(f) =>
      assert Next(s, op) == Ingest(s, f);
      IngestWellFormed(s, f);
    case LearnOp(addrs) =>
      assert Next(s, op) == LearnAll(s, addrs);
      LearnAllWellFormed(s, addrs);
    case TickOp(now) =>
      assert Next(s, op) == AfterTick(s, now);
      AfterTickWellFormed(s, now);
  }

  /** Every state that any history reaches satisfies the invariant, whatever the flows. */
  lemma {:induction false} AfterWellFormed(retention: int, ops: seq<Op>)
    ensures WellFormed(After(retention, ops))
    decreases ops
  {
    if ops == [] {
      NewWellFormed(retention);
    } else {
      AfterWellFormed(retention, ops[..|ops| - 1]);
      NextWellFormed(After(retention, ops[..|ops| - 1]), ops[|ops| - 1]);
    }
  }

  /** The flows counted on a conversation since it was last opened, oldest first: expiry and
      the retirement of one of its ends start the list over. */
  function FlowsOf(retention: int, ops: seq<Op>, e: EdgeKey): seq<Flow>
    decreases ops
  {
    if ops == [] then []
    else
      var init, op := ops[..|ops| - 1], ops[|ops| - 1];
      FlowsAfter(After(retention, init), op, e, FlowsOf(retention, init, e))
  }

  function FlowsAfter(s: State, op: Op, e: EdgeKey, earlier: seq<Flow>): seq<Flow> {
    if op.FlowOp? && IsCounted(s, op.f) && EdgeOf(s, op.f) == e then
      (if e in Resolved(s, op.f).edges then earlier else []) + [op.f]
    else if e in Next(s, op).edges then earlier
    else []
  }

  // ---------- what a list of flows says ----------

  /** A conversation opened and raised by these flows, one after the other. */
  function Raised(slots: nat, fs: seq<Flow>): Edge
    requires 0 < slots
    decreases fs
  {
    if fs == [] then Edge(ZERO, ZERO_TIME, map[], NO_L7, Fresh(slots, SERVER_UNTOUCHED))
    else Bump(Raised(slots, fs[..|fs| - 1]), fs[|fs| - 1], CodeOf(fs[|fs| - 1]))
  }

  function CodeOf(f: Flow): Verdict {
    if VerdictCode(f.verdict).Some? then VerdictCode(f.verdict).value else Forwarded
  }

  function Number(fs: seq<Flow>, v: RawVerdict): nat
    decreases fs
  {
    if fs == [] then 0 else Number(fs[..|fs| - 1], v) + One(fs[|fs| - 1].verdict == v)
  }

  /** Each counter is the number of flows with one of its verdicts. */
  predicate CountsOfFlows(c: Counts, fs: seq<Flow>) {
    && c.f == Number(fs, RawForwarded) + Number(fs, RawRedirected) + Number(fs, RawTraced) + Number(fs, RawTranslated)
    && c.d == Number(fs, RawDropped) && c.a == Number(fs, RawAudit) && c.e == Number(fs, RawError)
    && c.Total() == |fs|
  }

  /** A time that is newest: one of the flows has it and none is newer. */
  predicate IsNewest(fs: seq<Flow>, t: int) {
    && (forall i :: 0 <= i < |fs| ==> fs[i].time <= t)
    && (t == ZERO_TIME || exists i :: 0 <= i < |fs| && fs[i].time == t)
  }

  function DropReason(f: Flow): seq<string> {
    if f.verdict == RawDropped && f.dropReason.Some? then [f.dropReason.value] else []
  }

  function Request(f: Flow): seq<string> {
    if f.l7.Some? && f.l7.value.Http? && !f.l7.value.response then [f.l7.value.entry] else []
  }

  function Query(f: Flow): seq<string> {
    if f.l7.Some? && f.l7.value.Dns? && f.l7.value.query != "" then [TrimDot(f.l7.value.query)] else []
  }

  /** What the flows yield under `g`, in their order. */
  function Gathered(fs: seq<Flow>, g: Flow -> seq<string>): seq<string>
    decreases fs
  {
    if fs == [] then [] else Gathered(fs[..|fs| - 1], g) + g(fs[|fs| - 1])
  }

  /** The status of the last response that had one. */
  function LastStatus(fs: seq<Flow>): nat
    decreases fs
  {
    if fs == [] then 0
    else
      var l := fs[|fs| - 1].l7;
      if l.Some? && l.value.Http? && l.value.response && l.value.code != 0 then l.value.code
      else LastStatus(fs[..|fs| - 1])
  }

  function Arrivals(fs: seq<Flow>): Log {
    seq(|fs|, i requires 0 <= i < |fs| => Entry(Seconds(fs[i].time), Unit(CodeOf(fs[i]))))
  }

  predicate AllCoded(fs: seq<Flow>) {
    forall i :: 0 <= i < |fs| ==> VerdictCode(fs[i].verdict).Some?
  }

  // ---------- one more flow ----------

  lemma RaisedSnoc(slots: nat, fs: seq<Flow>, f: Flow)
    requires 0 < slots
    ensures Raised(slots, fs + [f]) == Bump(Raised(slots, fs), f, CodeOf(f))
  {
    assert (fs + [f])[..|fs|] == fs;
  }

  lemma NumberSnoc(fs: seq<Flow>, f: Flow, v: RawVerdict)
    ensures Number(fs + [f], v) == Number(fs, v) + One(f.verdict == v)
  {
    assert (fs + [f])[..|fs|] == fs;
  }

  lemma CountsSnoc(c: Counts, fs: seq<Flow>, f: Flow)
    requires CountsOfFlows(c, fs) && VerdictCode(f.verdict).Some?
    ensures CountsOfFlows(c.Plus(Unit(CodeOf(f))), fs + [f])
  {
    NumberSnoc(fs, f, RawForwarded);
    NumberSnoc(fs, f, RawRedirected);
    NumberSnoc(fs, f, RawTraced);
    NumberSnoc(fs, f, RawTranslated);
    NumberSnoc(fs, f, RawDropped);
    NumberSnoc(fs, f, RawAudit);
    NumberSnoc(fs, f, RawError);
  }

  lemma NewestSnoc(fs: seq<Flow>, t: int, f: Flow)
    requires IsNewest(fs, t)
    ensures IsNewest(fs + [f], Max(t, f.time))
  {
    var fs' := fs + [f];
    assert fs'[|fs|] == f;
    if t != ZERO_TIME {
      var i :| 0 <= i < |fs| && fs[i].time == t;
      assert fs'[i].time == t;
    }
  }

  lemma GatheredSnoc(fs: seq<Flow>, f: Flow, g: Flow -> seq<string>)
    ensures Gathered(fs + [f], g) == Gathered(fs, g) + g(f)
  {
    assert (fs + [f])[..|fs|] == fs;
  }

  lemma FedSnoc(keys: seq<string>, k: string)
    ensures Fed(keys + [k]) == TopAdd(Fed(keys), k)
    ensures Fed(keys + []) == Fed(keys)
  {
    assert (keys + [k])[..|keys|] == keys;
    assert keys + [] == keys;
  }

  lemma DropsSnoc(drops: map<string, nat>, keys: seq<string>, f: Flow)
    requires drops == Fed(keys)
    ensures NewDrops(drops, f) == Fed(keys + DropReason(f))
  {
    FedSnoc(keys, if f.dropReason.Some? then f.dropReason.value else "");
  }

  lemma HttpSnoc(l: L7, keys: seq<string>, f: Flow)
    requires l.http == Fed(keys)
    ensures NewL7(l, f).http == Fed(keys + Request(f))
  {
    FedSnoc(keys, if f.l7.Some? && f.l7.value.Http? then f.l7.value.entry else "");
    if f.l7.Some? && f.l7.value.Http? && !f.l7.value.response {
      assert NewL7(l, f).http == TopAdd(l.http, f.l7.value.entry);
    } else {
      assert Request(f) == [] && NewL7(l, f).http == l.http;
    }
  }

  lemma DnsSnoc(l: L7, keys: seq<string>, f: Flow)
    requires l.dns == Fed(keys)
    ensures NewL7(l, f).dns == Fed(keys + Query(f))
  {
    FedSnoc(keys, if f.l7.Some? && f.l7.value.Dns? then TrimDot(f.l7.value.query) else "");
    if f.l7.Some? && f.l7.value.Dns? && f.l7.value.query != "" {
      assert NewL7(l, f).dns == TopAdd(l.dns, TrimDot(f.l7.value.query));
    } else {
      assert Query(f) == [] && NewL7(l, f).dns == l.dns;
    }
  }

  lemma StatusSnoc(l: L7, fs: seq<Flow>, f: Flow)
    requires l.status == LastStatus(fs)
    ensures NewL7(l, f).status == LastStatus(fs + [f])
  {
    assert (fs + [f])[..|fs|] == fs;
  }

  lemma ArrivalsSnoc(fs: seq<Flow>, f: Flow)
    ensures Arrivals(fs + [f]) == Arrivals(fs) + [Entry(Seconds(f.time), Unit(CodeOf(f)))]
  {
  }

  lemma AddAllSnoc(r: LiveRing, log: Log, e: Entry)
    ensures AddAll(r, log + [e]) == Add(AddAll(r, log), e.sec, e.d)
  {
    assert (log + [e])[..|log|] == log;
  }

  /** What a conversation keeps, told from its flows alone. */
  ghost predicate Tells(x: Edge, slots: nat, fs: seq<Flow>)
    requires 0 < slots
  {
    && CountsOfFlows(x.counts, fs)
    && IsNewest(fs, x.last)
    && x.drops == Fed(Gathered(fs, DropReason))
    && x.l7.http == Fed(Gathered(fs, Request))
    && x.l7.dns == Fed(Gathered(fs, Query))
    && x.l7.status == LastStatus(fs)
    && x.ring == AddAll(Fresh(slots, SERVER_UNTOUCHED), Arrivals(fs))
  }

  lemma TellsSnoc(x: Edge, slots: nat, fs: seq<Flow>, f: Flow)
    requires 0 < slots && Tells(x, slots, fs) && VerdictCode(f.verdict).Some?
    ensures Tells(Bump(x, f, CodeOf(f)), slots, fs + [f])
  {
    CountsSnoc(x.counts, fs, f);
    NewestSnoc(fs, x.last, f);
    GatheredSnoc(fs, f, DropReason);
    GatheredSnoc(fs, f, Request);
    GatheredSnoc(fs, f, Query);
    DropsSnoc(x.drops, Gathered(fs, DropReason), f);
    HttpSnoc(x.l7, Gathered(fs, Request), f);
    DnsSnoc(x.l7, Gathered(fs, Query), f);
    StatusSnoc(x.l7, fs, f);
    ArrivalsSnoc(fs, f);
    AddAllSnoc(Fresh(slots, SERVER_UNTOUCHED), Arrivals(fs), Entry(Seconds(f.time), Unit(CodeOf(f))));
  }

  lemma {:induction false} RaisedTells(slots: nat, fs: seq<Flow>)
    requires 0 < slots && AllCoded(fs)
    ensures Tells(Raised(slots, fs), slots, fs)
    decreases fs
  {
    if fs != [] {
      var init, f := fs[..|fs| - 1], fs[|fs| - 1];
      assert fs == init + [f];
      RaisedTells(slots, init);
      RaisedSnoc(slots, init, f);
      TellsSnoc(Raised(slots, init), slots, init, f);
    }
  }

  // ---------- the graph keeps exactly that ----------

  /** A run that counts nothing changes no conversation that it leaves in place. */
  lemma {:induction false} QuietRunEdges(s: State, steps: seq<Step>)
    requires Legal(s, steps) && forall i :: 0 <= i < |steps| ==> !steps[i].StoreStep?
    ensures Run(s, steps).retention == s.retention
    ensures forall e :: e in Run(s, steps).edges ==> e in s.edges && Run(s, steps).edges[e] == s.edges[e]
    decreases steps
  {
    if steps != [] {
      QuietRunEdges(Do(s, steps[0]), steps[1..]);
    }
  }

  lemma PreparedEdges(s: State, src: NodeKey, dst: NodeKey, f: Flow)
    ensures Prepared(s, src, dst, f).edges == s.edges
  {
  }

  lemma LeadInEdges(s: State, f: Flow)
    ensures LeadIn(s, f).retention == s.retention
    ensures forall e :: e in LeadIn(s, f).edges ==> e in s.edges && LeadIn(s, f).edges[e] == s.edges[e]
  {
    LeadInIsRun(s, f);
    LeadInQuiet(s, f);
    QuietRunEdges(s, LeadInSteps(s, f));
  }

  lemma IngestEdges(s: State, f: Flow, e: EdgeKey)
    requires e in Ingest(s, f).edges
    ensures if IsCounted(s, f) && EdgeOf(s, f) == e then
              && (e in Resolved(s, f).edges ==> e in s.edges)
              && Ingest(s, f).edges[e] ==
                 Bump(if e in Resolved(s, f).edges then s.edges[e] else FreshEdge(s), f, CodeOf(f))
            else e in s.edges && Ingest(s, f).edges[e] == s.edges[e]
  {
    LeadInEdges(s, f);
    IngestIsLeadInAndRecord(s, f);
    if IsCounted(s, f) {
      var s1, ek := LeadIn(s, f), EdgeOf(s, f);
      PreparedEdges(Resolved(s, f), SrcKey(s, f), DstKey(s, f), f);
      assert FreshEdge(s1) == FreshEdge(s);
      assert Ingest(s, f).edges ==
             s1.edges[ek := Bump(if ek in s1.edges then s1.edges[ek] else FreshEdge(s1), f, CodeOf(f))];
    }
  }

  lemma CountedEdges(s: State, f: Flow, e: EdgeKey)
    requires IsCounted(s, f) && EdgeOf(s, f) == e
    ensures e in Resolved(s, f).edges ==> e in s.edges
    ensures e in Ingest(s, f).edges ==>
              Ingest(s, f).edges[e] ==
              Bump(if e in Resolved(s, f).edges then s.edges[e] else FreshEdge(s), f, CodeOf(f))
  {
    LeadInEdges(s, f);
    PreparedEdges(Resolved(s, f), SrcKey(s, f), DstKey(s, f), f);
    if e in Ingest(s, f).edges {
      IngestEdges(s, f, e);
    }
  }

  lemma LearnAllEdges(s: State, addrs: seq<Address>)
    ensures LearnAll(s, addrs).retention == s.retention
    ensures forall e :: e in LearnAll(s, addrs).edges ==> e in s.edges && LearnAll(s, addrs).edges[e] == s.edges[e]
  {
    LearnAllIsRun(s, addrs);
    LearnAllQuiet(s, addrs);
    QuietRunEdges(s, LearnAllSteps(s, addrs));
  }

  lemma NextRetention(s: State, op: Op)
    ensures Next(s, op).retention == s.retention
  {
    match op
    case FlowOp(f) =>
      LeadInEdges(s, f);
      IngestIsLeadInAndRecord(s, f);
    case LearnOp(addrs) => LearnAllEdges(s, addrs);
    case TickOp(now) =>
  }

  /** A conversation, if there, is what its flows make of it. */
  predicate IsRaised(s: State, e: EdgeKey, fs: seq<Flow>) {
    e in s.edges ==> s.edges[e] == Raised(SlotCount(s), fs) && AllCoded(fs)
  }

  lemma KeptIsRaised(s: State, s': State, e: EdgeKey, fs: seq<Flow>)
    requires IsRaised(s, e, fs) && s'.retention == s.retention
    requires e in s'.edges ==> e in s.edges && s'.edges[e] == s.edges[e]
    ensures IsRaised(s', e, if e in s'.edges then fs else [])
  {
  }

  lemma FreshIsRaised(s: State)
    ensures FreshEdge(s) == Raised(SlotCount(s), [])
  {
  }

  lemma BumpIsRaised(slots: nat, fs: seq<Flow>, f: Flow)
    requires 0 < slots && AllCoded(fs) && VerdictCode(f.verdict).Some?
    ensures Bump(Raised(slots, fs), f, CodeOf(f)) == Raised(slots, fs + [f])
    ensures AllCoded(fs + [f])
  {
    RaisedSnoc(slots, fs, f);
    CodedSnoc(fs, f);
  }

  lemma CodedSnoc(fs: seq<Flow>, f: Flow)
    requires AllCoded(fs) && VerdictCode(f.verdict).Some?
    ensures AllCoded(fs + [f])
  {
    var fs' := fs + [f];
    forall i | 0 <= i < |fs'| ensures VerdictCode(fs'[i].verdict).Some? {
      if i < |fs| {
        assert fs'[i] == fs[i];
      }
    }
  }

  lemma CountedIsRaised(s: State, s': State, f: Flow, e: EdgeKey, fs: seq<Flow>, known: bool)
    requires IsRaised(s, e, fs) && s'.retention == s.retention && VerdictCode(f.verdict).Some?
    requires known ==> e in s.edges
    requires e in s'.edges ==> s'.edges[e] == Bump(if known then s.edges[e] else FreshEdge(s), f, CodeOf(f))
    ensures IsRaised(s', e, (if known then fs else []) + [f])
  {
    FreshIsRaised(s);
    BumpIsRaised(SlotCount(s), if known then fs else [], f);
  }

  lemma NextIsRaised(s: State, op: Op, e: EdgeKey, fs: seq<Flow>)
    requires IsRaised(s, e, fs)
    ensures IsRaised(Next(s, op), e, FlowsAfter(s, op, e, fs))
  {
    NextRetention(s, op);
    if op.FlowOp? && IsCounted(s, op.f) && EdgeOf(s, op.f) == e {
      CountedEdges(s, op.f, e);
      CountedIsRaised(s, Ingest(s, op.f), op.f, e, fs, e in Resolved(s, op.f).edges);
    } else {
      if op.FlowOp? && e in Next(s, op).edges {
        IngestEdges(s, op.f, e);
      } else if op.LearnOp? {
        LearnAllEdges(s, op.addrs);
      }
      KeptIsRaised(s, Next(s, op), e, fs);
    }
  }

  /** Over every history: a conversation in the graph is exactly what its flows make of it. */
  lemma {:induction false} ConversationIsItsFlows(retention: int, ops: seq<Op>, e: EdgeKey)
    ensures IsRaised(After(retention, ops), e, FlowsOf(retention, ops, e))
    decreases ops
  {
    if ops != [] {
      var init, op := ops[..|ops| - 1], ops[|ops| - 1];
      ConversationIsItsFlows(retention, init, e);
      NextIsRaised(After(retention, init), op, e, FlowsOf(retention, init, e));
    }
  }

  /** So each verdict's counter is the number of its flows, the last time is the newest, the
      drop reasons and layer-7 paths are the bounded counters of theirs, the status is that of
      the last response, and while no flow
      is a whole ring late, the ring tells how many flows each recent second had. */
  lemma ConversationTheorem(retention: int, ops: seq<Op>, e: EdgeKey)
    requires e in After(retention, ops).edges
    ensures var s, fs := After(retention, ops), FlowsOf(retention, ops, e);
            && Tells(s.edges[e], SlotCount(s), fs)
            && (Timely(Arrivals(fs), SlotCount(s)) ==> Agrees(s.edges[e].ring, Arrivals(fs)))
  {
    ConversationIsItsFlows(retention, ops, e);
    var s, fs := After(retention, ops), FlowsOf(retention, ops, e);
    RaisedTells(SlotCount(s), fs);
    if Timely(Arrivals(fs), SlotCount(s)) {
      RingRefinesLog(SlotCount(s), SERVER_UNTOUCHED, Arrivals(fs));
    }
  }

  /** And every drop reason but "other" is counted as often as it occurred. */
  lemma DropReasonsExact(retention: int, ops: seq<Op>, e: EdgeKey, reason: string)
    requires e in After(retention, ops).edges
    requires reason in After(retention, ops).edges[e].drops && reason != OTHER
    ensures After(retention, ops).edges[e].drops[reason] ==
            Occurrences(Gathered(FlowsOf(retention, ops, e), DropReason), reason)
  {
    ConversationTheorem(retention, ops, e);
    FedExact(Gathered(FlowsOf(retention, ops, e), DropReason), reason);
  }
}
