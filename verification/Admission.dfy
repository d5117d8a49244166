/** Which flows are counted, and under which names (internal/graph/graph.go, Ingest;
    internal/graph/l7.go), told from the flows alone. */
module Admission {
  import opened Wire
  import opened TopCounter
  import opened GraphModel
  import opened GraphSteps
  import opened GraphInvariants
  import opened GraphHistory

  /** Not a reply, a verdict the graph has a counter for, and a time. */
  predicate Admitted(f: Flow) {
    !f.reply && f.verdict != RawOther && f.time != -62_135_596_800_000_000_000
  }

  lemma AcceptedExactly(f: Flow)
    ensures Accepted(f) <==> Admitted(f)
  {
  }

  /** The verdicts that share a counter. */
  predicate CountsAs(r: RawVerdict, v: Verdict) {
    && (v == Forwarded <==> r in {RawForwarded, RawRedirected, RawTraced, RawTranslated})
    && (v == Dropped <==> r == RawDropped)
    && (v == Audit <==> r == RawAudit)
    && (v == Error <==> r == RawError)
  }

  /** Exactly what becomes of a flow: it is counted if it is admitted and has two ends, one
      that is not admitted changes nothing, and the reason given is the first that applies. */
  lemma AdmittedExactly(s: State, f: Flow)
    ensures IngestResult(s, f).Counted? <==> Admitted(f) && SrcKey(s, f) != DstKey(s, f)
    ensures IngestResult(s, f).Counted? ==>
              && CountsAs(f.verdict, IngestResult(s, f).verdict)
              && IngestResult(s, f).edge == EdgeKey(SrcKey(s, f), DstKey(s, f), f.proto, f.port)
    ensures !Admitted(f) ==> Ingest(s, f) == s
    ensures IngestResult(s, f) == Skipped("reply") <==> f.reply
    ensures IngestResult(s, f) == Skipped("verdict") <==> !f.reply && f.verdict == RawOther
    ensures IngestResult(s, f) == Skipped("self") <==> Admitted(f) && SrcKey(s, f) == DstKey(s, f)
  {
    assert ["reply"[0], "verdict"[0], "time"[0], "self"[0]] == ['r', 'v', 't', 's'];
  }

  lemma OneMoreOp(retention: int, ops: seq<Op>, op: Op, e: EdgeKey)
    ensures After(retention, ops + [op]) == Next(After(retention, ops), op)
    ensures FlowsOf(retention, ops + [op], e) == FlowsAfter(After(retention, ops), op, e, FlowsOf(retention, ops, e))
  {
    assert (ops + [op])[..|ops|] == ops;
  }

  lemma CountedIsThere(s: State, f: Flow, e: EdgeKey)
    requires IsCounted(s, f) && e == EdgeOf(s, f)
    ensures e in Next(s, FlowOp(f)).edges && e in Next(s, FlowOp(f)).dirty
  {
    CountedRecent(s, f);
    assert Next(s, FlowOp(f)) == Ingest(s, f);
  }

  lemma LastOfMore(fs: seq<Flow>, f: Flow)
    ensures fs + [f] != [] && (fs + [f])[|fs + [f]| - 1] == f
  {
  }

  lemma CountedIsLast(s: State, f: Flow, e: EdgeKey, earlier: seq<Flow>)
    requires IsCounted(s, f) && e == EdgeOf(s, f)
    ensures var fs := FlowsAfter(s, FlowOp(f), e, earlier); fs != [] && fs[|fs| - 1] == f
  {
    var known := if e in Resolved(s, f).edges then earlier else [];
    assert FlowsAfter(s, FlowOp(f), e, earlier) == known + [f];
    LastOfMore(known, f);
  }

  lemma CountsTold(retention: int, ops: seq<Op>, e: EdgeKey)
    requires e in After(retention, ops).edges
    ensures CountsOfFlows(After(retention, ops).edges[e].counts, FlowsOf(retention, ops, e))
  {
    ConversationTheorem(retention, ops, e);
  }

  /** A counted flow is the last of those its conversation stands for, and raises its counter. */
  lemma CountedIsListed(retention: int, ops: seq<Op>, f: Flow, e: EdgeKey)
    requires Admitted(f) && e.src != e.dst && e.proto == f.proto && e.port == f.port
    requires e.src == SrcKey(After(retention, ops), f) && e.dst == DstKey(After(retention, ops), f)
    ensures var s', fs := After(retention, ops + [FlowOp(f)]), FlowsOf(retention, ops + [FlowOp(f)], e);
            && e in s'.edges && e in s'.dirty && fs != [] && fs[|fs| - 1] == f
            && CountsOfFlows(s'.edges[e].counts, fs)
  {
    AcceptedExactly(f);
    OneMoreOp(retention, ops, FlowOp(f), e);
    CountedIsThere(After(retention, ops), f, e);
    CountedIsLast(After(retention, ops), f, e, FlowsOf(retention, ops, e));
    CountsTold(retention, ops + [FlowOp(f)], e);
  }

  // ---------- names ----------

  lemma {:induction false} OccurrencesConcat(a: seq<string>, b: seq<string>, k: string)
    ensures Occurrences(a + b, k) == Occurrences(a, k) + Occurrences(b, k)
    decreases b
  {
    if b == [] {
      assert a + b == a;
    } else {
      assert (a + b)[..|a + b| - 1] == a + b[..|b| - 1];
      OccurrencesConcat(a, b[..|b| - 1], k);
    }
  }

  function NumberOf(fs: seq<Flow>, p: Flow -> bool): nat
    decreases fs
  {
    if fs == [] then 0 else NumberOf(fs[..|fs| - 1], p) + One(p(fs[|fs| - 1]))
  }

  /** A list of at most one key per flow holds a key as often as flows have it. */
  lemma {:induction false} GatheredOccurrences(fs: seq<Flow>, g: Flow -> seq<string>, k: string, p: Flow -> bool)
    requires forall f: Flow :: |g(f)| <= 1 && (g(f) == [k] <==> p(f))
    ensures Occurrences(Gathered(fs, g), k) == NumberOf(fs, p)
    decreases fs
  {
    if fs != [] {
      var f := fs[|fs| - 1];
      GatheredOccurrences(fs[..|fs| - 1], g, k, p);
      OccurrencesConcat(Gathered(fs[..|fs| - 1], g), g(f), k);
      assert g(f) != [] ==> g(f) == [] + [g(f)[0]] && g(f)[..0] == [];
      assert Occurrences([], k) == 0;
    }
  }

  /** The flow is a question for the name, asked with or without the final dot. */
  predicate AsksFor(f: Flow, name: string) {
    && f.l7.Some? && f.l7.value.Dns?
    && (f.l7.value.query == name + "."
        || (f.l7.value.query == name && name != "" && name[|name| - 1] != '.'))
  }

  lemma QueryExactly(f: Flow, name: string)
    ensures Query(f) == [name] <==> AsksFor(f, name)
  {
    if f.l7.Some? && f.l7.value.Dns? && f.l7.value.query != "" {
      var q := f.l7.value.query;
      assert q == q[..|q| - 1] + [q[|q| - 1]];
      assert (name + ".")[..|name|] == name;
      assert Query(f) == [TrimDot(q)];
    }
  }

  function Asking(name: string): Flow -> bool {
    f => AsksFor(f, name)
  }

  lemma AskedOccurrences(fs: seq<Flow>, name: string)
    ensures Occurrences(Gathered(fs, Query), name) == NumberOf(fs, Asking(name))
  {
    forall f: Flow ensures |Query(f)| <= 1 && (Query(f) == [name] <==> Asking(name)(f)) {
      QueryExactly(f, name);
    }
    GatheredOccurrences(fs, Query, name, Asking(name));
  }

  /** Every DNS name but "other" is counted as often as it was asked for. */
  lemma DnsNamesExact(retention: int, ops: seq<Op>, e: EdgeKey, name: string)
    requires e in After(retention, ops).edges
    requires name in After(retention, ops).edges[e].l7.dns && name != OTHER
    ensures After(retention, ops).edges[e].l7.dns[name] == NumberOf(FlowsOf(retention, ops, e), Asking(name))
  {
    ConversationTheorem(retention, ops, e);
    FedExact(Gathered(FlowsOf(retention, ops, e), Query), name);
    AskedOccurrences(FlowsOf(retention, ops, e), name);
  }

  function Requesting(path: string): Flow -> bool {
    (f: Flow) => f.l7.Some? && f.l7.value.Http? && !f.l7.value.response && f.l7.value.entry == path
  }

  lemma RequestedOccurrences(fs: seq<Flow>, path: string)
    ensures Occurrences(Gathered(fs, Request), path) == NumberOf(fs, Requesting(path))
  {
    forall f: Flow ensures |Request(f)| <= 1 && (Request(f) == [path] <==> Requesting(path)(f)) {
    }
    GatheredOccurrences(fs, Request, path, Requesting(path));
  }

  /** And every path but "other" as often as it was requested. */
  lemma RequestsExact(retention: int, ops: seq<Op>, e: EdgeKey, path: string)
    requires e in After(retention, ops).edges
    requires path in After(retention, ops).edges[e].l7.http && path != OTHER
    ensures After(retention, ops).edges[e].l7.http[path] == NumberOf(FlowsOf(retention, ops, e), Requesting(path))
  {
    ConversationTheorem(retention, ops, e);
    FedExact(Gathered(FlowsOf(retention, ops, e), Request), path);
    RequestedOccurrences(FlowsOf(retention, ops, e), path);
  }
}
