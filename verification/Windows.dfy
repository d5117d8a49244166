/** What the per-second rings of the server and of a browser that applied a snapshot answer
    for the seconds of the retention, told from the flows of a history. */
module Windows {
  import opened Wire
  import opened Rings
  import opened GraphModel
  import opened GraphInvariants
  import opened GraphHistory
  import opened Expiry
  import opened ReplicaModel
  import opened Delivery
  import C = ClientRing

  /** When a second begins, and the second of a time, in nanoseconds. */
  function Begin(sec: int): int {
    sec * 1_000_000_000
  }

  function SecondOf(t: int): int {
    t / 1_000_000_000
  }

  /** The number of flows with a verdict in a span of time. */
  function NumberIn(fs: seq<Flow>, v: RawVerdict, from: int, to: int): nat
    decreases fs
  {
    if fs == [] then 0
    else
      var f := fs[|fs| - 1];
      NumberIn(fs[..|fs| - 1], v, from, to) + One(f.verdict == v && from <= f.time < to)
  }

  /** Four verdicts count as forwarded. */
  function NumberPassed(fs: seq<Flow>, from: int, to: int): nat {
    NumberIn(fs, RawForwarded, from, to) + NumberIn(fs, RawRedirected, from, to)
    + NumberIn(fs, RawTraced, from, to) + NumberIn(fs, RawTranslated, from, to)
  }

  /** Each counter is the number of flows with one of its verdicts in the span. */
  predicate TellsSpan(c: Counts, fs: seq<Flow>, from: int, to: int) {
    && c.f == NumberPassed(fs, from, to)
    && c.d == NumberIn(fs, RawDropped, from, to)
    && c.a == NumberIn(fs, RawAudit, from, to)
    && c.e == NumberIn(fs, RawError, from, to)
  }

  /** No flow is before 1970, nor so late that an earlier one is `n` or more seconds ahead. */
  predicate Punctual(fs: seq<Flow>, n: nat) {
    && (forall i :: 0 <= i < |fs| ==> 0 <= fs[i].time)
    && (forall i, j :: 0 <= i < j < |fs| ==> SecondOf(fs[i].time) < SecondOf(fs[j].time) + n)
  }

  /** The counters of a second are the numbers of its flows. */
  predicate TellsSecond(c: Counts, fs: seq<Flow>, sec: int) {
    TellsSpan(c, fs, Begin(sec), Begin(sec + 1))
  }

  // ---------- the log of the arrivals ----------

  lemma NumberInSnoc(fs: seq<Flow>, f: Flow, v: RawVerdict, from: int, to: int)
    ensures NumberIn(fs + [f], v, from, to) == NumberIn(fs, v, from, to) + One(f.verdict == v && from <= f.time < to)
  {
    assert (fs + [f])[..|fs|] == fs;
  }

  lemma SpanSnoc(c: Counts, fs: seq<Flow>, f: Flow, from: int, to: int)
    requires TellsSpan(c, fs, from, to) && VerdictCode(f.verdict).Some?
    ensures TellsSpan(if from <= f.time < to then c.Plus(Unit(CodeOf(f))) else c, fs + [f], from, to)
  {
    NumberInSnoc(fs, f, RawForwarded, from, to);
    NumberInSnoc(fs, f, RawRedirected, from, to);
    NumberInSnoc(fs, f, RawTraced, from, to);
    NumberInSnoc(fs, f, RawTranslated, from, to);
    NumberInSnoc(fs, f, RawDropped, from, to);
    NumberInSnoc(fs, f, RawAudit, from, to);
    NumberInSnoc(fs, f, RawError, from, to);
  }

  lemma CodedInit(fs: seq<Flow>)
    requires fs != [] && AllCoded(fs)
    ensures AllCoded(fs[..|fs| - 1]) && VerdictCode(fs[|fs| - 1].verdict).Some?
  {
  }

  lemma {:induction false} LogTells(fs: seq<Flow>, sec: int)
    requires AllCoded(fs)
    ensures TellsSecond(LogAt(Arrivals(fs), sec), fs, sec)
    decreases fs
  {
    if fs != [] {
      var init, f := fs[..|fs| - 1], fs[|fs| - 1];
      assert fs == init + [f];
      CodedInit(fs);
      LogTells(init, sec);
      ArrivalsSnoc(init, f);
      LogSnoc(Arrivals(init), Entry(Seconds(f.time), Unit(CodeOf(f))));
      SecondExactly(f.time, sec);
      SpanSnoc(LogAt(Arrivals(init), sec), init, f, Begin(sec), Begin(sec + 1));
    }
  }

  lemma SecondExactly(t: int, sec: int)
    ensures Seconds(t) == sec <==> Begin(sec) <= t < Begin(sec + 1)
    ensures SecondOf(t) == Seconds(t)
  {
  }

  lemma {:induction false} LogMaxBelow(fs: seq<Flow>, bound: int)
    requires -1 < bound && forall i :: 0 <= i < |fs| ==> SecondOf(fs[i].time) < bound
    ensures LogMax(Arrivals(fs)) < bound
    decreases fs
  {
    if fs != [] {
      var init, f := fs[..|fs| - 1], fs[|fs| - 1];
      assert fs == init + [f];
      assert forall i :: 0 <= i < |init| ==> init[i] == fs[i];
      LogMaxBelow(init, bound);
      ArrivalsSnoc(init, f);
      LogSnoc(Arrivals(init), Entry(Seconds(f.time), Unit(CodeOf(f))));
    }
  }

  lemma {:induction false} PunctualIsTimely(fs: seq<Flow>, n: nat)
    requires 0 < n && Punctual(fs, n)
    ensures Timely(Arrivals(fs), n)
    decreases fs
  {
    if fs != [] {
      var init, f := fs[..|fs| - 1], fs[|fs| - 1];
      assert fs == init + [f];
      assert forall i :: 0 <= i < |init| ==> init[i] == fs[i];
      PunctualIsTimely(init, n);
      LogMaxBelow(init, SecondOf(f.time) + n);
      ArrivalsSnoc(init, f);
      LogSnoc(Arrivals(init), Entry(Seconds(f.time), Unit(CodeOf(f))));
    }
  }

  // ---------- the server ----------

  /** The number of whole seconds that are kept. */
  function Slots(retention: int): (n: nat)
    ensures 10 <= n
  {
    Depth(retention) / 1_000_000_000
  }

  /** The ring of a conversation answers for a second, while no flow that it was told of is
      that number of seconds ahead. */
  lemma RingTells(retention: int, ops: seq<Op>, e: EdgeKey, sec: int)
    requires e in After(retention, ops).edges && 0 <= sec
    requires var fs := FlowsOf(retention, ops, e);
             Punctual(fs, Slots(retention)) &&
             forall i :: 0 <= i < |fs| ==> SecondOf(fs[i].time) < sec + Slots(retention)
    ensures After(retention, ops).edges[e].ring.Size() == Slots(retention)
    ensures TellsSecond(After(retention, ops).edges[e].ring.At(sec), FlowsOf(retention, ops, e), sec)
  {
    var fs := FlowsOf(retention, ops, e);
    PunctualIsTimely(fs, Slots(retention));
    RingAgrees(retention, ops, e);
    LogMaxBelow(fs, sec + Slots(retention));
    LogTells(fs, sec);
  }

  lemma RingAgrees(retention: int, ops: seq<Op>, e: EdgeKey)
    requires e in After(retention, ops).edges && Timely(Arrivals(FlowsOf(retention, ops, e)), Slots(retention))
    ensures After(retention, ops).edges[e].ring.Size() == Slots(retention)
    ensures Agrees(After(retention, ops).edges[e].ring, Arrivals(FlowsOf(retention, ops, e)))
    ensures AllCoded(FlowsOf(retention, ops, e))
  {
    RetentionExactly(retention, ops);
    AfterWellFormed(retention, ops);
    ConversationTheorem(retention, ops, e);
    ConversationIsItsFlows(retention, ops, e);
  }

  /** The seconds of the retention at `now`. */
  predicate InRetention(retention: int, now: int, sec: int) {
    now - Depth(retention) < Begin(sec) <= now
  }

  /** The ring has not come round to the second again by `now`. */
  predicate Covered(retention: int, now: int, sec: int) {
    SecondOf(now) < sec + Slots(retention)
  }

  /** Exactly when the ring covers the retention: the part of a second by which the retention
      exceeds whole seconds must have passed in the current one. For whole seconds it always
      has. */
  lemma CoveredExactly(retention: int, now: int)
    ensures (forall sec :: InRetention(retention, now, sec) ==> Covered(retention, now, sec)) <==>
            Depth(retention) % 1_000_000_000 <= now % 1_000_000_000
    ensures Depth(retention) % 1_000_000_000 == 0 ==> Depth(retention) % 1_000_000_000 <= now % 1_000_000_000
  {
    var first := SecondOf(now) - Slots(retention);
    var n, r, a, p := Slots(retention), Depth(retention) % 1_000_000_000, SecondOf(now), now % 1_000_000_000;
    assert Depth(retention) == n * 1_000_000_000 + r && now == a * 1_000_000_000 + p;
    if r > p {
      assert InRetention(retention, now, first) && !Covered(retention, now, first);
    } else {
      forall sec | InRetention(retention, now, sec) ensures Covered(retention, now, sec) {
      }
    }
  }

  lemma NextTurnEvicts(n: nat, sec: int, u: Counts)
    requires 0 < n
    ensures AddAll(Fresh(n, SERVER_UNTOUCHED), [Entry(sec, u), Entry(sec + n, u)]).At(sec) == ZERO
  {
    var log := [Entry(sec, u), Entry(sec + n, u)];
    var r0 := Fresh(n, SERVER_UNTOUCHED);
    assert log[..1] == [Entry(sec, u)] && log[..1][..0] == [];
    assert AddAll(r0, log) == Add(AddAll(r0, log[..1]), sec + n, u);
    AddAt(AddAll(r0, log[..1]), sec + n, u, sec);
    SlotPeriodic(sec, n);
  }

  lemma TwoArrivals(n: nat, f0: Flow, f1: Flow, sec: int)
    requires 0 < n && f0.verdict == f1.verdict == RawForwarded
    requires Seconds(f0.time) == sec && Seconds(f1.time) == sec + n
    ensures Raised(n, [f0, f1]).ring.At(sec) == ZERO
  {
    RaisedTells(n, [f0, f1]);
    assert CodeOf(f0) == CodeOf(f1) == Forwarded;
    assert Arrivals([f0, f1]) == [Entry(sec, Unit(Forwarded)), Entry(sec + n, Unit(Forwarded))];
    NextTurnEvicts(n, sec, Unit(Forwarded));
  }

  /** The other case, for every retention that is not whole seconds: a flow in one second and
      one as many seconds later as there are slots, and the first second is lost, though it
      is within the retention. */
  lemma OddRetentionLoses(retention: int, sec: nat, f0: Flow, f1: Flow)
    requires Depth(retention) % 1_000_000_000 != 0 && f0.verdict == f1.verdict == RawForwarded
    requires f0.time == Begin(sec) && f1.time == Begin(sec + Slots(retention))
    ensures InRetention(retention, f1.time, sec) && Raised(Slots(retention), [f0, f1]).ring.At(sec) == ZERO
  {
    TwoArrivals(Slots(retention), f0, f1, sec);
  }

  /** Every second of the retention, while no flow is late or ahead of `now`. */
  lemma RetentionTells(retention: int, ops: seq<Op>, e: EdgeKey, now: int, sec: int)
    requires e in After(retention, ops).edges && 0 <= sec && InRetention(retention, now, sec)
    requires Depth(retention) % 1_000_000_000 <= now % 1_000_000_000
    requires var fs := FlowsOf(retention, ops, e);
             Punctual(fs, Slots(retention)) && forall i :: 0 <= i < |fs| ==> fs[i].time <= now
    ensures TellsSecond(After(retention, ops).edges[e].ring.At(sec), FlowsOf(retention, ops, e), sec)
  {
    var fs := FlowsOf(retention, ops, e);
    CoveredExactly(retention, now);
    assert Covered(retention, now, sec);
    forall i | 0 <= i < |fs| ensures SecondOf(fs[i].time) < sec + Slots(retention) {
      assert SecondOf(fs[i].time) <= SecondOf(now);
    }
    RingTells(retention, ops, e, sec);
  }

  // ---------- a browser ----------

  /** A browser that applied a snapshot taken at `now`: its ring of a conversation answers for
      every second since the retention began with the flows of that second. */
  lemma SnapshotTells(retention: int, ops: seq<Op>, before: Replica, now: int, snap: Snapshot, e: EdgeKey, sec: int)
    requires IsSnapshot(After(retention, ops), now, snap) && before.retention == Slots(retention)
    requires e in After(retention, ops).edges && 0 <= sec && now - Depth(retention) < Begin(sec)
    requires var fs := FlowsOf(retention, ops, e);
             Punctual(fs, Slots(retention)) &&
             forall i :: 0 <= i < |fs| ==> SecondOf(fs[i].time) < sec + Slots(retention)
    ensures var c := ApplySnapshot(before, snap);
            && e in c.edges && c.edges[e].ring.Size() == Slots(retention)
            && TellsSecond(c.edges[e].ring.At(sec), FlowsOf(retention, ops, e), sec)
  {
    var s := After(retention, ops);
    RetentionExactly(retention, ops);
    AfterWellFormed(retention, ops);
    SnapshotRings(s, before, now, snap, e, sec);
    SnapshotEdge(s, before, now, snap, e);
    RingTells(retention, ops, e, sec);
  }
}
