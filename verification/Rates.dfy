/** The rates a browser shows (web/src/graph-state.ts, rate; web/src/main.ts, refreshRates):
    after a snapshot they are the flows of the window, and each tick adds what it carries. */
module Rates {
  import opened Wire
  import opened Rings
  import opened GraphModel
  import opened Windows
  import opened ReplicaModel
  import opened CopyRings
  import C = ClientRing

  // ---------- flows of a window ----------

  lemma {:induction false} NumberSplit(fs: seq<Flow>, v: RawVerdict, a: int, b: int, c: int)
    requires a <= b <= c
    ensures NumberIn(fs, v, a, b) + NumberIn(fs, v, b, c) == NumberIn(fs, v, a, c)
    decreases fs
  {
    if fs != [] {
      NumberSplit(fs[..|fs| - 1], v, a, b, c);
    }
  }

  lemma SpanSplit(x: Counts, y: Counts, fs: seq<Flow>, a: int, b: int, c: int)
    requires a <= b <= c && TellsSpan(x, fs, a, b) && TellsSpan(y, fs, b, c)
    ensures TellsSpan(x.Plus(y), fs, a, c)
  {
    NumberSplit(fs, RawForwarded, a, b, c);
    NumberSplit(fs, RawRedirected, a, b, c);
    NumberSplit(fs, RawTraced, a, b, c);
    NumberSplit(fs, RawTranslated, a, b, c);
    NumberSplit(fs, RawDropped, a, b, c);
    NumberSplit(fs, RawAudit, a, b, c);
    NumberSplit(fs, RawError, a, b, c);
  }

  lemma {:induction false} NumberInNothing(fs: seq<Flow>, v: RawVerdict, a: int)
    ensures NumberIn(fs, v, a, a) == 0
    decreases fs
  {
    if fs != [] {
      NumberInNothing(fs[..|fs| - 1], v, a);
    }
  }

  lemma TellsNothing(fs: seq<Flow>, a: int)
    ensures TellsSpan(ZERO, fs, a, a)
  {
    forall v ensures NumberIn(fs, v, a, a) == 0 {
      NumberInNothing(fs, v, a);
    }
  }

  /** The ring answers for each of the `w` seconds from `from` on with its flows. */
  predicate TellsWindow(r: LiveRing, fs: seq<Flow>, from: int, w: nat)
    decreases w
  {
    w == 0 || (TellsWindow(r, fs, from, w - 1) && TellsSecond(r.At(from + w - 1), fs, from + w - 1))
  }

  lemma {:induction false} EachSecond(r: LiveRing, fs: seq<Flow>, from: int, w: nat)
    ensures TellsWindow(r, fs, from, w) <==> forall sec :: from <= sec < from + w ==> TellsSecond(r.At(sec), fs, sec)
    decreases w
  {
    if w > 0 {
      EachSecond(r, fs, from, w - 1);
    }
  }

  /** Then the sum over the window counts the flows of the whole span. */
  lemma {:induction false} SumTells(r: LiveRing, fs: seq<Flow>, from: int, w: nat)
    requires TellsWindow(r, fs, from, w)
    ensures TellsSpan(Sum(Window(r, from, w)), fs, Begin(from), Begin(from + w))
    decreases w
  {
    if w == 0 {
      NoSecond(r, fs, from);
    } else {
      SumTells(r, fs, from, w - 1);
      OneMoreSecond(r, fs, from, w - 1, from + w - 1);
    }
  }

  lemma NoSecond(r: LiveRing, fs: seq<Flow>, from: int)
    ensures TellsSpan(Sum(Window(r, from, 0)), fs, Begin(from), Begin(from))
  {
    TellsNothing(fs, Begin(from));
    assert Window(r, from, 0) == [];
  }

  lemma OneMoreSecond(r: LiveRing, fs: seq<Flow>, from: int, w: nat, sec: int)
    requires sec == from + w && TellsSecond(r.At(sec), fs, sec)
    requires TellsSpan(Sum(Window(r, from, w)), fs, Begin(from), Begin(sec))
    ensures TellsSpan(Sum(Window(r, from, w + 1)), fs, Begin(from), Begin(sec + 1))
  {
    C.WindowStep(r, from, w, sec);
    SpanSplit(Sum(Window(r, from, w)), r.At(sec), fs, Begin(from), Begin(sec), Begin(sec + 1));
  }

  lemma WindowTells(r: LiveRing, fs: seq<Flow>, from: int, w: nat, to: int)
    requires to == from + w && TellsWindow(r, fs, from, w)
    ensures TellsSpan(Sum(Window(r, from, w)), fs, Begin(from), Begin(to))
  {
    SumTells(r, fs, from, w);
  }

  /** What the browser shows of a conversation whose ring is `r`: per second of the window, of `w`
      seconds up to now, the numbers `c` of its flows by verdict. */
  method ShowRates(slots: C.Slots, windowSec: nat, nowSec: int, ghost r: LiveRing, ghost fs: seq<Flow>)
    returns (f: real, d: real, a: real, e: real, ghost w: nat, ghost c: Counts)
    requires slots.Valid() && slots.Value() == r && 0 < windowSec
    requires var w: nat := C.Min(windowSec, slots.retention); TellsWindow(r, fs, nowSec - w + 1, w)
    ensures 0 < w && w == C.Min(windowSec, slots.retention)
    ensures TellsSpan(c, fs, Begin(nowSec - w + 1), Begin(nowSec + 1))
    ensures f == C.PerSecond(c.f, w) && d == C.PerSecond(c.d, w)
    ensures a == C.PerSecond(c.a, w) && e == C.PerSecond(c.e, w)
  {
    f, d, a, e, w, c := slots.Rate(windowSec, nowSec);
    WindowTells(r, fs, nowSec - w + 1, w, nowSec + 1);
  }

  // ---------- what a tick adds ----------

  /** The second gains `d` if it is `sec`, and is as before otherwise. */
  predicate RaisedAt(r: LiveRing, r': LiveRing, s: int, sec: int, d: Counts) {
    r'.At(s) == if s == sec then r.At(s).Plus(d) else r.At(s)
  }

  /** Raising one second and leaving the others alone raises the sum by as much. */
  lemma {:induction false} SumRaised(r: LiveRing, r': LiveRing, from: int, w: nat, sec: int, d: Counts)
    requires forall s :: from <= s < from + w ==> RaisedAt(r, r', s, sec, d)
    ensures Sum(Window(r', from, w)) ==
            if from <= sec < from + w then Sum(Window(r, from, w)).Plus(d) else Sum(Window(r, from, w))
    decreases w
  {
    if w > 0 {
      SumRaised(r, r', from, w - 1, sec, d);
      C.WindowStep(r, from, w - 1, from + w - 1);
      C.WindowStep(r', from, w - 1, from + w - 1);
      assert RaisedAt(r, r', from + w - 1, sec, d);
      PlusSwaps(Sum(Window(r, from, w - 1)), r.At(from + w - 1), d);
    }
  }

  lemma PlusSwaps(a: Counts, b: Counts, d: Counts)
    ensures a.Plus(d).Plus(b) == a.Plus(b).Plus(d) && a.Plus(b.Plus(d)) == a.Plus(b).Plus(d)
  {
  }

  /** A tick computed in a second of the window adds what was pending to the window's sums,
      and so to the rates; the window may be as long as the ring. */
  lemma TickAddsToRate(s: State, now: int, t: Tick, c: Replica, e: EdgeKey, from: int, w: nat)
    requires IsTick(s, now, t) && (e in c.edges || e in s.dirty) && e !in t.goneEdges
    requires w <= RingOf(c, e).Size() && Begin(from) <= now < Begin(from + w)
    ensures e in ApplyTick(c, t).edges
    ensures Sum(Window(ApplyTick(c, t).edges[e].ring, from, w)) ==
            Sum(Window(RingOf(c, e), from, w)).Plus(Pending(s, e))
  {
    var r, sec := RingOf(c, e), SecondOf(now);
    TickRaises(s, now, t, c, e, sec);
    forall x | from <= x < from + w ensures RaisedAt(r, ApplyTick(c, t).edges[e].ring, x, sec, Pending(s, e)) {
      TickRaisesNear(s, now, t, c, e, x);
    }
    SumRaised(r, ApplyTick(c, t).edges[e].ring, from, w, sec, Pending(s, e));
  }

  lemma TickRaisesNear(s: State, now: int, t: Tick, c: Replica, e: EdgeKey, x: int)
    requires IsTick(s, now, t) && (e in c.edges || e in s.dirty) && e !in t.goneEdges
    requires 0 - RingOf(c, e).Size() < x - SecondOf(now) < RingOf(c, e).Size()
    ensures e in ApplyTick(c, t).edges
    ensures RaisedAt(RingOf(c, e), ApplyTick(c, t).edges[e].ring, x, SecondOf(now), Pending(s, e))
  {
    TickRaises(s, now, t, c, e, x);
    if x != SecondOf(now) && Slot(x, RingOf(c, e).Size()) == Slot(SecondOf(now), RingOf(c, e).Size()) {
      SameSlotClose(x, SecondOf(now), RingOf(c, e).Size());
    }
  }
}
