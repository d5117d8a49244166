/** Per-second counters in a fixed number of slots, reset lazily when a slot is reused.
    The server (internal/graph/buckets.go) and the browser (web/src/graph-state.ts) keep
    the same structure; they differ in what an untouched slot holds. */
module Rings {
  import opened Wire

  /** The slot of a second: its remainder by the number of slots, never negative. */
  function Slot(sec: int, n: nat): (i: nat)
    requires 0 < n
    ensures i < n
    decreases sec < 0, if sec < 0 then -sec else sec
  {
    if sec < 0 then Slot(sec + n, n) else if sec < n then sec else Slot(sec - n, n)
  }

  /** How many turns of the ring lie between a second and its slot. */
  function Turns(sec: int, n: nat): int
    requires 0 < n
    decreases sec < 0, if sec < 0 then -sec else sec
  {
    if sec < 0 then Turns(sec + n, n) - 1 else if sec < n then 0 else Turns(sec - n, n) + 1
  }

  lemma {:induction false} SlotTurns(sec: int, n: nat)
    requires 0 < n
    ensures sec == Turns(sec, n) * n + Slot(sec, n)
    decreases sec < 0, if sec < 0 then -sec else sec
  {
    if sec < 0 {
      SlotTurns(sec + n, n);
    } else if sec >= n {
      SlotTurns(sec - n, n);
    }
  }

  lemma SlotPeriodic(sec: int, n: nat)
    requires 0 < n
    ensures Slot(sec + n, n) == Slot(sec, n)
  {
  }

  /** The slot is the only number below `n` that lies whole turns from the second. */
  lemma SlotUnique(sec: int, q: int, i: nat, n: nat)
    requires i < n && sec == q * n + i
    ensures i == Slot(sec, n)
  {
    SlotTurns(sec, n);
    var d := q - Turns(sec, n);
    assert d * n == q * n - Turns(sec, n) * n;
    MultipleTooSmall(d, n, Slot(sec, n) - i);
  }

  /** The remainder of Go and JavaScript: division truncates toward zero, so that it has the
      sign of the dividend. */
  function Remainder(a: int, n: nat): int
    requires 0 < n
  {
    if a < 0 then -((-a) % n) else a % n
  }

  lemma ModuloBelowTwice(x: int, n: nat)
    requires 0 < n && 0 <= x < n + n
    ensures x % n == if x < n then x else x - n
  {
  }

  lemma SlotOfNegative(sec: int, n: nat)
    requires 0 < n && sec < 0
    ensures var r := (-sec) % n; Slot(sec, n) == if r == 0 then 0 else n - r
  {
    var q, r := (-sec) / n, (-sec) % n;
    assert -sec == q * n + r;
    if r == 0 {
      TurnBack(q, n);
      SlotUnique(sec, -q, 0, n);
    } else {
      TurnBack(q, n);
      SlotUnique(sec, -q - 1, n - r, n);
    }
  }

  lemma TurnBack(q: int, n: nat)
    ensures (-q) * n == -(q * n)
    ensures (-q - 1) * n == -(q * n) - n
  {
  }

  /** `Slot` is the remainder that the server takes of its non-negative seconds, and the
      twice corrected one that the browser takes of any second. */
  lemma SlotIsRemainder(sec: int, n: nat)
    requires 0 < n
    ensures 0 <= sec ==> Slot(sec, n) == Remainder(sec, n)
    ensures Slot(sec, n) == Remainder(Remainder(sec, n) + n, n)
  {
    ModuloBelowTwice(Remainder(sec, n) + n, n);
    if 0 <= sec {
      SlotUnique(sec, sec / n, sec % n, n);
    } else {
      SlotOfNegative(sec, n);
    }
  }

  datatype Ring = Ring(epoch: seq<int>, counts: seq<Counts>) {
    predicate Shaped() {
      0 < |epoch| == |counts|
    }

    function Size(): nat {
      |epoch|
    }

    /** What the ring answers for one second. */
    function At(sec: int): Counts
      requires Shaped()
    {
      var i := Slot(sec, |epoch|);
      if epoch[i] == sec then counts[i] else ZERO
    }

    /** The second that slot `i` counts belongs to that slot, or the slot is empty. */
    predicate SlotsInPlace()
      requires Shaped()
    {
      forall i :: 0 <= i < |epoch| && counts[i] != ZERO ==> Slot(epoch[i], |epoch|) == i
    }
  }

  /** A ring that newRing, add and setBucket can produce. */
  type LiveRing = r: Ring | r.Shaped() && r.SlotsInPlace() witness Ring([0], [ZERO])

  function Fresh(n: nat, untouched: int): (r: LiveRing)
    requires 0 < n
    ensures r.Size() == n
    ensures forall s :: r.At(s) == ZERO
  {
    Ring(seq(n, _ => untouched), seq(n, _ => ZERO))
  }

  /** newRing leaves zeros; the browser fills its epochs with -1. */
  const SERVER_UNTOUCHED: int := 0
  const CLIENT_UNTOUCHED: int := -1

  function Add(r: LiveRing, sec: int, d: Counts): (r': LiveRing)
    ensures r'.Size() == r.Size()
  {
    var i := Slot(sec, |r.epoch|);
    if r.epoch[i] == sec then r.(counts := r.counts[i := r.counts[i].Plus(d)])
    else Ring(r.epoch[i := sec], r.counts[i := ZERO.Plus(d)])
  }

  function SetBucket(r: LiveRing, b: Bucket): (r': LiveRing)
    ensures r'.Size() == r.Size()
  {
    var i := Slot(b.sec, |r.epoch|);
    Ring(r.epoch[i := b.sec], r.counts[i := b.counts])
  }

  /** Only the slot of the second changes: that second gains `d`, the second it evicts is
      forgotten, and every other second is untouched. */
  lemma AddAt(r: LiveRing, sec: int, d: Counts, s: int)
    ensures s == sec ==> Add(r, sec, d).At(s) == r.At(s).Plus(d)
    ensures s != sec && Slot(s, r.Size()) != Slot(sec, r.Size()) ==> Add(r, sec, d).At(s) == r.At(s)
    ensures s != sec && Slot(s, r.Size()) == Slot(sec, r.Size()) ==> Add(r, sec, d).At(s) == ZERO
  {
    var i := Slot(sec, |r.epoch|);
    if r.epoch[i] != sec {
      assert r.At(sec) == ZERO;
    }
  }

  // ---------- the unbounded log the ring stands for ----------

  datatype Entry = Entry(sec: int, d: Counts)

  type Log = seq<Entry>

  function LogAt(log: Log, s: int): Counts {
    if log == [] then ZERO
    else
      var e := log[|log| - 1];
      if e.sec == s then LogAt(log[..|log| - 1], s).Plus(e.d) else LogAt(log[..|log| - 1], s)
  }

  /** The largest second so far, -1 before the first flow. */
  function LogMax(log: Log): (m: int)
    ensures m >= -1
    ensures forall i :: 0 <= i < |log| ==> log[i].sec <= m
  {
    if log == [] then -1 else Max(LogMax(log[..|log| - 1]), log[|log| - 1].sec)
  }

  /** No entry is as late as the ring is long. */
  predicate Timely(log: Log, n: nat) {
    log == [] ||
    (var e := log[|log| - 1];
     0 <= e.sec && LogMax(log[..|log| - 1]) - n < e.sec && Timely(log[..|log| - 1], n))
  }

  function AddAll(r: LiveRing, log: Log): (r': LiveRing)
    ensures r'.Size() == r.Size()
  {
    if log == [] then r
    else var e := log[|log| - 1]; Add(AddAll(r, log[..|log| - 1]), e.sec, e.d)
  }

  /** The ring tells the truth about every second of the window that ends now. */
  ghost predicate Agrees(r: LiveRing, log: Log)
  {
    forall s :: LogMax(log) - r.Size() < s ==> r.At(s) == LogAt(log, s)
  }

  /** No slot is ahead of the log, and a count that is held is the exact one. */
  ghost predicate Truthful(r: LiveRing, log: Log)
  {
    forall i :: 0 <= i < r.Size() && r.counts[i] != ZERO ==> Honest(r, log, i)
  }

  ghost predicate Honest(r: LiveRing, log: Log, i: nat)
    requires i < r.Size()
  {
    r.epoch[i] <= LogMax(log) && r.counts[i] == LogAt(log, r.epoch[i])
  }

  lemma {:induction false} LogAtBeyond(log: Log, s: int)
    requires LogMax(log) < s
    ensures LogAt(log, s) == ZERO
  {
    if log != [] {
      LogAtBeyond(log[..|log| - 1], s);
    }
  }

  lemma LogSnoc(log: Log, e: Entry)
    ensures (log + [e])[..|log + [e]| - 1] == log
    ensures LogMax(log + [e]) == Max(LogMax(log), e.sec)
    ensures forall s :: LogAt(log + [e], s) == if e.sec == s then LogAt(log, s).Plus(e.d) else LogAt(log, s)
  {
    assert (log + [e])[..|log + [e]| - 1] == log;
  }

  /** The one second of the window (max - n, max] that shares a slot with `sec`. */
  function WindowSecond(sec: int, max: int, n: nat): (s: int)
    requires 0 < n
    ensures max - n < s <= max && Slot(s, n) == Slot(sec, n)
    decreases if sec <= max - n then max - sec else if max < sec then sec - max else 0
  {
    if sec <= max - n then SlotPeriodic(sec, n); WindowSecond(sec + n, max, n)
    else if max < sec then SlotPeriodic(sec - n, n); WindowSecond(sec - n, max, n)
    else sec
  }

  /** Two seconds less than `n` apart that share a slot are the same second. */
  lemma SameSlotClose(x: int, y: int, n: nat)
    requires 0 < n && Slot(x, n) == Slot(y, n) && 0 - n < x - y < n
    ensures x == y
  {
    SlotTurns(x, n);
    SlotTurns(y, n);
    var a, b := Turns(x, n), Turns(y, n);
    assert x - y == a * n - b * n == (a - b) * n;
    MultipleTooSmall(a - b, n, x - y);
  }

  lemma MultipleTooSmall(d: int, n: nat, p: int)
    requires p == d * n && 0 - n < p < n
    ensures p == 0
  {
  }

  /** Refinement: while no flow is later than the ring is long, every second of the window
      reads exactly its count in the unbounded log, despite lazy zeroing and slot reuse. */
  lemma {:induction false} RingRefinesLog(n: nat, untouched: int, log: Log)
    requires 0 < n && Timely(log, n)
    ensures Agrees(AddAll(Fresh(n, untouched), log), log)
    ensures Truthful(AddAll(Fresh(n, untouched), log), log)
  {
    if log != [] {
      var init, e := log[..|log| - 1], log[|log| - 1];
      RingRefinesLog(n, untouched, init);
      assert log == init + [e];
      TimelyAdd(AddAll(Fresh(n, untouched), init), init, e);
    }
  }

  lemma TimelyAdd(r: LiveRing, log: Log, e: Entry)
    requires Agrees(r, log) && Truthful(r, log)
    requires LogMax(log) - r.Size() < e.sec
    ensures Agrees(Add(r, e.sec, e.d), log + [e])
    ensures Truthful(Add(r, e.sec, e.d), log + [e])
  {
    LogSnoc(log, e);
    forall s | LogMax(log + [e]) - r.Size() < s ensures Add(r, e.sec, e.d).At(s) == LogAt(log + [e], s) {
      TimelyAddAt(r, log, e, s);
    }
    TimelyAddAt(r, log, e, e.sec);
    AddTruthful(r, log, e);
  }

  lemma TimelyAddAt(r: LiveRing, log: Log, e: Entry, s: int)
    requires Agrees(r, log)
    requires LogMax(log) - r.Size() < e.sec && LogMax(log + [e]) - r.Size() < s
    ensures Add(r, e.sec, e.d).At(s) == LogAt(log + [e], s)
  {
    var n := r.Size();
    LogSnoc(log, e);
    AddAt(r, e.sec, e.d, s);
    assert r.At(s) == LogAt(log, s);
    if s != e.sec && Slot(s, n) == Slot(e.sec, n) {
      // the evicted second would be a whole turn away, so it lies beyond the log
      if s <= LogMax(log) {
        SameSlotClose(s, e.sec, n);
        assert false;
      } else {
        LogAtBeyond(log, s);
      }
    }
  }

  lemma AddTruthful(r: LiveRing, log: Log, e: Entry)
    requires Truthful(r, log)
    requires Add(r, e.sec, e.d).At(e.sec) == LogAt(log + [e], e.sec)
    ensures Truthful(Add(r, e.sec, e.d), log + [e])
  {
    forall i | 0 <= i < r.Size() && Add(r, e.sec, e.d).counts[i] != ZERO
      ensures Honest(Add(r, e.sec, e.d), log + [e], i)
    {
      LogSnoc(log, e);
      var i', r' := Slot(e.sec, r.Size()), Add(r, e.sec, e.d);
      if i == i' {
        assert r'.epoch[i] == e.sec;
      } else {
        assert r'.counts[i] == r.counts[i] && r'.epoch[i] == r.epoch[i];
        assert Honest(r, log, i);
        assert r.epoch[i] != e.sec;
      }
    }
  }

  /** Exactly when a late flow does harm: a flow a whole ring late or later breaks the
      agreement if and only if the newer second it evicts had been counted. */
  lemma AddAgreesExactly(r: LiveRing, log: Log, e: Entry)
    requires Agrees(r, log) && Truthful(r, log)
    ensures Agrees(Add(r, e.sec, e.d), log + [e]) <==>
            LogMax(log) - r.Size() < e.sec || LogAt(log, WindowSecond(e.sec, LogMax(log), r.Size())) == ZERO
  {
    var n, r', log', max := r.Size(), Add(r, e.sec, e.d), log + [e], LogMax(log);
    LogSnoc(log, e);
    if max - n < e.sec {
      TimelyAdd(r, log, e);
    } else {
      var w := WindowSecond(e.sec, max, n);
      AddAt(r, e.sec, e.d, w);
      assert r'.At(w) == ZERO && LogAt(log', w) == LogAt(log, w);
      if LogAt(log, w) == ZERO {
        forall s | LogMax(log') - n < s ensures r'.At(s) == LogAt(log', s) {
          AddAt(r, e.sec, e.d, s);
          if Slot(s, n) == Slot(e.sec, n) {
            if s <= max {
              SameSlotClose(s, w, n);
            } else {
              LogAtBeyond(log, s);
            }
          }
        }
      }
    }
  }

  /** The harm is real: in a ring of ten seconds, a flow from second 5 erases second 15. */
  lemma LateFlowEvicts()
    ensures var log := [Entry(15, Unit(Forwarded)), Entry(5, Unit(Dropped))];
            var r := AddAll(Fresh(10, SERVER_UNTOUCHED), log);
            r.At(15) == ZERO && LogAt(log, 15) == Unit(Forwarded)
  {
  }

  // ---------- sparse listing and the snapshot round trip ----------

  predicate Increasing(bs: seq<Bucket>) {
    forall i, j :: 0 <= i < j < |bs| ==> bs[i].sec < bs[j].sec
  }

  /** `bs` lists, oldest first, exactly the seconds after `since` with a non-zero count. */
  ghost predicate IsSparse(r: LiveRing, since: int, bs: seq<Bucket>)
  {
    && Increasing(bs)
    && forall b: Bucket :: b in bs <==> since < b.sec && b.counts != ZERO && r.At(b.sec) == b.counts
  }

  /** The listing is determined: it is the only one, whatever sort produced it. */
  lemma {:induction false} SparseUnique(r: LiveRing, since: int, a: seq<Bucket>, b: seq<Bucket>)
    requires IsSparse(r, since, a) && IsSparse(r, since, b)
    ensures a == b
  {
    assert forall x: Bucket :: x in a <==> x in b;
    IncreasingUnique(a, b);
  }

  lemma {:induction false} IncreasingUnique(a: seq<Bucket>, b: seq<Bucket>)
    requires Increasing(a) && Increasing(b)
    requires forall x: Bucket :: x in a <==> x in b
    ensures a == b
  {
    assert b != [] ==> b[0] in a;
    if a != [] {
      assert a[0] in b;
      assert a[0] == b[0];
      forall x: Bucket ensures x in a[1..] <==> x in b[1..] {
        assert x in a <==> x == a[0] || x in a[1..];
        assert x in b <==> x == b[0] || x in b[1..];
      }
      IncreasingUnique(a[1..], b[1..]);
    }
  }

  /** Against the unbounded log: with no flow too late, the listing is exactly the log's
      non-zero seconds after `since`, for any `since` from (largest so far - n) upward. */
  lemma SparseOfLog(n: nat, log: Log, since: int, bs: seq<Bucket>)
    requires 0 < n && Timely(log, n) && LogMax(log) - n <= since
    requires IsSparse(AddAll(Fresh(n, SERVER_UNTOUCHED), log), since, bs)
    ensures forall b: Bucket :: b in bs <==> since < b.sec && b.counts != ZERO && LogAt(log, b.sec) == b.counts
  {
    RingRefinesLog(n, SERVER_UNTOUCHED, log);
  }

  function Feed(r: LiveRing, bs: seq<Bucket>): (r': LiveRing)
    ensures r'.Size() == r.Size()
  {
    if bs == [] then r else SetBucket(Feed(r, bs[..|bs| - 1]), bs[|bs| - 1])
  }

  predicate DistinctSlots(bs: seq<Bucket>, n: nat)
    requires 0 < n
  {
    forall i, j :: 0 <= i < j < |bs| ==> Slot(bs[i].sec, n) != Slot(bs[j].sec, n)
  }

  lemma {:induction false} FeedAt(n: nat, bs: seq<Bucket>)
    requires 0 < n && DistinctSlots(bs, n)
    ensures forall b :: b in bs ==> Feed(Fresh(n, CLIENT_UNTOUCHED), bs).At(b.sec) == b.counts
    ensures forall s :: (forall b :: b in bs ==> b.sec != s) ==> Feed(Fresh(n, CLIENT_UNTOUCHED), bs).At(s) == ZERO
  {
    if bs != [] {
      var init, last := bs[..|bs| - 1], bs[|bs| - 1];
      FeedAt(n, init);
      var r, r' := Feed(Fresh(n, CLIENT_UNTOUCHED), init), Feed(Fresh(n, CLIENT_UNTOUCHED), bs);
      assert bs == init + [last];
      forall b | b in bs ensures r'.At(b.sec) == b.counts {
        if b in init {
          var k :| 0 <= k < |init| && init[k] == b;
          assert Slot(bs[k].sec, n) != Slot(bs[|bs| - 1].sec, n);
        }
      }
      forall s | forall b :: b in bs ==> b.sec != s ensures r'.At(s) == ZERO {
        assert last in bs;
        assert r.At(s) == ZERO;
      }
    }
  }

  lemma SparseDistinctSlots(r: LiveRing, since: int, bs: seq<Bucket>)
    requires IsSparse(r, since, bs)
    ensures DistinctSlots(bs, r.Size())
  {
  }

  /** Round trip: a fresh browser ring of the same length, fed the listing, answers for
      every second after `since` exactly what the server's ring answers. */
  lemma SnapshotRoundTrip(r: LiveRing, since: int, bs: seq<Bucket>, s: int)
    requires IsSparse(r, since, bs) && since < s
    ensures Feed(Fresh(r.Size(), CLIENT_UNTOUCHED), bs).At(s) == r.At(s)
  {
    SparseDistinctSlots(r, since, bs);
    FeedAt(r.Size(), bs);
    var b := Bucket(s, r.At(s));
    if b.counts != ZERO {
      assert b in bs;
    } else {
      forall x | x in bs ensures x.sec != s {
      }
    }
  }

  // ---------- windows ----------

  /** The counters of `w` consecutive seconds, in the ring and in the log. */
  function Window(r: LiveRing, from: int, w: nat): seq<Counts> {
    seq(w, k requires 0 <= k < w => r.At(from + k))
  }

  function LogWindow(log: Log, from: int, w: nat): seq<Counts> {
    seq(w, k requires 0 <= k < w => LogAt(log, from + k))
  }

  function Sum(cs: seq<Counts>): Counts {
    if cs == [] then ZERO else Sum(cs[..|cs| - 1]).Plus(cs[|cs| - 1])
  }

  /** End to end: any window the browser reads that starts after `since` holds, second by
      second, what the flows put there. */
  lemma WindowOfSnapshot(n: nat, log: Log, since: int, bs: seq<Bucket>, from: int, w: nat)
    requires 0 < n && Timely(log, n) && LogMax(log) - n <= since < from
    requires IsSparse(AddAll(Fresh(n, SERVER_UNTOUCHED), log), since, bs)
    ensures Window(Feed(Fresh(n, CLIENT_UNTOUCHED), bs), from, w) == LogWindow(log, from, w)
  {
    var r := AddAll(Fresh(n, SERVER_UNTOUCHED), log);
    RingRefinesLog(n, SERVER_UNTOUCHED, log);
    forall s | from <= s < from + w ensures Feed(Fresh(n, CLIENT_UNTOUCHED), bs).At(s) == LogAt(log, s) {
      SnapshotRoundTrip(r, since, bs, s);
    }
  }
}
