/** The ring of a copy's conversation over time (web/src/graph-state.ts): a snapshot lays its
    seconds into it, and each tick adds its increment under the tick's second. */
module CopyRings {
  import opened Wire
  import opened Rings
  import opened GraphModel
  import opened GraphInvariants
  import opened ReplicaModel
  import opened Delivery
  import opened Gaps

  /** The listed seconds as log entries. */
  function Logged(bs: seq<Bucket>): (log: Log)
    ensures |log| == |bs|
    decreases bs
  {
    if bs == [] then [] else Logged(bs[..|bs| - 1]) + [Entry(bs[|bs| - 1].sec, bs[|bs| - 1].counts)]
  }

  /** A tick that the server computed at this time. */
  ghost predicate TakenAt(t: Tick, now: int) {
    exists s: State :: IsTick(s, now, t)
  }

  /** A tick with the time at which the server computed it, in nanoseconds. */
  datatype Timed = Timed(now: int, t: Tick)

  ghost predicate AllTaken(ts: seq<Timed>) {
    forall i :: 0 <= i < |ts| ==> TakenAt(ts[i].t, ts[i].now)
  }

  function TicksOf(ts: seq<Timed>): seq<Tick>
    decreases ts
  {
    if ts == [] then [] else TicksOf(ts[..|ts| - 1]) + [ts[|ts| - 1].t]
  }

  /** What one tick logs for a conversation, under the second in which it was computed, and
      what a list of ticks does. */
  function TickEntry(x: Timed, e: EdgeKey): Log {
    if e in EdgeIds(x.t.edges) then [Entry(x.now / 1_000_000_000, Carried(x.t.edges, e))] else []
  }

  function TickLog(ts: seq<Timed>, e: EdgeKey): Log
    decreases ts
  {
    if ts == [] then [] else TickLog(ts[..|ts| - 1], e) + TickEntry(ts[|ts| - 1], e)
  }

  // ---------- logs ----------

  lemma AddAllSnoc(r: LiveRing, log: Log, x: Entry)
    ensures AddAll(r, log + [x]) == Add(AddAll(r, log), x.sec, x.d)
  {
    assert (log + [x])[..|log|] == log;
  }

  lemma PlusAssociates(a: Counts, b: Counts, c: Counts)
    ensures a.Plus(b).Plus(c) == a.Plus(b.Plus(c)) && a.Plus(ZERO) == a && ZERO.Plus(a) == a
  {
  }

  lemma {:induction false} LogAtConcat(a: Log, b: Log, s: int)
    ensures LogAt(a + b, s) == LogAt(a, s).Plus(LogAt(b, s))
    decreases b
  {
    if b == [] {
      assert a + b == a;
      PlusAssociates(LogAt(a, s), ZERO, ZERO);
    } else {
      var init, x := b[..|b| - 1], b[|b| - 1];
      assert a + b == (a + init) + [x];
      LogSnoc(a + init, x);
      LogAtConcat(a, init, s);
      PlusAssociates(LogAt(a, s), LogAt(init, s), x.d);
    }
  }

  lemma LoggedSnoc(bs: seq<Bucket>, s: int)
    requires bs != []
    ensures var last, l := bs[|bs| - 1], LogAt(Logged(bs[..|bs| - 1]), s);
            LogAt(Logged(bs), s) == if last.sec == s then l.Plus(last.counts) else l
  {
    LogSnoc(Logged(bs[..|bs| - 1]), Entry(bs[|bs| - 1].sec, bs[|bs| - 1].counts));
  }

  lemma {:induction false} LoggedNone(bs: seq<Bucket>, s: int)
    requires forall k :: 0 <= k < |bs| ==> bs[k].sec != s
    ensures LogAt(Logged(bs), s) == ZERO
    decreases bs
  {
    if bs != [] {
      LoggedSnoc(bs, s);
      LoggedNone(bs[..|bs| - 1], s);
    }
  }

  lemma {:induction false} LoggedAt(bs: seq<Bucket>, k: nat)
    requires Increasing(bs) && k < |bs|
    ensures LogAt(Logged(bs), bs[k].sec) == bs[k].counts
    decreases bs
  {
    LoggedSnoc(bs, bs[k].sec);
    if k == |bs| - 1 {
      LoggedNone(bs[..k], bs[k].sec);
      PlusAssociates(bs[k].counts, ZERO, ZERO);
    } else {
      LoggedAt(bs[..|bs| - 1], k);
    }
  }

  /** Into a slot that counts nothing, setting a second is adding to it. */
  lemma SetIsAdd(r: LiveRing, b: Bucket, i: nat)
    requires i == Slot(b.sec, |r.epoch|) && i < |r.counts| && r.counts[i] == ZERO
    ensures SetBucket(r, b) == Add(r, b.sec, b.counts)
  {
    AddToNothing(r, b.sec, b.counts, i);
  }

  lemma AddToNothing(r: LiveRing, sec: int, d: Counts, i: nat)
    requires i == Slot(sec, |r.epoch|) && i < |r.counts| && r.counts[i] == ZERO
    ensures Add(r, sec, d).epoch == r.epoch[i := sec] && Add(r, sec, d).counts == r.counts[i := d]
  {
    PlusAssociates(d, ZERO, ZERO);
  }

  lemma {:induction false} FeedElsewhere(n: nat, bs: seq<Bucket>, i: nat)
    requires i < n && forall k :: 0 <= k < |bs| ==> Slot(bs[k].sec, n) != i
    ensures Feed(Fresh(n, CLIENT_UNTOUCHED), bs).counts[i] == ZERO
    decreases bs
  {
    if bs != [] {
      FeedElsewhere(n, bs[..|bs| - 1], i);
    }
  }

  /** Laying listed seconds into a fresh ring is adding them to it. */
  lemma {:induction false} FeedIsAddAll(n: nat, bs: seq<Bucket>)
    requires 0 < n && DistinctSlots(bs, n)
    ensures Feed(Fresh(n, CLIENT_UNTOUCHED), bs) == AddAll(Fresh(n, CLIENT_UNTOUCHED), Logged(bs))
    decreases bs
  {
    if bs != [] {
      var init, last := bs[..|bs| - 1], bs[|bs| - 1];
      FeedIsAddAll(n, init);
      FeedElsewhere(n, init, Slot(last.sec, n));
      SetIsAdd(Feed(Fresh(n, CLIENT_UNTOUCHED), init), last, Slot(last.sec, n));
      AddAllSnoc(Fresh(n, CLIENT_UNTOUCHED), Logged(init), Entry(last.sec, last.counts));
    }
  }

  // ---------- ticks ----------

  /** The browser finds the second from the tick's milliseconds. */
  lemma SecondOfTick(t: Tick, now: int)
    requires TakenAt(t, now)
    ensures TickSecond(t) == now / 1_000_000_000 && DistinctEdges(t.edges)
  {
  }

  /** The ring of a conversation, or the fresh one that it will be opened with. */
  function RingOf(c: Replica, e: EdgeKey): LiveRing {
    if e in c.edges then c.edges[e].ring else Fresh(c.retention, CLIENT_UNTOUCHED)
  }

  lemma AddOne(r: LiveRing, x: Entry)
    ensures AddAll(r, [x]) == Add(r, x.sec, x.d)
  {
    AddAllSnoc(r, [], x);
    assert [] + [x] == [x];
  }

  lemma ListedRing(c: Replica, t: Tick, i: nat)
    requires DistinctEdges(t.edges) && i < |t.edges| && t.edges[i].id !in t.goneEdges
    ensures t.edges[i].id in ApplyTick(c, t).edges
    ensures ApplyTick(c, t).edges[t.edges[i].id].ring ==
            Add(RingOf(c, t.edges[i].id), TickSecond(t), t.edges[i].counts)
  {
    TickedKeys(c, t);
    assert t.edges[i].id in EdgeIds(t.edges);
    assert t.edges[i].id !in Elements(t.goneEdges);
    TickedListed(c, t, i);
  }

  lemma UnlistedRing(c: Replica, t: Tick, e: EdgeKey)
    requires e in c.edges && e !in EdgeIds(t.edges) && e !in t.goneEdges
    ensures e in ApplyTick(c, t).edges && ApplyTick(c, t).edges[e].ring == c.edges[e].ring
  {
    TickedKeys(c, t);
    assert e !in Elements(t.goneEdges);
    TickedUnlisted(c, t, e);
  }

  lemma TickedRing(c: Replica, x: Timed, e: EdgeKey)
    requires TickSecond(x.t) == x.now / 1_000_000_000 && DistinctEdges(x.t.edges)
    requires (e in c.edges || e in EdgeIds(x.t.edges)) && e !in x.t.goneEdges
    ensures e in ApplyTick(c, x.t).edges
    ensures ApplyTick(c, x.t).edges[e].ring == AddAll(RingOf(c, e), TickEntry(x, e))
  {
    if e in EdgeIds(x.t.edges) {
      var i :| 0 <= i < |x.t.edges| && x.t.edges[i].id == e;
      ListedRing(c, x.t, i);
      CarriedAt(x.t.edges, i);
      AddOne(RingOf(c, e), TickEntry(x, e)[0]);
    } else {
      UnlistedRing(c, x.t, e);
    }
  }

  /** A tick raises what the ring answers for a second by the pending increment exactly if it
      was computed in that second; any other second it leaves alone, but for one whole turns
      away, which it may evict. */
  lemma TickRaises(s: State, now: int, t: Tick, c: Replica, e: EdgeKey, sec: int)
    requires IsTick(s, now, t) && (e in c.edges || e in s.dirty) && e !in t.goneEdges
    ensures e in ApplyTick(c, t).edges && ApplyTick(c, t).edges[e].ring.Size() == RingOf(c, e).Size()
    ensures var r, r' := RingOf(c, e), ApplyTick(c, t).edges[e].ring;
            && (sec == now / 1_000_000_000 ==> r'.At(sec) == r.At(sec).Plus(Pending(s, e)))
            && (sec != now / 1_000_000_000 ==>
                  || r'.At(sec) == r.At(sec)
                  || (Slot(sec, r.Size()) == Slot(now / 1_000_000_000, r.Size()) && r'.At(sec) == ZERO))
  {
    var x, r := Timed(now, t), RingOf(c, e);
    SecondOfTick(t, now);
    TickedRing(c, x, e);
    TickIncrement(s, now, t, e);
    if e in EdgeIds(t.edges) {
      var entry := TickEntry(x, e)[0];
      AddOne(r, entry);
      AddAt(r, entry.sec, entry.d, sec);
    } else {
      PlusAssociates(r.At(sec), ZERO, ZERO);
    }
  }

  lemma TickIncrement(s: State, now: int, t: Tick, e: EdgeKey)
    requires IsTick(s, now, t)
    ensures Carried(t.edges, e) == Pending(s, e)
  {
    if e in EdgeIds(t.edges) {
      var i :| 0 <= i < |t.edges| && t.edges[i].id == e;
      CarriedAt(t.edges, i);
      assert IsIncrement(s, t.edges[i]);
    } else {
      CarriedNone(t.edges, e);
    }
  }

  lemma {:induction false} AddAllConcat(r: LiveRing, a: Log, b: Log)
    ensures AddAll(r, a + b) == AddAll(AddAll(r, a), b)
    decreases b
  {
    if b == [] {
      assert a + b == a;
    } else {
      var init, x := b[..|b| - 1], b[|b| - 1];
      assert a + b == (a + init) + [x];
      AddAllSnoc(r, a + init, x);
      AddAllConcat(r, a, init);
    }
  }

  predicate Reports(ts: seq<Timed>, e: EdgeKey) {
    exists i :: 0 <= i < |ts| && e in ts[i].t.goneEdges
  }

  /** While no tick reports the conversation as gone, its ring books what the ticks carry. */
  lemma {:induction false} RingOverTicks(c: Replica, ts: seq<Timed>, e: EdgeKey)
    requires AllTaken(ts) && e in c.edges && !Reports(ts, e)
    ensures e in ApplyTicks(c, TicksOf(ts)).edges
    ensures ApplyTicks(c, TicksOf(ts)).edges[e].ring == AddAll(c.edges[e].ring, TickLog(ts, e))
    decreases ts
  {
    if ts != [] {
      var init, x := ts[..|ts| - 1], ts[|ts| - 1];
      assert forall i :: 0 <= i < |init| ==> init[i] == ts[i];
      RingOverTicks(c, init, e);
      SecondOfTick(x.t, x.now);
      TickedRing(ApplyTicks(c, TicksOf(init)), x, e);
      AddAllConcat(c.edges[e].ring, TickLog(init, e), TickEntry(x, e));
      assert TicksOf(ts)[..|TicksOf(ts)| - 1] == TicksOf(init);
    }
  }

  /** All that the browser's ring of a listed conversation was given, snapshot and ticks. */
  function GivenLog(snap: Snapshot, i: nat, ts: seq<Timed>): Log
    requires i < |snap.edges|
  {
    Logged(snap.edges[i].buckets) + TickLog(ts, snap.edges[i].id)
  }

  /** The ring is what that log makes of it. */
  lemma CopyRing(s: State, before: Replica, now: int, snap: Snapshot, i: nat, ts: seq<Timed>)
    requires RingsSized(s) && IsSnapshot(s, now, snap) && before.retention == SlotCount(s) && i < |snap.edges|
    requires AllTaken(ts) && !Reports(ts, snap.edges[i].id)
    ensures var e, c := snap.edges[i].id, ApplyTicks(ApplySnapshot(before, snap), TicksOf(ts));
            && e in s.edges && e in c.edges
            && c.edges[e].ring == AddAll(Fresh(before.retention, CLIENT_UNTOUCHED), GivenLog(snap, i, ts))
  {
    var w := snap.edges[i];
    SnapLog(s, before, now, snap, i);
    RingOverTicks(ApplySnapshot(before, snap), ts, w.id);
    AddAllConcat(Fresh(before.retention, CLIENT_UNTOUCHED), Logged(w.buckets), TickLog(ts, w.id));
  }

  /** So while nothing in it comes a whole ring late, the ring answers for every second of its
      window what the server's ring answered at the snapshot, and what the ticks computed in
      that second carried. */
  lemma CopyRingTheorem(s: State, before: Replica, now: int, snap: Snapshot, i: nat, ts: seq<Timed>, sec: int)
    requires RingsSized(s) && IsSnapshot(s, now, snap) && before.retention == SlotCount(s) && i < |snap.edges|
    requires AllTaken(ts) && !Reports(ts, snap.edges[i].id)
    requires Timely(GivenLog(snap, i, ts), before.retention)
    requires LogMax(GivenLog(snap, i, ts)) - before.retention < sec && now - s.retention < sec * 1_000_000_000
    ensures var e, c := snap.edges[i].id, ApplyTicks(ApplySnapshot(before, snap), TicksOf(ts));
            && e in s.edges && e in c.edges
            && c.edges[e].ring.At(sec) == s.edges[e].ring.At(sec).Plus(LogAt(TickLog(ts, e), sec))
  {
    var w := snap.edges[i];
    CopyRing(s, before, now, snap, i, ts);
    SnapLog(s, before, now, snap, i);
    assert Since(s, now) < sec;
    GivenAnswers(s.edges[w.id].ring, Since(s, now), w.buckets, TickLog(ts, w.id), before.retention, sec);
  }

  lemma GivenAnswers(r: LiveRing, since: int, bs: seq<Bucket>, later: Log, n: nat, sec: int)
    requires 0 < n && IsSparse(r, since, bs) && since < sec
    requires Timely(Logged(bs) + later, n) && LogMax(Logged(bs) + later) - n < sec
    ensures AddAll(Fresh(n, CLIENT_UNTOUCHED), Logged(bs) + later).At(sec) == r.At(sec).Plus(LogAt(later, sec))
  {
    LogAnswers(n, Logged(bs) + later, sec);
    LogAtConcat(Logged(bs), later, sec);
    ListedAt(r, since, bs, sec);
  }

  lemma LogAnswers(n: nat, log: Log, sec: int)
    requires 0 < n && Timely(log, n) && LogMax(log) - n < sec
    ensures AddAll(Fresh(n, CLIENT_UNTOUCHED), log).At(sec) == LogAt(log, sec)
  {
    RingRefinesLog(n, CLIENT_UNTOUCHED, log);
    assert AddAll(Fresh(n, CLIENT_UNTOUCHED), log).Size() == n;
  }

  lemma SnapLog(s: State, before: Replica, now: int, snap: Snapshot, i: nat)
    requires RingsSized(s) && IsSnapshot(s, now, snap) && before.retention == SlotCount(s) && i < |snap.edges|
    ensures var w, c := snap.edges[i], ApplySnapshot(before, snap);
            && w.id in s.edges && w.id in c.edges && IsSparse(s.edges[w.id].ring, Since(s, now), w.buckets)
            && c.edges[w.id].ring == AddAll(Fresh(before.retention, CLIENT_UNTOUCHED), Logged(w.buckets))
  {
    var w := snap.edges[i];
    assert IsTotal(s, now, w);
    SnappedEdge(before, snap, i);
    SparseDistinctSlots(s.edges[w.id].ring, Since(s, now), w.buckets);
    FeedIsAddAll(before.retention, w.buckets);
  }

  lemma ListedAt(r: LiveRing, since: int, bs: seq<Bucket>, sec: int)
    requires IsSparse(r, since, bs) && since < sec
    ensures LogAt(Logged(bs), sec) == r.At(sec)
  {
    var b := Bucket(sec, r.At(sec));
    if b in bs {
      var k :| 0 <= k < |bs| && bs[k] == b;
      LoggedAt(bs, k);
    } else {
      forall k | 0 <= k < |bs| ensures bs[k].sec != sec {
        assert bs[k] in bs;
      }
      LoggedNone(bs, sec);
    }
  }
}
