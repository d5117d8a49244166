/** The browser's ring as the program keeps it (web/src/graph-state.ts): one flat array of
    four counters per slot beside the array of epochs, and the loops that read windows. */
module ClientRing {
  import opened Wire
  import opened Rings

  function Min(x: int, y: int): (m: int)
    ensures m <= x && m <= y && (m == x || m == y)
  {
    if x < y then x else y
  }

  class Slots {
    const retention: nat
    const epochs: array<int>
    const ring: array<nat>

    ghost predicate Valid()
      reads this, epochs, ring
    {
      && 0 < retention == epochs.Length
      && ring.Length == 4 * retention
      && epochs as object != ring
      && InPlace()
    }

    /** A slot holds a second that belongs to it, or counts nothing. */
    ghost predicate InPlace()
      requires 0 < retention == epochs.Length && ring.Length == 4 * retention
      reads this, epochs, ring
    {
      forall i :: 0 <= i < retention && Cell(i) != ZERO ==> Slot(epochs[i], retention) == i
    }

    ghost function Cell(i: nat): Counts
      requires 0 < retention == epochs.Length && ring.Length == 4 * retention && i < retention
      reads this, epochs, ring
    {
      Counts(ring[i * 4], ring[i * 4 + 1], ring[i * 4 + 2], ring[i * 4 + 3])
    }

    ghost function Value(): (r: LiveRing)
      requires Valid()
      reads this, epochs, ring
      ensures r.Size() == retention
    {
      Ring(epochs[..], seq(retention, i requires 0 <= i < retention == epochs.Length && ring.Length == 4 * retention
                                   reads this, epochs, ring => Cell(i)))
    }

    constructor (retention: nat)
      requires 0 < retention
      ensures Valid() && fresh(epochs) && fresh(ring)
      ensures this.retention == retention && Value() == Fresh(retention, CLIENT_UNTOUCHED)
    {
      this.retention := retention;
      epochs := new int[retention](_ => CLIENT_UNTOUCHED);
      ring := new nat[4 * retention](_ => 0);
    }

    /** Four writes into the flat array and one into the epochs. */
    method Put(i: nat, sec: int, c: Counts)
      requires Valid() && i < retention && i == Slot(sec, retention)
      modifies epochs, ring
      ensures Valid()
      ensures Value() == Ring(old(Value()).epoch[i := sec], old(Value()).counts[i := c])
    {
      ghost var was := Value();
      epochs[i] := sec;
      ring[i * 4], ring[i * 4 + 1], ring[i * 4 + 2], ring[i * 4 + 3] := c.f, c.d, c.a, c.e;
      assert Cell(i) == c;
      assert forall j :: 0 <= j < retention && j != i ==> Cell(j) == was.counts[j] && epochs[j] == was.epoch[j];
      assert InPlace();
      assert epochs[..] == was.epoch[i := sec];
      assert Value().counts == was.counts[i := c];
    }

    method SetBucket(b: Bucket)
      requires Valid()
      modifies epochs, ring
      ensures Valid() && Value() == Rings.SetBucket(old(Value()), b)
    {
      Put(Slot(b.sec, retention), b.sec, b.counts);
    }

    method Increase(i: nat, d: Counts)
      requires Valid() && i < retention && i == Slot(epochs[i], retention)
      modifies ring
      ensures Valid()
      ensures Value() == old(Value()).(counts := old(Value()).counts[i := old(Value()).counts[i].Plus(d)])
    {
      ring[i * 4] := ring[i * 4] + d.f;
      ring[i * 4 + 1] := ring[i * 4 + 1] + d.d;
      ring[i * 4 + 2] := ring[i * 4 + 2] + d.a;
      ring[i * 4 + 3] := ring[i * 4 + 3] + d.e;
      ghost var was := old(Value());
      assert forall j :: 0 <= j < retention && j != i ==> Cell(j) == was.counts[j];
      assert Value().counts == was.counts[i := was.counts[i].Plus(d)];
    }

    method AddBucket(sec: int, d: Counts)
      requires Valid()
      modifies epochs, ring
      ensures Valid() && Value() == Rings.Add(old(Value()), sec, d)
    {
      var i := Slot(sec, retention);
      if epochs[i] != sec {
        Put(i, sec, ZERO);
      }
      Increase(i, d);
      ghost var was := old(Value());
      assert was.counts[i := ZERO][i := ZERO.Plus(d)] == was.counts[i := ZERO.Plus(d)];
    }

    /** The slot of a second holds that second or nothing of it. */
    method Lookup(s: int, ghost r: LiveRing) returns (c: Counts)
      requires Valid() && r == Value()
      ensures r == Value() && c == r.At(s)
    {
      var i := Slot(s, retention);
      c := ZERO;
      if epochs[i] == s {
        c := Counts(ring[i * 4], ring[i * 4 + 1], ring[i * 4 + 2], ring[i * 4 + 3]);
      }
    }

    /** The loop over the seconds of a window. */
    method AddUp(w: nat, nowSec: int) returns (out: Counts)
      requires Valid()
      ensures out == Sum(Window(Value(), nowSec - w + 1, w))
    {
      ghost var r, from := Value(), nowSec - w + 1;
      out := ZERO;
      var s := nowSec - w + 1;
      ghost var k: nat := 0;
      while s <= nowSec
        invariant k <= w && s == from + k
        invariant r == Value()
        invariant out == Sum(Window(r, from, k))
      {
        var c := Lookup(s, r);
        WindowStep(r, from, k, s);
        out, s, k := out.Plus(c), s + 1, k + 1;
      }
    }

    /** The rates over a window; times its length `w` they are the sums over its seconds. */
    method Rate(windowSec: nat, nowSec: int)
      returns (f: real, d: real, a: real, e: real, ghost w: nat, ghost sum: Counts)
      requires Valid() && 0 < windowSec
      ensures 0 < w && w == Min(windowSec, retention) && sum == Sum(Window(Value(), nowSec - w + 1, w))
      ensures f == PerSecond(sum.f, w) && d == PerSecond(sum.d, w)
      ensures a == PerSecond(sum.a, w) && e == PerSecond(sum.e, w)
    {
      var n: nat := Min(windowSec, retention);
      var out := AddUp(n, nowSec);
      f, d, a, e := PerSecond(out.f, n), PerSecond(out.d, n), PerSecond(out.a, n), PerSecond(out.e, n);
      w, sum := n, out;
    }

    /** The sparkline: each second's four counters added up, oldest first. */
    method Series(windowSec: nat, nowSec: int) returns (out: seq<int>)
      requires Valid()
      ensures var w: nat := Min(windowSec, retention);
              out == Totals(Window(Value(), nowSec - w + 1, w))
    {
      var w: nat := Min(windowSec, retention);
      ghost var r := Value();
      out := [];
      var s := nowSec - w + 1;
      ghost var k: nat := 0;
      while s <= nowSec
        invariant k <= w && s == nowSec - w + 1 + k
        invariant r == Value()
        invariant out == Totals(Window(r, nowSec - w + 1, k))
      {
        var c := Lookup(s, r);
        WindowStep(r, nowSec - w + 1, k, s);
        out, s, k := out + [c.Total()], s + 1, k + 1;
      }
    }
  }

  function PerSecond(x: nat, w: nat): (q: real)
    requires 0 < w
    ensures q * w as real == x as real
  {
    x as real / w as real
  }

  function Totals(cs: seq<Counts>): seq<int> {
    if cs == [] then [] else Totals(cs[..|cs| - 1]) + [cs[|cs| - 1].Total()]
  }

  function SumOf(xs: seq<int>): int {
    if xs == [] then 0 else SumOf(xs[..|xs| - 1]) + xs[|xs| - 1]
  }

  lemma WindowStep(r: LiveRing, from: int, k: nat, s: int)
    requires s == from + k
    ensures Window(r, from, k + 1) == Window(r, from, k) + [r.At(s)]
    ensures Sum(Window(r, from, k + 1)) == Sum(Window(r, from, k)).Plus(r.At(s))
    ensures Totals(Window(r, from, k + 1)) == Totals(Window(r, from, k)) + [r.At(s).Total()]
  {
  }

  /** The sparkline shows each second in its place, and in all the flows that the rates
      show. */
  lemma {:induction false} TotalsOfWindow(cs: seq<Counts>)
    ensures |Totals(cs)| == |cs|
    ensures forall k :: 0 <= k < |cs| ==> Totals(cs)[k] == cs[k].Total()
    ensures SumOf(Totals(cs)) == Sum(cs).Total()
  {
    if cs != [] {
      TotalsOfWindow(cs[..|cs| - 1]);
      assert Totals(cs)[..|cs| - 1] == Totals(cs[..|cs| - 1]);
    }
  }
}
