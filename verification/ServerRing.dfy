/** The server's ring as the program keeps it: two slices updated in place
    (internal/graph/buckets.go). */
module ServerRing {
  import opened Wire
  import opened Rings

  class Slots {
    const epoch: array<int>
    const counts: array<Counts>

    ghost predicate Valid()
      reads this, epoch, counts
    {
      && 0 < epoch.Length == counts.Length
      && epoch as object != counts
      && Ring(epoch[..], counts[..]).SlotsInPlace()
    }

    ghost function Value(): (r: LiveRing)
      requires Valid()
      reads this, epoch, counts
      ensures r.Size() == epoch.Length
    {
      Ring(epoch[..], counts[..])
    }

    constructor (seconds: nat)
      requires 0 < seconds
      ensures Valid() && fresh(epoch) && fresh(counts)
      ensures Value() == Fresh(seconds, SERVER_UNTOUCHED)
    {
      epoch := new int[seconds](_ => SERVER_UNTOUCHED);
      counts := new Counts[seconds](_ => ZERO);
    }

    /** Go's % of a negative second would be a negative index. */
    method AddFlow(sec: int, v: Verdict)
      requires Valid() && 0 <= sec
      modifies epoch, counts
      ensures Valid() && Value() == Add(old(Value()), sec, Unit(v))
    {
      AddCounts(sec, Unit(v));
    }

    method AddCounts(sec: int, d: Counts)
      requires Valid() && 0 <= sec
      modifies epoch, counts
      ensures Valid() && Value() == Add(old(Value()), sec, d)
    {
      ghost var r := Add(Value(), sec, d);
      var i := Slot(sec, epoch.Length);
      if epoch[i] != sec {
        epoch[i] := sec;
        counts[i] := ZERO;
      }
      counts[i] := counts[i].Plus(d);
      assert epoch[..] == old(epoch[..])[i := sec];
      assert counts[..] == old(counts[..])[i := counts[i]];
      assert old(epoch[i]) == sec ==> epoch[..] == old(epoch[..]);
    }

    method Sparse(since: int) returns (out: seq<Bucket>)
      requires Valid()
      ensures IsSparse(Value(), since, out)
    {
      out := SparseSlots(Ring(epoch[..], counts[..]), since);
    }
  }

  /** The loop over the slots, whose order is not that of the seconds, and the sort. */
  method SparseSlots(r: LiveRing, since: int) returns (out: seq<Bucket>)
    ensures IsSparse(r, since, out)
  {
    out := [];
    var i := 0;
    while i < |r.epoch|
      invariant 0 <= i <= |r.epoch|
      invariant forall b: Bucket :: b in out <==>
                  (Slot(b.sec, |r.epoch|) < i && since < b.sec && b.counts != ZERO && r.At(b.sec) == b.counts)
      invariant Distinct(out)
    {
      if r.epoch[i] > since && r.counts[i] != ZERO {
        var x := Bucket(r.epoch[i], r.counts[i]);
        forall b: Bucket ensures b in out + [x] <==>
            (Slot(b.sec, |r.epoch|) < i + 1 && since < b.sec && b.counts != ZERO && r.At(b.sec) == b.counts)
        {
          if Slot(b.sec, |r.epoch|) == i && b.counts != ZERO && r.At(b.sec) == b.counts {
            assert b == x;
          }
        }
        out := out + [x];
      }
      i := i + 1;
    }
    out := SortBySecond(out);
  }

  predicate Distinct(bs: seq<Bucket>) {
    forall i, j :: 0 <= i < j < |bs| ==> bs[i].sec != bs[j].sec
  }

  /** sort.Slice by second; any sorting algorithm yields this result. */
  method SortBySecond(bs: seq<Bucket>) returns (out: seq<Bucket>)
    requires Distinct(bs)
    ensures Increasing(out)
    ensures forall b :: b in out <==> b in bs
  {
    out := [];
    for k := 0 to |bs|
      invariant Increasing(out)
      invariant forall b :: b in out <==> b in bs[..k]
    {
      var j := |out|;
      while 0 < j && bs[k].sec < out[j - 1].sec
        invariant 0 <= j <= |out|
        invariant forall m :: j <= m < |out| ==> bs[k].sec < out[m].sec
      {
        j := j - 1;
      }
      forall m | 0 <= m < j ensures out[m].sec < bs[k].sec {
        assert out[m] in out && out[j - 1] in out;
        assert out[m].sec <= out[j - 1].sec;
        assert out[m] in bs[..k];
      }
      assert bs[..k + 1] == bs[..k] + [bs[k]];
      out := out[..j] + [bs[k]] + out[j..];
    }
    assert bs[..|bs|] == bs;
  }
}
