/** The sampled flow events sent with each tick (internal/hub/hub.go): a bounded backlog
    between ticks and a sample that prefers the rare verdicts. */
module Sparks {
  import opened Wire

  datatype Spark = Spark(e: EdgeKey, v: Verdict)

  const BACKLOG: nat := 4096

  /** How many sparks are not forwarded traffic. */
  function Rare(sparks: seq<Spark>): nat {
    if sparks == [] then 0
    else Rare(sparks[..|sparks| - 1]) + if sparks[|sparks| - 1].v.Forwarded? then 0 else 1
  }

  lemma {:induction false} RareConcat(a: seq<Spark>, b: seq<Spark>)
    ensures Rare(a + b) == Rare(a) + Rare(b)
  {
    if b == [] {
      assert a + b == a;
    } else {
      assert (a + b)[..|a + b| - 1] == a + b[..|b| - 1];
      RareConcat(a, b[..|b| - 1]);
    }
  }

  lemma RareSnoc(a: seq<Spark>, s: Spark)
    ensures Rare(a + [s]) == Rare(a) + if s.v.Forwarded? then 0 else 1
  {
    assert (a + [s])[..|a|] == a;
  }

  lemma {:induction false} RareAtMost(a: seq<Spark>)
    ensures Rare(a) <= |a|
  {
    if a != [] {
      RareAtMost(a[..|a| - 1]);
    }
  }

  /** Replacing one spark changes the count by at most that spark. */
  lemma RareUpdate(a: seq<Spark>, i: nat, s: Spark)
    requires i < |a|
    ensures Rare(a[i := s]) == Rare(a) - Rare([a[i]]) + Rare([s])
  {
    assert a == a[..i] + [a[i]] + a[i + 1..];
    assert a[i := s] == a[..i] + [s] + a[i + 1..];
    RareConcat(a[..i] + [a[i]], a[i + 1..]);
    RareConcat(a[..i], [a[i]]);
    RareConcat(a[..i] + [s], a[i + 1..]);
    RareConcat(a[..i], [s]);
  }

  lemma {:induction false} RareOfMultiset(a: seq<Spark>, b: seq<Spark>)
    requires multiset(a) == multiset(b)
    ensures Rare(a) == Rare(b)
  {
    if a == [] {
      assert |multiset(b)| == 0;
    } else {
      var x := a[|a| - 1];
      assert a == a[..|a| - 1] + [x];
      assert x in multiset(b);
      var i :| 0 <= i < |b| && b[i] == x;
      var rest := b[..i] + b[i + 1..];
      assert b == b[..i] + [x] + b[i + 1..];
      assert multiset(rest) == multiset(b) - multiset{x};
      assert multiset(a[..|a| - 1]) == multiset(a) - multiset{x};
      RareOfMultiset(a[..|a| - 1], rest);
      RareConcat(b[..i] + [x], b[i + 1..]);
      RareConcat(b[..i], [x]);
      RareConcat(b[..i], b[i + 1..]);
      RareConcat(a[..|a| - 1], [x]);
    }
  }

  predicate Replaced(a: seq<Spark>, b: seq<Spark>, i: nat, s: Spark) {
    i < |a| && b == a[i := s]
  }

  class Collector {
    var sparks: seq<Spark>

    constructor ()
      ensures sparks == []
    {
      sparks := [];
    }

    /** Between ticks the backlog is bounded, only grows or trades one spark for a rare one,
        and never loses rare ones on balance, whatever slot chance picks. */
    method Flow(s: Spark)
      requires |sparks| <= BACKLOG
      modifies this
      ensures |old(sparks)| <= |sparks| <= BACKLOG
      ensures Rare(old(sparks)) <= Rare(sparks)
      ensures |old(sparks)| < BACKLOG ==> sparks == old(sparks) + [s]
      ensures |old(sparks)| == BACKLOG && s.v == Forwarded ==> sparks == old(sparks)
      ensures |old(sparks)| == BACKLOG && s.v != Forwarded ==>
                exists i: nat :: Replaced(old(sparks), sparks, i, s)
    {
      if |sparks| < BACKLOG {
        RareConcat(sparks, [s]);
        sparks := sparks + [s];
      } else if s.v != Forwarded {
        var i: nat :| i < BACKLOG;
        RareUpdate(sparks, i, s);
        RareAtMost([sparks[i]]);
        assert [s][..0] == [];
        assert Replaced(sparks, sparks[i := s], i, s);
        sparks := sparks[i := s];
      }
    }

    /** What a tick takes: everything, or a sample of the budget's size. */
    method Drain(budget: nat) returns (out: seq<Spark>)
      modifies this
      ensures sparks == []
      ensures |old(sparks)| <= budget ==> out == old(sparks)
      ensures |old(sparks)| > budget ==> IsSample(old(sparks), budget, out)
    {
      out := sparks;
      sparks := [];
      if |out| > budget {
        out := Sample(out, budget);
      }
    }
  }

  function Least(x: nat, y: nat): nat {
    if x < y then x else y
  }

  /** As many as the budget allows, each from the input, and as many rare ones as fit. */
  predicate IsSample(sparks: seq<Spark>, budget: nat, out: seq<Spark>) {
    && |out| == budget
    && multiset(out) <= multiset(sparks)
    && Rare(out) == Least(budget, Rare(sparks))
  }

  /** Rare verdicts first, then a uniform sample of the rest. */
  method Sample(sparks: seq<Spark>, budget: nat) returns (out: seq<Spark>)
    requires |sparks| > budget
    ensures IsSample(sparks, budget, out)
  {
    var kept, rest := Split(sparks, budget);
    rest := Shuffle(rest);
    var room := budget - |kept|;
    ghost var all := rest;
    if room > 0 && room < |rest| {
      rest := rest[..room];
    } else if room <= 0 {
      rest := [];
    }
    out := kept + rest;
    SampleRight(sparks, budget, kept, all, room);
  }

  /** What came so far, split: the rare that fit, and the rest. */
  predicate IsSplit(done: seq<Spark>, budget: nat, kept: seq<Spark>, rest: seq<Spark>) {
    && |kept| == Least(budget, Rare(done)) && Rare(kept) == |kept|
    && multiset(kept) + multiset(rest) == multiset(done)
    && Rare(kept) + Rare(rest) == Rare(done)
  }

  lemma SplitSnoc(done: seq<Spark>, budget: nat, kept: seq<Spark>, rest: seq<Spark>, s: Spark)
    requires IsSplit(done, budget, kept, rest)
    ensures if s.v != Forwarded && |kept| < budget then IsSplit(done + [s], budget, kept + [s], rest)
            else IsSplit(done + [s], budget, kept, rest + [s])
  {
    RareSnoc(done, s);
    RareSnoc(kept, s);
    RareSnoc(rest, s);
  }

  /** The split loop: rare sparks are kept while there is room, everything else waits. */
  method Split(sparks: seq<Spark>, budget: nat) returns (kept: seq<Spark>, rest: seq<Spark>)
    ensures IsSplit(sparks, budget, kept, rest)
  {
    kept, rest := [], [];
    assert sparks[..0] == [];
    for i := 0 to |sparks|
      invariant IsSplit(sparks[..i], budget, kept, rest)
    {
      var s := sparks[i];
      assert sparks[..i + 1] == sparks[..i] + [s];
      SplitSnoc(sparks[..i], budget, kept, rest, s);
      if s.v != Forwarded && |kept| < budget {
        kept := kept + [s];
      } else {
        rest := rest + [s];
      }
    }
    assert sparks[..|sparks|] == sparks;
  }

  /** rand.Shuffle with any source of chance. */
  method Shuffle(sparks: seq<Spark>) returns (out: seq<Spark>)
    ensures multiset(out) == multiset(sparks)
  {
    out := sparks;
    var i := |out|;
    while i > 1
      invariant i <= |out| == |sparks|
      invariant multiset(out) == multiset(sparks)
    {
      i := i - 1;
      var j: nat :| j <= i;
      out := out[i := out[j]][j := out[i]];
    }
  }

  lemma SampleRight(sparks: seq<Spark>, budget: nat, kept: seq<Spark>, rest: seq<Spark>, room: int)
    requires |sparks| > budget && |kept| == Least(budget, Rare(sparks)) && Rare(kept) == |kept|
    requires multiset(kept) + multiset(rest) == multiset(sparks) && room == budget - |kept|
    ensures 0 <= room < |rest| && IsSample(sparks, budget, kept + rest[..room])
  {
    assert |kept| + |rest| == |multiset(kept) + multiset(rest)| == |sparks|;
    assert rest == rest[..room] + rest[room..];
    RareOfMultiset(kept + rest, sparks);
    RareConcat(kept, rest);
    RareConcat(rest[..room], rest[room..]);
    RareConcat(kept, rest[..room]);
    if room == 0 {
      assert rest[..room] == [];
    }
  }
}
