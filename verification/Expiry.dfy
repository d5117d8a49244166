/** How long the graph remembers (internal/graph/graph.go, New and Tick), told from the flows
    of a history and the retention that was asked for. Times are in nanoseconds. */
module Expiry {
  import opened Wire
  import opened GraphModel
  import opened GraphSteps
  import opened GraphInvariants
  import opened GraphHistory
  import opened NodeHistory

  /** The retention in force: what was asked for, but at least ten seconds. */
  function Depth(retention: int): int {
    Max(retention, 10_000_000_000)
  }

  lemma {:induction false} RetentionExactly(retention: int, ops: seq<Op>)
    ensures After(retention, ops).retention == Depth(retention)
    decreases ops
  {
    if ops != [] {
      RetentionExactly(retention, ops[..|ops| - 1]);
      NextRetention(After(retention, ops[..|ops| - 1]), ops[|ops| - 1]);
    }
  }

  /** A conversation is in the graph exactly if there are flows it stands for. */
  lemma {:induction false} ThereIfFlows(retention: int, ops: seq<Op>, e: EdgeKey)
    ensures e in After(retention, ops).edges <==> FlowsOf(retention, ops, e) != []
    decreases ops
  {
    if ops != [] {
      var init, op := ops[..|ops| - 1], ops[|ops| - 1];
      var s := After(retention, init);
      ThereIfFlows(retention, init, e);
      if op.FlowOp? && IsCounted(s, op.f) && EdgeOf(s, op.f) == e {
        CountedRecent(s, op.f);
      } else {
        OpensOnlyCounted(s, op, e);
      }
    }
  }

  lemma OpensOnlyCounted(s: State, op: Op, e: EdgeKey)
    requires !(op.FlowOp? && IsCounted(s, op.f) && EdgeOf(s, op.f) == e)
    ensures e in Next(s, op).edges ==> e in s.edges
  {
    if e in Next(s, op).edges {
      match op
      case FlowOp(f) => IngestEdges(s, f, e);
      case LearnOp(addrs) => LearnAllEdges(s, addrs);
      case TickOp(now) =>
    }
  }

  /** And a node exactly if there are flows that touched it. */
  lemma {:induction false} ThereIfVisits(retention: int, ops: seq<Op>, k: NodeKey)
    ensures k in After(retention, ops).nodes <==> VisitsOf(retention, ops, k) != []
    decreases ops
  {
    if ops != [] {
      var init, op := ops[..|ops| - 1], ops[|ops| - 1];
      var s := After(retention, init);
      ThereIfVisits(retention, init, k);
      if Visits(s, op, k) {
        CountedRecent(s, op.f);
      } else if k in Next(s, op).nodes {
        match op
        case FlowOp(f) => IngestNode(s, f, k);
        case LearnOp(addrs) => LearnAllNodes(s, addrs);
        case TickOp(now) => TickNodes(s, now);
      }
    }
  }

  /** Young enough at `now`: within the retention. What lies before year 1 counts as year 1,
      the program's zero time. */
  predicate Remembered(retention: int, now: int, t: int) {
    now - Depth(retention) <= Max(t, -62_135_596_800_000_000_000)
  }

  lemma TickRemembers(retention: int, ops: seq<Op>, now: int)
    ensures After(retention, ops + [TickOp(now)]) == AfterTick(After(retention, ops), now)
    ensures Cutoff(After(retention, ops), now) == now - Depth(retention)
  {
    RetentionExactly(retention, ops);
    assert (ops + [TickOp(now)])[..|ops|] == ops;
  }

  /** A tick keeps a conversation exactly if one of its flows is within the retention. */
  lemma ConversationKeptExactly(retention: int, ops: seq<Op>, now: int, e: EdgeKey)
    ensures var fs := FlowsOf(retention, ops, e);
            e in After(retention, ops + [TickOp(now)]).edges <==>
            exists i :: 0 <= i < |fs| && Remembered(retention, now, fs[i].time)
  {
    var s, fs := After(retention, ops), FlowsOf(retention, ops, e);
    TickRemembers(retention, ops, now);
    AfterWellFormed(retention, ops);
    TickKeepsExactly(s, now);
    ThereIfFlows(retention, ops, e);
    if fs != [] {
      LastIsNewest(retention, ops, e);
      NewestRemembered(retention, now, fs, s.edges[e].last);
    }
  }

  lemma {:induction false} RaisedAfterZero(slots: nat, fs: seq<Flow>)
    requires 0 < slots
    ensures ZERO_TIME <= Raised(slots, fs).last
    decreases fs
  {
    if fs != [] {
      RaisedAfterZero(slots, fs[..|fs| - 1]);
    }
  }

  lemma LastIsNewest(retention: int, ops: seq<Op>, e: EdgeKey)
    requires e in After(retention, ops).edges
    ensures IsNewest(FlowsOf(retention, ops, e), After(retention, ops).edges[e].last)
    ensures ZERO_TIME <= After(retention, ops).edges[e].last
  {
    var s, fs := After(retention, ops), FlowsOf(retention, ops, e);
    ConversationIsItsFlows(retention, ops, e);
    RaisedAfterZero(SlotCount(s), fs);
    ConversationTheorem(retention, ops, e);
  }

  lemma NewestRemembered(retention: int, now: int, fs: seq<Flow>, last: int)
    requires fs != [] && IsNewest(fs, last) && ZERO_TIME <= last
    ensures now - Depth(retention) <= last <==> exists i :: 0 <= i < |fs| && Remembered(retention, now, fs[i].time)
  {
    if now - Depth(retention) <= last {
      if last == ZERO_TIME {
        assert Remembered(retention, now, fs[0].time);
      } else {
        var i :| 0 <= i < |fs| && fs[i].time == last;
        assert Remembered(retention, now, fs[i].time);
      }
    }
  }

  /** And a node exactly if one of the flows that touched it is. */
  lemma NodeKeptExactly(retention: int, ops: seq<Op>, now: int, k: NodeKey)
    ensures var vs := VisitsOf(retention, ops, k);
            k in After(retention, ops + [TickOp(now)]).nodes <==>
            exists i :: 0 <= i < |vs| && Remembered(retention, now, vs[i].time)
  {
    var s, vs := After(retention, ops), VisitsOf(retention, ops, k);
    TickRemembers(retention, ops, now);
    ThereIfVisits(retention, ops, k);
    AfterWellFormed(retention, ops);
    TickKeepsExactly(s, now);
    if vs != [] {
      NodeIsItsVisits(retention, ops, k);
      NewestVisitRemembered(retention, now, vs);
    }
  }

  lemma NewestVisitRemembered(retention: int, now: int, vs: seq<Visit>)
    requires vs != []
    ensures now - Depth(retention) <= NewestOf(vs) <==>
            exists i :: 0 <= i < |vs| && Remembered(retention, now, vs[i].time)
  {
    NewestIsNewest(vs);
    NewestAfterZero(vs);
    if now - Depth(retention) <= NewestOf(vs) {
      if NewestOf(vs) == ZERO_TIME {
        assert Remembered(retention, now, vs[0].time);
      } else {
        var i :| 0 <= i < |vs| && vs[i].time == NewestOf(vs);
        assert Remembered(retention, now, vs[i].time);
      }
    }
  }

  lemma {:induction false} NewestAfterZero(vs: seq<Visit>)
    ensures ZERO_TIME <= NewestOf(vs)
    decreases vs
  {
    if vs != [] {
      NewestAfterZero(vs[..|vs| - 1]);
    }
  }
}
