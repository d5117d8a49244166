/** Gaps in what a client is given, of any number and length: how much it then shows of a
    conversation, for as long as that is in the graph. */
module Shortfalls {
  import opened Wire
  import opened GraphModel
  import opened GraphInvariants
  import opened GraphAnchors
  import opened ReplicaModel
  import opened Coupling
  import opened Delivery
  import opened Gaps
  import opened Ledger
  import opened Recovery
  import opened System

  /** The conversation is in the graph all through the run. */
  ghost predicate Present(y: Sys, ms: seq<Move>, e: EdgeKey)
    requires Legal(y, ms)
    decreases ms
  {
    e in Run(y, ms).g.edges && (ms == [] || Present(y, ms[..|ms| - 1], e))
  }

  lemma {:induction false} StaysOn(y: Sys, ms: seq<Move>, id: nat)
    requires Legal(y, ms) && id in y.peers && Left(id) !in ms
    ensures id in Run(y, ms).peers
    decreases ms
  {
    if ms != [] {
      assert ms[|ms| - 1] in ms;
      StaysOn(y, ms[..|ms| - 1], id);
    }
  }

  /** What handing out a tick keeps from a client that was owed it. */
  ghost function MissedBy(y: Sys, m: Move, id: nat, e: EdgeKey): Counts
    requires Enabled(y, m) && id in y.peers
  {
    if m.TickHanded? && y.peers[id].owed && !Given(y.peers[id]) then Carried(y.inflight.value.edges, e) else ZERO
  }

  /** What it gives a client that has it already. */
  ghost function DoubledBy(y: Sys, m: Move, id: nat, e: EdgeKey): Counts
    requires Enabled(y, m) && id in y.peers
  {
    if m.TickHanded? && !y.peers[id].owed && Given(y.peers[id]) then Carried(y.inflight.value.edges, e) else ZERO
  }

  /** The sums over a run. */
  ghost function Short(y: Sys, ms: seq<Move>, id: nat, e: EdgeKey): Counts
    requires Legal(y, ms) && id in y.peers && Left(id) !in ms
    decreases ms
  {
    if ms == [] then ZERO
    else
      StaysOn(y, ms[..|ms| - 1], id);
      Short(y, ms[..|ms| - 1], id, e).Plus(MissedBy(Run(y, ms[..|ms| - 1]), ms[|ms| - 1], id, e))
  }

  ghost function Over(y: Sys, ms: seq<Move>, id: nat, e: EdgeKey): Counts
    requires Legal(y, ms) && id in y.peers && Left(id) !in ms
    decreases ms
  {
    if ms == [] then ZERO
    else
      StaysOn(y, ms[..|ms| - 1], id);
      Over(y, ms[..|ms| - 1], id, e).Plus(DoubledBy(Run(y, ms[..|ms| - 1]), ms[|ms| - 1], id, e))
  }

  /** The client is sent no new snapshot during the run. */
  ghost predicate Unsnapped(y: Sys, ms: seq<Move>, id: nat)
    requires Legal(y, ms)
    decreases ms
  {
    ms == [] ||
    (var y', m := Run(y, ms[..|ms| - 1]), ms[|ms| - 1];
     && Unsnapped(y, ms[..|ms| - 1], id)
     && (m.TickHanded? && id in y'.peers ==> !(Given(y'.peers[id]) && y'.peers[id].client.resync)))
  }

  /** The tick on its way does not report the conversation as gone. */
  predicate Unreported(y: Sys, e: EdgeKey) {
    y.inflight.Some? ==> e !in y.inflight.value.goneEdges
  }

  lemma StartedUnreported(g: State, now: int, t: Tick, e: EdgeKey)
    requires WellFormed(g) && Anchored(g) && IsTick(Expire(g, now), now, t) && e in AfterTick(g, now).edges
    ensures e !in t.goneEdges
  {
    AnchoredGoneIsGone(g);
    ExpiredGoneIsGone(g, now);
    assert e in t.goneEdges ==> e in Elements(t.goneEdges);
  }

  lemma UnreportedStep(y: Sys, m: Move, e: EdgeKey)
    requires Inv(y) && Enabled(y, m) && Unreported(y, e) && e in Do(y, m).g.edges
    ensures Unreported(Do(y, m), e)
  {
    match m
    case TickStarted(now, t) => StartedUnreported(y.g, now, t, e);
    case _ =>
  }

  lemma {:induction false} StaysUnreported(y: Sys, ms: seq<Move>, e: EdgeKey)
    requires Inv(y) && Legal(y, ms) && Unreported(y, e) && Present(y, ms, e)
    ensures Unreported(Run(y, ms), e)
    decreases ms
  {
    if ms != [] {
      StaysUnreported(y, ms[..|ms| - 1], e);
      RunInv(y, ms[..|ms| - 1]);
      UnreportedStep(Run(y, ms[..|ms| - 1]), ms[|ms| - 1], e);
    }
  }

  lemma PlusZeroes(b: Books)
    ensures Books(b.over.Plus(ZERO), b.short.Plus(ZERO)) == b
  {
  }

  lemma PlusAssociates(a: Counts, b: Counts, c: Counts)
    ensures a.Plus(b).Plus(c) == a.Plus(b.Plus(c))
  {
  }

  lemma PostedSums(y: Sys, m: Move, id: nat, e: EdgeKey, b: Books)
    requires Enabled(y, m) && id in y.peers && e in y.g.edges && Unreported(y, e)
    requires m.TickHanded? ==> !(Given(y.peers[id]) && y.peers[id].client.resync)
    ensures Posted(y, m, id, e, b) == Books(b.over.Plus(DoubledBy(y, m, id, e)), b.short.Plus(MissedBy(y, m, id, e)))
  {
    PlusZeroes(b);
  }

  /** While the conversation stays and no snapshot comes, the ledger is the two sums. */
  lemma {:induction false} BalanceIsSums(y: Sys, ms: seq<Move>, id: nat, e: EdgeKey, b: Books)
    requires Inv(y) && Legal(y, ms) && id in y.peers && Left(id) !in ms
    requires Present(y, ms, e) && Unsnapped(y, ms, id) && Unreported(y, e)
    ensures Balance(y, ms, id, e, b) == Books(b.over.Plus(Over(y, ms, id, e)), b.short.Plus(Short(y, ms, id, e)))
    decreases ms
  {
    if ms == [] {
      PlusZeroes(b);
    } else {
      var init, m := ms[..|ms| - 1], ms[|ms| - 1];
      var y' := Run(y, init);
      BalanceIsSums(y, init, id, e, b);
      StaysOn(y, init, id);
      StaysUnreported(y, init, e);
      PostedSums(y', m, id, e, Balance(y, init, id, e, b));
      PlusAssociates(b.over, Over(y, init, id, e), DoubledBy(y', m, id, e));
      PlusAssociates(b.short, Short(y, init, id, e), MissedBy(y', m, id, e));
    }
  }

  /** A client that was there when the tick on its way was computed is owed it. */
  predicate OwedInFlight(y: Sys, id: nat) {
    id in y.peers && (y.peers[id].owed <==> y.inflight.Some?)
  }

  lemma OwedStep(y: Sys, m: Move, id: nat)
    requires Enabled(y, m) && OwedInFlight(y, id) && m != Left(id)
    ensures OwedInFlight(Do(y, m), id)
  {
  }

  lemma {:induction false} OverNone(y: Sys, ms: seq<Move>, id: nat, e: EdgeKey)
    requires Legal(y, ms) && OwedInFlight(y, id) && Left(id) !in ms
    ensures OwedInFlight(Run(y, ms), id) && Over(y, ms, id, e) == ZERO
    decreases ms
  {
    if ms != [] {
      assert ms[|ms| - 1] in ms;
      OverNone(y, ms[..|ms| - 1], id, e);
      OwedStep(Run(y, ms[..|ms| - 1]), ms[|ms| - 1], id);
    }
  }

  lemma CleanKept(y: Sys, id: nat, e: EdgeKey)
    requires Inv(y) && id in y.peers && y.peers[id].sync.Clean?
    ensures Kept(y, id, e, Books(ZERO, ZERO))
  {
    assert PeerOk(y, y.peers[id]);
    if e in y.g.edges {
      var c := Expected(y, y.peers[id]);
      assert TotalsOf(c, e).Plus(Pending(y.g, e)) == y.g.edges[e].counts.Plus(DriftOf(map[], e));
      PlusZero(TotalsOf(c, e).Plus(Pending(y.g, e)));
    }
  }

  /** Gaps are not repaired, whatever their number and length and whatever flows come in
      between: an exact client that is sent no new snapshot is short, of every conversation
      that stays, of exactly what the ticks it was not given carried; so its total is right
      if and only if they carried nothing for it. */
  lemma MissedStays(y: Sys, ms: seq<Move>, id: nat, e: EdgeKey)
    requires Inv(y) && y.inflight.None? && id in y.peers && y.peers[id].sync.Clean?
    requires Legal(y, ms) && Left(id) !in ms && Present(y, ms, e) && Unsnapped(y, ms, id)
    requires Run(y, ms).inflight.None? && NothingPending(Run(y, ms).g)
    ensures var y' := Run(y, ms);
            && id in y'.peers && e in y'.g.edges
            && TotalsOf(Shown(y'.peers[id]), e).Plus(Short(y, ms, id, e)) == y'.g.edges[e].counts
            && (TotalsOf(Shown(y'.peers[id]), e) == y'.g.edges[e].counts <==> Short(y, ms, id, e) == ZERO)
  {
    CleanKept(y, id, e);
    CleanBalance(y, ms, id, e);
    LedgerTheorem(y, ms, id, e, Books(ZERO, ZERO));
    PlusZero(Run(y, ms).g.edges[e].counts);
  }

  lemma CleanBalance(y: Sys, ms: seq<Move>, id: nat, e: EdgeKey)
    requires Inv(y) && y.inflight.None? && id in y.peers
    requires Legal(y, ms) && Left(id) !in ms && Present(y, ms, e) && Unsnapped(y, ms, id)
    ensures Balance(y, ms, id, e, Books(ZERO, ZERO)) == Books(ZERO, Short(y, ms, id, e))
  {
    assert PeerOk(y, y.peers[id]);
    BalanceIsSums(y, ms, id, e, Books(ZERO, ZERO));
    OverNone(y, ms, id, e);
    PlusZero(ZERO);
    PlusZero(Short(y, ms, id, e));
  }

  /** The client is given a tick that its snapshot already contained. */
  ghost predicate GotStale(y: Sys, ms: seq<Move>, id: nat)
    requires Legal(y, ms)
    decreases ms
  {
    ms != [] &&
    (var y', m := Run(y, ms[..|ms| - 1]), ms[|ms| - 1];
     || GotStale(y, ms[..|ms| - 1], id)
     || (id in y'.peers && GivesStale(y', m, id)))
  }

  /** The tick that was on its way when the client joined still is, or all is in order. */
  predicate StaleOrOwed(y: Sys, id: nat, t: Tick) {
    id in y.peers && ((y.inflight == Some(t) && !y.peers[id].owed) || OwedInFlight(y, id))
  }

  lemma StaleStep(y: Sys, m: Move, id: nat, t: Tick)
    requires Enabled(y, m) && StaleOrOwed(y, id, t) && m != Left(id)
    ensures StaleOrOwed(Do(y, m), id, t)
    ensures m.TickHanded? ==> OwedInFlight(Do(y, m), id)
    ensures OwedInFlight(y, id) ==> OwedInFlight(Do(y, m), id)
  {
  }

  lemma StaleDoubled(y: Sys, m: Move, id: nat, e: EdgeKey, t: Tick)
    requires Enabled(y, m) && StaleOrOwed(y, id, t)
    ensures DoubledBy(y, m, id, e) == if GivesStale(y, m, id) then Carried(t.edges, e) else ZERO
    ensures OwedInFlight(y, id) ==> !GivesStale(y, m, id)
  {
  }

  lemma {:induction false} StaysStale(y: Sys, ms: seq<Move>, id: nat, t: Tick)
    requires Legal(y, ms) && StaleOrOwed(y, id, t) && Left(id) !in ms
    ensures StaleOrOwed(Run(y, ms), id, t)
    ensures GotStale(y, ms, id) ==> OwedInFlight(Run(y, ms), id)
    decreases ms
  {
    if ms != [] {
      var init, m := ms[..|ms| - 1], ms[|ms| - 1];
      assert m in ms;
      StaysStale(y, init, id, t);
      StaleStep(Run(y, init), m, id, t);
    }
  }

  lemma OneIsZero(a: Counts, b: Counts, x: Counts)
    requires (a == x && b == ZERO) || (a == ZERO && b == x)
    ensures a.Plus(b) == x
  {
  }

  lemma OneZero(a: Counts, b: Counts, x: Counts, p: bool, q: bool)
    requires a == (if p then x else ZERO) && b == (if q then x else ZERO) && !(p && q)
    ensures a.Plus(b) == if p || q then x else ZERO
  {
    OneIsZero(a, b, if p || q then x else ZERO);
  }

  /** The tick a move gives the client though its snapshot contained it. */
  ghost predicate GivesStale(y: Sys, m: Move, id: nat)
    requires id in y.peers
  {
    m.TickHanded? && !y.peers[id].owed && Given(y.peers[id])
  }

  /** It can be given only that one such tick. */
  lemma {:induction false} OverExactly(y: Sys, ms: seq<Move>, id: nat, e: EdgeKey, t: Tick)
    requires Legal(y, ms) && StaleOrOwed(y, id, t) && Left(id) !in ms
    ensures Over(y, ms, id, e) == if GotStale(y, ms, id) then Carried(t.edges, e) else ZERO
    decreases ms
  {
    if ms != [] {
      var init, m := ms[..|ms| - 1], ms[|ms| - 1];
      var y' := Run(y, init);
      OverExactly(y, init, id, e, t);
      StaysStale(y, init, id, t);
      StaleDoubled(y', m, id, e, t);
      OneZero(Over(y, init, id, e), DoubledBy(y', m, id, e), Carried(t.edges, e),
              GotStale(y, init, id), GivesStale(y', m, id));
    }
  }

  /** A client that joins while a tick is on its way, with any flows before and after: of
      every conversation that stays it counts too much what was pending when it joined and,
      if that tick is given to it, what the tick carries; no later tick makes up for it. */
  lemma DoubledStays(y: Sys, id: nat, before: Replica, now: int, snap: Snapshot, ms: seq<Move>, e: EdgeKey)
    requires Inv(y) && MayJoin(y, id, now, snap) && y.inflight.Some? && Unreported(y, e)
    requires var y1 := Joining(y, id, before, snap);
             && Legal(y1, ms) && Left(id) !in ms && Present(y1, ms, e) && Unsnapped(y1, ms, id)
             && Run(y1, ms).inflight.None? && NothingPending(Run(y1, ms).g)
    ensures var y1 := Joining(y, id, before, snap);
            var y2 := Run(y1, ms);
            var again := if GotStale(y1, ms, id) then Carried(y.inflight.value.edges, e) else ZERO;
            var twice := Pending(y.g, e).Plus(again);
            && id in y2.peers && e in y2.g.edges
            && TotalsOf(Shown(y2.peers[id]), e).Plus(Short(y1, ms, id, e)) == y2.g.edges[e].counts.Plus(twice)
            && (TotalsOf(Shown(y2.peers[id]), e) == y2.g.edges[e].counts <==> Short(y1, ms, id, e) == twice)
  {
    var y1, b := Joining(y, id, before, snap), Books(Pending(y.g, e), ZERO);
    JoinLedger(y, id, before, now, snap, e);
    LedgerTheorem(y1, ms, id, e, b);
    BalanceIsSums(y1, ms, id, e, b);
    OverExactly(y1, ms, id, e, y.inflight.value);
    PlusZero(Short(y1, ms, id, e));
  }

  lemma {:induction false} ServedBalance(y: Sys, ms: seq<Move>, id: nat, e: EdgeKey, b: Books)
    requires Legal(y, ms) && Served(y, ms, id) && InStep(y, id) && Present(y, ms, e)
    ensures Left(id) !in ms && InStep(Run(y, ms), id)
    ensures Balance(y, ms, id, e, b) == b
    decreases ms
  {
    if ms != [] {
      var init, m := ms[..|ms| - 1], ms[|ms| - 1];
      ServedBalance(y, init, id, e, b);
      ServedStep(Run(y, init), m, id);
      assert ms == init + [m];
    }
  }

  /** A client that is given every tick keeps, for every conversation that stays, whatever
      surplus or shortfall it had: ticks and flows never make up for it. */
  lemma OffStays(y: Sys, ms: seq<Move>, id: nat, e: EdgeKey, plus: Counts, minus: Counts)
    requires Inv(y) && Legal(y, ms) && Served(y, ms, id) && InStep(y, id) && Present(y, ms, e)
    requires Kept(y, id, e, Books(plus, minus))
    ensures InStep(Run(y, ms), id)
    ensures OffBy(Run(y, ms).g, Expected(Run(y, ms), Run(y, ms).peers[id]), e, plus, minus)
  {
    ServedBalance(y, ms, id, e, Books(plus, minus));
    LedgerLaw(y, ms, id, e, Books(plus, minus));
  }
}
