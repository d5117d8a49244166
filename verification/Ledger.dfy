/** What every copy shows of every conversation, in every run: a ledger of the increments that
    a client was not given, and of those it was given twice. */
module Ledger {
  import opened Wire
  import opened GraphModel
  import opened GraphInvariants
  import opened GraphAnchors
  import opened ReplicaModel
  import opened Coupling
  import opened Delivery
  import opened Gaps
  import opened System

  /** How much of a conversation a copy shows too much and too little. */
  datatype Books = Books(over: Counts, short: Counts)

  /** What handing out a tick does to the books of a client. A snapshot starts them anew, with
      what is pending counted twice. A tick that is given though the copy has it already, and
      a tick that is owed but not given, are booked for what they carry; if the tick says
      that the conversation is gone, for what the copy shows of it. */
  function Settle(g: State, p: Peer, t: Tick, e: EdgeKey, b: Books): Books {
    if Given(p) then
      if p.client.resync then Books(Pending(g, e), ZERO)
      else if p.owed then b
      else if e in t.goneEdges then b.(short := b.short.Plus(TotalsOf(Shown(p), e)))
      else b.(over := b.over.Plus(Carried(t.edges, e)))
    else if !p.owed then b
    else if e in t.goneEdges then b.(over := b.over.Plus(TotalsOf(Shown(p), e)))
    else b.(short := b.short.Plus(Carried(t.edges, e)))
  }

  /** The books after one move. A conversation that opens starts with what the copy still
      shows of an earlier one of that name. */
  ghost function Posted(y: Sys, m: Move, id: nat, e: EdgeKey, b: Books): Books
    requires Enabled(y, m) && id in y.peers
  {
    if e !in y.g.edges && e in Do(y, m).g.edges then Books(TotalsOf(Expected(y, y.peers[id]), e), ZERO)
    else if m.TickHanded? then Settle(y.g, y.peers[id], y.inflight.value, e, b)
    else b
  }

  /** The books of a client are right: what its copy will show, what is pending, and what it
      is short of make up the server's counters and what it has too much. */
  predicate Kept(y: Sys, id: nat, e: EdgeKey, b: Books) {
    && id in y.peers
    && (e in y.g.edges ==> OffBy(y.g, Expected(y, y.peers[id]), e, b.over, b.short))
  }

  // ---------- one move ----------

  lemma PlusMoves(a: Counts, x: Counts, p: Counts, s: Counts, c: Counts, o: Counts)
    ensures a.Plus(x).Plus(p).Plus(s) == c.Plus(o) <==> a.Plus(p).Plus(s.Plus(x)) == c.Plus(o)
    ensures a.Plus(p).Plus(s) == c.Plus(o) ==> a.Plus(x).Plus(p).Plus(s) == c.Plus(o.Plus(x))
    ensures a.Plus(p).Plus(s) == c.Plus(o) ==> ZERO.Plus(p).Plus(s.Plus(a)) == c.Plus(o)
    ensures ZERO.Plus(p).Plus(s) == c.Plus(o) ==> a.Plus(p).Plus(s) == c.Plus(o.Plus(a))
  {
  }

  lemma SettleKept(g: State, p: Peer, t: Tick, now: int, snap: Snapshot, e: EdgeKey, b: Books)
    requires e in g.edges && DistinctEdges(t.edges) && IsSnapshot(g, now, snap)
    requires OffBy(g, if p.owed then ApplyTick(Shown(p), t) else Shown(p), e, b.over, b.short)
    ensures var b' := Settle(g, p, t, e, b); OffBy(g, Shown(Handed(p, t, snap, g)), e, b'.over, b'.short)
  {
    HandedShown(p, t, snap, g);
    ShownAfterTick(Shown(p), t, e);
    if Given(p) && p.client.resync {
      SnapshotEdge(g, Shown(p), now, snap, e);
      PlusZero(g.edges[e].counts.Plus(Pending(g, e)));
    } else {
      var a := TotalsOf(Shown(p), e);
      PlusMoves(a, Carried(t.edges, e), Pending(g, e), b.short, g.edges[e].counts, b.over);
    }
  }

  lemma IngestedKept(y: Sys, f: Flow, id: nat, e: EdgeKey, b: Books)
    requires Inv(y) && MayIngest(y, f) && Kept(y, id, e, b)
    ensures Kept(Ingesting(y, f), id, e, Posted(y, Ingested(f), id, e, b))
  {
    var c := Expected(y, y.peers[id]);
    assert Expected(Ingesting(y, f), y.peers[id]) == c;
    IngestAnchoredExactly(y.g, f);
    if e in Ingest(y.g, f).edges {
      if e in y.g.edges {
        IngestKeepsOff(y.g, c, f, e, b.over, b.short);
      } else {
        OpenedOff(y.g, c, f, e);
      }
    }
  }

  lemma LearnedKept(y: Sys, addrs: seq<Address>, id: nat, e: EdgeKey, b: Books)
    requires Inv(y) && MayLearn(addrs) && Kept(y, id, e, b)
    ensures Kept(Learning(y, addrs), id, e, Posted(y, Learned(addrs), id, e, b))
  {
    var c := Expected(y, y.peers[id]);
    assert Expected(Learning(y, addrs), y.peers[id]) == c;
    LearnOpensNone(y.g, addrs);
    if e in LearnAll(y.g, addrs).edges {
      LearnKeepsOff(y.g, c, addrs, e, b.over, b.short);
    }
  }

  lemma StartedExpected(y: Sys, now: int, t: Tick, id: nat)
    requires Inv(y) && MayStart(y, now, t) && id in y.peers
    ensures var y' := Starting(y, now, t);
            && y'.g == AfterTick(y.g, now) && id in y'.peers && y'.peers[id].owed
            && Expected(y', y'.peers[id]) == ApplyTick(Expected(y, y.peers[id]), t)
  {
    var y', p := Starting(y, now, t), y.peers[id];
    assert PeerOk(y, p);
    assert Sent(y'.peers[id]) == Sent(p) && y'.peers[id].before == p.before;
  }

  lemma TickKeptOff(g: State, c: Replica, now: int, t: Tick, e: EdgeKey, b: Books)
    requires WellFormed(g) && Anchored(g) && IsTick(Expire(g, now), now, t)
    requires e in g.edges ==> OffBy(g, c, e, b.over, b.short)
    ensures AfterTick(g, now).edges.Keys <= g.edges.Keys
    ensures e in AfterTick(g, now).edges ==> OffBy(AfterTick(g, now), ApplyTick(c, t), e, b.over, b.short)
  {
    AnchoredGoneIsGone(g);
    TickOpensNone(g, now);
    if e in AfterTick(g, now).edges {
      TickKeepsOff(g, c, now, t, e, b.over, b.short);
    }
  }

  lemma StartedKept(y: Sys, now: int, t: Tick, id: nat, e: EdgeKey, b: Books)
    requires Inv(y) && MayStart(y, now, t) && Kept(y, id, e, b)
    ensures Kept(Starting(y, now, t), id, e, Posted(y, TickStarted(now, t), id, e, b))
  {
    StartedExpected(y, now, t, id);
    TickKeptOff(y.g, Expected(y, y.peers[id]), now, t, e, b);
    assert Posted(y, TickStarted(now, t), id, e, b) == b;
  }

  lemma HandedKept(y: Sys, now: int, snap: Snapshot, id: nat, e: EdgeKey, b: Books)
    requires Inv(y) && MayHand(y, now, snap) && Kept(y, id, e, b)
    ensures Kept(Handing(y, snap), id, e, Posted(y, TickHanded(now, snap), id, e, b))
  {
    var y', p := Handing(y, snap), y.peers[id];
    assert Expected(y', y'.peers[id]) == Shown(Handed(p, y.inflight.value, snap, y.g));
    if e in y.g.edges {
      SettleKept(y.g, p, y.inflight.value, now, snap, e, b);
    }
  }

  lemma QuietKept(y: Sys, y': Sys, id: nat, e: EdgeKey, b: Books)
    requires Kept(y, id, e, b) && id in y'.peers && y'.g == y.g && y'.inflight == y.inflight
    requires Shown(y'.peers[id]) == Shown(y.peers[id]) && y'.peers[id].owed == y.peers[id].owed
    ensures Kept(y', id, e, b)
  {
    assert Expected(y', y'.peers[id]) == Expected(y, y.peers[id]);
  }

  lemma ClientKept(y: Sys, m: Move, id: nat, e: EdgeKey, b: Books)
    requires Enabled(y, m) && Kept(y, id, e, b) && m != Left(id)
    requires m.Joined? || m.Registered? || m.Received? || m.Left?
    ensures Kept(Do(y, m), id, e, Posted(y, m, id, e, b))
  {
    if m.Received? {
      ReadsSame(y.peers[m.id]);
    }
    assert Posted(y, m, id, e, b) == b;
    QuietKept(y, Do(y, m), id, e, b);
  }

  lemma PostedKept(y: Sys, m: Move, id: nat, e: EdgeKey, b: Books)
    requires Inv(y) && Enabled(y, m) && Kept(y, id, e, b) && m != Left(id)
    ensures Kept(Do(y, m), id, e, Posted(y, m, id, e, b))
  {
    match m
    case Ingested(f) => IngestedKept(y, f, id, e, b);
    case Learned(addrs) => LearnedKept(y, addrs, id, e, b);
    case TickStarted(now, t) => StartedKept(y, now, t, id, e, b);
    case TickHanded(now, snap) => HandedKept(y, now, snap, id, e, b);
    case _ => ClientKept(y, m, id, e, b);
  }

  // ---------- whole runs ----------

  /** The books after a run in which the client stays. */
  ghost function Balance(y: Sys, ms: seq<Move>, id: nat, e: EdgeKey, b: Books): Books
    requires Legal(y, ms) && id in y.peers && Left(id) !in ms
    ensures id in Run(y, ms).peers
    decreases ms
  {
    if ms == [] then b
    else Posted(Run(y, ms[..|ms| - 1]), ms[|ms| - 1], id, e, Balance(y, ms[..|ms| - 1], id, e, b))
  }

  /** Whatever the run: right books stay right. */
  lemma {:induction false} LedgerLaw(y: Sys, ms: seq<Move>, id: nat, e: EdgeKey, b: Books)
    requires Inv(y) && Legal(y, ms) && Left(id) !in ms && Kept(y, id, e, b)
    ensures Kept(Run(y, ms), id, e, Balance(y, ms, id, e, b))
    decreases ms
  {
    if ms != [] {
      var init, m := ms[..|ms| - 1], ms[|ms| - 1];
      LedgerLaw(y, init, id, e, b);
      RunInv(y, init);
      assert m in ms;
      PostedKept(Run(y, init), m, id, e, Balance(y, init, id, e, b));
    }
  }

  /** From the moment a client connects, with any copy left over, at any moment and whatever
      happens: flows, addresses and joins between a tick's computing and its handing out,
      full queues, gaps of any length, new snapshots. */
  lemma JoinLedger(y: Sys, id: nat, before: Replica, now: int, snap: Snapshot, e: EdgeKey)
    requires Inv(y) && MayJoin(y, id, now, snap)
    ensures Inv(Joining(y, id, before, snap))
    ensures Kept(Joining(y, id, before, snap), id, e, Books(Pending(y.g, e), ZERO))
  {
    var y' := Joining(y, id, before, snap);
    JoinedInv(y, id, before, now, snap);
    NewPeerShown(before, snap, y.g);
    assert Expected(y', y'.peers[id]) == ApplySnapshot(before, snap);
    if e in y.g.edges {
      SnapshotEdge(y.g, before, now, snap, e);
      PlusZero(y.g.edges[e].counts.Plus(Pending(y.g, e)));
    }
  }

  lemma PlusCancel(a: Counts, b: Counts, x: Counts, z: Counts)
    requires a.Plus(x) == b.Plus(z)
    ensures a == b <==> x == z
  {
  }

  /** Ledger theorem: at every boundary, what a client shows of a conversation and what the
      ledger says it was not given make up the server's counters and what it was given
      twice; so its total is right if and only if the two sides of the ledger agree. */
  lemma LedgerTheorem(y: Sys, ms: seq<Move>, id: nat, e: EdgeKey, b: Books)
    requires Inv(y) && Legal(y, ms) && Left(id) !in ms && Kept(y, id, e, b)
    requires var y' := Run(y, ms); y'.inflight.None? && NothingPending(y'.g) && e in y'.g.edges
    ensures var y', b' := Run(y, ms), Balance(y, ms, id, e, b);
            && id in y'.peers
            && TotalsOf(Shown(y'.peers[id]), e).Plus(b'.short) == y'.g.edges[e].counts.Plus(b'.over)
            && (TotalsOf(Shown(y'.peers[id]), e) == y'.g.edges[e].counts <==> b'.short == b'.over)
  {
    LedgerLaw(y, ms, id, e, b);
    var y', b' := Run(y, ms), Balance(y, ms, id, e, b);
    PlusZero(TotalsOf(Shown(y'.peers[id]), e));
    PlusCancel(TotalsOf(Shown(y'.peers[id]), e), y'.g.edges[e].counts, b'.short, b'.over);
  }
}
