/** A client that joins a running system: its rates are the flows of the run (internal/hub/hub.go,
    web/src/main.ts). */
module JoinedWindows {
  import opened Wire
  import opened Rings
  import opened GraphModel
  import H = GraphHistory
  import opened ReplicaModel
  import opened System
  import opened Windows
  import opened Rates

  /** What the moves of a run do to the graph. */
  function OpsOf(ms: seq<Move>): seq<H.Op>
    decreases ms
  {
    if ms == [] then []
    else
      var m := ms[|ms| - 1];
      OpsOf(ms[..|ms| - 1]) +
      if m.Ingested? then [H.FlowOp(m.f)]
      else if m.Learned? then [H.LearnOp(m.addrs)]
      else if m.TickStarted? then [H.TickOp(m.now)]
      else []
  }

  /** The graph of a run is the graph of that history. */
  lemma {:induction false} GraphOfRun(retention: int, ms: seq<Move>)
    requires Legal(Start(retention), ms)
    ensures Run(Start(retention), ms).g == H.After(retention, OpsOf(ms))
    decreases ms
  {
    if ms != [] {
      var init, m := ms[..|ms| - 1], ms[|ms| - 1];
      GraphOfRun(retention, init);
      MoveIsOps(retention, OpsOf(init), Run(Start(retention), init), m);
    }
  }

  lemma MoveIsOps(retention: int, ops: seq<H.Op>, y: Sys, m: Move)
    requires y.g == H.After(retention, ops) && Enabled(y, m)
    ensures m.Ingested? ==> Do(y, m).g == H.After(retention, ops + [H.FlowOp(m.f)])
    ensures m.Learned? ==> Do(y, m).g == H.After(retention, ops + [H.LearnOp(m.addrs)])
    ensures m.TickStarted? ==> Do(y, m).g == H.After(retention, ops + [H.TickOp(m.now)])
    ensures !m.Ingested? && !m.Learned? && !m.TickStarted? ==> Do(y, m).g == H.After(retention, ops + [])
  {
    assert ops + [] == ops;
    forall op: H.Op ensures (ops + [op])[..|ops|] == ops {
    }
  }

  /** The flows of the run that a conversation stands for. */
  function RunFlows(retention: int, ms: seq<Move>, e: EdgeKey): seq<Flow> {
    H.FlowsOf(retention, OpsOf(ms), e)
  }

  lemma JoinedShows(retention: int, ms: seq<Move>, id: nat, before: Replica, now: int, snap: Snapshot)
    requires Legal(Start(retention), ms) && MayJoin(Run(Start(retention), ms), id, now, snap)
    ensures var y := Joining(Run(Start(retention), ms), id, before, snap);
            && id in y.peers && Shown(y.peers[id]) == ApplySnapshot(before, snap)
            && y.g == H.After(retention, OpsOf(ms)) && IsSnapshot(H.After(retention, OpsOf(ms)), now, snap)
  {
    GraphOfRun(retention, ms);
    NewPeerShown(before, snap, Run(Start(retention), ms).g);
  }

  /** After any run, whatever copy the browser had left: over any window up to the length of
      the ring that ends with the second of the join, the joined client's sums are the
      numbers of flows, and so are its rates. */
  lemma JoinedWindow(retention: int, ms: seq<Move>, id: nat, before: Replica, now: int, snap: Snapshot,
                     e: EdgeKey, w: nat)
    requires Legal(Start(retention), ms) && MayJoin(Run(Start(retention), ms), id, now, snap)
    requires before.retention == Slots(retention) && w <= Slots(retention) && w <= SecondOf(now) + 1
    requires e in Run(Start(retention), ms).g.edges
    requires var fs := RunFlows(retention, ms, e);
             Punctual(fs, Slots(retention)) && forall i :: 0 <= i < |fs| ==> fs[i].time <= now
    ensures var y := Joining(Run(Start(retention), ms), id, before, snap);
            && id in y.peers && e in Shown(y.peers[id]).edges
            && TellsWindow(Shown(y.peers[id]).edges[e].ring, RunFlows(retention, ms, e), SecondOf(now) - w + 1, w)
  {
    var from := SecondOf(now) - w + 1;
    JoinedShows(retention, ms, id, before, now, snap);
    SnapshotSeconds(retention, OpsOf(ms), before, now, snap, e, from, from + w);
    WindowOf(ApplySnapshot(before, snap).edges[e].ring, RunFlows(retention, ms, e), from, w);
  }

  lemma SnapshotSeconds(retention: int, ops: seq<H.Op>, before: Replica, now: int, snap: Snapshot, e: EdgeKey,
                        from: int, to: int)
    requires IsSnapshot(H.After(retention, ops), now, snap) && before.retention == Slots(retention)
    requires e in H.After(retention, ops).edges
    requires 0 <= from && SecondOf(now) - Slots(retention) < from
    requires var fs := H.FlowsOf(retention, ops, e);
             Punctual(fs, Slots(retention)) && forall i :: 0 <= i < |fs| ==> fs[i].time <= now
    ensures e in ApplySnapshot(before, snap).edges
    ensures forall sec :: from <= sec < to ==>
              TellsSecond(ApplySnapshot(before, snap).edges[e].ring.At(sec), H.FlowsOf(retention, ops, e), sec)
  {
    var fs := H.FlowsOf(retention, ops, e);
    SnapshotTells(retention, ops, before, now, snap, e, from);
    forall sec | from <= sec < to
      ensures TellsSecond(ApplySnapshot(before, snap).edges[e].ring.At(sec), fs, sec)
    {
      SnapshotTells(retention, ops, before, now, snap, e, sec);
    }
  }

  lemma WindowOf(r: LiveRing, fs: seq<Flow>, from: int, w: nat)
    requires forall sec :: from <= sec < from + w ==> TellsSecond(r.At(sec), fs, sec)
    ensures TellsWindow(r, fs, from, w)
  {
    EachSecond(r, fs, from, w);
  }
}
