/** The whole pipeline: flows into the graph, ticks and snapshots through bounded queues,
    copies in browsers. Every mutex-protected section is one step; between computing a tick
    and handing it out, flows may come in and clients may join. */
module System {
  import opened Wire
  import opened Endpoints
  import opened GraphModel
  import opened GraphInvariants
  import opened GraphAnchors
  import opened ReplicaModel
  import opened Coupling
  import opened Delivery
  import opened Adjacency
  import opened Gaps
  import B = Backpressure

  datatype Msg = Hello | Snap(snap: Snapshot) | Tock(tick: Tick)

  /** What a copy amounts to once it has applied these messages. */
  function Show(before: Replica, msgs: seq<Msg>): Replica
    decreases msgs
  {
    if msgs == [] then before
    else
      var c, m := Show(before, msgs[..|msgs| - 1]), msgs[|msgs| - 1];
      if m.Snap? then ApplySnapshot(c, m.snap) else if m.Tock? then ApplyTick(c, m.tick) else c
  }

  /** How well a browser is informed: exactly, up to what a snapshot counted twice, or with
      a tick missing or doubled. */
  datatype Sync = Clean | Drifted(drift: Drift) | Lost

  /** `before` is the copy the browser had when it connected, empty or left over from an
      earlier connection; `got` has left the queue; `owed` tells that the tick being handed
      out is news to it. */
  datatype Peer = Peer(before: Replica, client: B.Client<Msg>, got: seq<Msg>,
                       registered: bool, owed: bool, sync: Sync)

  function Sent(p: Peer): seq<Msg> {
    p.got + p.client.queue
  }

  /** What the browser shows once it has read its queue. */
  function Shown(p: Peer): Replica {
    Show(p.before, Sent(p))
  }

  datatype Sys = Sys(g: State, inflight: Option<Tick>, peers: map<nat, Peer>)

  datatype Move = Ingested(f: Flow) | Learned(addrs: seq<Address>)
                | TickStarted(now: int, t: Tick) | TickHanded(now: int, snap: Snapshot)
                | Joined(id: nat, before: Replica, now: int, snap: Snapshot) | Registered(id: nat)
                | Received(id: nat) | Left(id: nat)

  function Start(retention: int): Sys {
    Sys(GraphModel.New(retention), None, map[])
  }

  /** A snapshot taken now is exact if nothing is pending. */
  function FreshSync(g: State): Sync {
    if NothingPending(g) then Clean else Drifted(g.dirty)
  }

  function Owing(p: Peer, es: set<EdgeKey>): Peer {
    p.(owed := true, sync := if p.sync.Drifted? then Drifted(Restrict(p.sync.drift, es)) else p.sync)
  }

  /** One client's share of a tick. It stays informed if it is given the tick exactly when
      the tick is news to it; a snapshot makes up for everything. */
  function Handed(p: Peer, t: Tick, snap: Snapshot, g: State): Peer {
    if !p.registered then p.(owed := false, sync := if p.owed then Lost else p.sync)
    else
      var p' := p.(client := B.FanOut(p.client, Tock(t), Snap(snap)), owed := false);
      var room := B.HasRoom(p.client);
      if p.client.resync then p'.(sync := if room then FreshSync(g) else Lost)
      else p'.(sync := if room == p.owed then p.sync else Lost)
  }

  function AllOwing(peers: map<nat, Peer>, es: set<EdgeKey>): map<nat, Peer> {
    map id | id in peers :: Owing(peers[id], es)
  }

  function AllHanded(peers: map<nat, Peer>, t: Tick, snap: Snapshot, g: State): map<nat, Peer> {
    map id | id in peers :: Handed(peers[id], t, snap, g)
  }

  function NewPeer(before: Replica, snap: Snapshot, g: State): Peer {
    Peer(before, B.Joined(Hello, Snap(snap)), [], false, false, FreshSync(g))
  }

  function Reads(p: Peer): Peer
    requires p.client.queue != []
  {
    p.(client := B.Take(p.client), got := p.got + [p.client.queue[0]])
  }

  // ---------- the moves, one by one ----------

  predicate MayIngest(y: Sys, f: Flow) {
    PlausibleFlow(f) && !Collides(y.g, f)
  }

  function Ingesting(y: Sys, f: Flow): Sys {
    y.(g := Ingest(y.g, f))
  }

  predicate MayLearn(addrs: seq<Address>) {
    forall i :: 0 <= i < |addrs| ==> addrs[i].ip != REMOTE_NODE
  }

  function Learning(y: Sys, addrs: seq<Address>): Sys {
    y.(g := LearnAll(y.g, addrs))
  }

  predicate MayStart(y: Sys, now: int, t: Tick) {
    y.inflight.None? && IsTick(Expire(y.g, now), now, t)
  }

  function Starting(y: Sys, now: int, t: Tick): Sys {
    Sys(AfterTick(y.g, now), Some(t), AllOwing(y.peers, Expire(y.g, now).edges.Keys))
  }

  ghost predicate MayHand(y: Sys, now: int, snap: Snapshot) {
    y.inflight.Some? && IsSnapshot(y.g, now, snap)
  }

  function Handing(y: Sys, snap: Snapshot): Sys
    requires y.inflight.Some?
  {
    Sys(y.g, None, AllHanded(y.peers, y.inflight.value, snap, y.g))
  }

  ghost predicate MayJoin(y: Sys, id: nat, now: int, snap: Snapshot) {
    id !in y.peers && IsSnapshot(y.g, now, snap)
  }

  function Joining(y: Sys, id: nat, before: Replica, snap: Snapshot): Sys {
    y.(peers := y.peers[id := NewPeer(before, snap, y.g)])
  }

  predicate MayRegister(y: Sys, id: nat) {
    id in y.peers && !y.peers[id].registered
  }

  function Registering(y: Sys, id: nat): Sys
    requires id in y.peers
  {
    y.(peers := y.peers[id := y.peers[id].(registered := true)])
  }

  predicate MayReceive(y: Sys, id: nat) {
    id in y.peers && y.peers[id].registered && y.peers[id].client.queue != []
  }

  function Receiving(y: Sys, id: nat): Sys
    requires id in y.peers && y.peers[id].client.queue != []
  {
    y.(peers := y.peers[id := Reads(y.peers[id])])
  }

  function Leaving(y: Sys, id: nat): Sys {
    y.(peers := y.peers - {id})
  }

  ghost predicate Enabled(y: Sys, m: Move) {
    if m.Ingested? then MayIngest(y, m.f)
    else if m.Learned? then MayLearn(m.addrs)
    else if m.TickStarted? then MayStart(y, m.now, m.t)
    else if m.TickHanded? then MayHand(y, m.now, m.snap)
    else if m.Joined? then MayJoin(y, m.id, m.now, m.snap)
    else if m.Registered? then MayRegister(y, m.id)
    else if m.Received? then MayReceive(y, m.id)
    else m.id in y.peers
  }

  ghost function Do(y: Sys, m: Move): Sys
    requires Enabled(y, m)
  {
    if m.Ingested? then Ingesting(y, m.f)
    else if m.Learned? then Learning(y, m.addrs)
    else if m.TickStarted? then Starting(y, m.now, m.t)
    else if m.TickHanded? then Handing(y, m.snap)
    else if m.Joined? then Joining(y, m.id, m.before, m.snap)
    else if m.Registered? then Registering(y, m.id)
    else if m.Received? then Receiving(y, m.id)
    else Leaving(y, m.id)
  }

  ghost predicate Legal(y: Sys, ms: seq<Move>)
    decreases ms, 0
  {
    ms == [] || (Legal(y, ms[..|ms| - 1]) && Enabled(Run(y, ms[..|ms| - 1]), ms[|ms| - 1]))
  }

  ghost function Run(y: Sys, ms: seq<Move>): Sys
    requires Legal(y, ms)
    decreases ms, 1
  {
    if ms == [] then y else Do(Run(y, ms[..|ms| - 1]), ms[|ms| - 1])
  }

  // ---------- the invariant ----------

  /** The copy the graph is compared with: what is queued and the tick on its way. */
  function Expected(y: Sys, p: Peer): Replica {
    if p.owed && y.inflight.Some? then ApplyTick(Shown(p), y.inflight.value) else Shown(p)
  }

  predicate Informed(g: State, c: Replica, sync: Sync) {
    && (sync.Clean? ==> Synced(g, c) && Linked(c))
    && (sync.Drifted? ==> Coupled(g, c, sync.drift) && Linked(c))
  }

  predicate PeerOk(y: Sys, p: Peer) {
    && B.ClientOk(p.client)
    && (p.owed ==> y.inflight.Some?)
    && Informed(y.g, Expected(y, p), p.sync)
  }

  predicate Inv(y: Sys) {
    && WellFormed(y.g) && Anchored(y.g)
    && (y.inflight.Some? ==> DistinctEdges(y.inflight.value.edges))
    && forall id :: id in y.peers ==> PeerOk(y, y.peers[id])
  }

  lemma StartInv(retention: int)
    ensures Inv(Start(retention))
  {
    NewWellFormed(retention);
    NewAnchored(retention);
  }

  // ---------- flows and addresses ----------

  lemma InformedIngest(g: State, c: Replica, sync: Sync, f: Flow)
    requires WellFormed(g) && Anchored(Ingest(g, f)) && Informed(g, c, sync)
    ensures Informed(Ingest(g, f), c, sync)
  {
    IngestKeepsNodes(g, c, f);
    if sync.Clean? {
      IngestKeepsEdges(g, c, map[], f);
    } else if sync.Drifted? {
      IngestKeepsEdges(g, c, sync.drift, f);
    }
  }

  lemma InformedLearn(g: State, c: Replica, sync: Sync, addrs: seq<Address>)
    requires WellFormed(g) && Informed(g, c, sync)
    ensures Informed(LearnAll(g, addrs), c, sync)
  {
    if sync.Clean? {
      LearnAllKeepsEdges(g, c, map[], addrs);
    } else if sync.Drifted? {
      LearnAllKeepsEdges(g, c, sync.drift, addrs);
    }
  }

  lemma IngestInv(y: Sys, f: Flow)
    requires Inv(y) && MayIngest(y, f)
    ensures Inv(Ingesting(y, f))
  {
    var y' := Ingesting(y, f);
    IngestWellFormed(y.g, f);
    IngestAnchoredExactly(y.g, f);
    forall id | id in y'.peers ensures PeerOk(y', y'.peers[id]) {
      var p := y.peers[id];
      assert PeerOk(y, p);
      InformedIngest(y.g, Expected(y, p), p.sync, f);
      assert Expected(y', p) == Expected(y, p);
    }
  }

  lemma LearnInv(y: Sys, addrs: seq<Address>)
    requires Inv(y) && MayLearn(addrs)
    ensures Inv(Learning(y, addrs))
  {
    var y' := Learning(y, addrs);
    LearnAllWellFormed(y.g, addrs);
    LearnAllAnchored(y.g, addrs);
    forall id | id in y'.peers ensures PeerOk(y', y'.peers[id]) {
      var p := y.peers[id];
      assert PeerOk(y, p);
      InformedLearn(y.g, Expected(y, p), p.sync, addrs);
      assert Expected(y', p) == Expected(y, p);
    }
  }

  // ---------- ticks ----------

  lemma TickLinks(g: State, c: Replica, drift: Drift, now: int, t: Tick)
    requires WellFormed(g) && Anchored(g) && IsTick(Expire(g, now), now, t) && Coupled(g, c, drift) && Linked(c)
    ensures Linked(ApplyTick(c, t))
  {
    AnchoredGoneIsGone(g);
    ExpireKeeps(g, c, drift, now);
    ExpireWellFormed(g, now);
    ExpiredGoneIsGone(g, now);
    TickLinked(Expire(g, now), c, now, t);
  }

  lemma InformedTick(g: State, c: Replica, sync: Sync, now: int, t: Tick, sync': Sync)
    requires WellFormed(g) && Anchored(g) && IsTick(Expire(g, now), now, t) && Informed(g, c, sync)
    requires sync' == if sync.Drifted? then Drifted(Restrict(sync.drift, Expire(g, now).edges.Keys)) else sync
    ensures Informed(AfterTick(g, now), ApplyTick(c, t), sync')
  {
    AnchoredGoneIsGone(g);
    if sync.Clean? {
      SyncedIsCoupled(g, c);
      TickLinks(g, c, map[], now, t);
      TickKeepsSynced(g, c, now, t);
    } else if sync.Drifted? {
      TickLinks(g, c, sync.drift, now, t);
      TickKeepsCoupled(g, c, sync.drift, now, t);
    }
  }

  lemma TickStartedOk(y: Sys, y': Sys, p: Peer, now: int, t: Tick)
    requires WellFormed(y.g) && Anchored(y.g) && PeerOk(y, p) && y.inflight.None? && IsTick(Expire(y.g, now), now, t)
    requires y' == y.(g := AfterTick(y.g, now), inflight := Some(t), peers := y'.peers)
    ensures PeerOk(y', Owing(p, Expire(y.g, now).edges.Keys))
  {
    var p' := Owing(p, Expire(y.g, now).edges.Keys);
    assert Shown(p') == Shown(p);
    assert Expected(y', p') == ApplyTick(Expected(y, p), t);
    InformedTick(y.g, Expected(y, p), p.sync, now, t, p'.sync);
  }

  lemma TickStartedInv(y: Sys, now: int, t: Tick)
    requires Inv(y) && MayStart(y, now, t)
    ensures Inv(Starting(y, now, t))
  {
    var y' := Starting(y, now, t);
    AfterTickWellFormed(y.g, now);
    AfterTickAnchored(y.g, now);
    forall id | id in y'.peers ensures PeerOk(y', y'.peers[id]) {
      TickStartedOk(y, y', y.peers[id], now, t);
    }
  }

  // ---------- handing out ----------

  lemma ShowSnoc(before: Replica, msgs: seq<Msg>, m: Msg)
    ensures Show(before, msgs + [m]) ==
            if m.Snap? then ApplySnapshot(Show(before, msgs), m.snap)
            else if m.Tock? then ApplyTick(Show(before, msgs), m.tick) else Show(before, msgs)
  {
    assert (msgs + [m])[..|msgs|] == msgs;
  }

  lemma FreshInformed(g: State, c: Replica, now: int, snap: Snapshot)
    requires WellFormed(g) && IsSnapshot(g, now, snap)
    ensures Informed(g, ApplySnapshot(c, snap), FreshSync(g))
  {
    SnapshotLinked(g, c, now, snap);
    SnapshotCouples(g, c, now, snap);
    if NothingPending(g) {
      CleanSnapshotSyncs(g, c, now, snap);
    }
  }

  /** What joins the queue of a registered client. */
  function Queued(p: Peer, t: Tick, snap: Snapshot): seq<Msg> {
    if !p.registered || !B.HasRoom(p.client) then []
    else if p.client.resync then [Snap(snap)] else [Tock(t)]
  }

  lemma HandedSent(p: Peer, t: Tick, snap: Snapshot, g: State)
    ensures Sent(Handed(p, t, snap, g)) == Sent(p) + Queued(p, t, snap)
    ensures Handed(p, t, snap, g).before == p.before
  {
    assert p.got + (p.client.queue + Queued(p, t, snap)) == p.got + p.client.queue + Queued(p, t, snap);
  }

  /** The tick, or the snapshot in its place, reaches the client. */
  predicate Given(p: Peer) {
    p.registered && B.HasRoom(p.client)
  }

  lemma HandedShown(p: Peer, t: Tick, snap: Snapshot, g: State)
    ensures Shown(Handed(p, t, snap, g)) ==
            if !Given(p) then Shown(p)
            else if p.client.resync then ApplySnapshot(Shown(p), snap) else ApplyTick(Shown(p), t)
  {
    HandedSent(p, t, snap, g);
    if Given(p) {
      ShowSnoc(p.before, Sent(p), Queued(p, t, snap)[0]);
      assert Queued(p, t, snap) == [Queued(p, t, snap)[0]];
    } else {
      assert Sent(p) + [] == Sent(p);
    }
  }

  lemma HandedOk(y: Sys, y': Sys, p: Peer, now: int, snap: Snapshot)
    requires WellFormed(y.g) && PeerOk(y, p) && y.inflight.Some? && IsSnapshot(y.g, now, snap)
    requires y' == y.(inflight := None, peers := y'.peers)
    ensures PeerOk(y', Handed(p, y.inflight.value, snap, y.g))
  {
    var t := y.inflight.value;
    var p' := Handed(p, t, snap, y.g);
    B.FanOutOk(p.client, Tock(t), Snap(snap));
    HandedShown(p, t, snap, y.g);
    assert Expected(y', p') == Shown(p');
    if Given(p) && p.client.resync {
      FreshInformed(y.g, Shown(p), now, snap);
    }
  }

  lemma TickHandedInv(y: Sys, now: int, snap: Snapshot)
    requires Inv(y) && MayHand(y, now, snap)
    ensures Inv(Handing(y, snap))
  {
    var y' := Handing(y, snap);
    forall id | id in y'.peers ensures PeerOk(y', y'.peers[id]) {
      assert PeerOk(y, y.peers[id]);
      HandedOk(y, y', y.peers[id], now, snap);
    }
  }

  // ---------- joining, reading, leaving ----------

  lemma NewPeerShown(before: Replica, snap: Snapshot, g: State)
    ensures Shown(NewPeer(before, snap, g)) == ApplySnapshot(before, snap)
  {
    assert Sent(NewPeer(before, snap, g)) == [Hello] + [Snap(snap)];
    assert [] + [Hello] == [Hello];
    ShowSnoc(before, [], Hello);
    ShowSnoc(before, [Hello], Snap(snap));
  }

  lemma NewPeerOk(y: Sys, before: Replica, now: int, snap: Snapshot)
    requires WellFormed(y.g) && IsSnapshot(y.g, now, snap)
    ensures PeerOk(y, NewPeer(before, snap, y.g))
  {
    NewPeerShown(before, snap, y.g);
    FreshInformed(y.g, before, now, snap);
  }

  lemma JoinedInv(y: Sys, id: nat, before: Replica, now: int, snap: Snapshot)
    requires Inv(y) && MayJoin(y, id, now, snap)
    ensures Inv(Joining(y, id, before, snap))
  {
    var y' := Joining(y, id, before, snap);
    NewPeerOk(y, before, now, snap);
    forall x | x in y'.peers ensures PeerOk(y', y'.peers[x]) {
      if x == id {
        SameInformed(y, y', y'.peers[x], y'.peers[x]);
      } else {
        assert PeerOk(y, y.peers[x]);
        SameInformed(y, y', y.peers[x], y'.peers[x]);
      }
    }
  }

  /** A peer of which the same is expected is as informed as before. */
  lemma SameInformed(y: Sys, y': Sys, p: Peer, p': Peer)
    requires PeerOk(y, p) && y'.g == y.g && y'.inflight == y.inflight
    requires p'.before == p.before && Sent(p') == Sent(p) && p'.owed == p.owed && p'.sync == p.sync
    requires B.ClientOk(p'.client)
    ensures PeerOk(y', p')
  {
    assert Expected(y', p') == Expected(y, p);
  }

  lemma RegisteredInv(y: Sys, id: nat)
    requires Inv(y) && MayRegister(y, id)
    ensures Inv(Registering(y, id))
  {
    var y' := Registering(y, id);
    forall x | x in y'.peers ensures PeerOk(y', y'.peers[x]) {
      assert PeerOk(y, y.peers[x]);
      SameInformed(y, y', y.peers[x], y'.peers[x]);
    }
  }

  lemma ReadsSame(p: Peer)
    requires p.client.queue != []
    ensures Sent(Reads(p)) == Sent(p)
  {
    assert [p.client.queue[0]] + p.client.queue[1..] == p.client.queue;
  }

  lemma ReceivedInv(y: Sys, id: nat)
    requires Inv(y) && MayReceive(y, id)
    ensures Inv(Receiving(y, id))
  {
    var y' := Receiving(y, id);
    ReadsSame(y.peers[id]);
    forall x | x in y'.peers ensures PeerOk(y', y'.peers[x]) {
      assert PeerOk(y, y.peers[x]);
      SameInformed(y, y', y.peers[x], y'.peers[x]);
    }
  }

  lemma LeftInv(y: Sys, id: nat)
    requires Inv(y)
    ensures Inv(Leaving(y, id))
  {
    var y' := Leaving(y, id);
    forall x | x in y'.peers ensures PeerOk(y', y'.peers[x]) {
      assert PeerOk(y, y.peers[x]);
      SameInformed(y, y', y.peers[x], y'.peers[x]);
    }
  }

  lemma DoInv(y: Sys, m: Move)
    requires Inv(y) && Enabled(y, m)
    ensures Inv(Do(y, m))
  {
    match m
    case Ingested(f) => IngestInv(y, f);
    case Learned(addrs) => LearnInv(y, addrs);
    case TickStarted(now, t) => TickStartedInv(y, now, t);
    case TickHanded(now, snap) => TickHandedInv(y, now, snap);
    case Joined(id, before, now, snap) => JoinedInv(y, id, before, now, snap);
    case Registered(id) => RegisteredInv(y, id);
    case Received(id) => ReceivedInv(y, id);
    case Left(id) => LeftInv(y, id);
  }

  lemma {:induction false} RunInv(y: Sys, ms: seq<Move>)
    requires Legal(y, ms) && Inv(y)
    ensures Inv(Run(y, ms))
    decreases ms
  {
    if ms != [] {
      RunInv(y, ms[..|ms| - 1]);
      DoInv(Run(y, ms[..|ms| - 1]), ms[|ms| - 1]);
    }
  }

  // ---------- what a browser shows ----------

  /** Replica theorem, for every run of the whole system: whenever nothing is pending and no
      tick is on its way, a client that was given every tick since an exact snapshot will
      show exactly the server's graph once it has read its queue. */
  lemma ReplicaTheorem(retention: int, ms: seq<Move>, id: nat)
    requires Legal(Start(retention), ms)
    requires var y := Run(Start(retention), ms);
             id in y.peers && y.inflight.None? && NothingPending(y.g) && y.peers[id].sync.Clean?
    ensures var y := Run(Start(retention), ms);
            var c := Shown(y.peers[id]);
            SameGraph(y.g, c) && Linked(c)
  {
    StartInv(retention);
    RunInv(Start(retention), ms);
    var y := Run(Start(retention), ms);
    assert PeerOk(y, y.peers[id]);
    SyncedIsSame(y.g, Expected(y, y.peers[id]));
  }

  function DriftIn(sync: Sync): Drift {
    if sync.Drifted? then sync.drift else map[]
  }

  /** Accounting law, for every run and at any moment: for a client that is not lost, what its
      copy will show and what is pending make up the server's counters, but for what its
      snapshot counted twice; it has every conversation that is not pending, every node that
      is not yet announced, and its adjacency is exact. */
  lemma AccountingLaw(retention: int, ms: seq<Move>, id: nat)
    requires Legal(Start(retention), ms)
    requires var y := Run(Start(retention), ms); id in y.peers && !y.peers[id].sync.Lost?
    ensures var y := Run(Start(retention), ms);
            var c, drift := Expected(y, y.peers[id]), DriftIn(y.peers[id].sync);
            && (forall e :: e in y.g.edges ==>
                  TotalsOf(c, e).Plus(Pending(y.g, e)) == y.g.edges[e].counts.Plus(DriftOf(drift, e)))
            && EdgesKnown(y.g, c) && NodesCovered(y.g, c) && Linked(c)
  {
    StartInv(retention);
    RunInv(Start(retention), ms);
    var y := Run(Start(retention), ms);
    var p := y.peers[id];
    assert PeerOk(y, p);
    if p.sync.Clean? {
      SyncedIsCoupled(y.g, Expected(y, p));
    }
  }

  /** So at every boundary a client whose snapshot was taken at any moment counts each
      surviving conversation too high by exactly its drift, shows the same conversations,
      and misses no node. */
  lemma DriftLaw(retention: int, ms: seq<Move>, id: nat)
    requires Legal(Start(retention), ms)
    requires var y := Run(Start(retention), ms);
             id in y.peers && y.inflight.None? && NothingPending(y.g) && !y.peers[id].sync.Lost?
    ensures var y := Run(Start(retention), ms);
            var c, drift := Shown(y.peers[id]), DriftIn(y.peers[id].sync);
            && c.edges.Keys == y.g.edges.Keys && y.g.nodes.Keys <= c.nodes.Keys && Linked(c)
            && (forall e :: e in y.g.edges && e in c.edges ==>
                  c.edges[e].totals == y.g.edges[e].counts.Plus(DriftOf(drift, e)))
  {
    AccountingLaw(retention, ms, id);
    var y := Run(Start(retention), ms);
    QuietAccounts(y.g, Shown(y.peers[id]), DriftIn(y.peers[id].sync));
  }

  lemma QuietAccounts(g: State, c: Replica, drift: Drift)
    requires NothingPending(g) && EdgesKnown(g, c) && NodesCovered(g, c)
    requires forall e :: e in g.edges ==>
               TotalsOf(c, e).Plus(Pending(g, e)) == g.edges[e].counts.Plus(DriftOf(drift, e))
    ensures c.edges.Keys == g.edges.Keys && g.nodes.Keys <= c.nodes.Keys
    ensures forall e :: e in g.edges && e in c.edges ==>
              c.edges[e].totals == g.edges[e].counts.Plus(DriftOf(drift, e))
  {
    assert g.dirty == map[] && g.goneEdges == {} && g.newNodes == {};
    forall e | e in g.edges && e in c.edges
      ensures c.edges[e].totals == g.edges[e].counts.Plus(DriftOf(drift, e))
    {
      PlusZero(TotalsOf(c, e));
    }
  }
}
