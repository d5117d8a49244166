/** Machines first seen by address (internal/graph/graph.go, retireAddress): once an address
    is named its anchor leaves the graph, and nothing that left comes back before the
    clients have been told. */
module GraphAnchors {
  import opened Wire
  import opened Endpoints
  import opened GraphModel
  import opened GraphSteps
  import opened GraphInvariants

  predicate IsNamedAnchor(ips: map<string, string>, n: NodeKey) {
    n.name in ips && n == Anchor(n.name)
  }

  /** Addresses are addresses: "remote-node" is the name of the anchor without one. */
  predicate PlainAddresses(ips: map<string, string>) {
    REMOTE_NODE !in ips && "" !in ips
  }

  /** No anchor stands for an address whose machine is named, and whatever waits to be
      reported as gone was such an anchor or hung on one. */
  predicate Anchored(s: State) {
    && PlainAddresses(s.nodeIPs)
    && (forall n :: n in s.nodes ==> !IsNamedAnchor(s.nodeIPs, n))
    && (forall n :: n in s.goneNodes ==> IsNamedAnchor(s.nodeIPs, n))
    && (forall e :: e in s.goneEdges ==> IsNamedAnchor(s.nodeIPs, e.src) || IsNamedAnchor(s.nodeIPs, e.dst))
  }

  /** What leaves with the next tick is not in the graph. */
  predicate GoneIsGone(s: State) {
    s.goneNodes !! s.nodes.Keys && s.goneEdges !! s.edges.Keys
  }

  lemma AnchoredGoneIsGone(s: State)
    requires EndpointsExist(s) && Anchored(s)
    ensures GoneIsGone(s)
  {
  }

  lemma NewAnchored(retention: int)
    ensures Anchored(New(retention))
  {
  }

  lemma NamedAnchorGrows(ips: map<string, string>, ip: string, machine: string, n: NodeKey)
    ensures IsNamedAnchor(ips[ip := machine], n) <==> IsNamedAnchor(ips, n) || n == Anchor(ip)
  {
  }

  lemma RetireRemoves(s: State, ip: string)
    ensures Retire(s, ip).nodes.Keys == s.nodes.Keys - {Anchor(ip)}
    ensures Retire(s, ip).nodeIPs == s.nodeIPs
    ensures Retire(s, ip).goneNodes <= s.goneNodes + {Anchor(ip)}
    ensures Retire(s, ip).goneEdges <= s.goneEdges + Incident(s.edges.Keys, Anchor(ip))
  {
  }

  lemma LearnAnchored(s: State, ip: string, machine: string)
    requires Anchored(s) && ip != REMOTE_NODE
    ensures Anchored(Learn(s, ip, machine))
  {
    if !(ip == "" || machine == "" || (ip in s.nodeIPs && s.nodeIPs[ip] == machine)) {
      var s0 := Name(s, ip, machine);
      var s' := Retire(s0, ip);
      assert Learn(s, ip, machine) == s';
      RetireRemoves(s0, ip);
      forall n ensures IsNamedAnchor(s'.nodeIPs, n) <==> IsNamedAnchor(s.nodeIPs, n) || n == Anchor(ip) {
        NamedAnchorGrows(s.nodeIPs, ip, machine, n);
      }
    }
  }

  lemma {:induction false} LearnAllAnchored(s: State, addrs: seq<Address>)
    requires Anchored(s)
    requires forall i :: 0 <= i < |addrs| ==> addrs[i].ip != REMOTE_NODE
    ensures Anchored(LearnAll(s, addrs))
    decreases addrs
  {
    if addrs != [] {
      var a := addrs[|addrs| - 1];
      LearnAllAnchored(s, addrs[..|addrs| - 1]);
      LearnAnchored(LearnAll(s, addrs[..|addrs| - 1]), a.ip, a.machine);
    }
  }

  lemma LearnNames(s: State, ip: string, machine: string)
    requires ip != "" && machine != ""
    ensures Learn(s, ip, machine).nodeIPs.Keys == s.nodeIPs.Keys + {ip}
  {
  }

  /** The addresses one side adds to those known. */
  function Taught(side: Side, observer: string): set<string> {
    if Teaches(side, observer).Some? then {side.ip} else {}
  }

  lemma AfterSideAnchored(s: State, side: Side, observer: string)
    requires Anchored(s) && Plausible(side)
    ensures Anchored(AfterSide(s, side, observer))
    ensures AfterSide(s, side, observer).nodeIPs.Keys == s.nodeIPs.Keys + Taught(side, observer)
  {
    if Teaches(side, observer).Some? {
      LearnAnchored(s, side.ip, observer);
      LearnNames(s, side.ip, observer);
    }
  }

  predicate PlausibleFlow(f: Flow) {
    Plausible(f.src) && Plausible(f.dst)
  }

  lemma ResolvedAnchored(s: State, f: Flow)
    requires Anchored(s) && PlausibleFlow(f)
    ensures Anchored(Resolved(s, f))
    ensures Resolved(s, f).nodeIPs.Keys == s.nodeIPs.Keys + Taught(f.src, f.observer) + Taught(f.dst, f.observer)
  {
    AfterSideAnchored(s, f.src, f.observer);
    AfterSideAnchored(AfterSide(s, f.src, f.observer), f.dst, f.observer);
  }

  /** One flow that shows a nameless remote node as its source and names that very address
      as its destination: the source was looked up before the destination was learned. */
  predicate Collides(s: State, f: Flow) {
    && Accepted(f)
    && IsRemote(f.src) && f.src.ip != "" && f.src.ip !in s.nodeIPs
    && Teaches(f.dst, f.observer) == Some(f.src.ip)
  }

  /** Distinct addresses are enough to rule that out. */
  lemma DistinctAddressesNeverCollide(s: State, f: Flow)
    requires f.src.ip != f.dst.ip
    ensures !Collides(s, f)
  {
  }

  lemma SourceKeyNamed(s: State, f: Flow)
    requires Anchored(s) && PlausibleFlow(f) && Accepted(f)
    ensures IsNamedAnchor(Resolved(s, f).nodeIPs, SrcKey(s, f)) <==> Collides(s, f)
  {
  }

  lemma DestinationKeyUnnamed(s: State, f: Flow)
    requires Anchored(s) && PlausibleFlow(f)
    ensures !IsNamedAnchor(Resolved(s, f).nodeIPs, DstKey(s, f))
  {
  }

  /** `s'` differs from `s` in what matters here by two more nodes. */
  predicate AddsNodes(s: State, s': State, a: NodeKey, b: NodeKey) {
    && s'.nodes.Keys == s.nodes.Keys + {a, b}
    && s'.nodeIPs == s.nodeIPs && s'.goneNodes == s.goneNodes && s'.goneEdges == s.goneEdges
  }

  lemma AddsNodesAnchored(s: State, s': State, a: NodeKey, b: NodeKey)
    requires Anchored(s) && AddsNodes(s, s', a, b)
    ensures Anchored(s') <==> !IsNamedAnchor(s.nodeIPs, a) && !IsNamedAnchor(s.nodeIPs, b)
  {
  }

  lemma PreparedAdds(s: State, src: NodeKey, dst: NodeKey, f: Flow)
    ensures AddsNodes(s, Prepared(s, src, dst, f), src, dst)
  {
    var s1 := Touched(s, src, dst, f);
    assert AddsNodes(s, s1, src, dst);
    PlaceAdds(s1, src, f.observer, s, src, dst);
    PlaceAdds(s1, dst, f.observer, s, src, dst);
  }

  lemma PlaceAdds(s: State, k: NodeKey, machine: string, s0: State, a: NodeKey, b: NodeKey)
    requires k in s.nodes && AddsNodes(s0, s, a, b)
    ensures AddsNodes(s0, PlaceOn(s, k, machine), a, b)
  {
  }

  lemma RecordAdds(s: State, ek: EdgeKey, f: Flow, v: Verdict, s0: State)
    requires ek.src in s.nodes && ek.dst in s.nodes && ek.src != ek.dst
    requires AddsNodes(s0, s, ek.src, ek.dst)
    ensures AddsNodes(s0, Record(s, ek, f, v), ek.src, ek.dst)
  {
  }

  /** Counting a flow adds its two nodes and touches nothing else that matters here. */
  lemma CountingAdds(s: State, f: Flow)
    requires IsCounted(s, f)
    ensures AddsNodes(Resolved(s, f), Ingest(s, f), SrcKey(s, f), DstKey(s, f))
  {
    var src, dst, s0 := SrcKey(s, f), DstKey(s, f), Resolved(s, f);
    PreparedAdds(s0, src, dst, f);
    var s2 := Prepared(s0, src, dst, f);
    RecordAdds(s2, EdgeOf(s, f), f, VerdictCode(f.verdict).value, s0);
    assert Ingest(s, f) == Record(s2, EdgeOf(s, f), f, VerdictCode(f.verdict).value);
  }

  /** Exactly when the retirement of anchors survives a flow: unless the flow collides. */
  lemma IngestAnchoredExactly(s: State, f: Flow)
    requires Anchored(s) && PlausibleFlow(f)
    ensures Anchored(Ingest(s, f)) <==> !Collides(s, f)
  {
    if IsCounted(s, f) {
      CountedAnchored(s, f);
    } else {
      SkippedAnchored(s, f);
    }
  }

  lemma CountedAnchored(s: State, f: Flow)
    requires Anchored(s) && PlausibleFlow(f) && IsCounted(s, f)
    ensures Anchored(Ingest(s, f)) <==> !Collides(s, f)
  {
    ResolvedAnchored(s, f);
    CountingAdds(s, f);
    SourceKeyNamed(s, f);
    DestinationKeyUnnamed(s, f);
    AddsNodesAnchored(Resolved(s, f), Ingest(s, f), SrcKey(s, f), DstKey(s, f));
  }

  lemma SkippedAnchored(s: State, f: Flow)
    requires Anchored(s) && PlausibleFlow(f) && !IsCounted(s, f)
    ensures Anchored(Ingest(s, f)) && !Collides(s, f)
  {
    IngestIsLeadInAndRecord(s, f);
    if Accepted(f) {
      ResolvedAnchored(s, f);
      SourceKeyNamed(s, f);
      DestinationKeyUnnamed(s, f);
    }
  }

  lemma AfterTickAnchored(s: State, now: int)
    requires Anchored(s)
    ensures Anchored(AfterTick(s, now))
  {
  }

  // ---------- what a collision does ----------

  /** The clients have been told of the node. */
  predicate Announced(s: State, n: NodeKey) {
    n in s.nodes && n !in s.newNodes
  }

  /** What its removal puts on the list of the gone. */
  function Farewell(s: State, n: NodeKey): set<NodeKey> {
    if Announced(s, n) then {n} else {}
  }

  lemma CollidingKeys(s: State, f: Flow)
    requires Collides(s, f)
    ensures Resolved(s, f) == Retire(Name(s, f.src.ip, f.observer), f.src.ip)
    ensures SrcKey(s, f) == Anchor(f.src.ip) && DstKey(s, f) == NodeKey(RESERVED, "node", f.observer)
    ensures IsCounted(s, f)
  {
    assert Teaches(f.src, f.observer) == None;
    assert Resolved(s, f) == Learn(s, f.src.ip, f.observer);
  }

  /** Naming an address takes its anchor and the anchor's conversations out. */
  lemma RetiredKeys(s: State, ip: string, machine: string)
    requires EndpointsExist(s)
    ensures var anchor, s' := Anchor(ip), Retire(Name(s, ip, machine), ip);
            && s'.nodes.Keys == s.nodes.Keys - {anchor}
            && s'.goneNodes == s.goneNodes + Farewell(s, anchor)
            && s'.edges.Keys == s.edges.Keys - Incident(s.edges.Keys, anchor)
            && s'.goneEdges == s.goneEdges + Incident(s.edges.Keys, anchor)
  {
    var anchor, s0 := Anchor(ip), Name(s, ip, machine);
    RetireRemoves(s0, ip);
    if anchor in s.nodes {
      assert Retire(s0, ip) == DropNodes(CutEdges(s0, Incident(s.edges.Keys, anchor)), {anchor});
      assert {anchor} - s.newNodes == Farewell(s, anchor);
    } else {
      assert Retire(s0, ip) == s0;
      assert Incident(s.edges.Keys, anchor) == {};
    }
  }

  /** The graph after a collision, key by key: the retired anchor is back. */
  predicate Collided(s: State, s': State, anchor: NodeKey, ek: EdgeKey) {
    && s'.nodes.Keys == s.nodes.Keys + {anchor, ek.dst}
    && s'.goneNodes == s.goneNodes + Farewell(s, anchor)
    && s'.edges.Keys == s.edges.Keys - Incident(s.edges.Keys, anchor) + {ek}
    && s'.goneEdges == s.goneEdges + Incident(s.edges.Keys, anchor)
  }

  lemma AfterCollision(s: State, f: Flow)
    requires Collides(s, f) && EndpointsExist(s)
    ensures Collided(s, Ingest(s, f), Anchor(f.src.ip), EdgeOf(s, f))
  {
    CollidingKeys(s, f);
    RetiredKeys(s, f.src.ip, f.observer);
    CountingAdds(s, f);
    CountedKeys(s, f);
    BackAgain(s, Resolved(s, f), Ingest(s, f), Anchor(f.src.ip), EdgeOf(s, f));
  }

  lemma BackAgain(s: State, s0: State, s': State, anchor: NodeKey, ek: EdgeKey)
    requires s0.nodes.Keys == s.nodes.Keys - {anchor} && s0.goneNodes == s.goneNodes + Farewell(s, anchor)
    requires s0.edges.Keys == s.edges.Keys - Incident(s.edges.Keys, anchor)
    requires s0.goneEdges == s.goneEdges + Incident(s.edges.Keys, anchor)
    requires AddsNodes(s0, s', anchor, ek.dst) && s'.edges.Keys == s0.edges.Keys + {ek}
    ensures Collided(s, s', anchor, ek)
  {
  }

  lemma CountedKeys(s: State, f: Flow)
    requires IsCounted(s, f)
    ensures Ingest(s, f).edges.Keys == Resolved(s, f).edges.Keys + {EdgeOf(s, f)}
  {
    IngestIsLeadInAndRecord(s, f);
    PreparedKeeps(Resolved(s, f), SrcKey(s, f), DstKey(s, f), f);
  }

  lemma PreparedKeeps(s: State, src: NodeKey, dst: NodeKey, f: Flow)
    ensures Prepared(s, src, dst, f).edges == s.edges
  {
  }

  /** A collision puts something on the lists of the gone that is in the graph. */
  predicate Resurrects(s: State, f: Flow) {
    Collides(s, f) && (Announced(s, Anchor(f.src.ip)) || EdgeOf(s, f) in s.edges)
  }

  /** Exactly when a flow leaves something both in the graph and on its way out: if it
      collides on an anchor that was announced, or that already had this conversation. */
  lemma GoneIsGoneExactly(s: State, f: Flow)
    requires WellFormed(s) && Anchored(s) && PlausibleFlow(f)
    ensures GoneIsGone(Ingest(s, f)) <==> !Resurrects(s, f)
  {
    AnchoredGoneIsGone(s);
    IngestAnchoredExactly(s, f);
    if Collides(s, f) {
      AfterCollision(s, f);
      CollidingKeys(s, f);
      CollisionGone(s, Ingest(s, f), Anchor(f.src.ip), EdgeOf(s, f));
    } else {
      IngestWellFormed(s, f);
      AnchoredGoneIsGone(Ingest(s, f));
    }
  }

  lemma CollisionGone(s: State, s': State, anchor: NodeKey, ek: EdgeKey)
    requires Anchored(s) && GoneIsGone(s) && EndpointsExist(s)
    requires anchor == Anchor(anchor.name) && anchor.name !in s.nodeIPs
    requires ek.src == anchor && ek.dst.kind == "node"
    requires Collided(s, s', anchor, ek)
    ensures GoneIsGone(s') <==> !Announced(s, anchor) && ek !in s.edges
  {
    assert ek.dst.kind != REMOTE_NODE;
    assert anchor !in s.goneNodes && ek.dst !in s.goneNodes && ek !in s.goneEdges;
    assert ek in Incident(s.edges.Keys, anchor) <==> ek in s.edges;
    assert Announced(s, anchor) ==> anchor in s'.goneNodes && anchor in s'.nodes.Keys;
    assert ek in s.edges ==> ek in s'.goneEdges && ek in s'.edges.Keys;
  }

  /** An announced anchor on which a flow collides is in the graph and on the list of the
      gone at once. */
  lemma AnnouncedComesBack(s: State, f: Flow)
    requires WellFormed(s) && Anchored(s) && PlausibleFlow(f)
    requires Collides(s, f) && Announced(s, Anchor(f.src.ip))
    ensures var s' := Ingest(s, f);
            && Anchor(f.src.ip) in s'.nodes && Anchor(f.src.ip) in s'.goneNodes
            && f.time <= s'.nodes[Anchor(f.src.ip)].last
            && !Anchored(s') && !GoneIsGone(s')
  {
    AfterCollision(s, f);
    CollidingKeys(s, f);
    CountedRecent(s, f);
    IngestAnchoredExactly(s, f);
    GoneIsGoneExactly(s, f);
    assert Anchor(f.src.ip) in Farewell(s, Anchor(f.src.ip));
  }

  const REMOTE_SIDE: Side := Side(true, "", None, "", [Reserved(REMOTE_NODE)], [], "10.0.0.7")
  const HOST_SIDE: Side := Side(true, "", None, "", [Reserved(HOST)], [], "10.0.0.7")
  const POD_SIDE: Side := Side(true, "shop", None, "cart", [], [], "10.1.0.4")
  const FIRST: Flow :=
    Flow(false, RawForwarded, SECOND, "", "TCP", 80, REMOTE_SIDE, POD_SIDE, Undirected, None, None)
  const COLLIDING: Flow :=
    Flow(false, RawForwarded, SECOND, "worker-1", "TCP", 4240, REMOTE_SIDE, HOST_SIDE, Undirected, None, None)

  /** A graph that has announced a machine by its address. */
  function AnchorShown(): State {
    AfterTick(Ingest(New(0), FIRST), SECOND)
  }

  lemma CollidingSides()
    ensures IsRemote(REMOTE_SIDE) && IsMachine(HOST_SIDE)
    ensures Plausible(REMOTE_SIDE) && Plausible(HOST_SIDE) && Plausible(POD_SIDE)
  {
    assert HOST_SIDE.labels[0] == Reserved(HOST);
    assert REMOTE_SIDE.labels[0] == Reserved(REMOTE_NODE);
    assert HOST[0] != REMOTE_NODE[0] && "10.0.0.7"[0] != REMOTE_NODE[0] && "10.1.0.4"[0] != REMOTE_NODE[0];
  }

  lemma FirstKeys()
    ensures IsCounted(New(0), FIRST) && !Collides(New(0), FIRST) && PlausibleFlow(FIRST)
    ensures SrcKey(New(0), FIRST) == Anchor("10.0.0.7") && Resolved(New(0), FIRST) == New(0)
  {
    CollidingSides();
    assert Teaches(REMOTE_SIDE, "") == None && Teaches(POD_SIDE, "") == None;
    assert KeyOf(POD_SIDE, "", map[]) == NodeKey("shop", "Pod", "cart");
  }

  lemma FirstIngested()
    ensures var s := Ingest(New(0), FIRST);
            && WellFormed(s) && Anchored(s) && s.nodeIPs == map[] && s.retention == 10 * SECOND
            && Anchor("10.0.0.7") in s.nodes && SECOND <= s.nodes[Anchor("10.0.0.7")].last
  {
    FirstKeys();
    NewAnchored(0);
    NewWellFormed(0);
    CountedRecent(New(0), FIRST);
    CountingAdds(New(0), FIRST);
    IngestWellFormed(New(0), FIRST);
    IngestAnchoredExactly(New(0), FIRST);
    RetentionKept(New(0), FIRST);
  }

  lemma RetentionKept(s: State, f: Flow)
    requires WellFormed(s)
    ensures Ingest(s, f).retention == s.retention
  {
    var steps := IngestIsRun(s, f);
    RunRetention(s, steps);
  }

  lemma {:induction false} RunRetention(s: State, steps: seq<Step>)
    requires Legal(s, steps)
    ensures Run(s, steps).retention == s.retention
    decreases steps
  {
    if steps != [] {
      RunRetention(Do(s, steps[0]), steps[1..]);
    }
  }

  lemma FirstShowsAnchor()
    ensures var s := AnchorShown();
            WellFormed(s) && Anchored(s) && Announced(s, Anchor("10.0.0.7")) && s.nodeIPs == map[]
  {
    FirstIngested();
    var s := Ingest(New(0), FIRST);
    AfterTickWellFormed(s, SECOND);
    AfterTickAnchored(s, SECOND);
    TickKeepsExactly(s, SECOND);
    assert Cutoff(s, SECOND) == SECOND - 10 * SECOND;
  }

  lemma ExampleCollides(s: State)
    requires s.nodeIPs == map[]
    ensures Collides(s, COLLIDING) && PlausibleFlow(COLLIDING)
  {
    CollidingSides();
  }

  /** The collision happens: the announced anchor is retired and created again by one flow,
      and leaves with the next tick though it is in the graph. */
  lemma CollisionExample()
    ensures var s, anchor := AnchorShown(), Anchor("10.0.0.7");
            && Collides(s, COLLIDING) && !Anchored(Ingest(s, COLLIDING)) && !GoneIsGone(Ingest(s, COLLIDING))
            && anchor in Ingest(s, COLLIDING).nodes && anchor in Ingest(s, COLLIDING).goneNodes
  {
    FirstShowsAnchor();
    ExampleCollides(AnchorShown());
    AnnouncedComesBack(AnchorShown(), COLLIDING);
  }
}
