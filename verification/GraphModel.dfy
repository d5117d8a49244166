/** The server's graph as a state machine on values (internal/graph/graph.go).

    `State` is what the mutex protects. The program keeps pointers to the same node in
    `nodes`, `newNodes` and `dirtyNode`, so the last two are sets of keys here. The lists
    of gone ids are sets: a client only asks whether an id is on them. */
module GraphModel {
  import opened Wire
  import opened Rings
  import opened TopCounter
  import opened Placement
  import opened Endpoints

  datatype Node = Node(first: int, last: int, edges: int, placed: Placed)

  datatype Edge = Edge(counts: Counts, last: int, drops: map<string, nat>, l7: L7, ring: LiveRing)

  type Retention = t: int | 10 * SECOND <= t witness 10 * SECOND

  datatype State = State(
    retention: Retention,
    nodes: map<NodeKey, Node>,
    edges: map<EdgeKey, Edge>,
    newNodes: set<NodeKey>,
    dirtyNode: set<NodeKey>,
    dirty: map<EdgeKey, Counts>,
    dirtyL7: set<EdgeKey>,
    goneNodes: set<NodeKey>,
    goneEdges: set<EdgeKey>,
    nodeIPs: map<string, string>)

  function New(retention: int): State {
    State(if retention < 10 * SECOND then 10 * SECOND else retention,
          map[], map[], {}, {}, map[], {}, {}, {}, map[])
  }

  function SlotCount(s: State): (n: nat)
    ensures 10 <= n
  {
    s.retention / SECOND
  }

  // ---------- flows ----------

  /** Go's zero time, the first instant of year 1. */
  const ZERO_TIME: int := -62_135_596_800 * SECOND

  datatype RawVerdict = RawForwarded | RawRedirected | RawTraced | RawTranslated
                      | RawDropped | RawAudit | RawError | RawOther

  datatype Direction = Egress | Ingress | Undirected

  datatype L7Record = Http(response: bool, code: nat, entry: string) | Dns(query: string) | OtherL7

  datatype Flow = Flow(reply: bool, verdict: RawVerdict, time: int, observer: string,
                       proto: string, port: nat, src: Side, dst: Side, direction: Direction,
                       dropReason: Option<string>, l7: Option<L7Record>)

  datatype Result = Counted(edge: EdgeKey, verdict: Verdict) | Skipped(reason: string)

  function VerdictCode(v: RawVerdict): Option<Verdict> {
    if v.RawForwarded? || v.RawRedirected? || v.RawTraced? || v.RawTranslated? then Some(Forwarded)
    else if v.RawDropped? then Some(Dropped)
    else if v.RawAudit? then Some(Audit)
    else if v.RawError? then Some(Error)
    else None
  }

  predicate Accepted(f: Flow) {
    !f.reply && VerdictCode(f.verdict).Some? && f.time != ZERO_TIME
  }

  function TrimDot(q: string): string {
    if q != [] && q[|q| - 1] == '.' then q[..|q| - 1] else q
  }

  function Observe(l: L7, r: L7Record): L7 {
    if r.Http? && r.response then (if r.code != 0 then l.(status := r.code) else l)
    else if r.Http? then l.(http := TopAdd(l.http, r.entry))
    else if r.Dns? && r.query != "" then l.(dns := TopAdd(l.dns, TrimDot(r.query)))
    else l
  }

  // ---------- steps ----------

  function Incident(es: set<EdgeKey>, n: NodeKey): set<EdgeKey> {
    set e | e in es && (e.src == n || e.dst == n)
  }

  /** What both deletion loops do with a set of conversations. */
  function CutEdges(s: State, gone: set<EdgeKey>): State {
    s.(edges := s.edges - gone,
       dirty := s.dirty - gone,
       dirtyL7 := s.dirtyL7 - gone,
       nodes := map n | n in s.nodes :: s.nodes[n].(edges := s.nodes[n].edges - |Incident(gone, n)|),
       goneEdges := s.goneEdges + gone)
  }

  /** A node no client was told about leaves without notice. */
  function DropNodes(s: State, dead: set<NodeKey>): State {
    s.(nodes := s.nodes - dead,
       dirtyNode := s.dirtyNode - dead,
       newNodes := s.newNodes - dead,
       goneNodes := s.goneNodes + (dead - s.newNodes))
  }

  function Retire(s: State, ip: string): State {
    var id := Anchor(ip);
    if id !in s.nodes then s else DropNodes(CutEdges(s, Incident(s.edges.Keys, id)), {id})
  }

  function Name(s: State, ip: string, machine: string): State {
    s.(nodeIPs := s.nodeIPs[ip := machine])
  }

  function Learn(s: State, ip: string, machine: string): State {
    if ip == "" || machine == "" || (ip in s.nodeIPs && s.nodeIPs[ip] == machine) then s
    else Retire(Name(s, ip, machine), ip)
  }

  datatype Address = Address(ip: string, machine: string)

  function LearnAll(s: State, addrs: seq<Address>): State {
    if addrs == [] then s
    else
      var a := addrs[|addrs| - 1];
      Learn(LearnAll(s, addrs[..|addrs| - 1]), a.ip, a.machine)
  }

  function AfterSide(s: State, side: Side, observer: string): State {
    match Teaches(side, observer)
    case Some(ip) => Learn(s, ip, observer)
    case None => s
  }

  function Touch(s: State, k: NodeKey, t: int): State {
    var n := if k in s.nodes then s.nodes[k] else Node(t, ZERO_TIME, 0, NOWHERE);
    s.(nodes := s.nodes[k := n.(last := Max(n.last, t))],
       newNodes := if k in s.nodes then s.newNodes else s.newNodes + {k})
  }

  function PlaceOn(s: State, k: NodeKey, machine: string): State
    requires k in s.nodes
  {
    if machine == "" || k.ns == RESERVED || k.ns == UNKNOWN then s
    else
      var p := s.nodes[k].placed;
      var p' := Place(p, machine);
      s.(nodes := s.nodes[k := s.nodes[k].(placed := p')],
         dirtyNode := if p'.machine != p.machine && k !in s.newNodes then s.dirtyNode + {k} else s.dirtyNode)
  }

  function Pending(s: State, e: EdgeKey): Counts {
    if e in s.dirty then s.dirty[e] else ZERO
  }

  predicate HasDetail(f: Flow) {
    (f.verdict == RawDropped && f.dropReason.Some?) || f.l7.Some?
  }

  function OneMoreEdge(nodes: map<NodeKey, Node>, k: NodeKey): map<NodeKey, Node>
    requires k in nodes
  {
    nodes[k := nodes[k].(edges := nodes[k].edges + 1)]
  }

  function FreshEdge(s: State): Edge {
    Edge(ZERO, ZERO_TIME, map[], NO_L7, Fresh(SlotCount(s), SERVER_UNTOUCHED))
  }

  function NewDrops(drops: map<string, nat>, f: Flow): map<string, nat> {
    if f.verdict == RawDropped && f.dropReason.Some? then TopAdd(drops, f.dropReason.value) else drops
  }

  function NewL7(l: L7, f: Flow): L7 {
    if f.l7.Some? then Observe(l, f.l7.value) else l
  }

  function Bump(e: Edge, f: Flow, v: Verdict): Edge {
    Edge(e.counts.Plus(Unit(v)), Max(e.last, f.time), NewDrops(e.drops, f), NewL7(e.l7, f),
         Add(e.ring, Seconds(f.time), Unit(v)))
  }

  /** Puts the new value of a conversation in place; an unknown one is opened. */
  function Store(s: State, ek: EdgeKey, e: Edge, v: Verdict, detail: bool): State
    requires ek.src in s.nodes && ek.dst in s.nodes
  {
    s.(edges := s.edges[ek := e],
       nodes := if ek in s.edges then s.nodes else OneMoreEdge(OneMoreEdge(s.nodes, ek.src), ek.dst),
       dirty := s.dirty[ek := Pending(s, ek).Plus(Unit(v))],
       dirtyL7 := if detail then s.dirtyL7 + {ek} else s.dirtyL7)
  }

  /** Counts the flow on its conversation, which it may open. */
  function Record(s: State, ek: EdgeKey, f: Flow, v: Verdict): State
    requires ek.src in s.nodes && ek.dst in s.nodes
  {
    Store(s, ek, Bump(if ek in s.edges then s.edges[ek] else FreshEdge(s), f, v), v, HasDetail(f))
  }

  function SrcKey(s: State, f: Flow): NodeKey {
    KeyOf(f.src, f.observer, s.nodeIPs)
  }

  function DstKey(s: State, f: Flow): NodeKey {
    KeyOf(f.dst, f.observer, AfterSide(s, f.src, f.observer).nodeIPs)
  }

  function Resolved(s: State, f: Flow): State {
    AfterSide(AfterSide(s, f.src, f.observer), f.dst, f.observer)
  }

  function Touched(s: State, src: NodeKey, dst: NodeKey, f: Flow): (s': State)
    ensures src in s'.nodes && dst in s'.nodes
  {
    Touch(Touch(s, src, f.time), dst, f.time)
  }

  function PlacedByFlow(s: State, src: NodeKey, dst: NodeKey, f: Flow): (s': State)
    requires src in s.nodes && dst in s.nodes
    ensures src in s'.nodes && dst in s'.nodes
  {
    if f.direction.Egress? then PlaceOn(s, src, f.observer)
    else if f.direction.Ingress? then PlaceOn(s, dst, f.observer)
    else s
  }

  /** The state in which an accepted flow between two nodes is counted. */
  function Prepared(s: State, src: NodeKey, dst: NodeKey, f: Flow): (s': State)
    ensures src in s'.nodes && dst in s'.nodes
  {
    PlacedByFlow(Touched(s, src, dst, f), src, dst, f)
  }

  /** A flow of a node with itself is skipped, though what it taught stays learned. */
  function Ingest(s: State, f: Flow): State {
    if !Accepted(f) then s
    else
      var src, dst := SrcKey(s, f), DstKey(s, f);
      var s0 := Resolved(s, f);
      if src == dst then s0
      else Record(Prepared(s0, src, dst, f), EdgeKey(src, dst, f.proto, f.port), f, VerdictCode(f.verdict).value)
  }

  function IngestResult(s: State, f: Flow): Result {
    if f.reply then Skipped("reply")
    else if VerdictCode(f.verdict).None? then Skipped("verdict")
    else if f.time == ZERO_TIME then Skipped("time")
    else if SrcKey(s, f) == DstKey(s, f) then Skipped("self")
    else Counted(EdgeKey(SrcKey(s, f), DstKey(s, f), f.proto, f.port), VerdictCode(f.verdict).value)
  }

  // ---------- ticks and snapshots ----------

  function Idle(s: State, cutoff: int): set<EdgeKey> {
    set e | e in s.edges && s.edges[e].last < cutoff
  }

  function Dead(s: State, cutoff: int): set<NodeKey> {
    set n | n in s.nodes && s.nodes[n].edges <= 0 && s.nodes[n].last < cutoff
  }

  /** Expiry: idle conversations first, then the nodes they leave behind. */
  function ExpireBefore(s: State, cutoff: int): State {
    var s1 := CutEdges(s, Idle(s, cutoff));
    DropNodes(s1, Dead(s1, cutoff))
  }

  function Cutoff(s: State, now: int): int {
    now - s.retention
  }

  function Expire(s: State, now: int): State {
    ExpireBefore(s, Cutoff(s, now))
  }

  function Flush(s: State): State {
    s.(newNodes := {}, dirtyNode := {}, dirty := map[], dirtyL7 := {}, goneNodes := {}, goneEdges := {})
  }

  function AfterTick(s: State, now: int): State {
    Flush(Expire(s, now))
  }

  function NodeJson(s: State, k: NodeKey): WireNode
    requires k in s.nodes
  {
    WireNode(k, s.nodes[k].placed.machine, Millis(s.nodes[k].first), Millis(s.nodes[k].last))
  }

  function EdgeJson(s: State, k: EdgeKey, counts: Counts, withL7: bool): WireEdge
    requires k in s.edges
  {
    var e := s.edges[k];
    WireEdge(k, k.src, k.dst, counts, Millis(e.last),
             if withL7 then e.l7 else NO_L7, if withL7 then e.drops else map[], [])
  }

  predicate DistinctNodes(ns: seq<WireNode>) {
    forall i, j :: 0 <= i < j < |ns| ==> ns[i].id != ns[j].id
  }

  predicate DistinctEdges(es: seq<WireEdge>) {
    forall i, j :: 0 <= i < j < |es| ==> es[i].id != es[j].id
  }

  function NodeIds(ns: seq<WireNode>): set<NodeKey> {
    set i | 0 <= i < |ns| :: ns[i].id
  }

  function EdgeIds(es: seq<WireEdge>): set<EdgeKey> {
    set i | 0 <= i < |es| :: es[i].id
  }

  function Elements<T>(xs: seq<T>): set<T> {
    set x | x in xs
  }

  /** `ns` lists each node of `ids` once, in any order, as it is in `s`. */
  predicate ListsNodes(s: State, ids: set<NodeKey>, ns: seq<WireNode>) {
    && NodeIds(ns) == ids
    && DistinctNodes(ns)
    && forall i :: 0 <= i < |ns| ==> ns[i].id in s.nodes && ns[i] == NodeJson(s, ns[i].id)
  }

  /** `es` lists each pending conversation once, with its increments since the last tick. */
  predicate ListsIncrements(s: State, es: seq<WireEdge>) {
    && EdgeIds(es) == s.dirty.Keys
    && DistinctEdges(es)
    && forall i :: 0 <= i < |es| ==> IsIncrement(s, es[i])
  }

  predicate IsIncrement(s: State, w: WireEdge) {
    && w.id in s.edges && w.id in s.dirty
    && w == EdgeJson(s, w.id, s.dirty[w.id], w.id in s.dirtyL7)
  }

  /** `t` is what Tick returns; `s` is the state after expiry and before the flush. */
  predicate IsTick(s: State, now: int, t: Tick) {
    && t.ts == Millis(now)
    && ListsNodes(s, s.newNodes + s.dirtyNode, t.nodes)
    && ListsIncrements(s, t.edges)
    && Elements(t.goneNodes) == s.goneNodes
    && Elements(t.goneEdges) == s.goneEdges
  }

  function Since(s: State, now: int): int {
    Seconds(now - s.retention)
  }

  /** `es` lists every conversation once, with totals, details and recent seconds. */
  ghost predicate ListsTotals(s: State, now: int, es: seq<WireEdge>) {
    && EdgeIds(es) == s.edges.Keys
    && DistinctEdges(es)
    && forall i :: 0 <= i < |es| ==> IsTotal(s, now, es[i])
  }

  ghost predicate IsTotal(s: State, now: int, w: WireEdge) {
    && w.id in s.edges
    && w.(buckets := []) == EdgeJson(s, w.id, s.edges[w.id].counts, true)
    && IsSparse(s.edges[w.id].ring, Since(s, now), w.buckets)
  }

  ghost predicate IsSnapshot(s: State, now: int, snap: Snapshot) {
    && snap.ts == Millis(now)
    && ListsNodes(s, s.nodes.Keys, snap.nodes)
    && ListsTotals(s, now, snap.edges)
  }

  predicate NothingPending(s: State) {
    s == Flush(s)
  }
}
