/** The names of machines (internal/graph/key.go, learnMachine): over any history, an address
    stands for the machine that was last said to have it, and so a machine is one node. */
module Naming {
  import opened Wire
  import opened Endpoints
  import opened GraphModel
  import opened GraphSteps
  import opened GraphHistory
  import opened Admission

  /** The side is a host with this address: the agent that sees it is its machine. */
  predicate HostAt(s: Side, ip: string) {
    s.known && s.ns == "" && s.ip == ip && Reserved("host") in s.labels
  }

  predicate RemoteAt(s: Side, ip: string) {
    s.known && s.ns == "" && s.ip == ip && Reserved("host") !in s.labels && Reserved("remote-node") in s.labels
  }

  /** What a side says about an address. */
  function SaidBy(s: Side, observer: string, ip: string): Option<string> {
    if ip != "" && observer != "" && HostAt(s, ip) then Some(observer) else None
  }

  function Later(a: Option<string>, b: Option<string>): Option<string> {
    if b.Some? then b else a
  }

  function SaidByAll(addrs: seq<Address>, ip: string): Option<string>
    decreases addrs
  {
    if addrs == [] then None
    else
      var a := addrs[|addrs| - 1];
      Later(SaidByAll(addrs[..|addrs| - 1], ip),
            if ip != "" && a.ip == ip && a.machine != "" then Some(a.machine) else None)
  }

  /** The machine an operation gives an address: of the two sides of a flow, the destination
      has the last word. */
  function Said(op: Op, ip: string): Option<string> {
    match op
    case FlowOp(f) =>
      if !Admitted(f) then None else Later(SaidBy(f.src, f.observer, ip), SaidBy(f.dst, f.observer, ip))
    case LearnOp(addrs) => SaidByAll(addrs, ip)
    case TickOp(_) => None
  }

  /** The machine that was last said to have the address. */
  function LastSaid(ops: seq<Op>, ip: string): Option<string>
    decreases ops
  {
    if ops == [] then None else Later(LastSaid(ops[..|ops| - 1], ip), Said(ops[|ops| - 1], ip))
  }

  function NameOf(ips: map<string, string>, ip: string): Option<string> {
    if ip in ips then Some(ips[ip]) else None
  }

  // ---------- one operation ----------

  lemma LearnNames(s: State, ip: string, machine: string, x: string)
    ensures NameOf(Learn(s, ip, machine).nodeIPs, x) ==
            if x == ip && ip != "" && machine != "" then Some(machine) else NameOf(s.nodeIPs, x)
  {
  }

  lemma HostExactly(s: Side)
    ensures IsMachine(s) <==> HostAt(s, s.ip)
    ensures IsRemote(s) <==> RemoteAt(s, s.ip)
  {
    RankOfIdentity(s.labels);
  }

  lemma SideNames(s: State, side: Side, observer: string, x: string)
    ensures NameOf(AfterSide(s, side, observer).nodeIPs, x) == Later(NameOf(s.nodeIPs, x), SaidBy(side, observer, x))
  {
    HostExactly(side);
    LearnNames(s, side.ip, observer, x);
  }

  lemma CountedNames(s: State, f: Flow)
    ensures Ingest(s, f).nodeIPs == if Accepted(f) then Resolved(s, f).nodeIPs else s.nodeIPs
  {
    IngestIsLeadInAndRecord(s, f);
    if IsCounted(s, f) {
      PreparedNames(Resolved(s, f), SrcKey(s, f), DstKey(s, f), f);
    }
  }

  lemma PreparedNames(s: State, src: NodeKey, dst: NodeKey, f: Flow)
    ensures Prepared(s, src, dst, f).nodeIPs == s.nodeIPs
  {
  }

  lemma FlowNames(s: State, f: Flow, x: string)
    ensures NameOf(Ingest(s, f).nodeIPs, x) == Later(NameOf(s.nodeIPs, x), Said(FlowOp(f), x))
  {
    CountedNames(s, f);
    AcceptedExactly(f);
    SideNames(s, f.src, f.observer, x);
    SideNames(AfterSide(s, f.src, f.observer), f.dst, f.observer, x);
  }

  lemma {:induction false} LearnAllNames(s: State, addrs: seq<Address>, x: string)
    ensures NameOf(LearnAll(s, addrs).nodeIPs, x) == Later(NameOf(s.nodeIPs, x), SaidByAll(addrs, x))
    decreases addrs
  {
    if addrs != [] {
      var init, a := addrs[..|addrs| - 1], addrs[|addrs| - 1];
      LearnAllNames(s, init, x);
      LearnNames(LearnAll(s, init), a.ip, a.machine, x);
    }
  }

  lemma TickNames(s: State, now: int)
    ensures AfterTick(s, now).nodeIPs == s.nodeIPs
  {
  }

  /** Saying what was said before is no news: nothing is retired again. */
  lemma NothingNew(s: State, ip: string, machine: string)
    ensures NameOf(s.nodeIPs, ip) == Some(machine) || ip == "" || machine == "" ==> Learn(s, ip, machine) == s
    ensures NameOf(s.nodeIPs, ip) != Some(machine) && ip != "" && machine != "" ==>
              Anchor(ip) !in Learn(s, ip, machine).nodes
  {
    if Anchor(ip) in Name(s, ip, machine).nodes {
      var s1 := CutEdges(Name(s, ip, machine), Incident(s.edges.Keys, Anchor(ip)));
      assert Retire(Name(s, ip, machine), ip) == DropNodes(s1, {Anchor(ip)});
    }
  }

  // ---------- over every history ----------

  /** The graph knows an address under the name that was last given to it. */
  lemma {:induction false} NamesAreLastSaid(retention: int, ops: seq<Op>, ip: string)
    ensures NameOf(After(retention, ops).nodeIPs, ip) == LastSaid(ops, ip)
    decreases ops
  {
    if ops != [] {
      var init, op := ops[..|ops| - 1], ops[|ops| - 1];
      var s := After(retention, init);
      NamesAreLastSaid(retention, init, ip);
      match op
      case FlowOp(f) => FlowNames(s, f, ip);
      case LearnOp(addrs) => LearnAllNames(s, addrs, ip);
      case TickOp(now) => TickNames(s, now);
    }
  }

  /** A machine is one node: seen from elsewhere under an address that was last said to be
      its own, or by its own agent, it has the same key, under its name; an address of which
      nothing was said has a node of its own, which is no machine's. */
  lemma MachineIsOneNode(retention: int, ops: seq<Op>, ip: string, remote: Side, elsewhere: string,
                         host: Side, m: string, ips: map<string, string>)
    requires RemoteAt(remote, ip) && HostAt(host, host.ip) && m != ""
    ensures var seen := KeyOf(remote, elsewhere, After(retention, ops).nodeIPs);
            && KeyOf(host, m, ips) == NodeKey("reserved", "node", m)
            && (seen == KeyOf(host, m, ips) <==> LastSaid(ops, ip) == Some(m))
            && (LastSaid(ops, ip) == None && ip != "" ==> seen == NodeKey("reserved", "remote-node", ip))
  {
    NamesAreLastSaid(retention, ops, ip);
    HostExactly(remote);
    HostExactly(host);
    KeyOfRemote(remote, elsewhere, After(retention, ops).nodeIPs);
  }

  lemma KeyOfRemote(s: Side, observer: string, ips: map<string, string>)
    requires IsRemote(s)
    ensures KeyOf(s, observer, ips) ==
            if s.ip in ips then NodeKey("reserved", "node", ips[s.ip])
            else NodeKey("reserved", "remote-node", if s.ip != "" then s.ip else "remote-node")
  {
    assert "host"[0] != "remote-node"[0] && "world"[0] != "remote-node"[0];
  }

  /** The source of a flow is looked up before the flow says anything, its destination after
      its source has been named. */
  lemma FlowFindsMachine(retention: int, ops: seq<Op>, f: Flow, ip: string)
    ensures RemoteAt(f.src, ip) && LastSaid(ops, ip).Some? ==>
              SrcKey(After(retention, ops), f) == NodeKey("reserved", "node", LastSaid(ops, ip).value)
    ensures var said := Later(LastSaid(ops, ip), SaidBy(f.src, f.observer, ip));
            RemoteAt(f.dst, ip) && said.Some? ==>
              DstKey(After(retention, ops), f) == NodeKey("reserved", "node", said.value)
    ensures HostAt(f.src, ip) && f.observer != "" ==>
              SrcKey(After(retention, ops), f) == NodeKey("reserved", "node", f.observer)
    ensures HostAt(f.dst, ip) && f.observer != "" ==>
              DstKey(After(retention, ops), f) == NodeKey("reserved", "node", f.observer)
  {
    var s := After(retention, ops);
    NamesAreLastSaid(retention, ops, ip);
    SideNames(s, f.src, f.observer, ip);
    HostExactly(f.src);
    HostExactly(f.dst);
    if IsRemote(f.src) {
      KeyOfRemote(f.src, f.observer, s.nodeIPs);
    }
    if IsRemote(f.dst) {
      KeyOfRemote(f.dst, f.observer, AfterSide(s, f.src, f.observer).nodeIPs);
    }
  }
}
