/** From one side of a flow to the node it belongs to (internal/graph/key.go).

    A label arrives already cut at its prefix. */
module Endpoints {
  import opened Wire

  datatype Label = Reserved(name: string) | Cidr(range: string) | Plain

  datatype Workload = Workload(kind: string, name: string)

  /** `known` is false for an endpoint missing from the flow. */
  datatype Side = Side(known: bool, ns: string, workload: Option<Workload>, pod: string,
                       labels: seq<Label>, names: seq<string>, ip: string)

  const RESERVED: string := "reserved"
  const UNKNOWN: string := "unknown"
  const HOST: string := "host"
  const REMOTE_NODE: string := "remote-node"
  const WORLD: string := "world"

  /** The anchor of a machine that is only known by its address. */
  function Anchor(ip: string): NodeKey {
    NodeKey(RESERVED, REMOTE_NODE, ip)
  }

  function Rank(r: string): nat {
    if r == HOST then 2 else if r == REMOTE_NODE then 1 else 0
  }

  function LastReserved(labels: seq<Label>): string {
    if labels == [] then ""
    else
      var l := labels[|labels| - 1];
      if l.Reserved? then l.name else LastReserved(labels[..|labels| - 1])
  }

  function LastCidr(labels: seq<Label>): string {
    if labels == [] then ""
    else
      var l := labels[|labels| - 1];
      if l.Cidr? then l.range else LastCidr(labels[..|labels| - 1])
  }

  /** The identity a set of reserved labels stands for: a machine label wins whatever the
      order, a host over a remote node, and otherwise the last label decides. */
  function Identity(labels: seq<Label>): string {
    if Reserved(HOST) in labels then HOST
    else if Reserved(REMOTE_NODE) in labels then REMOTE_NODE
    else LastReserved(labels)
  }

  predicate IsWorld(r: string) {
    r == WORLD || r == "world-ipv4" || r == "world-ipv6"
  }

  /** One more label: it decides unless a machine label that ranks higher came before. */
  lemma IdentitySnoc(labels: seq<Label>, l: Label)
    ensures Identity(labels + [l]) ==
            if l.Reserved? && Rank(l.name) >= Rank(Identity(labels)) then l.name else Identity(labels)
  {
    var more := labels + [l];
    assert more[..|labels|] == labels;
    RankOfIdentity(labels);
    assert Reserved(HOST) in more <==> Reserved(HOST) in labels || l == Reserved(HOST);
    assert Reserved(REMOTE_NODE) in more <==> Reserved(REMOTE_NODE) in labels || l == Reserved(REMOTE_NODE);
  }

  lemma CidrSnoc(labels: seq<Label>, l: Label)
    ensures LastCidr(labels + [l]) == if l.Cidr? then l.range else LastCidr(labels)
  {
    assert (labels + [l])[..|labels|] == labels;
  }

  /** The loop over an endpoint's labels. */
  method ScanLabels(labels: seq<Label>) returns (reserved: string, cidr: string)
    ensures reserved == Identity(labels) && cidr == LastCidr(labels)
  {
    reserved, cidr := "", "";
    assert labels[..0] == [];
    for i := 0 to |labels|
      invariant reserved == Identity(labels[..i]) && cidr == LastCidr(labels[..i])
    {
      assert labels[..i + 1] == labels[..i] + [labels[i]];
      IdentitySnoc(labels[..i], labels[i]);
      CidrSnoc(labels[..i], labels[i]);
      match labels[i]
      case Reserved(r) =>
        if Rank(r) >= Rank(reserved) {
          reserved := r;
        }
      case Cidr(c) => cidr := c;
      case Plain =>
    }
    assert labels[..|labels|] == labels;
  }

  lemma {:induction false} RankOfIdentity(labels: seq<Label>)
    ensures Rank(Identity(labels)) == 2 <==> Reserved(HOST) in labels
    ensures Rank(Identity(labels)) == 1 <==> Reserved(HOST) !in labels && Reserved(REMOTE_NODE) in labels
  {
    LastReservedIsLabel(labels);
  }

  lemma {:induction false} LastReservedIsLabel(labels: seq<Label>)
    ensures LastReserved(labels) == "" || Reserved(LastReserved(labels)) in labels
  {
    if labels != [] && !labels[|labels| - 1].Reserved? {
      LastReservedIsLabel(labels[..|labels| - 1]);
    }
  }

  predicate IsMachine(s: Side) {
    s.known && s.ns == "" && Identity(s.labels) == HOST
  }

  predicate IsRemote(s: Side) {
    s.known && s.ns == "" && Identity(s.labels) == REMOTE_NODE
  }

  function LastDash(name: string): (i: int)
    ensures -1 <= i < |name|
    ensures i >= 0 ==> name[i] == '-'
    ensures forall j :: i < j < |name| ==> name[j] != '-'
  {
    if name == [] then -1
    else if name[|name| - 1] == '-' then |name| - 1
    else LastDash(name[..|name| - 1])
  }

  /** What a pod template's hash looks like. */
  predicate IsHash(h: string) {
    5 <= |h| <= 10 && forall i :: 0 <= i < |h| ==> '0' <= h[i] <= '9' || 'a' <= h[i] <= 'z'
  }

  /** The name of a ReplicaSet without the hash of its template. */
  function StripHash(name: string): string {
    var i := LastDash(name);
    if i <= 0 then name else if IsHash(name[i + 1..]) then name[..i] else name
  }

  /** The workload that is shown: a ReplicaSet as its Deployment, any other as it is. */
  function Collapsed(w: Workload): Workload {
    if w.kind == "ReplicaSet" then Workload("Deployment", StripHash(w.name)) else w
  }

  /** The node of one side, given the machine addresses known when it is looked up. */
  function KeyOf(s: Side, observer: string, ips: map<string, string>): NodeKey {
    if !s.known then NodeKey(UNKNOWN, "ip", s.ip)
    else if s.ns != "" then
      match s.workload {
        case Some(w) =>
          if w.name != "" then NodeKey(s.ns, Collapsed(w).kind, Collapsed(w).name)
          else if s.pod != "" then NodeKey(s.ns, "Pod", s.pod)
          else NodeKey(s.ns, "Namespace", s.ns)
        case None =>
          if s.pod != "" then NodeKey(s.ns, "Pod", s.pod) else NodeKey(s.ns, "Namespace", s.ns)
      }
    else
      var r := Identity(s.labels);
      if r == "" then
        if LastCidr(s.labels) != "" then NodeKey(RESERVED, WORLD, LastCidr(s.labels))
        else NodeKey(UNKNOWN, "ip", s.ip)
      else if IsWorld(r) then
        NodeKey(RESERVED, WORLD, if s.names != [] then s.names[0]
                                 else if LastCidr(s.labels) != "" then LastCidr(s.labels) else WORLD)
      else if r == HOST then
        if observer != "" then NodeKey(RESERVED, "node", observer) else NodeKey(RESERVED, HOST, HOST)
      else if r == REMOTE_NODE then
        if s.ip in ips then NodeKey(RESERVED, "node", ips[s.ip])
        else if s.ip != "" then Anchor(s.ip)
        else Anchor(REMOTE_NODE)
      else NodeKey(RESERVED, r, r)
  }

  /** The address that a side teaches: a host seen by its own agent names its machine. */
  function Teaches(s: Side, observer: string): Option<string> {
    if IsMachine(s) && observer != "" && s.ip != "" then Some(s.ip) else None
  }

  /** The anchor of a remote node: its address, unless a machine's name is known for that. */
  predicate IsAnchored(s: Side, ips: map<string, string>, ip: string) {
    IsRemote(s) && s.ip !in ips && ip == if s.ip != "" then s.ip else REMOTE_NODE
  }

  /** A workload that bears the name of an anchor, which Kubernetes does not rule out. */
  predicate Poses(s: Side, ip: string) {
    s.known && s.ns == RESERVED && s.workload.Some? && s.workload.value == Workload(REMOTE_NODE, ip) && ip != ""
  }

  /** Exactly the sides that land on a given anchor. */
  lemma AnchorExactly(s: Side, observer: string, ips: map<string, string>, ip: string)
    ensures KeyOf(s, observer, ips) == Anchor(ip) <==> IsAnchored(s, ips, ip) || Poses(s, ip)
  {
  }

  /** No workload poses as an anchor, and no address is called "remote-node". */
  predicate Plausible(s: Side) {
    && s.ip != REMOTE_NODE
    && (s.ns == RESERVED && s.workload.Some? ==> s.workload.value.kind != REMOTE_NODE)
  }
}
