/** Which sides of flows are one node (internal/graph/key.go, endpointKey), told from what a
    flow says of them, for any observers and any names learned. */
module Sides {
  import opened Wire
  import opened Endpoints

  // ---------- labels ----------

  /** The last label that the test accepts is this one. */
  ghost predicate LastIs(labels: seq<Label>, l: Label, test: Label -> bool) {
    exists i :: 0 <= i < |labels| && labels[i] == l && test(l) && forall j :: i < j < |labels| ==> !test(labels[j])
  }

  predicate NoneOf(labels: seq<Label>, test: Label -> bool) {
    forall i :: 0 <= i < |labels| ==> !test(labels[i])
  }

  lemma LastIsSnoc(labels: seq<Label>, x: Label, l: Label, test: Label -> bool)
    ensures LastIs(labels + [x], l, test) <==> if test(x) then x == l else LastIs(labels, l, test)
    ensures NoneOf(labels + [x], test) <==> NoneOf(labels, test) && !test(x)
  {
    var all := labels + [x];
    assert all[|labels|] == x && forall i :: 0 <= i < |labels| ==> all[i] == labels[i];
    if LastIs(labels, l, test) && !test(x) {
      var i :| 0 <= i < |labels| && labels[i] == l && test(l) && forall j :: i < j < |labels| ==> !test(labels[j]);
      assert all[i] == l && forall j :: i < j < |all| ==> !test(all[j]);
    }
    if NoneOf(all, test) {
      forall i | 0 <= i < |labels| ensures !test(labels[i]) {
        assert !test(all[i]);
      }
    }
    if LastIs(all, l, test) {
      var i :| 0 <= i < |all| && all[i] == l && test(l) && forall j :: i < j < |all| ==> !test(all[j]);
      if i < |labels| {
        assert !test(all[|labels|]);
        forall j | i < j < |labels| ensures !test(labels[j]) {
          assert !test(all[j]);
        }
        assert labels[i] == l;
      }
    }
  }

  /** The CIDR of a side is that of its last such label. */
  lemma {:induction false} CidrExactly(labels: seq<Label>, c: string)
    ensures LastCidr(labels) == c <==>
            LastIs(labels, Cidr(c), (l: Label) => l.Cidr?) || (c == "" && NoneOf(labels, (l: Label) => l.Cidr?))
  {
    if labels != [] {
      var init, l := labels[..|labels| - 1], labels[|labels| - 1];
      assert labels == init + [l];
      CidrExactly(init, c);
      LastIsSnoc(init, l, Cidr(c), (x: Label) => x.Cidr?);
    }
  }

  lemma {:induction false} LastReservedExactly(labels: seq<Label>, r: string)
    ensures LastReserved(labels) == r <==>
            LastIs(labels, Reserved(r), (l: Label) => l.Reserved?)
            || (r == "" && NoneOf(labels, (l: Label) => l.Reserved?))
  {
    if labels != [] {
      var init, l := labels[..|labels| - 1], labels[|labels| - 1];
      assert labels == init + [l];
      LastReservedExactly(init, r);
      LastIsSnoc(init, l, Reserved(r), (x: Label) => x.Reserved?);
    }
  }

  // ---------- sides inside the cluster ----------

  predicate Named(s: Side) {
    s.known && s.ns != "" && s.workload.Some? && s.workload.value.name != ""
  }

  predicate Unnamed(s: Side) {
    s.known && s.ns != "" && (s.workload.None? || s.workload.value.name == "")
  }

  /** Two sides with named workloads are one node exactly if namespace and workload agree,
      whatever their pods, labels and addresses; a ReplicaSet goes as its Deployment. */
  lemma WorkloadsShare(s: Side, t: Side, o: string, p: string, ips: map<string, string>, jps: map<string, string>)
    requires Named(s) && Named(t)
    ensures KeyOf(s, o, ips) == KeyOf(t, p, jps) <==>
            s.ns == t.ns && Collapsed(s.workload.value) == Collapsed(t.workload.value)
    ensures s.workload.value.kind != "ReplicaSet" && t.workload.value.kind != "ReplicaSet" ==>
              (KeyOf(s, o, ips) == KeyOf(t, p, jps) <==> s.ns == t.ns && s.workload == t.workload)
  {
  }

  /** A name is cut exactly if it is something, a dash and a hash: what comes before them is
      left. */
  lemma StripExactly(name: string, d: string)
    ensures (exists h: string :: IsHash(h) && d != "" && name == d + "-" + h) <==> StripHash(name) == d && d != name
  {
    var i := LastDash(name);
    if h: string :| IsHash(h) && d != "" && name == d + "-" + h {
      HashAfterDash(d, h);
    }
    if StripHash(name) == d && d != name {
      assert name == d + "-" + name[i + 1..];
    }
  }

  lemma PartsOf(d: string, h: string, name: string)
    requires name == d + "-" + h
    ensures |name| == |d| + 1 + |h| && name[|d|] == '-' && name[..|d|] == d && name[|d| + 1..] == h
    ensures forall j :: |d| < j < |name| ==> name[j] == h[j - |d| - 1]
  {
  }

  lemma HashAfterDash(d: string, h: string)
    requires IsHash(h) && d != ""
    ensures StripHash(d + "-" + h) == d
  {
    var name := d + "-" + h;
    PartsOf(d, h, name);
    assert LastDash(name) == |d| by {
      forall j | |d| < j < |name| ensures name[j] != '-' {
        assert name[j] == h[j - |d| - 1];
      }
    }
  }

  /** Every ReplicaSet of a Deployment is the node of the Deployment. */
  lemma ReplicasShare(s: Side, t: Side, d: string, h: string, o: string, p: string,
                      ips: map<string, string>, jps: map<string, string>)
    requires Named(s) && Named(t) && s.ns == t.ns && IsHash(h) && d != ""
    requires s.workload.value == Workload("ReplicaSet", d + "-" + h) && t.workload.value == Workload("Deployment", d)
    ensures KeyOf(s, o, ips) == KeyOf(t, p, jps)
  {
    HashAfterDash(d, h);
  }

  /** Without a named workload, exactly if namespace and pod agree. */
  lemma PodsShare(s: Side, t: Side, o: string, p: string, ips: map<string, string>, jps: map<string, string>)
    requires Unnamed(s) && Unnamed(t)
    ensures KeyOf(s, o, ips) == KeyOf(t, p, jps) <==> s.ns == t.ns && s.pod == t.pod
  {
    assert "Pod"[0] != "Namespace"[0];
  }

  /** A pod is the node of a workload exactly if that is a pod of its name; a bare namespace
      exactly if that is the namespace itself. */
  lemma PodIsWorkload(s: Side, t: Side, o: string, p: string, ips: map<string, string>, jps: map<string, string>)
    requires Named(s) && Unnamed(t)
    ensures KeyOf(s, o, ips) == KeyOf(t, p, jps) <==>
            s.ns == t.ns &&
            s.workload.value == if t.pod != "" then Workload("Pod", t.pod) else Workload("Namespace", t.ns)
  {
  }

  // ---------- sides without a namespace ----------

  predicate Labelled(s: Side) {
    s.known && s.ns == "" && Reserved("host") !in s.labels && Reserved("remote-node") !in s.labels
  }

  /** The identity of a side that is no machine: its last reserved label. */
  predicate Called(s: Side, r: string) {
    Labelled(s) && LastReserved(s.labels) == r
  }

  predicate FromWorld(s: Side) {
    Called(s, "world") || Called(s, "world-ipv4") || Called(s, "world-ipv6")
  }

  lemma OwnIdentity(s: Side, r: string)
    requires Called(s, r)
    ensures Identity(s.labels) == r && r != HOST && r != REMOTE_NODE && LastReserved(s.labels) == r
  {
    LastReservedIsLabel(s.labels);
  }

  /** A side of the world with DNS names is told apart by the first of them alone; one without
      by its CIDR, and without that it is the world itself. */
  lemma WorldsShare(s: Side, t: Side, o: string, p: string, ips: map<string, string>, jps: map<string, string>)
    requires FromWorld(s) && FromWorld(t)
    ensures s.names != [] && t.names != [] ==> (KeyOf(s, o, ips) == KeyOf(t, p, jps) <==> s.names[0] == t.names[0])
    ensures s.names == [] && t.names == [] && LastCidr(s.labels) != "" && LastCidr(t.labels) != "" ==>
              (KeyOf(s, o, ips) == KeyOf(t, p, jps) <==> LastCidr(s.labels) == LastCidr(t.labels))
    ensures s.names == [] && LastCidr(s.labels) == "" ==> KeyOf(s, o, ips) == NodeKey("reserved", "world", "world")
    ensures s.names == [] && LastCidr(s.labels) != "" ==>
              KeyOf(s, o, ips) == NodeKey("reserved", "world", LastCidr(s.labels))
    ensures s.names != [] ==> KeyOf(s, o, ips) == NodeKey("reserved", "world", s.names[0])
  {
    OwnIdentity(s, LastReserved(s.labels));
    OwnIdentity(t, LastReserved(t.labels));
  }

  /** A side without an identity is the node of its CIDR, shared with the sides of the world
      that have no name and that CIDR; without a CIDR it is told apart by its address, like a
      side that the flow does not describe. */
  predicate Stranger(s: Side) {
    !s.known || (Called(s, "") && LastCidr(s.labels) == "")
  }

  lemma StrangersShare(s: Side, t: Side, o: string, p: string, ips: map<string, string>, jps: map<string, string>)
    requires Stranger(s) && Stranger(t)
    ensures KeyOf(s, o, ips) == KeyOf(t, p, jps) <==> s.ip == t.ip
  {
    if s.known {
      OwnIdentity(s, "");
    }
    if t.known {
      OwnIdentity(t, "");
    }
  }

  lemma CidrIsWorld(s: Side, t: Side, o: string, p: string, ips: map<string, string>, jps: map<string, string>)
    requires Called(s, "") && LastCidr(s.labels) != "" && FromWorld(t) && t.names == []
    ensures KeyOf(s, o, ips) == KeyOf(t, p, jps) <==>
            LastCidr(s.labels) == if LastCidr(t.labels) != "" then LastCidr(t.labels) else "world"
  {
    OwnIdentity(s, "");
    OwnIdentity(t, LastReserved(t.labels));
  }

  /** Any other identity is one node, whatever the address, the labels before it and the names. */
  lemma IdentitiesShare(s: Side, t: Side, r: string, q: string, o: string, p: string,
                        ips: map<string, string>, jps: map<string, string>)
    requires Called(s, r) && Called(t, q) && !FromWorld(s) && !FromWorld(t) && r != "" && q != ""
    ensures KeyOf(s, o, ips) == KeyOf(t, p, jps) <==> r == q
  {
    OwnIdentity(s, r);
    OwnIdentity(t, q);
  }

  /** Hosts are told apart by the agents that see them; where no agent is named they are one. */
  lemma HostsShare(s: Side, t: Side, o: string, p: string, ips: map<string, string>, jps: map<string, string>)
    requires s.known && s.ns == "" && Reserved("host") in s.labels
    requires t.known && t.ns == "" && Reserved("host") in t.labels
    ensures KeyOf(s, o, ips) == KeyOf(t, p, jps) <==> o == p
  {
    RankOfIdentity(s.labels);
    RankOfIdentity(t.labels);
    assert "node"[0] != "host"[0];
  }

  // ---------- pseudo namespaces ----------

  /** The nodes outside the cluster are those of "reserved" and "unknown", which no flow is
      placed on a machine by: a side is there exactly if the flow gives it no namespace, or
      that very one; unknown are the strangers. */
  lemma PseudoExactly(s: Side, o: string, ips: map<string, string>)
    ensures KeyOf(s, o, ips).ns == "unknown" <==> Stranger(s) || (s.known && s.ns == "unknown")
    ensures KeyOf(s, o, ips).ns == "reserved" <==>
            s.known && ((s.ns == "" && !Stranger(s)) || s.ns == "reserved")
    ensures s.known && s.ns != "" ==> KeyOf(s, o, ips).ns == s.ns
  {
    RankOfIdentity(s.labels);
    assert "unknown"[0] != "reserved"[0];
    if Labelled(s) {
      OwnIdentity(s, LastReserved(s.labels));
    }
  }
}
