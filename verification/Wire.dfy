/** The values that travel between the server's graph and a browser.

    A node is named by its key and a conversation by its key, where the program uses
    the string ids built from them; `Ids` proves that nothing is lost by that.
    Optional fields of the JSON messages are encoded by the value that the program
    treats as absent: the empty string for a machine, the empty map for drops. */
module Wire {

  datatype Option<T> = None | Some(value: T)

  /** Verdict codes: the index of a counter in every counter array. */
  datatype Verdict = Forwarded | Dropped | Audit | Error

  /** Four counters, one per verdict. */
  datatype Counts = Counts(f: nat, d: nat, a: nat, e: nat) {
    function Plus(o: Counts): Counts {
      Counts(f + o.f, d + o.d, a + o.a, e + o.e)
    }

    function Total(): nat {
      f + d + a + e
    }
  }

  const ZERO: Counts := Counts(0, 0, 0, 0)

  /** The increment that one flow with verdict `v` makes. */
  function Unit(v: Verdict): Counts {
    Counts(One(v.Forwarded?), One(v.Dropped?), One(v.Audit?), One(v.Error?))
  }

  function One(b: bool): nat {
    if b then 1 else 0
  }

  datatype NodeKey = NodeKey(ns: string, kind: string, name: string)

  datatype EdgeKey = EdgeKey(src: NodeKey, dst: NodeKey, proto: string, port: nat)

  datatype Bucket = Bucket(sec: int, counts: Counts)

  datatype L7 = L7(http: map<string, nat>, dns: map<string, nat>, status: nat)

  const NO_L7: L7 := L7(map[], map[], 0)

  datatype WireNode = WireNode(id: NodeKey, machine: string, first: int, last: int)

  datatype WireEdge = WireEdge(id: EdgeKey, src: NodeKey, dst: NodeKey, counts: Counts, last: int,
                               l7: L7, drops: map<string, nat>, buckets: seq<Bucket>)

  datatype Snapshot = Snapshot(ts: int, nodes: seq<WireNode>, edges: seq<WireEdge>)

  datatype Tick = Tick(ts: int, nodes: seq<WireNode>, edges: seq<WireEdge>,
                       goneNodes: seq<NodeKey>, goneEdges: seq<EdgeKey>)

  /** Times are nanoseconds since 1970; the wire carries milliseconds, the rings seconds. */
  const SECOND: int := 1_000_000_000

  function Millis(t: int): int {
    t / 1_000_000
  }

  function Seconds(t: int): int {
    t / SECOND
  }

  function Max(x: int, y: int): (m: int)
    ensures x <= m && y <= m && (m == x || m == y)
  {
    if x < y then y else x
  }
}
