/** Wire ids (internal/graph/key.go): the string id of a node or a conversation
    determines its key, so the maps keyed by id are maps keyed by key. */
module Ids {
  import opened Wire

  function NodeId(k: NodeKey): string {
    k.ns + "/" + k.kind + "/" + k.name
  }

  function EdgeId(k: EdgeKey): string {
    NodeId(k.src) + "|" + NodeId(k.dst) + "|" + k.proto + "|" + Decimal(k.port)
  }

  function Digit(d: nat): char
    requires d < 10
  {
    '0' + d as char
  }

  /** Decimal printing, as strconv.FormatUint does in base 10. */
  function Decimal(n: nat): string {
    if n < 10 then [Digit(n)] else Decimal(n / 10) + [Digit(n % 10)]
  }

  /** The number that a string of decimal digits denotes. */
  function Value(s: string): int {
    if s == [] then 0 else 10 * Value(s[..|s| - 1]) + (s[|s| - 1] as int - '0' as int)
  }

  /** `s` up to the first `c`: what JavaScript's s.split(c)[0] returns. */
  function Before(s: string, c: char): string {
    if s == [] || s[0] == c then [] else [s[0]] + Before(s[1..], c)
  }

  lemma {:induction false} DecimalValue(n: nat)
    ensures Value(Decimal(n)) == n
    ensures '|' !in Decimal(n)
  {
    if n >= 10 {
      DecimalValue(n / 10);
      assert Decimal(n)[..|Decimal(n)| - 1] == Decimal(n / 10);
    } else {
      assert Decimal(n)[..0] == [];
    }
  }

  lemma {:induction false} BeforeSeparator(a: string, c: char, rest: string)
    requires c !in a
    ensures Before(a + [c] + rest, c) == a
  {
    if a == [] {
      assert (a + [c] + rest)[0] == c;
    } else {
      assert (a + [c] + rest)[1..] == a[1..] + [c] + rest;
      BeforeSeparator(a[1..], c, rest);
    }
  }

  lemma {:induction false} SplitUnique(a: string, x: string, b: string, y: string, c: char)
    requires c !in a && c !in b
    requires a + [c] + x == b + [c] + y
    ensures a == b && x == y
  {
    BeforeSeparator(a, c, x);
    BeforeSeparator(b, c, y);
    assert x == (a + [c] + x)[|a| + 1..];
    assert y == (b + [c] + y)[|b| + 1..];
  }

  /** No separator can be mistaken for part of a component; the name comes last and
      may contain slashes, as the CIDR of a world anchor does. */
  predicate PlainNode(k: NodeKey) {
    && '/' !in k.ns && '/' !in k.kind
    && '|' !in k.ns && '|' !in k.kind && '|' !in k.name
  }

  predicate PlainEdge(k: EdgeKey) {
    PlainNode(k.src) && PlainNode(k.dst) && '|' !in k.proto
  }

  lemma {:induction false} NodeIdInjective(k: NodeKey, m: NodeKey)
    requires '/' !in k.ns && '/' !in k.kind && '/' !in m.ns && '/' !in m.kind
    ensures NodeId(k) == NodeId(m) <==> k == m
  {
    if NodeId(k) == NodeId(m) {
      assert NodeId(k) == k.ns + "/" + (k.kind + "/" + k.name);
      assert NodeId(m) == m.ns + "/" + (m.kind + "/" + m.name);
      SplitUnique(k.ns, k.kind + "/" + k.name, m.ns, m.kind + "/" + m.name, '/');
      SplitUnique(k.kind, k.name, m.kind, m.name, '/');
    }
  }

  lemma {:induction false} EdgeIdInjective(k: EdgeKey, m: EdgeKey)
    requires PlainEdge(k) && PlainEdge(m)
    ensures EdgeId(k) == EdgeId(m) <==> k == m
  {
    if EdgeId(k) == EdgeId(m) {
      var kr, mr := k.proto + "|" + Decimal(k.port), m.proto + "|" + Decimal(m.port);
      assert EdgeId(k) == NodeId(k.src) + "|" + (NodeId(k.dst) + "|" + kr);
      assert EdgeId(m) == NodeId(m.src) + "|" + (NodeId(m.dst) + "|" + mr);
      SplitUnique(NodeId(k.src), NodeId(k.dst) + "|" + kr, NodeId(m.src), NodeId(m.dst) + "|" + mr, '|');
      SplitUnique(NodeId(k.dst), kr, NodeId(m.dst), mr, '|');
      SplitUnique(k.proto, Decimal(k.port), m.proto, Decimal(m.port), '|');
      NodeIdInjective(k.src, m.src);
      NodeIdInjective(k.dst, m.dst);
      DecimalValue(k.port);
      DecimalValue(m.port);
    }
  }

  /** Without the restriction on slashes two keys can share an id. */
  lemma SlashesCollide()
    ensures var k, m := NodeKey("a/b", "c", "d"), NodeKey("a", "b/c", "d");
            k != m && NodeId(k) == NodeId(m)
  {
  }

  /** The browser reads the namespace off an id by splitting at the first slash. */
  lemma {:induction false} NamespaceOfId(k: NodeKey)
    ensures Before(NodeId(k), '/') == k.ns <==> '/' !in k.ns
  {
    assert NodeId(k) == k.ns + "/" + (k.kind + "/" + k.name);
    if '/' !in k.ns {
      BeforeSeparator(k.ns, '/', k.kind + "/" + k.name);
    }
    BeforeAvoids(NodeId(k), '/');
  }

  lemma {:induction false} BeforeAvoids(s: string, c: char)
    ensures c !in Before(s, c)
  {
    if s != [] && s[0] != c {
      BeforeAvoids(s[1..], c);
    }
  }
}
