/** The bounded counter behind drop reasons and layer-7 paths (internal/graph/l7.go):
    once it holds topN keys, anything new lands in "other". */
module TopCounter {

  const TOP_N: nat := 8
  const OTHER: string := "other"

  function Get(m: map<string, nat>, key: string): nat {
    if key in m then m[key] else 0
  }

  /** Where a key is counted. */
  function CountedAs(m: map<string, nat>, key: string): string {
    if key !in m && |m| >= TOP_N then OTHER else key
  }

  function TopAdd(m: map<string, nat>, key: string): map<string, nat> {
    var k := CountedAs(m, key);
    m[k := Get(m, k) + 1]
  }

  class Counter {
    var entries: map<string, nat>

    constructor ()
      ensures entries == map[]
    {
      entries := map[];
    }

    method Add(key: string)
      modifies this
      ensures entries == TopAdd(old(entries), key)
    {
      var k := key;
      if key !in entries && |entries| >= TOP_N {
        k := OTHER;
      }
      entries := entries[k := (if k in entries then entries[k] else 0) + 1];
    }
  }

  /** The counter after a stream of keys. */
  function Fed(keys: seq<string>): map<string, nat> {
    if keys == [] then map[] else TopAdd(Fed(keys[..|keys| - 1]), keys[|keys| - 1])
  }

  function Occurrences(keys: seq<string>, key: string): nat {
    if keys == [] then 0
    else Occurrences(keys[..|keys| - 1], key) + (if keys[|keys| - 1] == key then 1 else 0)
  }

  ghost function Sum(m: map<string, nat>): nat {
    if m == map[] then 0 else var k :| k in m; m[k] + Sum(m - {k})
  }

  lemma {:induction false} SumSplit(m: map<string, nat>, k: string)
    requires k in m
    ensures Sum(m) == m[k] + Sum(m - {k})
    decreases |m|
  {
    var j :| j in m && Sum(m) == m[j] + Sum(m - {j});
    if j != k {
      SumSplit(m - {j}, k);
      SumSplit(m - {k}, j);
      assert m - {j} - {k} == m - {k} - {j};
    }
  }

  lemma SumAdd(m: map<string, nat>, k: string)
    ensures Sum(m[k := Get(m, k) + 1]) == Sum(m) + 1
  {
    var m' := m[k := Get(m, k) + 1];
    SumSplit(m', k);
    assert m' - {k} == m - {k};
    if k in m {
      SumSplit(m, k);
    } else {
      assert m - {k} == m;
    }
  }

  lemma KeysAdded(m: map<string, nat>, key: string)
    ensures TopAdd(m, key).Keys == m.Keys + {CountedAs(m, key)}
    ensures |TopAdd(m, key)| == if CountedAs(m, key) in m then |m| else |m| + 1
  {
  }

  /** Never more than topN + 1 keys, and the extra one is "other". */
  lemma {:induction false} FedBounded(keys: seq<string>)
    ensures |Fed(keys)| <= TOP_N + 1
    ensures |Fed(keys)| == TOP_N + 1 ==> OTHER in Fed(keys)
  {
    if keys != [] {
      var init, last := keys[..|keys| - 1], keys[|keys| - 1];
      FedBounded(init);
      KeysAdded(Fed(init), last);
    }
  }

  /** Every key of the stream is counted exactly once. */
  lemma {:induction false} FedConserves(keys: seq<string>)
    ensures Sum(Fed(keys)) == |keys|
  {
    if keys != [] {
      var init, last := keys[..|keys| - 1], keys[|keys| - 1];
      FedConserves(init);
      SumAdd(Fed(init), CountedAs(Fed(init), last));
    }
  }

  /** A key that is not in the map while there is room has not occurred yet. */
  lemma {:induction false} AbsentIsUnseen(keys: seq<string>, k: string)
    ensures k !in Fed(keys) && |Fed(keys)| < TOP_N ==> Occurrences(keys, k) == 0
  {
    if keys != [] {
      var init, last := keys[..|keys| - 1], keys[|keys| - 1];
      AbsentIsUnseen(init, k);
      KeysAdded(Fed(init), last);
    }
  }

  /** Each key but "other" carries its exact number of occurrences in the whole stream,
      those before it entered the map included. */
  lemma {:induction false} FedExact(keys: seq<string>, k: string)
    requires k in Fed(keys) && k != OTHER
    ensures Fed(keys)[k] == Occurrences(keys, k)
  {
    var init, last := keys[..|keys| - 1], keys[|keys| - 1];
    KeysAdded(Fed(init), last);
    if k in Fed(init) {
      FedExact(init, k);
    } else {
      AbsentIsUnseen(init, k);
    }
  }
}
