/** Which machine a workload is shown on (internal/graph/graph.go, placeOn): the one its
    pods were seen on most often. */
module Placement {

  datatype Placed = Placed(machines: map<string, nat>, machine: string)

  const NOWHERE: Placed := Placed(map[], "")

  function Seen(p: Placed, m: string): nat {
    if m in p.machines then p.machines[m] else 0
  }

  /** One flow observed on `m`: the incumbent yields only to a machine seen more often. */
  function Place(p: Placed, m: string): Placed {
    var machines := p.machines[m := Seen(p, m) + 1];
    var p' := p.(machines := machines);
    if Seen(p', m) > Seen(p', p.machine) || p.machine == "" then p'.(machine := m) else p'
  }

  function PlaceAll(ms: seq<string>): Placed {
    if ms == [] then NOWHERE else Place(PlaceAll(ms[..|ms| - 1]), ms[|ms| - 1])
  }

  function Count(ms: seq<string>, m: string): nat {
    if ms == [] then 0 else Count(ms[..|ms| - 1], m) + (if ms[|ms| - 1] == m then 1 else 0)
  }

  lemma {:induction false} PlaceAllCounts(ms: seq<string>, m: string)
    ensures Seen(PlaceAll(ms), m) == Count(ms, m)
  {
    if ms != [] {
      PlaceAllCounts(ms[..|ms| - 1], m);
    }
  }

  /** After the first `k` observations `m` had been seen more often than any other machine,
      and no machine has been seen more often to this day. */
  ghost predicate LedFrom(ms: seq<string>, m: string, k: nat) {
    && k <= |ms|
    && Count(ms[..k], m) == Count(ms, m)
    && (forall x :: x != m ==> Count(ms[..k], x) < Count(ms, m))
    && (forall x :: Count(ms, x) <= Count(ms, m))
  }

  /** The machine shown has the maximal count, and of all machines that have it, it is the
      one that reached it first: a tie keeps the incumbent. */
  lemma {:induction false} MachineIsFirstLeader(ms: seq<string>)
    requires ms != [] && "" !in ms
    ensures var m := PlaceAll(ms).machine; m in ms && exists k: nat :: LedFrom(ms, m, k)
  {
    var init, last := ms[..|ms| - 1], ms[|ms| - 1];
    PlaceAllCounts(ms, last);
    PlaceAllCounts(ms, PlaceAll(init).machine);
    var m := PlaceAll(ms).machine;
    assert Place(PlaceAll(init), last) == PlaceAll(ms);
    if init == [] {
      assert ms[..1] == ms;
      assert LedFrom(ms, last, 1);
    } else {
      MachineIsFirstLeader(init);
      var m0 := PlaceAll(init).machine;
      var k: nat :| LedFrom(init, m0, k);
      PlaceAllCounts(init, last);
      PlaceAllCounts(init, m0);
      if m == m0 && last != m0 {
        LeaderStays(ms, m0, k);
      } else {
        NewLeader(ms, m0, k);
      }
    }
  }

  lemma LeaderStays(ms: seq<string>, m: string, k: nat)
    requires ms != [] && LedFrom(ms[..|ms| - 1], m, k) && ms[|ms| - 1] != m
    requires Count(ms, ms[|ms| - 1]) <= Count(ms, m)
    ensures LedFrom(ms, m, k)
  {
    assert ms[..k] == ms[..|ms| - 1][..k];
  }

  lemma NewLeader(ms: seq<string>, m: string, k: nat)
    requires ms != [] && LedFrom(ms[..|ms| - 1], m, k)
    requires Count(ms[..|ms| - 1], ms[|ms| - 1]) >= Count(ms[..|ms| - 1], m)
    ensures LedFrom(ms, ms[|ms| - 1], |ms|)
  {
    var init, last := ms[..|ms| - 1], ms[|ms| - 1];
    assert ms[..|ms|] == ms;
    forall x | x != last ensures Count(ms, x) < Count(ms, last) {
      assert Count(init, x) <= Count(init, m);
    }
  }
}
