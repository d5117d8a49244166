/** Sparks on their way (web/src/particles.ts): parallel arrays of which the first `alive`
    entries are in use, advanced and thinned out in place by one loop. */
module Particles {

  /** One particle; its `cp` is the control-point slot of the arc it travels. */
  datatype Particle = Particle(t: real, speed: real, cp: nat, verdict: nat, baseSize: real, size: real)

  const STOP: real := 0.72
  const BURST: real := 0.14
  const DROPPED: nat := 1

  /** How far a dropped particle is into its burst, and how much it has grown. */
  function Burst(t: real): real {
    (t - STOP) / BURST
  }

  function Grown(baseSize: real, k: real): real {
    baseSize * (1.0 + k * 3.0)
  }

  /** What is left of a particle that comes to `t`: nothing if its arc is gone, its way is
      done, or its burst is over. */
  function Arrived(p: Particle, t: real, valid: seq<bool>): seq<Particle> {
    if !(p.cp < |valid| && valid[p.cp]) then []
    else if p.verdict == DROPPED then
      if t <= STOP then [p.(t := t)]
      else if Burst(t) >= 1.0 then []
      else [p.(t := t, size := Grown(p.baseSize, Burst(t)))]
    else if t >= 1.0 then []
    else [p.(t := t, size := p.baseSize)]
  }

  function Moved(t: real, speed: real, dt: real): real {
    t + speed * dt
  }

  function Advanced(p: Particle, dt: real, valid: seq<bool>): seq<Particle> {
    Arrived(p, Moved(p.t, p.speed, dt), valid)
  }

  /** One frame, as a function of a particle. */
  function Advance(dt: real, valid: seq<bool>): Particle -> seq<Particle> {
    p => Advanced(p, dt, valid)
  }

  function FilterMap<T>(f: T -> seq<T>, ps: seq<T>): seq<T> {
    if ps == [] then [] else FilterMap(f, ps[..|ps| - 1]) + f(ps[|ps| - 1])
  }

  lemma {:induction false} FilterMapConcat<T>(f: T -> seq<T>, a: seq<T>, b: seq<T>)
    ensures FilterMap(f, a + b) == FilterMap(f, a) + FilterMap(f, b)
  {
    if b == [] {
      assert a + b == a;
    } else {
      assert (a + b)[..|a + b| - 1] == a + b[..|b| - 1];
      FilterMapConcat(f, a, b[..|b| - 1]);
    }
  }

  lemma FilterMapOne<T>(f: T -> seq<T>, p: T)
    ensures FilterMap(f, [p]) == f(p)
  {
  }

  lemma FilterMapMiddle<T>(f: T -> seq<T>, a: seq<T>, x: T, b: seq<T>)
    ensures multiset(FilterMap(f, a + [x] + b)) == multiset(FilterMap(f, a + b)) + multiset(f(x))
  {
    FilterMapConcat(f, a + [x], b);
    FilterMapConcat(f, a, [x]);
    FilterMapConcat(f, a, b);
    FilterMapOne(f, x);
  }

  /** Taking out one of several equal elements. */
  lemma TakeOut<T>(s: seq<T>, x: T) returns (a: seq<T>, b: seq<T>)
    requires x in multiset(s)
    ensures s == a + [x] + b && multiset(a + b) == multiset(s) - multiset{x}
  {
    var i :| 0 <= i < |s| && s[i] == x;
    a, b := s[..i], s[i + 1..];
    assert s == a + [x] + b;
  }

  /** The multiset a frame yields does not depend on the order of the particles. */
  lemma {:induction false} FilterMapBag<T>(f: T -> seq<T>, ps: seq<T>, qs: seq<T>)
    requires multiset(ps) == multiset(qs)
    ensures multiset(FilterMap(f, ps)) == multiset(FilterMap(f, qs))
    decreases |ps|
  {
    if ps == [] {
      assert |multiset(qs)| == 0;
    } else {
      var x := ps[0];
      assert x in multiset(ps);
      var a, b := TakeOut(ps, x);
      var c, d := TakeOut(qs, x);
      FilterMapBag(f, a + b, c + d);
      FilterMapMiddle(f, a, x, b);
      FilterMapMiddle(f, c, x, d);
    }
  }

  lemma AdvancedOnTheWay(p: Particle, dt: real, valid: seq<bool>, q: Particle)
    requires q in Advanced(p, dt, valid)
    ensures q.t < 1.0 && (q.verdict == DROPPED ==> q.t < STOP + BURST)
    ensures q.cp < |valid| && valid[q.cp]
    ensures q == p.(t := Moved(p.t, p.speed, dt), size := q.size)
  {
  }

  /** Every survivor of a frame is still on its way - short of the end, or short of the end
      of its burst if it was dropped - its arc is drawn, and it moved by its own speed. */
  lemma {:induction false} SurvivorsOnTheWay(ps: seq<Particle>, dt: real, valid: seq<bool>, q: Particle)
    requires q in FilterMap(Advance(dt, valid), ps)
    ensures q.t < 1.0 && (q.verdict == DROPPED ==> q.t < STOP + BURST)
    ensures q.cp < |valid| && valid[q.cp]
    ensures exists p :: p in ps && q == p.(t := Moved(p.t, p.speed, dt), size := q.size)
    decreases ps
  {
    var p := ps[|ps| - 1];
    if q in Advance(dt, valid)(p) {
      assert p in ps;
      AdvancedOnTheWay(p, dt, valid, q);
    } else {
      SurvivorsOnTheWay(ps[..|ps| - 1], dt, valid, q);
    }
  }

  /** A particle that comes to `t` lives exactly if its arc is laid out and `t` is short of the
      end: the end of its way, or for a dropped one the end of its burst. */
  predicate LivesAt(p: Particle, t: real, valid: seq<bool>) {
    p.cp < |valid| && valid[p.cp] && t < if p.verdict == 1 then 0.86 else 1.0
  }

  /** A dropped particle keeps its size up to 0.72 of its way and then grows to four times its
      base size; any other has its base size. */
  function SizeAt(p: Particle, t: real): real {
    if p.verdict != 1 then p.baseSize
    else if t <= 0.72 then p.size
    else p.baseSize + 3.0 * p.baseSize * ((t - 0.72) / 0.14)
  }

  function SurvivorAt(p: Particle, t: real, valid: seq<bool>): seq<Particle> {
    if LivesAt(p, t, valid) then [p.(t := t, size := SizeAt(p, t))] else []
  }

  /** Where a frame of `dt` seconds takes it. */
  function Reached(p: Particle, dt: real): real {
    p.t + p.speed * dt
  }

  function Survivor(p: Particle, dt: real, valid: seq<bool>): seq<Particle> {
    SurvivorAt(p, Reached(p, dt), valid)
  }

  function Survivors(ps: seq<Particle>, dt: real, valid: seq<bool>): seq<Particle>
    decreases ps
  {
    if ps == [] then [] else Survivors(ps[..|ps| - 1], dt, valid) + Survivor(ps[|ps| - 1], dt, valid)
  }

  lemma GrownSize(b: real, t: real)
    ensures Grown(b, Burst(t)) == b + 3.0 * b * ((t - 0.72) / 0.14)
  {
    var k := (t - 0.72) / 0.14;
    assert Burst(t) == k;
    assert b * (1.0 + k * 3.0) == b + 3.0 * b * k;
  }

  lemma BurstEnds(t: real)
    ensures Burst(t) >= 1.0 <==> t >= 0.86
  {
    assert Burst(t) * 0.14 == t - 0.72;
  }

  /** Exactly which particles survive, and as what. */
  lemma ArrivedExactly(p: Particle, t: real, valid: seq<bool>)
    ensures Arrived(p, t, valid) == SurvivorAt(p, t, valid)
  {
    BurstEnds(t);
    if LivesAt(p, t, valid) && p.verdict == DROPPED && STOP < t {
      GrownSize(p.baseSize, t);
      assert SizeAt(p, t) == Grown(p.baseSize, Burst(t));
      assert Arrived(p, t, valid) == [p.(t := t, size := Grown(p.baseSize, Burst(t)))];
    } else if LivesAt(p, t, valid) {
      assert Arrived(p, t, valid) == [p.(t := t, size := SizeAt(p, t))];
    } else {
      assert Arrived(p, t, valid) == [];
    }
  }

  lemma AdvancedExactly(p: Particle, dt: real, valid: seq<bool>)
    ensures Advanced(p, dt, valid) == Survivor(p, dt, valid)
  {
    ArrivedExactly(p, Moved(p.t, p.speed, dt), valid);
    assert Moved(p.t, p.speed, dt) == Reached(p, dt);
  }

  lemma {:induction false} FrameExactly(ps: seq<Particle>, dt: real, valid: seq<bool>)
    ensures FilterMap(Advance(dt, valid), ps) == Survivors(ps, dt, valid)
    decreases ps
  {
    if ps != [] {
      var f, init, p := Advance(dt, valid), ps[..|ps| - 1], ps[|ps| - 1];
      FrameExactly(init, dt, valid);
      AdvancedExactly(p, dt, valid);
      assert f(p) == Survivor(p, dt, valid);
      assert FilterMap(f, ps) == FilterMap(f, init) + f(p);
    }
  }

  function NumberLiving(ps: seq<Particle>, dt: real, valid: seq<bool>): nat
    decreases ps
  {
    if ps == [] then 0
    else NumberLiving(ps[..|ps| - 1], dt, valid) +
         if LivesAt(ps[|ps| - 1], Reached(ps[|ps| - 1], dt), valid) then 1 else 0
  }

  lemma {:induction false} SurvivorsCounted(ps: seq<Particle>, dt: real, valid: seq<bool>)
    ensures |Survivors(ps, dt, valid)| == NumberLiving(ps, dt, valid)
    decreases ps
  {
    if ps != [] {
      SurvivorsCounted(ps[..|ps| - 1], dt, valid);
    }
  }

  /** The speed and the size of a new particle; chance varies both. */
  function PickedSpeed(kind: nat, u: real): (v: real)
    ensures 0.0 <= u < 1.0 ==> if kind == 2 then 0.4675 <= v < 0.6325 else 0.68 <= v < 0.92
  {
    (if kind == 2 then 0.55 else 0.8) * (0.85 + u * 0.3)
  }

  function PickedSize(kind: nat, big: bool, w: real): (b: real)
    ensures 0.0 <= w < 1.0 && !big ==> if kind == 0 then 0.44 <= b < 0.66 else 0.64 <= b < 0.96
    ensures 0.0 <= w < 1.0 && big ==> if kind == 0 then 0.704 <= b < 1.056 else 1.024 <= b < 1.536
  {
    (if kind == 0 then 0.55 else 0.8) * (if big then 1.6 else 1.0) * (0.8 + w * 0.4)
  }

  function Spawned(slot: nat, kind: nat, big: bool, u: real, w: real): Particle {
    var b := PickedSize(kind, big, w);
    Particle(0.0, PickedSpeed(kind, u), slot, kind, b, b)
  }

  class Particles {
    const capacity: nat
    const t: array<real>
    const speed: array<real>
    const cp: array<nat>
    const verdict: array<nat>
    const baseSize: array<real>
    const size: array<real>
    var alive: nat

    ghost predicate Valid()
      reads this
    {
      && t.Length == speed.Length == cp.Length == verdict.Length == baseSize.Length == size.Length == capacity
      && t != speed && t != baseSize && t != size && speed != baseSize && speed != size && baseSize != size
      && cp != verdict
      && alive <= capacity
    }

    /** The particle at an index, gathered from the arrays. */
    ghost function At(i: nat): Particle
      requires Valid() && i < capacity
      reads this, t, speed, cp, verdict, baseSize, size
    {
      Particle(t[i], speed[i], cp[i], verdict[i], baseSize[i], size[i])
    }

    ghost function Slice(lo: nat, hi: nat): (ps: seq<Particle>)
      requires Valid() && lo <= hi <= capacity
      reads this, t, speed, cp, verdict, baseSize, size
      ensures |ps| == hi - lo
      ensures forall k :: 0 <= k < hi - lo ==> ps[k] == At(lo + k)
    {
      seq(hi - lo, k requires 0 <= k < hi - lo && Valid() && hi <= capacity
                     reads this, t, speed, cp, verdict, baseSize, size => At(lo + k))
    }

    lemma SliceFront(lo: nat, hi: nat)
      requires Valid() && lo < hi <= capacity
      ensures Slice(lo, hi) == [At(lo)] + Slice(lo + 1, hi)
    {
    }

    lemma SliceBack(hi: nat)
      requires Valid() && hi < capacity
      ensures Slice(0, hi + 1) == Slice(0, hi) + [At(hi)]
    {
    }

    ghost function Live(): seq<Particle>
      requires Valid()
      reads this, t, speed, cp, verdict, baseSize, size
    {
      Slice(0, alive)
    }

    constructor (capacity: nat)
      ensures Valid() && this.capacity == capacity && Live() == []
    {
      this.capacity := capacity;
      t, speed, baseSize, size := new real[capacity], new real[capacity], new real[capacity], new real[capacity];
      cp, verdict := new nat[capacity], new nat[capacity];
      alive := 0;
    }

    /** `u` and `w` are what the source of chance returns. */
    method Spawn(slot: nat, kind: nat, big: bool, u: real, w: real, valid: seq<bool>)
      requires Valid()
      modifies this`alive, t, speed, cp, verdict, baseSize, size
      ensures Valid()
      ensures Live() == old(Live()) +
                if old(alive) < capacity && slot < |valid| && valid[slot]
                then [Spawned(slot, kind, big, u, w)] else []
    {
      if alive >= capacity || !(slot < |valid| && valid[slot]) {
        return;
      }
      ghost var was := Live();
      var i := alive;
      alive := alive + 1;
      t[i], cp[i], verdict[i] := 0.0, slot, kind;
      speed[i], baseSize[i] := PickedSpeed(kind, u), PickedSize(kind, big, w);
      size[i] := baseSize[i];
      assert forall k :: 0 <= k < i ==> At(k) == was[k];
      assert At(i) == Spawned(slot, kind, big, u, w);
    }

    /** The last live particle takes the place of a dead one. */
    method Kill(i: nat)
      requires Valid() && i < alive
      modifies this`alive, t, speed, cp, verdict, baseSize, size
      ensures Valid() && alive == old(alive) - 1
      ensures forall k :: 0 <= k < alive ==> At(k) == if k == i then old(At(alive - 1)) else old(At(k))
    {
      alive := alive - 1;
      var last := alive;
      if i == last {
        return;
      }
      t[i], speed[i], cp[i] := t[last], speed[last], cp[last];
      verdict[i], baseSize[i], size[i] := verdict[last], baseSize[last], size[last];
    }

    /** Killing `i` keeps what is done and puts the last of the rest first. */
    method KillStep(i: nat, ghost done: seq<Particle>, ghost rest: seq<Particle>)
      requires Valid() && i < alive && Slice(0, i) == done && Slice(i + 1, alive) == rest
      modifies this`alive, t, speed, cp, verdict, baseSize, size
      ensures Valid() && alive == old(alive) - 1
      ensures Slice(0, i) == done && multiset(Slice(i, alive)) == multiset(rest)
    {
      Kill(i);
      SwapRemoved(rest, Slice(i, alive));
    }

    /** Writes what is left of particle `i`, or reports that nothing is. */
    method Step(i: nat, dt: real, valid: seq<bool>) returns (lives: bool)
      requires Valid() && i < alive
      modifies t, size
      ensures Valid()
      ensures Advanced(old(At(i)), dt, valid) == if lives then [At(i)] else []
      ensures Slice(0, i) == old(Slice(0, i)) && Slice(i + 1, alive) == old(Slice(i + 1, alive))
    {
      lives := Arrive(i, Moved(t[i], speed[i], dt), valid);
    }

    method Arrive(i: nat, next: real, valid: seq<bool>) returns (lives: bool)
      requires Valid() && i < alive
      modifies t, size
      ensures Valid()
      ensures Arrived(old(At(i)), next, valid) == if lives then [At(i)] else []
      ensures forall k :: 0 <= k < capacity && k != i ==> At(k) == old(At(k))
    {
      ghost var p := At(i);
      var slot := cp[i];
      if !(slot < |valid| && valid[slot]) {
        return false;
      }
      if verdict[i] == DROPPED {
        if next > STOP {
          var k := Burst(next);
          size[i] := Grown(baseSize[i], k);
          if k >= 1.0 {
            return false;
          }
        }
      } else if next >= 1.0 {
        return false;
      } else {
        size[i] := baseSize[i];
      }
      t[i] := next;
      assert At(i) == p.(t := next, size := size[i]);
      return true;
    }

    /** What is done, and what the rest will be. */
    ghost function Bag(i: nat, f: Particle -> seq<Particle>): multiset<Particle>
      requires Valid() && i <= alive
      reads this, t, speed, cp, verdict, baseSize, size
    {
      multiset(Slice(0, i)) + multiset(FilterMap(f, Slice(i, alive)))
    }

    /** One turn of the loop: the index moves on, or the particle at it is replaced. */
    method Visit(i: nat, dt: real, valid: seq<bool>) returns (next: nat)
      requires Valid() && i < alive
      modifies this`alive, t, speed, cp, verdict, baseSize, size
      ensures Valid() && next <= alive <= old(alive) && alive - next < old(alive) - i
      ensures Bag(next, Advance(dt, valid)) == old(Bag(i, Advance(dt, valid)))
    {
      ghost var f := Advance(dt, valid);
      ghost var done, p, rest := Slice(0, i), At(i), Slice(i + 1, alive);
      SliceFront(i, alive);
      FrameStep(f, done, p, rest);
      assert f(p) == Advanced(p, dt, valid);
      var lives := Step(i, dt, valid);
      if lives {
        SliceBack(i);
        next := i + 1;
      } else {
        KillStep(i, done, rest);
        FilterMapBag(f, rest, Slice(i, alive));
        next := i;
      }
    }

    /** The in-place loop is an exact filter-map: what lives afterwards is what the live
        particles advance to, each once, in some order. */
    method Update(dt: real, valid: seq<bool>)
      requires Valid()
      modifies this`alive, t, speed, cp, verdict, baseSize, size
      ensures Valid() && alive <= old(alive)
      ensures multiset(Live()) == multiset(Survivors(old(Live()), dt, valid))
      ensures alive == NumberLiving(old(Live()), dt, valid)
    {
      ghost var was := Live();
      ghost var f := Advance(dt, valid);
      ghost var goal := multiset(FilterMap(f, Live()));
      BagStart(f);
      var i: nat := 0;
      while i < alive
        invariant Valid() && i <= alive <= old(alive)
        invariant Bag(i, f) == goal
        decreases alive - i
      {
        i := Visit(i, dt, valid);
      }
      BagEnd(f);
      FrameExactly(was, dt, valid);
      SurvivorsCounted(was, dt, valid);
      assert |multiset(Live())| == |multiset(Survivors(was, dt, valid))|;
    }

    lemma BagStart(f: Particle -> seq<Particle>)
      requires Valid()
      ensures Bag(0, f) == multiset(FilterMap(f, Live()))
    {
    }

    lemma BagEnd(f: Particle -> seq<Particle>)
      requires Valid()
      ensures Bag(alive, f) == multiset(Live())
    {
    }
  }

  lemma FrameStep<T>(f: T -> seq<T>, done: seq<T>, p: T, rest: seq<T>)
    ensures multiset(done) + multiset(FilterMap(f, [p] + rest)) ==
            multiset(done + f(p)) + multiset(FilterMap(f, rest))
  {
    FilterMapConcat(f, [p], rest);
    FilterMapOne(f, p);
  }

  /** Moving the last of the unvisited to their front loses and doubles none. */
  lemma SwapRemoved(rest: seq<Particle>, moved: seq<Particle>)
    requires |moved| == |rest|
    requires forall k :: 0 <= k < |moved| ==> moved[k] == if k == 0 then rest[|rest| - 1] else rest[k - 1]
    ensures multiset(moved) == multiset(rest)
  {
    if rest == [] {
      assert moved == [];
    } else {
      var init, x := rest[..|rest| - 1], rest[|rest| - 1];
      assert rest == init + [x];
      assert moved == [x] + init;
    }
  }
}
