/** Where each arc is drawn (web/src/edges.ts): three batches of segments by line width, a
    stack of free places per batch, and an index from a place back to its arc. */
module EdgeSlots {
  import opened Wire
  import B = Board

  /** Batches by line width, places in a batch, segments of an arc, and places in all. */
  const BATCHES: nat := 3
  const CAPACITY: nat := 2048
  const SEGMENTS: nat := 14
  const PLACES: nat := 6144

  /** The global slot of a place. */
  function Cp(batch: nat, index: nat): nat {
    batch * CAPACITY + index
  }

  lemma CpInjective(b: nat, i: nat, c: nat, j: nat)
    requires i < CAPACITY && j < CAPACITY
    ensures Cp(b, i) == Cp(c, j) <==> b == c && i == j
  {
  }

  /** The batch that a rate calls for. */
  function Want(rate: real): nat {
    if rate < 1.0 then 0 else if rate < 20.0 then 1 else 2
  }

  /** The three batches in numbers; a busier arc is never in a thinner batch. */
  lemma WantExactly(rate: real, more: real)
    ensures Want(rate) == 0 <==> rate < 1.0
    ensures Want(rate) == 2 <==> 20.0 <= rate
    ensures Want(rate) < BATCHES && (rate <= more ==> Want(rate) <= Want(more))
  {
  }

  class EdgeSlot {
    const id: EdgeKey
    const batch: nat
    const index: nat
    const cp: nat
    var same: bool
    var alpha: real
    var hidden: bool
    var rate: real

    constructor (id: EdgeKey, batch: nat, index: nat, same: bool)
      ensures this.id == id && this.batch == batch && this.index == index && this.cp == Cp(batch, index)
      ensures this.same == same && alpha == 1.0 && !hidden && rate == 0.0
    {
      this.id, this.batch, this.index, this.cp := id, batch, index, Cp(batch, index);
      this.same, alpha, hidden, rate := same, 1.0, false, 0.0;
    }
  }

  /** A place on the board: which arc is drawn at which slot. */
  predicate Fits(s: EdgeSlot) {
    s.batch < BATCHES && s.index < CAPACITY && s.cp == Cp(s.batch, s.index)
  }

  predicate Distinct(xs: seq<int>) {
    forall i, j :: 0 <= i < j < |xs| ==> xs[i] != xs[j]
  }

  /** The places of the arcs, and those with control points. */
  ghost function BoardOf(slots: map<EdgeKey, EdgeSlot>, valid: seq<bool>): B.Board {
    B.Board(map id | id in slots :: slots[id].cp, set p: nat | p < |valid| && valid[p])
  }

  class Edges {
    var free: seq<seq<int>>
    var slots: map<EdgeKey, EdgeSlot>
    const bySlot: array<EdgeSlot?>
    const cpValid: array<bool>

    /** The reverse index is the exact inverse of the slots. */
    ghost predicate Inverse()
      reads this, bySlot
    {
      && bySlot.Length == PLACES
      && (forall id :: id in slots ==> slots[id].id == id && Fits(slots[id]) && bySlot[slots[id].cp] == slots[id])
      && (forall p :: 0 <= p < PLACES && bySlot[p] != null ==>
            bySlot[p].cp == p && bySlot[p].id in slots && slots[bySlot[p].id] == bySlot[p])
    }

    /** Each stack lists every empty place of its batch once: with the places in use it
        partitions the batch. */
    ghost predicate StacksExact()
      reads this, bySlot
      requires bySlot.Length == PLACES
    {
      && |free| == BATCHES
      && (forall b :: 0 <= b < BATCHES ==> Distinct(free[b]))
      && (forall b, i :: 0 <= b < BATCHES && i in free[b] ==> 0 <= i < CAPACITY)
      && (forall b: nat, i: nat :: b < BATCHES && i < CAPACITY ==> (i in free[b] <==> bySlot[Cp(b, i)] == null))
    }

    /** Only a slot in use has control points. */
    ghost predicate ValidOwned()
      reads this, bySlot, cpValid
      requires bySlot.Length == PLACES
    {
      cpValid.Length == PLACES && forall p :: 0 <= p < PLACES && cpValid[p] ==> bySlot[p] != null
    }

    ghost predicate Valid()
      reads this, bySlot, cpValid
    {
      bySlot as object != cpValid && Inverse() && StacksExact() && ValidOwned()
    }

    ghost function OnBoard(): B.Board
      reads this, cpValid
    {
      BoardOf(slots, cpValid[..])
    }

    lemma BoardIsOk()
      requires Valid()
      ensures B.Ok(OnBoard())
    {
      forall p | p in OnBoard().valid ensures p in OnBoard().arcs.Values {
        assert OnBoard().arcs[bySlot[p].id] == p;
      }
    }

    constructor ()
      ensures Valid() && slots == map[]
      ensures forall b :: 0 <= b < BATCHES ==> |free[b]| == CAPACITY
    {
      bySlot := new EdgeSlot?[PLACES](_ => null);
      cpValid := new bool[PLACES](_ => false);
      slots := map[];
      var stack := seq(CAPACITY, i requires 0 <= i < CAPACITY => CAPACITY - 1 - i);
      free := [stack, stack, stack];
      new;
      forall i: nat | i < CAPACITY ensures i in stack {
        assert stack[CAPACITY - 1 - i] == i;
      }
      assert free[0] == free[1] == free[2] == stack;
    }

    /** Takes the place on top of a batch's stack; a full batch draws nothing. */
    method Place(id: EdgeKey, batch: nat, same: bool) returns (slot: EdgeSlot?)
      requires Valid() && id !in slots && batch < BATCHES
      modifies this, bySlot
      ensures Valid()
      ensures slot == null <==> old(free[batch]) == []
      ensures slot == null ==> slots == old(slots) && free == old(free)
      ensures slot != null ==>
                && fresh(slot) && slot.id == id && slot.batch == batch && slot.same == same
                && id in slots && slots[id] == slot && slots == old(slots)[id := slot]
                && free == old(free)[batch := old(free[batch])[..|old(free[batch])| - 1]]
                && slot.index == old(free[batch])[|old(free[batch])| - 1]
                && !cpValid[slot.cp]
                && B.Enabled(old(OnBoard()), B.Takes(id, slot.cp))
                && OnBoard() == B.Do(old(OnBoard()), B.Takes(id, slot.cp))
    {
      var stack := free[batch];
      if |stack| == 0 {
        return null;
      }
      var top := |stack| - 1;
      var index := stack[top];
      assert index in stack;
      free := free[batch := stack[..top]];
      slot := new EdgeSlot(id, batch, index, same);
      slots := slots[id := slot];
      bySlot[slot.cp] := slot;
      PopExact(old(free), old(bySlot[..]), bySlot[..], batch, slot);
      TakenOnBoard(old(slots), old(bySlot[..]), slot, cpValid[..]);
    }

    method Add(id: EdgeKey, same: bool)
      requires Valid()
      modifies this, bySlot
      ensures Valid()
      ensures id in old(slots) || old(free[0]) == [] ==> slots == old(slots) && free == old(free)
      ensures id !in old(slots) && old(free[0]) != [] ==>
                && id in slots && slots == old(slots)[id := slots[id]]
                && slots[id].batch == 0 && slots[id].same == same
                && slots[id].index == old(free[0])[|old(free[0])| - 1]
                && free == old(free)[0 := old(free[0])[..|old(free[0])| - 1]]
                && B.Enabled(old(OnBoard()), B.Takes(id, slots[id].cp))
                && OnBoard() == B.Do(old(OnBoard()), B.Takes(id, slots[id].cp))
    {
      if id in slots {
        return;
      }
      var slot := Place(id, 0, same);
    }

    /** Gives a place back; its arc is off the map already. */
    method Clear(slot: EdgeSlot)
      requires bySlot as object != cpValid && bySlot.Length == PLACES && Fits(slot) && bySlot[slot.cp] == slot
      requires StacksExact() && ValidOwned()
      requires slot.id !in slots
      requires forall id :: id in slots ==> slots[id].id == id && Fits(slots[id]) && bySlot[slots[id].cp] == slots[id]
      requires forall p :: 0 <= p < PLACES && bySlot[p] != null && p != slot.cp ==>
                 bySlot[p].cp == p && bySlot[p].id in slots && slots[bySlot[p].id] == bySlot[p]
      modifies this`free, bySlot, cpValid
      ensures Valid()
      ensures free == old(free)[slot.batch := old(free[slot.batch]) + [slot.index]]
      ensures forall p :: 0 <= p < PLACES ==> (cpValid[p] <==> old(cpValid[p]) && p != slot.cp)
    {
      free := free[slot.batch := free[slot.batch] + [slot.index]];
      cpValid[slot.cp] := false;
      bySlot[slot.cp] := null;
      PushExact(old(free), old(bySlot[..]), bySlot[..], slot);
    }

    method Remove(id: EdgeKey)
      requires Valid()
      modifies this, bySlot, cpValid
      ensures Valid() && slots == old(slots) - {id}
      ensures id in old(slots) ==>
                var s := old(slots[id]);
                && free == old(free)[s.batch := old(free[s.batch]) + [s.index]]
                && forall p :: 0 <= p < PLACES ==> (cpValid[p] <==> old(cpValid[p]) && p != s.cp)
      ensures id !in old(slots) ==> free == old(free)
      ensures OnBoard() == B.Do(old(OnBoard()), B.Removes(id))
    {
      ghost var valid := cpValid[..];
      if id !in slots {
        MinusAbsent(slots, id);
        MinusAbsent(OnBoard().arcs, id);
        assert B.PlacesOf(OnBoard(), {id}) == {};
        return;
      }
      var slot := slots[id];
      slots := slots - {id};
      Clear(slot);
      RemovedOnBoard(old(slots), id, valid, cpValid[..]);
    }

    /** The arc drawn at a segment, if any: the one whose place it is. */
    method IdAt(batch: nat, segment: nat) returns (r: Option<EdgeKey>)
      requires Valid() && batch < BATCHES && segment < CAPACITY * SEGMENTS
      ensures r.Some? ==>
                r.value in slots && slots[r.value].batch == batch && slots[r.value].index == segment / SEGMENTS
      ensures r.None? ==> forall id :: id in slots && slots[id].batch == batch ==> slots[id].index != segment / SEGMENTS
    {
      var index := segment / SEGMENTS;
      var slot := bySlot[Cp(batch, index)];
      if slot == null {
        return None;
      }
      CpInjective(slot.batch, slot.index, batch, index);
      return Some(slot.id);
    }

    method Carry(slot: EdgeSlot, alpha: real, hidden: bool, rate: real)
      requires Valid()
      modifies slot
      ensures Valid()
      ensures slot.alpha == alpha && slot.hidden == hidden && slot.rate == rate && slot.same == old(slot.same)
    {
      slot.alpha, slot.hidden, slot.rate := alpha, hidden, rate;
    }

    /** Gives up the place of an arc and takes one in another batch, with everything the
        arc carries. A full batch has no place for it: the arc is then drawn nowhere, and
        its old place is free. */
    method Rehome(id: EdgeKey, want: nat, rate: real) returns (moved: EdgeSlot?)
      requires Valid() && id in slots && want < BATCHES && want != slots[id].batch
      modifies this, bySlot, cpValid
      ensures Valid()
      ensures moved == null <==> old(free[want]) == []
      ensures forall p :: 0 <= p < PLACES ==> (cpValid[p] <==> old(cpValid[p]) && p != old(slots[id].cp))
      ensures moved == null ==> slots == old(slots) - {id}
      ensures moved != null ==> fresh(moved) && slots == old(slots)[id := moved]
      ensures moved != null ==> moved.batch == want && moved.rate == rate
      ensures moved != null ==> var s := old(slots[id]);
                moved.same == old(s.same) && moved.hidden == old(s.hidden) && moved.alpha == old(s.alpha)
      ensures moved == null ==> OnBoard() == B.Do(old(OnBoard()), B.Removes(id))
      ensures moved != null ==>
                && B.Legal(old(OnBoard()), [B.Removes(id), B.Takes(id, moved.cp)])
                && OnBoard() == B.Run(old(OnBoard()), [B.Removes(id), B.Takes(id, moved.cp)])
    {
      var slot := slots[id];
      ghost var was := slots;
      Remove(id);
      moved := Reseat(slot, want, rate);
      if moved != null {
        PutBack(was, id, moved);
        B.RunTwo(old(OnBoard()), B.Removes(id), B.Takes(id, moved.cp));
      }
    }

    /** The second half of a move: a place in the new batch, if it has one. */
    method Reseat(slot: EdgeSlot, want: nat, rate: real) returns (moved: EdgeSlot?)
      requires Valid() && slot.id !in slots && want < BATCHES
      modifies this, bySlot
      ensures Valid()
      ensures moved == null <==> old(free[want]) == []
      ensures moved == null ==> slots == old(slots)
      ensures moved != null ==>
                && fresh(moved) && slots == old(slots)[slot.id := moved] && moved.batch == want && moved.rate == rate
                && moved.same == slot.same && moved.hidden == slot.hidden && moved.alpha == slot.alpha
                && B.Enabled(old(OnBoard()), B.Takes(slot.id, moved.cp))
                && OnBoard() == B.Do(old(OnBoard()), B.Takes(slot.id, moved.cp))
    {
      moved := Place(slot.id, want, slot.same);
      if moved != null {
        Carry(moved, slot.alpha, slot.hidden, rate);
      }
    }

    /** The rate calls for another batch than the arc is in. */
    predicate Moves(id: EdgeKey, rate: real)
      reads this
    {
      id in slots && Want(rate) != slots[id].batch
    }

    /** Moves an arc to the batch its rate calls for. */
    method SetRate(id: EdgeKey, rate: real)
      requires Valid()
      modifies this, bySlot, cpValid, slots.Values
      ensures Valid()
      ensures !old(Moves(id, rate)) ==> slots == old(slots) && free == old(free)
      ensures id in slots ==> slots[id].rate == rate
      ensures forall p :: 0 <= p < PLACES ==>
                (cpValid[p] <==> old(cpValid[p]) && !(old(Moves(id, rate)) && p == old(slots[id]).cp))
      ensures old(Moves(id, rate)) && old(free[Want(rate)]) == [] ==> slots == old(slots) - {id}
      ensures old(Moves(id, rate)) && old(free[Want(rate)]) != [] ==>
                && id in slots && slots == old(slots)[id := slots[id]]
                && slots[id].batch == Want(rate) && slots[id].rate == rate
                && slots[id].same == old(slots[id].same) && slots[id].hidden == old(slots[id].hidden)
                && slots[id].alpha == old(slots[id].alpha)
      ensures var b, c := old(OnBoard()), if old(Moves(id, rate)) then RateChanges(id, slots) else [];
              B.Legal(b, c) && OnBoard() == B.Run(b, c)
    {
      if id !in slots {
        return;
      }
      var slot := slots[id];
      assert slot in slots.Values;
      slot.rate := rate;
      assert Valid();
      var want := Want(rate);
      if want == slot.batch {
        return;
      }
      var moved := Rehome(id, want, rate);
      if moved == null {
        B.RunOne(old(OnBoard()), B.Removes(id));
      }
    }

    /** Regrouping: every drawn arc that still exists must be laid out again. */
    method SetSame(known: set<EdgeKey>, same: set<EdgeKey>)
      requires Valid()
      modifies cpValid, slots.Values
      ensures Valid()
      ensures forall p :: 0 <= p < PLACES ==> (cpValid[p] <==> old(cpValid[p]) && !Draws(bySlot[p], known))
      ensures forall id :: id in slots ==>
                (slots[id].same <==> if id in known then id in same else old(slots[id].same))
      ensures OnBoard() == B.Do(old(OnBoard()), B.Forgets(known))
    {
      var todo := slots.Keys;
      ghost var places, valid := bySlot[..], cpValid[..];
      while todo != {}
        invariant todo <= slots.Keys
        invariant forall p :: 0 <= p < PLACES ==> (cpValid[p] <==> old(cpValid[p]) && !Draws(places[p], known - todo))
        invariant forall id :: id in slots ==>
                    (slots[id].same <==> if id in known - todo then id in same else old(slots[id].same))
        decreases todo
      {
        var id :| id in todo;
        OnePlace(id, places, known, todo);
        todo := todo - {id};
        if id in known {
          Forget(id, id in same);
        }
      }
      ForgottenOnBoard(slots, places, valid, cpValid[..], known);
    }

    /** One arc of a regrouping. */
    method Forget(id: EdgeKey, low: bool)
      requires Inverse() && id in slots && cpValid.Length == PLACES
      modifies cpValid, slots[id]
      ensures forall p :: 0 <= p < PLACES ==> (cpValid[p] <==> old(cpValid[p]) && p != slots[id].cp)
      ensures forall x :: x in slots ==> (slots[x].same <==> if x == id then low else old(slots[x].same))
    {
      slots[id].same := low;
      cpValid[slots[id].cp] := false;
    }

    /** An arc is drawn at its own place and at no other. */
    lemma OnePlace(id: EdgeKey, places: seq<EdgeSlot?>, ids: set<EdgeKey>, todo: set<EdgeKey>)
      requires Inverse() && id in slots && places == bySlot[..]
      ensures Fits(slots[id]) && slots[id].cp < PLACES
      ensures forall p :: 0 <= p < PLACES ==>
                (Draws(places[p], ids - (todo - {id})) <==>
                 Draws(places[p], ids - todo) || (p == slots[id].cp && id in ids))
    {
    }

    /** One arc of a frame. */
    method LayOut(cp: nat, placed: bool, moving: bool)
      requires cp < cpValid.Length
      modifies cpValid
      ensures forall p :: 0 <= p < cpValid.Length ==> (cpValid[p] <==> old(cpValid[p]) || (p == cp && placed))
    {
      if (moving || !cpValid[cp]) && placed {
        cpValid[cp] := true;
      }
    }

    /** A frame lays out the arcs that need it and whose ends have positions. */
    method Update(placed: set<EdgeKey>, moving: bool)
      requires Valid()
      modifies cpValid
      ensures Valid()
      ensures forall p :: 0 <= p < PLACES ==> (cpValid[p] <==> old(cpValid[p]) || Draws(bySlot[p], placed))
      ensures OnBoard() == B.Do(old(OnBoard()), B.LaysOut(placed))
    {
      var todo := slots.Keys;
      ghost var places, valid := bySlot[..], cpValid[..];
      while todo != {}
        invariant todo <= slots.Keys
        invariant forall p :: 0 <= p < PLACES ==> (cpValid[p] <==> old(cpValid[p]) || Draws(places[p], placed - todo))
        decreases todo
      {
        var id :| id in todo;
        OnePlace(id, places, placed, todo);
        todo := todo - {id};
        LayOut(slots[id].cp, id in placed, moving);
      }
      LaidOutOnBoard(slots, places, valid, cpValid[..], placed);
    }
  }

  /** A place draws one of these arcs. */
  predicate Draws(slot: EdgeSlot?, ids: set<EdgeKey>) {
    slot != null && slot.id in ids
  }

  lemma TakenOnBoard(slots: map<EdgeKey, EdgeSlot>, places: seq<EdgeSlot?>, slot: EdgeSlot, valid: seq<bool>)
    requires |places| == PLACES && Fits(slot) && places[slot.cp] == null && slot.id !in slots
    requires forall id :: id in slots ==> Fits(slots[id]) && places[slots[id].cp] == slots[id]
    ensures B.Enabled(BoardOf(slots, valid), B.Takes(slot.id, slot.cp))
    ensures BoardOf(slots[slot.id := slot], valid) == B.Do(BoardOf(slots, valid), B.Takes(slot.id, slot.cp))
  {
  }

  /** Which arcs each place draws, as a statement on values. */
  predicate Mirrored(slots: map<EdgeKey, EdgeSlot>, places: seq<EdgeSlot?>) {
    && |places| == PLACES
    && (forall id :: id in slots ==> slots[id].id == id && Fits(slots[id]) && places[slots[id].cp] == slots[id])
    && (forall p :: 0 <= p < PLACES && places[p] != null ==>
          places[p].cp == p && places[p].id in slots && slots[places[p].id] == places[p])
  }

  lemma DrawnPlaces(slots: map<EdgeKey, EdgeSlot>, places: seq<EdgeSlot?>, valid: seq<bool>, ids: set<EdgeKey>)
    requires Mirrored(slots, places)
    ensures forall p: nat :: p in B.PlacesOf(BoardOf(slots, valid), ids) <==> p < PLACES && Draws(places[p], ids)
  {
    var b := BoardOf(slots, valid);
    forall p: nat | p < PLACES && Draws(places[p], ids) ensures p in B.PlacesOf(b, ids) {
      assert b.arcs[places[p].id] == p;
    }
  }

  lemma ForgottenOnBoard(slots: map<EdgeKey, EdgeSlot>, places: seq<EdgeSlot?>, valid: seq<bool>, valid': seq<bool>,
                         ids: set<EdgeKey>)
    requires Mirrored(slots, places) && |valid| == |valid'| == PLACES
    requires forall p :: 0 <= p < PLACES ==> (valid'[p] <==> valid[p] && !Draws(places[p], ids))
    ensures BoardOf(slots, valid') == B.Do(BoardOf(slots, valid), B.Forgets(ids))
  {
    DrawnPlaces(slots, places, valid, ids);
  }

  lemma LaidOutOnBoard(slots: map<EdgeKey, EdgeSlot>, places: seq<EdgeSlot?>, valid: seq<bool>, valid': seq<bool>,
                       ids: set<EdgeKey>)
    requires Mirrored(slots, places) && |valid| == |valid'| == PLACES
    requires forall p :: 0 <= p < PLACES ==> (valid'[p] <==> valid[p] || Draws(places[p], ids))
    ensures BoardOf(slots, valid') == B.Do(BoardOf(slots, valid), B.LaysOut(ids))
  {
    DrawnPlaces(slots, places, valid, ids);
  }

  /** What a change of batch does on the board. */
  function RateChanges(id: EdgeKey, after: map<EdgeKey, EdgeSlot>): seq<B.Change> {
    if id in after then [B.Removes(id), B.Takes(id, after[id].cp)] else [B.Removes(id)]
  }

  lemma RemovedOnBoard(slots: map<EdgeKey, EdgeSlot>, id: EdgeKey, valid: seq<bool>, valid': seq<bool>)
    requires id in slots && |valid| == |valid'|
    requires forall p :: 0 <= p < |valid| ==> (valid'[p] <==> valid[p] && p != slots[id].cp)
    ensures BoardOf(slots - {id}, valid') == B.Do(BoardOf(slots, valid), B.Removes(id))
  {
    var b := BoardOf(slots, valid);
    assert B.PlacesOf(b, {id}) == {slots[id].cp};
  }

  lemma MinusAbsent<K, V>(m: map<K, V>, k: K)
    requires k !in m
    ensures m - {k} == m
  {
  }

  lemma PutBack<K, V>(m: map<K, V>, k: K, v: V)
    ensures (m - {k})[k := v] == m[k := v]
  {
  }

  // ---------- the stacks ----------

  /** The stacks match the places, as a statement on values. */
  ghost predicate Exact(free: seq<seq<int>>, places: seq<EdgeSlot?>) {
    && |free| == BATCHES && |places| == PLACES
    && (forall b :: 0 <= b < BATCHES ==> Distinct(free[b]))
    && (forall b, i :: 0 <= b < BATCHES && i in free[b] ==> 0 <= i < CAPACITY)
    && (forall b: nat, i: nat :: b < BATCHES && i < CAPACITY ==> (i in free[b] <==> places[Cp(b, i)] == null))
  }

  lemma PopExact(free: seq<seq<int>>, places: seq<EdgeSlot?>, places': seq<EdgeSlot?>, b: nat, slot: EdgeSlot)
    requires Exact(free, places) && b < BATCHES && free[b] != [] && Fits(slot) && slot.batch == b
    requires slot.index == free[b][|free[b]| - 1] && places' == places[slot.cp := slot]
    ensures Exact(free[b := free[b][..|free[b]| - 1]], places')
    ensures places[slot.cp] == null
  {
    var stack := free[b];
    var rest := stack[..|stack| - 1];
    assert stack == rest + [slot.index];
    assert slot.index !in rest;
    forall i ensures i in stack <==> i in rest || i == slot.index {
    }
    forall c: nat, i: nat | c < BATCHES && i < CAPACITY
      ensures i in free[b := rest][c] <==> places'[Cp(c, i)] == null
    {
      CpInjective(c, i, b, slot.index);
    }
  }

  lemma PushExact(free: seq<seq<int>>, places: seq<EdgeSlot?>, places': seq<EdgeSlot?>, slot: EdgeSlot)
    requires Exact(free, places) && Fits(slot) && places[slot.cp] == slot && places' == places[slot.cp := null]
    ensures Exact(free[slot.batch := free[slot.batch] + [slot.index]], places')
  {
    var b := slot.batch;
    var more := free[b] + [slot.index];
    assert slot.index !in free[b];
    forall i ensures i in more <==> i in free[b] || i == slot.index {
    }
    forall c: nat, i: nat | c < BATCHES && i < CAPACITY
      ensures i in free[b := more][c] <==> places'[Cp(c, i)] == null
    {
      CpInjective(c, i, b, slot.index);
    }
  }
}
