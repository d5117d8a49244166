/** Which arc is at which place, over runs of changes (web/src/edges.ts), and what that means
    for the sparks under way: a spark knows the place it travels at, not the arc. */
module Board {
  import opened Wire

  /** The place of every arc, and the places that have control points. */
  datatype Board = Board(arcs: map<EdgeKey, nat>, valid: set<nat>)

  datatype Change = Removes(id: EdgeKey) | Takes(id: EdgeKey, place: nat)
                  | Forgets(ids: set<EdgeKey>) | LaysOut(ids: set<EdgeKey>)

  function PlacesOf(b: Board, ids: set<EdgeKey>): set<nat> {
    set x | x in b.arcs && x in ids :: b.arcs[x]
  }

  predicate Enabled(b: Board, c: Change) {
    c.Takes? ==> c.id !in b.arcs && c.place !in b.arcs.Values
  }

  function Do(b: Board, c: Change): Board {
    match c
    case Removes(id) => Board(b.arcs - {id}, b.valid - PlacesOf(b, {id}))
    case Takes(id, place) => b.(arcs := b.arcs[id := place])
    case Forgets(ids) => b.(valid := b.valid - PlacesOf(b, ids))
    case LaysOut(ids) => b.(valid := b.valid + PlacesOf(b, ids))
  }

  predicate Legal(b: Board, cs: seq<Change>)
    decreases cs
  {
    cs == [] || (Legal(b, cs[..|cs| - 1]) && Enabled(Run(b, cs[..|cs| - 1]), cs[|cs| - 1]))
  }

  function Run(b: Board, cs: seq<Change>): Board
    decreases cs
  {
    if cs == [] then b else Do(Run(b, cs[..|cs| - 1]), cs[|cs| - 1])
  }

  lemma RunOne(b: Board, c: Change)
    requires Enabled(b, c)
    ensures Legal(b, [c]) && Run(b, [c]) == Do(b, c)
  {
    assert [c][..|[c]| - 1] == [];
    assert Run(b, []) == b;
  }

  lemma RunTwo(b: Board, c: Change, d: Change)
    requires Enabled(b, c) && Enabled(Do(b, c), d)
    ensures Legal(b, [c, d]) && Run(b, [c, d]) == Do(Do(b, c), d)
  {
    RunOne(b, c);
    assert [c, d][..|[c, d]| - 1] == [c];
  }

  /** No two arcs at one place, and only places in use have control points. */
  predicate Ok(b: Board) {
    && (forall x, y :: x in b.arcs && y in b.arcs && b.arcs[x] == b.arcs[y] ==> x == y)
    && b.valid <= b.arcs.Values
  }

  predicate At(b: Board, id: EdgeKey, place: nat) {
    id in b.arcs && b.arcs[id] == place
  }

  lemma DoOk(b: Board, c: Change)
    requires Ok(b) && Enabled(b, c)
    ensures Ok(Do(b, c))
  {
    var b' := Do(b, c);
    forall p | p in b'.valid ensures p in b'.arcs.Values {
      if p in b.valid {
        var x :| x in b.arcs && b.arcs[x] == p;
        assert c != Removes(x);
        assert x in b'.arcs && b'.arcs[x] == p;
      } else {
        var x :| x in b.arcs && x in c.ids && b.arcs[x] == p;
        assert b'.arcs[x] == p;
      }
    }
  }

  lemma {:induction false} RunOk(b: Board, cs: seq<Change>)
    requires Ok(b) && Legal(b, cs)
    ensures Ok(Run(b, cs))
    decreases cs
  {
    if cs != [] {
      RunOk(b, cs[..|cs| - 1]);
      DoOk(Run(b, cs[..|cs| - 1]), cs[|cs| - 1]);
    }
  }

  // ---------- who is at a place, and whether it is laid out ----------

  /** The arc takes the place and is not removed after. */
  predicate Took(cs: seq<Change>, k: nat, id: EdgeKey, place: nat) {
    && k < |cs| && cs[k] == Takes(id, place)
    && forall i :: k < i < |cs| ==> cs[i] != Removes(id)
  }

  ghost predicate EverTook(cs: seq<Change>, id: EdgeKey, place: nat) {
    exists k: nat :: Took(cs, k, id, place)
  }

  /** The arc is laid out and not forgotten after. */
  predicate Laid(cs: seq<Change>, j: nat, id: EdgeKey) {
    && j < |cs| && cs[j].LaysOut? && id in cs[j].ids
    && forall i :: j < i < |cs| ==> Keeps(cs[i], id)
  }

  predicate Keeps(c: Change, id: EdgeKey) {
    c != Removes(id) && !(c.Forgets? && id in c.ids)
  }

  predicate Never(cs: seq<Change>, id: EdgeKey) {
    forall i :: 0 <= i < |cs| ==> cs[i] != Removes(id)
  }

  lemma TookSnoc(cs: seq<Change>, c: Change, id: EdgeKey, place: nat)
    ensures EverTook(cs + [c], id, place) <==> c == Takes(id, place) || (EverTook(cs, id, place) && c != Removes(id))
    ensures Never(cs + [c], id) <==> Never(cs, id) && c != Removes(id)
  {
    var all := cs + [c];
    assert all[|cs|] == c;
    if c == Takes(id, place) {
      assert Took(all, |cs|, id, place);
    }
    forall k | 0 <= k < |cs| ensures Took(all, k, id, place) <==> Took(cs, k, id, place) && c != Removes(id) {
      assert all[k] == cs[k] && forall i :: k < i < |cs| ==> all[i] == cs[i];
      assert forall i :: k < i < |cs| ==> cs[i] == all[i];
    }
    assert forall i :: 0 <= i < |cs| ==> all[i] == cs[i];
    assert forall i :: 0 <= i < |cs| ==> cs[i] == all[i];
  }

  /** Exactly the arcs at a place after a run. */
  lemma {:induction false} AtExactly(b: Board, cs: seq<Change>, id: EdgeKey, place: nat)
    requires Legal(b, cs)
    ensures At(Run(b, cs), id, place) <==> (At(b, id, place) && Never(cs, id)) || EverTook(cs, id, place)
    decreases cs
  {
    if cs != [] {
      var init, c := cs[..|cs| - 1], cs[|cs| - 1];
      AtExactly(b, init, id, place);
      TookSnoc(init, c, id, place);
      assert cs == init + [c];
    }
  }

  predicate AllKeep(cs: seq<Change>, id: EdgeKey) {
    forall i :: 0 <= i < |cs| ==> Keeps(cs[i], id)
  }

  ghost predicate EverLaid(cs: seq<Change>, id: EdgeKey) {
    exists j: nat :: Laid(cs, j, id)
  }

  /** The arc takes the place, is laid out after, and neither is undone. */
  ghost predicate TookAndLaid(cs: seq<Change>, id: EdgeKey, place: nat) {
    exists k: nat, j: nat :: k < j && Took(cs, k, id, place) && Laid(cs, j, id)
  }

  predicate LaysOutOne(c: Change, id: EdgeKey) {
    c.LaysOut? && id in c.ids
  }

  lemma LaidSnocAt(cs: seq<Change>, c: Change, j: nat, id: EdgeKey)
    ensures j < |cs| ==> (Laid(cs + [c], j, id) <==> Laid(cs, j, id) && Keeps(c, id))
    ensures Laid(cs + [c], |cs|, id) <==> LaysOutOne(c, id)
    ensures AllKeep(cs + [c], id) <==> AllKeep(cs, id) && Keeps(c, id)
  {
    var all := cs + [c];
    assert all[|cs|] == c && forall i :: 0 <= i < |cs| ==> all[i] == cs[i];
    assert forall i :: 0 <= i < |cs| ==> cs[i] == all[i];
  }

  lemma TookSnocAt(cs: seq<Change>, c: Change, k: nat, id: EdgeKey, place: nat)
    requires k < |cs|
    ensures Took(cs + [c], k, id, place) <==> Took(cs, k, id, place) && c != Removes(id)
  {
    var all := cs + [c];
    assert all[|cs|] == c && forall i :: 0 <= i < |cs| ==> all[i] == cs[i];
    assert forall i :: 0 <= i < |cs| ==> cs[i] == all[i];
  }

  lemma LaidSnoc(cs: seq<Change>, c: Change, id: EdgeKey)
    ensures EverLaid(cs + [c], id) <==> (EverLaid(cs, id) && Keeps(c, id)) || LaysOutOne(c, id)
  {
    forall j: nat ensures Laid(cs + [c], j, id) <==>
                          (j < |cs| && Laid(cs, j, id) && Keeps(c, id)) || (j == |cs| && LaysOutOne(c, id))
    {
      LaidSnocAt(cs, c, j, id);
    }
    if LaysOutOne(c, id) {
      assert Laid(cs + [c], |cs|, id);
    }
  }

  lemma TookAndLaidSnoc(cs: seq<Change>, c: Change, id: EdgeKey, place: nat)
    ensures TookAndLaid(cs + [c], id, place) <==>
            (TookAndLaid(cs, id, place) && Keeps(c, id)) || (EverTook(cs, id, place) && LaysOutOne(c, id))
  {
    var all := cs + [c];
    if TookAndLaid(all, id, place) {
      var k: nat, j: nat :| k < j && Took(all, k, id, place) && Laid(all, j, id);
      LaidSnocAt(cs, c, j, id);
      TookSnocAt(cs, c, k, id, place);
    }
    if TookAndLaid(cs, id, place) && Keeps(c, id) {
      var k: nat, j: nat :| k < j && Took(cs, k, id, place) && Laid(cs, j, id);
      LaidSnocAt(cs, c, j, id);
      TookSnocAt(cs, c, k, id, place);
      assert Took(all, k, id, place) && Laid(all, j, id);
    }
    if EverTook(cs, id, place) && LaysOutOne(c, id) {
      var k: nat :| Took(cs, k, id, place);
      LaidSnocAt(cs, c, |cs|, id);
      TookSnocAt(cs, c, k, id, place);
      assert Took(all, k, id, place) && Laid(all, |cs|, id);
    }
  }

  lemma DoAtLaid(b: Board, c: Change, id: EdgeKey, place: nat)
    requires Ok(b) && Enabled(b, c)
    ensures At(Do(b, c), id, place) && place in Do(b, c).valid <==>
            (At(b, id, place) && place in b.valid && Keeps(c, id)) || (At(b, id, place) && LaysOutOne(c, id))
  {
    if c.Removes? && place in PlacesOf(b, {c.id}) {
      assert At(b, c.id, place);
    }
  }

  /** Exactly when an arc is at a place and laid out there after a run. */
  lemma {:induction false} LaidExactly(b: Board, cs: seq<Change>, id: EdgeKey, place: nat)
    requires Ok(b) && Legal(b, cs)
    ensures At(Run(b, cs), id, place) && place in Run(b, cs).valid <==>
            || (At(b, id, place) && Never(cs, id) && ((place in b.valid && AllKeep(cs, id)) || EverLaid(cs, id)))
            || TookAndLaid(cs, id, place)
    decreases cs
  {
    if cs != [] {
      var init, c := cs[..|cs| - 1], cs[|cs| - 1];
      LaidExactly(b, init, id, place);
      RunOk(b, init);
      DoAtLaid(Run(b, init), c, id, place);
      AtExactly(b, init, id, place);
      TookSnoc(init, c, id, place);
      LaidSnocAt(init, c, |init|, id);
      LaidSnoc(init, c, id);
      TookAndLaidSnoc(init, c, id, place);
      assert cs == init + [c];
    }
  }

  // ---------- sparks ----------

  /** The spark lives on, though another arc is where its own was. */
  predicate Strays(b: Board, id: EdgeKey, place: nat) {
    place in b.valid && !At(b, id, place)
  }

  /** Exactly when a spark that nothing killed in between strays from its arc: another arc
      has taken the place, was laid out after, and neither has been undone. */
  lemma StrayExactly(b: Board, cs: seq<Change>, id: EdgeKey, place: nat)
    requires Ok(b) && Legal(b, cs) && At(b, id, place)
    ensures Strays(Run(b, cs), id, place) <==> exists x :: x != id && TookAndLaid(cs, x, place)
    ensures Never(cs, id) ==> !Strays(Run(b, cs), id, place)
  {
    var b' := Run(b, cs);
    RunOk(b, cs);
    AtExactly(b, cs, id, place);
    if Strays(b', id, place) {
      var x :| x in b'.arcs && b'.arcs[x] == place;
      assert At(b', x, place);
      LaidExactly(b, cs, x, place);
      assert TookAndLaid(cs, x, place);
    }
    if x :| x != id && TookAndLaid(cs, x, place) {
      LaidExactly(b, cs, x, place);
      assert At(b', x, place);
    }
  }
}
