/** Sparks and arcs together over a frame (web/src/main.ts): arcs come and go, are laid out,
    and then every spark moves on. */
module SparkLinks {
  import opened Wire
  import opened EdgeSlots
  import opened Particles
  import opened Board

  /** What the particles read of the board. */
  predicate Reads(valid: seq<bool>, b: Board) {
    forall p :: 0 <= p < |valid| && valid[p] ==> p in b.valid
  }

  /** A spark that lives through a frame is still on its own arc unless another arc took the
      place and was laid out in the meantime, and then it is not. */
  lemma SurvivorOnOwnArc(b: Board, cs: seq<Change>, id: EdgeKey, p: Particle, dt: real, valid: seq<bool>, q: Particle)
    requires Ok(b) && Legal(b, cs) && At(b, id, p.cp) && Reads(valid, Run(b, cs))
    requires q in Advanced(p, dt, valid)
    ensures q.cp == p.cp
    ensures !At(Run(b, cs), id, q.cp) <==> exists x :: x != id && TookAndLaid(cs, x, p.cp)
    ensures Never(cs, id) ==> At(Run(b, cs), id, q.cp)
  {
    StrayExactly(b, cs, id, p.cp);
  }

  /** A spark whose arc goes, with no other laid out in its place, is killed by the frame. */
  lemma OrphanDies(b: Board, cs: seq<Change>, id: EdgeKey, p: Particle, dt: real, valid: seq<bool>)
    requires Ok(b) && Legal(b, cs) && At(b, id, p.cp) && Reads(valid, Run(b, cs))
    requires !At(Run(b, cs), id, p.cp) && forall x :: x != id ==> !TookAndLaid(cs, x, p.cp)
    ensures Advanced(p, dt, valid) == []
  {
    StrayExactly(b, cs, id, p.cp);
  }

  /** It happens: an arc goes, another comes, and is laid out, before the sparks move on. The
      stack gives the new arc the very place, so the sparks of the old one go on along it. */
  method Reuse(es: Edges, gone: EdgeKey, next: EdgeKey, same: bool, placed: set<EdgeKey>)
    requires es.Valid() && gone in es.slots && es.slots[gone].batch == 0
    requires next !in es.slots && next in placed
    modifies es, es.bySlot, es.cpValid
    ensures es.Valid() && next in es.slots && es.slots[next].cp == old(es.slots[gone].cp)
    ensures Strays(es.OnBoard(), gone, old(es.slots[gone].cp))
  {
    ghost var place, index := es.slots[gone].cp, es.slots[gone].index;
    es.Remove(gone);
    assert es.free[0][|es.free[0]| - 1] == index;
    es.Add(next, same);
    assert At(es.OnBoard(), next, place);
    es.Update(placed, false);
    assert place in PlacesOf(es.OnBoard(), placed);
  }
}
