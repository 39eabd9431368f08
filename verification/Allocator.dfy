/** Entity ids: which slots are live, pooled, free or retired, and why an id never comes back. */
module Allocator {
  import opened Base
  import opened Storage
  import opened StorageLaws
  import opened Operations

  ghost predicate Owns(s: Slots, e: Entity) {
    IsHandle(e) && e != NO_ENTITY && Slot(e) < |s.generations| && s.generations[Slot(e)] == Generation(e)
      && Slot(e) !in s.free
  }

  /** Live, pooled and free slots are pairwise disjoint, and each owner holds its slot's current generation. */
  ghost predicate Fits(live: set<Entity>, s: Slots) {
    && NoDup(s.free) && NoDup(s.pool)
    && (forall e :: e in live ==> Owns(s, e))
    && (forall e :: e in s.pool ==> Owns(s, e) && e !in live)
  }

  /** No two live or pooled ids share a slot, and none of their slots is free. */
  lemma SlotsDisjoint(live: set<Entity>, s: Slots, a: Entity, b: Entity)
    requires Fits(live, s) && (a in live || a in s.pool) && (b in live || b in s.pool) && Slot(a) == Slot(b)
    ensures a == b && Slot(a) !in s.free
  {
    EntityParts(a, b);
  }

  lemma OwnsOther(live: set<Entity>, s: Slots, a: Entity, b: Entity)
    requires Fits(live, s) && (a in live || a in s.pool) && (b in live || b in s.pool) && a != b
    ensures Slot(a) != Slot(b)
  {
    if Slot(a) == Slot(b) { SlotsDisjoint(live, s, a, b); }
  }

  lemma NextParts(s: Slots)
    requires SlotsOk(s) && NextId(s) != NO_ENTITY
    ensures Owns(Allocate(s).(free := []), NextId(s)) && Slot(NextId(s)) == if s.free == [] then |s.generations|
      else s.free[|s.free| - 1]
  {
    if s.free != [] {
      var slot := s.free[|s.free| - 1];
      assert slot in s.free;
      assert NextId(s) == MakeEntity(slot, s.generations[slot]);
    }
  }

  lemma NextNone(s: Slots)
    requires SlotsOk(s) && NextId(s) == NO_ENTITY
    ensures Allocate(s) == s
  {
  }

  /** A fresh id is owned by nobody; handing it out keeps the slots apart. */
  lemma FitsAllocated(live: set<Entity>, s: Slots)
    requires SlotsOk(s) && Fits(live, s) && NO_ENTITY !in live
    ensures NextId(s) !in live && NextId(s) !in s.pool
    ensures if NextId(s) == NO_ENTITY then Allocate(s) == s else Fits(live + {NextId(s)}, Allocate(s))
  {
    hide SlotsOk, NextId, Slot, Generation;
    if NextId(s) != NO_ENTITY { NextParts(s); } else { NextNone(s); }
  }

  /** A destroyed id loses its slot for good: the generation moves on, or the slot is retired. */
  lemma FitsFreed(live: set<Entity>, s: Slots, e: Entity)
    requires SlotsOk(s) && Fits(live, s) && e in live
    ensures Fits(live - {e}, FreeId(s, e)) && FreeId(s, e).pool == s.pool
    ensures Slot(e) in FreeId(s, e).free ==> FreeId(s, e).generations[Slot(e)] == Generation(e) + 1
    ensures Slot(e) !in FreeId(s, e).free <==> Generation(e) == U32_LIMIT - 1
  {
    hide Slot, Generation, SlotsOk, IsHandle;
    var t := FreeId(s, e);
    assert Generation(e) != U32_LIMIT - 1 ==> t.free[|s.free|] == Slot(e);
    forall x | x in live - {e} || x in s.pool ensures Owns(t, x) {
      OwnsOther(live, s, e, x);
    }
  }

  /** The slot freed last is the next one handed out, one generation later. */
  lemma FreedIsNext(live: set<Entity>, s: Slots, e: Entity)
    requires SlotsOk(s) && Fits(live, s) && e in live && Generation(e) < U32_LIMIT - 1
    ensures Slot(NextId(FreeId(s, e))) == Slot(e) && Generation(NextId(FreeId(s, e))) == Generation(e) + 1
    ensures Allocate(FreeId(s, e)) == s.(generations := s.generations[Slot(e) := Generation(e) + 1])
  {
    hide IsHandle, Slot, Generation;
    var t := FreeId(s, e);
    assert t.free == s.free + [Slot(e)] && t.free[..|t.free| - 1] == s.free;
    assert NextId(t) == MakeEntity(Slot(e), t.generations[Slot(e)]);
  }

  /** Destroying and creating gives a new id in the same slot, or a new slot when the generation was the last. */
  lemma DestroyedThenCreated(w: World, e: Entity)
    requires WorldOk(w) && Fits(w.ix.loc.Keys, w.slots) && e in w.ix.loc && w.depth <= 0
    ensures var next := NextId(Destroy(w, e).slots);
      && (Generation(e) < U32_LIMIT - 1 ==> Slot(next) == Slot(e) && Generation(next) == Generation(e) + 1)
      && (Generation(e) == U32_LIMIT - 1 ==> next == NextId(w.slots))
  {
    hide IsHandle, Slot, Coherent, Detach;
    if Generation(e) < U32_LIMIT - 1 { FreedIsNext(w.ix.loc.Keys, w.slots, e); }
  }

  /** Pooled creation undoes pooled destruction: the same id comes back, and the allocator is where it was. */
  lemma ParkedIsNext(w: World, e: Entity)
    requires WorldOk(w) && e in w.ix.loc && w.depth <= 0
    ensures PooledId(DestroyPooled(w, e).slots) == e && CreatePooled(DestroyPooled(w, e)).slots == w.slots
    ensures Contents(CreatePooled(DestroyPooled(w, e)).ix) == Contents(w.ix)[e := map[]]
  {
    hide Coherent, Contents, Attach, Shaped;
    DestroyPooledOk(w, e);
    var v := DestroyPooled(w, e);
    ShapedOf(w);
    LiveHandle(w.ix, e);
    assert e !in v.ix.loc;
    assert v.slots.pool == w.slots.pool + [e] && v.slots.pool[..|w.slots.pool|] == w.slots.pool;
    CreatePooledOk(v);
    assert Contents(v.ix) == Contents(w.ix) - {e};
    assert (Contents(w.ix) - {e})[e := map[]] == Contents(w.ix)[e := map[]];
  }

  /** Parking an id keeps its slot and generation reserved. */
  lemma FitsPooled(live: set<Entity>, s: Slots, e: Entity)
    requires Fits(live, s) && e in live
    ensures Fits(live - {e}, s.(pool := s.pool + [e]))
  {
    hide Slot, Generation, IsHandle;
  }

  lemma FitsUnpooled(live: set<Entity>, s: Slots)
    requires Fits(live, s) && s.pool != []
    ensures var e := s.pool[|s.pool| - 1];
      e !in live && e != NO_ENTITY && Fits(live + {e}, s.(pool := s.pool[..|s.pool| - 1]))
  {
    hide Slot, Generation, IsHandle;
    var e := s.pool[|s.pool| - 1];
    assert e in s.pool;
  }

  /** A foreign id may come in when its slot is nobody's: not free, not parked, not live under another generation. */
  ghost predicate SlotIsOpen(live: set<Entity>, s: Slots, id: Entity) {
    && Slot(id) !in s.free
    && (forall e :: e in live || e in s.pool ==> Slot(e) != Slot(id))
  }

  /** Growing the slot table for a foreign id disturbs nobody. */
  lemma FitsResized(live: set<Entity>, s: Slots, n: nat)
    requires Fits(live, s)
    ensures Fits(live, s.(generations := ResizedGenerations(s.generations, n)))
  {
    hide Slot, Generation, IsHandle;
    var g := ResizedGenerations(s.generations, n);
    assert forall i :: 0 <= i < |s.generations| ==> g[i] == s.generations[i];
  }

  /** A foreign id keeps the slots apart if and only if its slot was nobody's: `create_entity_preassigned` does not
      look, and does not take the slot off the free list. */
  lemma FitsForeign(live: set<Entity>, s: Slots, id: Entity)
    requires SlotsOk(s) && Fits(live, s) && IsHandle(id) && id != NO_ENTITY && AcceptsForeign(id) && id !in live
    ensures var g := ResizedGenerations(s.generations, Slot(id) + 1);
      Fits(live + {id}, s.(generations := g[Slot(id) := Generation(id)])) <==> SlotIsOpen(live, s, id)
  {
    hide Slot, Generation, IsHandle;
    var g := ResizedGenerations(s.generations, Slot(id) + 1);
    assert forall i :: 0 <= i < |s.generations| ==> g[i] == s.generations[i];
    var t := s.(generations := g[Slot(id) := Generation(id)]);
    if Fits(live + {id}, t) {
      forall e | e in live || e in s.pool ensures Slot(e) != Slot(id) { OwnsOther(live + {id}, t, e, id); }
      assert Owns(t, id);
    }
  }
}
