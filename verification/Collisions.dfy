/** The allocator promises a fresh id with every creation. It does not keep that promise once a foreign id has come in
    on a slot that is free or parked, which is what loading a snapshot and rebuilding a replica do. */
module Collisions {
  import opened Base
  import opened Schema
  import opened Storage
  import opened StorageLaws
  import opened Operations
  import opened CommandLaws
  import opened Allocator
  import opened Wire
  import opened SnapshotFormat
  import opened Snapshots
  import opened SaveLoad
  import opened Replicas
  import opened Attempts
  import opened Runs
  import opened OrderlyRuns

  // ------------------------------------------------------------------ the shortest run

  /** A world that holds exactly one entity, or none, and knows exactly one slot. */
  ghost predicate OneSlot(w: World, live: set<Entity>, s: Slots) {
    WorldOk(w) && w.depth == 0 && w.ix.loc.Keys == live && w.slots == s
  }

  lemma FirstCreated(reg: Registry)
    ensures Allowed(EmptyWorld(reg), OpCreate) && OneSlot(Create(EmptyWorld(reg)), {1}, Slots([0], [], []))
  {
    hide Shaped, Contents;
    var w := EmptyWorld(reg);
    assert NextId(w.slots) == MakeEntity(0, 0) == 1;
    EmptyWorldOk(reg);
    CreateOk(w);
    ContentsKeys(w.ix);
    ContentsKeys(Create(w).ix);
  }

  lemma ThenCleared(w: World)
    requires OneSlot(w, {1}, Slots([0], [], []))
    ensures Allowed(w, OpClear([1])) && OneSlot(Clear(w, [1]), {}, Slots([1], [0], []))
  {
    hide Coherent, Detach;
    ClearOk(w, [1]);
    assert [1][1..] == [];
  }

  lemma ThenPreassigned(w: World)
    requires OneSlot(w, {}, Slots([1], [0], []))
    ensures Allowed(w, OpCreateForeign(1)) && OneSlot(CreatePreassigned(w, 1), {1}, Slots([0], [0], []))
  {
    hide Coherent, Contents, Attach;
    CreatePreassignedOk(w, 1);
    ContentsKeys(w.ix);
    ContentsKeys(CreatePreassigned(w, 1).ix);
  }

  /** Create an entity, clear the world, bring the same id in from outside: every step is allowed, the world is
      coherent, and the next creation hands the live id out again. */
  lemma ForeignCollides(reg: Registry)
    ensures var ops := [OpCreate, OpClear([1]), OpCreateForeign(1)]; var w := Run(EmptyWorld(reg), ops);
      && AllAllowed(EmptyWorld(reg), ops) && WorldOk(w)
      && NextId(w.slots) == 1 && 1 in w.ix.loc && !WorldOk(Create(w))
  {
    hide Coherent, Allowed, Run, AllAllowed, EmptyWorld, Create, Clear, CreatePreassigned;
    var w, ops := EmptyWorld(reg), [OpCreate, OpClear([1]), OpCreateForeign(1)];
    NoSteps(w, ops);
    FirstCreated(reg);
    NextStep(w, ops, 0, w);
    ThenCleared(Create(w));
    NextStep(w, ops, 1, Create(w));
    ThenPreassigned(Clear(Create(w), [1]));
    NextStep(w, ops, 2, Clear(Create(w), [1]));
    assert ops[..3] == ops;
    CreateIff(Run(w, ops));
  }

  // ------------------------------------------------------------------ after a load

  ghost predicate SlotTaken(rs: seq<Record>, slot: int) {
    exists i :: 0 <= i < |rs| && Slot(rs[i].id) == slot
  }

  /** The slot the allocator hands out next is one a record took. */
  ghost predicate TopTaken(s: Slots, rs: seq<Record>) {
    s.free != [] && SlotTaken(rs, s.free[|s.free| - 1])
  }

  /** Loading leaves the free list alone, and the slots it does not take; each slot it takes carries the generation of a
      loaded id. */
  ghost predicate Assigned(before: Slots, s: Slots, rs: seq<Record>) {
    && s.free == before.free && s.pool == before.pool && |before.generations| <= |s.generations|
    && (forall slot :: 0 <= slot < |before.generations| && !SlotTaken(rs, slot) ==>
         s.generations[slot] == before.generations[slot])
    && (forall i :: 0 <= i < |rs| ==> Slot(rs[i].id) < |s.generations|)
    && forall slot :: 0 <= slot < |s.generations| && SlotTaken(rs, slot) ==>
         exists i :: 0 <= i < |rs| && Slot(rs[i].id) == slot && s.generations[slot] == Generation(rs[i].id)
  }

  lemma LoadPartSlots(w: World, e: Entity, p: Part)
    ensures LoadPart(w, e, p).slots == w.slots
  {
    hide ReadBlock, AddRaw, BlockSize, FieldsOk;
    AddRawKeeps(w, e, p.t, None);
  }

  lemma {:induction false} LoadPartsSlots(w: World, e: Entity, ps: seq<Part>)
    ensures LoadParts(w, e, ps).slots == w.slots
    decreases ps
  {
    hide LoadPart;
    if ps != [] {
      LoadPartsSlots(w, e, ps[..|ps| - 1]);
      LoadPartSlots(LoadParts(w, e, ps[..|ps| - 1]), e, ps[|ps| - 1]);
    }
  }

  lemma AssignedMore(before: Slots, s: Slots, front: seq<Record>, r: Record)
    requires Assigned(before, s, front)
    ensures var g := ResizedGenerations(s.generations, Slot(r.id) + 1);
      Assigned(before, s.(generations := g[Slot(r.id) := Generation(r.id)]), front + [r])
  {
    hide Slot, Generation;
    var g := ResizedGenerations(s.generations, Slot(r.id) + 1)[Slot(r.id) := Generation(r.id)];
    var rs := front + [r];
    assert rs[|front|] == r;
    forall slot | 0 <= slot < |g| && SlotTaken(rs, slot)
      ensures exists i :: 0 <= i < |rs| && Slot(rs[i].id) == slot && g[slot] == Generation(rs[i].id)
    {
      if slot != Slot(r.id) {
        var j :| 0 <= j < |rs| && Slot(rs[j].id) == slot;
        assert front[j] == rs[j] && SlotTaken(front, slot);
        var i :| 0 <= i < |front| && Slot(front[i].id) == slot && s.generations[slot] == Generation(front[i].id);
        assert rs[i] == front[i];
      }
    }
    forall i | 0 <= i < |rs| ensures Slot(rs[i].id) < |g| { if i < |front| { assert rs[i] == front[i]; } }
    forall slot | !SlotTaken(rs, slot) ensures slot != Slot(r.id) && !SlotTaken(front, slot) {
      TakenMore(front, r, slot);
    }
  }

  lemma TakenMore(front: seq<Record>, r: Record, slot: int)
    ensures SlotTaken(front + [r], slot) <==> SlotTaken(front, slot) || slot == Slot(r.id)
  {
    hide Slot;
    var rs := front + [r];
    assert rs[|front|] == r;
    if i :| 0 <= i < |front| && Slot(front[i].id) == slot { assert rs[i] == front[i]; }
    if i :| 0 <= i < |rs| && Slot(rs[i].id) == slot { assert i < |front| ==> rs[i] == front[i]; }
  }

  lemma {:induction false} LoadedSlots(w: World, reg: Registry, rs: seq<Record>)
    requires LoadedFrom(w, reg, []) && RegistryOk(reg) && RecordsOk(reg, rs)
    ensures Assigned(w.slots, LoadRecords(w, rs).slots, rs)
    decreases rs
  {
    hide RegistryOk, PartOk, LoadParts, Slot, Generation, Assigned, WorldOk, Contents, RowsIn, StoreOf, IdsWith,
      AcceptsForeign, IsHandle, Spawn;
    if rs == [] {
      NoneAssigned(w.slots);
    } else {
      var front, r := rs[..|rs| - 1], rs[|rs| - 1];
      var m := LoadRecords(w, front);
      LoadedSlots(w, reg, front);
      LoadRecordsOk(w, reg, front);
      assert rs == front + [r] && AcceptsForeign(r.id);
      assert r.id !in m.ix.loc by {
        ContentsKeys(m.ix);
        StoreIds(reg, front);
        forall i | 0 <= i < |front| ensures front[i].id != r.id { assert front[i] == rs[i]; }
      }
      AssignedMore(w.slots, m.slots, front, r);
      CreatedSlots(m, r.id);
      LoadPartsSlots(CreatePreassigned(m, r.id), r.id, r.parts);
    }
  }

  lemma NoneAssigned(s: Slots)
    ensures Assigned(s, s, [])
  {
  }

  lemma CreatedSlots(w: World, id: Entity)
    requires AcceptsForeign(id) && id !in w.ix.loc
    ensures var g := ResizedGenerations(w.slots.generations, Slot(id) + 1);
      CreatePreassigned(w, id).slots == w.slots.(generations := g[Slot(id) := Generation(id)])
  {
  }

  /** The id handed out after a load is live if and only if the slot on top of the free list is one a loaded id took. */
  lemma AssignedCollides(before: Slots, s: Slots, rs: seq<Record>, live: set<Entity>)
    requires SlotsOk(s) && Assigned(before, s, rs) && forall e :: e in live <==> HasId(rs, e)
    ensures NextId(s) in live <==> TopTaken(before, rs)
  {
    hide SlotsOk, Slot, Generation, NextId;
    var e := NextId(s);
    TopInRange(s);
    if e in live {
      var i :| 0 <= i < |rs| && rs[i].id == e;
      if e == NO_ENTITY { NoneIsFar(s); } else { NextParts(s); }
    }
    if TopTaken(s, rs) {
      var slot := s.free[|s.free| - 1];
      var i :| 0 <= i < |rs| && Slot(rs[i].id) == slot && s.generations[slot] == Generation(rs[i].id);
      FreedNext(s);
      EntityParts(rs[i].id, e);
    }
  }

  lemma TopInRange(s: Slots)
    requires SlotsOk(s)
    ensures s.free != [] ==> 0 <= s.free[|s.free| - 1] < |s.generations|
  {
  }

  lemma FreedNext(s: Slots)
    requires SlotsOk(s) && s.free != []
    ensures Slot(NextId(s)) == s.free[|s.free| - 1] && Generation(NextId(s)) == s.generations[s.free[|s.free| - 1]]
  {
    var slot := s.free[|s.free| - 1];
    assert NextId(s) == MakeEntity(slot, s.generations[slot]);
  }

  /** No id is handed out only when the slot space is used up; the invalid id would have the largest slot. */
  lemma NoneIsFar(s: Slots)
    requires SlotsOk(s) && NextId(s) == NO_ENTITY
    ensures s.free == [] && Slot(NO_ENTITY) >= |s.generations|
  {
    if s.free != [] { FreedNext(s); }
  }

  /** Loading any accepted snapshot into any world: the next creation collides with a loaded entity if and only if the
      slot that `clear` freed last, or that was free before, is the slot of a loaded id. */
  lemma LoadCollidesIff(w: World, bytes: Bytes, order: seq<Entity>)
    requires WorldOk(w) && w.depth <= 0 && RegistryOk(w.ix.reg) && forall e :: e in order <==> e in w.ix.loc
    requires Parse(w.ix.reg, bytes, 0).Some?
    ensures var v := Load(w, bytes, order);
      NextId(v.slots) in v.ix.loc <==> TopTaken(Clear(w, order).slots, Parse(w.ix.reg, bytes, 0).value.value)
  {
    hide WorldOk, Clear, LoadRecords, Parse, Contents, RegistryOk, RecordsOk, Assigned, NextId, TopTaken, StoreOf,
      SlotsOk;
    var rs, z := Parse(w.ix.reg, bytes, 0).value.value, Clear(w, order);
    var v := Load(w, bytes, order);
    LoadIsWhole(w, bytes, order);
    LoadRecordsOk(z, w.ix.reg, rs);
    LoadedSlots(z, w.ix.reg, rs);
    StoreIds(w.ix.reg, rs);
    ContentsKeys(v.ix);
    assert SlotsOk(v.slots) by { SlotsOf(v); }
    AssignedCollides(z.slots, v.slots, rs, v.ix.loc.Keys);
  }

  /** The slots of the loaded ids differ, and none of them is free or parked. */
  ghost predicate OpenSlots(s: Slots, rs: seq<Record>) {
    && (forall i, j :: 0 <= i < j < |rs| ==> Slot(rs[i].id) != Slot(rs[j].id))
    && (forall i :: 0 <= i < |rs| ==> Slot(rs[i].id) !in s.free)
    && forall i, e :: 0 <= i < |rs| && e in s.pool ==> Slot(e) != Slot(rs[i].id)
  }

  lemma AssignedFits(before: Slots, s: Slots, rs: seq<Record>, live: set<Entity>)
    requires Fits({}, before) && Assigned(before, s, rs) && (forall e :: e in live <==> HasId(rs, e))
    requires (forall i, j :: 0 <= i < j < |rs| ==> rs[i].id != rs[j].id)
      && forall i :: 0 <= i < |rs| ==> IsHandle(rs[i].id) && rs[i].id != NO_ENTITY
    ensures Fits(live, s) <==> OpenSlots(before, rs)
  {
    hide Slot, Generation, IsHandle;
    forall i | 0 <= i < |rs| ensures rs[i].id in live { assert HasId(rs, rs[i].id); }
    if Fits(live, s) {
      forall i, j | 0 <= i < j < |rs| ensures Slot(rs[i].id) != Slot(rs[j].id) {
        OwnsOther(live, s, rs[i].id, rs[j].id);
      }
      forall i, e | 0 <= i < |rs| && e in s.pool ensures Slot(e) != Slot(rs[i].id) {
        OwnsOther(live, s, rs[i].id, e);
      }
      forall i | 0 <= i < |rs| ensures Slot(rs[i].id) !in s.free { assert Owns(s, rs[i].id); }
    }
    if OpenSlots(before, rs) {
      forall e | e in live ensures Owns(s, e) {
        var i :| 0 <= i < |rs| && rs[i].id == e;
        assert SlotTaken(rs, Slot(e));
        var j :| 0 <= j < |rs| && Slot(rs[j].id) == Slot(e) && s.generations[Slot(e)] == Generation(rs[j].id);
        assert i == j;
      }
      forall e | e in s.pool ensures Owns(s, e) && e !in live {
        assert Owns(before, e) && !SlotTaken(rs, Slot(e));
        assert e in live ==> SlotTaken(rs, Slot(e));
      }
    }
  }

  /** After loading an accepted snapshot live, parked and free slots are disjoint, so that creation is safe for good, if
      and only if the slots of the loaded ids differ and none of them is free or parked once the world is cleared. */
  lemma LoadedSoundIff(w: World, bytes: Bytes, order: seq<Entity>)
    requires Sound(w) && w.depth <= 0 && RegistryOk(w.ix.reg) && forall e :: e in order <==> e in w.ix.loc
    requires Parse(w.ix.reg, bytes, 0).Some?
    ensures Sound(Load(w, bytes, order))
      <==> OpenSlots(Clear(w, order).slots, Parse(w.ix.reg, bytes, 0).value.value)
  {
    hide WorldOk, Clear, LoadRecords, Parse, Contents, RegistryOk, Assigned, Fits, OpenSlots, StoreOf, SlotsOk,
      PartOk, IsHandle, AcceptsForeign;
    var rs, z := Parse(w.ix.reg, bytes, 0).value.value, Clear(w, order);
    var v := Load(w, bytes, order);
    LoadIsWhole(w, bytes, order);
    ClearSound(w, order);
    NobodyThere(z, w.ix.reg);
    LoadRecordsOk(z, w.ix.reg, rs);
    LoadedSlots(z, w.ix.reg, rs);
    StoreIds(w.ix.reg, rs);
    ContentsKeys(v.ix);
    assert WorldOk(v);
    forall i | 0 <= i < |rs| ensures IsHandle(rs[i].id) && rs[i].id != NO_ENTITY { LiveRecord(v, w.ix.reg, rs, i); }
    AssignedFits(z.slots, v.slots, rs, v.ix.loc.Keys);
  }

  lemma NobodyThere(w: World, reg: Registry)
    requires LoadedFrom(w, reg, [])
    ensures w.ix.loc.Keys == {}
  {
    hide WorldOk, Contents, RowsIn;
    ContentsKeys(w.ix);
  }

  lemma LiveRecord(v: World, reg: Registry, rs: seq<Record>, i: nat)
    requires LoadedFrom(v, reg, rs) && RecordsOk(reg, rs) && i < |rs|
    ensures IsHandle(rs[i].id) && rs[i].id != NO_ENTITY
  {
    hide Contents, RowsIn, Slot, IsHandle, PartOk, AcceptsForeign;
    assert RecordOk(reg, rs[i]);
    StoreIds(reg, rs);
    ContentsKeys(v.ix);
    assert HasId(rs, rs[i].id);
    LiveHandle(v.ix, rs[i].id);
  }

  /** What `clear` leaves free: what was free, and the slot of every live id but those of the last generation. */
  lemma {:induction false} ClearFreesIff(w: World, order: seq<Entity>, slot: int)
    requires Sound(w)
    ensures slot in ClearAll(w, order).slots.free <==>
      (slot in w.slots.free
       || exists e :: e in order && e in w.ix.loc && Slot(e) == slot && Generation(e) != U32_LIMIT - 1)
    decreases order
  {
    hide Coherent, SlotsOk, Fits, Contents, Detach, Slot, Generation;
    if order != [] {
      var e := order[0];
      assert order == [e] + order[1..];
      if e in w.ix.loc {
        DetachKeys(w, e);
        FitsFreed(w.ix.loc.Keys, w.slots, e);
        FreeIdOk(w.slots, e);
        DetachStore(w.ix, e);
        ClearFreesIff(w.(ix := Detach(w.ix, e), slots := FreeId(w.slots, e)), order[1..], slot);
        OwnerFreed(w, e);
      } else {
        ClearFreesIff(w, order[1..], slot);
      }
    }
  }

  lemma SlotsOf(w: World)
    requires WorldOk(w)
    ensures SlotsOk(w.slots)
  {
  }

  // ------------------------------------------------------------------ a world's own save

  /** `clear` either only meets ids of the last generation, or leaves the slot of a live id on top. */
  lemma {:induction false} ClearFrees(w: World, order: seq<Entity>)
    requires Sound(w)
    ensures var free := ClearAll(w, order).slots.free;
      if forall e :: e in order && e in w.ix.loc ==> Generation(e) == U32_LIMIT - 1 then free == w.slots.free
      else free != [] && exists x :: x in w.ix.loc && Slot(x) == free[|free| - 1]
    decreases order
  {
    hide Coherent, SlotsOk, Fits, Contents, Detach, Slot, Generation;
    if order != [] {
      var e := order[0];
      assert order == [e] + order[1..];
      if e in w.ix.loc {
        DetachKeys(w, e);
        FitsFreed(w.ix.loc.Keys, w.slots, e);
        FreeIdOk(w.slots, e);
        DetachStore(w.ix, e);
        var w1 := w.(ix := Detach(w.ix, e), slots := FreeId(w.slots, e));
        ClearFrees(w1, order[1..]);
        OwnerFreed(w, e);
      } else {
        ClearFrees(w, order[1..]);
      }
    }
  }

  lemma OwnerFreed(w: World, e: Entity)
    requires Sound(w) && e in w.ix.loc
    ensures FreeId(w.slots, e).free == if Generation(e) == U32_LIMIT - 1 then w.slots.free else w.slots.free + [Slot(e)]
  {
    hide WorldOk, Slot, Generation, IsHandle;
    assert Owns(w.slots, e);
  }

  /** A world that loads its own save hands a live id out with the very next creation, unless every live id is of the
      last generation. */
  lemma OwnSaveCollides(w: World, ks: seq<Key>, order: seq<Entity>)
    requires Sound(w) && w.depth <= 0 && Savable(w.ix) && NoDup(ks) && (forall k :: k in ks <==> k in w.ix.archs)
    requires forall e :: e in order <==> e in w.ix.loc
    requires exists e :: e in w.ix.loc && Generation(e) != U32_LIMIT - 1
    ensures var v := Load(w, SavedBytes(w.ix, ks), order);
      v.ix.loc.Keys == w.ix.loc.Keys && NextId(v.slots) in v.ix.loc && !WorldOk(Create(v))
  {
    hide WorldOk, Fits, Savable, SavedRecords, Encode, Parse, Clear, ClearAll, LoadRecords, NextId, Slot, Generation,
      RecordsOk, LoadedFrom, Contents, RecordFor, RowsIn, SlotTaken;
    var rs, bytes := SavedRecords(w.ix, ks), SavedBytes(w.ix, ks);
    assert WorldOk(w) by { SoundIsOk(w); }
    SavedParses(w.ix, ks);
    LoadCollidesIff(w, bytes, order);
    ClearFrees(w, order);
    ClearFree(w, order);
    LoadIsWhole(w, bytes, order);
    LoadedLikeSaved(w.ix, ks, Clear(w, order));
    var v := Load(w, bytes, order);
    var free := Clear(w, order).slots.free;
    var x :| x in w.ix.loc && Slot(x) == free[|free| - 1];
    LoadedIds(v, w.ix.reg, rs, x);
    assert WorldOk(v) by { LoadedOk(v, w.ix.reg, rs); }
    CreateIff(v);
  }

  lemma ClearFree(w: World, order: seq<Entity>)
    requires w.depth <= 0
    ensures Clear(w, order).slots.free == ClearAll(w, order).slots.free
  {
    hide ClearAll;
  }

  lemma SavedParses(w: Index, ks: seq<Key>)
    requires Savable(w) && NoDup(ks) && forall k :: k in ks <==> k in w.archs
    ensures RegistryOk(w.reg)
    ensures Parse(w.reg, SavedBytes(w, ks), 0).Some?
      && Parse(w.reg, SavedBytes(w, ks), 0).value.value == SavedRecords(w, ks)
  {
    hide Coherent, RegistryOk, SavedRecords, Encode, Parse, RecordsOk;
    SavedWellFormed(w, ks);
    ParseEncode(w.reg, SavedRecords(w, ks));
  }

  lemma LoadedIds(v: World, reg: Registry, rs: seq<Record>, x: Entity)
    requires LoadedFrom(v, reg, rs) && x in v.ix.loc
    ensures SlotTaken(rs, Slot(x))
  {
    hide WorldOk, Contents, RowsIn, Slot;
    StoreIds(reg, rs);
    ContentsKeys(v.ix);
  }

  lemma LoadedOk(v: World, reg: Registry, rs: seq<Record>)
    requires LoadedFrom(v, reg, rs)
    ensures WorldOk(v)
  {
  }

  // ------------------------------------------------------------------ after a full state

  /** Rebuilding a live replica, as every full state does, puts its slot on the free list and takes it back without
      removing it there: the next creation hands the rebuilt id out. */
  lemma RebuiltCollides(w: World, r: Record)
    requires Receptive(w) && IsHandle(r.id) && AcceptsForeign(r.id)
    requires r.id in w.ix.loc && Owns(w.slots, r.id) && Generation(r.id) != U32_LIMIT - 1
    ensures var v := ApplyEntity(w, r); NextId(v.slots) == r.id && r.id in v.ix.loc && !WorldOk(Create(v))
  {
    hide WorldOk, RegistryOk, Contents, LoadParts, Built, AcceptsForeign, Detach, RemovedEvents, Spawn, OnTop;
    var d, v := Destroy(w, r.id), ApplyEntity(w, r);
    Vacated(w, r.id);
    ApplyEntityOk(w, r);
    ContentsKeys(v.ix);
    CreatedSlots(d, r.id);
    LoadPartsSlots(CreatePreassigned(d, r.id), r.id, r.parts);
    FreedAgain(w.slots, r.id);
    assert SlotsOk(v.slots) by { SlotsOf(v); }
    FreedNext(v.slots);
    EntityParts(NextId(v.slots), r.id);
    CreateIff(v);
  }

  lemma FreedAgain(s: Slots, e: Entity)
    requires Owns(s, e) && Generation(e) != U32_LIMIT - 1
    ensures var f := FreeId(s, e); f.free == s.free + [Slot(e)] && |f.generations| == |s.generations| > Slot(e)
  {
    hide Slot, Generation, IsHandle;
  }
}
