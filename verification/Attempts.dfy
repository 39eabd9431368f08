/** Loading records and applying packets one step after the other, as the code does, up to the first step the world
    refuses. Outside iteration it refuses none. While it is iterated no component can be added, no entity destroyed and
    the world not be cleared, so that a snapshot or packet the dry run accepts may be applied in part. */
module Attempts {
  import opened Base
  import opened Schema
  import opened Storage
  import opened StorageLaws
  import opened Operations
  import opened CommandLaws
  import opened Wire
  import opened SnapshotFormat
  import opened Snapshots
  import opened SaveLoad
  import opened Packets
  import opened Replicas
  import opened Deltas

  // ------------------------------------------------------------------ the steps

  /** Add the component zeroed; if it is then there, read its fields into it. */
  ghost function TryPart(w: World, e: Entity, p: Part): (World, bool) {
    var v := AddRaw(w, e, p.t, None);
    if Has(v.ix, e, p.t) then (LoadPart(w, e, p), true) else (v, false)
  }

  ghost function TryParts(w: World, e: Entity, ps: seq<Part>): (World, bool)
    decreases ps
  {
    if ps == [] then (w, true) else
      var front := TryParts(w, e, ps[..|ps| - 1]);
      if front.1 then TryPart(front.0, e, ps[|ps| - 1]) else front
  }

  ghost function TryRecord(w: World, r: Record): (World, bool) {
    var v := CreatePreassigned(w, r.id);
    if AcceptsForeign(r.id) && r.id !in w.ix.loc then TryParts(v, r.id, r.parts) else (v, false)
  }

  ghost function TryRecords(w: World, rs: seq<Record>): (World, bool)
    decreases rs
  {
    if rs == [] then (w, true) else
      var front := TryRecords(w, rs[..|rs| - 1]);
      if front.1 then TryRecord(front.0, rs[|rs| - 1]) else front
  }

  /** Whatever lives under the id is destroyed first. */
  ghost function TryEntity(w: World, r: Record): (World, bool) {
    TryRecord(Destroy(w, r.id), r)
  }

  ghost function TryEntities(w: World, rs: seq<Record>): (World, bool)
    decreases rs
  {
    if rs == [] then (w, true) else
      var front := TryEntities(w, rs[..|rs| - 1]);
      if front.1 then TryEntity(front.0, rs[|rs| - 1]) else front
  }

  /** A dead entity's component is skipped; a live one's must be there once it has been presented. */
  ghost function TryDueComp(w: World, version: nat, e: Entity, c: DueComp): (World, bool) {
    if !Alive(w.ix, e) then (w, true) else
      var v := Presented(w, version, e, c.t);
      if Has(v.ix, e, c.t) then (ApplyDues(v, e, c.t, c.dues), true) else (v, false)
  }

  ghost function TryDueComps(w: World, version: nat, e: Entity, cs: seq<DueComp>): (World, bool) {
    if cs == [] then (w, true) else
      var front := TryDueComps(w, version, e, cs[..|cs| - 1]);
      if front.1 then TryDueComp(front.0, version, e, cs[|cs| - 1]) else front
  }

  /** Which entities were gone through alive, and whether all were. */
  datatype Progress = Progress(w: World, live: set<Entity>, done: bool)

  ghost function TryDelta(w: World, version: nat, es: seq<DueEntity>): Progress {
    if es == [] then Progress(w, {}, true) else
      var front, e := TryDelta(w, version, es[..|es| - 1]), es[|es| - 1];
      if !front.done then front else
        var v := TryDueComps(front.w, version, e.id, e.comps);
        Progress(v.0, front.live + (if v.1 && Alive(v.0.ix, e.id) then {e.id} else {}), v.1)
  }

  // ------------------------------------------------------------------ every step keeps the world coherent

  lemma PartStays(w: World, e: Entity, p: Part)
    requires Healthy(w)
    ensures Healthy(TryPart(w, e, p).0) && TryPart(w, e, p).0.ix.reg == w.ix.reg
  {
    hide WorldOk, RegistryOk, AddRaw, Poke, Contents, ReadBlock, BlockSize, FieldsOk;
    var v := AddRaw(w, e, p.t, None);
    NoData(w.ix.reg, p.t);
    AddRawOk(w, e, p.t, None);
    if Has(v.ix, e, p.t) && Registered(w.ix.reg, p.t) && |p.block| == BlockSize(SchemaOf(w.ix.reg, p.t), p.mask) {
      SchemaFits(w.ix.reg, p.t);
      PokeOk(v, e, p.t, ReadBlock(SchemaOf(w.ix.reg, p.t), p.mask, Zeros(SizeOf(w.ix.reg, p.t)), p.block));
    }
  }

  lemma {:induction false} PartsStay(w: World, e: Entity, ps: seq<Part>)
    requires Healthy(w)
    ensures Healthy(TryParts(w, e, ps).0) && TryParts(w, e, ps).0.ix.reg == w.ix.reg
    decreases ps
  {
    hide Healthy, TryPart;
    if ps != [] {
      var front := TryParts(w, e, ps[..|ps| - 1]);
      PartsStay(w, e, ps[..|ps| - 1]);
      if front.1 { PartStays(front.0, e, ps[|ps| - 1]); }
    }
  }

  lemma RecordStays(w: World, r: Record)
    requires Healthy(w) && IsHandle(r.id)
    ensures Healthy(TryRecord(w, r).0) && TryRecord(w, r).0.ix.reg == w.ix.reg
  {
    hide WorldOk, RegistryOk, CreatePreassigned, TryParts, AcceptsForeign, IsHandle, Contents;
    CreatePreassignedOk(w, r.id);
    CreatePreassignedKeeps(w, r.id);
    PartsStay(CreatePreassigned(w, r.id), r.id, r.parts);
  }

  lemma {:induction false} RecordsStay(w: World, rs: seq<Record>)
    requires Healthy(w) && forall i :: 0 <= i < |rs| ==> IsHandle(rs[i].id)
    ensures Healthy(TryRecords(w, rs).0) && TryRecords(w, rs).0.ix.reg == w.ix.reg
    decreases rs
  {
    hide Healthy, TryRecord, IsHandle;
    if rs != [] {
      var front := rs[..|rs| - 1];
      assert forall i :: 0 <= i < |front| ==> front[i] == rs[i];
      RecordsStay(w, front);
      if TryRecords(w, front).1 { RecordStays(TryRecords(w, front).0, rs[|rs| - 1]); }
    }
  }

  lemma {:induction false} EntitiesStay(w: World, rs: seq<Record>)
    requires Healthy(w) && forall i :: 0 <= i < |rs| ==> IsHandle(rs[i].id)
    ensures Healthy(TryEntities(w, rs).0) && TryEntities(w, rs).0.ix.reg == w.ix.reg
    decreases rs
  {
    hide Healthy, TryRecord, IsHandle, Destroy;
    if rs != [] {
      var front, r := rs[..|rs| - 1], rs[|rs| - 1];
      assert forall i :: 0 <= i < |front| ==> front[i] == rs[i];
      EntitiesStay(w, front);
      var m := TryEntities(w, front).0;
      if TryEntities(w, front).1 {
        Vacates(m, r.id);
        RecordStays(Destroy(m, r.id), r);
      }
    }
  }

  lemma Vacates(w: World, e: Entity)
    requires Healthy(w)
    ensures Healthy(Destroy(w, e)) && Destroy(w, e).ix.reg == w.ix.reg
  {
    hide WorldOk, RegistryOk, Destroy, Contents;
    DestroyOk(w, e);
    DestroyKeeps(w, e);
  }

  // ------------------------------------------------------------------ outside iteration nothing is refused

  lemma {:induction false} PartsGoIn(base: Index, w: World, e: Entity, ps: seq<Part>)
    requires OnTop(base, w, e, map[]) && RegistryOk(base.reg)
      && forall i :: 0 <= i < |ps| ==> Registered(base.reg, ps[i].t)
    ensures TryParts(w, e, ps) == (LoadParts(w, e, ps), true)
    decreases ps
  {
    hide OnTop, AddRaw, LoadPart, RegistryOk, Built, Registered, Has;
    if ps != [] {
      var front, p := ps[..|ps| - 1], ps[|ps| - 1];
      PartsGoIn(base, w, e, front);
      PartsOnTop(base, w, e, front);
      PartGoesIn(base, LoadParts(w, e, front), e, Built(base.reg, front), p.t);
    }
  }

  lemma PartGoesIn(base: Index, w: World, e: Entity, comps: Comps, t: TypeId)
    requires OnTop(base, w, e, comps) && Registered(base.reg, t)
    ensures Has(AddRaw(w, e, t, None).ix, e, t)
  {
    hide WorldOk, AddRaw, Contents, RowsIn, SizeOf, Registered;
    AddedOnTop(base, w, e, comps, t);
  }

  lemma RecordGoesIn(w: World, r: Record)
    requires Receptive(w) && IsHandle(r.id) && AcceptsForeign(r.id) && r.id !in w.ix.loc
    requires forall i :: 0 <= i < |r.parts| ==> Registered(w.ix.reg, r.parts[i].t)
    ensures TryRecord(w, r) == (LoadParts(CreatePreassigned(w, r.id), r.id, r.parts), true)
  {
    hide WorldOk, RegistryOk, CreatePreassigned, LoadParts, TryParts, AcceptsForeign, IsHandle, OnTop;
    CreatedOnTop(w, r.id);
    PartsGoIn(w.ix, CreatePreassigned(w, r.id), r.id, r.parts);
  }

  ghost predicate KnownTypes(reg: Registry, rs: seq<Record>) {
    forall i, j :: 0 <= i < |rs| && 0 <= j < |rs[i].parts| ==> Registered(reg, rs[i].parts[j].t)
  }

  lemma TypesKnown(reg: Registry, rs: seq<Record>)
    requires RecordsOk(reg, rs)
    ensures KnownTypes(reg, rs)
  {
    forall i, j | 0 <= i < |rs| && 0 <= j < |rs[i].parts| ensures Registered(reg, rs[i].parts[j].t) {
      assert RecordOk(reg, rs[i]) && PartOk(reg, rs[i].parts[j]);
    }
  }

  /** Loading accepted records into an emptied world refuses nothing. */
  lemma {:induction false} RecordsGoIn(w: World, reg: Registry, rs: seq<Record>)
    requires LoadedFrom(w, reg, []) && RegistryOk(reg) && RecordsOk(reg, rs)
    ensures TryRecords(w, rs) == (LoadRecords(w, rs), true)
    decreases rs
  {
    hide RegistryOk, LoadParts, CreatePreassigned, TryRecord, Contents, RowsIn, WorldOk, PartOk, AcceptsForeign,
      IsHandle, StoreOf, IdsWith;
    if rs != [] {
      var front, r := rs[..|rs| - 1], rs[|rs| - 1];
      RecordsGoIn(w, reg, front);
      LoadRecordsOk(w, reg, front);
      NotYet(LoadRecords(w, front), reg, front, r.id) by {
        forall i | 0 <= i < |front| ensures front[i].id != r.id { assert front[i] == rs[i]; }
      }
      TypesKnown(reg, rs);
      assert RecordOk(reg, r);
      RecordGoesIn(LoadRecords(w, front), r);
    }
  }

  lemma NotYet(w: World, reg: Registry, front: seq<Record>, id: Entity)
    requires LoadedFrom(w, reg, front) && !HasId(front, id)
    ensures id !in w.ix.loc
  {
    hide WorldOk, Contents, RowsIn;
    StoreIds(reg, front);
    ContentsKeys(w.ix);
  }

  lemma {:induction false} EntitiesGoIn(w: World, rs: seq<Record>)
    requires Receptive(w) && KnownTypes(w.ix.reg, rs)
      && forall i :: 0 <= i < |rs| ==> IsHandle(rs[i].id) && AcceptsForeign(rs[i].id)
    ensures TryEntities(w, rs) == (ApplyEntities(w, rs), true)
    decreases rs
  {
    hide Receptive, LoadParts, CreatePreassigned, Contents, AcceptsForeign, IsHandle, TryRecord, Destroy, Registered;
    if rs != [] {
      var front, r := rs[..|rs| - 1], rs[|rs| - 1];
      assert forall i :: 0 <= i < |front| ==> front[i] == rs[i];
      EntitiesGoIn(w, front);
      ApplyEntitiesOk(w, front);
      var m := ApplyEntities(w, front);
      Vacated(m, r.id);
      RecordGoesIn(Destroy(m, r.id), r);
    }
  }

  lemma DueCompGoesIn(w: World, version: nat, e: Entity, c: DueComp)
    requires Receptive(w) && Registered(w.ix.reg, c.t)
    ensures TryDueComp(w, version, e, c) == (ApplyDueComp(w, version, e, c), true)
  {
    hide WorldOk, RegistryOk, Presented, ApplyDues, Contents, Has, Alive, Registered;
    if Alive(w.ix, e) { PresentedOk(w, version, e, c.t); }
  }

  lemma {:induction false} DueCompsGoIn(w: World, version: nat, e: Entity, cs: seq<DueComp>)
    requires Receptive(w) && forall i :: 0 <= i < |cs| ==> Registered(w.ix.reg, cs[i].t)
    ensures TryDueComps(w, version, e, cs) == (ApplyDueComps(w, version, e, cs), true)
  {
    hide Receptive, TryDueComp, ApplyDueComp, Contents, Alive, Registered;
    if cs != [] {
      var front := cs[..|cs| - 1];
      DueCompsGoIn(w, version, e, front);
      ApplyDueCompsOk(w, version, e, front);
      DueCompGoesIn(ApplyDueComps(w, version, e, front), version, e, cs[|cs| - 1]);
    }
  }

  ghost predicate KnownDues(reg: Registry, es: seq<DueEntity>) {
    forall i, j :: 0 <= i < |es| && 0 <= j < |es[i].comps| ==> Registered(reg, es[i].comps[j].t)
  }

  ghost function LiveIds(w: World, es: seq<DueEntity>): set<Entity> {
    set i | 0 <= i < |es| && Alive(w.ix, es[i].id) :: es[i].id
  }

  lemma LiveMore(w: World, es: seq<DueEntity>, e: DueEntity)
    ensures LiveIds(w, es + [e]) == LiveIds(w, es) + if Alive(w.ix, e.id) then {e.id} else {}
  {
    var all := es + [e];
    assert all[|es|] == e;
    forall i | 0 <= i < |es| ensures all[i] == es[i] {}
    forall x ensures x in LiveIds(w, all) <==> x in LiveIds(w, es) + if Alive(w.ix, e.id) then {e.id} else {} {
      if x in LiveIds(w, es) {
        var i :| 0 <= i < |es| && Alive(w.ix, es[i].id) && es[i].id == x;
        assert all[i].id == x;
      }
    }
  }

  lemma {:induction false} DeltaGoesIn(w: World, version: nat, es: seq<DueEntity>)
    requires Receptive(w) && KnownDues(w.ix.reg, es)
    ensures TryDelta(w, version, es) == Progress(ApplyDelta(w, version, es), LiveIds(w, es), true)
  {
    hide Receptive, TryDueComps, ApplyDueComps, Contents, Registered, MergeDelta, LiveIds;
    if es == [] {
      NobodyLive(w);
    } else {
      var front, e := es[..|es| - 1], es[|es| - 1];
      assert forall i :: 0 <= i < |front| ==> front[i] == es[i];
      DeltaGoesIn(w, version, front);
      ApplyDeltaOk(w, version, front);
      DueCompsGoIn(ApplyDelta(w, version, front), version, e.id, e.comps);
      ApplyDueCompsOk(ApplyDelta(w, version, front), version, e.id, e.comps);
      assert es == front + [e];
      LiveMore(w, front, e);
    }
  }

  lemma NobodyLive(w: World)
    ensures LiveIds(w, []) == {}
  {
  }

  // ------------------------------------------------------------------ during iteration

  /** What loading does to the store while no component can be added: bare entities appear, up to the first record that
      has a component, or whose id is refused. */
  ghost function BareRecord(store: Store, r: Record): (Store, bool) {
    if AcceptsForeign(r.id) && r.id !in store then (store[r.id := map[]], r.parts == []) else (store, false)
  }

  ghost function BareRecords(store: Store, rs: seq<Record>): (Store, bool) {
    if rs == [] then (store, true) else
      var front := BareRecords(store, rs[..|rs| - 1]);
      if front.1 then BareRecord(front.0, rs[|rs| - 1]) else front
  }

  lemma {:induction false} PartsRefused(w: World, e: Entity, ps: seq<Part>)
    requires w.depth > 0 && e in w.ix.loc && w.ix.loc[e].key == {}
    ensures TryParts(w, e, ps) == (w, ps == [])
    decreases ps
  {
    if ps != [] { PartsRefused(w, e, ps[..|ps| - 1]); }
  }

  lemma CreatedBare(w: World, id: Entity)
    requires AcceptsForeign(id) && id !in w.ix.loc && {} in w.ix.archs
    ensures var v := CreatePreassigned(w, id); id in v.ix.loc && v.ix.loc[id].key == {} && v.depth == w.depth
  {
  }

  lemma RecordBare(w: World, r: Record)
    requires WorldOk(w) && w.depth > 0 && IsHandle(r.id)
    ensures var v := TryRecord(w, r);
      && WorldOk(v.0) && v.0.depth == w.depth && v.0.ix.reg == w.ix.reg
      && (Contents(v.0.ix), v.1) == BareRecord(Contents(w.ix), r)
  {
    hide WorldOk, CreatePreassigned, Contents, AcceptsForeign, IsHandle, TryParts;
    CreatePreassignedOk(w, r.id);
    CreatePreassignedKeeps(w, r.id);
    ContentsKeys(w.ix);
    if AcceptsForeign(r.id) && r.id !in w.ix.loc {
      assert {} in w.ix.archs by { EmptyArch(w); }
      CreatedBare(w, r.id);
      PartsRefused(CreatePreassigned(w, r.id), r.id, r.parts);
    }
  }

  lemma EmptyArch(w: World)
    requires WorldOk(w)
    ensures {} in w.ix.archs
  {
  }

  /** Loading while the world is iterated. */
  lemma {:induction false} RecordsBare(w: World, rs: seq<Record>)
    requires WorldOk(w) && w.depth > 0 && forall i :: 0 <= i < |rs| ==> IsHandle(rs[i].id)
    ensures var v := TryRecords(w, rs);
      && WorldOk(v.0) && v.0.depth == w.depth && v.0.ix.reg == w.ix.reg
      && (Contents(v.0.ix), v.1) == BareRecords(Contents(w.ix), rs)
    decreases rs
  {
    hide WorldOk, TryRecord, BareRecord, Contents, IsHandle;
    if rs != [] {
      var front := rs[..|rs| - 1];
      assert forall i :: 0 <= i < |front| ==> front[i] == rs[i];
      RecordsBare(w, front);
      RecordBare(TryRecords(w, front).0, rs[|rs| - 1]);
    }
  }

  /** Nothing is destroyed first, so a live id is refused: applying entities is loading them. */
  lemma {:induction false} EntitiesAreRecords(w: World, rs: seq<Record>)
    requires WorldOk(w) && w.depth > 0 && forall i :: 0 <= i < |rs| ==> IsHandle(rs[i].id)
    ensures TryEntities(w, rs) == TryRecords(w, rs)
    decreases rs
  {
    hide WorldOk, TryRecord, Contents, IsHandle;
    if rs != [] {
      var front := rs[..|rs| - 1];
      assert forall i :: 0 <= i < |front| ==> front[i] == rs[i];
      EntitiesAreRecords(w, front);
      RecordsBare(w, front);
      NotDestroyed(TryRecords(w, front).0, rs[|rs| - 1].id);
    }
  }

  lemma NotDestroyed(w: World, e: Entity)
    requires w.depth > 0
    ensures Destroy(w, e) == w
  {
  }

  lemma {:induction false} NobodyDestroyed(w: World, es: seq<Entity>, keep: set<Entity>)
    requires w.depth > 0
    ensures DestroyAbsent(w, es, keep) == w
  {
    hide Destroy;
    if es != [] {
      NobodyDestroyed(w, es[..|es| - 1], keep);
      NotDestroyed(w, es[|es| - 1]);
    }
  }

  /** A delta still reaches the components that are there, up to the first one that is not. */
  ghost function HeldComps(reg: Registry, comps: Comps, version: nat, cs: seq<DueComp>): (Comps, bool) {
    if cs == [] then (comps, true) else
      var front, c := HeldComps(reg, comps, version, cs[..|cs| - 1]), cs[|cs| - 1];
      if front.1 && c.t in front.0 then (MergeComp(reg, front.0, version, c), true) else (front.0, false)
  }

  ghost function HeldDelta(reg: Registry, store: Store, version: nat, es: seq<DueEntity>): (Store, bool) {
    if es == [] then (store, true) else
      var front, e := HeldDelta(reg, store, version, es[..|es| - 1]), es[|es| - 1];
      if !front.1 || e.id !in front.0 then front else
        var cs := HeldComps(reg, front.0[e.id], version, e.comps);
        (front.0[e.id := cs.0], cs.1)
  }

  lemma CompHeld(w: World, version: nat, e: Entity, c: DueComp)
    requires Healthy(w) && w.depth > 0 && Registered(w.ix.reg, c.t) && Alive(w.ix, e)
    ensures var v := TryDueComp(w, version, e, c);
      && Healthy(v.0) && v.0.depth == w.depth && v.0.ix.reg == w.ix.reg && v.0.ix.loc.Keys == w.ix.loc.Keys
      && e in Contents(w.ix) && (v.1 <==> c.t in Contents(w.ix)[e])
      && Contents(v.0.ix) == if v.1 then Contents(w.ix)[e := MergeComp(w.ix.reg, Contents(w.ix)[e], version, c)]
         else Contents(w.ix)
  {
    hide Coherent, SlotsOk, RegistryOk, Presented, ApplyDues, Contents, MergeComp, Registered;
    ContentsKeys(w.ix);
    StoredComps(w.ix, e);
    if Has(w.ix, e, c.t) {
      ApplyDueCompOk(w, version, e, c);
      PresentedOk(w, version, e, c.t);
    } else {
      NotPresented(w, version, e, c.t);
    }
  }

  lemma NotPresented(w: World, version: nat, e: Entity, t: TypeId)
    requires w.depth > 0 && Alive(w.ix, e) && !Has(w.ix, e, t)
    ensures Presented(w, version, e, t) == w
  {
  }

  lemma {:induction false} CompsHeld(w: World, version: nat, e: Entity, cs: seq<DueComp>)
    requires Healthy(w) && w.depth > 0 && forall i :: 0 <= i < |cs| ==> Registered(w.ix.reg, cs[i].t)
    ensures var v := TryDueComps(w, version, e, cs);
      && Healthy(v.0) && v.0.depth == w.depth && v.0.ix.reg == w.ix.reg && v.0.ix.loc.Keys == w.ix.loc.Keys
      && (e in Contents(w.ix) <==> Alive(w.ix, e))
      && if Alive(w.ix, e)
         then var held := HeldComps(w.ix.reg, Contents(w.ix)[e], version, cs);
           Contents(v.0.ix) == Contents(w.ix)[e := held.0] && v.1 == held.1
         else v == (w, true)
  {
    hide Healthy, TryDueComp, Contents, MergeComp, Registered;
    AliveIsStored(w, e);
    if cs == [] {
      if e in Contents(w.ix) { assert Contents(w.ix)[e := Contents(w.ix)[e]] == Contents(w.ix); }
    } else {
      var front, c := cs[..|cs| - 1], cs[|cs| - 1];
      CompsHeld(w, version, e, front);
      var m := TryDueComps(w, version, e, front);
      if Alive(w.ix, e) {
        if m.1 { CompHeld(m.0, version, e, c); }
      } else {
        DeadSkipped(w, version, e, c);
      }
    }
  }

  lemma DeadSkipped(w: World, version: nat, e: Entity, c: DueComp)
    requires !Alive(w.ix, e)
    ensures TryDueComp(w, version, e, c) == (w, true)
  {
  }

  lemma {:induction false} DeltaHeld(w: World, version: nat, es: seq<DueEntity>)
    requires Healthy(w) && w.depth > 0 && KnownDues(w.ix.reg, es)
    ensures var v := TryDelta(w, version, es);
      && Healthy(v.w) && v.w.depth == w.depth && v.w.ix.reg == w.ix.reg && v.w.ix.loc.Keys == w.ix.loc.Keys
      && (Contents(v.w.ix), v.done) == HeldDelta(w.ix.reg, Contents(w.ix), version, es)
  {
    hide Healthy, TryDueComps, Contents, HeldComps, Registered;
    if es != [] {
      var front, e := es[..|es| - 1], es[|es| - 1];
      assert forall i :: 0 <= i < |front| ==> front[i] == es[i];
      DeltaHeld(w, version, front);
      CompsHeld(TryDelta(w, version, front).w, version, e.id, e.comps);
    }
  }

  // ------------------------------------------------------------------ a refused load

  /** Loading accepted records into a world that is iterated reports success if and only if none of them has a component
      or a live id; it leaves the store as it was if and only if there is none, or the first one is live already. */
  lemma {:induction false} BareIff(store: Store, reg: Registry, rs: seq<Record>)
    requires RecordsOk(reg, rs)
    ensures BareRecords(store, rs).1 <==> forall i :: 0 <= i < |rs| ==> rs[i].parts == [] && rs[i].id !in store
    ensures BareRecords(store, rs).0 == store <==> rs == [] || rs[0].id in store
    ensures forall e :: e in store ==> e in BareRecords(store, rs).0 && BareRecords(store, rs).0[e] == store[e]
    ensures forall e :: e in BareRecords(store, rs).0 && e !in store ==>
      HasId(rs, e) && BareRecords(store, rs).0[e] == map[]
  {
    hide PartOk, AcceptsForeign, IsHandle;
    if rs != [] {
      var front, r := rs[..|rs| - 1], rs[|rs| - 1];
      assert forall i :: 0 <= i < |front| ==> front[i] == rs[i];
      assert rs == front + [r] && RecordOk(reg, r);
      BareIff(store, reg, front);
      forall e | HasId(front, e) ensures HasId(rs, e) {
        var i :| 0 <= i < |front| && front[i].id == e;
        assert rs[i].id == e;
      }
      assert HasId(rs, r.id);
      assert !HasId(front, r.id);
    }
  }
}
