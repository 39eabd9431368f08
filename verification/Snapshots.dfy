/** Loading a snapshot into a world, and why saving the loaded world gives the same bytes. */
module Snapshots {
  import opened Base
  import opened Schema
  import opened Storage
  import opened StorageLaws
  import opened Operations
  import opened CommandLaws
  import opened Wire
  import opened SnapshotFormat

  /** All components have well-formed field tables. */
  ghost predicate RegistryOk(reg: Registry) {
    forall t :: Registered(reg, t) ==> FieldsOk(SchemaOf(reg, t).fields, SizeOf(reg, t))
  }

  // ------------------------------------------------------------------ rows of archetypes

  ghost function RowsIn(w: Index, k: Key): seq<Entity> {
    if k in w.archs then w.archs[k].entities else []
  }

  lemma RowsDetached(w: Index, e: Entity, rest: seq<Entity>, k: Key)
    requires Shaped(w) && e in w.loc && RowsIn(w, w.loc[e].key) == rest + [e]
    ensures RowsIn(Detach(w, e), k) == if k == w.loc[e].key then rest else RowsIn(w, k)
  {
    assert Placed(w, e) && ArchOk(w, w.loc[e].key);
    var a := w.archs[w.loc[e].key];
    assert a.entities[|rest|] == e;
    assert a.Removed(e).entities == rest;
  }

  lemma RowsAttached(w: Index, e: Entity, to: Key, cells: map<TypeId, Cell>, tick: Tick, k: Key)
    requires to in w.archs
    ensures RowsIn(Attach(w, e, to, cells, tick), k) == if k == to then RowsIn(w, k) + [e] else RowsIn(w, k)
  {
  }

  lemma RowsEnsured(w: Index, to: Key, k: Key)
    ensures RowsIn(Ensure(w, to), k) == RowsIn(w, k) && to in Ensure(w, to).archs && Ensure(w, to).loc == w.loc
  {
  }

  /** Moving the last entity of an archetype appends it to the target and swaps nothing. */
  lemma MoveLast(w: World, e: Entity, to: Key, rest: seq<Entity>, k: Key)
    requires Shaped(w.ix) && e in w.ix.loc && to != w.ix.loc[e].key && RowsIn(w.ix, w.ix.loc[e].key) == rest + [e]
    requires forall t :: t in to ==> Registered(w.ix.reg, t)
    ensures RowsIn(ChangeKey(w, e, to).ix, k) ==
      (if k == to then RowsIn(w.ix, to) + [e] else if k == w.ix.loc[e].key then rest else RowsIn(w.ix, k))
  {
    hide CellsOf, Shaped, RowsIn, Attach, Detach, Ensure, Registered;
    var m := Ensure(w.ix, to);
    EnsureShaped(w.ix, to);
    RowsEnsured(w.ix, to, k);
    RowsEnsured(w.ix, to, to);
    RowsEnsured(w.ix, to, w.ix.loc[e].key);
    RowsDetached(m, e, rest, k);
    DetachShaped(m, e);
    RowsAttached(Detach(m, e), e, to, CellsOf(m, e), w.clock.tick, k);
  }

  // ------------------------------------------------------------------ loading

  ghost function LoadPart(w: World, e: Entity, p: Part): World {
    if !Registered(w.ix.reg, p.t) || |p.block| != BlockSize(SchemaOf(w.ix.reg, p.t), p.mask) || !RegistryOk(w.ix.reg)
      then w else
      Poke(AddRaw(w, e, p.t, None), e, p.t,
        ReadBlock(SchemaOf(w.ix.reg, p.t), p.mask, Zeros(SizeOf(w.ix.reg, p.t)), p.block))
  }

  ghost function LoadParts(w: World, e: Entity, ps: seq<Part>): World
    decreases ps
  {
    if ps == [] then w else LoadPart(LoadParts(w, e, ps[..|ps| - 1]), e, ps[|ps| - 1])
  }

  ghost function LoadRecords(w: World, rs: seq<Record>): World
    decreases rs
  {
    if rs == [] then w else
      var r := rs[|rs| - 1];
      LoadParts(CreatePreassigned(LoadRecords(w, rs[..|rs| - 1]), r.id), r.id, r.parts)
  }

  /** The components a record describes: a later part of the same type replaces an earlier one. */
  ghost function Built(reg: Registry, ps: seq<Part>): Comps {
    if ps == [] then map[] else
      var p := ps[|ps| - 1];
      var front := Built(reg, ps[..|ps| - 1]);
      if Registered(reg, p.t) && |p.block| == BlockSize(SchemaOf(reg, p.t), p.mask) && RegistryOk(reg)
      then front[p.t := ReadBlock(SchemaOf(reg, p.t), p.mask, Zeros(SizeOf(reg, p.t)), p.block)] else front
  }

  /** While its parts are loaded, the entity stays the last row of whatever archetype it is in, and every other
      row stays where it was. */
  ghost predicate OnTop(base: Index, w: World, e: Entity, comps: Comps) {
    && WorldOk(w) && w.depth <= 0 && w.ix.reg == base.reg && e != NO_ENTITY && e in w.ix.loc
       && w.ix.loc[e].key == comps.Keys
    && (forall k :: RowsIn(w.ix, k) == RowsIn(base, k) + if k == comps.Keys then [e] else [])
    && Contents(w.ix) == Contents(base)[e := comps]
  }

  lemma AddedOnTop(base: Index, w: World, e: Entity, comps: Comps, t: TypeId)
    requires OnTop(base, w, e, comps) && Registered(base.reg, t)
    ensures OnTop(base, AddRaw(w, e, t, None), e, comps[t := Zeros(SizeOf(base.reg, t))])
  {
    hide WorldOk, RowsIn, Contents, SizeOf, Registered, AddRaw;
    var v := AddRaw(w, e, t, None);
    NoData(w.ix.reg, t);
    AddRawOk(w, e, t, None);
    AddRawKeeps(w, e, t, None);
    assert e in Contents(w.ix) by { ContentsKeys(w.ix); }
    AddedKey(w, e, t);
    assert comps.Keys + {t} == comps[t := Zeros(SizeOf(base.reg, t))].Keys;
    forall k ensures RowsIn(v.ix, k) == RowsIn(base, k) + if k == comps.Keys + {t} then [e] else [] {
      AddedRows(w, e, t, RowsIn(base, comps.Keys), k);
    }
  }

  lemma AddedKey(w: World, e: Entity, t: TypeId)
    requires WorldOk(w) && w.depth <= 0 && e != NO_ENTITY && e in w.ix.loc && Registered(w.ix.reg, t)
    ensures e in AddRaw(w, e, t, None).ix.loc && AddRaw(w, e, t, None).ix.loc[e].key == w.ix.loc[e].key + {t}
  {
    hide Shaped, AddRaw, CellsOf, Registered;
    ShapedOf(w);
    AddRawCells(w, e, t, None);
  }

  lemma AddedRows(w: World, e: Entity, t: TypeId, rest: seq<Entity>, k: Key)
    requires WorldOk(w) && w.depth <= 0 && e != NO_ENTITY && e in w.ix.loc && Registered(w.ix.reg, t)
    requires RowsIn(w.ix, w.ix.loc[e].key) == rest + [e]
    ensures var key := w.ix.loc[e].key;
      RowsIn(AddRaw(w, e, t, None).ix, k) ==
        (if k == key + {t} then RowsIn(w.ix, k) + (if t in key then [] else [e])
          else if k == key then rest else RowsIn(w.ix, k))
  {
    hide Shaped, CellsOf, ChangeKey, RowsIn, Registered, WriteCell;
    ShapedOf(w);
    var key := w.ix.loc[e].key;
    if t in key {
      assert key + {t} == key;
      WrittenRows(w, e, t, Payload(w.ix.reg, t, None), k);
    } else {
      KeyRegistered(w.ix, e);
      MoveLast(w, e, key + {t}, rest, k);
      ChangeKeyCells(w, e, key + {t});
      WrittenRows(ChangeKey(w, e, key + {t}), e, t, Payload(w.ix.reg, t, None), k);
    }
  }

  lemma WrittenRows(w: World, e: Entity, t: TypeId, data: Bytes, k: Key)
    ensures RowsIn(WriteCell(w, e, t, data).ix, k) == RowsIn(w.ix, k)
  {
  }

  lemma PokedRows(w: World, e: Entity, t: TypeId, data: Bytes, k: Key)
    ensures RowsIn(Poke(w, e, t, data).ix, k) == RowsIn(w.ix, k)
  {
  }

  lemma PokedOnTop(base: Index, w: World, e: Entity, comps: Comps, t: TypeId, data: Bytes)
    requires OnTop(base, w, e, comps) && t in comps && Registered(base.reg, t) && |data| == SizeOf(base.reg, t)
    ensures OnTop(base, Poke(w, e, t, data), e, comps[t := data])
  {
    hide WorldOk, RowsIn, Contents, Poke;
    PokeOk(w, e, t, data);
    assert comps[t := data].Keys == comps.Keys;
    forall k ensures RowsIn(Poke(w, e, t, data).ix, k) == RowsIn(w.ix, k) { PokedRows(w, e, t, data, k); }
  }

  lemma {:induction false} PartsOnTop(base: Index, w: World, e: Entity, ps: seq<Part>)
    requires OnTop(base, w, e, map[]) && RegistryOk(base.reg)
    ensures OnTop(base, LoadParts(w, e, ps), e, Built(base.reg, ps))
    decreases ps
  {
    hide OnTop, AddRaw, Poke, BlockSize, ReadBlock, RegistryOk, Registered, SizeOf, SchemaOf;
    if ps != [] {
      var front, p := ps[..|ps| - 1], ps[|ps| - 1];
      PartsOnTop(base, w, e, front);
      var m, comps := LoadParts(w, e, front), Built(base.reg, front);
      assert m.ix.reg == base.reg by { OnTopReg(base, m, e, comps); }
      if Registered(base.reg, p.t) && |p.block| == BlockSize(SchemaOf(base.reg, p.t), p.mask) {
        PartLoaded(base, m, e, comps, p);
      }
    }
  }

  lemma OnTopReg(base: Index, w: World, e: Entity, comps: Comps)
    requires OnTop(base, w, e, comps)
    ensures w.ix.reg == base.reg
  {
  }

  lemma PartLoaded(base: Index, w: World, e: Entity, comps: Comps, p: Part)
    requires OnTop(base, w, e, comps) && RegistryOk(base.reg) && Registered(base.reg, p.t)
      && |p.block| == BlockSize(SchemaOf(base.reg, p.t), p.mask)
    ensures OnTop(base, LoadPart(w, e, p), e,
      comps[p.t := ReadBlock(SchemaOf(base.reg, p.t), p.mask, Zeros(SizeOf(base.reg, p.t)), p.block)])
  {
    hide OnTop, AddRaw, Poke, BlockSize, ReadBlock;
    OnTopReg(base, w, e, comps);
    var zeros, size := Zeros(SizeOf(base.reg, p.t)), SizeOf(base.reg, p.t);
    var row := ReadBlock(SchemaOf(base.reg, p.t), p.mask, zeros, p.block);
    AddedOnTop(base, w, e, comps, p.t);
    PokedOnTop(base, AddRaw(w, e, p.t, None), e, comps[p.t := zeros], p.t, row);
    assert comps[p.t := zeros][p.t := row] == comps[p.t := row];
  }

  // ------------------------------------------------------------------ all records

  /** The saved ids of one component set, in file order. */
  ghost function IdsWith(reg: Registry, rs: seq<Record>, k: Key): seq<Entity> {
    if rs == [] then [] else
      IdsWith(reg, rs[..|rs| - 1], k) + if Built(reg, rs[|rs| - 1].parts).Keys == k then [rs[|rs| - 1].id] else []
  }

  ghost function StoreOf(reg: Registry, rs: seq<Record>): Store {
    if rs == [] then map[] else StoreOf(reg, rs[..|rs| - 1])[rs[|rs| - 1].id := Built(reg, rs[|rs| - 1].parts)]
  }

  ghost predicate LoadedFrom(w: World, reg: Registry, rs: seq<Record>) {
    && WorldOk(w) && w.depth <= 0 && w.ix.reg == reg
    && (forall k :: RowsIn(w.ix, k) == IdsWith(reg, rs, k))
    && Contents(w.ix) == StoreOf(reg, rs)
  }

  lemma CreatedOnTop(w: World, id: Entity)
    requires WorldOk(w) && w.depth <= 0 && IsHandle(id) && AcceptsForeign(id) && id !in w.ix.loc
    ensures OnTop(w.ix, CreatePreassigned(w, id), id, map[])
  {
    hide Shaped, CellsOf, Attach, SlotsOk, Sized, ResizedGenerations, Contents;
    NoForeignZero();
    CreatePreassignedOk(w, id);
    CreatePreassignedKeeps(w, id);
    assert {} in w.ix.archs by { ShapedOf(w); }
    var g := ResizedGenerations(w.slots.generations, Slot(id) + 1);
    assert |g| > Slot(id);
    var v := w.(slots := w.slots.(generations := g[Slot(id) := Generation(id)]));
    assert CreatePreassigned(w, id) == Spawn(v, id);
    assert Coherent(v.ix);
    SpawnStore(v, id);
    ContentsKeys(Spawn(v, id).ix);
    forall k ensures RowsIn(Spawn(v, id).ix, k) == RowsIn(w.ix, k) + if k == {} then [id] else [] {
      RowsAttached(v.ix, id, {}, map[], v.clock.tick, k);
    }
    var none: Comps := map[];
    assert none.Keys == {};
  }

  lemma {:induction false} StoreIds(reg: Registry, rs: seq<Record>)
    ensures forall e :: e in StoreOf(reg, rs) <==> HasId(rs, e)
  {
    if rs != [] {
      StoreIds(reg, rs[..|rs| - 1]);
      forall e ensures HasId(rs, e) <==> HasId(rs[..|rs| - 1], e) || rs[|rs| - 1].id == e {
        if HasId(rs[..|rs| - 1], e) {
          var i :| 0 <= i < |rs| - 1 && rs[..|rs| - 1][i].id == e;
          assert rs[i].id == e;
        }
        if HasId(rs, e) && rs[|rs| - 1].id != e {
          var i :| 0 <= i < |rs| && rs[i].id == e;
          assert rs[..|rs| - 1][i].id == e;
        }
      }
    }
  }

  lemma RecordLoaded(w: World, reg: Registry, front: seq<Record>, r: Record)
    requires LoadedFrom(w, reg, front) && RegistryOk(reg) && RecordOk(reg, r) && !HasId(front, r.id)
    ensures LoadedFrom(LoadParts(CreatePreassigned(w, r.id), r.id, r.parts), reg, front + [r])
  {
    hide WorldOk, Contents, RowsIn, CreatePreassigned, RegistryOk, PartOk, LoadParts, Built, AcceptsForeign;
    StoreIds(reg, front);
    ContentsKeys(w.ix);
    CreatedOnTop(w, r.id);
    PartsOnTop(w.ix, CreatePreassigned(w, r.id), r.id, r.parts);
    assert (front + [r])[..|front|] == front;
  }

  /** Loading well-formed records into an emptied world gives exactly their entities, components and bytes, each
      archetype's rows in file order. */
  lemma {:induction false} LoadRecordsOk(w: World, reg: Registry, rs: seq<Record>)
    requires LoadedFrom(w, reg, []) && RegistryOk(reg) && RecordsOk(reg, rs)
    ensures LoadedFrom(LoadRecords(w, rs), reg, rs)
    decreases rs
  {
    hide LoadedFrom, RegistryOk, RecordOk, LoadParts, CreatePreassigned;
    if rs != [] {
      var front, r := rs[..|rs| - 1], rs[|rs| - 1];
      LoadRecordsOk(w, reg, front);
      forall i | 0 <= i < |front| ensures front[i].id != r.id { assert front[i] == rs[i]; }
      RecordLoaded(LoadRecords(w, front), reg, front, r);
      assert rs == front + [r];
    }
  }

  /** `clear` leaves nothing loaded, in whatever order it walks the index. */
  lemma ClearedIsEmpty(w: World, order: seq<Entity>)
    requires WorldOk(w) && w.depth <= 0 && forall e :: e in w.ix.loc ==> e in order
    ensures LoadedFrom(Clear(w, order), w.ix.reg, [])
  {
    hide WorldOk, Clear;
    ClearOk(w, order);
  }

  // ------------------------------------------------------------------ what is saved

  ghost predicate CompsSized(reg: Registry, comps: Comps) {
    forall t :: t in comps ==> Registered(reg, t) && |comps[t]| == SizeOf(reg, t)
  }

  ghost function PartFor(reg: Registry, comps: Comps, t: TypeId): Part {
    if t in comps && CompsSized(reg, comps) && RegistryOk(reg)
      then Part(t, [], Block(SchemaOf(reg, t), [], comps[t])) else Part(t, [], [])
  }

  ghost function PartsFor(reg: Registry, comps: Comps, ids: seq<TypeId>): seq<Part> {
    if ids == [] then [] else PartsFor(reg, comps, ids[..|ids| - 1]) + [PartFor(reg, comps, ids[|ids| - 1])]
  }

  /** One entity as it is saved: its components by ascending type id. */
  ghost function RecordFor(reg: Registry, e: Entity, comps: Comps): Record {
    Record(e, PartsFor(reg, comps, SortedIds(comps.Keys)))
  }

  lemma {:induction false} PartsForAt(reg: Registry, comps: Comps, ids: seq<TypeId>)
    ensures |PartsFor(reg, comps, ids)| == |ids|
      && forall i :: 0 <= i < |ids| ==> PartsFor(reg, comps, ids)[i] == PartFor(reg, comps, ids[i])
  {
    if ids != [] { PartsForAt(reg, comps, ids[..|ids| - 1]); }
  }

  /** An entity is saved with each of its components once, by ascending type. */
  lemma SavedByType(reg: Registry, e: Entity, comps: Comps)
    ensures var ps := RecordFor(reg, e, comps).parts;
      && (forall i, j :: 0 <= i < j < |ps| ==> ps[i].t < ps[j].t)
      && forall t :: t in comps <==> exists i :: 0 <= i < |ps| && ps[i].t == t
  {
    hide CompsSized, RegistryOk;
    var ids, ps := SortedIds(comps.Keys), RecordFor(reg, e, comps).parts;
    PartsForAt(reg, comps, ids);
    assert forall i :: 0 <= i < |ids| ==> ps[i].t == ids[i];
    forall t | t in comps ensures exists i :: 0 <= i < |ps| && ps[i].t == t {
      assert t in ids;
      var i :| 0 <= i < |ids| && ids[i] == t;
      assert ps[i].t == t;
    }
  }

  /** What loading makes of a saved component: the same wire bytes. */
  ghost predicate SameOnWire(reg: Registry, a: Comps, b: Comps) {
    a.Keys == b.Keys && CompsSized(reg, a) && CompsSized(reg, b)
    && forall t :: t in a ==> PartFor(reg, b, t) == PartFor(reg, a, t)
  }

  lemma {:induction false} BuiltFrom(reg: Registry, comps: Comps, ids: seq<TypeId>)
    requires RegistryOk(reg) && CompsSized(reg, comps) && Sorted(ids) && forall t :: t in ids ==> t in comps
    ensures var b := Built(reg, PartsFor(reg, comps, ids));
      (forall t :: t in b <==> t in ids) && CompsSized(reg, b)
        && forall t :: t in b ==> PartFor(reg, b, t) == PartFor(reg, comps, t)
  {
    hide Block, ReadBlock, BlockSize, SchemaOf;
    if ids != [] {
      var front, t := ids[..|ids| - 1], ids[|ids| - 1];
      BuiltFrom(reg, comps, front);
      var p := PartFor(reg, comps, t);
      var s := SchemaOf(reg, t);
      assert PartsFor(reg, comps, ids)[..|PartsFor(reg, comps, front)|] == PartsFor(reg, comps, front);
      SchemaFits(reg, t);
      BlockRoundTrip(s, [], comps[t], Zeros(SizeOf(reg, t)));
      assert forall u :: u in ids <==> u in front || u == t;
      BuiltMore(reg, comps, Built(reg, PartsFor(reg, comps, front)), t,
        ReadBlock(s, [], Zeros(SizeOf(reg, t)), p.block));
    }
  }

  lemma SchemaFits(reg: Registry, t: TypeId)
    requires RegistryOk(reg) && Registered(reg, t)
    ensures FieldsOk(SchemaOf(reg, t).fields, SchemaOf(reg, t).size) && SizeOf(reg, t) == SchemaOf(reg, t).size
  {
  }

  lemma BuiltMore(reg: Registry, comps: Comps, front: Comps, t: TypeId, row: Bytes)
    requires RegistryOk(reg) && CompsSized(reg, comps) && CompsSized(reg, front) && t in comps && t !in front
    requires forall u :: u in front ==> u in comps && PartFor(reg, front, u) == PartFor(reg, comps, u)
    requires |row| == SizeOf(reg, t) && FieldsOk(SchemaOf(reg, t).fields, SchemaOf(reg, t).size)
    requires Block(SchemaOf(reg, t), [], row) == Block(SchemaOf(reg, t), [], comps[t])
    ensures var b := front[t := row];
      CompsSized(reg, b) && forall u :: u in b ==> PartFor(reg, b, u) == PartFor(reg, comps, u)
  {
    hide Block, SchemaOf, Registered, FieldsOk;
    var b := front[t := row];
    assert CompsSized(reg, b);
    forall u | u in b ensures PartFor(reg, b, u) == PartFor(reg, comps, u) {
      if u != t { assert PartFor(reg, front, u) == PartFor(reg, comps, u); }
    }
  }

  lemma RebuiltSame(reg: Registry, e: Entity, comps: Comps)
    requires RegistryOk(reg) && CompsSized(reg, comps)
    ensures SameOnWire(reg, comps, Built(reg, RecordFor(reg, e, comps).parts))
    ensures RecordFor(reg, e, Built(reg, RecordFor(reg, e, comps).parts)) == RecordFor(reg, e, comps)
  {
    hide Built, PartFor, CompsSized, RegistryOk;
    var ids := SortedIds(comps.Keys);
    var b := Built(reg, PartsFor(reg, comps, ids));
    BuiltFrom(reg, comps, ids);
    assert forall t :: t in b.Keys <==> t in comps.Keys;
    PartsForAt(reg, comps, ids);
    PartsForAt(reg, b, ids);
    forall i | 0 <= i < |ids| ensures PartFor(reg, b, ids[i]) == PartFor(reg, comps, ids[i]) { assert ids[i] in ids; }
    assert PartsFor(reg, b, ids) == PartsFor(reg, comps, ids);
  }
}
