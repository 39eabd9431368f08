/** Every operation, and so every run, keeps what change views rely on. */
module ChangeRuns {
  import opened Base
  import opened Schema
  import opened Storage
  import opened StorageLaws
  import opened Operations
  import opened Commands
  import opened CommandLaws
  import opened Wire
  import opened Buffers
  import opened SnapshotFormat
  import opened Snapshots
  import opened Replicas
  import opened Deltas
  import opened Attempts
  import opened Receiving
  import opened Runs
  import Packets
  import opened Changes
  import opened ChangeLaws

  ghost predicate Trusted(w: World, v: Viewer) {
    Shaped(w.ix) && Timed(w) && Watching(w, v, {})
  }

  /** Slots, depth and events play no part. */
  lemma SameTrust(a: World, b: World, v: Viewer)
    requires Trusted(a, v) && b.ix == a.ix && b.clock == a.clock
    ensures Trusted(b, v)
  {
    hide Shaped, CellsOf, IndexTimed, AllTracked, Dirty, Noted;
    forall e ensures Caught(a, v, e) == Caught(b, v, e) {}
  }

  lemma SpawnTrust(w: World, b: World, v: Viewer, e: Entity)
    requires Trusted(w, v) && Coherent(w.ix) && e !in w.ix.loc && e != NO_ENTITY
    requires b.ix == Spawn(w, e).ix && b.clock == w.clock
    ensures Trusted(b, v)
  {
    hide Shaped, Timed, Watching, Sized, Attach;
    SpawnTicks(w, e);
    SpawnWatch(w, v, {}, e);
    SameTrust(Spawn(w, e), b, v);
  }

  lemma DetachTrust(w: World, b: World, v: Viewer, e: Entity)
    requires Trusted(w, v) && e in w.ix.loc && b.ix == Detach(w.ix, e) && b.clock == w.clock
    ensures Trusted(b, v)
  {
    hide Shaped, Timed, Watching, Detach;
    DetachTicks(w, b, e);
    DetachWatch(w, b, v, {}, e);
  }

  lemma CreateTrust(w: World, v: Viewer)
    requires Trusted(w, v) && WorldOk(w) && NextId(w.slots) !in w.ix.loc
    ensures Trusted(Create(w), v)
  {
    hide Trusted, WorldOk, NextId, Allocate, Spawn, Sized, Shaped;
    CoherentOf(w);
    if NextId(w.slots) != NO_ENTITY {
      SpawnSlots(w, w.(slots := Allocate(w.slots)), NextId(w.slots));
      SpawnTrust(w, Create(w), v, NextId(w.slots));
    } else {
      SameTrust(w, Create(w), v);
    }
  }

  lemma CoherentOf(w: World)
    requires WorldOk(w)
    ensures Coherent(w.ix) && Shaped(w.ix)
  {
  }

  lemma SpawnSlots(w: World, b: World, e: Entity)
    requires b.ix == w.ix && b.clock == w.clock
    ensures Spawn(b, e).ix == Spawn(w, e).ix && Spawn(b, e).clock == w.clock
  {
  }

  lemma CreateForeignTrust(w: World, v: Viewer, id: Entity)
    requires Trusted(w, v) && WorldOk(w) && IsHandle(id)
    ensures Trusted(CreatePreassigned(w, id), v)
  {
    hide Trusted, WorldOk, Spawn, Sized, Shaped, ResizedGenerations;
    CoherentOf(w);
    NoForeignZero();
    if AcceptsForeign(id) && id !in w.ix.loc {
      var g := ResizedGenerations(w.slots.generations, Slot(id) + 1);
      assert |g| > Slot(id);
      SpawnSlots(w, w.(slots := w.slots.(generations := g[Slot(id) := Generation(id)])), id);
      SpawnTrust(w, CreatePreassigned(w, id), v, id);
    } else {
      SameTrust(w, CreatePreassigned(w, id), v);
    }
  }

  lemma CreatePooledTrust(w: World, v: Viewer)
    requires Trusted(w, v) && WorldOk(w) && PooledId(w.slots) !in w.ix.loc
    ensures Trusted(CreatePooled(w), v)
  {
    hide Trusted, Spawn, Coherent, Create;
    var n := |w.slots.pool|;
    if n == 0 {
      CreateTrust(w, v);
    } else {
      CoherentOf(w);
      SpawnSlots(w, w.(slots := w.slots.(pool := w.slots.pool[..n - 1])), w.slots.pool[n - 1]);
      SpawnTrust(w, CreatePooled(w), v, w.slots.pool[n - 1]);
    }
  }

  lemma DestroyTrust(w: World, v: Viewer, e: Entity)
    requires Trusted(w, v)
    ensures Trusted(Destroy(w, e), v) && Trusted(DestroyPooled(w, e), v)
  {
    hide Trusted, Detach, FreeId, RemovedEvents;
    if e in w.ix.loc && w.depth <= 0 {
      DetachTrust(w, Destroy(w, e), v, e);
      DetachTrust(w, DestroyPooled(w, e), v, e);
    }
  }

  lemma OverwriteTrust(w: World, b: World, v: Viewer, e: Entity, t: TypeId, data: Bytes)
    requires Trusted(w, v) && Has(w.ix, e, t) && b.ix == WriteCell(w, e, t, data).ix
      && b.clock == WriteCell(w, e, t, data).clock
    ensures Trusted(b, v)
  {
    hide Shaped, Timed, WriteCell, Watching;
    WriteCellTicks(w, e, t, data);
    WriteWatch(w, v, {}, e, t, data);
    assert {} - {e} == {};
    SameTrust(WriteCell(w, e, t, data), b, v);
  }

  lemma GainTrust(w: World, b: World, v: Viewer, e: Entity, t: TypeId, data: Bytes)
    requires Trusted(w, v) && e in w.ix.loc && t !in w.ix.loc[e].key && Registered(w.ix.reg, t)
    requires var c := WriteCell(ChangeKey(w, e, w.ix.loc[e].key + {t}), e, t, data); b.ix == c.ix && b.clock == c.clock
    ensures Trusted(b, v)
  {
    hide Shaped, Timed, WriteCell, ChangeKey, Watching, Registered, OnlyTouches;
    var from := w.ix.loc[e].key;
    var m := ChangeKey(w, e, from + {t});
    KeyRegistered(w.ix, e);
    ChangeKeyTicks(w, e, from + {t});
    ChangeKeyCells(w, e, from + {t});
    MoveWatch(w, v, {}, e, from + {t});
    var but := if Enters(v.watched, from, from + {t}) then {e} else {};
    assert {} + {e} == {e} && {e} - {e} == {} && {} - {e} == {};
    WriteCellTicks(m, e, t, data);
    WriteWatch(m, v, but, e, t, data);
    SameTrust(WriteCell(m, e, t, data), b, v);
  }

  lemma AddTrust(w: World, v: Viewer, e: Entity, t: TypeId, data: Option<Bytes>)
    requires Trusted(w, v)
    ensures Trusted(AddRaw(w, e, t, data), v)
  {
    hide Trusted, WriteCell, ChangeKey, Payload, Registered;
    if Alive(w.ix, e) && Registered(w.ix.reg, t) {
      if t in w.ix.loc[e].key {
        OverwriteTrust(w, AddRaw(w, e, t, data), v, e, t, Payload(w.ix.reg, t, data));
      } else if w.depth <= 0 {
        GainTrust(w, AddRaw(w, e, t, data), v, e, t, Payload(w.ix.reg, t, data));
      }
    }
  }

  lemma RemoveTrust(w: World, v: Viewer, e: Entity, t: TypeId)
    requires Trusted(w, v)
    ensures Trusted(RemoveComponent(w, e, t), v)
  {
    hide Shaped, Timed, ChangeKey, Watching, Registered;
    if Has(w.ix, e, t) && w.depth <= 0 {
      var from := w.ix.loc[e].key;
      KeyRegistered(w.ix, e);
      ChangeKeyTicks(w, e, from - {t});
      MoveWatch(w, v, {}, e, from - {t});
      SameTrust(ChangeKey(w, e, from - {t}), RemoveComponent(w, e, t), v);
    }
  }

  lemma MarkTrust(w: World, v: Viewer, e: Entity, t: TypeId)
    requires Trusted(w, v)
    ensures Trusted(MarkChanged(w, e, t), v)
  {
    hide Shaped, Timed, Watching;
    if Has(w.ix, e, t) {
      hide MarkChanged;
      MarkTicks(w, e, t);
      MarkWatch(w, v, e, t);
    }
  }

  lemma TrackTrust(w: World, v: Viewer, k: Key, t: TypeId)
    requires Trusted(w, v)
    ensures Trusted(w.(ix := Track(w.ix, k, t, w.clock.tick)), v)
  {
    hide Shaped, Timed, Watching, Track;
    TrackTicks(w, k, t);
    TrackWatch(w, v, {}, k, t);
  }

  lemma {:induction false} ClearAllTrust(w: World, v: Viewer, order: seq<Entity>)
    requires Trusted(w, v)
    ensures Trusted(ClearAll(w, order), v) && ClearAll(w, order).clock == w.clock
    decreases order
  {
    hide Trusted, Detach, FreeId;
    if order != [] {
      var e := order[0];
      if e in w.ix.loc {
        var b := w.(ix := Detach(w.ix, e), slots := FreeId(w.slots, e));
        DetachTrust(w, b, v, e);
        ClearAllTrust(b, v, order[1..]);
      } else {
        ClearAllTrust(w, v, order[1..]);
      }
    }
  }

  /** The log starts over under a new generation, so no view reads on from where it was. */
  lemma ClearTrust(w: World, v: Viewer, order: seq<Entity>)
    requires Trusted(w, v)
    ensures Trusted(Clear(w, order), v)
  {
    hide Shaped, ClearAll, IndexTimed, AllTracked, Dirty;
    if w.depth <= 0 { ClearAllTrust(w, v, order); }
  }

  // ------------------------------------------------------------------ a flush

  lemma {:induction false} WriteAllTrust(w: World, v: Viewer, but: set<Entity>, e: Entity, ids: seq<TypeId>,
                                         ops: seq<PendingOp>)
    requires Shaped(w.ix) && Timed(w) && Watching(w, v, but) && e in w.ix.loc
      && forall t :: t in ids ==> t in w.ix.loc[e].key
    ensures var b := WriteAll(w, e, ids, ops);
      Shaped(b.ix) && Timed(b) && b.ix.loc == w.ix.loc
      && Watching(b, v, if exists t :: t in ids && t in v.watched && LastAdd(ops, t).Some? then but - {e} else but)
    decreases ids
  {
    hide Shaped, Timed, Watching, WriteCell, LastAdd, Payload, OnlyTouches;
    if ids != [] {
      var front, t := ids[..|ids| - 1], ids[|ids| - 1];
      assert forall u :: u in ids <==> u in front || u == t;
      WriteAllTrust(w, v, but, e, front, ops);
      var m := WriteAll(w, e, front, ops);
      var left := if exists u :: u in front && u in v.watched && LastAdd(ops, u).Some? then but - {e} else but;
      if LastAdd(ops, t).Some? {
        WriteCellTicks(m, e, t, Payload(w.ix.reg, t, LastAdd(ops, t).value));
        WriteWatch(m, v, left, e, t, Payload(w.ix.reg, t, LastAdd(ops, t).value));
        WriteCellCells(m, e, t, Payload(w.ix.reg, t, LastAdd(ops, t).value));
        assert but - {e} - {e} == but - {e};
      }
    }
  }

  lemma CommitTrust(w: World, v: Viewer, e: Entity, ops: seq<PendingOp>)
    requires Trusted(w, v) && OpsOk(w.ix.reg, ops)
    ensures Trusted(Commit(w, e, ops), v)
  {
    hide Shaped, Timed, Watching, WriteAll, ChangeKey, FinalSet, LastAdd, OpsOk, Registered, NetEvents, OnlyTouches;
    if e in w.ix.loc && ops != [] {
      var key := w.ix.loc[e].key;
      var final := FinalSet(key, ops);
      KeyRegistered(w.ix, e);
      FinalRegistered(w.ix.reg, key, ops);
      var m := if final != key then ChangeKey(w, e, final) else w;
      var but := if Enters(v.watched, key, final) then {e} else {};
      if final != key {
        ChangeKeyTicks(w, e, final);
        ChangeKeyCells(w, e, final);
        MoveWatch(w, v, {}, e, final);
        assert {} + {e} == {e};
      }
      WriteAllTrust(m, v, but, e, SortedIds(final), ops);
      if Enters(v.watched, key, final) {
        var t :| t in v.watched && t !in key;
        assert t in SortedIds(final) && LastAdd(ops, t).Some?;
      }
      assert {e} - {e} == {} && {} - {e} == {};
      SameTrust(WriteAll(m, e, SortedIds(final), ops), Commit(w, e, ops), v);
    } else {
      CommitNothing(w, e, ops);
    }
  }

  lemma {:induction false} DestroyAllTrust(w: World, v: Viewer, d: Window, es: seq<Entity>)
    requires Trusted(w, v)
    ensures Trusted(DestroyAll(w, d, es), v)
    decreases es
  {
    hide Trusted, Destroy;
    if es != [] {
      DestroyAllTrust(w, v, d, es[..|es| - 1]);
      DestroyTrust(DestroyAll(w, d, es[..|es| - 1]), v, es[|es| - 1]);
    }
  }

  lemma {:induction false} CommitAllTrust(w: World, v: Viewer, d: Window, es: seq<Entity>)
    requires Trusted(w, v) && WorldOk(w) && NoDup(es) && forall e :: OpsOk(w.ix.reg, OpsOf(d, e))
    ensures Trusted(CommitAll(w, d, es), v)
    decreases es
  {
    hide Trusted, WorldOk, Commit, OpsOk, OpsOf, Contents, ApplyOps;
    if es != [] {
      CommitAllTrust(w, v, d, es[..|es| - 1]);
      CommitAllOk(w, d, es[..|es| - 1]);
      CommitTrust(CommitAll(w, d, es[..|es| - 1]), v, es[|es| - 1], OpsOf(d, es[|es| - 1]));
    }
  }

  lemma {:induction false} DeferAllTrust(w: World, v: Viewer, cs: seq<Command>)
    requires Trusted(w, v) && WorldOk(w) && w.depth <= 0 && forall c :: c in cs ==> CommandOk(w.ix.reg, c)
    ensures Trusted(DeferAll(w, EMPTY_WINDOW, cs).0, v)
    decreases cs
  {
    hide Trusted, WorldOk, CreatePreassigned, Alive, Queue, Contents, DefersOne, OpsOk, OpsOf, WindowOk, View, DataOk,
      IsHandle;
    if cs != [] {
      var front, c := cs[..|cs| - 1], cs[|cs| - 1];
      DeferAllTrust(w, v, front);
      EmptyWindowOk(w.ix.reg);
      DeferAllOk(w, EMPTY_WINDOW, front);
      assert c in cs;
      if c.AddEntity? { CreateForeignTrust(DeferAll(w, EMPTY_WINDOW, front).0, v, c.entity); }
    }
  }

  lemma FlushTrust(w: World, v: Viewer, cs: seq<Command>)
    requires Trusted(w, v) && WorldOk(w) && w.depth <= 0 && forall c :: c in cs ==> CommandOk(w.ix.reg, c)
    ensures Trusted(Flush(w, cs), v)
  {
    hide Trusted, WorldOk, DeferAll, CommitAll, DestroyAll, CommandOk, OpsOk, OpsOf, Contents, View, NoDup, DefersOne;
    EmptyWindowOk(w.ix.reg);
    DeferAllOk(w, EMPTY_WINDOW, cs);
    DeferAllTrust(w, v, cs);
    var (w1, d) := DeferAll(w, EMPTY_WINDOW, cs);
    DestroyAllTrust(w1, v, d, d.order);
    DestroyAllOk(w1, d, d.order);
    CommitAllTrust(DestroyAll(w1, d, d.order), v, d, d.order);
  }

  // ------------------------------------------------------------------ loads and packets

  /** Writing straight into a row leaves versions, log and archetypes alone. */
  ghost predicate SameStamps(a: map<TypeId, Cell>, b: map<TypeId, Cell>) {
    a.Keys == b.Keys && forall t :: t in a ==> b[t].tracked == a[t].tracked && b[t].version == a[t].version
  }

  lemma PokeStamps(w: World, e: Entity, t: TypeId, data: Bytes, x: Entity)
    requires Shaped(w.ix)
    ensures SameStamps(CellsOf(w.ix, x), CellsOf(Poke(w, e, t, data).ix, x))
  {
    hide CellsOf;
    if HasCell(w.ix, e, t) {
      var l := w.ix.loc[e];
      assert Placed(w.ix, e) && ArchOk(w.ix, l.key);
      if x in w.ix.loc {
        var c := w.ix.archs[l.key].cols[t].SetRow(l.row, data);
        WithColCells(w.ix, l.key, t, c, x);
        if w.ix.loc[x].key == l.key { CellVersion(w.ix, x, t); }
      } else {
        GoneCells(w.ix, x);
        GoneCells(Poke(w, e, t, data).ix, x);
      }
    }
  }

  lemma CellVersion(w: Index, x: Entity, t: TypeId)
    requires Shaped(w) && x in w.loc && t in w.loc[x].key
    ensures HasCell(w, x, t) && t in CellsOf(w, x)
    ensures var c := w.archs[w.loc[x].key].cols[t];
      CellsOf(w, x)[t].tracked == c.tracking && CellsOf(w, x)[t].version == c.Version(w.loc[x].row)
  {
    CellThere(w, x, t);
    RowExists(w, x);
  }

  lemma PokeTimed(w: World, e: Entity, t: TypeId, data: Bytes)
    requires Timed(w) && Shaped(w.ix)
    ensures Timed(Poke(w, e, t, data))
  {
    hide Shaped, CellsOf;
    forall i | 0 <= i < |w.clock.log|
      ensures Backed(CellsOf(Poke(w, e, t, data).ix, w.clock.log[i].entity), w.clock.log[i])
    {
      assert Backed(CellsOf(w.ix, w.clock.log[i].entity), w.clock.log[i]);
      PokeStamps(w, e, t, data, w.clock.log[i].entity);
    }
  }

  lemma PokeTrust(w: World, v: Viewer, e: Entity, t: TypeId, data: Bytes)
    requires Trusted(w, v)
    ensures Trusted(Poke(w, e, t, data), v)
  {
    hide Shaped, CellsOf, Timed, Noted;
    var b := Poke(w, e, t, data);
    PokeTimed(w, e, t, data);
    if HasCell(w.ix, e, t) {
      assert t in w.ix.loc[e].key by { assert Shaped(w.ix); ColumnsAreKey(w.ix, e, t); }
      PokeShaped(w, e, t, data);
    }
    forall x | Caught(w, v, x) ensures Caught(b, v, x) { PokeStamps(w, e, t, data, x); }
  }

  lemma ColumnsAreKey(w: Index, e: Entity, t: TypeId)
    requires Shaped(w) && HasCell(w, e, t)
    ensures t in w.loc[e].key
  {
    assert ArchOk(w, w.loc[e].key);
  }

  lemma LoadPartTrust(w: World, v: Viewer, e: Entity, p: Part)
    requires Trusted(w, v)
    ensures Trusted(LoadPart(w, e, p), v)
  {
    hide Trusted, AddRaw, Poke, ReadBlock, BlockSize, FieldsOk;
    var reg := w.ix.reg;
    if Registered(reg, p.t) && |p.block| == BlockSize(SchemaOf(reg, p.t), p.mask) && RegistryOk(reg) {
      AddTrust(w, v, e, p.t, None);
      PokeTrust(AddRaw(w, e, p.t, None), v, e, p.t,
        ReadBlock(SchemaOf(reg, p.t), p.mask, Zeros(SizeOf(reg, p.t)), p.block));
    }
  }

  lemma {:induction false} TryPartsTrust(w: World, v: Viewer, e: Entity, ps: seq<Part>)
    requires Trusted(w, v)
    ensures Trusted(TryParts(w, e, ps).0, v)
    decreases ps
  {
    hide Trusted, LoadPart, AddRaw, Has;
    if ps != [] {
      var front, p := TryParts(w, e, ps[..|ps| - 1]), ps[|ps| - 1];
      TryPartsTrust(w, v, e, ps[..|ps| - 1]);
      AddTrust(front.0, v, e, p.t, None);
      LoadPartTrust(front.0, v, e, p);
    }
  }

  lemma TryRecordTrust(w: World, v: Viewer, r: Record)
    requires Trusted(w, v) && WorldOk(w) && IsHandle(r.id)
    ensures Trusted(TryRecord(w, r).0, v)
  {
    hide Trusted, WorldOk, TryParts, CreatePreassigned, AcceptsForeign, IsHandle;
    CreateForeignTrust(w, v, r.id);
    TryPartsTrust(CreatePreassigned(w, r.id), v, r.id, r.parts);
  }

  lemma {:induction false} TryRecordsTrust(w: World, v: Viewer, rs: seq<Record>)
    requires Trusted(w, v) && Healthy(w) && forall i :: 0 <= i < |rs| ==> IsHandle(rs[i].id)
    ensures Trusted(TryRecords(w, rs).0, v)
    decreases rs
  {
    hide Trusted, WorldOk, RegistryOk, TryRecord, IsHandle;
    if rs != [] {
      var front := rs[..|rs| - 1];
      assert forall i :: 0 <= i < |front| ==> front[i] == rs[i];
      TryRecordsTrust(w, v, front);
      RecordsStay(w, front);
      TryRecordTrust(TryRecords(w, front).0, v, rs[|rs| - 1]);
    }
  }

  lemma LoadTrust(w: World, v: Viewer, bytes: Bytes, order: seq<Entity>)
    requires Trusted(w, v) && WorldOk(w) && Allowed(w, OpLoad(bytes, order))
    ensures Trusted(Load(w, bytes, order), v)
  {
    hide Trusted, WorldOk, Clear, TryRecords, Parse, PartOk, RegistryOk, AcceptsForeign, IsHandle, Contents;
    if Parse(w.ix.reg, bytes, 0).Some? {
      var rs := Parse(w.ix.reg, bytes, 0).value.value;
      ClearTrust(w, v, order);
      if w.depth <= 0 { ClearOk(w, order); } else { ClearNothing(w, order); }
      ClearReg(w, order);
      RecordsParsed(w.ix.reg, bytes);
      forall i | 0 <= i < |rs| ensures IsHandle(rs[i].id) { assert RecordOk(w.ix.reg, rs[i]); }
      TryRecordsTrust(Clear(w, order), v, rs);
    }
  }

  lemma ClearReg(w: World, order: seq<Entity>)
    requires WorldOk(w)
    ensures Clear(w, order).ix.reg == w.ix.reg
  {
    hide WorldOk, ClearAll;
    ClearAllOk(w, order);
  }

  lemma {:induction false} ApplyDuesTrust(w: World, v: Viewer, e: Entity, t: TypeId, ds: seq<Packets.Due>)
    requires Trusted(w, v)
    ensures Trusted(ApplyDues(w, e, t, ds), v)
  {
    hide Trusted, Poke, Contents, Overlaid;
    if ds != [] {
      var m, d := ApplyDues(w, e, t, ds[..|ds| - 1]), ds[|ds| - 1];
      ApplyDuesTrust(w, v, e, t, ds[..|ds| - 1]);
      if e in Contents(m.ix) && t in Contents(m.ix)[e] {
        PokeTrust(m, v, e, t, Overlaid(m.ix.reg, t, Contents(m.ix)[e][t], d));
      }
    }
  }

  lemma {:induction false} TryDueCompsTrust(w: World, v: Viewer, version: nat, e: Entity, cs: seq<Packets.DueComp>)
    requires Trusted(w, v)
    ensures Trusted(TryDueComps(w, version, e, cs).0, v)
  {
    hide Trusted, AddRaw, ApplyDues, Has;
    if cs != [] {
      var m, c := TryDueComps(w, version, e, cs[..|cs| - 1]).0, cs[|cs| - 1];
      TryDueCompsTrust(w, v, version, e, cs[..|cs| - 1]);
      AddTrust(m, v, e, c.t, None);
      ApplyDuesTrust(Presented(m, version, e, c.t), v, e, c.t, c.dues);
    }
  }

  lemma {:induction false} TryDeltaTrust(w: World, v: Viewer, version: nat, es: seq<Packets.DueEntity>)
    requires Trusted(w, v)
    ensures Trusted(TryDelta(w, version, es).w, v)
  {
    hide Trusted, TryDueComps;
    if es != [] {
      TryDeltaTrust(w, v, version, es[..|es| - 1]);
      TryDueCompsTrust(TryDelta(w, version, es[..|es| - 1]).w, v, version, es[|es| - 1].id, es[|es| - 1].comps);
    }
  }

  lemma {:induction false} TryEntitiesTrust(w: World, v: Viewer, rs: seq<Record>)
    requires Trusted(w, v) && Healthy(w) && forall i :: 0 <= i < |rs| ==> IsHandle(rs[i].id)
    ensures Trusted(TryEntities(w, rs).0, v)
    decreases rs
  {
    hide Trusted, WorldOk, RegistryOk, TryRecord, IsHandle, Destroy, DestroyPooled;
    if rs != [] {
      var front, r := rs[..|rs| - 1], rs[|rs| - 1];
      assert forall i :: 0 <= i < |front| ==> front[i] == rs[i];
      TryEntitiesTrust(w, v, front);
      EntitiesStay(w, front);
      var m := TryEntities(w, front).0;
      DestroyTrust(m, v, r.id);
      Vacates(m, r.id);
      TryRecordTrust(Destroy(m, r.id), v, r);
    }
  }

  lemma {:induction false} DestroyAbsentTrust(w: World, v: Viewer, es: seq<Entity>, keep: set<Entity>)
    requires Trusted(w, v)
    ensures Trusted(DestroyAbsent(w, es, keep), v)
  {
    hide Trusted, Destroy;
    if es != [] {
      DestroyAbsentTrust(w, v, es[..|es| - 1], keep);
      DestroyTrust(DestroyAbsent(w, es[..|es| - 1], keep), v, es[|es| - 1]);
    }
  }

  lemma ReceiveTrust(w: World, v: Viewer, replicated: set<Entity>, kind: Packets.Kind, data: Bytes, order: seq<Entity>)
    requires Trusted(w, v) && Healthy(w)
    ensures Trusted(Received(w, replicated, kind, data, order).0, v)
  {
    hide Trusted, WorldOk, RegistryOk, Packets.ParseVersion, Packets.ParseEntity, Packets.ParseMany, Destroy,
      DestroyPooled, DestroyAbsent, TryEntities, TryRecord, TryDelta, FromLE, AcceptsForeign, IdsOf, ReadInt,
      IsHandle;
    if Packets.ValidPacket(w.ix.reg, kind, data) {
      match kind
      case Spawn =>
        SpawnParsed(w.ix.reg, data);
        TryRecordTrust(w, v, Packets.ParseSpawn(w.ix.reg, data).value.value);
      case Delta =>
        var p := Packets.ParseDelta(w.ix.reg, data).value;
        TryDeltaTrust(w, v, p.version, p.value);
      case FullState =>
        FullStateParsed(w.ix.reg, data);
        var rs := Packets.ParseFullState(w.ix.reg, data).value.value;
        TryEntitiesTrust(w, v, rs);
        DestroyAbsentTrust(TryEntities(w, rs).0, v, order, IdsOf(rs));
      case Despawn =>
        DestroyTrust(w, v, FromLE(data));
    }
  }

  // ------------------------------------------------------------------ every operation

  /** Every operation that keeps the archetypes keeps what a change view relies on. */
  lemma ApplyTrust(w: World, v: Viewer, op: Op)
    requires Trusted(w, v) && WorldOk(w) && Allowed(w, op) && !op.OpCompact?
    ensures Trusted(Apply(w, op), v)
  {
    hide Trusted, WorldOk, Create, CreatePreassigned, CreatePooled, Destroy, DestroyPooled, AddRaw, RemoveComponent,
      MarkChanged, Clear, Flush, Load, Received, DataOk, CommandOk, Track, NextId, PooledId, RegistryOk, IsHandle;
    match op
    case OpCreate => CreateTrust(w, v);
    case OpCreateForeign(id) => CreateForeignTrust(w, v, id);
    case OpCreatePooled => CreatePooledTrust(w, v);
    case OpDestroy(e) => DestroyTrust(w, v, e);
    case OpDestroyPooled(e) => DestroyTrust(w, v, e);
    case OpAdd(e, t, data) => AddTrust(w, v, e, t, data);
    case OpRemove(e, t) => RemoveTrust(w, v, e, t);
    case OpMark(e, t) => MarkTrust(w, v, e, t);
    case OpTrack(k, t) => TrackTrust(w, v, k, t);
    case OpBeginIteration => SameTrust(w, Apply(w, op), v);
    case OpEndIteration => SameTrust(w, Apply(w, op), v);
    case OpClear(order) => ClearTrust(w, v, order);
    case OpFlush(cs) => if w.depth <= 0 { FlushTrust(w, v, cs); }
    case OpLoad(bytes, order) => LoadTrust(w, v, bytes, order);
    case OpReceive(kind, data, replicated, order) => ReceiveTrust(w, v, replicated, kind, data, order);
    case _ =>
  }
}
