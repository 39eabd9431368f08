/** Saving a world to a buffer, and the two-pass loader. */
module SnapshotIO {
  import opened Base
  import opened Schema
  import S = Storage
  import opened StorageLaws
  import opened Operations
  import opened CommandLaws
  import opened Columns
  import opened Queries
  import opened Engine
  import opened Walks
  import opened Views
  import opened ChangeViews
  import opened Wire
  import opened Buffers
  import opened Serializer
  import opened SnapshotFormat
  import opened Snapshots
  import opened SaveLoad

  // ------------------------------------------------------------------ saving

  ghost function KeySignature(signature: seq<TypeId> -> int): S.Key -> int {
    k => signature(SortedIds(k))
  }

  /** `std::sort` by signature. */
  method SortBySignature(list: seq<Archetype>, signature: seq<TypeId> -> int) returns (r: seq<Archetype>)
    requires NoDup(list)
    ensures NoDup(r) && (forall a :: a in r <==> a in list)
    ensures forall i, j :: 0 <= i < j < |r| ==> signature(r[i].componentIds) <= signature(r[j].componentIds)
  {
    r := [];
    for k := 0 to |list|
      invariant NoDup(r) && (forall a :: a in r <==> a in list[..k])
      invariant forall i, j :: 0 <= i < j < |r| ==> signature(r[i].componentIds) <= signature(r[j].componentIds)
    {
      assert list[k] !in list[..k];
      r := InsertBySignature(r, list[k], signature);
      assert list[..k + 1] == list[..k] + [list[k]];
    }
    assert list[..|list|] == list;
  }

  method InsertBySignature(r: seq<Archetype>, a: Archetype, signature: seq<TypeId> -> int) returns (s: seq<Archetype>)
    requires NoDup(r) && a !in r
      && forall i, j :: 0 <= i < j < |r| ==> signature(r[i].componentIds) <= signature(r[j].componentIds)
    ensures NoDup(s) && (forall b :: b in s <==> b in r || b == a)
    ensures forall i, j :: 0 <= i < j < |s| ==> signature(s[i].componentIds) <= signature(s[j].componentIds)
  {
    var i := 0;
    while i < |r| && signature(r[i].componentIds) <= signature(a.componentIds)
      invariant i <= |r| && forall j :: 0 <= j < i ==> signature(r[j].componentIds) <= signature(a.componentIds)
    {
      i := i + 1;
    }
    InsertedOnce(r, a, i);
    InsertedInOrder(r, a, i, signature);
    s := r[..i] + [a] + r[i..];
  }

  lemma InsertedOnce<T>(r: seq<T>, a: T, i: nat)
    requires NoDup(r) && a !in r && i <= |r|
    ensures var s := r[..i] + [a] + r[i..]; NoDup(s) && forall b :: b in s <==> b in r || b == a
  {
    var s := r[..i] + [a] + r[i..];
    assert r == r[..i] + r[i..];
    forall m, n | 0 <= m < n < |s| ensures s[m] != s[n] {
      assert (m == i || s[m] in r) && (n == i || s[n] in r);
    }
  }

  lemma InsertedInOrder(r: seq<Archetype>, a: Archetype, i: nat, signature: seq<TypeId> -> int)
    requires i <= |r| && forall m, n :: 0 <= m < n < |r| ==>
      signature(r[m].componentIds) <= signature(r[n].componentIds)
    requires forall m :: 0 <= m < i ==> signature(r[m].componentIds) <= signature(a.componentIds)
    requires i < |r| ==> signature(a.componentIds) <= signature(r[i].componentIds)
    ensures var s := r[..i] + [a] + r[i..];
      forall m, n :: 0 <= m < n < |s| ==> signature(s[m].componentIds) <= signature(s[n].componentIds)
  {
    var s := r[..i] + [a] + r[i..];
    forall m, n | 0 <= m < n < |s| ensures signature(s[m].componentIds) <= signature(s[n].componentIds) {
      assert s[m] == (if m < i then r[m] else if m == i then a else r[m - 1])
        && s[n] == (if n < i then r[n] else if n == i then a else r[n - 1]);
      if m == i && n > i + 1 { assert signature(r[i].componentIds) <= signature(r[n - 1].componentIds); }
    }
  }

  method PutParts(world: World, a: Archetype, row: nat, buf: BinaryBuffer)
    requires world.Valid() && a in world.archetypeList && row < |a.entities| && RegistryOk(world.reg)
      && buf !in world.repr
    modifies buf
    ensures a.entities[row] in S.Contents(world.ix)
    ensures buf.data == old(buf.data)
      + EncodeParts(PartsFor(world.reg, S.Contents(world.ix)[a.entities[row]], a.componentIds))
  {
    hide World.Valid, S.Contents, LE, PartFor, RegistryOk, EncodePart, EncodeParts, PartsFor, Archetype.Shape,
      CompsSized, Archetype.Key;
    RowKnown(world, a, row);
    ghost var comps := S.Contents(world.ix)[a.entities[row]];
    ghost var before := buf.data;
    NoParts(world.reg, comps);
    for i := 0 to |a.componentIds|
      invariant buf.data == before + EncodeParts(PartsFor(world.reg, comps, a.componentIds[..i]))
    {
      PutPart(world, a, row, i, buf);
      NextPart(world.reg, comps, a.componentIds, i, before);
    }
    assert a.componentIds[..|a.componentIds|] == a.componentIds;
  }

  lemma NextPart(reg: Registry, comps: Comps, ids: seq<TypeId>, i: nat, before: Bytes)
    requires i < |ids|
    ensures before + EncodeParts(PartsFor(reg, comps, ids[..i])) + EncodePart(PartFor(reg, comps, ids[i]))
      == before + EncodeParts(PartsFor(reg, comps, ids[..i + 1]))
  {
    hide PartFor, EncodePart, EncodeParts, PartsFor;
    assert ids[..i + 1][..i] == ids[..i];
    PartsGrow(reg, comps, ids[..i + 1]);
  }

  lemma NoParts(reg: Registry, comps: Comps)
    ensures EncodeParts(PartsFor(reg, comps, [])) == []
  {
  }

  /** The record of one row. */
  method PutRow(world: World, a: Archetype, row: nat, buf: BinaryBuffer)
    requires world.Valid() && a in world.archetypeList && row < |a.entities| && RegistryOk(world.reg)
      && buf !in world.repr
    modifies buf
    ensures a.entities[row] in S.Contents(world.ix)
    ensures buf.data == old(buf.data)
      + EncodeRecord(RecordFor(world.reg, a.entities[row], S.Contents(world.ix)[a.entities[row]]))
  {
    hide WorldOk, World.Tied, World.WindowTied, S.Contents, LE, PartFor, RegistryOk, EncodeParts, PartsFor;
    var e := a.entities[row];
    RowKnown(world, a, row);
    PartsForAt(world.reg, S.Contents(world.ix)[e], a.componentIds);
    buf.WriteLE(Word(e), 8);
    buf.WriteLE(|a.componentIds|, 2);
    PutParts(world, a, row, buf);
  }

  lemma PartsGrow(reg: Registry, comps: Comps, ids: seq<TypeId>)
    requires ids != []
    ensures EncodeParts(PartsFor(reg, comps, ids)) == EncodeParts(PartsFor(reg, comps, ids[..|ids| - 1]))
      + EncodePart(PartFor(reg, comps, ids[|ids| - 1]))
  {
    hide PartFor, EncodePart;
    var front := PartsFor(reg, comps, ids[..|ids| - 1]);
    assert PartsFor(reg, comps, ids)[..|front|] == front;
  }

  lemma RowKnown(world: World, a: Archetype, row: nat)
    requires world.Valid() && a in world.archetypeList && row < |a.entities|
    ensures var e := a.entities[row];
      e in S.Contents(world.ix) && CompsSized(world.reg, S.Contents(world.ix)[e])
        && S.Contents(world.ix)[e].Keys == a.Key()
      && a.Shape() && a.componentIds == SortedIds(a.Key())
  {
    hide World.WindowTied, S.Contents, QueryCache.Consistent, SlotsOk, S.Sized, CompsSized;
    world.UseOk();
    world.InList(a);
    RowIsLive(world.ix, a.Key(), row);
    LiveIn(world.ix, a.Key(), row);
    StoredComps(world.ix, a.entities[row]);
    assert forall t :: t in a.componentIds <==> t in a.Key();
    SortedUnique(a.componentIds, SortedIds(a.Key()));
  }

  lemma LiveIn(w: S.Index, k: S.Key, r: nat)
    requires S.Shaped(w) && k in w.archs && r < |w.archs[k].entities|
    ensures w.archs[k].entities[r] in w.loc && w.loc[w.archs[k].entities[r]].key == k
  {
    assert S.RowOk(w, k, r);
  }

  method PutPart(world: World, a: Archetype, row: nat, i: nat, buf: BinaryBuffer)
    requires world.Valid() && a in world.archetypeList && row < |a.entities| && i < |a.componentIds|
      && RegistryOk(world.reg) && buf !in world.repr
    modifies buf
    ensures a.entities[row] in S.Contents(world.ix)
    ensures buf.data == old(buf.data)
      + EncodePart(PartFor(world.reg, S.Contents(world.ix)[a.entities[row]], a.componentIds[i]))
  {
    hide WorldOk, World.Tied, World.WindowTied, S.Contents, LE, Block, FieldsOk;
    var t := a.componentIds[i];
    RowKnown(world, a, row);
    assert t in a.Key();
    RowBytesKnown(world, a, row, i);
    buf.WriteLE(Word(t), 4);
    SchemaFits(world.reg, t);
    PutComponent(SchemaOf(world.reg, t), a.columns[i].rows[row], [], buf);
  }

  lemma RowBytesKnown(world: World, a: Archetype, row: nat, i: nat)
    requires world.Valid() && a in world.archetypeList && row < |a.entities| && i < |a.componentIds|
    ensures var e := a.entities[row];
      |a.columns| == |a.componentIds| && row < |a.columns[i].rows| && e in S.Contents(world.ix)
        && a.componentIds[i] in S.Contents(world.ix)[e]
      && S.Contents(world.ix)[e][a.componentIds[i]] == a.columns[i].rows[row]
  {
    hide WorldOk, World.WindowTied, S.Contents, S.Shaped, Register, QueryCache.Consistent;
    world.UseOk();
    world.InList(a);
    assert a.componentIds[i] in a.Key();
    RowIsStored(world.ix, a.Key(), row, a.componentIds[i]);
    a.ColAt(i);
  }

  lemma {:induction false} EncodeJoin(a: seq<Record>, b: seq<Record>)
    ensures EncodeRecords(a + b) == EncodeRecords(a) + EncodeRecords(b)
    decreases |b|
  {
    hide EncodeRecord;
    if b == [] {
      assert a + b == a;
    } else {
      assert (a + b)[..|a + b| - 1] == a + b[..|b| - 1];
      EncodeJoin(a, b[..|b| - 1]);
    }
  }

  /** The records of one archetype, row by row. */
  method PutArchetype(world: World, a: Archetype, buf: BinaryBuffer)
    requires world.Valid() && a in world.archetypeList && RegistryOk(world.reg) && buf !in world.repr
    modifies buf
    ensures buf.data == old(buf.data) + EncodeRecords(RecordsOver(world.reg, S.Contents(world.ix), a.entities))
  {
    hide WorldOk, World.Tied, World.WindowTied, S.Contents, RegistryOk, EncodeRecord, RecordFor, EncodeRecords,
      RecordsOver;
    ghost var before, store := buf.data, S.Contents(world.ix);
    NoRecords(world.reg, store);
    for row := 0 to |a.entities|
      invariant buf.data == before + EncodeRecords(RecordsOver(world.reg, store, a.entities[..row]))
    {
      PutRow(world, a, row, buf);
      RecordsGrow(world.reg, store, a.entities, row);
    }
    assert a.entities[..|a.entities|] == a.entities;
  }

  lemma NoRecords(reg: Registry, store: S.Store)
    ensures EncodeRecords(RecordsOver(reg, store, [])) == []
  {
  }

  lemma RecordsGrow(reg: Registry, store: S.Store, es: seq<Entity>, row: nat)
    requires row < |es| && es[row] in store
    ensures EncodeRecords(RecordsOver(reg, store, es[..row + 1]))
      == EncodeRecords(RecordsOver(reg, store, es[..row])) + EncodeRecord(RecordFor(reg, es[row], store[es[row]]))
  {
    hide EncodeRecord, RecordFor;
    assert es[..row + 1][..row] == es[..row];
    var front := RecordsOver(reg, store, es[..row]);
    assert RecordsOver(reg, store, es[..row + 1])[..|front|] == front;
  }

  lemma WalkGrows(world: World, ks: seq<S.Key>, k: nat, a: Archetype)
    requires world.Valid() && a in world.archetypeList && k < |ks| && ks[k] == a.Key()
    ensures SavedRecords(world.ix, ks[..k + 1]) == SavedRecords(world.ix, ks[..k])
      + RecordsOver(world.reg, S.Contents(world.ix), a.entities)
  {
    hide WorldOk, World.WindowTied, S.Contents, RecordsOver, S.Shaped;
    world.UseOk();
    world.InList(a);
    WalkStep(world.ix, ks, k);
    RecordsOverJoin(world.reg, S.Contents(world.ix), Walk(world.ix, ks[..k]), a.entities);
  }

  lemma ListHas(world: World, k: S.Key) returns (a: Archetype)
    requires world.Valid() && k in world.ix.archs
    ensures a in world.archetypeList && a.Key() == k
  {
    hide World.WindowTied, SlotsOk, LocsTied, S.ArchOk, S.RowOk, S.Placed, S.Sized, ArchTied, Archetype.Key,
      Archetype.Shape, QueryCache.Consistent;
    assert k in Elements(world.ix.order);
    var i :| 0 <= i < |world.ix.order| && world.ix.order[i] == k;
    a := world.archetypeList[i];
  }

  lemma DifferentKeys(world: World, a: Archetype, b: Archetype)
    requires world.Valid() && a in world.archetypeList && b in world.archetypeList && a != b
    ensures a.Key() != b.Key()
  {
    hide WorldOk, World.WindowTied, QueryCache.Consistent, World.IndexTied, Archetype.Key;
    assert Disjoint(a, b);
  }

  lemma ListedKey(world: World, a: Archetype)
    requires world.Valid() && a in world.archetypeList
    ensures SortedIds(a.Key()) == a.componentIds && a.Key() in world.ix.archs
  {
    hide World.WindowTied, World.Tied, WorldOk;
    KeyIds(world, a);
    InWorld(world, a);
  }

  lemma AllListed(world: World, list: seq<Archetype>, k: S.Key)
    requires world.Valid() && k in world.ix.archs && forall a :: a in list <==> a in world.archetypeList
    ensures k in KeysOf(list)
  {
    hide World.WindowTied, World.Tied, WorldOk, Archetype.Key, Archetype.Shape;
    var a := ListHas(world, k);
    var m :| 0 <= m < |list| && list[m] == a;
    assert KeysOf(list)[m] == k;
  }

  lemma ListKeys(world: World, list: seq<Archetype>, signature: seq<TypeId> -> int)
    requires world.Valid() && NoDup(list) && (forall a :: a in list <==> a in world.archetypeList)
    requires forall i, j :: 0 <= i < j < |list| ==> signature(list[i].componentIds) <= signature(list[j].componentIds)
    ensures SaveOrder(world.ix, KeysOf(list), KeySignature(signature))
  {
    hide World.Valid, Archetype.Key, Archetype.Shape;
    var ks := KeysOf(list);
    forall i | 0 <= i < |list|
      ensures list[i] in world.archetypeList && SortedIds(ks[i]) == list[i].componentIds && ks[i] in world.ix.archs
    {
      ListedKey(world, list[i]);
    }
    forall i, j | 0 <= i < j < |ks| ensures ks[i] != ks[j] { DifferentKeys(world, list[i], list[j]); }
    forall k | k in world.ix.archs ensures k in ks { AllListed(world, list, k); }
  }

  lemma KeyIds(world: World, a: Archetype)
    requires world.Valid() && a in world.archetypeList
    ensures SortedIds(a.Key()) == a.componentIds
  {
    hide WorldOk, World.WindowTied, QueryCache.Consistent;
    world.Reach(a);
    assert forall t :: t in a.componentIds <==> t in a.Key();
    SortedUnique(a.componentIds, SortedIds(a.Key()));
  }

  /** Archetypes by signature, rows in order, components by ascending id. */
  method SerializeSnapshot(world: World, signature: seq<TypeId> -> int)
    returns (buf: BinaryBuffer, ghost ks: seq<S.Key>)
    requires world.Valid() && RegistryOk(world.reg)
    ensures fresh(buf) && SaveOrder(world.ix, ks, KeySignature(signature)) && buf.data == SavedBytes(world.ix, ks)
  {
    hide WorldOk, World.Tied, World.WindowTied, LE, EncodeRecords, RecordsOver, RegistryOk, SavedRecords, SaveOrder;
    world.Lookup();
    ListedOnce(world);
    var sorted := SortBySignature(world.archetypeList, signature);
    ListKeys(world, sorted, signature);
    ks := KeysOf(sorted);
    buf := new BinaryBuffer();
    buf.WriteLE(SNAPSHOT_VERSION, 2);
    buf.WriteLE(|world.locations|, 4);
    ghost var head := buf.data;
    NothingSaved(world.ix);
    for k := 0 to |sorted|
      invariant buf.data == head + EncodeRecords(SavedRecords(world.ix, ks[..k]))
    {
      WalkGrows(world, ks, k, sorted[k]);
      EncodeJoin(SavedRecords(world.ix, ks[..k]), RecordsOver(world.reg, S.Contents(world.ix), sorted[k].entities));
      PutArchetype(world, sorted[k], buf);
    }
    assert ks[..|ks|] == ks;
    assert |world.locations| == |world.ix.loc|;
  }

  lemma NothingSaved(w: S.Index)
    ensures EncodeRecords(SavedRecords(w, [])) == []
  {
  }

  lemma ListedOnce(world: World)
    requires world.Valid()
    ensures NoDup(world.archetypeList)
  {
    hide WorldOk, World.WindowTied, QueryCache.Consistent;
  }
}
