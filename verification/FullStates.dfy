/** Writing full-state packets from a world, and applying them in two passes. */
module FullStates {
  import opened Base
  import opened Schema
  import S = Storage
  import opened StorageLaws
  import opened Operations
  import opened Commands
  import opened CommandLaws
  import opened Columns
  import opened Queries
  import opened Engine
  import opened Walks
  import opened Views
  import ChangeViews
  import opened Wire
  import opened Buffers
  import opened Serializer
  import opened SnapshotFormat
  import opened Snapshots
  import opened SaveLoad
  import opened SnapshotIO
  import opened SnapshotLoad
  import opened SyncPlan
  import opened Packets
  import opened PacketChecks
  import opened Replicas

  // ------------------------------------------------------------------ writing

  lemma PlanSpawns(fields: seq<Field>, plan: Plan)
    requires PlanFor(fields, plan)
    ensures plan.spawnMask == SpawnMask(fields)
  {
    assert MaskOf(fields, plan.spawnMask, f => OnWire(f));
  }

  lemma CompBytes(reg: Registry, comps: Comps, t: TypeId, before: Bytes)
    requires RegistryOk(reg) && CompsSized(reg, comps) && t in comps
    ensures var s := SchemaOf(reg, t); var mask := SpawnMask(s.fields);
      before + LE(Word(t), 4) + EncodeMask(mask) + Block(s, mask, comps[t])
      == before + EncodeComp(NetPart(reg, comps, t))
  {
    hide LE, EncodeMask, SpawnMask, Block, FieldsOk;
  }

  /** `serialize_component_block`: nothing is written for a component that is not there. */
  method PutComponentBlock(world: World, e: Entity, t: TypeId, buf: BinaryBuffer)
    requires world.Valid() && RegistryOk(world.reg) && Registered(world.reg, t) && buf !in world.repr
    modifies buf
    ensures S.Has(world.ix, e, t) ==> e in S.Contents(world.ix) && t in S.Contents(world.ix)[e]
    ensures buf.data == old(buf.data) + if S.Has(world.ix, e, t)
      then EncodeComp(NetPart(world.reg, S.Contents(world.ix)[e], t)) else []
  {
    hide WorldOk, World.Tied, World.WindowTied, S.Contents, LE, Block, FieldsOk, EncodeMask, SpawnMask, EncodeComp,
      NetPart;
    var data := world.GetRaw(e, t);
    if data.Some? {
      world.UseOk();
      world.Lookup();
      StoredComps(world.ix, e);
      SchemaFits(world.reg, t);
      var s := SchemaOf(world.reg, t);
      var plan := SyncPlanFor(s.fields);
      PlanSpawns(s.fields, plan);
      buf.WriteLE(Word(t), 4);
      PutMask(plan.spawnMask, buf);
      PutComponent(s, data.value, plan.spawnMask, buf);
      CompBytes(world.reg, S.Contents(world.ix)[e], t, old(buf.data));
    }
  }

  lemma NetGrows(reg: Registry, comps: Comps, ids: seq<TypeId>, i: nat)
    requires i < |ids|
    ensures var f, p := NetParts(reg, comps, ids[..i]), NetPart(reg, comps, ids[i]);
      NetParts(reg, comps, ids[..i + 1]) == (if NetType(reg, ids[i]) then f + [p] else f)
      && EncodeMany(EncodeComp, NetParts(reg, comps, ids[..i + 1]))
        == EncodeMany(EncodeComp, f) + if NetType(reg, ids[i]) then EncodeComp(p) else []
  {
    hide EncodeComp, NetPart;
    assert ids[..i + 1][..i] == ids[..i];
    var f, p := NetParts(reg, comps, ids[..i]), NetPart(reg, comps, ids[i]);
    assert (f + [p])[..|f|] == f;
  }

  /** The networked components of an entity, in the order of its type list, and how many there are. */
  method PutNetworked(world: World, e: Entity, ids: seq<TypeId>, buf: BinaryBuffer) returns (n: nat)
    requires world.Valid() && RegistryOk(world.reg) && buf !in world.repr
      && forall t :: t in ids ==> S.Has(world.ix, e, t)
    requires e in S.Contents(world.ix)
    modifies buf
    ensures var ps := NetParts(world.reg, S.Contents(world.ix)[e], ids);
      n == |ps| && buf.data == old(buf.data) + EncodeMany(EncodeComp, ps)
  {
    hide WorldOk, World.Tied, World.WindowTied, S.Contents, NetPart, EncodeComp, EncodeMany, NetParts, RegistryOk,
      IsNetworked, NetType;
    ghost var comps := S.Contents(world.ix)[e];
    n := 0;
    NothingNet(world.reg, comps, ids);
    for i := 0 to |ids|
      invariant n == |NetParts(world.reg, comps, ids[..i])|
        && buf.data == old(buf.data) + EncodeMany(EncodeComp, NetParts(world.reg, comps, ids[..i]))
    {
      NetGrows(world.reg, comps, ids, i);
      var net := NetworkedType(world.reg, ids[i]);
      if net {
        assert ids[i] in ids;
        PutComponentBlock(world, e, ids[i], buf);
        n := n + 1;
      }
    }
    assert ids[..|ids|] == ids;
  }

  lemma NothingNet(reg: Registry, comps: Comps, ids: seq<TypeId>)
    ensures NetParts(reg, comps, ids[..0]) == [] && EncodeMany(EncodeComp, []) == []
  {
  }

  /** `is_networked`: registered, networked, and with a field that is not local. */
  method NetworkedType(reg: Registry, t: TypeId) returns (net: bool)
    ensures net <==> NetType(reg, t)
    ensures net <==> Registered(reg, t) && SchemaOf(reg, t).networked
                     && exists i :: 0 <= i < |SchemaOf(reg, t).fields| && !SchemaOf(reg, t).fields[i].priority.Local?
    ensures net ==> Registered(reg, t)
  {
    if !Registered(reg, t) || !SchemaOf(reg, t).networked {
      return false;
    }
    var fields := SchemaOf(reg, t).fields;
    for i := 0 to |fields|
      invariant forall k :: 0 <= k < i ==> fields[k].priority.Local?
    {
      if !fields[i].priority.Local? {
        return true;
      }
    }
    return false;
  }

  lemma {:induction false} EncodeManySnoc<T>(encode: T -> Bytes, xs: seq<T>, x: T)
    ensures EncodeMany(encode, xs + [x]) == EncodeMany(encode, xs) + encode(x)
  {
    assert (xs + [x])[..|xs|] == xs;
  }

  lemma RowHas(world: World, a: Archetype, row: nat)
    requires world.Valid() && a in world.archetypeList && row < |a.entities|
    ensures forall t :: t in a.componentIds ==> S.Has(world.ix, a.entities[row], t)
  {
    hide World.WindowTied, S.Contents, QueryCache.Consistent, SlotsOk, S.Sized;
    world.UseOk();
    world.InList(a);
    LiveIn(world.ix, a.Key(), row);
    LiveHandle(world.ix, a.entities[row]);
  }

  /** One row: an entity without networked components leaves no trace. */
  method PutNetRow(world: World, a: Archetype, row: nat, out: BinaryBuffer) returns (any: bool)
    requires world.Valid() && a in world.archetypeList && row < |a.entities| && RegistryOk(world.reg)
      && out !in world.repr
    modifies out
    ensures a.entities[row] in S.Contents(world.ix)
    ensures var r := NetRecord(world.reg, a.entities[row], S.Contents(world.ix)[a.entities[row]]);
      (any <==> r.parts != []) && out.data == old(out.data) + if any then EncodeEntity(r) else []
  {
    hide WorldOk, World.Tied, World.WindowTied, S.Contents, LE, NetParts, RegistryOk, EncodeMany, CompsSized,
      Archetype.Shape;
    var e := a.entities[row];
    RowKnown(world, a, row);
    RowHas(world, a, row);
    var comps := new BinaryBuffer();
    var n := PutNetworked(world, e, a.componentIds, comps);
    any := n != 0;
    if any {
      out.WriteLE(Word(e), 8);
      out.WriteLE(n, 2);
      out.WriteBytes(comps.data);
    }
  }

  lemma NetRecordsGrow(reg: Registry, store: S.Store, es: seq<Entity>, i: nat)
    requires i < |es| && es[i] in store
    ensures var f, r := NetRecords(reg, store, es[..i]), NetRecord(reg, es[i], store[es[i]]);
      NetRecords(reg, store, es[..i + 1]) == if r.parts != [] then f + [r] else f
  {
    hide NetRecord;
    assert es[..i + 1][..i] == es[..i];
  }

  lemma {:induction false} NetRecordsJoin(reg: Registry, store: S.Store, a: seq<Entity>, b: seq<Entity>)
    ensures NetRecords(reg, store, a + b) == NetRecords(reg, store, a) + NetRecords(reg, store, b)
    decreases |b|
  {
    hide NetRecord;
    if b == [] {
      assert a + b == a;
    } else {
      assert (a + b)[..|a + b| - 1] == a + b[..|b| - 1];
      NetRecordsJoin(reg, store, a, b[..|b| - 1]);
    }
  }

  ghost predicate Wrote(data: Bytes, head: Bytes, n: nat, rs: seq<Record>) {
    n == |rs| && data == head + EncodeMany(EncodeEntity, rs)
  }

  lemma WroteMore(data: Bytes, head: Bytes, n: nat, rs: seq<Record>, r: Record)
    requires Wrote(data, head, n, rs)
    ensures Wrote(data + EncodeEntity(r), head, n + 1, rs + [r])
  {
    hide EncodeEntity;
    EncodeManySnoc(EncodeEntity, rs, r);
  }

  method PutNetArchetype(world: World, a: Archetype, out: BinaryBuffer, n: nat, ghost head: Bytes,
                         ghost rs: seq<Record>)
    returns (m: nat)
    requires world.Valid() && a in world.archetypeList && RegistryOk(world.reg) && out !in world.repr
      && Wrote(out.data, head, n, rs)
    modifies out
    ensures Wrote(out.data, head, m, rs + NetRecords(world.reg, S.Contents(world.ix), a.entities))
  {
    hide WorldOk, World.Tied, World.WindowTied, S.Contents, RegistryOk, EncodeEntity, NetRecord, NetRecords, Wrote;
    m := n;
    ghost var store := S.Contents(world.ix);
    NoNetRecords(world.reg, store, a.entities);
    assert rs + [] == rs;
    for row := 0 to |a.entities|
      invariant Wrote(out.data, head, m, rs + NetRecords(world.reg, store, a.entities[..row]))
    {
      ghost var before := rs + NetRecords(world.reg, store, a.entities[..row]);
      ghost var data := out.data;
      var any := PutNetRow(world, a, row, out);
      NetRecordsGrow(world.reg, store, a.entities, row);
      ghost var r := NetRecord(world.reg, a.entities[row], store[a.entities[row]]);
      WroteMore(data, head, m, before, r);
      assert before + [r] == rs + (NetRecords(world.reg, store, a.entities[..row]) + [r]);
      if any {
        m := m + 1;
      } else {
        assert out.data == data;
      }
    }
    assert a.entities[..|a.entities|] == a.entities;
  }

  lemma NoNetRecords(reg: Registry, store: S.Store, es: seq<Entity>)
    ensures NetRecords(reg, store, es[..0]) == []
  {
  }

  lemma NetWalkGrows(world: World, ks: seq<S.Key>, k: nat, a: Archetype)
    requires world.Valid() && a in world.archetypeList && k < |ks| && ks[k] == a.Key()
    ensures var store := S.Contents(world.ix);
      NetRecords(world.reg, store, Walk(world.ix, ks[..k + 1]))
        == NetRecords(world.reg, store, Walk(world.ix, ks[..k])) + NetRecords(world.reg, store, a.entities)
  {
    hide WorldOk, World.WindowTied, S.Contents, NetRecords, S.Shaped;
    world.UseOk();
    world.InList(a);
    WalkStep(world.ix, ks, k);
    NetRecordsJoin(world.reg, S.Contents(world.ix), Walk(world.ix, ks[..k]), a.entities);
  }

  /** `serialize_full_state`: archetypes by signature; the count is patched in at the end, and a packet about nobody
      is emptied. */
  method SerializeFullState(world: World, signature: seq<TypeId> -> int)
    returns (out: BinaryBuffer, ghost ks: seq<S.Key>)
    requires world.Valid() && RegistryOk(world.reg)
    ensures fresh(out) && AllKeys(world.ix, ks) && SaveOrder(world.ix, ks, KeySignature(signature))
    ensures out.data == FullStateOf(world.ix, ks)
  {
    hide WorldOk, World.Tied, World.WindowTied, S.Contents, LE, NetRecords, RegistryOk, SaveOrder, Wrote,
      EncodeEntity, EncodeMany;
    world.Lookup();
    ListedOnce(world);
    var sorted := SortBySignature(world.archetypeList, signature);
    ListKeys(world, sorted, signature);
    ks := ChangeViews.KeysOf(sorted);
    OrderIsAll(world.ix, ks, KeySignature(signature));
    out := new BinaryBuffer();
    out.WriteLE(SYNC_VERSION, 2);
    var countPos := out.pos;
    out.WriteLE(0, 4);
    ghost var head, store := out.data, S.Contents(world.ix);
    assert head == LE(SYNC_VERSION, 2) + LE(0, 4);
    var n := 0;
    NoneWritten(world.ix, ks, head);
    for k := 0 to |sorted|
      invariant Wrote(out.data, head, n, NetRecords(world.reg, store, Walk(world.ix, ks[..k])))
    {
      NetWalkGrows(world, ks, k, sorted[k]);
      n := PutNetArchetype(world, sorted[k], out, n, head, NetRecords(world.reg, store, Walk(world.ix, ks[..k])));
    }
    assert ks[..|ks|] == ks;
    ghost var rs := NetRecords(world.reg, store, Walk(world.ix, ks));
    ghost var data := out.data;
    Patched(data, n, rs);
    if n > 0 {
      out.OverwriteU32(countPos, n);
    } else {
      out := new BinaryBuffer();
    }
  }

  lemma OrderIsAll(w: S.Index, ks: seq<S.Key>, sig: S.Key -> int)
    requires SaveOrder(w, ks, sig)
    ensures AllKeys(w, ks)
  {
  }

  lemma NoneWritten(w: S.Index, ks: seq<S.Key>, head: Bytes)
    ensures Wrote(head, head, 0, NetRecords(w.reg, S.Contents(w), Walk(w, ks[..0])))
  {
  }

  lemma Patched(data: Bytes, n: nat, rs: seq<Record>)
    requires Wrote(data, LE(SYNC_VERSION, 2) + LE(0, 4), n, rs)
    ensures |data| >= 6 && (n == 0 <==> rs == [])
    ensures n > 0 ==> data[..2] + LE(n, 4) + data[6..] == EncodeFullState(rs)
  {
    hide LE, EncodeMany;
    assert data[..2] == LE(SYNC_VERSION, 2);
    assert data[6..] == EncodeMany(EncodeEntity, rs);
  }
}
