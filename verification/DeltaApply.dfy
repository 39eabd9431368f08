/** Applying delta, spawn and despawn packets, and the entry point every received packet goes through. */
module DeltaApply {
  import opened Base
  import opened Schema
  import S = Storage
  import opened StorageLaws
  import opened Operations
  import opened Commands
  import opened CommandLaws
  import opened Engine
  import opened Wire
  import opened Buffers
  import opened Serializer
  import opened SnapshotFormat
  import opened Snapshots
  import opened SaveLoad
  import opened SnapshotLoad
  import opened SyncPlan
  import opened Packets
  import opened PacketChecks
  import opened Replicas
  import opened FullStateApply
  import opened Deltas
  import opened Attempts
  import opened Receiving

  /** One due bucket, read over the component's current memory: fields the mask leaves out keep their value. */
  method ApplyNextDue(world: World, e: Entity, t: TypeId, buf: BinaryBuffer)
    requires Loadable(world) && buf !in world.repr && S.Has(world.ix, e, t) && Registered(world.reg, t)
    requires ParseDue(SchemaOf(world.reg, t), buf.data, buf.pos).Some?
    modifies world, world.repr, world.queryCache, buf`pos
    ensures Loadable(world) && fresh(world.repr - old(world.repr)) && buf !in world.repr
      && world.Deferral() == old(world.Deferral())
    ensures S.Has(world.ix, e, t)
    ensures var p := ParseDue(SchemaOf(world.reg, t), buf.data, old(buf.pos)).value;
      world.Model() == ApplyDue(old(world.Model()), e, t, p.value) && buf.pos == p.pos
  {
    hide WorldOk, World.Tied, World.WindowTied, Poke, ReadBlock, BlockSize, S.Contents, RegistryOk, Registered,
      SchemaOf, ReadInt, DecodeMask, SizeOf;
    ghost var w, d := world.Model(), ParseDue(SchemaOf(world.reg, t), buf.data, buf.pos).value.value;
    IsHealthy(world);
    var ok, bucket := ReadNumber(buf, 1);
    assert ok;
    var mask;
    ok, mask := NextMask(|SchemaOf(world.reg, t).fields|, buf);
    assert ok;
    var raw := world.GetRaw(e, t);
    HeldSize(world, e, t);
    SchemaFits(world.reg, t);
    ApplyDueOk(w, e, t, d);
    var done, row := GetComponent(SchemaOf(world.reg, t), raw.value, mask, buf);
    assert done;
    assert row == Overlaid(world.reg, t, raw.value, d);
    world.Lookup();
    world.PokeRaw(e, t, row);
  }

  lemma HeldSize(world: World, e: Entity, t: TypeId)
    requires Loadable(world) && S.Has(world.ix, e, t)
    ensures e in S.Contents(world.ix) && t in S.Contents(world.ix)[e] && Registered(world.reg, t)
      && |S.Contents(world.ix)[e][t]| == SizeOf(world.reg, t)
  {
    hide World.Tied, World.WindowTied, S.Contents, RegistryOk, S.Shaped, S.Sized, SizeOf, Registered;
    world.Lookup();
    StoredComps(world.ix, e);
  }

  method ApplyNextDues(world: World, e: Entity, t: TypeId, buf: BinaryBuffer, n: nat)
    requires Loadable(world) && buf !in world.repr && S.Has(world.ix, e, t) && Registered(world.reg, t)
    requires ParseMany(DueAt(SchemaOf(world.reg, t), buf.data), buf.pos, n).Some?
    modifies world, world.repr, world.queryCache, buf`pos
    ensures Loadable(world) && fresh(world.repr - old(world.repr)) && buf !in world.repr
      && world.Deferral() == old(world.Deferral())
    ensures var p := ParseMany(DueAt(SchemaOf(world.reg, t), buf.data), old(buf.pos), n).value;
      world.Model() == ApplyDues(old(world.Model()), e, t, p.value) && buf.pos == p.pos
  {
    hide Loadable, ParseDue, ApplyDue, World.Deferral, World.Model, World.Valid, S.Has, Registered;
    ghost var w, start, one := world.Model(), buf.pos, DueAt(SchemaOf(world.reg, t), buf.data);
    ghost var all := ParseMany(one, start, n).value.value;
    ManyPrefix(one, start, 0, n);
    for j := 0 to n
      invariant Loadable(world) && fresh(world.repr - old(world.repr)) && buf !in world.repr
        && world.Deferral() == old(world.Deferral())
      invariant S.Has(world.ix, e, t)
      invariant ParseMany(one, start, j).Some? && ParseMany(one, start, j).value.pos == buf.pos
      invariant world.Model() == ApplyDues(w, e, t, all[..j])
    {
      ManyPrefix(one, start, j, n);
      ManyPrefix(one, start, j + 1, n);
      assert all[..j + 1][..j] == all[..j];
      ApplyNextDue(world, e, t, buf);
    }
    assert all[..|all|] == all;
  }

  /** Add the component zeroed: always in version 1, only when it is missing in version 2. It can be refused. */
  method Present(world: World, version: nat, e: Entity, t: TypeId) returns (ok: bool)
    requires Loadable(world) && S.Alive(world.ix, e) && Registered(world.reg, t)
    modifies world, world.repr, world.queryCache
    ensures Loadable(world) && fresh(world.repr - old(world.repr)) && world.Deferral() == old(world.Deferral())
    ensures world.Model() == Presented(old(world.Model()), version, e, t) && (ok <==> S.Has(world.ix, e, t))
  {
    hide WorldOk, World.Tied, World.WindowTied, AddRaw, RegistryOk, Registered;
    IsHealthy(world);
    world.Lookup();
    AddRawKeeps(world.Model(), e, t, None);
    NoData(world.reg, t);
    var held := world.HasComponentOf(e, t);
    if version == 1 || !held {
      world.AddComponentRaw(e, t, None);
    }
    world.Lookup();
    var raw := world.GetRaw(e, t);
    ok := raw.Some?;
  }

  /** One component of a delta, alive or dead: the cursor moves past it either way. */
  method ApplyNextDueComp(world: World, version: nat, e: Entity, buf: BinaryBuffer) returns (ok: bool)
    requires Loadable(world) && buf !in world.repr && ParseDueComp(world.reg, buf.data, version, buf.pos).Some?
    modifies world, world.repr, world.queryCache, buf`pos
    ensures Loadable(world) && fresh(world.repr - old(world.repr)) && buf !in world.repr
      && world.Deferral() == old(world.Deferral())
    ensures var p := ParseDueComp(world.reg, buf.data, version, old(buf.pos)).value;
      (world.Model(), ok) == TryDueComp(old(world.Model()), version, e, p.value) && (ok ==> buf.pos == p.pos)
  {
    hide WorldOk, World.Tied, World.WindowTied, Presented, ParseMany, S.Contents, RegistryOk, Registered, SchemaOf,
      ReadInt, BlockSize, ApplyDue;
    IsHealthy(world);
    var read, t := ReadNumber(buf, 4);
    assert read && Registered(world.reg, t);
    var alive := world.IsAlive(e);
    ok := true;
    if version == 1 {
      if alive {
        ok := Present(world, version, e, t);
        if ok {
          ApplyWhole(world, e, t, buf);
        }
      } else {
        var skipped := SkipBlock(SchemaOf(world.reg, t), [], buf);
        assert skipped;
      }
    } else {
      var n;
      read, n := ReadNumber(buf, 1);
      assert read;
      if alive {
        ok := Present(world, version, e, t);
        if ok {
          ApplyNextDues(world, e, t, buf, n);
        }
      } else {
        var skipped := SkipDues(SchemaOf(world.reg, t), buf, n);
        assert skipped;
      }
    }
  }

  /** A whole component, as version 1 sends it. */
  method ApplyWhole(world: World, e: Entity, t: TypeId, buf: BinaryBuffer)
    requires Loadable(world) && buf !in world.repr && S.Has(world.ix, e, t) && Registered(world.reg, t)
    requires ParseBlock(SchemaOf(world.reg, t), buf.data, buf.pos, []).Some?
    modifies world, world.repr, world.queryCache, buf`pos
    ensures Loadable(world) && fresh(world.repr - old(world.repr)) && buf !in world.repr
      && world.Deferral() == old(world.Deferral())
    ensures var p := ParseBlock(SchemaOf(world.reg, t), buf.data, old(buf.pos), []).value;
      world.Model() == ApplyDues(old(world.Model()), e, t, [Due(0, [], p.value)]) && buf.pos == p.pos
  {
    hide WorldOk, World.Tied, World.WindowTied, Poke, ReadBlock, BlockSize, S.Contents, RegistryOk, Registered,
      SchemaOf, SizeOf;
    ghost var w, d := world.Model(), Due(0, [], ParseBlock(SchemaOf(world.reg, t), buf.data, buf.pos, []).value.value);
    IsHealthy(world);
    var raw := world.GetRaw(e, t);
    HeldSize(world, e, t);
    SchemaFits(world.reg, t);
    ApplyDueOk(w, e, t, d);
    var done, row := GetComponent(SchemaOf(world.reg, t), raw.value, [], buf);
    assert done;
    assert row == Overlaid(world.reg, t, raw.value, d);
    OneDue(w, e, t, d);
    world.Lookup();
    world.PokeRaw(e, t, row);
  }

  lemma OneDue(w: S.World, e: Entity, t: TypeId, d: Due)
    ensures ApplyDues(w, e, t, [d]) == ApplyDue(w, e, t, d)
  {
    hide ApplyDue;
    assert [d][..0] == [];
    assert ApplyDues(w, e, t, []) == w;
  }

  lemma {:induction false} DueCompsStop(w: S.World, version: nat, e: Entity, cs: seq<DueComp>, j: nat)
    requires j <= |cs| && !TryDueComps(w, version, e, cs[..j]).1
    ensures TryDueComps(w, version, e, cs) == TryDueComps(w, version, e, cs[..j])
  {
    hide TryDueComp;
    if j < |cs| {
      assert cs[..|cs| - 1][..j] == cs[..j];
      DueCompsStop(w, version, e, cs[..|cs| - 1], j);
    } else {
      assert cs[..j] == cs;
    }
  }

  method ApplyNextDueComps(world: World, version: nat, e: Entity, buf: BinaryBuffer, n: nat) returns (ok: bool)
    requires Loadable(world) && buf !in world.repr
      && ParseMany(DueCompAt(world.reg, buf.data, version), buf.pos, n).Some?
    modifies world, world.repr, world.queryCache, buf`pos
    ensures Loadable(world) && fresh(world.repr - old(world.repr)) && buf !in world.repr
      && world.Deferral() == old(world.Deferral())
    ensures var p := ParseMany(DueCompAt(world.reg, buf.data, version), old(buf.pos), n).value;
      (world.Model(), ok) == TryDueComps(old(world.Model()), version, e, p.value) && (ok ==> buf.pos == p.pos)
  {
    hide Loadable, ParseDueComp, TryDueComp, World.Deferral, World.Model, World.Valid;
    ghost var w, start, one := world.Model(), buf.pos, DueCompAt(world.reg, buf.data, version);
    ghost var all := ParseMany(one, start, n).value.value;
    ManyPrefix(one, start, 0, n);
    for j := 0 to n
      invariant Loadable(world) && fresh(world.repr - old(world.repr)) && buf !in world.repr
        && world.Deferral() == old(world.Deferral())
      invariant ParseMany(one, start, j).Some? && ParseMany(one, start, j).value.pos == buf.pos
      invariant TryDueComps(w, version, e, all[..j]) == (world.Model(), true)
    {
      ManyPrefix(one, start, j, n);
      ManyPrefix(one, start, j + 1, n);
      assert all[..j + 1][..j] == all[..j];
      ok := ApplyNextDueComp(world, version, e, buf);
      if !ok {
        DueCompsStop(w, version, e, all, j + 1);
        return;
      }
    }
    assert all[..|all|] == all;
    ok := true;
  }

  /** One entity of a delta. */
  method ApplyNextDueEntity(world: World, version: nat, buf: BinaryBuffer) returns (ok: bool, id: Entity, alive: bool)
    requires Loadable(world) && buf !in world.repr && ParseDueEntity(world.reg, buf.data, version, buf.pos).Some?
    modifies world, world.repr, world.queryCache, buf`pos
    ensures Loadable(world) && fresh(world.repr - old(world.repr)) && buf !in world.repr
      && world.Deferral() == old(world.Deferral())
    ensures var p := ParseDueEntity(world.reg, buf.data, version, old(buf.pos)).value;
      && (world.Model(), ok) == TryDueComps(old(world.Model()), version, p.value.id, p.value.comps)
      && id == p.value.id && (ok ==> buf.pos == p.pos && (alive <==> S.Alive(world.Model().ix, id)))
  {
    hide WorldOk, World.Tied, World.WindowTied, ParseMany, TryDueComps, RegistryOk, ReadInt;
    alive := false;
    var read, n;
    read, id := ReadNumber(buf, 8);
    assert read;
    read, n := ReadNumber(buf, 1);
    assert read;
    ok := ApplyNextDueComps(world, version, id, buf, n);
    if ok {
      IsHealthy(world);
      alive := world.IsAlive(id);
    }
  }

  lemma NothingDue(one: nat -> Option<Parsed<DueEntity>>, w: S.World, version: nat, start: nat)
    ensures ParseMany(one, start, 0) == Some(Parsed([], start)) && TryDelta(w, version, []) == Progress(w, {}, true)
  {
  }

  lemma NextDue(w: S.World, version: nat, es: seq<DueEntity>, i: nat)
    requires i < |es|
    ensures var front, e := TryDelta(w, version, es[..i]), es[i];
      TryDelta(w, version, es[..i + 1]) ==
        if !front.done then front else
          var v := TryDueComps(front.w, version, e.id, e.comps);
          Progress(v.0, front.live + (if v.1 && S.Alive(v.0.ix, e.id) then {e.id} else {}), v.1)
  {
    hide TryDueComps;
    assert es[..i + 1][..i] == es[..i];
  }

  lemma {:induction false} DeltaStop(w: S.World, version: nat, es: seq<DueEntity>, j: nat)
    requires j <= |es| && !TryDelta(w, version, es[..j]).done
    ensures TryDelta(w, version, es) == TryDelta(w, version, es[..j])
  {
    hide TryDueComps;
    if j < |es| {
      assert es[..|es| - 1][..j] == es[..j];
      DeltaStop(w, version, es[..|es| - 1], j);
    } else {
      assert es[..j] == es;
    }
  }

  /** `apply_delta` of a packet the validator accepted: unless the world refuses a component it consumes exactly the
      bytes of the packet, whichever entities are dead here. */
  method ApplyDeltaPacket(world: World, replicated: set<Entity>, data: Bytes)
    returns (ok: bool, now: set<Entity>, end: nat)
    requires Loadable(world) && ParseDelta(world.reg, data).Some?
    modifies world, world.repr, world.queryCache
    ensures Loadable(world) && fresh(world.repr - old(world.repr)) && world.Deferral() == old(world.Deferral())
    ensures var p := ParseDelta(world.reg, data).value; var v := TryDelta(old(world.Model()), p.version, p.value);
      && world.Model() == v.w && now == replicated + v.live && ok == v.done && (ok ==> end == p.pos)
  {
    hide Loadable, ParseDueEntity, ParseMany, TryDueComps, TryDelta, World.Deferral, World.Model, World.Valid, ReadInt,
      ParseVersion, S.Alive;
    var buf := new BinaryBuffer.Over(data, 0);
    var read, version := CheckVersion(buf);
    assert read;
    var n;
    read, n := ReadNumber(buf, 4);
    assert read;
    ghost var w, start, one := world.Model(), buf.pos, DueEntityAt(world.reg, data, version);
    ghost var all := ParseMany(one, start, n).value.value;
    ManyPrefix(one, start, 0, n);
    NothingDue(one, w, version, start);
    now, end := replicated, 0;
    for i := 0 to n
      invariant Loadable(world) && fresh(world.repr - old(world.repr)) && buf !in world.repr
        && world.Deferral() == old(world.Deferral())
      invariant buf.data == data && ParseMany(one, start, i).Some? && ParseMany(one, start, i).value.pos == buf.pos
      invariant var v := TryDelta(w, version, all[..i]);
        world.Model() == v.w && v.done && now == replicated + v.live
    {
      NextParsed(one, start, i, n);
      NextDue(w, version, all, i);
      var id, alive;
      ok, id, alive := ApplyNextDueEntity(world, version, buf);
      if !ok {
        DeltaStop(w, version, all, i + 1);
        return;
      }
      if alive {
        now := now + {id};
      }
    }
    assert all[..|all|] == all;
    ok, end := true, buf.pos;
  }

  /** `apply_spawn` of a packet the validator accepted: an entity the world refuses, or a component of it, is not
      replicated. */
  method ApplySpawnPacket(world: World, replicated: set<Entity>, data: Bytes) returns (now: set<Entity>)
    requires Loadable(world) && ParseSpawn(world.reg, data).Some?
    modifies world, world.repr, world.queryCache
    ensures Loadable(world) && fresh(world.repr - old(world.repr)) && world.Deferral() == old(world.Deferral())
    ensures var r := ParseSpawn(world.reg, data).value.value; var v := TryRecord(old(world.Model()), r);
      world.Model() == v.0 && now == replicated + if v.1 then {r.id} else {}
  {
    hide WorldOk, World.Tied, World.WindowTied, ParseMany, TryParts, CreatePreassigned, RegistryOk, FromLE,
      ParseVersion;
    Widths();
    now := replicated;
    var buf := new BinaryBuffer.Over(data, 0);
    var read, version := CheckVersion(buf);
    assert read;
    var id;
    read, id := ReadNumber(buf, 8);
    assert read && IsHandle(id);
    world.Lookup();
    NoForeignZero();
    CreatePreassignedKeeps(world.Model(), id);
    var e := world.CreateEntityPreassigned(id);
    world.Lookup();
    if e != NO_ENTITY {
      var got, n := ReadNumber(buf, 2);
      assert got;
      var ok := ApplyComps(world, id, version, buf, n);
      if ok {
        now := now + {e};
      }
    }
  }

  /** `apply_despawn`. */
  method ApplyDespawnPacket(world: World, replicated: set<Entity>, data: Bytes) returns (now: set<Entity>)
    requires Loadable(world) && |data| == 8
    modifies world, world.repr, world.queryCache
    ensures Loadable(world) && fresh(world.repr - old(world.repr)) && world.Deferral() == old(world.Deferral())
    ensures world.Model() == Destroy(old(world.Model()), FromLE(data)) && now == replicated - {FromLE(data)}
  {
    hide Loadable, World.Deferral, World.Model, World.Valid, Destroy, FromLE;
    var buf := new BinaryBuffer.Over(data, 0);
    var got, id := ReadNumber(buf, 8);
    assert got && data[..8] == data;
    now := replicated - {id};
    Vacate(world, id);
  }

  /** `apply_packet`: a malformed packet is dropped before anything is touched; an accepted one is applied step by
      step, up to the first step the world refuses. */
  method ApplyPacket(world: World, replicated: set<Entity>, kind: Kind, data: Bytes)
    returns (now: set<Entity>, ghost order: seq<Entity>)
    requires Loadable(world)
    modifies world, world.repr, world.queryCache
    ensures Loadable(world) && fresh(world.repr - old(world.repr)) && world.Deferral() == old(world.Deferral())
    ensures Elements(order) == replicated
    ensures (world.Model(), now) == Received(old(world.Model()), replicated, kind, data, order)
  {
    hide Loadable, World.Deferral, World.Model, World.Valid, ParseSpawn, ParseDelta, ParseFullState, TryRecord,
      TryEntities, TryDelta, DestroyAbsent, Destroy, IdsOf, Acceptable, ReadInt, FromLE;
    now := replicated;
    order := InSomeOrder(replicated);
    IsHealthy(world);
    var ok := ValidatePacket(world.reg, kind, data);
    if !ok {
      return;
    }
    match kind {
      case Spawn =>
        now := ApplySpawnPacket(world, replicated, data);
      case Delta =>
        var done, end;
        done, now, end := ApplyDeltaPacket(world, replicated, data);
      case FullState =>
        now, order := ApplyFullState(world, replicated, data);
      case Despawn =>
        now := ApplyDespawnPacket(world, replicated, data);
    }
  }
}
