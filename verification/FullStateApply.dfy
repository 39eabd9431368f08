/** Applying spawn and full-state packets: look at everything first, then apply what nothing but a world that is
    iterated refuses. */
module FullStateApply {
  import opened Base
  import opened Schema
  import S = Storage
  import opened StorageLaws
  import opened Operations
  import opened Commands
  import opened CommandLaws
  import opened Engine
  import opened Wire
  import opened Buffers
  import opened Serializer
  import opened SnapshotFormat
  import opened Snapshots
  import opened SnapshotLoad
  import opened SyncPlan
  import opened Packets
  import opened PacketChecks
  import opened Replicas
  import opened Attempts

  // ------------------------------------------------------------------ pass 1

  lemma AcceptableSnoc(rs: seq<Record>, r: Record)
    requires Acceptable(rs)
    ensures Acceptable(rs + [r]) <==> AcceptsForeign(r.id) && r.id !in IdsOf(rs)
    ensures IdsOf(rs + [r]) == IdsOf(rs) + {r.id}
  {
    hide AcceptsForeign;
    var all := rs + [r];
    assert all[|rs|] == r;
    forall e ensures e in IdsOf(all) <==> e in IdsOf(rs) + {r.id} {
      if e in IdsOf(rs) {
        var i :| 0 <= i < |rs| && rs[i].id == e;
        assert all[i].id == e;
      }
    }
    if r.id in IdsOf(rs) {
      var i :| 0 <= i < |rs| && rs[i].id == r.id;
      assert all[i].id == all[|rs|].id;
    }
  }

  lemma AcceptablePrefix(rs: seq<Record>, i: nat)
    requires i <= |rs| && Acceptable(rs)
    ensures Acceptable(rs[..i])
  {
    hide AcceptsForeign;
  }

  /** One entity of the dry run: its id first, then its bytes. */
  method ScanEntity(reg: Registry, version: nat, buf: BinaryBuffer, seen: set<Entity>) returns (ok: bool, id: Entity)
    modifies buf`pos
    ensures ok <==> (var r := ParseEntity(reg, buf.data, version, old(buf.pos));
      r.Some? && AcceptsForeign(r.value.value.id) && r.value.value.id !in seen)
    ensures ok ==> ParseEntity(reg, buf.data, version, old(buf.pos)).value.pos == buf.pos
    ensures ok ==> ParseEntity(reg, buf.data, version, old(buf.pos)).value.value.id == id
  {
    hide ReadInt, ParseMany;
    var n;
    ok, id := ReadNumber(buf, 8);
    if !ok {
      return;
    }
    var slot := Slot(id);
    if slot == U32_LIMIT - 1 || slot >= S.MAX_FOREIGN_SLOT {
      return false, id;
    }
    if id in seen {
      return false, id;
    }
    ok, n := ReadNumber(buf, 2);
    if ok {
      ok := SkipComps(reg, version, buf, n);
    }
  }

  lemma ScanFails(one: nat -> Option<Parsed<Record>>, start: nat, i: nat, n: nat)
    requires i < n && ParseMany(one, start, i).Some? && Acceptable(ParseMany(one, start, i).value.value)
    requires var r := one(ParseMany(one, start, i).value.pos);
      !(r.Some? && AcceptsForeign(r.value.value.id) && r.value.value.id !in IdsOf(ParseMany(one, start, i).value.value))
    ensures ParseMany(one, start, n).None? || !Acceptable(ParseMany(one, start, n).value.value)
  {
    hide AcceptsForeign, Acceptable;
    if ParseMany(one, start, n).Some? {
      ManyPrefix(one, start, i + 1, n);
      var front, r := ParseMany(one, start, i).value.value, one(ParseMany(one, start, i).value.pos).value.value;
      AcceptableSnoc(front, r);
      if Acceptable(ParseMany(one, start, n).value.value) {
        AcceptablePrefix(ParseMany(one, start, n).value.value, i + 1);
      }
    }
  }

  method ScanEntities(reg: Registry, version: nat, buf: BinaryBuffer, n: nat) returns (ok: bool)
    modifies buf`pos
    ensures ok <==> (
      var rs := ParseMany(EntityAt(reg, buf.data, version), old(buf.pos), n);
      rs.Some? && Acceptable(rs.value.value))
  {
    hide ParseEntity, AcceptsForeign, Acceptable;
    ghost var one, start := EntityAt(reg, buf.data, version), buf.pos;
    var seen: set<Entity> := {};
    NobodySeen();
    for i := 0 to n
      invariant ParseMany(one, start, i).Some? && ParseMany(one, start, i).value.pos == buf.pos
      invariant Acceptable(ParseMany(one, start, i).value.value) && seen == IdsOf(ParseMany(one, start, i).value.value)
    {
      ghost var front, at := ParseMany(one, start, i).value.value, buf.pos;
      var id;
      ok, id := ScanEntity(reg, version, buf, seen);
      if !ok {
        ScanFails(one, start, i, n);
        return;
      }
      AcceptableSnoc(front, one(at).value.value);
      seen := seen + {id};
    }
    ok := true;
  }

  lemma NobodySeen()
    ensures Acceptable([]) && IdsOf([]) == {}
  {
  }

  // ------------------------------------------------------------------ pass 2

  /** One component: add it zeroed, then read the masked fields into its memory. No read can fail; the component can be
      refused. */
  method ApplyComp(world: World, e: Entity, version: nat, buf: BinaryBuffer) returns (ok: bool)
    requires Loadable(world) && buf !in world.repr && ParseComp(world.reg, buf.data, version, buf.pos).Some?
    modifies world, world.repr, world.queryCache, buf`pos
    ensures Loadable(world) && fresh(world.repr - old(world.repr)) && buf !in world.repr
      && world.Deferral() == old(world.Deferral())
    ensures var p := ParseComp(world.reg, buf.data, version, old(buf.pos)).value;
      (world.Model(), ok) == TryPart(old(world.Model()), e, p.value) && (ok ==> buf.pos == p.pos)
  {
    hide WorldOk, World.Tied, World.WindowTied, AddRaw, Poke, ReadBlock, BlockSize, S.Contents, RegistryOk,
      Registered, SchemaOf, ReadInt, DecodeMask;
    IsHealthy(world);
    world.Lookup();
    var read, t := ReadNumber(buf, 4);
    assert read && Registered(world.reg, t);
    ghost var w := world.Model();
    AddedZero(w, e, t);
    AddRawKeeps(w, e, t, None);
    world.AddComponentRaw(e, t, None);
    world.Lookup();
    var raw := world.GetRaw(e, t);
    ok := raw.Some?;
    if ok {
      SchemaFits(world.reg, t);
      var mask: seq<bool> := [];
      if version != 1 {
        read, mask := NextMask(|SchemaOf(world.reg, t).fields|, buf);
        assert read;
      }
      var done, row := GetComponent(SchemaOf(world.reg, t), raw.value, mask, buf);
      assert done;
      world.PokeRaw(e, t, row);
    }
  }

  method ApplyComps(world: World, e: Entity, version: nat, buf: BinaryBuffer, n: nat) returns (ok: bool)
    requires Loadable(world) && buf !in world.repr
      && ParseMany(CompAt(world.reg, buf.data, version), buf.pos, n).Some?
    modifies world, world.repr, world.queryCache, buf`pos
    ensures Loadable(world) && fresh(world.repr - old(world.repr)) && buf !in world.repr
      && world.Deferral() == old(world.Deferral())
    ensures var ps := ParseMany(CompAt(world.reg, buf.data, version), old(buf.pos), n).value;
      (world.Model(), ok) == TryParts(old(world.Model()), e, ps.value) && (ok ==> buf.pos == ps.pos)
  {
    hide Loadable, ParseComp, TryPart, World.Deferral, World.Model, World.Valid;
    ghost var w, start, one := world.Model(), buf.pos, CompAt(world.reg, buf.data, version);
    ghost var all := ParseMany(one, start, n).value.value;
    ManyPrefix(one, start, 0, n);
    for j := 0 to n
      invariant Loadable(world) && fresh(world.repr - old(world.repr)) && buf !in world.repr
        && world.Deferral() == old(world.Deferral())
      invariant ParseMany(one, start, j).Some? && ParseMany(one, start, j).value.pos == buf.pos
      invariant TryParts(w, e, all[..j]) == (world.Model(), true)
    {
      ManyPrefix(one, start, j, n);
      ManyPrefix(one, start, j + 1, n);
      assert all[..j + 1][..j] == all[..j];
      ok := ApplyComp(world, e, version, buf);
      if !ok {
        PartsStop(w, e, all, j + 1);
        return;
      }
    }
    assert all[..|all|] == all;
    ok := true;
  }

  /** `destroy_entity`, which does nothing for a dead handle or during iteration, under the loader's invariant. */
  method Vacate(world: World, e: Entity)
    requires Loadable(world)
    modifies world, world.repr, world.queryCache
    ensures Loadable(world) && fresh(world.repr - old(world.repr)) && world.Deferral() == old(world.Deferral())
      && world.repr == old(world.repr)
    ensures world.Model() == Destroy(old(world.Model()), e)
  {
    hide WorldOk, World.Tied, World.WindowTied, Destroy, RegistryOk;
    DestroyKeeps(world.Model(), e);
    world.Lookup();
    world.DestroyEntity(e);
  }

  /** One entity: clear the id if it is taken, create it, load its components. */
  method ApplyOne(world: World, version: nat, buf: BinaryBuffer) returns (ok: bool, e: Entity)
    requires Loadable(world) && buf !in world.repr && ParseEntity(world.reg, buf.data, version, buf.pos).Some?
    requires AcceptsForeign(ParseEntity(world.reg, buf.data, version, buf.pos).value.value.id)
    modifies world, world.repr, world.queryCache, buf`pos
    ensures Loadable(world) && fresh(world.repr - old(world.repr)) && buf !in world.repr
      && world.Deferral() == old(world.Deferral())
    ensures var r := ParseEntity(world.reg, buf.data, version, old(buf.pos)).value;
      && (world.Model(), ok) == TryEntity(old(world.Model()), r.value)
      && (ok ==> buf.pos == r.pos && e == r.value.id)
  {
    hide WorldOk, World.Tied, World.WindowTied, ParseMany, TryParts, CreatePreassigned, RegistryOk, FromLE, Destroy;
    ghost var w := world.Model();
    world.Lookup();
    Widths();
    var read, id := ReadNumber(buf, 8);
    assert read && IsHandle(id);
    if id in world.locations {
      Vacate(world, id);
    } else {
      DeadStays(w, id);
    }
    ghost var v := world.Model();
    NoForeignZero();
    CreatePreassignedKeeps(v, id);
    world.Lookup();
    e := world.CreateEntityPreassigned(id);
    world.Lookup();
    if e == NO_ENTITY {
      return false, e;
    }
    var got, n := ReadNumber(buf, 2);
    assert got;
    ok := ApplyComps(world, id, version, buf, n);
  }

  lemma DeadStays(w: S.World, e: Entity)
    requires e !in w.ix.loc
    ensures Destroy(w, e) == w
  {
  }

  lemma NothingTried(one: nat -> Option<Parsed<Record>>, w: S.World, start: nat)
    ensures ParseMany(one, start, 0) == Some(Parsed([], start)) && TryEntities(w, []) == (w, true) && IdsOf([]) == {}
  {
  }

  lemma NextTried(w: S.World, rs: seq<Record>, i: nat)
    requires i < |rs|
    ensures TryEntities(w, rs[..i + 1]) ==
      if TryEntities(w, rs[..i]).1 then TryEntity(TryEntities(w, rs[..i]).0, rs[i]) else TryEntities(w, rs[..i])
  {
    hide TryEntity;
    assert rs[..i + 1][..i] == rs[..i];
  }

  lemma {:induction false} EntitiesStop(w: S.World, rs: seq<Record>, j: nat)
    requires j <= |rs| && !TryEntities(w, rs[..j]).1
    ensures TryEntities(w, rs) == TryEntities(w, rs[..j])
    decreases rs
  {
    hide TryEntity;
    if j < |rs| {
      assert rs[..|rs| - 1][..j] == rs[..j];
      EntitiesStop(w, rs[..|rs| - 1], j);
    } else {
      assert rs[..j] == rs;
    }
  }

  method ApplyAll(world: World, version: nat, buf: BinaryBuffer, n: nat) returns (ok: bool, incoming: set<Entity>)
    requires Loadable(world) && buf !in world.repr
    requires var rs := ParseMany(EntityAt(world.reg, buf.data, version), buf.pos, n);
      rs.Some? && Acceptable(rs.value.value)
    modifies world, world.repr, world.queryCache, buf`pos
    ensures Loadable(world) && fresh(world.repr - old(world.repr)) && buf !in world.repr
      && world.Deferral() == old(world.Deferral())
    ensures var rs := ParseMany(EntityAt(world.reg, buf.data, version), old(buf.pos), n).value;
      (world.Model(), ok) == TryEntities(old(world.Model()), rs.value) && (ok ==> incoming == IdsOf(rs.value))
  {
    hide Loadable, ParseEntity, ParseMany, TryEntity, TryEntities, World.Deferral, World.Model, World.Valid,
      AcceptsForeign, Acceptable, IdsOf;
    ghost var w, start, one := world.Model(), buf.pos, EntityAt(world.reg, buf.data, version);
    ghost var all := ParseMany(one, start, n).value.value;
    ManyPrefix(one, start, 0, n);
    NothingTried(one, w, start);
    incoming := {};
    for i := 0 to n
      invariant Loadable(world) && fresh(world.repr - old(world.repr)) && buf !in world.repr
        && world.Deferral() == old(world.Deferral())
      invariant ParseMany(one, start, i).Some? && ParseMany(one, start, i).value.pos == buf.pos
      invariant TryEntities(w, all[..i]) == (world.Model(), true) && incoming == IdsOf(all[..i])
    {
      NextParsed(one, start, i, n);
      AcceptablePrefix(all, i);
      AcceptablePrefix(all, i + 1);
      assert all[..i + 1] == all[..i] + [all[i]];
      AcceptableSnoc(all[..i], all[i]);
      NextTried(w, all, i);
      var e;
      ok, e := ApplyOne(world, version, buf);
      if !ok {
        EntitiesStop(w, all, i + 1);
        return;
      }
      incoming := incoming + {e};
    }
    assert all[..|all|] == all;
    ok := true;
  }

  /** Entities replicated before and absent now are destroyed, in whatever order the set yields them. */
  method DestroyMissing(world: World, replicated: set<Entity>, keep: set<Entity>) returns (ghost order: seq<Entity>)
    requires Loadable(world)
    modifies world, world.repr, world.queryCache
    ensures Loadable(world) && world.repr == old(world.repr) && world.Deferral() == old(world.Deferral())
    ensures Elements(order) == replicated && world.Model() == DestroyAbsent(old(world.Model()), order, keep)
  {
    hide Loadable, World.Deferral, World.Model, World.Valid, Destroy;
    order := [];
    var rest := replicated;
    while rest != {}
      invariant Loadable(world) && world.repr == old(world.repr) && world.Deferral() == old(world.Deferral())
      invariant world.Model() == DestroyAbsent(old(world.Model()), order, keep)
      invariant rest !! Elements(order) && rest + Elements(order) == replicated
      decreases |rest|
    {
      var e := Pick(rest);
      assert (order + [e])[..|order|] == order;
      assert Elements(order + [e]) == Elements(order) + {e};
      if e !in keep {
        Vacate(world, e);
      }
      order := order + [e];
      rest := rest - {e};
    }
  }

  /** `apply_full_state`: a packet that fails the first pass leaves everything as it was; any other is applied entity by
      entity, up to the first step the world refuses, and what was replicated is reconciled only after the last. */
  method ApplyFullState(world: World, replicated: set<Entity>, data: Bytes)
    returns (now: set<Entity>, ghost order: seq<Entity>)
    requires Loadable(world)
    modifies world, world.repr, world.queryCache
    ensures Loadable(world) && fresh(world.repr - old(world.repr)) && world.Deferral() == old(world.Deferral())
    ensures Elements(order) == replicated
    ensures var p := ParseFullState(world.reg, data);
      if p.Some? && Acceptable(p.value.value) then
        var v := TryEntities(old(world.Model()), p.value.value);
        if v.1 then now == IdsOf(p.value.value) && world.Model() == DestroyAbsent(v.0, order, now)
        else now == replicated && world.Model() == v.0
      else world.Model() == old(world.Model()) && now == replicated
  {
    hide Loadable, World.Deferral, World.Model, World.Valid, ParseMany, ReadInt, TryEntities, DestroyAbsent, IdsOf,
      Acceptable, ParseVersion;
    now, order := replicated, InSomeOrder(replicated);
    var buf := new BinaryBuffer.Over(data, 0);
    var ok, version := CheckVersion(buf);
    if !ok {
      return;
    }
    var n;
    ok, n := ReadNumber(buf, 4);
    if !ok {
      return;
    }
    var scan := new BinaryBuffer.Over(data, buf.pos);
    ok := ScanEntities(world.reg, version, scan, n);
    if !ok {
      return;
    }
    var incoming;
    ok, incoming := ApplyAll(world, version, buf, n);
    if ok {
      order := DestroyMissing(world, replicated, incoming);
      now := incoming;
    }
  }

  ghost function InSomeOrder(s: set<Entity>): (order: seq<Entity>)
    ensures Elements(order) == s
  {
    if s == {} then [] else
      var e := Any(s);
      var rest := InSomeOrder(s - {e});
      assert Elements([e] + rest) == {e} + Elements(rest);
      [e] + rest
  }
}
