/** The two-pass loader: nothing is touched until every check has passed, and then nothing can fail but what the world
    refuses because it is iterated. */
module SnapshotLoad {
  import opened Base
  import opened Schema
  import S = Storage
  import opened StorageLaws
  import opened Operations
  import opened Commands
  import opened CommandLaws
  import opened Engine
  import opened Wire
  import opened Buffers
  import opened Serializer
  import opened SnapshotFormat
  import opened Snapshots
  import opened SaveLoad
  import opened Replicas
  import opened Attempts

  // ------------------------------------------------------------------ pass 1: look, do not touch

  method ReadNumber(buf: BinaryBuffer, n: nat) returns (ok: bool, v: nat)
    modifies buf`pos
    ensures ok <==> ReadInt(buf.data, old(buf.pos), n).Some?
    ensures ok ==> ReadInt(buf.data, old(buf.pos), n) == Some(Parsed(v, buf.pos))
  {
    ok, v := buf.ReadLE(n);
  }

  method CheckPart(reg: Registry, buf: BinaryBuffer) returns (ok: bool)
    modifies buf`pos
    ensures ok <==> ParsePart(reg, buf.data, old(buf.pos)).Some?
    ensures ok ==> ParsePart(reg, buf.data, old(buf.pos)).value.pos == buf.pos
  {
    hide ReadInt, BlockSize;
    var t;
    ok, t := ReadNumber(buf, 4);
    if !ok {
      return false;
    }
    if !Registered(reg, t) {
      return false;
    }
    var size := ComponentSize(SchemaOf(reg, t), []);
    if buf.pos + size > |buf.data| {
      return false;
    }
    buf.Seek(buf.pos + size);
    return true;
  }

  method CheckParts(reg: Registry, buf: BinaryBuffer, n: nat) returns (ok: bool)
    modifies buf`pos
    ensures ok <==> ParseParts(reg, buf.data, old(buf.pos), n).Some?
    ensures ok ==> ParseParts(reg, buf.data, old(buf.pos), n).value.pos == buf.pos
  {
    hide ParsePart;
    for j := 0 to n
      invariant ParseParts(reg, buf.data, old(buf.pos), j).Some?
        && ParseParts(reg, buf.data, old(buf.pos), j).value.pos == buf.pos
    {
      var good := CheckPart(reg, buf);
      if !good {
        PartsFail(reg, buf.data, old(buf.pos), j + 1, n);
        return false;
      }
    }
    return true;
  }

  method CheckRecord(reg: Registry, buf: BinaryBuffer, ids: set<Entity>, ghost front: seq<Record>)
    returns (ok: bool, id: Entity)
    requires forall e :: e in ids <==> HasId(front, e)
    modifies buf`pos
    ensures ok <==>
      ParseRecord(reg, buf.data, old(buf.pos)).Some?
      && !HasId(front, ParseRecord(reg, buf.data, old(buf.pos)).value.value.id)
    ensures ok ==> ParseRecord(reg, buf.data, old(buf.pos)).value.pos == buf.pos
    ensures ok ==> ParseRecord(reg, buf.data, old(buf.pos)).value.value.id == id
  {
    hide ReadInt, ParseParts, HasId;
    ok, id := ReadNumber(buf, 8);
    if !ok {
      return;
    }
    if Slot(id) >= S.MAX_FOREIGN_SLOT {
      return false, id;
    }
    if id in ids {
      return false, id;
    }
    var n;
    ok, n := ReadNumber(buf, 2);
    if !ok {
      return;
    }
    ok := CheckParts(reg, buf, n);
  }

  method Check(reg: Registry, buf: BinaryBuffer) returns (ok: bool)
    modifies buf`pos
    ensures ok <==> Parse(reg, buf.data, old(buf.pos)).Some?
  {
    hide ReadInt, ParseRecord, HasId;
    var version, count;
    ok, version := ReadNumber(buf, 2);
    if !ok || version != SNAPSHOT_VERSION {
      return false;
    }
    ok, count := ReadNumber(buf, 4);
    if !ok {
      return false;
    }
    ghost var start := buf.pos;
    var ids: set<Entity> := {};
    NobodyYet();
    for i := 0 to count
      invariant ParseRecords(reg, buf.data, start, i).Some?
        && ParseRecords(reg, buf.data, start, i).value.pos == buf.pos
      invariant forall e :: e in ids <==> HasId(ParseRecords(reg, buf.data, start, i).value.value, e)
    {
      ghost var front := ParseRecords(reg, buf.data, start, i).value.value;
      var good, id := CheckRecord(reg, buf, ids, front);
      if !good {
        RecordsFail(reg, buf.data, start, i + 1, count);
        return false;
      }
      OneMoreId(front, ParseRecord(reg, buf.data, ParseRecords(reg, buf.data, start, i).value.pos).value.value);
      ids := ids + {id};
    }
    return true;
  }

  lemma NobodyYet()
    ensures forall e :: !HasId([], e)
  {
  }

  lemma OneMoreId(front: seq<Record>, r: Record)
    ensures forall e :: HasId(front + [r], e) <==> HasId(front, e) || e == r.id
  {
    forall e ensures HasId(front + [r], e) <==> HasId(front, e) || e == r.id {
      if HasId(front, e) {
        var i :| 0 <= i < |front| && front[i].id == e;
        assert (front + [r])[i].id == e;
      }
      assert (front + [r])[|front|].id == r.id;
      if HasId(front + [r], e) && e != r.id {
        var i :| 0 <= i < |front + [r]| && (front + [r])[i].id == e;
        assert front[i].id == e;
      }
    }
  }

  // ------------------------------------------------------------------ pass 2: apply

  lemma {:induction false} PartsPrefix(reg: Registry, data: Bytes, pos: nat, j: nat, n: nat)
    requires j <= n && ParseParts(reg, data, pos, n).Some?
    ensures ParseParts(reg, data, pos, j).Some? && |ParseParts(reg, data, pos, n).value.value| == n
    ensures ParseParts(reg, data, pos, j).value.value == ParseParts(reg, data, pos, n).value.value[..j]
  {
    ParsedParts(reg, data, pos, n);
    if j < n { PartsPrefix(reg, data, pos, j, n - 1); ParsedParts(reg, data, pos, n - 1); }
  }

  lemma {:induction false} RecordsPrefix(reg: Registry, data: Bytes, pos: nat, j: nat, n: nat)
    requires j <= n && ParseRecords(reg, data, pos, n).Some?
    ensures ParseRecords(reg, data, pos, j).Some? && |ParseRecords(reg, data, pos, n).value.value| == n
    ensures ParseRecords(reg, data, pos, j).value.value == ParseRecords(reg, data, pos, n).value.value[..j]
  {
    hide ParseRecord;
    ParsedRecords(reg, data, pos, n);
    if j < n { RecordsPrefix(reg, data, pos, j, n - 1); ParsedRecords(reg, data, pos, n - 1); }
  }

  /** What pass 2 needs of the world: no open deferred window, which only a flush opens and closes again. */
  ghost predicate Loadable(world: World)
    reads world, world.repr, world.queryCache
  {
    world.Valid() && !world.deferMoves && RegistryOk(world.reg)
  }

  lemma IsHealthy(world: World)
    requires Loadable(world)
    ensures Healthy(world.Model()) && world.Model().ix == world.ix && world.ix.reg == world.reg
      && RegistryOk(world.reg)
    ensures forall e :: world.IsAlive(e) <==> S.Alive(world.ix, e)
  {
    hide WorldOk, World.WindowTied, RegistryOk;
    world.Lookup();
  }

  /** A component that has just been added without data is there in zeroes, or not at all. */
  lemma AddedZero(w: S.World, e: Entity, t: TypeId)
    requires WorldOk(w) && Registered(w.ix.reg, t)
    ensures S.DataOk(w.ix.reg, t, None)
    ensures var v := AddRaw(w, e, t, None);
      S.Has(v.ix, e, t) ==>
        e in S.Contents(v.ix) && t in S.Contents(v.ix)[e] && S.Contents(v.ix)[e][t] == Zeros(SizeOf(w.ix.reg, t))
  {
    hide S.Coherent, SlotsOk, S.Contents, SizeOf, WriteCell, ChangeKey;
    var v := AddRaw(w, e, t, None);
    NoData(w.ix.reg, t);
    AddRawOk(w, e, t, None);
    ContentsKeys(w.ix);
    ContentsKeys(v.ix);
    if S.Has(v.ix, e, t) {
      assert w.depth <= 0 || S.Has(w.ix, e, t);
      StoredComps(v.ix, e);
    }
  }

  /** One component: present it zeroed, then read its fields straight into its memory. No read can fail; the component
      can be refused. */
  method ApplyPart(world: World, e: Entity, buf: BinaryBuffer) returns (ok: bool)
    requires Loadable(world) && buf !in world.repr && ParsePart(world.reg, buf.data, buf.pos).Some?
    modifies world, world.repr, world.queryCache, buf`pos
    ensures Loadable(world) && fresh(world.repr - old(world.repr)) && buf !in world.repr
      && world.Deferral() == old(world.Deferral())
    ensures var p := ParsePart(world.reg, buf.data, old(buf.pos)).value;
      (world.Model(), ok) == TryPart(old(world.Model()), e, p.value) && (ok ==> buf.pos == p.pos)
  {
    hide WorldOk, World.Tied, World.WindowTied, AddRaw, Poke, ReadBlock, BlockSize, S.Contents, RegistryOk,
      Registered, SchemaOf;
    IsHealthy(world);
    world.Lookup();
    var read, t := ReadNumber(buf, 4);
    assert read && Registered(world.reg, t);
    ghost var w := world.Model();
    AddedZero(w, e, t);
    AddRawKeeps(w, e, t, None);
    world.AddComponentRaw(e, t, None);
    world.Lookup();
    var raw := world.GetRaw(e, t);
    ok := raw.Some?;
    if ok {
      SchemaFits(world.reg, t);
      var done, row := GetComponent(SchemaOf(world.reg, t), raw.value, [], buf);
      assert done;
      world.PokeRaw(e, t, row);
    }
  }

  lemma {:induction false} PartsStop(w: S.World, e: Entity, ps: seq<Part>, j: nat)
    requires j <= |ps| && !TryParts(w, e, ps[..j]).1
    ensures TryParts(w, e, ps) == TryParts(w, e, ps[..j])
    decreases ps
  {
    hide TryPart;
    if j < |ps| {
      assert ps[..|ps| - 1][..j] == ps[..j];
      PartsStop(w, e, ps[..|ps| - 1], j);
    } else {
      assert ps[..j] == ps;
    }
  }

  method ApplyParts(world: World, e: Entity, buf: BinaryBuffer, n: nat) returns (ok: bool)
    requires Loadable(world) && buf !in world.repr && ParseParts(world.reg, buf.data, buf.pos, n).Some?
    modifies world, world.repr, world.queryCache, buf`pos
    ensures Loadable(world) && fresh(world.repr - old(world.repr)) && buf !in world.repr
      && world.Deferral() == old(world.Deferral())
    ensures var ps := ParseParts(world.reg, buf.data, old(buf.pos), n).value;
      (world.Model(), ok) == TryParts(old(world.Model()), e, ps.value) && (ok ==> buf.pos == ps.pos)
  {
    hide Loadable, ParsePart, TryPart, World.Deferral, World.Model, World.Valid;
    ghost var w, start := world.Model(), buf.pos;
    ghost var all := ParseParts(world.reg, buf.data, start, n).value.value;
    PartsPrefix(world.reg, buf.data, start, 0, n);
    for j := 0 to n
      invariant Loadable(world) && fresh(world.repr - old(world.repr)) && buf !in world.repr
        && world.Deferral() == old(world.Deferral())
      invariant ParseParts(world.reg, buf.data, start, j).Some?
        && ParseParts(world.reg, buf.data, start, j).value.pos == buf.pos
      invariant TryParts(w, e, all[..j]) == (world.Model(), true)
    {
      PartsPrefix(world.reg, buf.data, start, j, n);
      PartsPrefix(world.reg, buf.data, start, j + 1, n);
      assert all[..j + 1][..j] == all[..j];
      ok := ApplyPart(world, e, buf);
      if !ok {
        PartsStop(w, e, all, j + 1);
        return;
      }
    }
    assert all[..|all|] == all;
    ok := true;
  }

  /** One entity: its id was checked, but it can be live already. */
  method ApplyRecord(world: World, buf: BinaryBuffer) returns (ok: bool)
    requires Loadable(world) && buf !in world.repr && ParseRecord(world.reg, buf.data, buf.pos).Some?
    modifies world, world.repr, world.queryCache, buf`pos
    ensures Loadable(world) && fresh(world.repr - old(world.repr)) && buf !in world.repr
      && world.Deferral() == old(world.Deferral())
    ensures var r := ParseRecord(world.reg, buf.data, old(buf.pos)).value;
      (world.Model(), ok) == TryRecord(old(world.Model()), r.value) && (ok ==> buf.pos == r.pos)
  {
    hide WorldOk, World.Tied, World.WindowTied, ParseParts, TryParts, CreatePreassigned, RegistryOk, FromLE;
    ghost var w := world.Model();
    ParsedRecord(world.reg, buf.data, buf.pos);
    world.Lookup();
    var read, id := ReadNumber(buf, 8);
    assert read && AcceptsForeign(id);
    NoForeignZero();
    CreatePreassignedKeeps(w, id);
    var e := world.CreateEntityPreassigned(id);
    world.Lookup();
    if e == NO_ENTITY {
      return false;
    }
    var got, n := ReadNumber(buf, 2);
    assert got;
    ok := ApplyParts(world, id, buf, n);
  }

  lemma {:induction false} RecordsStop(w: S.World, rs: seq<Record>, j: nat)
    requires j <= |rs| && !TryRecords(w, rs[..j]).1
    ensures TryRecords(w, rs) == TryRecords(w, rs[..j])
    decreases rs
  {
    hide TryRecord;
    if j < |rs| {
      assert rs[..|rs| - 1][..j] == rs[..j];
      RecordsStop(w, rs[..|rs| - 1], j);
    } else {
      assert rs[..j] == rs;
    }
  }

  method ApplyRecords(world: World, buf: BinaryBuffer, count: nat) returns (ok: bool)
    requires Loadable(world) && buf !in world.repr && ParseRecords(world.reg, buf.data, buf.pos, count).Some?
    modifies world, world.repr, world.queryCache, buf`pos
    ensures Loadable(world) && fresh(world.repr - old(world.repr)) && buf !in world.repr
      && world.Deferral() == old(world.Deferral())
    ensures var rs := ParseRecords(world.reg, buf.data, old(buf.pos), count).value;
      (world.Model(), ok) == TryRecords(old(world.Model()), rs.value) && (ok ==> buf.pos == rs.pos)
  {
    hide Loadable, ParseRecord, TryRecord, World.Deferral, World.Model, World.Valid, RecordsOk;
    ghost var w, start := world.Model(), buf.pos;
    ghost var all := ParseRecords(world.reg, buf.data, start, count).value.value;
    RecordsPrefix(world.reg, buf.data, start, 0, count);
    for i := 0 to count
      invariant Loadable(world) && fresh(world.repr - old(world.repr)) && buf !in world.repr
        && world.Deferral() == old(world.Deferral())
      invariant ParseRecords(world.reg, buf.data, start, i).Some?
        && ParseRecords(world.reg, buf.data, start, i).value.pos == buf.pos
      invariant TryRecords(w, all[..i]) == (world.Model(), true)
    {
      RecordsPrefix(world.reg, buf.data, start, i, count);
      RecordsPrefix(world.reg, buf.data, start, i + 1, count);
      assert all[..i + 1][..i] == all[..i];
      ok := ApplyRecord(world, buf);
      if !ok {
        RecordsStop(w, all, i + 1);
        return;
      }
    }
    assert all[..|all|] == all;
    ok := true;
  }

  /** Load a snapshot: a buffer that fails any check leaves the world as it was; any other is loaded record by record,
      and outside iteration it is applied whole. */
  method DeserializeSnapshot(world: World, buf: BinaryBuffer) returns (ok: bool, ghost order: seq<Entity>)
    requires Loadable(world) && buf !in world.repr
    modifies world, world.repr, world.queryCache, buf`pos
    ensures world.Valid() && fresh(world.repr - old(world.repr))
    ensures forall e :: e in order <==> e in old(world.locations)
    ensures match Parse(world.reg, buf.data, old(buf.pos))
            case None => !ok && world.Model() == old(world.Model()) && world.Deferral() == old(world.Deferral())
            case Some(p) => (world.Model(), ok) == TryRecords(Clear(old(world.Model()), order), p.value)
    ensures old(world.iterationDepth) <= 0 ==>
      match Parse(world.reg, buf.data, old(buf.pos))
      case None => !ok
      case Some(p) => ok && world.Model() == LoadRecords(Clear(old(world.Model()), order), p.value)
  {
    hide WorldOk, World.Tied, World.WindowTied, ParseRecords, LoadRecords, TryRecords, LoadedFrom, RegistryOk, Clear,
      RecordsOk;
    IsHealthy(world);
    world.Lookup();
    order := [];
    var ahead := new BinaryBuffer.Over(buf.data, buf.pos);
    ok := Check(world.reg, ahead);
    if ok {
      ghost var w, start := world.Model(), buf.pos;
      order := world.ClearWorld();
      ClearKeepsDepth(w, order);
      world.Lookup();
      var got, version := ReadNumber(buf, 2);
      assert got && version == SNAPSHOT_VERSION;
      var counted, count := ReadNumber(buf, 4);
      assert counted;
      ghost var rs := Parse(world.reg, buf.data, start).value.value;
      ParsedRecords(world.reg, buf.data, buf.pos, count);
      if w.depth <= 0 {
        ClearedIsEmpty(w, order);
        RecordsGoIn(Clear(w, order), world.reg, rs);
      }
      ok := ApplyRecords(world, buf, count);
    } else {
      order := SomeOrder(world.locations.Keys);
    }
  }

  lemma ClearKeepsDepth(w: S.World, order: seq<Entity>)
    requires WorldOk(w)
    ensures Clear(w, order).depth == w.depth && Clear(w, order).ix.reg == w.ix.reg
  {
    hide WorldOk;
    ClearAllOk(w, order);
  }

  ghost function SomeOrder(s: set<Entity>): (order: seq<Entity>)
    ensures forall e :: e in order <==> e in s
  {
    if s == {} then [] else
      var e := Any(s);
      [e] + SomeOrder(s - {e})
  }
}
