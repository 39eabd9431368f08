/** What one received packet, of whatever bytes, does to a receiver's world and replicated set. */
module Receiving {
  import opened Base
  import opened Schema
  import opened Storage
  import opened Operations
  import opened CommandLaws
  import opened Wire
  import opened Buffers
  import opened SnapshotFormat
  import opened Snapshots
  import opened SaveLoad
  import opened SyncPlan
  import opened Packets
  import opened Replicas
  import opened Deltas
  import opened Attempts

  // ------------------------------------------------------------------ what parses is well formed

  lemma ParsedDueEntity(reg: Registry, data: Bytes, version: nat, pos: nat)
    requires ParseDueEntity(reg, data, version, pos).Some?
    ensures var e := ParseDueEntity(reg, data, version, pos).value.value;
      forall j :: 0 <= j < |e.comps| ==> Registered(reg, e.comps[j].t)
  {
    hide ReadInt, ParseDueComp;
    var id := ReadInt(data, pos, 8).value;
    var n := ReadInt(data, id.pos, 1).value;
    ParsedDueComps(reg, data, version, n.pos, n.value);
  }

  lemma {:induction false} ParsedDueComps(reg: Registry, data: Bytes, version: nat, pos: nat, n: nat)
    requires ParseMany(DueCompAt(reg, data, version), pos, n).Some?
    ensures var cs := ParseMany(DueCompAt(reg, data, version), pos, n).value.value;
      forall j :: 0 <= j < |cs| ==> Registered(reg, cs[j].t)
  {
    hide ReadInt, ParseMask, ParseBlock, DueAt, SchemaOf;
    if n > 0 { ParsedDueComps(reg, data, version, pos, n - 1); }
  }

  lemma {:induction false} ParsedDueEntities(reg: Registry, data: Bytes, version: nat, pos: nat, n: nat)
    requires ParseMany(DueEntityAt(reg, data, version), pos, n).Some?
    ensures var es := ParseMany(DueEntityAt(reg, data, version), pos, n).value.value;
      forall i, j :: 0 <= i < |es| && 0 <= j < |es[i].comps| ==> Registered(reg, es[i].comps[j].t)
  {
    hide ParseDueEntity;
    if n > 0 {
      ParsedDueEntities(reg, data, version, pos, n - 1);
      ParsedDueEntity(reg, data, version, ParseMany(DueEntityAt(reg, data, version), pos, n - 1).value.pos);
    }
  }

  lemma {:induction false} ParsedComps(reg: Registry, data: Bytes, version: nat, pos: nat, n: nat)
    requires ParseMany(CompAt(reg, data, version), pos, n).Some?
    ensures var ps := ParseMany(CompAt(reg, data, version), pos, n).value.value;
      forall j :: 0 <= j < |ps| ==> Registered(reg, ps[j].t)
  {
    hide ReadInt, ParseSelection, ParseBlock, SchemaOf;
    if n > 0 { ParsedComps(reg, data, version, pos, n - 1); }
  }

  lemma ParsedEntity(reg: Registry, data: Bytes, version: nat, pos: nat)
    requires ParseEntity(reg, data, version, pos).Some?
    ensures var r := ParseEntity(reg, data, version, pos).value.value;
      IsHandle(r.id) && forall j :: 0 <= j < |r.parts| ==> Registered(reg, r.parts[j].t)
  {
    hide FromLE, ParseMany, Registered;
    Widths();
    var id := ReadInt(data, pos, 8).value;
    var n := ReadInt(data, id.pos, 2).value;
    ParsedComps(reg, data, version, n.pos, n.value);
  }

  lemma {:induction false} ParsedEntities(reg: Registry, data: Bytes, version: nat, pos: nat, n: nat)
    requires ParseMany(EntityAt(reg, data, version), pos, n).Some?
    ensures var rs := ParseMany(EntityAt(reg, data, version), pos, n).value.value;
      KnownTypes(reg, rs) && forall i :: 0 <= i < |rs| ==> IsHandle(rs[i].id)
  {
    hide ParseEntity, IsHandle, Registered;
    if n > 0 {
      ParsedEntities(reg, data, version, pos, n - 1);
      ParsedEntity(reg, data, version, ParseMany(EntityAt(reg, data, version), pos, n - 1).value.pos);
    }
  }

  // ------------------------------------------------------------------ one packet

  /** A receiver's world and replicated set after one packet: an accepted packet is applied step by step, up to the
      first step the world refuses. */
  ghost function Received(w: World, replicated: set<Entity>, kind: Kind, data: Bytes, order: seq<Entity>): (World,
                          set<Entity>)
  {
    if !ValidPacket(w.ix.reg, kind, data) then (w, replicated) else
      match kind
      case Spawn =>
        var r := ParseSpawn(w.ix.reg, data).value.value;
        var v := TryRecord(w, r);
        (v.0, replicated + if v.1 then {r.id} else {})
      case Delta =>
        var p := ParseDelta(w.ix.reg, data).value;
        var v := TryDelta(w, p.version, p.value);
        (v.w, replicated + v.live)
      case FullState =>
        var rs := ParseFullState(w.ix.reg, data).value.value;
        if !Acceptable(rs) then (w, replicated) else
          var v := TryEntities(w, rs);
          if v.1 then (DestroyAbsent(v.0, order, IdsOf(rs)), IdsOf(rs)) else (v.0, replicated)
      case Despawn =>
        (Destroy(w, FromLE(data)), replicated - {FromLE(data)})
  }

  /** Outside iteration an accepted packet is applied whole. */
  ghost function AppliedWhole(w: World, replicated: set<Entity>, kind: Kind, data: Bytes, order: seq<Entity>): (World,
                              set<Entity>)
  {
    if !ValidPacket(w.ix.reg, kind, data) then (w, replicated) else
      match kind
      case Spawn =>
        var r := ParseSpawn(w.ix.reg, data).value.value;
        (ApplySpawn(w, r), replicated + if AcceptsForeign(r.id) && r.id !in w.ix.loc then {r.id} else {})
      case Delta =>
        var p := ParseDelta(w.ix.reg, data).value;
        (ApplyDelta(w, p.version, p.value), replicated + LiveIds(w, p.value))
      case FullState =>
        var rs := ParseFullState(w.ix.reg, data).value.value;
        if Acceptable(rs) then (ApplyFull(w, rs, order), IdsOf(rs)) else (w, replicated)
      case Despawn =>
        (Destroy(w, FromLE(data)), replicated - {FromLE(data)})
  }

  /** The same packet on the abstract store. */
  ghost function StoreReceived(reg: Registry, iterating: bool, store: Store, replicated: set<Entity>, kind: Kind,
                               data: Bytes): Store
  {
    if !ValidPacket(reg, kind, data) then store else
      match kind
      case Spawn =>
        var r := ParseSpawn(reg, data).value.value;
        if !AcceptsForeign(r.id) || r.id in store then store
        else store[r.id := if iterating then map[] else Built(reg, r.parts)]
      case Delta =>
        var p := ParseDelta(reg, data).value;
        if iterating then HeldDelta(reg, store, p.version, p.value).0 else MergeDelta(reg, store, p.version, p.value)
      case FullState =>
        var rs := ParseFullState(reg, data).value.value;
        if !Acceptable(rs) then store
        else if iterating then BareRecords(store, rs).0
        else (store - replicated) + StoreOf(reg, rs)
      case Despawn => if iterating then store else store - {FromLE(data)}
  }

  /** Outside iteration no step of an accepted packet is refused. */
  lemma WholeIfFree(w: World, replicated: set<Entity>, kind: Kind, data: Bytes, order: seq<Entity>)
    requires Receptive(w)
    ensures Received(w, replicated, kind, data, order) == AppliedWhole(w, replicated, kind, data, order)
  {
    hide WorldOk, Contents, RegistryOk, ParseVersion, ParseEntity, ParseMany, Destroy, ApplyDelta, TryDelta,
      TryEntities, ApplyEntities, DestroyAbsent, TryRecord, CreatePreassigned, LoadParts, Built, FromLE,
      AcceptsForeign, IdsOf, LiveIds, StoreOf, ReadInt, IsHandle;
    if ValidPacket(w.ix.reg, kind, data) {
      match kind
      case Spawn =>
        SpawnParsed(w.ix.reg, data);
        SpawnGoesIn(w, ParseSpawn(w.ix.reg, data).value.value);
      case Delta =>
        DeltaParsed(w.ix.reg, data);
        var p := ParseDelta(w.ix.reg, data).value;
        DeltaGoesIn(w, p.version, p.value);
      case FullState =>
        FullStateParsed(w.ix.reg, data);
        var rs := ParseFullState(w.ix.reg, data).value.value;
        if Acceptable(rs) { EntitiesGoIn(w, rs); }
      case Despawn =>
    }
  }

  lemma SpawnGoesIn(w: World, r: Record)
    requires Receptive(w) && IsHandle(r.id) && forall j :: 0 <= j < |r.parts| ==> Registered(w.ix.reg, r.parts[j].t)
    ensures TryRecord(w, r) == (ApplySpawn(w, r), AcceptsForeign(r.id) && r.id !in w.ix.loc)
  {
    hide Receptive, CreatePreassigned, LoadParts, TryParts, AcceptsForeign, IsHandle, Registered;
    if AcceptsForeign(r.id) && r.id !in w.ix.loc { RecordGoesIn(w, r); }
  }

  /** Whatever the bytes are, the world stays coherent and its store becomes what the packet says, or, while it is
      iterated, what can be had of it. */
  lemma ReceivedOk(w: World, replicated: set<Entity>, kind: Kind, data: Bytes, order: seq<Entity>)
    requires Healthy(w) && Elements(order) == replicated
    ensures var v := Received(w, replicated, kind, data, order).0;
      Healthy(v) && v.ix.reg == w.ix.reg && (v.depth > 0 <==> w.depth > 0)
        && Contents(v.ix) == StoreReceived(w.ix.reg, w.depth > 0, Contents(w.ix), replicated, kind, data)
  {
    hide WorldOk, Contents, RegistryOk, Received, AppliedWhole, StoreReceived;
    if w.depth <= 0 {
      WholeIfFree(w, replicated, kind, data, order);
      WholeOk(w, replicated, kind, data, order);
    } else {
      PartlyOk(w, replicated, kind, data, order);
    }
  }

  lemma WholeOk(w: World, replicated: set<Entity>, kind: Kind, data: Bytes, order: seq<Entity>)
    requires Receptive(w) && Elements(order) == replicated
    ensures var v := AppliedWhole(w, replicated, kind, data, order).0;
      Receptive(v) && v.ix.reg == w.ix.reg
        && Contents(v.ix) == StoreReceived(w.ix.reg, false, Contents(w.ix), replicated, kind, data)
  {
    hide WorldOk, Contents, RegistryOk, ParseVersion, ParseEntity, ParseMany, Destroy, ApplyFull, ApplyDelta,
      ApplySpawn, MergeDelta, Built, FromLE, AcceptsForeign, Acceptable, IdsOf, LiveIds, StoreOf, ReadInt, IsHandle;
    if ValidPacket(w.ix.reg, kind, data) {
      match kind
      case Spawn =>
        SpawnParsed(w.ix.reg, data);
        ApplySpawnOk(w, ParseSpawn(w.ix.reg, data).value.value);
      case Delta =>
        DeltaParsed(w.ix.reg, data);
        var p := ParseDelta(w.ix.reg, data).value;
        ApplyDeltaOk(w, p.version, p.value);
      case FullState =>
        FullStateParsed(w.ix.reg, data);
        var rs := ParseFullState(w.ix.reg, data).value.value;
        if Acceptable(rs) { ApplyFullOk(w, rs, order); }
      case Despawn =>
        DestroyOk(w, FromLE(data));
        DestroyKeeps(w, FromLE(data));
    }
  }

  lemma PartlyOk(w: World, replicated: set<Entity>, kind: Kind, data: Bytes, order: seq<Entity>)
    requires Healthy(w) && w.depth > 0
    ensures var v := Received(w, replicated, kind, data, order).0;
      Healthy(v) && v.ix.reg == w.ix.reg && v.depth == w.depth
        && Contents(v.ix) == StoreReceived(w.ix.reg, true, Contents(w.ix), replicated, kind, data)
  {
    hide WorldOk, Contents, RegistryOk, ParseVersion, ParseEntity, ParseMany, Destroy, TryDelta, TryEntities,
      TryRecords, TryRecord, DestroyAbsent, BareRecords, HeldDelta, Built, FromLE, AcceptsForeign, Acceptable, IdsOf,
      StoreOf, ReadInt, IsHandle;
    if ValidPacket(w.ix.reg, kind, data) {
      match kind
      case Spawn =>
        SpawnParsed(w.ix.reg, data);
        RecordBare(w, ParseSpawn(w.ix.reg, data).value.value);
      case Delta =>
        DeltaParsed(w.ix.reg, data);
        var p := ParseDelta(w.ix.reg, data).value;
        DeltaHeld(w, p.version, p.value);
      case FullState =>
        FullStateParsed(w.ix.reg, data);
        var rs := ParseFullState(w.ix.reg, data).value.value;
        if Acceptable(rs) {
          EntitiesAreRecords(w, rs);
          RecordsBare(w, rs);
          NobodyDestroyed(TryRecords(w, rs).0, order, IdsOf(rs));
        }
      case Despawn =>
        NotDestroyed(w, FromLE(data));
    }
  }

  lemma SpawnParsed(reg: Registry, data: Bytes)
    requires ParseSpawn(reg, data).Some?
    ensures var r := ParseSpawn(reg, data).value.value;
      IsHandle(r.id) && forall j :: 0 <= j < |r.parts| ==> Registered(reg, r.parts[j].t)
  {
    hide ParseEntity, IsHandle, ReadInt;
    var v := ParseVersion(data).value;
    ParsedEntity(reg, data, v.value, v.pos);
  }

  lemma DeltaParsed(reg: Registry, data: Bytes)
    requires ParseDelta(reg, data).Some?
    ensures var es := ParseDelta(reg, data).value.value;
      KnownDues(reg, es)
  {
    hide ParseDueEntity, ReadInt, ParseMany, Registered;
    var v := ParseVersion(data).value;
    var n := ReadInt(data, v.pos, 4).value;
    ParsedDueEntities(reg, data, v.value, n.pos, n.value);
  }

  lemma FullStateParsed(reg: Registry, data: Bytes)
    requires ParseFullState(reg, data).Some?
    ensures var rs := ParseFullState(reg, data).value.value;
      KnownTypes(reg, rs) && forall i :: 0 <= i < |rs| ==> IsHandle(rs[i].id)
  {
    hide ParseEntity, ReadInt, ParseMany, IsHandle;
    var v := ParseVersion(data).value;
    var n := ReadInt(data, v.pos, 4).value;
    ParsedEntities(reg, data, v.value, n.pos, n.value);
  }
}
