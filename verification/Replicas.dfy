/** What a full-state packet says about a server and does to a client. */
module Replicas {
  import opened Base
  import opened Schema
  import opened Storage
  import opened StorageLaws
  import opened Operations
  import opened CommandLaws
  import opened Walks
  import opened Wire
  import opened SnapshotFormat
  import opened Snapshots
  import opened SaveLoad
  import opened SyncPlan
  import opened Packets

  // ------------------------------------------------------------------ what a server sends

  ghost predicate NetType(reg: Registry, t: TypeId) {
    Registered(reg, t) && IsNetworked(SchemaOf(reg, t))
  }

  function SpawnMask(fields: seq<Field>): (mask: seq<bool>)
    ensures |mask| == |fields|
  {
    seq(|fields|, i requires 0 <= i < |fields| => OnWire(fields[i]))
  }

  /** One component as spawn and full-state packets carry it. */
  ghost function NetPart(reg: Registry, comps: Comps, t: TypeId): Part {
    if t in comps && CompsSized(reg, comps) && RegistryOk(reg) then
      var s := SchemaOf(reg, t);
      Part(t, SpawnMask(s.fields), Block(s, SpawnMask(s.fields), comps[t]))
    else Part(t, [], [])
  }

  ghost function NetParts(reg: Registry, comps: Comps, ids: seq<TypeId>): seq<Part> {
    if ids == [] then [] else
      NetParts(reg, comps, ids[..|ids| - 1]) + if NetType(reg, ids[|ids| - 1])
        then [NetPart(reg, comps, ids[|ids| - 1])] else []
  }

  ghost function NetRecord(reg: Registry, e: Entity, comps: Comps): Record {
    Record(e, NetParts(reg, comps, SortedIds(comps.Keys)))
  }

  /** Entities without networked components are left out. */
  ghost function NetRecords(reg: Registry, store: Store, es: seq<Entity>): seq<Record> {
    if es == [] then [] else
      var e := es[|es| - 1];
      var r := NetRecord(reg, e, if e in store then store[e] else map[]);
      NetRecords(reg, store, es[..|es| - 1]) + if r.parts != [] then [r] else []
  }

  ghost function FullStateOf(w: Index, ks: seq<Key>): Bytes {
    EncodeFullState(NetRecords(w.reg, Contents(w), Walk(w, ks)))
  }

  // ------------------------------------------------------------------ what a client should then hold

  ghost predicate HasNet(reg: Registry, comps: Comps) {
    exists t :: t in comps && NetType(reg, t)
  }

  /** A component as it arrives: its spawn fields, zeroes elsewhere. */
  ghost function ReplicaRow(reg: Registry, t: TypeId, row: Bytes): Bytes {
    if !Registered(reg, t) || !RegistryOk(reg) || |row| != SizeOf(reg, t) then [] else
      var s := SchemaOf(reg, t);
      ReadBlock(s, SpawnMask(s.fields), Zeros(s.size), Block(s, SpawnMask(s.fields), row))
  }

  ghost function Replica(reg: Registry, comps: Comps): Comps {
    map t | t in comps && NetType(reg, t) :: ReplicaRow(reg, t, comps[t])
  }

  ghost function NetStore(reg: Registry, store: Store): Store {
    map e | e in store && HasNet(reg, store[e]) :: Replica(reg, store[e])
  }

  lemma BuiltSnoc(reg: Registry, comps: Comps, front: seq<Part>, t: TypeId)
    requires RegistryOk(reg) && CompsSized(reg, comps) && t in comps
    ensures Built(reg, front + [NetPart(reg, comps, t)]) == Built(reg, front)[t := ReplicaRow(reg, t, comps[t])]
  {
    hide Block, ReadBlock, BlockSize, SpawnMask;
    SchemaFits(reg, t);
    assert (front + [NetPart(reg, comps, t)])[..|front|] == front;
  }

  lemma {:induction false} BuiltNet(reg: Registry, comps: Comps, ids: seq<TypeId>)
    requires RegistryOk(reg) && CompsSized(reg, comps) && forall t :: t in ids ==> t in comps
    ensures var b := Built(reg, NetParts(reg, comps, ids));
      (forall t :: t in b <==> t in ids && NetType(reg, t))
        && forall t :: t in b ==> b[t] == ReplicaRow(reg, t, comps[t])
  {
    hide Built, NetPart, NetType, ReplicaRow, RegistryOk, CompsSized;
    if ids == [] {
      NothingBuilt(reg);
    } else {
      var front, t := ids[..|ids| - 1], ids[|ids| - 1];
      assert ids == front + [t];
      BuiltNet(reg, comps, front);
      assert t in ids && forall u :: u in ids <==> u in front || u == t;
      var f := NetParts(reg, comps, front);
      BuiltSnoc(reg, comps, f, t);
      assert NetParts(reg, comps, ids) == if NetType(reg, t) then f + [NetPart(reg, comps, t)] else f;
    }
  }

  lemma NothingBuilt(reg: Registry)
    ensures Built(reg, []) == map[]
  {
  }

  /** Building what a server says about an entity gives its replica. */
  lemma BuiltIsReplica(reg: Registry, e: Entity, comps: Comps)
    requires RegistryOk(reg) && CompsSized(reg, comps)
    ensures Built(reg, NetRecord(reg, e, comps).parts) == Replica(reg, comps)
    ensures NetRecord(reg, e, comps).parts != [] <==> HasNet(reg, comps)
  {
    hide Built, NetParts, NetPart, ReplicaRow, NetType, RegistryOk, CompsSized;
    var ids := SortedIds(comps.Keys);
    BuiltNet(reg, comps, ids);
    SomeParts(reg, comps, ids);
  }

  lemma {:induction false} SomeParts(reg: Registry, comps: Comps, ids: seq<TypeId>)
    ensures NetParts(reg, comps, ids) != [] <==> exists t :: t in ids && NetType(reg, t)
    ensures |NetParts(reg, comps, ids)| <= |ids|
  {
    hide NetPart, NetType;
    if ids != [] {
      var front, t := ids[..|ids| - 1], ids[|ids| - 1];
      SomeParts(reg, comps, front);
      assert forall u :: u in ids <==> u in front || u == t;
      assert t in ids;
    }
  }

  lemma StoreSnoc(reg: Registry, front: seq<Record>, r: Record)
    ensures StoreOf(reg, front + [r]) == StoreOf(reg, front)[r.id := Built(reg, r.parts)]
  {
    hide Built;
    assert (front + [r])[..|front|] == front;
  }

  lemma {:induction false} NetStoreOf(reg: Registry, store: Store, es: seq<Entity>)
    requires RegistryOk(reg) && NoDup(es) && forall e :: e in es ==> e in store && CompsSized(reg, store[e])
    ensures var s := StoreOf(reg, NetRecords(reg, store, es));
      (forall e :: e in s <==> e in es && HasNet(reg, store[e]))
        && forall e :: e in s ==> s[e] == Replica(reg, store[e])
  {
    hide Built, NetRecord, HasNet, Replica, RegistryOk, CompsSized, StoreOf;
    if es == [] {
      NothingStored(reg);
    } else {
      var front, e := es[..|es| - 1], es[|es| - 1];
      assert es == front + [e];
      assert e in es && e !in front;
      NetStoreOf(reg, store, front);
      BuiltIsReplica(reg, e, store[e]);
      NetRecordId(reg, e, store[e]);
      var f, r := NetRecords(reg, store, front), NetRecord(reg, e, store[e]);
      StoreSnoc(reg, f, r);
      assert NetRecords(reg, store, es) == if r.parts != [] then f + [r] else f;
    }
  }

  lemma NothingStored(reg: Registry)
    ensures StoreOf(reg, []) == map[]
  {
  }

  lemma NetRecordId(reg: Registry, e: Entity, comps: Comps)
    ensures NetRecord(reg, e, comps).id == e
  {
  }

  // ------------------------------------------------------------------ what a client does

  /** Whatever lived under the id is replaced. */
  ghost function ApplyEntity(w: World, r: Record): World {
    LoadParts(CreatePreassigned(Destroy(w, r.id), r.id), r.id, r.parts)
  }

  ghost function ApplyEntities(w: World, rs: seq<Record>): World {
    if rs == [] then w else ApplyEntity(ApplyEntities(w, rs[..|rs| - 1]), rs[|rs| - 1])
  }

  ghost function DestroyAbsent(w: World, es: seq<Entity>, keep: set<Entity>): World {
    if es == [] then w else
      var v := DestroyAbsent(w, es[..|es| - 1], keep);
      if es[|es| - 1] in keep then v else Destroy(v, es[|es| - 1])
  }

  ghost function IdsOf(rs: seq<Record>): set<Entity> {
    set i | 0 <= i < |rs| :: rs[i].id
  }

  /** Apply the entities of a full state, then destroy what was replicated before and is not among them. */
  ghost function ApplyFull(w: World, rs: seq<Record>, replicated: seq<Entity>): World {
    DestroyAbsent(ApplyEntities(w, rs), replicated, IdsOf(rs))
  }

  /** What the first pass accepts: no id the world would refuse, no id twice. */
  ghost predicate Acceptable(rs: seq<Record>) {
    (forall i :: 0 <= i < |rs| ==> AcceptsForeign(rs[i].id))
      && forall i, j :: 0 <= i < j < |rs| ==> rs[i].id != rs[j].id
  }

  ghost predicate Healthy(w: World) {
    WorldOk(w) && RegistryOk(w.ix.reg)
  }

  ghost predicate Receptive(w: World) {
    WorldOk(w) && w.depth <= 0 && RegistryOk(w.ix.reg)
  }

  lemma Vacated(w: World, id: Entity)
    requires Receptive(w) && IsHandle(id) && AcceptsForeign(id)
    ensures var v := Destroy(w, id);
      Receptive(v) && v.ix.reg == w.ix.reg && id !in v.ix.loc && Contents(v.ix) == Contents(w.ix) - {id}
      && OnTop(v.ix, CreatePreassigned(v, id), id, map[])
  {
    hide WorldOk, Contents, OnTop, RegistryOk, Destroy, CreatePreassigned, AcceptsForeign;
    DestroyOk(w, id);
    DestroyKeeps(w, id);
    ContentsKeys(Destroy(w, id).ix);
    CreatedOnTop(Destroy(w, id), id);
  }

  /** Applying one entity changes one entry of the store: its components become those the record describes. */
  lemma ApplyEntityOk(w: World, r: Record)
    requires Receptive(w) && IsHandle(r.id) && AcceptsForeign(r.id)
    ensures var v := ApplyEntity(w, r);
      Receptive(v) && v.ix.reg == w.ix.reg && Contents(v.ix) == Contents(w.ix)[r.id := Built(w.ix.reg, r.parts)]
  {
    hide WorldOk, Contents, RegistryOk, Destroy, CreatePreassigned, AcceptsForeign, LoadParts, Built, RowsIn;
    Vacated(w, r.id);
    var v := Destroy(w, r.id);
    PartsOnTop(v.ix, CreatePreassigned(v, r.id), r.id, r.parts);
  }

  lemma {:induction false} ApplyEntitiesOk(w: World, rs: seq<Record>)
    requires Receptive(w) && forall i :: 0 <= i < |rs| ==> IsHandle(rs[i].id) && AcceptsForeign(rs[i].id)
    ensures var v := ApplyEntities(w, rs);
      Receptive(v) && v.ix.reg == w.ix.reg && Contents(v.ix) == Contents(w.ix) + StoreOf(w.ix.reg, rs)
  {
    hide Receptive, ApplyEntity, Contents, Built, AcceptsForeign;
    if rs == [] {
      assert Contents(w.ix) + map[] == Contents(w.ix);
    } else {
      var front, r := rs[..|rs| - 1], rs[|rs| - 1];
      ApplyEntitiesOk(w, front);
      ApplyEntityOk(ApplyEntities(w, front), r);
      AddLast(Contents(w.ix), StoreOf(w.ix.reg, front), r.id, Built(w.ix.reg, r.parts));
    }
  }

  lemma AddLast(a: Store, b: Store, e: Entity, comps: Comps)
    ensures (a + b)[e := comps] == a + b[e := comps]
  {
  }

  lemma {:induction false} DestroyAbsentOk(w: World, es: seq<Entity>, keep: set<Entity>)
    requires Receptive(w)
    ensures var v := DestroyAbsent(w, es, keep);
      Receptive(v) && v.ix.reg == w.ix.reg && Contents(v.ix) == Contents(w.ix) - (Elements(es) - keep)
  {
    hide WorldOk, Contents, RegistryOk, Destroy;
    if es == [] {
      assert Contents(w.ix) - {} == Contents(w.ix);
    } else {
      var front, e := es[..|es| - 1], es[|es| - 1];
      DestroyAbsentOk(w, front, keep);
      var v := DestroyAbsent(w, front, keep);
      DestroyOk(v, e);
      DestroyKeeps(v, e);
      assert es == front + [e];
      assert Elements(es) == Elements(front) + {e};
      assert Contents(w.ix) - (Elements(front) - keep) - {e} == Contents(w.ix) - ((Elements(front) - keep) + {e});
      if e in keep {
        assert Elements(es) - keep == Elements(front) - keep;
      } else {
        assert Elements(es) - keep == (Elements(front) - keep) + {e};
      }
    }
  }

  lemma StoreOfIds(reg: Registry, rs: seq<Record>)
    ensures StoreOf(reg, rs).Keys == IdsOf(rs)
  {
    hide StoreOf;
    StoreIds(reg, rs);
    forall e ensures e in StoreOf(reg, rs).Keys <==> e in IdsOf(rs) { assert HasId(rs, e) <==> e in IdsOf(rs); }
  }

  /** A full state replaces what was replicated before: everything named in it is as it says, everything else that
      was replicated is gone, and all other entities are untouched. */
  lemma ApplyFullOk(w: World, rs: seq<Record>, replicated: seq<Entity>)
    requires Receptive(w) && Acceptable(rs) && forall i :: 0 <= i < |rs| ==> IsHandle(rs[i].id)
    ensures var v := ApplyFull(w, rs, replicated);
      Receptive(v) && v.ix.reg == w.ix.reg
      && Contents(v.ix) == (Contents(w.ix) - Elements(replicated)) + StoreOf(w.ix.reg, rs)
  {
    hide Receptive, Contents, ApplyEntities, DestroyAbsent, StoreOf, AcceptsForeign;
    var m := ApplyEntities(w, rs);
    ApplyEntitiesOk(w, rs);
    DestroyAbsentOk(m, replicated, IdsOf(rs));
    StoreOfIds(w.ix.reg, rs);
    Remaining(Contents(w.ix), StoreOf(w.ix.reg, rs), Elements(replicated));
  }

  lemma Remaining(a: Store, b: Store, gone: set<Entity>)
    ensures (a + b) - (gone - b.Keys) == (a - gone) + b
  {
  }

  // ------------------------------------------------------------------ server to client

  /** Limits of the packet format: component counts fit 16 bits, entity counts 32. */
  ghost predicate Sendable(w: Index) {
    && Coherent(w) && RegistryOk(w.reg) && |w.reg| < U16_LIMIT && |w.loc| < U32_LIMIT
       && forall e :: e in w.loc ==> IsHandle(e)
  }

  lemma NetPartFits(reg: Registry, comps: Comps, t: TypeId)
    requires RegistryOk(reg) && CompsSized(reg, comps) && t in comps && |reg| < U16_LIMIT
    ensures CompFits(reg, NetPart(reg, comps, t))
  {
    hide Block, BlockSize;
    SchemaFits(reg, t);
  }

  ghost predicate ByType(ps: seq<Part>, ids: seq<TypeId>) {
    && (forall i, j :: 0 <= i < j < |ps| ==> ps[i].t < ps[j].t)
    && forall i :: 0 <= i < |ps| ==> ps[i].t in ids
  }

  lemma OneMoreByType(ps: seq<Part>, ids: seq<TypeId>, t: TypeId, p: Part)
    requires ByType(ps, ids) && Sorted(ids + [t]) && p.t == t
    ensures ByType(ps + [p], ids + [t]) && ByType(ps, ids + [t])
  {
    var all := ids + [t];
    forall u | u in ids ensures u < t {
      var i :| 0 <= i < |ids| && ids[i] == u;
      assert all[i] < all[|ids|];
    }
  }

  /** An entity is sent with its components by ascending type. */
  lemma {:induction false} SentByType(reg: Registry, comps: Comps, ids: seq<TypeId>)
    requires Sorted(ids)
    ensures ByType(NetParts(reg, comps, ids), ids)
  {
    hide NetType, CompsSized, RegistryOk;
    if ids != [] {
      var front, t := ids[..|ids| - 1], ids[|ids| - 1];
      assert ids == front + [t];
      SentByType(reg, comps, front);
      OneMoreByType(NetParts(reg, comps, front), front, t, NetPart(reg, comps, t));
      assert NetParts(reg, comps, front) + [] == NetParts(reg, comps, front);
    }
  }

  lemma {:induction false} NetPartsFit(reg: Registry, comps: Comps, ids: seq<TypeId>)
    requires RegistryOk(reg) && CompsSized(reg, comps) && |reg| < U16_LIMIT && forall t :: t in ids ==> t in comps
    ensures forall i :: 0 <= i < |NetParts(reg, comps, ids)| ==> CompFits(reg, NetParts(reg, comps, ids)[i])
  {
    hide CompFits, NetPart, NetType, RegistryOk, CompsSized;
    if ids != [] {
      assert ids[|ids| - 1] in ids;
      NetPartsFit(reg, comps, ids[..|ids| - 1]);
      NetPartFits(reg, comps, ids[|ids| - 1]);
    }
  }

  lemma NetRecordFits(w: Index, e: Entity)
    requires Sendable(w) && e in w.loc
    ensures e in Contents(w) && CompsSized(w.reg, Contents(w)[e])
      && EntityFits(w.reg, NetRecord(w.reg, e, Contents(w)[e]))
  {
    hide Coherent, RegistryOk, Contents, CompFits, NetParts, CompsSized, Sorted;
    StoredComps(w, e);
    var comps, ids := Contents(w)[e], SortedIds(Contents(w)[e].Keys);
    NetPartsFit(w.reg, comps, ids);
    SomeParts(w.reg, comps, ids);
    RegisteredOnes(w.reg, comps);
    FewKeys(ids, |w.reg|);
  }

  lemma {:induction false} NetRecordsAre(w: Index, es: seq<Entity>)
    requires Sendable(w) && NoDup(es) && forall e :: e in es ==> e in w.loc
    ensures var rs := NetRecords(w.reg, Contents(w), es);
      && |rs| <= |es| && (forall i :: 0 <= i < |rs| ==> rs[i].id in es && EntityFits(w.reg, rs[i]))
      && (forall i, j :: 0 <= i < j < |rs| ==> rs[i].id != rs[j].id)
  {
    hide Coherent, RegistryOk, Contents, NetRecord, EntityFits;
    if es != [] {
      var front, e := es[..|es| - 1], es[|es| - 1];
      assert es == front + [e];
      assert e in es && e !in front;
      NetRecordsAre(w, front);
      NetRecordFits(w, e);
      NetRecordId(w.reg, e, Contents(w)[e]);
    }
  }

  /** All archetypes of a world, each once. */
  ghost predicate AllKeys(w: Index, ks: seq<Key>) {
    NoDup(ks) && forall k :: k in ks <==> k in w.archs
  }

  lemma SentStore(w: Index, es: seq<Entity>)
    requires Sendable(w) && NoDup(es) && forall e :: e in es <==> e in w.loc
    ensures StoreOf(w.reg, NetRecords(w.reg, Contents(w), es)) == NetStore(w.reg, Contents(w))
  {
    hide Coherent, RegistryOk, Contents, NetRecords, CompsSized, StoreOf, HasNet, Replica;
    ContentsKeys(w);
    forall e | e in es ensures e in Contents(w) && CompsSized(w.reg, Contents(w)[e]) { NetRecordFits(w, e); }
    NetStoreOf(w.reg, Contents(w), es);
    SameStore(w.reg, Contents(w), StoreOf(w.reg, NetRecords(w.reg, Contents(w), es)));
  }

  lemma SameStore(reg: Registry, store: Store, s: Store)
    requires (forall e :: e in s <==> e in store && HasNet(reg, store[e]))
      && forall e :: e in s ==> s[e] == Replica(reg, store[e])
    ensures s == NetStore(reg, store)
  {
    hide HasNet, Replica;
    var n := NetStore(reg, store);
    assert forall e :: e in s.Keys <==> e in n.Keys;
    assert s.Keys == n.Keys;
    forall e | e in n.Keys ensures s[e] == n[e] {}
  }

  /** What is sent: one well-formed record for each networked entity, and nothing about any other. */
  lemma SentRecords(w: Index, ks: seq<Key>)
    requires Sendable(w) && AllKeys(w, ks)
    ensures var rs := NetRecords(w.reg, Contents(w), Walk(w, ks));
      && |rs| < U32_LIMIT && (forall i :: 0 <= i < |rs| ==> EntityFits(w.reg, rs[i]) && IsHandle(rs[i].id))
      && (forall i, j :: 0 <= i < j < |rs| ==> rs[i].id != rs[j].id)
      && StoreOf(w.reg, rs) == NetStore(w.reg, Contents(w))
      && IdsOf(rs) == NetStore(w.reg, Contents(w)).Keys
  {
    hide Coherent, RegistryOk, Contents, NetRecords, Walk, StoreOf, NetStore, CompFits;
    var es := Walk(w, ks);
    CoherentShape(w);
    WalkMeetsOnce(w, ks);
    LivesInArch(w);
    NoDupCount(es, w.loc.Keys);
    NetRecordsAre(w, es);
    SentStore(w, es);
    StoreOfIds(w.reg, NetRecords(w.reg, Contents(w), es));
  }

  // ------------------------------------------------------------------ what arrives

  /** A component arrives with copies of its spawn fields, and zeroes in every other field. */
  lemma FieldsArrive(reg: Registry, t: TypeId, row: Bytes, i: nat)
    requires RegistryOk(reg) && Registered(reg, t) && |row| == SizeOf(reg, t) && i < |SchemaOf(reg, t).fields|
    ensures |ReplicaRow(reg, t, row)| == SizeOf(reg, t)
    ensures var f := SchemaOf(reg, t).fields[i];
      var got := ReplicaRow(reg, t, row);
      && f.offset + f.byteSize <= |got| && f.offset + FieldWidth(f) <= |got|
      && (OnWire(f) ==> IsCopy(f, row, got))
      && (!OnWire(f) ==> got[f.offset..f.offset + f.byteSize] == Zeros(f.byteSize))
  {
    hide RegistryOk;
    SchemaFits(reg, t);
    var s := SchemaOf(reg, t);
    var mask := SpawnMask(s.fields);
    var data := Block(s, mask, row);
    if OnWire(s.fields[i]) {
      FieldIsCopied(s, mask, row, Zeros(s.size), i);
    } else {
      UnmaskedStays(s, mask, Zeros(s.size), data, i);
      var f := s.fields[i];
      assert Zeros(s.size)[f.offset..f.offset + f.byteSize] == Zeros(f.byteSize);
      assert ReplicaRow(reg, t, row) == ReadBlock(s, mask, Zeros(s.size), data);
    }
  }

  /** Every field of a replicated component that goes on the wire holds what it holds on the server, texts included. */
  lemma ValuesReplicate(reg: Registry, store: Store, e: Entity, t: TypeId, i: nat)
    requires RegistryOk(reg) && e in store && CompsSized(reg, store[e]) && t in store[e] && NetType(reg, t)
      && i < |SchemaOf(reg, t).fields| && OnWire(SchemaOf(reg, t).fields[i])
    ensures e in NetStore(reg, store) && t in NetStore(reg, store)[e]
      && SameValue(SchemaOf(reg, t).fields[i], store[e][t], NetStore(reg, store)[e][t])
  {
    hide RegistryOk, SameValue, IsCopy, ReplicaRow;
    SchemaFits(reg, t);
    FieldsArrive(reg, t, store[e][t], i);
    CopyIsSame(SchemaOf(reg, t).fields[i], store[e][t], ReplicaRow(reg, t, store[e][t]));
  }

  /** A full state is accepted if and only if every networked entity's slot is below the foreign limit; the packet
      always validates, and is not sent at all exactly when nothing is networked. */
  lemma FullStateAccepted(w: Index, ks: seq<Key>)
    requires Sendable(w) && AllKeys(w, ks)
    ensures FullStateOf(w, ks) == [] <==> NetStore(w.reg, Contents(w)) == map[]
    ensures var p := ParseFullState(w.reg, FullStateOf(w, ks));
      NetStore(w.reg, Contents(w)) != map[] ==>
        && ValidPacket(w.reg, FullState, FullStateOf(w, ks)) && p.Some?
        && p.value.value == NetRecords(w.reg, Contents(w), Walk(w, ks))
        && (Acceptable(p.value.value) <==> forall e :: e in NetStore(w.reg, Contents(w)) ==> AcceptsForeign(e))
  {
    hide Sendable, Contents, NetRecords, Walk, EntityFits, StoreOf, NetStore, ParseFullState, EncodeEntity,
      EncodeMany, Acceptable, ValidPacket, AcceptsForeign;
    SentRecords(w, ks);
    var rs := NetRecords(w.reg, Contents(w), Walk(w, ks));
    AcceptableByIds(rs);
    if rs != [] {
      assert rs[0].id in IdsOf(rs);
      FullStateBack(w.reg, rs);
    }
  }

  lemma AcceptableByIds(rs: seq<Record>)
    requires forall i, j :: 0 <= i < j < |rs| ==> rs[i].id != rs[j].id
    ensures Acceptable(rs) <==> forall e :: e in IdsOf(rs) ==> AcceptsForeign(e)
  {
    hide AcceptsForeign;
    forall i | 0 <= i < |rs| ensures rs[i].id in IdsOf(rs) {}
  }

  /** Applying a server's full state to any client: everything networked on the server is there as it arrives,
      everything else that was replicated is gone, all other entities are untouched. */
  lemma FullStateReplicates(server: Index, ks: seq<Key>, client: World, replicated: seq<Entity>)
    requires Sendable(server) && AllKeys(server, ks) && NetStore(server.reg, Contents(server)) != map[]
    requires forall e :: e in NetStore(server.reg, Contents(server)) ==> AcceptsForeign(e)
    requires Receptive(client) && client.ix.reg == server.reg
    ensures var p := ParseFullState(server.reg, FullStateOf(server, ks));
      p.Some? && Acceptable(p.value.value) && IdsOf(p.value.value) == NetStore(server.reg, Contents(server)).Keys
      && Receptive(ApplyFull(client, p.value.value, replicated))
      && Contents(ApplyFull(client, p.value.value, replicated).ix)
        == (Contents(client.ix) - Elements(replicated)) + NetStore(server.reg, Contents(server))
  {
    hide Sendable, Contents, NetRecords, Walk, CompFits, StoreOf, NetStore, ParseFullState, Receptive, ApplyFull,
      Acceptable;
    SentRecords(server, ks);
    FullStateAccepted(server, ks);
    ApplyFullOk(client, NetRecords(server.reg, Contents(server), Walk(server, ks)), replicated);
  }

  /** What a reconcile leaves of a client: nothing is sent when nothing is networked. */
  ghost function Reconciled(server: Index, ks: seq<Key>, client: World, replicated: seq<Entity>): (World, set<Entity>) {
    if FullStateOf(server, ks) == [] || ParseFullState(server.reg, FullStateOf(server, ks)).None?
      then (client, Elements(replicated)) else
      var rs := ParseFullState(server.reg, FullStateOf(server, ks)).value.value;
      if !Acceptable(rs) then (client, Elements(replicated)) else (ApplyFull(client, rs, replicated), IdsOf(rs))
  }

  /** After a reconcile the client replicates exactly the server's networked entities, unless the server has none
      and the client still holds some: an empty full state is never sent, so those ghosts stay. */
  lemma ReconcileIff(server: Index, ks: seq<Key>, client: World, replicated: seq<Entity>)
    requires Sendable(server) && AllKeys(server, ks) && Receptive(client) && client.ix.reg == server.reg
    requires forall e :: e in NetStore(server.reg, Contents(server)) ==> AcceptsForeign(e)
    ensures Reconciled(server, ks, client, replicated).1 == NetStore(server.reg, Contents(server)).Keys
      <==> NetStore(server.reg, Contents(server)) != map[] || replicated == []
  {
    hide Sendable, Contents, FullStateOf, NetStore, ParseFullState, Receptive, ApplyFull, Acceptable;
    FullStateAccepted(server, ks);
    if NetStore(server.reg, Contents(server)) != map[] {
      FullStateReplicates(server, ks, client, replicated);
    } else if replicated != [] {
      assert replicated[0] in Elements(replicated);
    }
  }

  lemma EmptyServer()
    ensures var server := EmptyWorld([]).ix;
      Sendable(server) && AllKeys(server, [{}]) && NetStore(server.reg, Contents(server)) == map[]
        && WorldOk(EmptyWorld([]))
  {
    hide Coherent;
    EmptyWorldOk([]);
    ContentsKeys(EmptyWorld([]).ix);
  }

  lemma SpawnedClient()
    requires WorldOk(EmptyWorld([]))
    ensures var client := CreatePreassigned(EmptyWorld([]), 1);
      Receptive(client) && client.ix.reg == [] && 1 in client.ix.loc
  {
    hide WorldOk, Contents;
    CreatePreassignedOk(EmptyWorld([]), 1);
    CreatePreassignedKeeps(EmptyWorld([]), 1);
    ContentsKeys(CreatePreassigned(EmptyWorld([]), 1).ix);
  }

  /** The failing family in its smallest form: the server is empty, the client holds one spawned entity. */
  lemma GhostStays()
    ensures var server, client := EmptyWorld([]), CreatePreassigned(EmptyWorld([]), 1);
      && Sendable(server.ix) && AllKeys(server.ix, [{}]) && Receptive(client) && 1 in client.ix.loc
      && Reconciled(server.ix, [{}], client, [1]).1 != NetStore(server.ix.reg, Contents(server.ix)).Keys
  {
    hide Sendable, AllKeys, Receptive, Contents, NetStore, WorldOk, Reconciled, CreatePreassigned, EmptyWorld;
    EmptyServer();
    SpawnedClient();
    assert EmptyWorld([]).ix.reg == [] by { EmptyRegistry(); }
    ReconcileIff(EmptyWorld([]).ix, [{}], CreatePreassigned(EmptyWorld([]), 1), [1]);
  }

  lemma EmptyRegistry()
    ensures EmptyWorld([]).ix.reg == []
  {
  }
}
