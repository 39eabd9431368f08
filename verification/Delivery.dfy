/** The bytes of each packet do to a client world what the protocol model says, and the engine announces its changes
    the way the model assumes. */
module Delivery {
  import opened Base
  import opened Schema
  import opened Storage
  import opened StorageLaws
  import opened Operations
  import opened Commands
  import opened CommandLaws
  import opened Wire
  import opened Buffers
  import opened SnapshotFormat
  import opened Snapshots
  import opened SaveLoad
  import opened SyncPlan
  import opened Packets
  import opened Replicas
  import opened Deltas
  import opened Attempts
  import opened Receiving
  import opened Servers
  import opened ServerLaws
  import opened ServerRuns
  import opened Arrivals
  import opened ClientProofs
  import opened ReplicationLaws

  ghost predicate Is(w: World, replicated: set<Entity>, client: Client) {
    Receptive(w) && Contents(w.ix) == client.store && replicated == client.replicated
  }

  lemma FreeToReceive(w: World, replicated: set<Entity>, client: Client, kind: Kind, data: Bytes, order: seq<Entity>)
    requires Is(w, replicated, client)
    ensures Received(w, replicated, kind, data, order) == AppliedWhole(w, replicated, kind, data, order)
  {
    hide WorldOk, RegistryOk, Received, AppliedWhole, Contents;
    WholeIfFree(w, replicated, kind, data, order);
  }

  // ------------------------------------------------------------------ what the server sends fits the format

  lemma SpawnFits(reg: Registry, e: Entity, comps: Comps)
    requires RegistryOk(reg) && CompsSized(reg, comps) && IsHandle(e) && |reg| < U16_LIMIT
    ensures EntityFits(reg, NetRecord(reg, e, comps))
  {
    hide RegistryOk, CompFits, NetParts, CompsSized, Sorted;
    var ids := SortedIds(comps.Keys);
    NetPartsFit(reg, comps, ids);
    SomeParts(reg, comps, ids);
    RegisteredOnes(reg, comps);
    FewKeys(ids, |reg|);
  }

  // ------------------------------------------------------------------ delivery

  lemma SpawnDelivered(c: Setting, w: World, replicated: set<Entity>, client: Client, store: Store, e: Entity,
                       order: seq<Entity>)
    requires Is(w, replicated, client) && w.ix.reg == c.reg && StoreOk(c, store) && e in store
    ensures var data := EncodeSpawn(NetRecord(c.reg, e, store[e]));
      var got := Received(w, replicated, Spawn, data, order);
      ValidPacket(c.reg, Spawn, data) && Is(got.0, got.1, Spawned(c.reg, client, NetRecord(c.reg, e, store[e])))
        && got.0.ix.reg == c.reg
  {
    hide Received, Receptive, Contents, RegistryOk, ApplySpawn, Built, ParseSpawn, EncodeSpawn, AcceptsForeign,
      CompsSized, NetRecord, CompFits, ValidPacket;
    var r := NetRecord(c.reg, e, store[e]);
    FreeToReceive(w, replicated, client, Spawn, EncodeSpawn(r), order);
    SpawnFits(c.reg, e, store[e]);
    SpawnBack(c.reg, r);
    ApplySpawnOk(w, r);
    ContentsKeys(w.ix);
  }

  /** Whatever the counts of a delta are, its bytes do to a client world what the protocol model says, and they do what
      the server means if and only if the counts fit. */
  lemma DeltaDelivered(c: Setting, w: World, replicated: set<Entity>, client: Client, store: Store, s: Server,
                       es: seq<DueEntity>, order: seq<Entity>)
    requires Is(w, replicated, client) && w.ix.reg == c.reg && StoreOk(c, store) && DeltaFor(c.reg, store, s, es)
    ensures var data := EncodeDelta(Carried(es)); var got := Received(w, replicated, Delta, data, order);
      Is(got.0, got.1, Merged(c.reg, client, Arriving(c.reg, es))) && got.0.ix.reg == c.reg
    ensures Arriving(c.reg, es) == es <==> Countable(es)
  {
    hide Received, Receptive, Contents, RegistryOk, ApplyDelta, MergeDelta, ParseDelta, EncodeDelta, CompsSized,
      ValidPacket, DeltaFor, LiveIds, IdsOfDelta, Carried;
    DeltaArrivesIff(c, store, s, es);
    var data := EncodeDelta(Carried(es));
    FreeToReceive(w, replicated, client, Delta, data, order);
    if ValidPacket(c.reg, Delta, data) {
      DeltaAccepted(c.reg, es);
      DeltaParsed(c.reg, data);
      var p := ParseDelta(c.reg, data).value;
      ApplyDeltaOk(w, p.version, p.value);
      LiveAreStored(w, p.value);
    } else {
      NothingMerged(c.reg, client);
    }
  }

  lemma DeltaAccepted(reg: Registry, es: seq<DueEntity>)
    requires ValidPacket(reg, Delta, EncodeDelta(Carried(es)))
    ensures ParseDelta(reg, EncodeDelta(Carried(es))).Some?
      && ParseDelta(reg, EncodeDelta(Carried(es))).value.version == 2
  {
    hide Carried, EncodeDelta, ParseVersion, ParseMany;
    if Carried(es) == [] { NothingPacked(reg); } else { DeltaVersion(Carried(es)); }
  }

  lemma NothingMerged(reg: Registry, client: Client)
    ensures Merged(reg, client, []) == client
  {
  }

  lemma LiveAreStored(w: World, es: seq<DueEntity>)
    requires Receptive(w)
    ensures LiveIds(w, es) == IdsOfDelta(es) * Contents(w.ix).Keys
  {
    hide WorldOk, RegistryOk, Contents, Alive;
    forall i | 0 <= i < |es|
      ensures Alive(w.ix, es[i].id) <==> es[i].id in Contents(w.ix)
    {
      AliveIsStored(w, es[i].id);
    }
  }

  lemma DespawnDelivered(w: World, replicated: set<Entity>, client: Client, e: Entity, order: seq<Entity>)
    requires Is(w, replicated, client) && IsHandle(e)
    ensures var got := Received(w, replicated, Despawn, EncodeDespawn(e), order);
      ValidPacket(w.ix.reg, Despawn, EncodeDespawn(e)) && Is(got.0, got.1, Despawned(client, {e}))
        && got.0.ix.reg == w.ix.reg
  {
    hide Received, WorldOk, Contents, RegistryOk, Destroy, LE, FromLE;
    Widths();
    LittleEndian(e, 8);
    FreeToReceive(w, replicated, client, Despawn, EncodeDespawn(e), order);
    DestroyOk(w, e);
    DestroyKeeps(w, e);
  }

  lemma FullStateDelivered(c: Setting, w: World, replicated: set<Entity>, client: Client, store: Store,
                           walk: seq<Entity>, order: seq<Entity>)
    requires Is(w, replicated, client) && w.ix.reg == c.reg && StoreOk(c, store)
    requires Elements(walk) == store.Keys && NoDup(walk) && |walk| < U32_LIMIT && Elements(order) == replicated
    requires NetRecords(c.reg, store, walk) != []
    ensures var rs := NetRecords(c.reg, store, walk);
      var got := Received(w, replicated, FullState, EncodeFullState(rs), order);
      ValidPacket(c.reg, FullState, EncodeFullState(rs)) && Is(got.0, got.1, Reset(c.reg, client, rs))
        && got.0.ix.reg == c.reg
  {
    hide Received, Receptive, Contents, RegistryOk, ApplyFull, StoreOf, ParseFullState, EncodeFullState, CompsSized,
      ValidPacket, NetRecords, EntityFits, Acceptable, IdsOf, NetStore;
    var rs := NetRecords(c.reg, store, walk);
    FreeToReceive(w, replicated, client, FullState, EncodeFullState(rs), order);
    ReconcileRecords(c, store, walk);
    assert forall e :: e in walk <==> e in store by { assert forall e :: e in walk <==> e in Elements(walk); }
    NetRecordsFit(c, store, walk);
    FullStateBack(c.reg, rs);
    forall i | 0 <= i < |rs| ensures IsHandle(rs[i].id) { assert EntityFits(c.reg, rs[i]); HandleOf(c.reg, rs[i]); }
    ApplyFullOk(w, rs, order);
  }

  lemma HandleOf(reg: Registry, r: Record)
    requires EntityFits(reg, r)
    ensures IsHandle(r.id)
  {
  }

  lemma {:induction false} NetRecordsFit(c: Setting, store: Store, es: seq<Entity>)
    requires StoreOk(c, store) && forall e :: e in es ==> e in store
    ensures var rs := NetRecords(c.reg, store, es);
      |rs| <= |es| && forall i :: 0 <= i < |rs| ==> EntityFits(c.reg, rs[i])
  {
    hide RegistryOk, EntityFits, CompsSized, NetRecord, AcceptsForeign, IsHandle;
    if es != [] {
      var front, e := es[..|es| - 1], es[|es| - 1];
      assert es == front + [e];
      assert e in es && forall x :: x in front ==> x in es;
      NetRecordsFit(c, store, front);
      SpawnFits(c.reg, e, store[e]);
    }
  }

  // ------------------------------------------------------------------ what the engine announces

  lemma AddAnnounced(w: World, e: Entity, t: TypeId, data: Option<Bytes>)
    requires WorldOk(w) && DataOk(w.ix.reg, t, data) && Alive(w.ix, e) && Registered(w.ix.reg, t)
    requires w.depth <= 0 || Has(w.ix, e, t)
    ensures var v := AddRaw(w, e, t, data); var ev := if Has(w.ix, e, t) then ChangedEvent(e, t) else AddedEvent(e, t);
      v.events == w.events + [ev] && Announced(Lookup(Contents(w.ix), e), Mutation(e, Lookup(Contents(v.ix), e), [ev]))
      && forall x :: x != e ==> Lookup(Contents(v.ix), x) == Lookup(Contents(w.ix), x)
  {
    hide Coherent, SlotsOk, Contents, Payload, Registered, DataOk, SizeOf, WriteCell, ChangeKey;
    AddRawOk(w, e, t, data);
    StoredComps(w.ix, e);
    WriteKeepsEvents(w, e, t, Payload(w.ix.reg, t, data));
    WriteKeepsEvents(ChangeKey(w, e, w.ix.loc[e].key + {t}), e, t, Payload(w.ix.reg, t, data));
    MoveKeepsEvents(w, e, w.ix.loc[e].key + {t});
  }

  lemma WriteKeepsEvents(w: World, e: Entity, t: TypeId, data: Bytes)
    ensures WriteCell(w, e, t, data).events == w.events
  {
    hide HasCell;
  }

  lemma MoveKeepsEvents(w: World, e: Entity, to: Key)
    ensures ChangeKey(w, e, to).events == w.events
  {
  }

  lemma RemoveAnnounced(w: World, e: Entity, t: TypeId)
    requires WorldOk(w) && w.depth <= 0 && Has(w.ix, e, t)
    ensures var v := RemoveComponent(w, e, t);
      v.events == w.events + [RemovedEvent(e, t)]
        && Announced(Lookup(Contents(w.ix), e), Mutation(e, Lookup(Contents(v.ix), e), [RemovedEvent(e, t)]))
      && forall x :: x != e ==> Lookup(Contents(v.ix), x) == Lookup(Contents(w.ix), x)
  {
    hide Coherent, SlotsOk, Contents, ChangeKey;
    RemoveComponentOk(w, e, t);
    StoredComps(w.ix, e);
    MoveKeepsEvents(w, e, w.ix.loc[e].key - {t});
  }

  lemma DestroyAnnounced(w: World, e: Entity)
    requires WorldOk(w) && w.depth <= 0 && e in w.ix.loc
    ensures var v := Destroy(w, e); var evs := RemovedEvents(e, w.ix.loc[e].key);
      v.events == w.events + evs && Announced(Lookup(Contents(w.ix), e), Mutation(e, None, evs))
      && Lookup(Contents(v.ix), e) == None
         && forall x :: x != e ==> Lookup(Contents(v.ix), x) == Lookup(Contents(w.ix), x)
  {
    hide Coherent, SlotsOk, Contents, Detach, FreeId, Sorted;
    DestroyOk(w, e);
    StoredComps(w.ix, e);
    var ids, evs := SortedIds(w.ix.loc[e].key), RemovedEvents(e, w.ix.loc[e].key);
    forall t | t in w.ix.loc[e].key ensures RemovedEvent(e, t) in evs {
      assert t in ids;
      var i :| 0 <= i < |ids| && ids[i] == t;
      assert evs[i] == RemovedEvent(e, t);
    }
    forall v | v in evs ensures v.RemovedEvent? && v.e == e && v.t in w.ix.loc[e].key {
      var i :| 0 <= i < |evs| && evs[i] == v;
      assert ids[i] in ids;
    }
  }

  /** Pooled destruction announces the same. */
  lemma DestroyPooledAnnounced(w: World, e: Entity)
    requires WorldOk(w) && w.depth <= 0 && e in w.ix.loc
    ensures var v := DestroyPooled(w, e); var evs := RemovedEvents(e, w.ix.loc[e].key);
      v.events == w.events + evs && Announced(Lookup(Contents(w.ix), e), Mutation(e, None, evs))
      && Lookup(Contents(v.ix), e) == None
         && forall x :: x != e ==> Lookup(Contents(v.ix), x) == Lookup(Contents(w.ix), x)
  {
    hide Coherent, SlotsOk, Contents, Detach, FreeId, RemovedEvents;
    DestroyAnnounced(w, e);
    DestroyPooledOk(w, e);
  }

  /** Marking announces one change, which leaves the component dirty on a server that tracks the entity and sends the
      type; where there is nothing to mark, nothing is announced. */
  lemma MarkAnnounced(w: World, e: Entity, t: TypeId, s: Server, left: set<TypeId>)
    requires WorldOk(w)
    ensures var v := MarkChanged(w, e, t);
      && v.events == w.events + (if Has(w.ix, e, t) then [ChangedEvent(e, t)] else [])
      && (Has(w.ix, e, t) ==>
        Announced(Lookup(Contents(w.ix), e), Mutation(e, Lookup(Contents(v.ix), e), [ChangedEvent(e, t)])))
      && Contents(v.ix) == Contents(w.ix)
    ensures Has(w.ix, e, t) && e in s.tracked && NetType(w.ix.reg, t) ==>
      HandleAll(s, w.ix.reg, [ChangedEvent(e, t)], left) == s.(dirty := s.dirty + {(e, t)})
  {
    hide Coherent, SlotsOk, Contents, NetType, Stamp;
    MarkChangedOk(w, e, t);
    if Has(w.ix, e, t) { StoredComps(w.ix, e); }
    assert [ChangedEvent(e, t)][..0] == [];
    assert HandleAll(s, w.ix.reg, [], left) == s;
  }

  /** Clearing announces itself once, however many entities it ends, and a server then starts over. */
  lemma ClearAnnounced(w: World, order: seq<Entity>, s: Server, left: set<TypeId>)
    requires WorldOk(w) && w.depth <= 0 && forall e :: e in w.ix.loc ==> e in order
    ensures var v := Operations.Clear(w, order);
      v.events == w.events + [ClearedEvent] && Contents(v.ix) == map[]
    ensures HandleAll(s, w.ix.reg, [ClearedEvent], left) == IDLE
  {
    hide WorldOk, Contents, ClearAll;
    ClearOk(w, order);
    ClearingIsSilent(w, order);
    assert [ClearedEvent][..0] == [];
  }

  lemma {:induction false} ClearingIsSilent(w: World, order: seq<Entity>)
    ensures ClearAll(w, order).events == w.events
    decreases order
  {
    hide Detach, FreeId;
    if order != [] {
      var e := order[0];
      ClearingIsSilent(if e in w.ix.loc then w.(ix := Detach(w.ix, e), slots := FreeId(w.slots, e)) else w, order[1..]);
    }
  }

  lemma {:induction false} WritesKeepEvents(w: World, e: Entity, ids: seq<TypeId>, ops: seq<PendingOp>)
    ensures WriteAll(w, e, ids, ops).events == w.events
    decreases ids
  {
    hide WriteCell, Payload, LastAdd;
    if ids != [] {
      WritesKeepEvents(w, e, ids[..|ids| - 1], ops);
      var last := LastAdd(ops, ids[|ids| - 1]);
      if last.Some? {
        WriteKeepsEvents(WriteAll(w, e, ids[..|ids| - 1], ops), e, ids[|ids| - 1],
          Payload(w.ix.reg, ids[|ids| - 1], last.value));
      }
    }
  }

  /** The net events of a batch of ops announce what the ops do to a component map. */
  lemma OpsAnnounced(reg: Registry, e: Entity, comps: Comps, ops: seq<PendingOp>)
    ensures Announced(Some(comps), Mutation(e, Some(ApplyOps(reg, comps, ops)),
      NetEvents(e, comps.Keys, FinalSet(comps.Keys, ops), ops)))
  {
    hide FinalSet, LastAdd, NetEvents, Payload, ApplyOps;
    CollapseIsSequential(reg, comps, ops);
    NetEventsExact(e, comps.Keys, ops);
  }

  /** A committed window announces its net effect, types it only rewrote included. */
  lemma CommitAnnounced(w: World, e: Entity, ops: seq<PendingOp>)
    requires WorldOk(w) && OpsOk(w.ix.reg, ops) && e in w.ix.loc && ops != []
    ensures var v := Commit(w, e, ops); var key := w.ix.loc[e].key;
      var evs := NetEvents(e, key, FinalSet(key, ops), ops);
      v.events == w.events + evs && Announced(Lookup(Contents(w.ix), e), Mutation(e, Lookup(Contents(v.ix), e), evs))
      && forall x :: x != e ==> Lookup(Contents(v.ix), x) == Lookup(Contents(w.ix), x)
  {
    hide Coherent, SlotsOk, Contents, Commit, OpsOk, FinalSet, NetEvents, ApplyOps, Announced;
    CommitOk(w, e, ops);
    StoredComps(w.ix, e);
    OpsAnnounced(w.ix.reg, e, Contents(w.ix)[e], ops);
    CommitEvents(w, e, ops);
  }

  lemma CommitEvents(w: World, e: Entity, ops: seq<PendingOp>)
    requires e in w.ix.loc && ops != []
    ensures var key := w.ix.loc[e].key;
      Commit(w, e, ops).events == w.events + NetEvents(e, key, FinalSet(key, ops), ops)
  {
    hide WriteAll, ChangeKey, FinalSet, NetEvents;
    var key := w.ix.loc[e].key;
    var final := FinalSet(key, ops);
    MoveKeepsEvents(w, e, final);
    WritesKeepEvents(if final != key then ChangeKey(w, e, final) else w, e, SortedIds(final), ops);
  }
}
