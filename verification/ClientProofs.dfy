/** What the packets of a tick leave on the client. */
module ClientProofs {
  import opened Base
  import opened Schema
  import opened Storage
  import opened Operations
  import opened CommandLaws
  import opened Wire
  import opened SnapshotFormat
  import opened Snapshots
  import opened SaveLoad
  import opened SyncPlan
  import opened Packets
  import opened Replicas
  import opened Deltas
  import opened Servers
  import opened ServerLaws
  import opened ServerRuns
  import opened Arrivals
  import opened ServerProofs
  import opened TickProofs

  // ------------------------------------------------------------------ spawns

  /** Entities that spawn packets bring: alive on the server and not yet on the client. */
  ghost function Fresh(store: Store, client: Client, es: seq<Entity>): set<Entity> {
    set e | e in es && e in store && e !in client.store
  }

  lemma {:induction false} SpawnsArrive(c: Setting, store: Store, client: Client, es: seq<Entity>)
    requires StoreOk(c, store)
    ensures var k := AllSpawned(c.reg, client, SpawnRecords(c.reg, store, es));
      && k.store.Keys == client.store.Keys + Fresh(store, client, es)
         && k.replicated == client.replicated + Fresh(store, client, es)
      && (forall e :: e in client.store ==> k.store[e] == client.store[e])
      && forall e :: e in Fresh(store, client, es) ==> k.store[e] == Replica(c.reg, store[e])
  {
    hide RegistryOk, CompsSized, Built, Replica, NetRecord, AcceptsForeign, IsHandle;
    if es == [] {
      NobodySpawned(c, store, client);
    } else {
      var front, e := es[..|es| - 1], es[|es| - 1];
      assert es == front + [e];
      SpawnsArrive(c, store, client, front);
      var k, f := AllSpawned(c.reg, client, SpawnRecords(c.reg, store, front)), SpawnRecords(c.reg, store, front);
      assert Fresh(store, client, es) == Fresh(store, client, front) + if e in store && e !in client.store then {e}
        else {};
      if e in store {
        BuiltIsReplica(c.reg, e, store[e]);
        NetRecordId(c.reg, e, store[e]);
        assert (f + [NetRecord(c.reg, e, store[e])])[..|f|] == f;
        assert AllSpawned(c.reg, client, SpawnRecords(c.reg, store, es)) ==
          Spawned(c.reg, k, NetRecord(c.reg, e, store[e]));
      } else {
        assert SpawnRecords(c.reg, store, es) == f;
      }
    }
  }

  lemma NobodySpawned(c: Setting, store: Store, client: Client)
    ensures AllSpawned(c.reg, client, SpawnRecords(c.reg, store, [])) == client && Fresh(store, client, []) == {}
  {
  }

  ghost function AfterSpawns(c: Setting, r: Run, o: Sending): Client {
    AllSpawned(c.reg, r.client, SpawnRecords(c.reg, r.store, o.spawned))
  }

  /** After the spawns the client has every tracked entity that is not off, and nothing else new that stays. */
  lemma SpawnedSets(c: Setting, r: Run, delta: real, o: Sending)
    requires StoreOk(c, r.store) && Queues(c, r) && Mirrors(c, r) && Allowed(c, r, Tick(delta, o))
    ensures var k := AfterSpawns(c, r, o);
      && r.server.tracked - r.doubts.off <= k.replicated
      && k.replicated - r.doubts.off <= r.server.tracked + r.server.despawns
      && Holds(c, k)
      && (forall e :: e in r.client.store ==> e in k.store && k.store[e] == r.client.store[e])
      && (forall e :: e in k.store && e !in r.client.store ==> e in r.store && k.store[e] == Replica(c.reg, r.store[e]))
      && forall e :: e in r.server.tracked && e in r.server.spawns && e !in r.doubts.off && e !in r.server.despawns ==>
           e in r.store && e in k.store && k.store[e] == Replica(c.reg, r.store[e])
  {
    hide RegistryOk, CompsSized, Replica, AcceptsForeign, IsHandle, AllSpawned, SpawnRecords, NetType, DeltaFor;
    SpawnsArrive(c, r.store, r.client, o.spawned);
    assert forall e :: e in o.spawned <==> e in r.server.spawns by {
      assert forall e :: e in o.spawned <==> e in Elements(o.spawned);
    }
    forall e | e in Fresh(r.store, r.client, o.spawned) ensures e !in c.home {}
    forall e | e in r.server.tracked && e !in r.doubts.off ensures e in AfterSpawns(c, r, o).replicated {
      assert e in NetEntities(c.reg, r.store);
      if e in r.server.spawns && e !in r.client.replicated { assert e in Fresh(r.store, r.client, o.spawned); }
    }
  }

  // ------------------------------------------------------------------ deltas

  lemma DueMeansDues(reg: Registry, t: TypeId, row: Bytes, ticks: seq<real>, now: real, n: nat, b: nat)
    requires b < n <= |PlanAt(reg, t).intervals| && DueAtTime(ticks, b, now)
    ensures DuesUpTo(reg, t, row, ticks, now, n) != []
  {
    hide PlanAt, DueOf, DueAtTime;
    if b < n - 1 { DueMeansDues(reg, t, row, ticks, now, n - 1, b); }
  }

  lemma DeltaIds(c: Setting, r: Run, s: Server, es: seq<DueEntity>)
    requires PartOf(c.reg, r.store, s, es) && forall p :: p in s.dirty ==> p.0 in s.tracked
    ensures IdsOfDelta(es) <= s.tracked
  {
    hide Dues;
    forall e | e in IdsOfDelta(es) ensures e in s.tracked {
      var i :| 0 <= i < |es| && es[i].id == e;
      assert CompsFor(c.reg, r.store, s, e, es[i].comps);
      assert (e, es[i].comps[0].t) in s.dirty;
      assert (e, es[i].comps[0].t).0 == e;
    }
  }

  /** The row of one component after a delta: its due records merged over what was there, or untouched. */
  lemma DeltaRow(c: Setting, store: Store, s: Server, there: Store, es: seq<DueEntity>, e: Entity, t: TypeId)
    requires PartOf(c.reg, store, s, es) && e in there
    ensures var ds := Dues(c.reg, store, s, (e, t)); var after := MergeDelta(c.reg, there, 2, es);
      && e in after
      && (if e in IdsOfDelta(es) && (e, t) in s.dirty && ds != [] then
         t in after[e] && after[e][t] == MergeDues(c.reg, t, StartRow(c.reg, there[e], 2, t), ds)
         else (t in after[e] <==> t in there[e]) && (t in there[e] ==> after[e][t] == there[e][t]))
  {
    hide Dues, MergeDues, StartRow, MergeDelta, MergeComps;
    MergedStore(c.reg, there, es, e);
    if e in IdsOfDelta(es) {
      var i :| 0 <= i < |es| && es[i].id == e;
      var cs := es[i].comps;
      assert CompsFor(c.reg, store, s, e, cs);
      if t in TypesOf(cs) {
        var j :| 0 <= j < |cs| && cs[j].t == t;
        MergedComp(c.reg, there[e], cs, j);
      } else {
        MergedTypes(c.reg, there[e], cs, t);
      }
    }
  }

  /** After a delta a bucket is in step if it was due, or if it was in step before. */
  lemma DeltaSyncs(c: Setting, r: Run, s: Server, there: Store, es: seq<DueEntity>, e: Entity, t: TypeId, b: nat)
    requires StoreOk(c, r.store) && PartOf(c.reg, r.store, s, es) && e in there && CompsSized(c.reg, there[e])
    requires e in r.store && t in r.store[e] && NetType(c.reg, t) && b < |PlanAt(c.reg, t).intervals|
    requires Synced(c, r.store, there, e, t, b)
      || (e in IdsOfDelta(es) && (e, t) in s.dirty && DueAtTime(Ticks(s, (e, t)), b, s.elapsed))
    ensures Synced(c, r.store, MergeDelta(c.reg, there, 2, es), e, t, b)
  {
    hide NetType, PlanAt, Ticks, DueAtTime, BucketSync, PartOf, MergeDelta, MergeDues, IsHandle, AcceptsForeign,
      RegistryOk, DuesUpTo, IdsOfDelta;
    var p, row, n := (e, t), r.store[e][t], |PlanAt(c.reg, t).intervals|;
    assert p.0 == e && p.1 == t;
    DeltaRow(c, r.store, s, there, es, e, t);
    assert Deliverable(c.reg, r.store, p);
    var start := StartRow(c.reg, there[e], 2, t);
    if e in IdsOfDelta(es) && p in s.dirty {
      if Dues(c.reg, r.store, s, p) != [] {
        DuesSync(c.reg, t, row, start, Ticks(s, p), s.elapsed, n, b);
      } else if DueAtTime(Ticks(s, p), b, s.elapsed) {
        DueMeansDues(c.reg, t, row, Ticks(s, p), s.elapsed, n, b);
      }
    }
  }

  lemma {:induction false} MergedCompsSized(c: Setting, comps: Comps, cs: seq<DueComp>)
    requires CompsSized(c.reg, comps) && RegistryOk(c.reg) && forall j :: 0 <= j < |cs| ==> Registered(c.reg, cs[j].t)
    ensures CompsSized(c.reg, MergeComps(c.reg, comps, 2, cs))
  {
    hide MergeDues, RegistryOk, SizeOf, Registered;
    if cs != [] {
      var front, d := cs[..|cs| - 1], cs[|cs| - 1];
      MergedCompsSized(c, comps, front);
      var m := MergeComps(c.reg, comps, 2, front);
      MergedSize(c.reg, d.t, StartRow(c.reg, m, 2, d.t), d.dues);
    }
  }

  lemma MergedSized(c: Setting, store: Store, s: Server, there: Store, es: seq<DueEntity>, e: Entity)
    requires PartOf(c.reg, store, s, es) && e in there && CompsSized(c.reg, there[e]) && RegistryOk(c.reg)
    requires forall p :: p in s.dirty ==> NetType(c.reg, p.1)
    ensures e in MergeDelta(c.reg, there, 2, es) && CompsSized(c.reg, MergeDelta(c.reg, there, 2, es)[e])
  {
    hide MergeDelta, Dues, CompsSized, MergeComps, RegistryOk, IsNetworked;
    MergedStore(c.reg, there, es, e);
    if e in IdsOfDelta(es) {
      var i :| 0 <= i < |es| && es[i].id == e;
      var cs := es[i].comps;
      assert CompsFor(c.reg, store, s, e, cs);
      forall j | 0 <= j < |cs| ensures Registered(c.reg, cs[j].t) {
        assert (e, cs[j].t) in s.dirty;
        assert (e, cs[j].t).1 == cs[j].t;
      }
      MergedCompsSized(c, there[e], cs);
    }
  }

  lemma ReplicaSized(c: Setting, comps: Comps)
    requires CompsSized(c.reg, comps) && RegistryOk(c.reg)
    ensures CompsSized(c.reg, Replica(c.reg, comps))
  {
    hide ReplicaRow, RegistryOk, SizeOf, IsNetworked;
    forall t | t in Replica(c.reg, comps)
      ensures Registered(c.reg, t) && |Replica(c.reg, comps)[t]| == SizeOf(c.reg, t)
    {
      RowSize(c.reg, t, comps[t]);
    }
  }

  /** A replica is in step in every bucket. */
  lemma ReplicaSynced(c: Setting, here: Store, there: Store, e: Entity, t: TypeId, b: nat)
    requires StoreOk(c, here) && e in here && t in here[e] && NetType(c.reg, t) && b < |PlanAt(c.reg, t).intervals|
    requires e in there && there[e] == Replica(c.reg, here[e])
    ensures Synced(c, here, there, e, t, b)
  {
    hide PlanAt, ReplicaRow, BucketSync, RegistryOk, IsHandle, AcceptsForeign, IsNetworked, SizeOf;
    assert CompsSized(c.reg, here[e]);
    ReplicaSync(c.reg, t, b, here[e][t]);
  }

  // ------------------------------------------------------------------ the whole tick

  ghost function AfterDelta(c: Setting, r: Run, o: Sending): Client {
    Merged(c.reg, AfterSpawns(c, r, o), Arriving(c.reg, o.delta))
  }

  ghost function AfterDespawns(c: Setting, r: Run, o: Sending): Client {
    Despawned(AfterDelta(c, r, o), Elements(o.despawned))
  }

  /** An allowed tick whose delta is not taken for something else. */
  ghost predicate Understood(c: Setting, r: Run, delta: real, o: Sending) {
    Allowed(c, r, Tick(delta, o)) && !Garbles(c.reg, o.delta)
  }

  lemma UnderstoodPart(c: Setting, r: Run, delta: real, o: Sending)
    requires Understood(c, r, delta, o)
    ensures PartOf(c.reg, r.store, Advanced(r.server, delta), Arriving(c.reg, o.delta))
  {
    hide DeltaFor, Arriving, Garbles, PartOf;
    ArrivingPart(c.reg, r.store, Advanced(r.server, delta), o.delta);
  }

  /** After spawns, delta and despawns the client is right about every id that was not off: it replicates it exactly if
      the server tracks it and has just sent no despawn of it. */
  lemma DespawnedSets(c: Setting, r: Run, delta: real, o: Sending)
    requires StoreOk(c, r.store) && Queues(c, r) && Mirrors(c, r) && Understood(c, r, delta, o)
    ensures var l := AfterDespawns(c, r, o);
      && Holds(c, l) && l.replicated !! r.server.despawns
      && forall e :: e !in r.doubts.off ==> (e in l.replicated <==> e in r.server.tracked && e !in r.server.despawns)
  {
    hide RegistryOk, CompsSized, Replica, AcceptsForeign, IsHandle, AfterSpawns, NetType, DeltaFor, MergeDelta,
      Garbles, PartOf, Arriving, NetEntities;
    SpawnedSets(c, r, delta, o);
    var k, s, es := AfterSpawns(c, r, o), Advanced(r.server, delta), Arriving(c.reg, o.delta);
    UnderstoodPart(c, r, delta, o);
    DeltaIds(c, r, s, es);
    forall e
      ensures e in MergeDelta(c.reg, k.store, 2, es) <==> e in k.store
    {
      DeltaRowKeys(c, r, s, k.store, es, e);
    }
    forall e | e in c.home
      ensures e in k.store && e in MergeDelta(c.reg, k.store, 2, es)
        && MergeDelta(c.reg, k.store, 2, es)[e] == c.home[e]
    {
      DeltaRowKeys(c, r, s, k.store, es, e);
      TrackedAway(c, r, e);
    }
    forall e | e in IdsOfDelta(es) * k.store.Keys
      ensures e in k.replicated
    {
      if e in c.home { TrackedAway(c, r, e); }
    }
    assert k.replicated + (IdsOfDelta(es) * k.store.Keys) == k.replicated;
    var m := MergeDelta(c.reg, k.store, 2, es);
    assert m.Keys == k.store.Keys;
    assert (m - r.server.despawns).Keys == (k.replicated - r.server.despawns) + c.home.Keys;
    var l := AfterDespawns(c, r, o);
    assert l.replicated == k.replicated - r.server.despawns;
    forall e | e !in r.doubts.off ensures e in l.replicated <==> e in r.server.tracked && e !in r.server.despawns {
      if e in k.replicated { assert e in k.replicated - r.doubts.off; }
      if e in r.server.tracked { assert e in r.server.tracked - r.doubts.off; }
    }
  }

  lemma TrackedAway(c: Setting, r: Run, e: Entity)
    requires StoreOk(c, r.store) && Queues(c, r) && e in c.home
    ensures e !in r.server.tracked
  {
    hide RegistryOk, CompsSized, AcceptsForeign, IsHandle, NetType;
  }

  lemma DeltaRowKeys(c: Setting, r: Run, s: Server, there: Store, es: seq<DueEntity>, e: Entity)
    requires PartOf(c.reg, r.store, s, es)
    ensures e in MergeDelta(c.reg, there, 2, es) <==> e in there
    ensures e in there && e !in IdsOfDelta(es) ==> MergeDelta(c.reg, there, 2, es)[e] == there[e]
  {
    hide MergeDelta, CompsFor;
    MergedStore(c.reg, there, es, e);
  }

  /** Deltas and despawns bring nobody new. */
  lemma StillSpawned(c: Setting, r: Run, delta: real, o: Sending, e: Entity)
    requires StoreOk(c, r.store) && Queues(c, r) && Mirrors(c, r) && Understood(c, r, delta, o)
      && e in AfterDespawns(c, r, o).replicated
    ensures e in AfterSpawns(c, r, o).replicated
  {
    hide RegistryOk, CompsSized, Replica, AcceptsForeign, IsHandle, AfterSpawns, NetType, DeltaFor, MergeDelta,
      Garbles, PartOf, Arriving, NetEntities;
    SpawnedSets(c, r, delta, o);
    UnderstoodPart(c, r, delta, o);
    DeltaIds(c, r, Advanced(r.server, delta), Arriving(c.reg, o.delta));
    if e in c.home { TrackedAway(c, r, e); }
  }

  lemma DespawnedSized(c: Setting, r: Run, delta: real, o: Sending)
    requires StoreOk(c, r.store) && Queues(c, r) && Mirrors(c, r) && ReplicasSized(c, r)
      && Understood(c, r, delta, o)
    ensures var l := AfterDespawns(c, r, o);
      forall e :: e in l.replicated ==> e in l.store && CompsSized(c.reg, l.store[e])
  {
    hide RegistryOk, CompsSized, Replica, AcceptsForeign, IsHandle, AfterSpawns, NetType, DeltaFor, MergeDelta,
      Garbles, PartOf, Arriving, NetEntities, AfterDespawns;
    SpawnedSets(c, r, delta, o);
    DespawnedSets(c, r, delta, o);
    var k, s, es := AfterSpawns(c, r, o), Advanced(r.server, delta), Arriving(c.reg, o.delta);
    var l := AfterDespawns(c, r, o);
    UnderstoodPart(c, r, delta, o);
    forall e | e in l.replicated ensures e in l.store && CompsSized(c.reg, l.store[e]) {
      StillSpawned(c, r, delta, o, e);
      SpawnedSized(c, r, delta, o, e);
      MergedSized(c, r.store, s, k.store, es, e);
      DespawnedRow(c, r, o, e);
    }
  }

  lemma SpawnedSized(c: Setting, r: Run, delta: real, o: Sending, e: Entity)
    requires StoreOk(c, r.store) && Queues(c, r) && Mirrors(c, r) && ReplicasSized(c, r)
      && Understood(c, r, delta, o)
    requires e in AfterSpawns(c, r, o).replicated
    ensures e in AfterSpawns(c, r, o).store && CompsSized(c.reg, AfterSpawns(c, r, o).store[e])
  {
    hide RegistryOk, CompsSized, Replica, AcceptsForeign, IsHandle, AfterSpawns, NetType, DeltaFor, NetEntities,
      Garbles, Arriving;
    SpawnedSets(c, r, delta, o);
    if e !in r.client.store { ReplicaSized(c, r.store[e]); }
  }

  lemma DespawnedRow(c: Setting, r: Run, o: Sending, e: Entity)
    requires e in AfterDespawns(c, r, o).store
    ensures e in AfterDelta(c, r, o).store && AfterDespawns(c, r, o).store[e] == AfterDelta(c, r, o).store[e]
    ensures AfterDelta(c, r, o).store == MergeDelta(c.reg, AfterSpawns(c, r, o).store, 2, Arriving(c.reg, o.delta))
  {
    hide AfterSpawns, MergeDelta;
  }

  /** After the delta every bucket with nothing left unsent and nothing lost is in step. */
  lemma DespawnedSynced(c: Setting, r: Run, delta: real, o: Sending, e: Entity, t: TypeId, b: nat)
    requires StoreOk(c, r.store) && Queues(c, r) && Mirrors(c, r) && ReplicasSized(c, r) && ClientInStep(c, r)
      && Understood(c, r, delta, o)
    requires Shown(r, e) || e in r.server.spawns
    requires e in r.server.tracked && e !in r.doubts.off && e !in r.server.despawns
    requires e in r.store && t in r.store[e] && NetType(c.reg, t) && b < |PlanAt(c.reg, t).intervals|
    requires (e, t, b) !in StillUnsent(r, TickSends(c, r, delta))
      && (e, t, b) !in LostAfter(c.reg, r, TickSends(c, r, delta), Landed(c.reg, o.delta))
    ensures Synced(c, r.store, AfterDespawns(c, r, o).store, e, t, b)
  {
    hide RegistryOk, CompsSized, Replica, AcceptsForeign, IsHandle, AfterSpawns, NetType, DeltaFor, MergeDelta,
      NetEntities, AfterDespawns, AfterDelta, Synced, PlanAt, TickState, ClientTick, TickSends, Mirrors, Garbles,
      PartOf, Arriving, IdsOfDelta;
    SpawnedSets(c, r, delta, o);
    DespawnedSets(c, r, delta, o);
    SpawnedSized(c, r, delta, o, e);
    var k, s, es := AfterSpawns(c, r, o), Advanced(r.server, delta), Arriving(c.reg, o.delta);
    UnderstoodPart(c, r, delta, o);
    var now := TickSends(c, r, delta);
    assert (e, t, b).0 == e && (e, t, b).1 == t && (e, t, b).2 == b;
    if e in r.server.spawns {
      ReplicaSynced(c, r.store, k.store, e, t, b);
    } else if SentAmong(now, e, t, b) {
      SentIsDue(c, r, delta, e, t, b);
      NotLostLands(c, r, now, Landed(c.reg, o.delta), e, t, b);
    } else {
      SpawnsKeepSync(c, r, k, e, t, b);
    }
    DeltaSyncs(c, r, s, k.store, es, e, t, b);
    DespawnedRow(c, r, o, e);
    SameRowSynced(c, r.store, MergeDelta(c.reg, k.store, 2, es), AfterDespawns(c, r, o).store, e, t, b);
  }

  lemma NotLostLands(c: Setting, r: Run, now: set<Sent>, landed: set<Entity>, e: Entity, t: TypeId, b: nat)
    requires SentAmong(now, e, t, b) && (e, t, b) !in LostAfter(c.reg, r, now, landed)
    ensures e in landed
  {
    var x :| x in now && x.e == e && x.t == t && x.b == b;
    assert (x.e, x.t, x.b) == (e, t, b);
  }

  lemma SpawnsKeepSync(c: Setting, r: Run, k: Client, e: Entity, t: TypeId, b: nat)
    requires ClientInStep(c, r) && (forall x :: x in r.client.store ==> x in k.store && k.store[x] == r.client.store[x])
    requires Shown(r, e) && e in r.store && t in r.store[e] && NetType(c.reg, t)
    requires b < |PlanAt(c.reg, t).intervals| && (e, t, b) !in r.unsent && (e, t, b) !in r.doubts.lost
    ensures Synced(c, r.store, k.store, e, t, b)
  {
    hide NetType, PlanAt, BucketSync;
    assert Synced(c, r.store, r.client.store, e, t, b);
  }

  lemma SameRowSynced(c: Setting, here: Store, x: Store, y: Store, e: Entity, t: TypeId, b: nat)
    requires Synced(c, here, x, e, t, b) && e in y && e in x && y[e] == x[e]
    ensures Synced(c, here, y, e, t, b)
  {
    hide BucketSync;
  }

  /** What is sent was due. */
  lemma SentIsDue(c: Setting, r: Run, delta: real, e: Entity, t: TypeId, b: nat)
    requires SentAmong(TickSends(c, r, delta), e, t, b)
    ensures var s := Advanced(r.server, delta); (e, t) in s.dirty && DueAtTime(Ticks(s, (e, t)), b, s.elapsed)
    ensures Deliverable(c.reg, r.store, (e, t)) && b < |PlanAt(c.reg, t).intervals|
  {
    hide NetType, PlanAt, SendsNow, Ticks, DueAtTime, Deliverable;
    var s := Advanced(r.server, delta);
    var x :| x in TickSends(c, r, delta) && x.e == e && x.t == t && x.b == b;
    SentNow(c, r.store, s, r.start, x);
  }

  // ------------------------------------------------------------------ component sets

  /** A component of an entity whose part of the delta arrives is merged exactly if one of its buckets was sent. */
  lemma SentIsMerged(c: Setting, r: Run, delta: real, e: Entity, t: TypeId)
    requires Queues(c, r)
    ensures var s := Advanced(r.server, delta);
      (e, t) in s.dirty && Dues(c.reg, r.store, s, (e, t)) != []
      <==> exists b :: SentAmong(TickSends(c, r, delta), e, t, b)
  {
    hide NetType, PlanAt, Ticks, DueAtTime, Queues, SendsNow;
    var s, p := Advanced(r.server, delta), (e, t);
    assert p.0 == e && p.1 == t;
    if p in s.dirty && Dues(c.reg, r.store, s, p) != [] {
      var b := SomeDue(c.reg, t, r.store[e][t], Ticks(s, p), s.elapsed, |PlanAt(c.reg, t).intervals|);
      var x := Sent(e, t, b, r.start + s.elapsed);
      SentNow(c, r.store, s, r.start, x);
      assert SentAmong(TickSends(c, r, delta), e, t, b);
    }
    if b :| SentAmong(TickSends(c, r, delta), e, t, b) {
      SentIsDue(c, r, delta, e, t, b);
      DueMeansDues(c.reg, t, r.store[e][t], Ticks(s, p), s.elapsed, |PlanAt(c.reg, t).intervals|, b);
    }
  }

  lemma SomeDue(reg: Registry, t: TypeId, row: Bytes, ticks: seq<real>, now: real, n: nat) returns (b: nat)
    requires n <= |PlanAt(reg, t).intervals| && DuesUpTo(reg, t, row, ticks, now, n) != []
    ensures b < n && DueAtTime(ticks, b, now)
  {
    hide PlanAt, DueOf, DueAtTime;
    if DueAtTime(ticks, n - 1, now) { b := n - 1; } else { b := SomeDue(reg, t, row, ticks, now, n - 1); }
  }

  lemma DeliverableIsNet(reg: Registry, store: Store, e: Entity, t: TypeId)
    requires Deliverable(reg, store, (e, t))
    ensures t in NetKeys(reg, Lookup(store, e))
  {
    hide NetType, PlanAt;
  }

  lemma SpawnedTypes(c: Setting, r: Run, delta: real, o: Sending, e: Entity, t: TypeId)
    requires StoreOk(c, r.store) && Queues(c, r) && Mirrors(c, r) && SameTypes(c, r) && Allowed(c, r, Tick(delta, o))
    requires e in r.server.tracked && e !in r.doubts.off && e !in r.server.despawns && e in r.store
    ensures var k := AfterSpawns(c, r, o); var has := t in NetKeys(c.reg, Lookup(r.store, e));
      && e in k.store
      && (t in k.store[e] <==>
          if GoesOutWhole(r, e) then has else (has && t !in Lacks(r, e)) || t in Keeps(r, e))
  {
    hide StoreOk, Queues, AfterSpawns, NetType, DeltaFor, Lacks, Keeps, ReplicaRow;
    SpawnedSets(c, r, delta, o);
    if !GoesOutWhole(r, e) { assert Shown(r, e) && e in r.client.replicated; }
  }

  /** After spawns, delta and despawns a replica has the networked types, less what it lacks, and what it keeps. */
  lemma DespawnedTypes(c: Setting, r: Run, delta: real, o: Sending, e: Entity, t: TypeId)
    requires StoreOk(c, r.store) && Queues(c, r) && Mirrors(c, r) && SameTypes(c, r) && Understood(c, r, delta, o)
    requires e in r.server.tracked && e !in r.doubts.off && e !in r.server.despawns && e in r.store
    ensures var l, landed := AfterDespawns(c, r, o), Landed(c.reg, o.delta);
      && e in l.store
      && var has := t in NetKeys(c.reg, Lookup(r.store, e));
         (t in l.store[e] <==>
           (has && (GoesOutWhole(r, e) || t !in Lacks(r, e) || Reached(TickSends(c, r, delta), landed, (e, t))))
           || (!GoesOutWhole(r, e) && t in Keeps(r, e)))
  {
    hide RegistryOk, CompsSized, Replica, AcceptsForeign, IsHandle, AfterSpawns, NetType, DeltaFor, MergeDelta,
      NetEntities, AfterDespawns, AfterDelta, TickState, TickSends, Mirrors, Garbles, PartOf, Arriving, IdsOfDelta,
      Lacks, Keeps, Dues, StoreOk, Queues;
    SpawnedSets(c, r, delta, o);
    DespawnedSets(c, r, delta, o);
    var k, s, es := AfterSpawns(c, r, o), Advanced(r.server, delta), Arriving(c.reg, o.delta);
    UnderstoodPart(c, r, delta, o);
    DeltaRow(c, r.store, s, k.store, es, e, t);
    SentIsMerged(c, r, delta, e, t);
    DespawnedRow(c, r, o, e);
    assert (e, t).0 == e && (e, t).1 == t;
    if Reached(TickSends(c, r, delta), Landed(c.reg, o.delta), (e, t)) {
      var b :| SentAmong(TickSends(c, r, delta), e, t, b);
      SentIsDue(c, r, delta, e, t, b);
      DeliverableIsNet(c.reg, r.store, e, t);
    }
    SpawnedTypes(c, r, delta, o, e, t);
  }

}
