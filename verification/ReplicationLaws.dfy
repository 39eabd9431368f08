/** Over every run of announced changes, ticks and clears, the client mirrors the server in every id that is not off. */
module ReplicationLaws {
  import opened Base
  import opened Schema
  import opened Storage
  import opened Operations
  import opened CommandLaws
  import opened Wire
  import opened SnapshotFormat
  import opened Snapshots
  import opened SaveLoad
  import opened SyncPlan
  import opened Packets
  import opened Replicas
  import opened Deltas
  import opened Servers
  import opened ServerLaws
  import opened ServerRuns
  import opened Arrivals
  import opened ServerProofs
  import opened TickProofs
  import opened ClientProofs

  // ------------------------------------------------------------------ reconciliation

  ghost predicate Named(rs: seq<Record>, es: seq<Entity>) {
    (forall i :: 0 <= i < |rs| ==> rs[i].id in es) && forall i, j :: 0 <= i < j < |rs| ==> rs[i].id != rs[j].id
  }

  lemma NamedSnoc(f: seq<Record>, front: seq<Entity>, r: Record)
    requires Named(f, front) && r.id !in front
    ensures Named(f, front + [r.id]) && Named(f + [r], front + [r.id])
  {
    var e, rs := r.id, f + [r];
    assert (front + [e])[|front|] == e && forall x :: x in front ==> x in front + [e];
    forall i | 0 <= i < |rs| ensures rs[i].id in front + [e] && (i < |f| ==> rs[i] == f[i] && rs[i].id != e) {}
  }

  lemma {:induction false} NetIdsDiffer(reg: Registry, store: Store, es: seq<Entity>)
    requires NoDup(es)
    ensures Named(NetRecords(reg, store, es), es)
  {
    hide NetRecord;
    if es != [] {
      var front, e := es[..|es| - 1], es[|es| - 1];
      assert es == front + [e];
      assert e !in front;
      NetIdsDiffer(reg, store, front);
      var comps: Comps := if e in store then store[e] else map[];
      NetRecordId(reg, e, comps);
      var f, r := NetRecords(reg, store, front), NetRecord(reg, e, comps);
      NamedSnoc(f, front, r);
    }
  }

  lemma ReconcileRecords(c: Setting, store: Store, walk: seq<Entity>)
    requires StoreOk(c, store) && Elements(walk) == store.Keys && NoDup(walk)
    ensures var rs := NetRecords(c.reg, store, walk);
      Acceptable(rs) && StoreOf(c.reg, rs) == NetStore(c.reg, store) && IdsOf(rs) == NetEntities(c.reg, store)
  {
    hide NetRecords, StoreOf, RegistryOk, CompsSized, HasNet, Replica, AcceptsForeign, IsHandle;
    var rs := NetRecords(c.reg, store, walk);
    assert forall e :: e in walk <==> e in store by { assert forall e :: e in walk <==> e in Elements(walk); }
    NetIdsDiffer(c.reg, store, walk);
    NetStoreOf(c.reg, store, walk);
    SameStore(c.reg, store, StoreOf(c.reg, rs));
    StoreOfIds(c.reg, rs);
    assert NetStore(c.reg, store).Keys == NetEntities(c.reg, store);
  }

  /** Applying a full state to a client that holds anything whatever besides its own entities: it then replicates
      exactly the networked entities, each as it arrives, if and only if the server has one or the client held none. */
  lemma ResetMirrors(c: Setting, store: Store, client: Client, walk: seq<Entity>)
    requires StoreOk(c, store) && Holds(c, client) && Elements(walk) == store.Keys && NoDup(walk)
    ensures var rs := NetRecords(c.reg, store, walk); var after := Reset(c.reg, client, rs);
      && Holds(c, after) && (rs == [] <==> NetEntities(c.reg, store) == {})
      && (after.replicated == NetEntities(c.reg, store) <==> rs != [] || client.replicated == {})
      && (rs != [] ==> forall e :: e in NetEntities(c.reg, store) ==>
         e in after.store && after.store[e] == Replica(c.reg, store[e]))
  {
    hide NetRecords, StoreOf, RegistryOk, CompsSized, HasNet, Replica, AcceptsForeign, IsHandle, Acceptable, NetType;
    ReconcileRecords(c, store, walk);
    var rs := NetRecords(c.reg, store, walk);
    if rs == [] {
      assert IdsOf(rs) == {};
    } else {
      assert rs[0].id in IdsOf(rs);
      ResetKeys(c, store, client);
    }
  }

  lemma ResetKeys(c: Setting, store: Store, client: Client)
    requires StoreOk(c, store) && Holds(c, client)
    ensures var there := (client.store - client.replicated) + NetStore(c.reg, store);
      there.Keys == NetEntities(c.reg, store) + c.home.Keys && forall e :: e in c.home ==> there[e] == c.home[e]
    ensures forall e :: e in NetStore(c.reg, store) <==> e in NetEntities(c.reg, store)
  {
    hide HasNet, Replica, RegistryOk, CompsSized, AcceptsForeign, IsHandle;
  }

  // ------------------------------------------------------------------ the client after a tick

  lemma ClientTickIs(c: Setting, r: Run, delta: real, o: Sending)
    ensures ClientTick(c, r, delta, o) ==
      if Reconciles(r.server, delta, c.period)
        then Reset(c.reg, AfterDespawns(c, r, o), NetRecords(c.reg, r.store, o.walk)) else AfterDespawns(c, r, o)
  {
    hide AllSpawned, SpawnRecords, Merged, Despawned, Reset, NetRecords, Arriving;
  }

  lemma SameBook(c: Setting, r: Run, delta: real, o: Sending)
    ensures var v := AfterTick(c, r, delta, o); var now := TickSends(c, r, delta);
      v.store == r.store && v.server.tracked == r.server.tracked && v.server.spawns == {} && v.server.despawns == {}
      && v.client == ClientTick(c, r, delta, o) && v.doubts == DoubtsAfter(c, r, delta, o, now)
      && v.unsent == StillUnsent(r, now)
  {
    hide ClientTick, SendsNow, StillUnsent, Touched, AllDue, PlanAt, DoubtsAfter;
  }

  lemma OffIs(c: Setting, r: Run, delta: real, o: Sending, sent: set<Sent>)
    ensures var d := DoubtsAfter(c, r, delta, o, sent);
      && d.off == (if Resets(c, r, delta, o) then {} else OffAfter(r))
      && (d.garbled <==> r.doubts.garbled || Garbles(c.reg, o.delta))
      && d.lost == if Resets(c, r, delta, o) then {} else LostAfter(c.reg, r, sent, Landed(c.reg, o.delta))
  {
    hide Resets, OffAfter, LostAfter, Garbles, Landed, Reached;
  }

  lemma TickMirrors(c: Setting, r: Run, delta: real, o: Sending)
    requires StoreOk(c, r.store) && Queues(c, r) && Mirrors(c, r) && Understood(c, r, delta, o)
    ensures Mirrors(c, AfterTick(c, r, delta, o))
  {
    hide StoreOk, AfterDespawns, Reset, NetRecords, ClientTick, DeltaFor, AfterTick, Holds, NetEntities, NetType,
      Garbles, DoubtsAfter, TickSends;
    DespawnedSets(c, r, delta, o);
    ClientTickIs(c, r, delta, o);
    SameBook(c, r, delta, o);
    OffIs(c, r, delta, o, TickSends(c, r, delta));
    var k, v := ClientTick(c, r, delta, o), AfterTick(c, r, delta, o);
    if Reconciles(r.server, delta, c.period) {
      ResetMirrors(c, r.store, AfterDespawns(c, r, o), o.walk);
      ResetNothing(c, AfterDespawns(c, r, o));
    }
    forall e | e !in v.doubts.off ensures e in k.replicated <==> e in r.server.tracked {}
    assert forall e :: e in k.replicated - v.doubts.off ==> e in k.replicated && e !in v.doubts.off;
    assert forall e :: e in r.server.tracked - v.doubts.off ==> e in r.server.tracked && e !in v.doubts.off;
  }

  lemma ResetNothing(c: Setting, client: Client)
    ensures Reset(c.reg, client, []) == client
  {
  }

  lemma TickSized(c: Setting, r: Run, delta: real, o: Sending)
    requires StoreOk(c, r.store) && Queues(c, r) && Mirrors(c, r) && ReplicasSized(c, r)
      && Understood(c, r, delta, o)
    ensures var k := ClientTick(c, r, delta, o);
      forall e :: e in k.replicated ==> e in k.store && CompsSized(c.reg, k.store[e])
  {
    hide Queues, Mirrors, AfterDespawns, Reset, NetRecords, ClientTick, DeltaFor, ReplicasSized, CompsSized,
      RegistryOk, Replica, IsHandle, AcceptsForeign, HasNet, Garbles;
    DespawnedSets(c, r, delta, o);
    DespawnedSized(c, r, delta, o);
    ClientTickIs(c, r, delta, o);
    if Reconciles(r.server, delta, c.period) {
      var rs := NetRecords(c.reg, r.store, o.walk);
      ResetMirrors(c, r.store, AfterDespawns(c, r, o), o.walk);
      ResetNothing(c, AfterDespawns(c, r, o));
      forall e | e in NetEntities(c.reg, r.store)
        ensures CompsSized(c.reg, Replica(c.reg, r.store[e]))
      {
        ReplicaSized(c, r.store[e]);
      }
    }
  }

  /** After a tick that sends a full state every networked entity is there as it arrives; after any other tick the
      client is as the despawns left it. */
  lemma ResetOrNot(c: Setting, r: Run, delta: real, o: Sending, e: Entity)
    requires StoreOk(c, r.store) && Queues(c, r) && Mirrors(c, r) && Understood(c, r, delta, o)
    requires e in r.server.tracked
    ensures var k := ClientTick(c, r, delta, o);
      e in r.store
      && if Resets(c, r, delta, o) then e in k.store && k.store[e] == Replica(c.reg, r.store[e])
         else k == AfterDespawns(c, r, o)
  {
    hide StoreOk, Mirrors, AfterDespawns, Reset, NetRecords, ClientTick, DeltaFor, NetType, Garbles;
    ClientTickIs(c, r, delta, o);
    DespawnedSets(c, r, delta, o);
    if Reconciles(r.server, delta, c.period) {
      ResetMirrors(c, r.store, AfterDespawns(c, r, o), o.walk);
      ResetNothing(c, AfterDespawns(c, r, o));
    }
  }

  lemma ShownAfter(c: Setting, r: Run, delta: real, o: Sending, e: Entity)
    requires Shown(AfterTick(c, r, delta, o), e)
    ensures e in r.server.tracked
    ensures !Resets(c, r, delta, o) ==>
      e !in r.doubts.off && e !in r.server.despawns && (Shown(r, e) || e in r.server.spawns)
  {
    hide Resets, ClientTick, AfterTick, TickSends, DoubtsAfter;
    SameBook(c, r, delta, o);
    OffIs(c, r, delta, o, TickSends(c, r, delta));
  }

  lemma TickSynced(c: Setting, r: Run, delta: real, o: Sending, e: Entity, t: TypeId, b: nat)
    requires StoreOk(c, r.store) && Queues(c, r) && Mirrors(c, r) && ReplicasSized(c, r) && ClientInStep(c, r)
      && Understood(c, r, delta, o)
    requires Shown(AfterTick(c, r, delta, o), e)
    requires e in r.store && t in r.store[e] && NetType(c.reg, t) && b < |PlanAt(c.reg, t).intervals|
    requires var v := AfterTick(c, r, delta, o); (e, t, b) !in v.unsent && (e, t, b) !in v.doubts.lost
    ensures Synced(c, r.store, ClientTick(c, r, delta, o).store, e, t, b)
  {
    hide StoreOk, Queues, Mirrors, AfterDespawns, ClientTick, DeltaFor, ReplicasSized, ClientInStep, NetType, PlanAt,
      Synced, AfterTick, NetEntities, Resets, Garbles, DoubtsAfter, LostAfter, StillUnsent, TickSends, Shown, Replica;
    ShownAfter(c, r, delta, o, e);
    ResetOrNot(c, r, delta, o, e);
    SameBook(c, r, delta, o);
    OffIs(c, r, delta, o, TickSends(c, r, delta));
    if Resets(c, r, delta, o) {
      ReplicaSynced(c, r.store, ClientTick(c, r, delta, o).store, e, t, b);
    } else {
      DespawnedSynced(c, r, delta, o, e, t, b);
    }
  }

  lemma TickInStep(c: Setting, r: Run, delta: real, o: Sending)
    requires StoreOk(c, r.store) && Queues(c, r) && Mirrors(c, r) && ReplicasSized(c, r) && ClientInStep(c, r)
      && Understood(c, r, delta, o)
    ensures ClientInStep(c, AfterTick(c, r, delta, o)) && ReplicasSized(c, AfterTick(c, r, delta, o))
  {
    hide StoreOk, Queues, Mirrors, ClientTick, DeltaFor, NetType, PlanAt, Synced, AfterTick, CompsSized, Garbles,
      DoubtsAfter, TickSends, Shown, StillUnsent;
    SameBook(c, r, delta, o);
    TickSized(c, r, delta, o);
    var v := AfterTick(c, r, delta, o);
    forall e, t, b | Shown(v, e) && e in v.store && t in v.store[e] && NetType(c.reg, t)
      && 0 <= b < |PlanAt(c.reg, t).intervals| && (e, t, b) !in v.unsent && (e, t, b) !in v.doubts.lost
      ensures Synced(c, v.store, v.client.store, e, t, b)
    {
      TickSynced(c, r, delta, o, e, t, b);
    }
  }

  lemma LacksAfter(c: Setting, r: Run, delta: real, o: Sending, e: Entity, t: TypeId)
    ensures var v := AfterTick(c, r, delta, o); var full := Resets(c, r, delta, o);
      && (t in Lacks(v, e) <==>
          !full && t in Lacks(r, e) && !GoesOutWhole(r, e)
          && !Reached(TickSends(c, r, delta), Landed(c.reg, o.delta), (e, t)))
      && (t in Keeps(v, e) <==> !full && t in Keeps(r, e) && !GoesOutWhole(r, e))
  {
    hide Resets, ClientTick, AfterTick, TickSends, Garbles, OffAfter, LostAfter, GoesOutWhole, Landed, Reached, Lacks,
      Keeps;
    SameBook(c, r, delta, o);
    LacksIs(r, e, t);
    LacksIs(AfterTick(c, r, delta, o), e, t);
    assert (e, t).0 == e && (e, t).1 == t;
  }

  lemma TickTypes(c: Setting, r: Run, delta: real, o: Sending)
    requires StoreOk(c, r.store) && Queues(c, r) && Mirrors(c, r) && SameTypes(c, r) && Understood(c, r, delta, o)
    ensures SameTypes(c, AfterTick(c, r, delta, o))
  {
    hide StoreOk, Queues, Mirrors, Understood, ClientTick, AfterTick, NetKeys, Lacks, Keeps, Resets, Reached,
      GoesOutWhole, TickSends, Landed, Shown;
    SameBook(c, r, delta, o);
    var v := AfterTick(c, r, delta, o);
    forall e ensures Lacks(v, e) <= NetKeys(c.reg, Lookup(v.store, e)) {
      assert Lacks(r, e) <= NetKeys(c.reg, Lookup(r.store, e));
      forall t | t in Lacks(v, e) ensures t in Lacks(r, e) { LacksAfter(c, r, delta, o, e, t); }
    }
    forall e ensures Keeps(v, e) !! NetKeys(c.reg, Lookup(v.store, e)) {
      assert Keeps(r, e) !! NetKeys(c.reg, Lookup(r.store, e));
      forall t | t in Keeps(v, e) ensures t in Keeps(r, e) { LacksAfter(c, r, delta, o, e, t); }
    }
    forall e | Shown(v, e) && e in v.store && e in v.client.store
      ensures v.client.store[e].Keys == (NetKeys(c.reg, Lookup(v.store, e)) - Lacks(v, e)) + Keeps(v, e)
    {
      forall t
        ensures t in v.client.store[e] <==> t in (NetKeys(c.reg, Lookup(v.store, e)) - Lacks(v, e)) + Keeps(v, e)
      {
        TickTypesAt(c, r, delta, o, e, t);
      }
    }
  }

  lemma TickTypesAt(c: Setting, r: Run, delta: real, o: Sending, e: Entity, t: TypeId)
    requires StoreOk(c, r.store) && Queues(c, r) && Mirrors(c, r) && SameTypes(c, r) && Understood(c, r, delta, o)
    requires Shown(AfterTick(c, r, delta, o), e)
    ensures var v, k := AfterTick(c, r, delta, o), ClientTick(c, r, delta, o);
      e in k.store && (t in k.store[e] <==>
        (t in NetKeys(c.reg, Lookup(r.store, e)) && t !in Lacks(v, e)) || t in Keeps(v, e))
  {
    hide StoreOk, Queues, Mirrors, Understood, ClientTick, AfterTick, Lacks, Keeps, Resets, Reached, NetType, Replica,
      GoesOutWhole, TickSends, Landed, Shown, AfterDespawns;
    ShownAfter(c, r, delta, o, e);
    ResetOrNot(c, r, delta, o, e);
    LacksAfter(c, r, delta, o, e, t);
    if Resets(c, r, delta, o) {
      ReplicaTypes(c.reg, r.store, e, t);
    } else {
      assert Lacks(r, e) <= NetKeys(c.reg, Lookup(r.store, e)) && Keeps(r, e) !! NetKeys(c.reg, Lookup(r.store, e));
      DespawnedTypes(c, r, delta, o, e, t);
    }
  }

  lemma ReplicaTypes(reg: Registry, store: Store, e: Entity, t: TypeId)
    requires e in store
    ensures t in Replica(reg, store[e]) <==> t in NetKeys(reg, Lookup(store, e))
  {
    hide NetType, ReplicaRow;
  }

  lemma TickKeeps(c: Setting, r: Run, delta: real, o: Sending)
    requires Inv(c, r) && Allowed(c, r, Tick(delta, o))
    ensures Inv(c, AfterTick(c, r, delta, o))
  {
    hide StoreOk, Queues, Timed, SendsApart, UnsentWaits, Mirrors, ClientInStep, ReplicasSized, SameTypes, Allowed,
      AfterTick, Garbles, TickSends, DoubtsAfter;
    SameBook(c, r, delta, o);
    OffIs(c, r, delta, o, TickSends(c, r, delta));
    TickQueues(c, r, delta, o);
    TickTimed(c, r, delta, o);
    TickApart(c, r, delta, o);
    TickUnsent(c, r, delta, o);
    if !AfterTick(c, r, delta, o).doubts.garbled {
      TickMirrors(c, r, delta, o);
      TickInStep(c, r, delta, o);
      TickTypes(c, r, delta, o);
    }
  }

  // ------------------------------------------------------------------ whole runs

  lemma StartKeeps(c: Setting, store: Store)
    requires StoreOk(c, store)
    ensures Inv(c, Start(c, store))
  {
    hide RegistryOk, CompsSized, HasNet, AcceptsForeign, IsHandle, BucketSync, PlanAt;
  }

  /** Every run keeps the invariant. */
  lemma {:induction false} RunKeeps(c: Setting, store: Store, acts: seq<Act>)
    requires StoreOk(c, store) && Lawful(c, store, acts)
    ensures Inv(c, RunOf(c, store, acts))
  {
    hide StoreOk, Inv, Allowed, AfterMutation, AfterTick, AfterClear, Start;
    if acts == [] {
      StartKeeps(c, store);
    } else {
      var front, a := acts[..|acts| - 1], acts[|acts| - 1];
      RunKeeps(c, store, front);
      match a {
        case Mutate(m) => MutationKeeps(c, RunOf(c, store, front), m);
        case Tick(delta, o) => TickKeeps(c, RunOf(c, store, front), delta, o);
        case Clear => ClearKeeps(c, RunOf(c, store, front));
      }
    }
  }

  /** Over every run, a bucket of a live tracked component with an unsent write has its component dirty or its entity
      waiting to be spawned, and two sends of one bucket are at least its interval apart unless the entity's throttle
      state was erased between them. */
  lemma NothingForgotten(c: Setting, store: Store, acts: seq<Act>)
    requires StoreOk(c, store) && Lawful(c, store, acts)
    ensures var r := RunOf(c, store, acts);
      && (forall e, t, b ::
        (e, t, b) in r.unsent && e in r.server.tracked && e in r.store && t in r.store[e] && NetType(c.reg, t) ==>
        (e, t) in r.server.dirty || e in r.server.spawns)
      && SendsApart(c, r.sends, r.erasures)
  {
    hide StoreOk, Queues, Timed, SendsApart, Followed, Lawful, RunOf, NetType, PlanAt;
    RunKeeps(c, store, acts);
    var r := RunOf(c, store, acts);
    forall e, t, b | (e, t, b) in r.unsent && e in r.server.tracked && e in r.store && t in r.store[e]
      && NetType(c.reg, t)
      ensures (e, t) in r.server.dirty || e in r.server.spawns
    {
      var u := (e, t, b);
      assert u in r.unsent && u.0 == e && u.1 == t;
    }
  }

  /** After any tick of any run in which no packet was taken for something else, the client has its own entities
      unchanged, and is right about every id that is not off: it replicates it exactly if the server has it networked,
      and each bucket of each networked component reads the same on both sides, was lost, or was last sent less than
      one interval ago. */
  lemma ClientMirrors(c: Setting, store: Store, acts: seq<Act>, delta: real, o: Sending)
    requires StoreOk(c, store) && Lawful(c, store, acts + [Tick(delta, o)])
    requires !RunOf(c, store, acts + [Tick(delta, o)]).doubts.garbled
    ensures var r := RunOf(c, store, acts + [Tick(delta, o)]); var off := r.doubts.off;
      && r.client.replicated - off == NetEntities(c.reg, r.store) - off
      && (forall e :: e in c.home ==> e in r.client.store && r.client.store[e] == c.home[e])
      && forall e, t, b :: e in r.client.replicated - off && e in r.store && t in r.store[e] && NetType(c.reg, t)
                           && 0 <= b < |PlanAt(c.reg, t).intervals| ==>
        || Synced(c, r.store, r.client.store, e, t, b)
        || (e, t, b) in r.doubts.lost
        || exists x :: x in r.sends && x.e == e && x.t == t && x.b == b && Now(r) < x.at + PlanAt(c.reg, t).intervals[b]
  {
    hide StoreOk, Timed, SendsApart, UnsentWaits, ReplicasSized, SameTypes, Allowed, AfterTick, Lawful, RunOf,
      NetType, PlanAt, Synced, DeltaFor, TickSends, DoubtsAfter;
    var all := acts + [Tick(delta, o)];
    LastStep(c, store, acts, delta, o);
    RunKeeps(c, store, acts);
    RunKeeps(c, store, all);
    var before, r := RunOf(c, store, acts), RunOf(c, store, all);
    SameBook(c, before, delta, o);
    forall e, t, b | e in r.client.replicated - r.doubts.off && e in r.store && t in r.store[e] && NetType(c.reg, t)
      && 0 <= b < |PlanAt(c.reg, t).intervals| && (e, t, b) !in r.doubts.lost
      ensures Synced(c, r.store, r.client.store, e, t, b)
        || exists x :: x in r.sends && x.e == e && x.t == t && x.b == b && Now(r) < x.at + PlanAt(c.reg, t).intervals[b]
    {
      if (e, t, b) in r.unsent {
        DueIsSent(c, before, delta, o, e, t, b);
        KeptSends(c, before, delta, o);
      } else {
        assert Shown(r, e);
      }
    }
  }

  /** After any such tick the component set of a replica the client is right about is the networked set of its entity if
      and only if no networked component was removed from it since its last spawn or full state that the client ever
      had, and none was added that no packet has brought since. */
  lemma ReplicaTypesIff(c: Setting, store: Store, acts: seq<Act>, delta: real, o: Sending, e: Entity)
    requires StoreOk(c, store) && Lawful(c, store, acts + [Tick(delta, o)])
    requires !RunOf(c, store, acts + [Tick(delta, o)]).doubts.garbled
    requires var r := RunOf(c, store, acts + [Tick(delta, o)]); e in r.client.replicated - r.doubts.off
    ensures var r := RunOf(c, store, acts + [Tick(delta, o)]);
      && e in r.store && e in r.client.store
      && (r.client.store[e].Keys == NetKeys(c.reg, Lookup(r.store, e)) <==> Keeps(r, e) == {} && Lacks(r, e) == {})
  {
    hide StoreOk, Timed, SendsApart, UnsentWaits, ReplicasSized, Allowed, AfterTick, Lawful, RunOf, NetKeys, HasNet,
      DeltaFor, TickSends, DoubtsAfter, ClientInStep, Lacks, Keeps;
    var all := acts + [Tick(delta, o)];
    LastStep(c, store, acts, delta, o);
    RunKeeps(c, store, all);
    var r := RunOf(c, store, all);
    SameBook(c, RunOf(c, store, acts), delta, o);
    assert Shown(r, e);
    var net, lacks, keeps := NetKeys(c.reg, Lookup(r.store, e)), Lacks(r, e), Keeps(r, e);
    assert lacks <= net && keeps !! net;
    assert r.client.store[e].Keys == (net - lacks) + keeps;
    if r.client.store[e].Keys == net {
      assert forall t :: t in keeps ==> t in (net - lacks) + keeps;
      assert forall t :: t in lacks ==> t in net && t !in (net - lacks) + keeps;
    }
  }

  /** Every delta of the run has counts that fit. */
  ghost predicate Small(acts: seq<Act>) {
    forall i :: 0 <= i < |acts| && acts[i].Tick? ==> Countable(acts[i].o.delta)
  }

  /** Where counts fit nothing is lost and nothing garbled. */
  lemma {:induction false} SmallLosesNothing(c: Setting, store: Store, acts: seq<Act>)
    requires StoreOk(c, store) && Lawful(c, store, acts) && Small(acts)
    ensures var d := RunOf(c, store, acts).doubts; d.lost == {} && !d.garbled
  {
    hide AfterTick, AfterMutation, AfterClear, Start, Inv, StoreOk, Allowed, DoubtsAfter, TickSends;
    if acts == [] {
      StartsRight(c, store);
    } else {
      var front, a := acts[..|acts| - 1], acts[|acts| - 1];
      assert forall i :: 0 <= i < |front| ==> front[i] == acts[i];
      SmallLosesNothing(c, store, front);
      RunKeeps(c, store, front);
      var r := RunOf(c, store, front);
      match a {
        case Mutate(m) => MutatedDoubts(c, r, m);
        case Tick(delta, o) => SmallTick(c, r, delta, o);
        case Clear => ClearedDoubts(r);
      }
    }
  }

  lemma ClearedDoubts(r: Run)
    ensures AfterClear(r).doubts == Doubts(r.doubts.off + r.client.replicated, {}, {}, {}, r.doubts.garbled)
  {
  }

  lemma SmallTick(c: Setting, r: Run, delta: real, o: Sending)
    requires Inv(c, r) && r.doubts.lost == {} && !r.doubts.garbled && Allowed(c, r, Tick(delta, o))
      && Countable(o.delta)
    ensures var d := AfterTick(c, r, delta, o).doubts; d.lost == {} && !d.garbled
  {
    hide StoreOk, Queues, Timed, SendsApart, UnsentWaits, Followed, AfterTick, DoubtsAfter, TickSends, Garbles,
      DeltaFor, IdsOfDelta, Arriving;
    var adv := Advanced(r.server, delta);
    SameBook(c, r, delta, o);
    OffIs(c, r, delta, o, TickSends(c, r, delta));
    DeltaArrivesIff(c, r.store, adv, o.delta);
    forall x | x in TickSends(c, r, delta) ensures x.e in Landed(c.reg, o.delta) {
      assert SentAmong(TickSends(c, r, delta), x.e, x.t, x.b);
      assert Queues(c, r);
      SentIsMerged(c, r, delta, x.e, x.t);
      assert (x.e, x.t).0 == x.e;
      NamedInDelta(c.reg, r.store, adv, o.delta, (x.e, x.t));
    }
  }

  lemma NamedInDelta(reg: Registry, store: Store, s: Server, es: seq<DueEntity>, p: (Entity, TypeId))
    requires DeltaFor(reg, store, s, es) && p in s.dirty && Dues(reg, store, s, p) != []
    ensures p.0 in IdsOfDelta(es)
  {
    hide CompsFor, Dues;
  }

  /** No clear, and no tick while an entity is tracked again and still waits for its despawn. */
  ghost predicate Calm(c: Setting, store: Store, acts: seq<Act>) {
    acts != [] ==>
      && Calm(c, store, acts[..|acts| - 1]) && !acts[|acts| - 1].Clear?
      && var s := RunOf(c, store, acts[..|acts| - 1]).server; (acts[|acts| - 1].Tick? ==> s.tracked !! s.despawns)
  }

  /** Only a clear, or a despawn that overtakes a respawn, puts an id off. */
  lemma {:induction false} CalmIsRight(c: Setting, store: Store, acts: seq<Act>)
    requires Calm(c, store, acts)
    ensures RunOf(c, store, acts).doubts.off == {}
  {
    hide AfterTick, AfterMutation, AfterClear, Start, Calm, DoubtsAfter;
    if acts == [] {
      StartsRight(c, store);
    } else {
      var front, a := acts[..|acts| - 1], acts[|acts| - 1];
      CalmStep(c, store, acts);
      CalmIsRight(c, store, front);
      var r := RunOf(c, store, front);
      match a {
        case Mutate(m) => MutatedDoubts(c, r, m);
        case Tick(delta, o) => SameBook(c, r, delta, o); OffIs(c, r, delta, o, TickSends(c, r, delta));
        case Clear =>
      }
    }
  }

  lemma CalmStep(c: Setting, store: Store, acts: seq<Act>)
    requires Calm(c, store, acts) && acts != []
    ensures Calm(c, store, acts[..|acts| - 1]) && !acts[|acts| - 1].Clear?
    ensures var s := RunOf(c, store, acts[..|acts| - 1]).server; acts[|acts| - 1].Tick? ==> s.tracked !! s.despawns
  {
  }

  lemma StartsRight(c: Setting, store: Store)
    ensures Start(c, store).doubts == NONE
  {
  }

  lemma KeptSends(c: Setting, r: Run, delta: real, o: Sending)
    ensures r.sends <= AfterTick(c, r, delta, o).sends
  {
    hide ClientTick, SendsNow, StillUnsent, TickState, DoubtsAfter;
  }

  lemma LastStep(c: Setting, store: Store, acts: seq<Act>, delta: real, o: Sending)
    requires Lawful(c, store, acts + [Tick(delta, o)])
    ensures Lawful(c, store, acts) && Allowed(c, RunOf(c, store, acts), Tick(delta, o))
    ensures RunOf(c, store, acts + [Tick(delta, o)]) == AfterTick(c, RunOf(c, store, acts), delta, o)
  {
    hide Allowed, AfterTick, AfterMutation, AfterClear;
    assert (acts + [Tick(delta, o)])[..|acts|] == acts;
  }

  /** One more act of a given run. */
  lemma NextRun(c: Setting, store: Store, acts: seq<Act>, n: nat)
    requires n < |acts| && Lawful(c, store, acts[..n]) && Allowed(c, RunOf(c, store, acts[..n]), acts[n])
    ensures Lawful(c, store, acts[..n + 1])
      && RunOf(c, store, acts[..n + 1]) == After(c, RunOf(c, store, acts[..n]), acts[n])
  {
    hide Allowed, After;
    assert acts[..n + 1][..n] == acts[..n];
  }

  /** Despawns go out after spawns: a tick without a full state leaves a client that was right with exactly the tracked
      entities if and only if no tracked entity also waits for its despawn. Otherwise the client loses it, until a full
      state or a later respawn. */
  lemma TickMirrorsIff(c: Setting, r: Run, delta: real, o: Sending)
    requires Inv(c, r) && r.doubts.off == {} && !r.doubts.garbled && Understood(c, r, delta, o)
    requires !Reconciles(r.server, delta, c.period)
    ensures ClientTick(c, r, delta, o).replicated == r.server.tracked <==> r.server.tracked !! r.server.despawns
  {
    hide StoreOk, Queues, Timed, SendsApart, UnsentWaits, Mirrors, ClientInStep, ReplicasSized, SameTypes,
      AfterDespawns, DeltaFor, Garbles;
    ClientTickIs(c, r, delta, o);
    DespawnedSets(c, r, delta, o);
    var k := ClientTick(c, r, delta, o);
    forall e ensures e in k.replicated <==> e in r.server.tracked && e !in r.server.despawns {
      assert e !in r.doubts.off;
    }
    assert k.replicated == r.server.tracked - r.server.despawns;
  }

  // ------------------------------------------------------------------ when a full state is due

  ghost function TickTime(acts: seq<Act>): real {
    if acts == [] then 0.0 else
      TickTime(acts[..|acts| - 1]) + if acts[|acts| - 1].Tick? then acts[|acts| - 1].delta else 0.0
  }

  /** The act at a place is a tick that is due to send a full state. */
  ghost predicate ReconcilesAt(c: Setting, store: Store, acts: seq<Act>, i: nat)
    requires i < |acts|
  {
    acts[i].Tick? && Reconciles(RunOf(c, store, acts[..i]).server, acts[i].delta, c.period)
  }

  /** From place k on the world is not cleared and no full state is due. */
  ghost predicate Waits(c: Setting, store: Store, acts: seq<Act>, k: nat) {
    k <= |acts| && forall i: nat :: k <= i < |acts| ==> !acts[i].Clear? && !ReconcilesAt(c, store, acts, i)
  }

  /** What starts the wait for the next full state: the beginning, a clear, or a tick at which one was due. */
  ghost predicate StartsOver(c: Setting, store: Store, acts: seq<Act>, k: nat) {
    k <= |acts| && (k == 0 || acts[k - 1].Clear? || ReconcilesAt(c, store, acts, k - 1))
  }

  lemma {:induction false} HandleAccum(s: Server, reg: Registry, evs: seq<Event>, left: set<TypeId>)
    requires ClearedEvent !in evs
    ensures HandleAll(s, reg, evs, left).accum == s.accum
  {
    hide NetType, AnyNet;
    if evs != [] { HandleAccum(s, reg, evs[..|evs| - 1], left); }
  }

  lemma {:induction false} WaitedTime(c: Setting, store: Store, acts: seq<Act>, k: nat)
    requires Lawful(c, store, acts) && Waits(c, store, acts, k)
    ensures RunOf(c, store, acts).server.accum == RunOf(c, store, acts[..k]).server.accum + TickTime(acts[k..])
  {
    hide Allowed, Flushed, AfterTick, AfterMutation;
    if k < |acts| {
      var n := |acts| - 1;
      var a, r := acts[n], RunOf(c, store, acts[..n]);
      forall i: nat | k <= i < n ensures !acts[..n][i].Clear? && !ReconcilesAt(c, store, acts[..n], i) {
        assert acts[..n][..i] == acts[..i] && !ReconcilesAt(c, store, acts, i);
      }
      WaitedTime(c, store, acts[..n], k);
      assert acts[..n][..k] == acts[..k] && acts[..n][k..] == acts[k..][..n - k];
      assert !ReconcilesAt(c, store, acts, n);
      if a.Tick? { TickAccum(c, r, a.delta, a.o); } else { MutationAccum(c, r, a.m); }
    } else {
      assert acts[..k] == acts;
    }
  }

  lemma TickAccum(c: Setting, r: Run, delta: real, o: Sending)
    ensures AfterTick(c, r, delta, o).server.accum == if Reconciles(r.server, delta, c.period) then 0.0
      else r.server.accum + delta
  {
    hide Flushed, ClientTick, StillUnsent, SendsNow, DoubtsAfter, Reconciles;
  }

  lemma MutationAccum(c: Setting, r: Run, m: Mutation)
    requires Allowed(c, r, Mutate(m))
    ensures AfterMutation(c, r, m).server.accum == r.server.accum
  {
    hide HandleAll, CompsSized, IsHandle, AcceptsForeign, DoubtsMutated;
    HandleAccum(r.server, c.reg, m.events, TypesIn(m.after));
  }

  /** A full state is due at a tick if and only if the ticks since the last one was due, since the last clear or since
      the beginning, this one included, have taken one reconciliation interval. */
  lemma FullStateDueIff(c: Setting, store: Store, acts: seq<Act>, k: nat, delta: real)
    requires Lawful(c, store, acts) && StartsOver(c, store, acts, k) && Waits(c, store, acts, k)
    ensures Reconciles(RunOf(c, store, acts).server, delta, c.period) <==> TickTime(acts[k..]) + delta >= c.period
  {
    hide Lawful, AfterMutation, AfterTick;
    WaitedTime(c, store, acts, k);
    var before := acts[..k];
    if k > 0 {
      var a := acts[k - 1];
      assert before[..k - 1] == acts[..k - 1] && before[k - 1] == a;
      if a.Tick? { TickAccum(c, RunOf(c, store, acts[..k - 1]), a.delta, a.o); }
    }
    assert RunOf(c, store, before).server.accum == 0.0;
  }
}
