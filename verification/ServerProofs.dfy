/** Every announced change and every tick keeps the server's bookkeeping and its client in step. */
module ServerProofs {
  import opened Base
  import opened Schema
  import opened Storage
  import opened Operations
  import opened CommandLaws
  import opened Wire
  import opened SnapshotFormat
  import opened Snapshots
  import opened SaveLoad
  import opened SyncPlan
  import opened Packets
  import opened Replicas
  import opened Deltas
  import opened Servers
  import opened ServerLaws
  import opened ServerRuns

  // ------------------------------------------------------------------ one batch of events

  /** What a batch about one entity does to the bookkeeping. */
  ghost predicate Summary(reg: Registry, s: Server, u: Server, e: Entity, left: set<TypeId>, evs: seq<Event>) {
    && u.elapsed == s.elapsed && u.accum == s.accum
    && u.tracked == (if AnyNet(reg, left) then s.tracked + {e} else s.tracked - {e})
    && u.spawns == (if e !in s.tracked && AnyNet(reg, left) then s.spawns + {e} else s.spawns)
    && u.despawns == (if e in s.tracked && !AnyNet(reg, left) then s.despawns + {e} else s.despawns)
    && u.next == (
      if e in s.tracked && !AnyNet(reg, left) then (map p | p in s.next && p.0 != e :: s.next[p]) else s.next)
    && (forall p: (Entity, TypeId) :: p.0 != e ==> (p in u.dirty <==> p in s.dirty))
    && (forall t :: (e, t) in u.dirty ==> AnyNet(reg, left) && t in left && NetType(reg, t))
    && (forall t :: AnyNet(reg, left) && e in s.tracked && NetType(reg, t) && Wrote(e, t, evs) ==> (e, t) in u.dirty)
    && forall t :: AnyNet(reg, left) && (e, t) in s.dirty && t in left ==> (e, t) in u.dirty
  }

  lemma BatchIsAbout(before: Option<Comps>, m: Mutation)
    requires Announced(before, m)
    ensures About(m.e, m.events, TypesIn(m.after))
  {
  }

  /** An entity is tracked exactly while it has a networked component. */
  lemma TrackedIffNet(c: Setting, r: Run, e: Entity)
    requires Queues(c, r)
    ensures e in r.server.tracked <==> AnyNet(c.reg, TypesIn(Lookup(r.store, e)))
  {
    hide NetType;
  }

  lemma NetArrives(reg: Registry, before: Option<Comps>, m: Mutation)
    requires Announced(before, m)
    ensures AnyNet(reg, TypesIn(m.after)) ==> AnyNet(reg, TypesIn(before)) || AddedNet(reg, m.events)
    ensures AnyNet(reg, TypesIn(before)) ==> AnyNet(reg, TypesIn(m.after)) || RemovedNet(reg, m.events)
    ensures AddedNet(reg, m.events) ==> AnyNet(reg, TypesIn(m.after))
  {
    hide NetType;
    var old_, new_ := TypesIn(before), TypesIn(m.after);
    if AnyNet(reg, new_) {
      var t :| t in new_ && NetType(reg, t);
      if t !in old_ { assert AddedEvent(m.e, t) in m.events; }
    }
    if AnyNet(reg, old_) {
      var t :| t in old_ && NetType(reg, t);
      if t !in new_ { assert RemovedEvent(m.e, t) in m.events; }
    }
  }

  lemma BatchSummary(c: Setting, r: Run, m: Mutation)
    requires Queues(c, r) && Announced(Lookup(r.store, m.e), m)
    ensures Summary(
      c.reg, r.server, HandleAll(r.server, c.reg, m.events, TypesIn(m.after)), m.e, TypesIn(m.after), m.events)
  {
    hide NetType, AnyNet, AddedNet, RemovedNet, HandleAll;
    var before, left, s := Lookup(r.store, m.e), TypesIn(m.after), r.server;
    BatchIsAbout(before, m);
    TrackedIffNet(c, r, m.e);
    NetArrives(c.reg, before, m);
    var u := HandleAll(s, c.reg, m.events, left);
    if AnyNet(c.reg, left) {
      BatchKeeps(s, c.reg, m.e, m.events, left);
      SummaryOfKept(c, r, m, u);
    } else {
      BatchLoses(s, c.reg, m.e, m.events, left);
      SummaryOfLost(c, r, m, u);
    }
  }

  lemma SummaryOfKept(c: Setting, r: Run, m: Mutation, u: Server)
    requires Queues(c, r) && Announced(Lookup(r.store, m.e), m) && AnyNet(c.reg, TypesIn(m.after))
      && StillTracked(r.server, u, c.reg, m.e, m.events)
    requires m.e in r.server.tracked || AddedNet(c.reg, m.events)
    ensures Summary(c.reg, r.server, u, m.e, TypesIn(m.after), m.events)
  {
    hide NetType, AnyNet, AddedNet, NetEntities;
    var e, left := m.e, TypesIn(m.after);
    forall t | (e, t) in u.dirty ensures t in left && NetType(c.reg, t) {
      assert DirtyAt(r.server, u, c.reg, e, m.events, t);
    }
    forall t | NetType(c.reg, t) && Wrote(e, t, m.events) && e in r.server.tracked ensures (e, t) in u.dirty {
      assert DirtyAt(r.server, u, c.reg, e, m.events, t);
    }
    forall t | (e, t) in r.server.dirty && t in left ensures (e, t) in u.dirty {
      assert DirtyAt(r.server, u, c.reg, e, m.events, t);
    }
  }

  lemma SummaryOfLost(c: Setting, r: Run, m: Mutation, u: Server)
    requires Queues(c, r) && !AnyNet(c.reg, TypesIn(m.after))
    requires u == if m.e in r.server.tracked then Untracked(r.server, m.e) else r.server
    ensures Summary(c.reg, r.server, u, m.e, TypesIn(m.after), m.events)
  {
    hide NetType, AnyNet, NetEntities;
  }

  // ------------------------------------------------------------------ announced changes keep the invariant

  lemma MutatedStore(c: Setting, r: Run, m: Mutation)
    requires StoreOk(c, r.store) && Allowed(c, r, Mutate(m))
    ensures StoreOk(c, AfterMutation(c, r, m).store)
    ensures var store := AfterMutation(c, r, m).store;
      Lookup(store, m.e) == m.after && forall e :: e != m.e ==> Lookup(store, e) == Lookup(r.store, e)
  {
    hide DoubtsMutated, RegistryOk, CompsSized, HandleAll, Announced, AcceptsForeign, IsHandle;
  }

  lemma MutatedQueues(c: Setting, r: Run, m: Mutation)
    requires Queues(c, r) && StoreOk(c, r.store) && Allowed(c, r, Mutate(m))
    ensures Queues(c, AfterMutation(c, r, m))
  {
    hide DoubtsMutated, NetType, HandleAll, StoreOk, Announced, AcceptsForeign, IsHandle, CompsSized, AnyNet;
    var v := AfterMutation(c, r, m);
    BatchSummary(c, r, m);
    MutatedStore(c, r, m);
    forall e ensures e in v.server.tracked <==> e in NetEntities(c.reg, v.store) {
      if e == m.e { NetIsAny(c.reg, v.store, e); } else { NetIsAny(c.reg, v.store, e); NetIsAny(c.reg, r.store, e); }
    }
    forall p | p in v.server.dirty
      ensures p.0 in v.server.tracked && p.0 in v.store && p.1 in v.store[p.0] && NetType(c.reg, p.1)
    {
      DirtyIsThere(c, r, m, p.0, p.1);
    }
  }

  lemma DirtyIsThere(c: Setting, r: Run, m: Mutation, e: Entity, t: TypeId)
    requires Queues(c, r) && StoreOk(c, r.store) && Allowed(c, r, Mutate(m))
      && (e, t) in AfterMutation(c, r, m).server.dirty
    ensures var v := AfterMutation(c, r, m);
      e in v.server.tracked && e in v.store && t in v.store[e] && NetType(c.reg, t)
  {
    hide DoubtsMutated, NetType, HandleAll, StoreOk, Announced, AcceptsForeign, IsHandle, CompsSized, AnyNet,
      NetEntities;
    BatchSummary(c, r, m);
    MutatedStore(c, r, m);
    var v := AfterMutation(c, r, m);
    if e != m.e {
      assert (e, t).0 == e;
      assert (e, t) in r.server.dirty;
      assert Lookup(v.store, e) == Lookup(r.store, e);
    }
  }

  lemma NetIsAny(reg: Registry, store: Store, e: Entity)
    ensures e in NetEntities(reg, store) <==> AnyNet(reg, TypesIn(Lookup(store, e)))
  {
    hide NetType;
  }

  lemma MutatedTimed(c: Setting, r: Run, m: Mutation)
    requires Queues(c, r) && Timed(c, r) && Allowed(c, r, Mutate(m))
    ensures Timed(c, AfterMutation(c, r, m)) && Now(AfterMutation(c, r, m)) == Now(r)
  {
    hide DoubtsMutated, NetType, HandleAll, Announced, AcceptsForeign, IsHandle, CompsSized, AnyNet, PlanAt,
      NetEntities, SendingFor;
    var v := AfterMutation(c, r, m);
    BatchSummary(c, r, m);
    forall p | p in v.server.next ensures p in r.server.next && v.server.next[p] == r.server.next[p]
      && p.0 in v.server.tracked {}
    forall p, b | p in v.server.next && 0 <= b < |PlanAt(c.reg, p.1).intervals|
      ensures Scheduled(c, v, p, b)
    {
      MutatedSchedule(c, r, m, p, b);
    }
    forall x | x in v.throttled ensures SpacedFrom(c, v, x) { assert SpacedFrom(c, r, x); }
    forall x | x in v.sends ensures x.at <= Now(v) && (x in v.throttled || ErasedSince(v.erasures, x, Now(v))) {
      if x in r.throttled {
        if x !in v.throttled { assert (x.e, Now(r)) in v.erasures; }
      } else {
        ErasedMore(r.erasures, v.erasures, x, Now(r), Now(v));
      }
    }
  }

  lemma MutatedSchedule(c: Setting, r: Run, m: Mutation, p: (Entity, TypeId), b: nat)
    requires Queues(c, r) && Timed(c, r) && Allowed(c, r, Mutate(m))
    requires p in AfterMutation(c, r, m).server.next && b < |PlanAt(c.reg, p.1).intervals|
    ensures Scheduled(c, AfterMutation(c, r, m), p, b)
  {
    hide DoubtsMutated, NetType, HandleAll, Announced, AcceptsForeign, IsHandle, CompsSized, AnyNet, PlanAt,
      NetEntities, SendingFor, SpacedFrom, ErasedSince;
    var v := AfterMutation(c, r, m);
    BatchSummary(c, r, m);
    assert Scheduled(c, r, p, b);
    var at := TickAt(Ticks(r.server, p), b);
    if at != 0.0 {
      var x :| x in r.throttled && x.e == p.0 && x.t == p.1 && x.b == b
        && x.at + PlanAt(c.reg, p.1).intervals[b] == r.start + at;
      assert x in v.throttled;
    }
  }

  /** An erasure is never taken back. */
  lemma ErasedMore(a: set<(Entity, real)>, b: set<(Entity, real)>, x: Sent, upTo: real, later: real)
    requires ErasedSince(a, x, upTo) && a <= b && upTo <= later
    ensures ErasedSince(b, x, later)
  {
    var z :| (x.e, z) in a && x.at <= z <= upTo;
    assert (x.e, z) in b;
  }

  /** No new send: the old ones stay apart. */
  lemma ApartStill(c: Setting, sends: set<Sent>, a: set<(Entity, real)>, b: set<(Entity, real)>)
    requires SendsApart(c, sends, a) && a <= b
    ensures SendsApart(c, sends, b)
  {
    hide ErasedSince, PlanAt;
    forall x, y | x in sends && y in sends && x.e == y.e && x.t == y.t && x.b == y.b && x.at < y.at
      ensures SpacedOrErased(c, b, x, y)
    {
      assert SpacedOrErased(c, a, x, y);
      if ErasedSince(a, x, y.at) { ErasedMore(a, b, x, y.at, y.at); }
    }
  }

  lemma MutatedApart(c: Setting, r: Run, m: Mutation)
    requires SendsApart(c, r.sends, r.erasures)
    ensures var v := AfterMutation(c, r, m); SendsApart(c, v.sends, v.erasures)
  {
    hide DoubtsMutated, HandleAll, SendsApart, WrittenBy;
    var v := AfterMutation(c, r, m);
    ApartStill(c, r.sends, r.erasures, v.erasures);
  }

  lemma WrittenAre(reg: Registry, evs: seq<Event>, e: Entity, t: TypeId, b: nat)
    ensures (e, t, b) in WrittenBy(reg, evs) <==> Wrote(e, t, evs) && b < |PlanAt(reg, t).intervals|
  {
    hide PlanAt;
    if AddedEvent(e, t) in evs && b < |PlanAt(reg, t).intervals| {
      assert AddedEvent(e, t) in evs && AddedEvent(e, t).e == e && AddedEvent(e, t).t == t;
    }
    if ChangedEvent(e, t) in evs && b < |PlanAt(reg, t).intervals| {
      assert ChangedEvent(e, t) in evs && ChangedEvent(e, t).e == e && ChangedEvent(e, t).t == t;
    }
    if (e, t, b) in WrittenBy(reg, evs) {
      var v :| v in evs && (v.AddedEvent? || v.ChangedEvent?) && v.e == e && v.t == t
        && b < |PlanAt(reg, v.t).intervals|;
      assert v == AddedEvent(e, t) || v == ChangedEvent(e, t);
    }
  }

  lemma OnlyOwnWritten(reg: Registry, before: Option<Comps>, m: Mutation, u: (Entity, TypeId, nat))
    requires Announced(before, m) && u in WrittenBy(reg, m.events)
    ensures u.0 == m.e && u.1 in TypesIn(m.after)
  {
    WrittenAre(reg, m.events, u.0, u.1, u.2);
  }

  lemma MutatedUnsent(c: Setting, r: Run, m: Mutation)
    requires Queues(c, r) && StoreOk(c, r.store) && UnsentWaits(c, r) && Allowed(c, r, Mutate(m))
    ensures UnsentWaits(c, AfterMutation(c, r, m))
  {
    hide DoubtsMutated, NetType, HandleAll, StoreOk, AcceptsForeign, IsHandle, CompsSized, PlanAt, NetEntities,
      AnyNet, WrittenBy, SendingFor, Announced;
    var v := AfterMutation(c, r, m);
    BatchSummary(c, r, m);
    MutatedStore(c, r, m);
    forall u | u in v.unsent
      ensures u.2 < |PlanAt(c.reg, u.1).intervals|
      ensures u.0 in v.server.tracked && u.0 in v.store && u.1 in v.store[u.0] && NetType(c.reg, u.1) ==>
        (u.0, u.1) in v.server.dirty || u.0 in v.server.spawns
    {
      WrittenAre(c.reg, m.events, u.0, u.1, u.2);
      if u in WrittenBy(c.reg, m.events) {
        OnlyOwnWritten(c.reg, Lookup(r.store, m.e), m, u);
      } else if u.0 != m.e {
        assert Lookup(v.store, u.0) == Lookup(r.store, u.0);
      } else if u.1 in TypesIn(m.after) {
        StaysThere(c.reg, Lookup(r.store, m.e), m, u.1, u.2);
      }
    }
  }

  /** A component that is there after the batch and was not written by it was there before, with the same bytes. */
  lemma StaysThere(reg: Registry, before: Option<Comps>, m: Mutation, t: TypeId, b: nat)
    requires Announced(before, m) && t in TypesIn(m.after) && !Wrote(m.e, t, m.events)
    ensures t in TypesIn(before) && before.value[t] == m.after.value[t]
  {
  }

  lemma MutatedMirrors(c: Setting, r: Run, m: Mutation)
    requires Queues(c, r) && Mirrors(c, r) && Allowed(c, r, Mutate(m))
    ensures Mirrors(c, AfterMutation(c, r, m)) && (ReplicasSized(c, r) ==> ReplicasSized(c, AfterMutation(c, r, m)))
  {
    hide NetType, HandleAll, AcceptsForeign, IsHandle, CompsSized, PlanAt, NetEntities, AnyNet, WrittenBy, SendingFor,
      Announced, NetKeys;
    BatchSummary(c, r, m);
  }

  lemma MutatedInStep(c: Setting, r: Run, m: Mutation)
    requires Queues(c, r) && StoreOk(c, r.store) && ClientInStep(c, r) && Allowed(c, r, Mutate(m))
    ensures ClientInStep(c, AfterMutation(c, r, m))
  {
    hide NetType, HandleAll, StoreOk, AcceptsForeign, IsHandle, CompsSized, PlanAt, NetEntities, AnyNet, WrittenBy,
      SendingFor, Announced, BucketSync, NetKeys;
    var v := AfterMutation(c, r, m);
    BatchSummary(c, r, m);
    MutatedStore(c, r, m);
    forall e, t, b | Shown(v, e) && e in v.store && t in v.store[e] && NetType(c.reg, t)
      && 0 <= b < |PlanAt(c.reg, t).intervals| && (e, t, b) !in v.unsent && (e, t, b) !in v.doubts.lost
      ensures Synced(c, v.store, v.client.store, e, t, b)
    {
      WrittenAre(c.reg, m.events, e, t, b);
      if e == m.e {
        StaysThere(c.reg, Lookup(r.store, e), m, t, b);
      } else {
        assert Lookup(v.store, e) == Lookup(r.store, e);
      }
      assert Shown(r, e);
      assert Synced(c, r.store, r.client.store, e, t, b);
    }
  }

  lemma LacksIs(r: Run, e: Entity, t: TypeId)
    ensures t in Lacks(r, e) <==> (e, t) in r.doubts.novel
    ensures t in Keeps(r, e) <==> (e, t) in r.doubts.stale
  {
    assert (e, t).0 == e && (e, t).1 == t;
  }

  lemma MutatedLacks(c: Setting, r: Run, m: Mutation, e: Entity, t: TypeId)
    ensures var v := AfterMutation(c, r, m);
      var before, after := NetKeys(c.reg, Lookup(r.store, m.e)), NetKeys(c.reg, m.after);
      && (t in Lacks(v, e) <==> if e != m.e then t in Lacks(r, e)
         else t in after && (t in Lacks(r, e) || (t !in before && t !in Keeps(r, e))))
      && (t in Keeps(v, e) <==> if e != m.e then t in Keeps(r, e)
         else t !in after && (t in Keeps(r, e) || (t in before && t !in Lacks(r, e))))
  {
    hide HandleAll, WrittenBy, NetKeys, Lacks, Keeps;
    var v := AfterMutation(c, r, m);
    LacksIs(r, e, t);
    LacksIs(v, e, t);
    assert (e, t).0 == e && (e, t).1 == t;
  }

  /** What the client lacks and keeps follows the component sets. */
  lemma MutatedTypes(c: Setting, r: Run, m: Mutation)
    requires Queues(c, r) && StoreOk(c, r.store) && SameTypes(c, r) && Allowed(c, r, Mutate(m))
    ensures SameTypes(c, AfterMutation(c, r, m))
  {
    hide StoreOk, Queues, Announced, NetKeys, Lacks, Keeps, DoubtsMutated, HandleAll, WrittenBy, IsHandle,
      AcceptsForeign, CompsSized;
    var v := AfterMutation(c, r, m);
    MutatedStore(c, r, m);
    forall e, t ensures t in Lacks(v, e) ==> t in NetKeys(c.reg, Lookup(v.store, e)) {
      MutatedLacks(c, r, m, e, t);
      assert Lacks(r, e) <= NetKeys(c.reg, Lookup(r.store, e));
    }
    forall e, t ensures t in Keeps(v, e) ==> t !in NetKeys(c.reg, Lookup(v.store, e)) {
      MutatedLacks(c, r, m, e, t);
      assert Keeps(r, e) !! NetKeys(c.reg, Lookup(r.store, e));
    }
    forall e | Shown(v, e) && e in v.store && e in v.client.store
      ensures v.client.store[e].Keys == (NetKeys(c.reg, Lookup(v.store, e)) - Lacks(v, e)) + Keeps(v, e)
    {
      ShownBefore(c, r, m, e);
      forall t
        ensures t in v.client.store[e] <==> t in (NetKeys(c.reg, Lookup(v.store, e)) - Lacks(v, e)) + Keeps(v, e)
      {
        MutatedLacks(c, r, m, e, t);
      }
    }
  }

  lemma ShownBefore(c: Setting, r: Run, m: Mutation, e: Entity)
    requires Queues(c, r) && Allowed(c, r, Mutate(m)) && Shown(AfterMutation(c, r, m), e)
    ensures Shown(r, e) && e in r.store && AfterMutation(c, r, m).client == r.client
  {
    hide NetType, HandleAll, AcceptsForeign, IsHandle, CompsSized, PlanAt, AnyNet, WrittenBy, SendingFor, Announced,
      NetKeys;
    BatchSummary(c, r, m);
    assert e in NetEntities(c.reg, r.store);
  }

  lemma MutationKeeps(c: Setting, r: Run, m: Mutation)
    requires Inv(c, r) && Allowed(c, r, Mutate(m))
    ensures Inv(c, AfterMutation(c, r, m))
  {
    hide StoreOk, Queues, Timed, SendsApart, UnsentWaits, Mirrors, ClientInStep, ReplicasSized, SameTypes, Allowed,
      AfterMutation;
    MutatedStore(c, r, m);
    MutatedQueues(c, r, m);
    MutatedTimed(c, r, m);
    MutatedApart(c, r, m);
    MutatedUnsent(c, r, m);
    MutatedDoubts(c, r, m);
    if !r.doubts.garbled {
      MutatedMirrors(c, r, m);
      MutatedInStep(c, r, m);
      MutatedTypes(c, r, m);
    }
  }

  lemma MutatedDoubts(c: Setting, r: Run, m: Mutation)
    ensures var v := AfterMutation(c, r, m).doubts;
      v.off == r.doubts.off && v.lost == r.doubts.lost && v.garbled == r.doubts.garbled
  {
    hide HandleAll, WrittenBy, NetKeys;
  }

  // ------------------------------------------------------------------ clearing the world

  lemma ClearedTimed(c: Setting, r: Run)
    requires Timed(c, r)
    ensures Timed(c, AfterClear(r))
  {
    hide PlanAt, SpacedFrom, Scheduled;
    var v := AfterClear(r);
    forall x | x in v.sends ensures x.at <= Now(v) && ErasedSince(v.erasures, x, Now(v)) {
      if x in r.throttled {
        assert (x.e, Now(r)) in v.erasures;
      } else {
        ErasedMore(r.erasures, v.erasures, x, Now(r), Now(v));
      }
    }
  }

  /** The server starts over; every id the client replicates is off until a full state arrives. */
  lemma ClearKeeps(c: Setting, r: Run)
    requires Inv(c, r)
    ensures Inv(c, AfterClear(r))
  {
    hide RegistryOk, Timed, SendsApart, CompsSized, PlanAt, NetType, ErasedSince, BucketSync, HasNet, IsHandle,
      AcceptsForeign;
    ClearedTimed(c, r);
    ApartStill(c, r.sends, r.erasures, AfterClear(r).erasures);
  }
}
