/** A run in which an entity loses its last networked component and gains it again before the tick: its despawn
    overtakes its respawn and erases the throttle state of a bucket that has just been sent. */
module Respawns {
  import opened Base
  import opened Schema
  import opened Storage
  import opened CommandLaws
  import opened Wire
  import opened SnapshotFormat
  import opened Snapshots
  import opened SyncPlan
  import opened Packets
  import opened Replicas
  import opened Servers
  import opened ServerLaws
  import opened ServerRuns
  import opened Arrivals
  import opened ServerProofs
  import opened TickProofs
  import opened ClientProofs
  import opened ReplicationLaws

  ghost function Alone(): Setting {
    Setting(ONE_BYTE, 100.0, map[])
  }

  lemma OneByteKnown()
    ensures RegistryOk(ONE_BYTE) && NetType(ONE_BYTE, 1) && PlanAt(ONE_BYTE, 1).intervals == [0.05]
    ensures forall row: Bytes :: |row| == 1 ==> CompsSized(ONE_BYTE, map[1 := row])
    ensures AnyNet(ONE_BYTE, {1}) && !AnyNet(ONE_BYTE, {})
  {
    var fields := SchemaOf(ONE_BYTE, 1).fields;
    assert fields == [Field(U8, 0, 1, 1, High, true)];
    assert InBucket(fields[0], 0.05) && UsedInterval(fields, 1, 0.05);
    assert !UsedInterval(fields, 1, 0.0) && !UsedInterval(fields, 1, 0.1) && !UsedInterval(fields, 1, 0.5);
    assert 1 in {1};
  }

  // ------------------------------------------------------------------ the acts

  function Gains(row: Bytes): Act {
    Mutate(Mutation(1, Some(map[1 := row]), [AddedEvent(1, 1)]))
  }

  function Loses(): Act {
    Mutate(Mutation(1, Some(map[]), [RemovedEvent(1, 1)]))
  }

  function Changes(row: Bytes): Act {
    Mutate(Mutation(1, Some(map[1 := row]), [ChangedEvent(1, 1)]))
  }

  /** Spawned, untracked, tracked again and written, all before the next tick. */
  function Prelude(): seq<Act> {
    [Gains([5]), Tick(0.01, Sending([1], [], [], [1])), Loses(), Gains([6]), Changes([7])]
  }

  ghost function CompsWith(row: Option<Bytes>): Comps {
    if row.Some? then map[1 := row.value] else map[]
  }

  /** Entity 1 with one row, or none, and what the server knows. */
  ghost predicate At(r: Run, row: Option<Bytes>, s: Server) {
    r.store == map[1 := CompsWith(row)] && r.server == s && r.start == 0.0
  }

  lemma OneEvent(s: Server, reg: Registry, ev: Event, left: set<TypeId>)
    ensures HandleAll(s, reg, [ev], left) == Handle(s, reg, ev, left)
  {
    assert [ev][..0] == [];
    assert HandleAll(s, reg, [], left) == s;
  }

  lemma GainsStep(r: Run, row: Bytes)
    requires |row| == 1 && 1 !in r.server.tracked && r.start == 0.0
      && (r.store == map[] || r.store == map[1 := CompsWith(None)])
    ensures Allowed(Alone(), r, Gains(row))
    ensures var v := After(Alone(), r, Gains(row));
      At(v, Some(row), r.server.(tracked := r.server.tracked + {1}, spawns := r.server.spawns + {1}))
        && v.sends == r.sends && v.doubts.off == r.doubts.off
  {
    hide NetType, PlanAt, CompsSized, WrittenBy, HandleAll;
    OneByteKnown();
    OneEvent(r.server, ONE_BYTE, AddedEvent(1, 1), {1});
    assert CompsWith(Some(row)).Keys == {1};
    assert r.store[1 := CompsWith(Some(row))] == map[1 := CompsWith(Some(row))];
    assert Lookup(r.store, 1) == None || Lookup(r.store, 1) == Some(map[]);
    assert AddedEvent(1, 1) in [AddedEvent(1, 1)];
  }

  lemma LosesStep(r: Run, row: Bytes, s: Server)
    requires At(r, Some(row), s) && 1 in s.tracked && s.dirty == {} && s.next == map[]
    ensures Allowed(Alone(), r, Loses())
    ensures var v := After(Alone(), r, Loses());
      At(v, None, s.(tracked := s.tracked - {1}, despawns := s.despawns + {1})) && v.sends == r.sends
        && v.doubts.off == r.doubts.off
  {
    hide NetType, PlanAt, WrittenBy, HandleAll;
    OneByteKnown();
    OneEvent(s, ONE_BYTE, RemovedEvent(1, 1), {});
    assert RemovedEvent(1, 1) in [RemovedEvent(1, 1)];
    assert Lookup(r.store, 1) == Some(CompsWith(Some(row))) && CompsWith(Some(row)).Keys == {1};
    assert CompsWith(None).Keys == {} && r.store[1 := CompsWith(None)] == map[1 := CompsWith(None)];
    assert {} - {(1, 1)} == s.dirty;
    NothingToForget(s);
  }

  lemma NothingToForget(s: Server)
    requires s.dirty == {} && s.next == map[]
    ensures Untracked(s, 1) == s.(tracked := s.tracked - {1}, despawns := s.despawns + {1})
  {
    assert (set p | p in s.dirty && p.0 != 1) == {};
    assert (map p | p in s.next && p.0 != 1 :: s.next[p]) == map[];
  }

  lemma ChangesStep(r: Run, before: Bytes, row: Bytes, s: Server)
    requires At(r, Some(before), s) && 1 in s.tracked && |row| == 1
    ensures Allowed(Alone(), r, Changes(row))
    ensures var v := After(Alone(), r, Changes(row));
      At(v, Some(row), s.(dirty := s.dirty + {(1, 1)})) && v.sends == r.sends && v.doubts.off == r.doubts.off
      && (r.throttled == {} ==> v.throttled == {})
  {
    hide NetType, PlanAt, CompsSized, WrittenBy, HandleAll;
    OneByteKnown();
    OneEvent(s, ONE_BYTE, ChangedEvent(1, 1), {1});
    assert ChangedEvent(1, 1) in [ChangedEvent(1, 1)];
    assert Lookup(r.store, 1) == Some(CompsWith(Some(before)))
      && CompsWith(Some(before)).Keys == {1} == CompsWith(Some(row)).Keys;
    assert r.store[1 := CompsWith(Some(row))] == map[1 := CompsWith(Some(row))];
  }

  /** The first tick: a spawn, and nothing dirty. */
  lemma QuietTick(r: Run, row: Bytes, s: Server)
    requires At(r, Some(row), s) && s == Server({1}, {}, {1}, {}, map[], 0.0, 0.0) && r.doubts.off == {}
    ensures Allowed(Alone(), r, Tick(0.01, Sending([1], [], [], [1])))
    ensures var v := After(Alone(), r, Tick(0.01, Sending([1], [], [], [1])));
      At(v, Some(row), Server({1}, {}, {}, {}, map[], 0.01, 0.01)) && v.doubts.off == {}
  {
    hide NetType, PlanAt, ClientTick, Deliverable;
    var o := Sending([1], [], [], [1]);
    assert Touched(ONE_BYTE, r.store, Advanced(s, 0.01)) == {};
  }

  /** The state before the tick in which the despawn overtakes the respawn. */
  lemma PreludeRuns()
    ensures Lawful(Alone(), map[], Prelude())
    ensures var r := RunOf(Alone(), map[], Prelude());
      At(r, Some([7]), Server({1}, {(1, 1)}, {1}, {1}, map[], 0.01, 0.01)) && r.doubts.off == {}
  {
    hide Allowed, After, At;
    var c, acts := Alone(), Prelude();
    var r0 := RunOf(c, map[], acts[..0]);
    StartsEmpty();
    GainsStep(r0, [5]);
    NextRun(c, map[], acts, 0);
    var r1 := RunOf(c, map[], acts[..1]);
    var s1 := Server({1}, {}, {1}, {}, map[], 0.0, 0.0);
    assert IDLE.(tracked := IDLE.tracked + {1}, spawns := IDLE.spawns + {1}) == s1;
    AtIs(r1, [5], s1);
    QuietTick(r1, [5], s1);
    NextRun(c, map[], acts, 1);
    var r2 := RunOf(c, map[], acts[..2]);
    var s2 := Server({1}, {}, {}, {}, map[], 0.01, 0.01);
    AtIs(r2, [5], s2);
    LosesStep(r2, [5], s2);
    NextRun(c, map[], acts, 2);
    var r3 := RunOf(c, map[], acts[..3]);
    var s3 := Server({}, {}, {}, {1}, map[], 0.01, 0.01);
    assert s2.(tracked := s2.tracked - {1}, despawns := s2.despawns + {1}) == s3;
    GoneIs(r3, s3);
    GainsStep(r3, [6]);
    NextRun(c, map[], acts, 3);
    var r4 := RunOf(c, map[], acts[..4]);
    var s4 := Server({1}, {}, {1}, {1}, map[], 0.01, 0.01);
    assert s3.(tracked := s3.tracked + {1}, spawns := s3.spawns + {1}) == s4;
    AtIs(r4, [6], s4);
    ChangesStep(r4, [6], [7], s4);
    NextRun(c, map[], acts, 4);
    assert s4.(dirty := s4.dirty + {(1, 1)}) == Server({1}, {(1, 1)}, {1}, {1}, map[], 0.01, 0.01);
    assert acts[..5] == acts;
  }

  lemma StartsEmpty()
    ensures var r := RunOf(Alone(), map[], Prelude()[..0]);
      Lawful(Alone(), map[], Prelude()[..0]) && r == Run(map[], IDLE, Client(map[], {}), {}, {}, {}, {}, 0.0, NONE)
  {
    assert NetEntities(ONE_BYTE, map[]) == {};
  }

  lemma AtIs(r: Run, row: Bytes, s: Server)
    requires At(r, Some(row), s)
    ensures r.server == s && r.start == 0.0
  {
  }

  lemma GoneIs(r: Run, s: Server)
    requires At(r, None, s)
    ensures r.server == s && r.start == 0.0 && r.store == map[1 := CompsWith(None)]
  {
  }

  // ------------------------------------------------------------------ the despawn overtakes the respawn

  lemma EmptyStoreOk()
    ensures StoreOk(Alone(), map[])
  {
    OneByteKnown();
  }

  /** What that tick sends: the spawn, the due bucket, the despawn. */
  ghost function Overtaking(r: Run): Act {
    Tick(0.01, Sending([1], [DueEntity(1, [DueComp(1, Dues(ONE_BYTE, r.store, Advanced(r.server, 0.01), (1, 1)))])],
      [1], [1]))
  }

  lemma DeltaGoesOut(r: Run)
    requires At(r, Some([7]), Server({1}, {(1, 1)}, {1}, {1}, map[], 0.01, 0.01))
    ensures Allowed(Alone(), r, Overtaking(r))
  {
    hide NetType, PlanAt, DuesUpTo, TypesOf, IdsOfDelta;
    OneByteKnown();
    var adv, p := Advanced(r.server, 0.01), (1, 1);
    var cs := [DueComp(1, Dues(ONE_BYTE, r.store, adv, p))];
    assert CompsWith(Some([7])).Keys == {1} && p.0 == 1 && p.1 == 1;
    assert Deliverable(ONE_BYTE, r.store, p);
    DueMeansDues(ONE_BYTE, 1, r.store[1][1], Ticks(adv, p), adv.elapsed, 1, 0);
    assert CompsFor(ONE_BYTE, r.store, adv, 1, cs) by {
      assert 1 in TypesOf(cs) by { NamesType(cs); }
    }
    var es := [DueEntity(1, cs)];
    assert 1 in IdsOfDelta(es) by { NamesId(es); }
  }

  lemma NamesType(cs: seq<DueComp>)
    requires cs != []
    ensures cs[0].t in TypesOf(cs)
  {
  }

  lemma NamesId(es: seq<DueEntity>)
    requires es != []
    ensures es[0].id in IdsOfDelta(es)
  {
  }

  /** The client loses an entity the server has networked, in a run where every step is allowed. */
  lemma RespawnLost()
    ensures var r := RunOf(Alone(), map[], Prelude());
      && Lawful(Alone(), map[], Prelude() + [Overtaking(r)])
      && 1 in NetEntities(ONE_BYTE, r.store)
      && 1 !in RunOf(Alone(), map[], Prelude() + [Overtaking(r)]).client.replicated
  {
    hide Allowed, After, At, Inv, Queues, Overtaking, ClientTick, NetEntities;
    var c, acts := Alone(), Prelude();
    var r := RunOf(c, map[], acts);
    PreludeRuns();
    EmptyStoreOk();
    RunKeeps(c, map[], acts);
    SmallLosesNothing(c, map[], acts);
    DeltaGoesOut(r);
    OneMore(c, map[], acts, Overtaking(r));
    OvertakenClient(r);
  }

  lemma OneMore(c: Setting, store: Store, acts: seq<Act>, a: Act)
    requires Lawful(c, store, acts) && Allowed(c, RunOf(c, store, acts), a)
    ensures Lawful(c, store, acts + [a]) && RunOf(c, store, acts + [a]) == After(c, RunOf(c, store, acts), a)
  {
    hide Allowed, After;
    assert (acts + [a])[..|acts|] == acts;
  }

  lemma OvertakenIn(c: Setting, r: Run, delta: real, o: Sending, e: Entity)
    requires Inv(c, r) && r.doubts.off == {} && !r.doubts.garbled && Allowed(c, r, Tick(delta, o))
      && Countable(o.delta) && !Reconciles(r.server, delta, c.period)
    requires e in r.server.tracked && e in r.server.despawns
    ensures e in NetEntities(c.reg, r.store) && e !in ClientTick(c, r, delta, o).replicated
  {
    hide StoreOk, Mirrors, Timed, SendsApart, UnsentWaits, ClientInStep, ReplicasSized, SameTypes, NetEntities,
      ClientTick, DeltaFor, AfterDespawns, Garbles;
    DeltaArrivesIff(c, r.store, Advanced(r.server, delta), o.delta);
    ClientTickIs(c, r, delta, o);
    DespawnedSets(c, r, delta, o);
  }

  lemma OvertakenClient(r: Run)
    requires Inv(Alone(), r) && At(r, Some([7]), Server({1}, {(1, 1)}, {1}, {1}, map[], 0.01, 0.01))
    requires r.doubts.off == {} && !r.doubts.garbled && Allowed(Alone(), r, Overtaking(r))
    ensures 1 in NetEntities(ONE_BYTE, r.store) && 1 !in After(Alone(), r, Overtaking(r)).client.replicated
  {
    hide Inv, NetEntities, ClientTick, Dues, Allowed, AfterTick;
    OvertakenIn(Alone(), r, 0.01, Overtaking(r).o, 1);
    SameBook(Alone(), r, 0.01, Overtaking(r).o);
  }

  /** One write sends the bucket, the next sends it again 0.01 seconds later, a fifth of its interval: the despawn in
      between has erased when it was due. */
  lemma SentTwice()
    ensures var r := RunOf(Alone(), map[], Prelude()); var acts := Prelude() + [Overtaking(r), Changes([8])];
      && Lawful(Alone(), map[], acts)
      && var v := RunOf(Alone(), map[], acts);
         Sent(1, 1, 0, 0.02) in v.sends && Sent(1, 1, 0, 0.03) in TickSends(Alone(), v, 0.01)
           && PlanAt(ONE_BYTE, 1).intervals[0] == 0.05
  {
    hide Allowed, After, At, Inv, Overtaking, PlanAt, TickSends;
    var c, acts := Alone(), Prelude();
    var r := RunOf(c, map[], acts);
    PreludeRuns();
    EmptyStoreOk();
    OneByteKnown();
    DeltaGoesOut(r);
    OneMore(c, map[], acts, Overtaking(r));
    var m := After(c, r, Overtaking(r));
    AfterOvertaking(r);
    ChangesStep(m, [7], [8], Server({1}, {}, {}, {}, map[], 0.02, 0.02));
    OneMore(c, map[], acts + [Overtaking(r)], Changes([8]));
    assert acts + [Overtaking(r)] + [Changes([8])] == acts + [Overtaking(r), Changes([8])];
    var v := After(c, m, Changes([8]));
    assert Server({1}, {}, {}, {}, map[], 0.02, 0.02).(dirty := {} + {(1, 1)}) ==
      Server({1}, {(1, 1)}, {}, {}, map[], 0.02, 0.02);
    SendsAtOnce(v);
  }

  lemma AfterOvertaking(r: Run)
    requires At(r, Some([7]), Server({1}, {(1, 1)}, {1}, {1}, map[], 0.01, 0.01))
    ensures var m := After(Alone(), r, Overtaking(r));
      At(m, Some([7]), Server({1}, {}, {}, {}, map[], 0.02, 0.02)) && Sent(1, 1, 0, 0.02) in m.sends
  {
    hide NetType, PlanAt, Dues, ClientTick, StillUnsent, OffAfter;
    OneByteKnown();
    var adv, p := Advanced(r.server, 0.01), (1, 1);
    assert CompsWith(Some([7])).Keys == {1} && p.0 == 1 && p.1 == 1;
    assert Deliverable(ONE_BYTE, r.store, p);
    SentNow(Alone(), r.store, adv, 0.0, Sent(1, 1, 0, 0.02));
    assert Touched(ONE_BYTE, r.store, adv) == {p};
    assert AllDue(ONE_BYTE, adv, p);
    OvertakenBook(r, adv, p);
  }

  lemma OvertakenBook(r: Run, adv: Server, p: (Entity, TypeId))
    requires r.server == Server({1}, {p}, {1}, {1}, map[], 0.01, 0.01) && adv == Advanced(r.server, 0.01) && p.0 == 1
    requires Touched(ONE_BYTE, r.store, adv) == {p} && AllDue(ONE_BYTE, adv, p)
    ensures TickState(r.server, ONE_BYTE, r.store, 0.01, 100.0) == Server({1}, {}, {}, {}, map[], 0.02, 0.02)
  {
    hide AllDue, Touched, PlanAt;
    var f := Flushed(ONE_BYTE, r.store, adv);
    assert f.dirty == {} && f.next.Keys == {p};
    assert (map q | q in f.next && q.0 !in r.server.despawns :: f.next[q]) == map[];
  }

  lemma SendsAtOnce(v: Run)
    requires At(v, Some([8]), Server({1}, {(1, 1)}, {}, {}, map[], 0.02, 0.02))
    ensures Sent(1, 1, 0, 0.03) in TickSends(Alone(), v, 0.01)
  {
    hide NetType, PlanAt;
    OneByteKnown();
    var adv, p := Advanced(v.server, 0.01), (1, 1);
    assert CompsWith(Some([8])).Keys == {1} && p.0 == 1 && p.1 == 1;
    assert Deliverable(ONE_BYTE, v.store, p);
    SentNow(Alone(), v.store, adv, 0.0, Sent(1, 1, 0, 0.03));
  }

  // ------------------------------------------------------------------ a clear leaves ghosts

  /** Spawn an entity, clear the world, reconcile: the server has nothing left and the client keeps the entity, in a run
      where every step is allowed. */
  lemma ClearedGhost()
    ensures var acts := [Gains([5]), Tick(0.01, Sending([1], [], [], [1])), Clear,
      Tick(100.0, Sending([], [], [], []))];
      && Lawful(Alone(), map[], acts)
      && var r := RunOf(Alone(), map[], acts); r.store == map[] && 1 in r.client.replicated
  {
    hide Allowed, After, At;
    var c, acts := Alone(), [Gains([5]), Tick(0.01, Sending([1], [], [], [1])), Clear,
      Tick(100.0, Sending([], [], [], []))];
    var r0 := RunOf(c, map[], acts[..0]);
    StartsEmpty();
    assert acts[..0] == Prelude()[..0];
    GainsStep(r0, [5]);
    NextRun(c, map[], acts, 0);
    var s1 := Server({1}, {}, {1}, {}, map[], 0.0, 0.0);
    assert IDLE.(tracked := IDLE.tracked + {1}, spawns := IDLE.spawns + {1}) == s1;
    var r1 := RunOf(c, map[], acts[..1]);
    AtIs(r1, [5], s1);
    QuietTick(r1, [5], s1);
    NextRun(c, map[], acts, 1);
    var r2 := RunOf(c, map[], acts[..2]);
    EmptyStoreOk();
    RunKeeps(c, map[], acts[..2]);
    SmallLosesNothing(c, map[], acts[..2]);
    SpawnedThere(r2);
    assert Allowed(c, r2, Clear) by { AnyClear(r2); }
    NextRun(c, map[], acts, 2);
    LastTick(r2);
    NextRun(c, map[], acts, 3);
    assert acts[..4] == acts;
  }

  lemma AnyClear(r: Run)
    ensures Allowed(Alone(), r, Clear)
  {
  }

  lemma SpawnedThere(r: Run)
    requires Inv(Alone(), r) && At(r, Some([5]), Server({1}, {}, {}, {}, map[], 0.01, 0.01))
    requires r.doubts.off == {} && !r.doubts.garbled
    ensures 1 in r.client.replicated
  {
    hide StoreOk, Queues, Timed, SendsApart, UnsentWaits, ClientInStep, ReplicasSized, SameTypes, Holds;
    assert 1 in r.server.tracked - r.server.spawns - r.doubts.off;
  }

  lemma LastTick(r: Run)
    requires 1 in r.client.replicated
    ensures var a := Tick(100.0, Sending([], [], [], [])); var m := After(Alone(), r, Clear);
      Allowed(Alone(), m, a) && After(Alone(), m, a).store == map[] && 1 in After(Alone(), m, a).client.replicated
  {
    hide SendsNow, Touched, StillUnsent;
    var m, o := After(Alone(), r, Clear), Sending([], [], [], []);
    assert AllSpawned(ONE_BYTE, m.client, SpawnRecords(ONE_BYTE, map[], [])) == m.client;
    assert Merged(ONE_BYTE, m.client, []).replicated == m.client.replicated;
    assert NetRecords(ONE_BYTE, map[], []) == [];
  }
}
