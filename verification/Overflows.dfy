/** A run in which an entity has more due components than a component count can tell: its delta is lost, and the server
    takes it for sent. */
module Overflows {
  import opened Base
  import opened Schema
  import opened Storage
  import opened CommandLaws
  import opened Wire
  import opened SnapshotFormat
  import opened Snapshots
  import opened SyncPlan
  import opened Packets
  import opened Replicas
  import opened Servers
  import opened ServerLaws
  import opened ServerRuns
  import opened Arrivals
  import opened ServerProofs
  import opened TickProofs
  import opened ClientProofs
  import opened ReplicationLaws

  // ------------------------------------------------------------------ an entity with many components

  function OneByte(): Schema {
    Schema(1, 1, [Field(U8, 0, 1, 1, High, true)], true)
  }

  /** Any number of networked types, each with one field of the fastest throttled tier. */
  function Types(n: nat): Registry {
    seq(n, i => OneByte())
  }

  ghost function Over(n: nat): Setting {
    Setting(Types(n), 100.0, map[])
  }

  ghost function Rows(n: nat, x: Byte): Comps {
    map t | 1 <= t <= n && Registered(Types(n), t) :: [x]
  }

  ghost function Alone(n: nat, x: Byte): Store {
    map[1 := Rows(n, x)]
  }

  ghost function Pairs(n: nat): set<(Entity, TypeId)> {
    set t | 1 <= t <= n :: (1, t)
  }

  lemma TypesKnown(n: nat, t: TypeId)
    requires 1 <= t <= n
    ensures SchemaOf(Types(n), t) == OneByte() && NetType(Types(n), t) && PlanAt(Types(n), t).intervals == [0.05]
  {
    var fields := SchemaOf(Types(n), t).fields;
    assert InBucket(fields[0], 0.05) && UsedInterval(fields, 1, 0.05);
    assert !UsedInterval(fields, 1, 0.0) && !UsedInterval(fields, 1, 0.1) && !UsedInterval(fields, 1, 0.5);
  }

  lemma RowsSized(n: nat, x: Byte)
    requires 0 < n < U16_LIMIT
    ensures CompsSized(Types(n), Rows(n, x)) && StoreOk(Over(n), Alone(n, x))
    ensures NetEntities(Types(n), Alone(n, x)) == {1} && AnyNet(Types(n), Rows(n, x).Keys)
  {
    TypesKnown(n, 1);
    assert 1 in Rows(n, x);
  }

  // ------------------------------------------------------------------ the delta

  ghost function DueAt(n: nat, store: Store, s: Server, t: TypeId): DueComp {
    DueComp(t, Dues(Types(n), store, s, (1, t)))
  }

  ghost function AllDues(n: nat, store: Store, s: Server): seq<DueComp> {
    seq(n, i => DueAt(n, store, s, i + 1))
  }

  /** Everything is dirty and nothing has been sent before. */
  ghost predicate AllDirty(n: nat, s: Server) {
    s.dirty == Pairs(n) && s.next == map[] && s.elapsed >= 0.0
  }

  lemma PairDue(n: nat, x: Byte, s: Server, t: TypeId)
    requires 1 <= t <= n && AllDirty(n, s)
    ensures (1, t) in Touched(Types(n), Alone(n, x), s) && AllDue(Types(n), s, (1, t))
    ensures Dues(Types(n), Alone(n, x), s, (1, t)) != []
  {
    hide NetType, PlanAt;
    var p, store := (1, t), Alone(n, x);
    assert p.0 == 1 && p.1 == t;
    TypesKnown(n, t);
    assert Deliverable(Types(n), store, p);
    DueMeansDues(Types(n), t, [x], Ticks(s, p), s.elapsed, 1, 0);
  }

  lemma PairsDueFor(n: nat, x: Byte, s: Server)
    requires AllDirty(n, s)
    ensures CompsFor(Types(n), Alone(n, x), s, 1, AllDues(n, Alone(n, x), s))
  {
    hide Dues, AllDue, Touched, NetType;
    var store := Alone(n, x);
    var cs := AllDues(n, store, s);
    forall j | 0 <= j < |cs|
      ensures (1, cs[j].t) in s.dirty && cs[j].dues == Dues(Types(n), store, s, (1, cs[j].t)) && cs[j].dues != []
    {
      PairDue(n, x, s, j + 1);
    }
    forall t | (1, t) in s.dirty ensures t in TypesOf(cs) { assert cs[t - 1].t == t; }
  }

  /** What the server builds, and what it believes afterwards: everything is clean. */
  lemma AllFlushed(n: nat, x: Byte, s: Server)
    requires n > 0 && AllDirty(n, s)
    ensures DeltaFor(Types(n), Alone(n, x), s, [DueEntity(1, AllDues(n, Alone(n, x), s))])
    ensures Flushed(Types(n), Alone(n, x), s).dirty == {} && Touched(Types(n), Alone(n, x), s) == Pairs(n)
  {
    hide CompsFor, Dues, AllDue, Touched, Rows;
    var store := Alone(n, x);
    var es := [DueEntity(1, AllDues(n, store, s))];
    PairsDueFor(n, x, s);
    forall p | p in s.dirty ensures p.0 in IdsOfDelta(es) { assert es[0].id == 1 && p.0 == 1; }
    forall p
      ensures p in Touched(Types(n), store, s) <==> p in Pairs(n)
      ensures p in Pairs(n) ==> AllDue(Types(n), s, p)
    {
      if p in Pairs(n) { PairDue(n, x, s, p.1); }
      if p in Touched(Types(n), store, s) { TouchedIsDirty(Types(n), store, s, p); }
    }
  }

  lemma TouchedIsDirty(reg: Registry, store: Store, s: Server, p: (Entity, TypeId))
    requires p in Touched(reg, store, s)
    ensures p in s.dirty
  {
  }

  /** Whatever the number of due components, if a count cannot tell it nothing arrives. */
  lemma DeltaIsLost(n: nat, x: Byte, s: Server)
    requires 256 <= n < U16_LIMIT && AllDirty(n, s)
    ensures var es := [DueEntity(1, AllDues(n, Alone(n, x), s))];
      && DeltaFor(Types(n), Alone(n, x), s, es) && Flushed(Types(n), Alone(n, x), s).dirty == {}
      && Arriving(Types(n), es) == [] && !Garbles(Types(n), es)
  {
    hide DueEntityOk, DeltaFor, Arriving, Flushed, PartOf, Alone, StoreOk;
    var es := [DueEntity(1, AllDues(n, Alone(n, x), s))];
    AllFlushed(n, x, s);
    RowsSized(n, x);
    assert PartOf(Types(n), Alone(n, x), s, es) by { DeltaIsPart(Types(n), Alone(n, x), s, es); }
    DeltaFits(Over(n), Alone(n, x), s, es);
    OneArrivesIff(Types(n), es[0]);
  }

  lemma DeltaIsPart(reg: Registry, store: Store, s: Server, es: seq<DueEntity>)
    requires DeltaFor(reg, store, s, es)
    ensures PartOf(reg, store, s, es)
  {
    hide CompsFor;
  }

  // ------------------------------------------------------------------ a whole run

  function AllWritten(n: nat): seq<Event> {
    seq(n, i => ChangedEvent(1, i + 1))
  }

  /** The state of the server when it builds the delta. */
  ghost function Loaded(n: nat): Server {
    Server({1}, Pairs(n), {}, {}, map[], 1.01, 0.01)
  }

  ghost function Acts(n: nat): seq<Act> {
    [Tick(0.01, Sending([1], [], [], [1])), Mutate(Mutation(1, Some(Rows(n, 1)), AllWritten(n))),
     Tick(1.0, Sending([], [DueEntity(1, AllDues(n, Alone(n, 1), Loaded(n)))], [], [1]))]
  }

  lemma SpawnAllowed(n: nat)
    requires 0 < n < U16_LIMIT
    ensures var c := Over(n); var r := Start(c, Alone(n, 0));
      Allowed(c, r, Acts(n)[0]) && StoreOk(c, Alone(n, 0)) && r.server == Server({1}, {}, {1}, {}, map[], 0.0, 0.0)
  {
    hide NetType, PlanAt, Deliverable, Rows, CompsSized, Pairs, AllDues;
    RowsSized(n, 0);
    OnlyOne(n, 0);
  }

  lemma SpawnStep(n: nat)
    requires 0 < n < U16_LIMIT
    ensures var c := Over(n); var r, a := Start(c, Alone(n, 0)), Acts(n)[0];
      && Allowed(c, r, a) && StoreOk(c, Alone(n, 0))
      && var v := After(c, r, a);
         && v.store == Alone(n, 0) && v.server == Server({1}, {}, {}, {}, map[], 0.01, 0.01) && v.unsent == {}
         && v.doubts.off == {}
  {
    hide PlanAt, ClientTick, Deliverable, DoubtsAfter, Alone, Pairs, AllDues, Allowed, StoreOk, Seeded, TickSends,
      SendsNow, AllDue, Resets;
    var c := Over(n);
    var r := Start(c, Alone(n, 0));
    SpawnAllowed(n);
    NothingTouched(c.reg, r.store, Advanced(r.server, 0.01));
    OffIs(c, r, 0.01, Acts(n)[0].o, TickSends(c, r, 0.01));
    SameBook(c, r, 0.01, Acts(n)[0].o);
  }

  lemma NothingTouched(reg: Registry, store: Store, s: Server)
    requires s.dirty == {}
    ensures Touched(reg, store, s) == {}
  {
  }

  lemma ShownThere(n: nat, r: Run)
    requires 0 < n < U16_LIMIT && Inv(Over(n), r) && !r.doubts.garbled && r.store == Alone(n, 0)
      && r.server == Server({1}, {}, {}, {}, map[], 0.01, 0.01)
    requires r.unsent == {} && r.doubts.off == {} && r.doubts.lost == {}
    ensures 1 in r.client.replicated && Synced(Over(n), Alone(n, 0), r.client.store, 1, 1, 0)
  {
    hide NetType, PlanAt, Synced, Holds, SameTypes, ReplicasSized, StoreOk, Queues, Timed, SendsApart, UnsentWaits;
    TypesKnown(n, 1);
    assert 1 in r.server.tracked - r.server.spawns - r.doubts.off;
    assert Shown(r, 1) && 1 in Rows(n, 0);
    assert (1, 1, 0) !in r.unsent;
  }

  lemma WriteStep(n: nat, r: Run)
    requires 0 < n < U16_LIMIT && Inv(Over(n), r) && r.store == Alone(n, 0)
      && r.server == Server({1}, {}, {}, {}, map[], 0.01, 0.01)
    ensures var c, a := Over(n), Acts(n)[1];
      && Allowed(c, r, a)
      && var v := After(c, r, a);
         v.store == Alone(n, 1) && v.server == Server({1}, Pairs(n), {}, {}, map[], 0.01, 0.01) && v.client == r.client
  {
    hide NetType, PlanAt, CompsSized, HandleAll, WrittenBy, DoubtsMutated, StoreOk, Timed, SendsApart, UnsentWaits,
      Followed, AnyNet, NetEntities, AllDues;
    var c, m := Over(n), Acts(n)[1].m;
    RowsSized(n, 1);
    RowsSized(n, 0);
    AllAnnounced(n);
    BatchSummary(c, r, m);
    var u := HandleAll(r.server, c.reg, m.events, TypesIn(m.after));
    assert r.store[1 := Rows(n, 1)] == Alone(n, 1);
    forall p ensures p in u.dirty <==> p in Pairs(n) {
      if p.0 == 1 {
        assert p == (1, p.1);
        if 1 <= p.1 <= n { TypesKnown(n, p.1); WrittenAll(n, p.1); }
      }
    }
    assert u.dirty == Pairs(n);
  }

  lemma WrittenAll(n: nat, t: TypeId)
    requires 1 <= t <= n
    ensures Wrote(1, t, AllWritten(n))
  {
    assert AllWritten(n)[t - 1] == ChangedEvent(1, t);
  }

  lemma AllAnnounced(n: nat)
    ensures Announced(Some(Rows(n, 0)), Mutation(1, Some(Rows(n, 1)), AllWritten(n)))
  {
    forall t | 1 <= t <= n ensures ChangedEvent(1, t) in AllWritten(n) {
      assert AllWritten(n)[t - 1] == ChangedEvent(1, t);
    }
  }

  lemma LoseStep(n: nat, r: Run)
    requires 256 <= n < U16_LIMIT && r.store == Alone(n, 1)
      && r.server == Server({1}, Pairs(n), {}, {}, map[], 0.01, 0.01)
    ensures var c, a := Over(n), Acts(n)[2];
      && Allowed(c, r, a)
      && var v := After(c, r, a);
         v.store == Alone(n, 1) && v.server.dirty == {} && v.client == r.client && (1, 1, 0) !in v.unsent
  {
    hide NetType, PlanAt, Alone, Rows, AllDues, DeltaFor, Arriving, Pairs, Touched, AllDue, DoubtsAfter, NextTicks;
    var c, o := Over(n), Acts(n)[2].o;
    var adv := Advanced(r.server, 1.0);
    assert adv == Loaded(n);
    DeltaIsLost(n, 1, adv);
    AllFlushed(n, 1, adv);
    TypesKnown(n, 1);
    assert (1, 1) in Pairs(n) by { FirstPair(n); }
    assert r.store.Keys == {1} by { OnlyOne(n, 1); }
    SentNow(c, r.store, adv, r.start, Sent(1, 1, 0, r.start + adv.elapsed));
    FirstDue(adv);
    assert SentAmong(SendsNow(c.reg, r.store, adv, r.start), 1, 1, 0);
    Unmoved(c, r, o);
  }

  lemma FirstPair(n: nat)
    requires n > 0
    ensures (1, 1) in Pairs(n)
  {
  }

  lemma OnlyOne(n: nat, x: Byte)
    ensures Alone(n, x).Keys == {1}
  {
  }

  lemma FirstDue(s: Server)
    requires s.next == map[] && s.elapsed >= 0.0
    ensures DueAtTime(Ticks(s, (1, 1)), 0, s.elapsed)
  {
  }

  /** A tick of which nothing arrives leaves the client as it was. */
  lemma Unmoved(c: Setting, r: Run, o: Sending)
    requires Arriving(c.reg, o.delta) == [] && o.spawned == [] && o.despawned == []
      && !Reconciles(r.server, 1.0, c.period)
    ensures ClientTick(c, r, 1.0, o) == r.client
  {
    hide Arriving;
    assert SpawnRecords(c.reg, r.store, []) == [];
    assert Merged(c.reg, r.client, []) == r.client;
    assert Despawned(r.client, {}) == r.client;
  }

  lemma NotInStep(n: nat, there: Store)
    requires n > 0 && Synced(Over(n), Alone(n, 0), there, 1, 1, 0)
    ensures !Synced(Over(n), Alone(n, 1), there, 1, 1, 0)
  {
    hide PlanOf;
    var reg, copy := Types(n), there[1][1];
    TypesKnown(n, 1);
    PlanKnown(reg, 1);
    var f := SchemaOf(reg, 1).fields[0];
    assert Included(PlanAt(reg, 1).masks[0], 0) by { OnlyField(n); }
    assert IsCopy(f, [0], copy) && copy[0] == 0;
  }

  lemma OnlyField(n: nat)
    requires n > 0
    ensures |PlanAt(Types(n), 1).masks| == 1 && Included(PlanAt(Types(n), 1).masks[0], 0)
  {
    TypesKnown(n, 1);
    assert InBucket(SchemaOf(Types(n), 1).fields[0], 0.05);
  }

  /** An entity with any number of components from 256 on is spawned, all of them are written, and the next tick sends
      what it should. The client keeps the old bytes, and the server has nothing left to send. */
  lemma LostInARun(n: nat)
    requires 256 <= n < U16_LIMIT
    ensures StoreOk(Over(n), Alone(n, 0)) && Lawful(Over(n), Alone(n, 0), Acts(n))
    ensures var r := RunOf(Over(n), Alone(n, 0), Acts(n));
      && r.server.dirty == {} && (1, 1, 0) !in r.unsent
      && 1 in r.client.replicated && !Synced(Over(n), r.store, r.client.store, 1, 1, 0)
  {
    hide Allowed, After, Inv, StoreOk, Alone, AllDues, Synced;
    var c, acts, store := Over(n), Acts(n), Alone(n, 0);
    assert acts[..0] == [] && acts[..3] == acts;
    SpawnStep(n);
    NextRun(c, store, acts, 0);
    var r1 := RunOf(c, store, acts[..1]);
    RunKeeps(c, store, acts[..1]);
    assert Small(acts[..1]);
    SmallLosesNothing(c, store, acts[..1]);
    ShownThere(n, r1);
    WriteStep(n, r1);
    NextRun(c, store, acts, 1);
    var r2 := RunOf(c, store, acts[..2]);
    LoseStep(n, r2);
    NextRun(c, store, acts, 2);
    NotInStep(n, r1.client.store);
  }
}
