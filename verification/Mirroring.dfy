/** The packets of a tick, received one by one by a real client world, do what the protocol model says a tick does; so
    what is proved about the modelled client over whole runs holds of the world that receives the packets. */
module Mirroring {
  import opened Base
  import opened Schema
  import opened Storage
  import opened Operations
  import opened CommandLaws
  import opened Wire
  import opened SnapshotFormat
  import opened Snapshots
  import opened SyncPlan
  import opened Packets
  import opened Replicas
  import opened Receiving
  import opened Servers
  import opened ServerLaws
  import opened ServerRuns
  import opened Arrivals
  import opened ServerProofs
  import opened TickProofs
  import opened ClientProofs
  import opened ReplicationLaws
  import opened Delivery

  /** A client's world and replicated set. */
  type Side = (World, set<Entity>)

  /** Packets received one after the other; each comes with the order in which a full state walks what was
      replicated. */
  ghost function ReceiveAll(side: Side, packets: seq<Packet>, orders: seq<seq<Entity>>): Side
    decreases packets
  {
    if packets == [] || |orders| != |packets| then side else
      var n := |packets| - 1;
      var before := ReceiveAll(side, packets[..n], orders[..n]);
      Received(before.0, before.1, packets[n].kind, packets[n].data, orders[n])
  }

  ghost predicate OrdersFor(side: Side, packets: seq<Packet>, orders: seq<seq<Entity>>) {
    && |orders| == |packets|
    && forall k :: 0 <= k < |packets| ==> Elements(orders[k]) == ReceiveAll(side, packets[..k], orders[..k]).1
  }

  /** A world that is what the model says of the client. */
  ghost predicate Plays(c: Setting, side: Side, client: Client) {
    Is(side.0, side.1, client) && side.0.ix.reg == c.reg
  }

  // ------------------------------------------------------------------ lists of packets

  lemma {:induction false} ReceiveMore(side: Side, a: seq<Packet>, b: seq<Packet>, orders: seq<seq<Entity>>)
    requires |orders| == |a| + |b|
    ensures ReceiveAll(side, a + b, orders) == ReceiveAll(ReceiveAll(side, a, orders[..|a|]), b, orders[|a|..])
    decreases |b|
  {
    hide Received;
    if b == [] {
      assert a + b == a && orders[..|a|] == orders;
    } else {
      var n := |b| - 1;
      assert (a + b)[..|a + b| - 1] == a + b[..n];
      ReceiveMore(side, a, b[..n], orders[..|orders| - 1]);
      assert orders[..|orders| - 1][..|a|] == orders[..|a|];
      assert orders[..|orders| - 1][|a|..] == orders[|a|..][..n];
    }
  }

  lemma OrdersSplit(side: Side, a: seq<Packet>, b: seq<Packet>, orders: seq<seq<Entity>>)
    requires OrdersFor(side, a + b, orders)
    ensures OrdersFor(side, a, orders[..|a|]) && OrdersFor(ReceiveAll(side, a, orders[..|a|]), b, orders[|a|..])
  {
    hide Received, ReceiveAll;
    var mid := ReceiveAll(side, a, orders[..|a|]);
    forall k | 0 <= k < |a| ensures Elements(orders[..|a|][k]) == ReceiveAll(side, a[..k], orders[..|a|][..k]).1 {
      assert (a + b)[..k] == a[..k] && orders[..|a|][..k] == orders[..k];
    }
    forall k | 0 <= k < |b|
      ensures Elements(orders[|a|..][k]) == ReceiveAll(mid, b[..k], orders[|a|..][..k]).1
    {
      var m := |a| + k;
      assert (a + b)[..m] == a + b[..k] && orders[..m][..|a|] == orders[..|a|];
      assert orders[..m][|a|..] == orders[|a|..][..k];
      ReceiveMore(side, a, b[..k], orders[..m]);
    }
  }

  lemma ReceiveOne(side: Side, p: Packet, orders: seq<seq<Entity>>)
    requires |orders| == 1
    ensures ReceiveAll(side, [p], orders) == Received(side.0, side.1, p.kind, p.data, orders[0])
  {
    hide Received;
    assert [p][..0] == [] && orders[..0] == [];
    assert ReceiveAll(side, [], []) == side;
  }

  lemma ReceiveLast(side: Side, ps: seq<Packet>, p: Packet, orders: seq<seq<Entity>>)
    requires |orders| == |ps| + 1
    ensures var mid := ReceiveAll(side, ps, orders[..|ps|]);
      ReceiveAll(side, ps + [p], orders) == Received(mid.0, mid.1, p.kind, p.data, orders[|ps|])
  {
    hide Received;
    assert (ps + [p])[..|ps|] == ps;
  }

  // ------------------------------------------------------------------ each kind

  lemma {:induction false} SpawnsReceived(c: Setting, side: Side, client: Client, store: Store, es: seq<Entity>,
                                          orders: seq<seq<Entity>>)
    requires Plays(c, side, client) && StoreOk(c, store)
    requires |orders| == |SpawnPackets(SpawnRecords(c.reg, store, es))|
    ensures var rs := SpawnRecords(c.reg, store, es);
      Plays(c, ReceiveAll(side, SpawnPackets(rs), orders), AllSpawned(c.reg, client, rs))
    decreases es
  {
    hide Is, Received, ReceiveAll, StoreOk, EncodeSpawn, NetRecord, Spawned;
    if es == [] {
      NothingReceived(side, orders);
    } else {
      var front, e := es[..|es| - 1], es[|es| - 1];
      var rs := SpawnRecords(c.reg, store, front);
      if e in store {
        var r := NetRecord(c.reg, e, store[e]);
        assert (rs + [r])[..|rs|] == rs;
        var ps, n := SpawnPackets(rs), |SpawnPackets(rs)|;
        SpawnsReceived(c, side, client, store, front, orders[..n]);
        var mid := ReceiveAll(side, ps, orders[..n]);
        assert SpawnPackets(rs + [r]) == ps + [Packet(Spawn, EncodeSpawn(r))];
        ReceiveLast(side, ps, Packet(Spawn, EncodeSpawn(r)), orders);
        SpawnDelivered(c, mid.0, mid.1, AllSpawned(c.reg, client, rs), store, e, orders[n]);
      } else {
        assert rs + [] == rs;
        SpawnsReceived(c, side, client, store, front, orders);
      }
    }
  }

  lemma DeltaReceived(c: Setting, side: Side, client: Client, store: Store, s: Server, es: seq<DueEntity>,
                      orders: seq<seq<Entity>>)
    requires Plays(c, side, client) && StoreOk(c, store) && DeltaFor(c.reg, store, s, es)
      && |orders| == |DeltaPackets(es)|
    ensures Plays(c, ReceiveAll(side, DeltaPackets(es), orders), Merged(c.reg, client, Arriving(c.reg, es)))
  {
    hide Is, Received, StoreOk, EncodeDelta, DeltaFor, Carried, ParseDelta, ValidPacket, Merged;
    if Carried(es) == [] {
      NothingPacked(c.reg);
      NothingMerged(c.reg, client);
      assert ReceiveAll(side, [], orders) == side;
    } else {
      ReceiveOne(side, Packet(Delta, EncodeDelta(Carried(es))), orders);
      DeltaDelivered(c, side.0, side.1, client, store, s, es, orders[0]);
    }
  }

  lemma {:induction false} DespawnsReceived(c: Setting, side: Side, client: Client, es: seq<Entity>,
                                            orders: seq<seq<Entity>>)
    requires Plays(c, side, client) && (forall e :: e in es ==> IsHandle(e)) && |orders| == |DespawnPackets(es)|
    ensures Plays(c, ReceiveAll(side, DespawnPackets(es), orders), Despawned(client, Elements(es)))
    decreases es
  {
    hide Is, Received, ReceiveAll, EncodeDespawn, IsHandle, Despawned;
    NoneDespawned(client);
    if es == [] {
      NothingReceived(side, orders);
      assert Elements(es) == {};
    } else {
      var front, e := es[..|es| - 1], es[|es| - 1];
      assert es == front + [e] && forall x :: x in front ==> x in es;
      var ps, n := DespawnPackets(front), |DespawnPackets(front)|;
      DespawnsReceived(c, side, client, front, orders[..n]);
      var mid := ReceiveAll(side, ps, orders[..n]);
      ReceiveLast(side, ps, Packet(Despawn, EncodeDespawn(e)), orders);
      DespawnDelivered(mid.0, mid.1, Despawned(client, Elements(front)), e, orders[n]);
      DespawnedMore(client, front, e);
    }
  }

  lemma NoneDespawned(client: Client)
    ensures Despawned(client, {}) == client
  {
  }

  lemma DespawnedMore(client: Client, front: seq<Entity>, e: Entity)
    ensures Despawned(Despawned(client, Elements(front)), {e}) == Despawned(client, Elements(front + [e]))
  {
    var a, b := Elements(front), Elements(front + [e]);
    assert b == a + {e};
    assert client.store - a - {e} == client.store - b && client.replicated - a - {e} == client.replicated - b;
  }

  lemma FullReceived(c: Setting, side: Side, client: Client, store: Store, walk: seq<Entity>, orders: seq<seq<Entity>>)
    requires Plays(c, side, client) && StoreOk(c, store)
    requires Elements(walk) == store.Keys && NoDup(walk) && |walk| < U32_LIMIT
    requires OrdersFor(side, FullPackets(NetRecords(c.reg, store, walk)), orders)
    ensures var rs := NetRecords(c.reg, store, walk);
      Plays(c, ReceiveAll(side, FullPackets(rs), orders), Reset(c.reg, client, rs))
  {
    hide Is, Received, StoreOk, EncodeFullState, NetRecords, StoreOf, Acceptable, IdsOf;
    var rs := NetRecords(c.reg, store, walk);
    if rs == [] {
      assert ReceiveAll(side, [], orders) == side;
    } else {
      var p := Packet(FullState, EncodeFullState(rs));
      ReceiveOne(side, p, orders);
      assert [p][..0] == [] && orders[..0] == [] && ReceiveAll(side, [], []) == side;
      assert FullPackets(rs) == [p] && Elements(orders[0]) == side.1;
      FullStateDelivered(c, side.0, side.1, client, store, walk, orders[0]);
    }
  }

  // ------------------------------------------------------------------ one tick

  ghost predicate DespawnsAreHandles(r: Run) {
    forall e :: e in r.server.despawns ==> IsHandle(e)
  }

  /** A client world that receives the packets of a tick in the order they go out ends as the model says. */
  lemma TickReceived(c: Setting, r: Run, delta: real, o: Sending, side: Side, orders: seq<seq<Entity>>)
    requires StoreOk(c, r.store) && Allowed(c, r, Tick(delta, o)) && DespawnsAreHandles(r)
    requires Plays(c, side, r.client)
      && OrdersFor(side, TickPackets(c.reg, r.store, Reconciles(r.server, delta, c.period), o), orders)
    ensures var packets := TickPackets(c.reg, r.store, Reconciles(r.server, delta, c.period), o);
      Plays(c, ReceiveAll(side, packets, orders), ClientTick(c, r, delta, o))
  {
    hide Plays, Received, ReceiveAll, OrdersFor, StoreOk, SpawnRecords, SpawnPackets, DeltaPackets, DespawnPackets,
      FullPackets, NetRecords, DeltaFor, AllSpawned, Merged, Despawned, Reset, Arriving, IsHandle, Reconciles;
    var spawns := SpawnPackets(SpawnRecords(c.reg, r.store, o.spawned));
    var deltas, despawns := DeltaPackets(o.delta), DespawnPackets(o.despawned);
    var full := if Reconciles(r.server, delta, c.period) then FullPackets(NetRecords(c.reg, r.store, o.walk)) else [];
    var a, b := spawns + deltas, spawns + deltas + despawns;
    assert TickPackets(c.reg, r.store, Reconciles(r.server, delta, c.period), o) == b + full;
    SizesOf(side, b + full, orders);
    var ordersB, ordersA := orders[..|b|], orders[..|b|][..|a|];
    OrdersSplit(side, b, full, orders);
    OrdersSplit(side, a, despawns, ordersB);
    OrdersSplit(side, spawns, deltas, ordersA);
    ReceiveMore(side, b, full, orders);
    ReceiveMore(side, a, despawns, ordersB);
    ReceiveMore(side, spawns, deltas, ordersA);
    var side1 := ReceiveAll(side, spawns, ordersA[..|spawns|]);
    var side2, side3 := ReceiveAll(side, a, ordersA), ReceiveAll(side, b, ordersB);
    var spawned := AllSpawned(c.reg, r.client, SpawnRecords(c.reg, r.store, o.spawned));
    var merged := Merged(c.reg, spawned, Arriving(c.reg, o.delta));
    SpawnsReceived(c, side, r.client, r.store, o.spawned, ordersA[..|spawns|]);
    DeltaReceived(c, side1, spawned, r.store, Advanced(r.server, delta), o.delta, ordersA[|spawns|..]);
    forall e | e in o.despawned ensures IsHandle(e) { assert e in Elements(o.despawned); }
    DespawnsReceived(c, side2, merged, o.despawned, ordersB[|a|..]);
    if Reconciles(r.server, delta, c.period) {
      FullReceived(c, side3, Despawned(merged, Elements(o.despawned)), r.store, o.walk, orders[|b|..]);
    } else {
      NothingReceived(side3, orders[|b|..]);
    }
  }

  lemma SizesOf(side: Side, packets: seq<Packet>, orders: seq<seq<Entity>>)
    requires OrdersFor(side, packets, orders)
    ensures |orders| == |packets|
  {
  }

  lemma NothingReceived(side: Side, orders: seq<seq<Entity>>)
    requires |orders| == 0
    ensures ReceiveAll(side, [], orders) == side
  {
  }

  // ------------------------------------------------------------------ whole runs

  lemma {:induction false} HandlesStay(s: Server, reg: Registry, e: Entity, evs: seq<Event>, left: set<TypeId>)
    requires forall v :: v in evs ==> !v.ClearedEvent? && v.e == e
    ensures HandleAll(s, reg, evs, left).despawns <= s.despawns + {e}
  {
    hide NetType;
    if evs != [] {
      assert evs == evs[..|evs| - 1] + [evs[|evs| - 1]];
      HandlesStay(s, reg, e, evs[..|evs| - 1], left);
    }
  }

  lemma {:induction false} DespawnedWereIds(c: Setting, store: Store, acts: seq<Act>)
    requires Lawful(c, store, acts)
    ensures DespawnsAreHandles(RunOf(c, store, acts))
  {
    hide ClientTick, Seeded, HandleAll, SendsNow, StillUnsent, DoubtsAfter, DoubtsMutated, WrittenBy, IsHandle,
      SendingFor, CompsSized, AcceptsForeign;
    if acts == [] {
      NobodyAtStart(c, store);
    } else {
      var front, a := acts[..|acts| - 1], acts[|acts| - 1];
      DespawnedWereIds(c, store, front);
      var r := RunOf(c, store, front);
      if a.Mutate? {
        HandlesStay(r.server, c.reg, a.m.e, a.m.events, TypesIn(a.m.after));
      }
    }
  }

  lemma NobodyAtStart(c: Setting, store: Store)
    ensures RunOf(c, store, []).server.despawns == {}
  {
  }

  /** A client world that receives every packet of every tick of a run. */
  ghost function ReceiveRun(c: Setting, store: Store, acts: seq<Act>, side: Side, orders: seq<seq<seq<Entity>>>): Side
    requires |orders| == |acts|
    decreases acts
  {
    if acts == [] then side else
      var n, a := |acts| - 1, acts[|acts| - 1];
      var before := ReceiveRun(c, store, acts[..n], side, orders[..n]);
      if a.Tick? then ReceiveAll(before, PacketsOf(c, store, acts), orders[n]) else before
  }

  /** What the last act of a run sends. */
  ghost function PacketsOf(c: Setting, store: Store, acts: seq<Act>): seq<Packet>
    requires acts != []
  {
    var r, a := RunOf(c, store, acts[..|acts| - 1]), acts[|acts| - 1];
    if a.Tick? then TickPackets(c.reg, r.store, Reconciles(r.server, a.delta, c.period), a.o) else []
  }

  /** Every packet comes with an order of what is replicated when it is received. */
  ghost predicate Delivers(c: Setting, store: Store, acts: seq<Act>, side: Side, orders: seq<seq<seq<Entity>>>)
    requires |orders| == |acts|
    decreases acts
  {
    acts == [] || (
      var n := |acts| - 1;
      Delivers(c, store, acts[..n], side, orders[..n])
      && OrdersFor(ReceiveRun(c, store, acts[..n], side, orders[..n]), PacketsOf(c, store, acts), orders[n]))
  }

  /** Over every run the world of a client that receives all packets is what the model says of the client. */
  lemma {:induction false} RunReceived(c: Setting, store: Store, acts: seq<Act>, side: Side,
                                       orders: seq<seq<seq<Entity>>>)
    requires StoreOk(c, store) && Lawful(c, store, acts) && Plays(c, side, Client(c.home, {}))
    requires |orders| == |acts| && Delivers(c, store, acts, side, orders)
    ensures Plays(c, ReceiveRun(c, store, acts, side, orders), RunOf(c, store, acts).client)
    decreases acts
  {
    hide Plays, ReceiveAll, OrdersFor, Allowed, ClientTick, TickPackets, StoreOk, Inv;
    if acts != [] {
      var n, a := |acts| - 1, acts[|acts| - 1];
      RunReceived(c, store, acts[..n], side, orders[..n]);
      var r := RunOf(c, store, acts[..n]);
      if a.Tick? {
        RunKeeps(c, store, acts[..n]);
        StoreStays(c, r);
        DespawnedWereIds(c, store, acts[..n]);
        TickReceived(c, r, a.delta, a.o, ReceiveRun(c, store, acts[..n], side, orders[..n]), orders[n]);
      }
    }
  }

  lemma StoreStays(c: Setting, r: Run)
    requires Inv(c, r)
    ensures StoreOk(c, r.store)
  {
  }

  /** What a client world that receives all packets shows after a tick. */
  lemma WorldMirrors(c: Setting, store: Store, acts: seq<Act>, delta: real, o: Sending, side: Side,
                     orders: seq<seq<seq<Entity>>>)
    requires StoreOk(c, store) && Lawful(c, store, acts + [Tick(delta, o)]) && Plays(c, side, Client(c.home, {}))
    requires |orders| == |acts| + 1 && Delivers(c, store, acts + [Tick(delta, o)], side, orders)
    requires !RunOf(c, store, acts + [Tick(delta, o)]).doubts.garbled
    ensures var r := RunOf(c, store, acts + [Tick(delta, o)]); var off := r.doubts.off;
      var (w, replicated) := ReceiveRun(c, store, acts + [Tick(delta, o)], side, orders); var there := Contents(w.ix);
      && WorldOk(w) && replicated - off == NetEntities(c.reg, r.store) - off
      && (forall e :: e in c.home ==> e in there && there[e] == c.home[e])
      && forall e, t, b :: e in replicated - off && e in r.store && t in r.store[e] && NetType(c.reg, t)
                           && 0 <= b < |PlanAt(c.reg, t).intervals| ==>
        || Synced(c, r.store, there, e, t, b)
        || (e, t, b) in r.doubts.lost
        || exists x :: x in r.sends && x.e == e && x.t == t && x.b == b && Now(r) < x.at + PlanAt(c.reg, t).intervals[b]
  {
    hide WorldOk, RegistryOk, Contents, RunOf, ReceiveRun, Delivers, Lawful, NetEntities, Synced, StoreOk, PlanAt,
      NetType;
    ClientMirrors(c, store, acts, delta, o);
    RunReceived(c, store, acts + [Tick(delta, o)], side, orders);
  }
}
