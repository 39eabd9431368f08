/** A run in which a networked component is removed while another one stays: the client keeps it. */
module Leftovers {
  import opened Base
  import opened Schema
  import opened Storage
  import opened CommandLaws
  import opened Wire
  import opened SnapshotFormat
  import opened Snapshots
  import opened SyncPlan
  import opened Packets
  import opened Replicas
  import opened Servers
  import opened ServerLaws
  import opened ServerRuns
  import opened Arrivals
  import opened ServerProofs
  import opened TickProofs
  import opened ClientProofs
  import opened ReplicationLaws
  import Respawns
  import opened Overflows

  /** The entity once its second component is gone. */
  function Fewer(): Comps {
    map[1 := [0]]
  }

  function Removal(): Mutation {
    Mutation(1, Some(Fewer()), [RemovedEvent(1, 2)])
  }

  ghost function Acts(): seq<Act> {
    [Overflows.Acts(2)[0], Mutate(Removal()), Tick(0.01, Sending([], [], [], [1]))]
  }

  /** One tracked entity about which there is nothing to send. */
  function AtRest(elapsed: real): Server {
    Server({1}, {}, {}, {}, map[], elapsed, elapsed)
  }

  lemma TwoRows()
    ensures Rows(2, 0) == map[1 := [0], 2 := [0]] && CompsSized(Types(2), Fewer())
    ensures NetKeys(Types(2), Some(Rows(2, 0))) == {1, 2} && NetKeys(Types(2), Some(Fewer())) == {1}
  {
    TypesKnown(2, 1);
    TypesKnown(2, 2);
  }

  lemma RemoveStep(r: Run)
    requires r.store == Alone(2, 0) && r.server == AtRest(0.01)
    ensures var c := Over(2);
      && Allowed(c, r, Mutate(Removal()))
      && var v := After(c, r, Mutate(Removal()));
         && v.store == map[1 := Fewer()] && v.server == AtRest(0.01) && v.client == r.client
         && v.doubts.garbled == r.doubts.garbled && v.doubts.off == r.doubts.off
  {
    hide NetType, PlanAt, CompsSized, WrittenBy, HandleAll, NetKeys, Rows;
    TwoRows();
    TypesKnown(2, 1);
    Respawns.OneEvent(r.server, Types(2), RemovedEvent(1, 2), {1});
    assert Fewer().Keys == {1} && RemovedEvent(1, 2) in Removal().events;
    assert Rows(2, 0).Keys == {1, 2} && {1, 2} - {1} == {2};
    assert r.store[1 := Fewer()] == map[1 := Fewer()];
    assert 1 in {1};
  }

  lemma QuietStep(r: Run)
    requires r.store == map[1 := Fewer()] && r.server == AtRest(0.01)
    ensures var c, a := Over(2), Acts()[2];
      Allowed(c, r, a) && var v := After(c, r, a); v.store == r.store && v.client == r.client
  {
    hide NetType, PlanAt, DoubtsAfter, Touched, Arriving, SendsNow, StillUnsent;
    NothingTouched(Types(2), r.store, Advanced(r.server, 0.01));
    NothingArrives(Types(2));
    assert SpawnRecords(Types(2), r.store, []) == [];
    assert Merged(Types(2), r.client, []) == r.client && Despawned(r.client, {}) == r.client;
    assert r.store.Keys == {1} == Elements([1]);
  }

  lemma NothingArrives(reg: Registry)
    ensures Arriving(reg, []) == []
  {
  }

  /** After its spawn the replica has both components. */
  lemma FirstReplica()
    requires Lawful(Over(2), Alone(2, 0), [Overflows.Acts(2)[0]])
    ensures var r := RunOf(Over(2), Alone(2, 0), [Overflows.Acts(2)[0]]);
      r.store == Alone(2, 0) && 1 in r.client.replicated && 1 in r.client.store && r.client.store[1].Keys == {1, 2}
  {
    hide Allowed, After, Inv, StoreOk, AllDues, NetKeys, Rows, NetEntities, Synced, Lacks, Keeps;
    var c, store, a := Over(2), Alone(2, 0), Overflows.Acts(2)[0];
    assert [] + [a] == [a] && [a][..0] == [];
    SpawnStep(2);
    TwoRows();
    RowsSized(2, 0);
    assert Small([a]);
    SmallLosesNothing(c, store, [a]);
    NothingDoubted(c, store, a);
    ClientMirrors(c, store, [], 0.01, a.o);
    ReplicaTypesIff(c, store, [], 0.01, a.o, 1);
  }

  lemma NothingDoubted(c: Setting, store: Store, a: Act)
    requires a.Tick?
    ensures var r := After(c, Start(c, store), a); Keeps(r, 1) == {} && Lacks(r, 1) == {}
  {
    hide ClientTick, TickState, SendsNow, StillUnsent, LostAfter, Landed, Resets, Garbles;
  }

  /** A run of allowed steps after which a replica has a component that its entity on the server has lost. */
  lemma RemovalStays()
    ensures StoreOk(Over(2), Alone(2, 0)) && Lawful(Over(2), Alone(2, 0), Acts())
    ensures var r := RunOf(Over(2), Alone(2, 0), Acts());
      && 1 in r.store && r.store[1].Keys == {1} && 1 in r.client.replicated
      && 1 in r.client.store && r.client.store[1].Keys == {1, 2}
  {
    hide Allowed, After, Inv, StoreOk, Alone, AllDues, NetKeys, Rows;
    var c, acts, store := Over(2), Acts(), Alone(2, 0);
    assert acts[..0] == [] && acts[..3] == acts;
    SpawnStep(2);
    NextRun(c, store, acts, 0);
    assert acts[..1] == [Overflows.Acts(2)[0]];
    FirstReplica();
    RemoveStep(RunOf(c, store, acts[..1]));
    NextRun(c, store, acts, 1);
    QuietStep(RunOf(c, store, acts[..2]));
    NextRun(c, store, acts, 2);
  }
}
