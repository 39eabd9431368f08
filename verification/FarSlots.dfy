/** A server may hand out ids its clients refuse: it has room for 2^32 - 2 slots, and a client takes foreign ids on
    the first 2^24 only. One such entity is enough for every full state to be refused. */
module FarSlots {
  import opened Base
  import opened Schema
  import opened Storage
  import opened StorageLaws
  import opened Operations
  import opened CommandLaws
  import opened Wire
  import opened SnapshotFormat
  import opened Snapshots
  import opened SaveLoad
  import opened SyncPlan
  import opened Packets
  import opened Replicas
  import opened Attempts
  import opened Receiving
  import opened Walks
  import opened Runs

  function Creates(n: nat): seq<Op> {
    seq(n, i => OpCreate)
  }

  ghost predicate Bare(w: World, n: nat) {
    && WorldOk(w) && w.depth == 0 && w.ix.reg == ONE_BYTE && w.slots == Slots(seq(n, i => 0), [], [])
    && forall e :: e in w.ix.loc <==> 1 <= e <= n
  }

  lemma OneMore(w: World, n: nat)
    requires Bare(w, n) && n < U32_LIMIT - 2
    ensures Allowed(w, OpCreate) && Bare(Apply(w, OpCreate), n + 1)
  {
    hide WorldOk, Contents, Operations.Spawn;
    assert NextId(w.slots) == MakeEntity(n, 0) == n + 1;
    CreateOk(w);
    assert Allocate(w.slots).generations == seq(n + 1, i => 0);
    assert {} in w.ix.archs by { EmptyArch(w); }
    SpawnedWorld(w.(slots := Allocate(w.slots)), n + 1);
  }

  lemma SpawnedWorld(w: World, e: Entity)
    requires {} in w.ix.archs
    ensures var v := Operations.Spawn(w, e);
      v.slots == w.slots && v.depth == w.depth && v.ix.reg == w.ix.reg && v.ix.loc.Keys == w.ix.loc.Keys + {e}
  {
  }

  /** Ids come in order while nothing is destroyed. */
  lemma {:induction false} ManyCreated(n: nat)
    requires n <= U32_LIMIT - 2
    ensures AllAllowed(EmptyWorld(ONE_BYTE), Creates(n)) && Bare(Run(EmptyWorld(ONE_BYTE), Creates(n)), n)
  {
    hide Bare, Apply, Allowed, EmptyWorld;
    if n == 0 {
      NoneCreated();
    } else {
      ManyCreated(n - 1);
      assert Creates(n)[..|Creates(n)| - 1] == Creates(n - 1);
      OneMore(Run(EmptyWorld(ONE_BYTE), Creates(n - 1)), n - 1);
    }
  }

  lemma NoneCreated()
    ensures Bare(EmptyWorld(ONE_BYTE), 0)
  {
    EmptyWorldOk(ONE_BYTE);
  }

  function Steps(n: nat): seq<Op> {
    Creates(n) + [OpAdd(n, 1, None)]
  }

  lemma Networked(w: World, n: nat)
    requires Bare(w, n) && 0 < n <= U32_LIMIT - 2
    ensures Allowed(w, OpAdd(n, 1, None))
    ensures var v := Apply(w, OpAdd(n, 1, None));
      Sendable(v.ix) && v.ix.reg == ONE_BYTE && n in NetStore(v.ix.reg, Contents(v.ix))
  {
    hide Coherent, SlotsOk, Contents, AddRaw, NetType;
    var v := AddRaw(w, n, 1, None);
    NoData(w.ix.reg, 1);
    AddRawOk(w, n, 1, None);
    ContentsKeys(w.ix);
    ContentsKeys(v.ix);
    OneByteKnown();
    assert 1 in Contents(v.ix)[n];
    FewLive(v.ix.loc.Keys, n);
  }

  lemma OneByteKnown()
    ensures RegistryOk(ONE_BYTE) && NetType(ONE_BYTE, 1)
  {
    var f := SchemaOf(ONE_BYTE, 1).fields[0];
    assert SchemaOf(ONE_BYTE, 1).fields == [f] && OnWire(f);
  }

  lemma {:induction false} FewLive(live: set<Entity>, n: nat)
    requires n < U32_LIMIT && forall e :: e in live ==> 1 <= e <= n
    ensures |live| <= n && forall e :: e in live ==> IsHandle(e)
  {
    if n == 0 {
      assert forall e :: e !in live;
      assert live == {};
    } else {
      FewLive(live - {n}, n - 1);
      if n in live { assert |live| == |live - {n}| + 1; } else { assert live - {n} == live; }
    }
  }

  /** From the first entity past the foreign limit on, in a run that only creates entities and gives the last one a
      networked component, the full state changes no client, whatever it holds, and neither does the spawn. */
  lemma NeverArrives(n: nat, ks: seq<Key>, client: World, replicated: set<Entity>, order: seq<Entity>)
    requires MAX_FOREIGN_SLOT < n <= U32_LIMIT - 2
    requires var v := Run(EmptyWorld(ONE_BYTE), Steps(n)); AllKeys(v.ix, ks)
    requires client.ix.reg == ONE_BYTE
    ensures AllAllowed(EmptyWorld(ONE_BYTE), Steps(n))
    ensures var v := Run(EmptyWorld(ONE_BYTE), Steps(n));
      && n in NetStore(v.ix.reg, Contents(v.ix)) && FullStateOf(v.ix, ks) != []
      && Received(client, replicated, FullState, FullStateOf(v.ix, ks), order) == (client, replicated)
      && var spawn := EncodeSpawn(NetRecord(ONE_BYTE, n, Contents(v.ix)[n]));
         ValidPacket(ONE_BYTE, Spawn, spawn)
           && Received(client, replicated, Spawn, spawn, order) == (client, replicated)
  {
    hide Bare, Apply, Allowed, EmptyWorld, Contents, Sendable, NetStore, FullStateOf, ParseFullState, ParseSpawn,
      Walk, NetRecords, Acceptable, Run, AllAllowed, TryEntities, AllKeys, EncodeSpawn, NetRecord, Creates, Received,
      EntityFits, ValidPacket, AcceptsForeign;
    var start := EmptyWorld(ONE_BYTE);
    var w := Run(start, Creates(n));
    ManyCreated(n);
    LastStep(start, Creates(n), OpAdd(n, 1, None));
    Networked(w, n);
    var v := Run(start, Steps(n));
    FullStateAccepted(v.ix, ks);
    assert !AcceptsForeign(n) by { Far(n); }
    StoredNet(v.ix, n);
    NetRecordFits(v.ix, n);
    NetRecordId(ONE_BYTE, n, Contents(v.ix)[n]);
    SpawnRefused(client, replicated, NetRecord(ONE_BYTE, n, Contents(v.ix)[n]), order);
    FullStateRefused(client, replicated, FullStateOf(v.ix, ks), order);
  }

  lemma SpawnRefused(w: World, replicated: set<Entity>, r: Record, order: seq<Entity>)
    requires EntityFits(w.ix.reg, r) && !AcceptsForeign(r.id)
    ensures ValidPacket(w.ix.reg, Spawn, EncodeSpawn(r))
      && Received(w, replicated, Spawn, EncodeSpawn(r), order) == (w, replicated)
  {
    hide EntityFits, EncodeSpawn, ParseSpawn, TryRecord, AcceptsForeign;
    SpawnBack(w.ix.reg, r);
    Refused(w, r);
    assert replicated + {} == replicated;
  }

  lemma FullStateRefused(w: World, replicated: set<Entity>, data: Bytes, order: seq<Entity>)
    requires ParseFullState(w.ix.reg, data).Some? && !Acceptable(ParseFullState(w.ix.reg, data).value.value)
    ensures Received(w, replicated, FullState, data, order) == (w, replicated)
  {
    hide ParseFullState, Acceptable, TryEntities, DestroyAbsent, IdsOf;
  }

  lemma Far(n: nat)
    requires MAX_FOREIGN_SLOT < n <= U32_LIMIT - 2
    ensures !AcceptsForeign(n)
  {
    assert Slot(n) == n - 1;
  }

  lemma StoredNet(w: Index, e: Entity)
    requires e in NetStore(w.reg, Contents(w))
    ensures e in Contents(w) && e in w.loc && NetStore(w.reg, Contents(w)) != map[]
  {
    hide Contents, HasNet, Replica;
    ContentsKeys(w);
  }

  lemma Refused(w: World, r: Record)
    requires !AcceptsForeign(r.id)
    ensures TryRecord(w, r) == (w, false)
  {
  }

  lemma LastStep(start: World, ops: seq<Op>, op: Op)
    requires AllAllowed(start, ops)
    ensures Run(start, ops + [op]) == Apply(Run(start, ops), op)
    ensures Allowed(Run(start, ops), op) ==> AllAllowed(start, ops + [op])
  {
    hide Apply, Allowed;
    assert (ops + [op])[..|ops|] == ops;
  }
}
