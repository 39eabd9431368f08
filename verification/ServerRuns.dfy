/** Runs of a replication server and one directly connected client: every interleaving of announced component changes,
    ticks and clears of the world. What was written and not yet sent, when each bucket was sent, what was sent and did
    not arrive, when a throttle state was erased, and which ids and components the client may be wrong about, is
    recorded beside. */
module ServerRuns {
  import opened Base
  import opened Schema
  import opened Storage
  import opened Operations
  import opened CommandLaws
  import opened Wire
  import opened SnapshotFormat
  import opened Snapshots
  import opened SaveLoad
  import opened SyncPlan
  import opened Packets
  import opened Replicas
  import opened Deltas
  import opened Servers
  import opened ServerLaws

  // ------------------------------------------------------------------ the client

  datatype Client = Client(store: Store, replicated: set<Entity>)

  ghost function Spawned(reg: Registry, c: Client, r: Record): Client {
    if AcceptsForeign(r.id) && r.id !in c.store
      then Client(c.store[r.id := Built(reg, r.parts)], c.replicated + {r.id}) else c
  }

  ghost function AllSpawned(reg: Registry, c: Client, rs: seq<Record>): Client {
    if rs == [] then c else Spawned(reg, AllSpawned(reg, c, rs[..|rs| - 1]), rs[|rs| - 1])
  }

  ghost function Merged(reg: Registry, c: Client, es: seq<DueEntity>): Client {
    Client(MergeDelta(reg, c.store, 2, es), c.replicated + (IdsOfDelta(es) * c.store.Keys))
  }

  ghost function Despawned(c: Client, gone: set<Entity>): Client {
    Client(c.store - gone, c.replicated - gone)
  }

  /** No packet is sent about nobody. */
  ghost function Reset(reg: Registry, c: Client, rs: seq<Record>): Client {
    if rs == [] || !Acceptable(rs) then c else Client((c.store - c.replicated) + StoreOf(reg, rs), IdsOf(rs))
  }

  // ------------------------------------------------------------------ runs

  /** A delta send of one bucket, and when, on a clock that never goes back. */
  datatype Sent = Sent(e: Entity, t: TypeId, b: nat, at: real)

  /** `throttled` are the sends the server still remembers, `erasures` when it forgot those of an entity; `start` is the
      time at which its own clock was last reset. */
  datatype Run = Run(
    store: Store, server: Server, client: Client, unsent: set<(Entity, TypeId, nat)>,
    sends: set<Sent>, throttled: set<Sent>, erasures: set<(Entity, real)>, start: real, doubts: Doubts)

  /** Where the client may be wrong: `off` are ids it may wrongly hold or lack, `lost` the buckets whose last send did
      not arrive, `novel` the networked components a replica still lacks, `stale` those it still has although they were
      removed. `garbled` says that a packet was accepted as something else than what was packed. */
  datatype Doubts = Doubts(
    off: set<Entity>, lost: set<(Entity, TypeId, nat)>, novel: set<(Entity, TypeId)>, stale: set<(Entity, TypeId)>,
    garbled: bool)

  const NONE := Doubts({}, {}, {}, {}, false)

  /** Component types, reconciliation interval, and the client's own entities. */
  datatype Setting = Setting(reg: Registry, period: real, home: Store)

  /** One world operation on one entity, with the events it announces. */
  datatype Mutation = Mutation(e: Entity, after: Option<Comps>, events: seq<Event>)

  datatype Act = Mutate(m: Mutation) | Tick(delta: real, o: Sending) | Clear

  ghost function Now(r: Run): real {
    r.start + r.server.elapsed
  }

  function TypesIn(comps: Option<Comps>): set<TypeId> {
    if comps.Some? then comps.value.Keys else {}
  }

  /** The events are exactly the net additions and removals; every rewritten component is announced as changed. */
  ghost predicate Announced(before: Option<Comps>, m: Mutation) {
    var old_, new_ := TypesIn(before), TypesIn(m.after);
    && (forall v :: v in m.events ==>
      || (v.AddedEvent? && v.e == m.e && v.t in new_ - old_)
      || (v.RemovedEvent? && v.e == m.e && v.t in old_ - new_)
      || (v.ChangedEvent? && v.e == m.e && v.t in old_ * new_))
    && (forall t :: t in new_ - old_ ==> AddedEvent(m.e, t) in m.events)
    && (forall t :: t in old_ - new_ ==> RemovedEvent(m.e, t) in m.events)
    && forall t :: t in old_ * new_ && before.value[t] != m.after.value[t] ==> ChangedEvent(m.e, t) in m.events
  }

  /** Every bucket of every component the events say was written. */
  ghost function WrittenBy(reg: Registry, evs: seq<Event>): set<(Entity, TypeId, nat)> {
    set v, b | v in evs && (v.AddedEvent? || v.ChangedEvent?) && 0 <= b < |PlanAt(reg, v.t).intervals| :: (v.e, v.t, b)
  }

  /** The buckets a delta built in this state carries. */
  ghost function SendsNow(reg: Registry, store: Store, s: Server, start: real): set<Sent> {
    set p, b | p in Touched(reg, store, s) && 0 <= b < |PlanAt(reg, p.1).intervals|
      && DueAtTime(Ticks(s, p), b, s.elapsed) ::
      Sent(p.0, p.1, b, start + s.elapsed)
  }

  /** Losing its last networked component erases an entity's throttle state. */
  ghost function AfterMutation(c: Setting, r: Run, m: Mutation): Run {
    var server := HandleAll(r.server, c.reg, m.events, TypesIn(m.after));
    r.(store := if m.after.Some? then r.store[m.e := m.after.value] else r.store - {m.e},
       server := server,
       unsent := r.unsent + WrittenBy(c.reg, m.events),
       throttled := (set x | x in r.throttled && x.e in server.tracked),
       erasures := r.erasures + if m.e in r.server.tracked && m.e !in server.tracked then {(m.e, Now(r))} else {},
       doubts := DoubtsMutated(c.reg, r, m))
  }

  ghost function NetKeys(reg: Registry, comps: Option<Comps>): set<TypeId> {
    set t | t in TypesIn(comps) && NetType(reg, t)
  }

  /** A networked component gained is one the replica lacks, unless it still has it from before; one lost is one the
      replica still has, unless it never had it. */
  ghost function DoubtsMutated(reg: Registry, r: Run, m: Mutation): Doubts {
    var d, before, after := r.doubts, NetKeys(reg, Lookup(r.store, m.e)), NetKeys(reg, m.after);
    d.(novel := (set p | p in d.novel && (p.0 != m.e || p.1 in after))
         + (set t | t in after - before && (m.e, t) !in d.stale :: (m.e, t)),
       stale := (set p | p in d.stale && (p.0 != m.e || p.1 !in after))
         + (set t | t in before - after && (m.e, t) !in d.novel :: (m.e, t)))
  }

  /** `clear` tells nobody entity by entity: the server starts over and the client keeps what it has. */
  ghost function AfterClear(r: Run): Run {
    Run(map[], Handle(r.server, [], ClearedEvent, {}), r.client, {},
        r.sends, {}, r.erasures + (set x | x in r.throttled :: (x.e, Now(r))), Now(r),
        Doubts(r.doubts.off + r.client.replicated, {}, {}, {}, r.doubts.garbled))
  }

  /** Spawned in the coming tick: whole entities go out. */
  ghost predicate GoesOutWhole(r: Run, e: Entity) {
    e in r.server.spawns && e in r.store
  }

  ghost predicate SentAmong(sent: set<Sent>, e: Entity, t: TypeId, b: nat) {
    exists x :: x in sent && x.e == e && x.t == t && x.b == b
  }

  /** What has just been sent: whole entities by spawns, due buckets by the delta. */
  ghost function StillUnsent(r: Run, sent: set<Sent>): set<(Entity, TypeId, nat)> {
    set u | u in r.unsent && !GoesOutWhole(r, u.0) && !SentAmong(sent, u.0, u.1, u.2)
  }

  ghost function ClientTick(c: Setting, r: Run, delta: real, o: Sending): Client {
    var spawned := AllSpawned(c.reg, r.client, SpawnRecords(c.reg, r.store, o.spawned));
    var merged := Merged(c.reg, spawned, Arriving(c.reg, o.delta));
    var left := Despawned(merged, Elements(o.despawned));
    if Reconciles(r.server, delta, c.period) then Reset(c.reg, left, NetRecords(c.reg, r.store, o.walk)) else left
  }

  /** The entities whose part of a delta arrives. */
  ghost function Landed(reg: Registry, es: seq<DueEntity>): set<Entity> {
    IdsOfDelta(Arriving(reg, es))
  }

  /** A receiver that accepts a delta as something else than what was packed. */
  predicate Garbles(reg: Registry, es: seq<DueEntity>) {
    Arriving(reg, es) != [] && Arriving(reg, es) != Carried(es)
  }

  ghost predicate Resets(c: Setting, r: Run, delta: real, o: Sending) {
    Reconciles(r.server, delta, c.period) && NetRecords(c.reg, r.store, o.walk) != []
  }

  /** A despawn puts an id right when the server has let go of it, and wrong when the server tracks it again. */
  ghost function OffAfter(r: Run): set<Entity> {
    (r.doubts.off - r.server.despawns) + (r.server.tracked * r.server.despawns)
  }

  /** A later send makes up for a lost one, if it arrives; a spawn makes up for all of an entity. */
  ghost function LostAfter(reg: Registry, r: Run, sent: set<Sent>, landed: set<Entity>): set<(Entity, TypeId, nat)> {
    (set u | u in r.doubts.lost && !GoesOutWhole(r, u.0) && !SentAmong(sent, u.0, u.1, u.2))
      + (set x | x in sent && x.e !in landed :: (x.e, x.t, x.b))
  }

  ghost predicate Reached(sent: set<Sent>, landed: set<Entity>, p: (Entity, TypeId)) {
    p.0 in landed && exists b :: SentAmong(sent, p.0, p.1, b)
  }

  /** A full state puts everything right that was not garbled. */
  ghost function DoubtsAfter(c: Setting, r: Run, delta: real, o: Sending, sent: set<Sent>): Doubts {
    var garbled := r.doubts.garbled || Garbles(c.reg, o.delta);
    if Resets(c, r, delta, o) then NONE.(garbled := garbled) else
      var landed := Landed(c.reg, o.delta);
      Doubts(OffAfter(r), LostAfter(c.reg, r, sent, landed),
             (set p | p in r.doubts.novel && !GoesOutWhole(r, p.0) && !Reached(sent, landed, p)),
             (set p | p in r.doubts.stale && !GoesOutWhole(r, p.0)), garbled)
  }

  /** Despawns erase the throttle state of their entities, tracked again or not. */
  ghost function AfterTick(c: Setting, r: Run, delta: real, o: Sending): Run {
    var now := SendsNow(c.reg, r.store, Advanced(r.server, delta), r.start);
    Run(r.store, TickState(r.server, c.reg, r.store, delta, c.period), ClientTick(c, r, delta, o), StillUnsent(r, now),
        r.sends + now,
        (set x | x in r.throttled + now && x.e !in r.server.despawns),
        r.erasures + (set e | e in r.server.despawns :: (e, Now(r) + delta)),
        r.start,
        DoubtsAfter(c, r, delta, o, now))
  }

  ghost function After(c: Setting, r: Run, a: Act): Run {
    match a
    case Mutate(m) => AfterMutation(c, r, m)
    case Tick(delta, o) => AfterTick(c, r, delta, o)
    case Clear => AfterClear(r)
  }

  /** What the protocol relies on: ids the client can accept and does not use itself. */
  ghost predicate Allowed(c: Setting, r: Run, a: Act) {
    match a
    case Mutate(m) =>
      && IsHandle(m.e) && AcceptsForeign(m.e) && m.e !in c.home
      && Announced(Lookup(r.store, m.e), m) && (m.after.Some? ==> CompsSized(c.reg, m.after.value))
    case Tick(delta, o) => delta >= 0.0 && SendingFor(c.reg, r.store, r.server, delta, o) && |o.walk| < U32_LIMIT
    case Clear => true
  }

  ghost function NetEntities(reg: Registry, store: Store): set<Entity> {
    set e | e in store && HasNet(reg, store[e])
  }

  /** `seed_from_world`. */
  ghost function Seeded(reg: Registry, store: Store): Server {
    IDLE.(tracked := NetEntities(reg, store), spawns := NetEntities(reg, store))
  }

  ghost function Start(c: Setting, store: Store): Run {
    Run(store, Seeded(c.reg, store), Client(c.home, {}), {}, {}, {}, {}, 0.0, NONE)
  }

  ghost function RunOf(c: Setting, store: Store, acts: seq<Act>): Run {
    if acts == [] then Start(c, store) else After(c, RunOf(c, store, acts[..|acts| - 1]), acts[|acts| - 1])
  }

  ghost predicate Lawful(c: Setting, store: Store, acts: seq<Act>) {
    acts != [] ==>
      Lawful(c, store, acts[..|acts| - 1])
      && Allowed(c, RunOf(c, store, acts[..|acts| - 1]), acts[|acts| - 1])
  }

  // ------------------------------------------------------------------ what every step keeps

  /** Fewer than 2^16 component types, so that the counts of spawns and full states fit. */
  ghost predicate StoreOk(c: Setting, store: Store) {
    RegistryOk(c.reg) && |c.reg| < U16_LIMIT && forall e :: e in store ==>
      IsHandle(e) && AcceptsForeign(e) && e !in c.home && CompsSized(c.reg, store[e])
  }

  ghost predicate Queues(c: Setting, r: Run) {
    && r.server.tracked == NetEntities(c.reg, r.store)
    && (forall p :: p in r.server.dirty ==>
       p.0 in r.server.tracked && p.0 in r.store && p.1 in r.store[p.0] && NetType(c.reg, p.1))
    && r.server.spawns <= r.server.tracked + r.server.despawns
    && r.server.tracked * r.server.despawns <= r.server.spawns
    && r.server.despawns !! c.home.Keys && r.server.elapsed >= 0.0
  }

  /** A bucket is next due one interval after the last send the server remembers, and at once if it remembers none;
      a send it does not remember has been erased since. */
  ghost predicate Timed(c: Setting, r: Run) {
    && (forall p :: p in r.server.next ==> p.0 in r.server.tracked)
    && (forall p, b :: p in r.server.next && 0 <= b < |PlanAt(c.reg, p.1).intervals| ==> Scheduled(c, r, p, b))
    && (forall x :: x in r.throttled ==> x in r.sends && x.e in r.server.tracked && SpacedFrom(c, r, x))
    && forall x :: x in r.sends ==> x.at <= Now(r) && (x in r.throttled || ErasedSince(r.erasures, x, Now(r)))
  }

  ghost predicate Scheduled(c: Setting, r: Run, p: (Entity, TypeId), b: nat)
    requires b < |PlanAt(c.reg, p.1).intervals|
  {
    var at := TickAt(Ticks(r.server, p), b);
    at == 0.0 || exists x :: x in r.throttled && x.e == p.0 && x.t == p.1 && x.b == b
                             && x.at + PlanAt(c.reg, p.1).intervals[b] == r.start + at
  }

  ghost predicate SpacedFrom(c: Setting, r: Run, x: Sent) {
    && x.b < |PlanAt(c.reg, x.t).intervals|
    && r.start + TickAt(Ticks(r.server, (x.e, x.t)), x.b) >= x.at + PlanAt(c.reg, x.t).intervals[x.b]
  }

  ghost predicate ErasedSince(erasures: set<(Entity, real)>, x: Sent, upTo: real) {
    exists z :: (x.e, z) in erasures && x.at <= z <= upTo
  }

  /** Two sends of one bucket are at least its interval apart, or the entity's throttle state was erased between
      them. */
  ghost predicate SendsApart(c: Setting, sends: set<Sent>, erasures: set<(Entity, real)>) {
    forall x, y :: x in sends && y in sends && x.e == y.e && x.t == y.t && x.b == y.b && x.at < y.at ==>
      SpacedOrErased(c, erasures, x, y)
  }

  ghost predicate SpacedOrErased(c: Setting, erasures: set<(Entity, real)>, x: Sent, y: Sent) {
    && x.b < |PlanAt(c.reg, x.t).intervals|
    && (y.at >= x.at + PlanAt(c.reg, x.t).intervals[x.b] || ErasedSince(erasures, x, y.at))
  }

  /** An unsent bucket of a live tracked component waits in the dirty set or with its entity's spawn. */
  ghost predicate UnsentWaits(c: Setting, r: Run) {
    forall u :: u in r.unsent ==>
      && u.2 < |PlanAt(c.reg, u.1).intervals|
      && (u.0 in r.server.tracked && u.0 in r.store && u.1 in r.store[u.0] && NetType(c.reg, u.1) ==>
        (u.0, u.1) in r.server.dirty || u.0 in r.server.spawns)
  }

  /** The client holds its own entities and what it replicates, nothing else. */
  ghost predicate Holds(c: Setting, client: Client) {
    && client.store.Keys == client.replicated + c.home.Keys && client.replicated !! c.home.Keys
    && forall e :: e in c.home ==> client.store[e] == c.home[e]
  }

  /** Apart from the ids that are off, the client replicates what was spawned or still waits for its despawn. */
  ghost predicate Mirrors(c: Setting, r: Run) {
    && Holds(c, r.client)
    && r.client.replicated - r.doubts.off <= (r.server.tracked - r.server.spawns) + r.server.despawns
    && r.server.tracked - r.server.spawns - r.doubts.off <= r.client.replicated
  }

  /** A spawned entity the client is not wrong about. */
  ghost predicate Shown(r: Run, e: Entity) {
    e in r.server.tracked && e !in r.server.spawns && e !in r.doubts.off
  }

  /** Every bucket of a spawned entity without an unsent write or a lost send reads the same on both sides. */
  ghost predicate ClientInStep(c: Setting, r: Run) {
    forall e, t, b | Shown(r, e) && e in r.store && t in r.store[e] && NetType(c.reg, t)
      && 0 <= b < |PlanAt(c.reg, t).intervals| && (e, t, b) !in r.unsent && (e, t, b) !in r.doubts.lost ::
      Synced(c, r.store, r.client.store, e, t, b)
  }

  /** What the replica of one entity still lacks, and what it should not have any more. */
  ghost function Lacks(r: Run, e: Entity): set<TypeId> {
    set p | p in r.doubts.novel && p.0 == e :: p.1
  }

  ghost function Keeps(r: Run, e: Entity): set<TypeId> {
    set p | p in r.doubts.stale && p.0 == e :: p.1
  }

  /** The component set of a replica is the networked set, less what it lacks, and what it keeps. */
  ghost predicate SameTypes(c: Setting, r: Run) {
    && (forall e :: Lacks(r, e) <= NetKeys(c.reg, Lookup(r.store, e)))
    && (forall e :: Keeps(r, e) !! NetKeys(c.reg, Lookup(r.store, e)))
    && forall e :: Shown(r, e) && e in r.store && e in r.client.store ==>
      r.client.store[e].Keys == (NetKeys(c.reg, Lookup(r.store, e)) - Lacks(r, e)) + Keeps(r, e)
  }

  ghost predicate Synced(c: Setting, here: Store, there: Store, e: Entity, t: TypeId, b: nat) {
    e in here && t in here[e] && e in there && t in there[e] && BucketSync(c.reg, t, b, here[e][t], there[e][t])
  }

  ghost predicate ReplicasSized(c: Setting, r: Run) {
    forall e :: e in r.client.replicated && e in r.client.store ==> CompsSized(c.reg, r.client.store[e])
  }

  /** What the client's side keeps, as long as every packet was understood as it was packed. */
  ghost predicate Followed(c: Setting, r: Run) {
    Mirrors(c, r) && ReplicasSized(c, r) && ClientInStep(c, r) && SameTypes(c, r)
  }

  ghost predicate Inv(c: Setting, r: Run) {
    && StoreOk(c, r.store) && Queues(c, r) && Timed(c, r) && SendsApart(c, r.sends, r.erasures) && UnsentWaits(c, r)
    && (!r.doubts.garbled ==> Followed(c, r))
  }
}
