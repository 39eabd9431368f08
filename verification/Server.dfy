/** The replication server as a state machine: what component events and ticks do to its bookkeeping, and what a
    tick sends. The nested tables of the source are flattened to pairs of entity and component type. */
module Servers {
  import opened Base
  import opened Schema
  import opened Storage
  import opened CommandLaws
  import opened Wire
  import opened SnapshotFormat
  import opened Snapshots
  import opened SyncPlan
  import opened Packets
  import opened Replicas

  // ------------------------------------------------------------------ the plan as a value

  ghost function TierOf(fields: seq<Field>, interval: real): seq<real> {
    if UsedInterval(fields, |fields|, interval) then [interval] else []
  }

  ghost function Intervals(fields: seq<Field>): seq<real> {
    TierOf(fields, 0.0) + TierOf(fields, 0.05) + TierOf(fields, 0.1) + TierOf(fields, 0.5)
  }

  function BucketOf(fields: seq<Field>, interval: real): (mask: seq<bool>)
    ensures |mask| == |fields|
  {
    seq(|fields|, i requires 0 <= i < |fields| => InBucket(fields[i], interval))
  }

  ghost function PlanOf(fields: seq<Field>): Plan {
    var ivs := Intervals(fields);
    Plan(SpawnMask(fields), ivs, seq(|ivs|, b requires 0 <= b < |ivs| => BucketOf(fields, ivs[b])))
  }

  /** There is a plan for every schema, and it is this one. */
  lemma PlanOfOk(fields: seq<Field>)
    ensures PlanFor(fields, PlanOf(fields))
  {
    var plan := PlanOf(fields);
    TiersAscend(fields);
    forall iv ensures iv in plan.intervals <==> UsedInterval(fields, |fields|, iv) { TiersCover(fields, iv); }
  }

  lemma TiersAscend(fields: seq<Field>)
    ensures var ivs := Intervals(fields); forall a, b :: 0 <= a < b < |ivs| ==> ivs[a] < ivs[b]
  {
    hide UsedInterval;
  }

  lemma TiersCover(fields: seq<Field>, iv: real)
    ensures iv in Intervals(fields) <==> UsedInterval(fields, |fields|, iv)
  {
    assert UsedInterval(fields, |fields|, iv) ==> Tier(iv);
  }

  ghost function PlanAt(reg: Registry, t: TypeId): Plan {
    if Registered(reg, t) then PlanOf(SchemaOf(reg, t).fields) else Plan([], [], [])
  }

  // ------------------------------------------------------------------ state

  datatype Server = Server(
    tracked: set<Entity>, dirty: set<(Entity, TypeId)>, spawns: set<Entity>, despawns: set<Entity>,
    next: map<(Entity, TypeId), seq<real>>, elapsed: real, accum: real)

  const IDLE := Server({}, {}, {}, {}, map[], 0.0, 0.0)

  // ------------------------------------------------------------------ events

  ghost function OnAdded(s: Server, reg: Registry, e: Entity, t: TypeId): Server {
    if !NetType(reg, t) then s
    else if e !in s.tracked then s.(tracked := s.tracked + {e}, spawns := s.spawns + {e})
    else s.(dirty := s.dirty + {(e, t)})
  }

  ghost function OnChanged(s: Server, reg: Registry, e: Entity, t: TypeId): Server {
    if NetType(reg, t) && e in s.tracked then s.(dirty := s.dirty + {(e, t)}) else s
  }

  ghost predicate AnyNet(reg: Registry, left: set<TypeId>) {
    exists t :: t in left && NetType(reg, t)
  }

  ghost function Untracked(s: Server, e: Entity): Server {
    s.(tracked := s.tracked - {e}, dirty := (set p | p in s.dirty && p.0 != e),
       next := (map p | p in s.next && p.0 != e :: s.next[p]), despawns := s.despawns + {e})
  }

  /** `left` are the component types the entity has now: none when it is dead. */
  ghost function OnRemoved(s: Server, reg: Registry, e: Entity, t: TypeId, left: set<TypeId>): Server {
    if !NetType(reg, t) then s else
      var u := s.(dirty := s.dirty - {(e, t)});
      if e in s.tracked && !AnyNet(reg, left) then Untracked(u, e) else u
  }

  ghost function Handle(s: Server, reg: Registry, ev: Event, left: set<TypeId>): Server {
    match ev
    case AddedEvent(e, t) => OnAdded(s, reg, e, t)
    case ChangedEvent(e, t) => OnChanged(s, reg, e, t)
    case RemovedEvent(e, t) => OnRemoved(s, reg, e, t, left)
    case ClearedEvent => IDLE
  }

  ghost function HandleAll(s: Server, reg: Registry, evs: seq<Event>, left: set<TypeId>): Server {
    if evs == [] then s else Handle(HandleAll(s, reg, evs[..|evs| - 1], left), reg, evs[|evs| - 1], left)
  }

  // ------------------------------------------------------------------ deltas

  /** What a delta can carry: a networked component the entity still has, with a field of a delta tier. */
  ghost predicate Deliverable(reg: Registry, store: Store, p: (Entity, TypeId)) {
    p.0 in store && p.1 in store[p.0] && NetType(reg, p.1) && PlanAt(reg, p.1).intervals != []
  }

  function TickAt(ticks: seq<real>, b: nat): real {
    if b < |ticks| then ticks[b] else 0.0
  }

  function Ticks(s: Server, p: (Entity, TypeId)): seq<real> {
    if p in s.next then s.next[p] else []
  }

  predicate DueAtTime(ticks: seq<real>, b: nat, now: real) {
    now >= TickAt(ticks, b)
  }

  ghost predicate AllDue(reg: Registry, s: Server, p: (Entity, TypeId)) {
    forall b :: 0 <= b < |PlanAt(reg, p.1).intervals| ==> DueAtTime(Ticks(s, p), b, s.elapsed)
  }

  function NextTicks(intervals: seq<real>, ticks: seq<real>, now: real): seq<real> {
    seq(if |ticks| < |intervals| then |intervals| else |ticks|,
        b requires 0 <= b => if b < |intervals| && DueAtTime(ticks, b, now) then now + intervals[b]
          else TickAt(ticks, b))
  }

  ghost function Touched(reg: Registry, store: Store, s: Server): set<(Entity, TypeId)> {
    set p | p in s.dirty && Deliverable(reg, store, p)
  }

  /** The bookkeeping after `build_delta`: what cannot be delivered is forgotten, what was wholly due is clean, each
      due bucket is next due one interval from now. */
  ghost function Flushed(reg: Registry, store: Store, s: Server): Server {
    var touched := Touched(reg, store, s);
    s.(dirty := (set p | p in touched && !AllDue(reg, s, p)),
       next := (map p | p in s.next.Keys + touched ::
         if p in touched then NextTicks(PlanAt(reg, p.1).intervals, Ticks(s, p), s.elapsed) else Ticks(s, p)))
  }

  /** The first n buckets of a component, those that are due. */
  ghost function DuesUpTo(reg: Registry, t: TypeId, row: Bytes, ticks: seq<real>, now: real, n: nat): seq<Due>
    requires n <= |PlanAt(reg, t).intervals|
  {
    if n == 0 then [] else
      var front := DuesUpTo(reg, t, row, ticks, now, n - 1);
      if !DueAtTime(ticks, n - 1, now) then front else front + [DueOf(reg, t, row, n - 1)]
  }

  ghost function DueOf(reg: Registry, t: TypeId, row: Bytes, b: nat): Due
    requires b < |PlanAt(reg, t).intervals|
  {
    var mask := PlanAt(reg, t).masks[b];
    if !RegistryOk(reg) || |row| != SizeOf(reg, t) then Due(b, mask, [])
      else Due(b, mask, Block(SchemaOf(reg, t), mask, row))
  }

  ghost function Dues(reg: Registry, store: Store, s: Server, p: (Entity, TypeId)): seq<Due> {
    if !Deliverable(reg, store, p) then [] else
      DuesUpTo(reg, p.1, store[p.0][p.1], Ticks(s, p), s.elapsed, |PlanAt(reg, p.1).intervals|)
  }

  ghost function TypesOf(cs: seq<DueComp>): set<TypeId> {
    set j | 0 <= j < |cs| :: cs[j].t
  }

  ghost function IdsOfDelta(es: seq<DueEntity>): set<Entity> {
    set i | 0 <= i < |es| :: es[i].id
  }

  /** The components of one entity in a delta: each dirty component with a due bucket, once, in any order. */
  ghost predicate CompsFor(reg: Registry, store: Store, s: Server, e: Entity, cs: seq<DueComp>) {
    && (forall i, j :: 0 <= i < j < |cs| ==> cs[i].t != cs[j].t)
    && (forall j :: 0 <= j < |cs| ==>
      (e, cs[j].t) in s.dirty && cs[j].dues == Dues(reg, store, s, (e, cs[j].t)) && cs[j].dues != [])
    && forall t :: (e, t) in s.dirty && Dues(reg, store, s, (e, t)) != [] ==> t in TypesOf(cs)
  }

  /** The entities of a delta: each with a dirty component that has a due bucket, once, in any order. */
  ghost predicate DeltaFor(reg: Registry, store: Store, s: Server, es: seq<DueEntity>) {
    && (forall i, j :: 0 <= i < j < |es| ==> es[i].id != es[j].id)
    && (forall i :: 0 <= i < |es| ==> CompsFor(reg, store, s, es[i].id, es[i].comps) && es[i].comps != [])
    && forall p :: p in s.dirty && Dues(reg, store, s, p) != [] ==> p.0 in IdsOfDelta(es)
  }

  // ------------------------------------------------------------------ ticks

  /** The state deltas are built in: time has passed and the spawns are out. */
  function Advanced(s: Server, delta: real): Server {
    s.(elapsed := s.elapsed + delta, spawns := {})
  }

  predicate Reconciles(s: Server, delta: real, period: real) {
    s.accum + delta >= period
  }

  ghost function TickState(s: Server, reg: Registry, store: Store, delta: real, period: real): Server {
    var f := Flushed(reg, store, Advanced(s, delta));
    f.(next := (map p | p in f.next && p.0 !in s.despawns :: f.next[p]), despawns := {},
       accum := if Reconciles(s, delta, period) then 0.0 else s.accum + delta)
  }

  /** What one tick sends: the order of each unordered container is any order. */
  datatype Sending = Sending(spawned: seq<Entity>, delta: seq<DueEntity>, despawned: seq<Entity>, walk: seq<Entity>)

  ghost predicate SendingFor(reg: Registry, store: Store, s: Server, delta: real, o: Sending) {
    && Elements(o.spawned) == s.spawns && NoDup(o.spawned)
    && DeltaFor(reg, store, Advanced(s, delta), o.delta)
    && Elements(o.despawned) == s.despawns
    && Elements(o.walk) == store.Keys && NoDup(o.walk)
  }

  /** One spawn packet for each pending entity that is still alive. */
  ghost function SpawnRecords(reg: Registry, store: Store, es: seq<Entity>): seq<Record> {
    if es == [] then [] else
      var e := es[|es| - 1];
      SpawnRecords(reg, store, es[..|es| - 1]) + if e in store then [NetRecord(reg, e, store[e])] else []
  }

  // ------------------------------------------------------------------ the packets of a tick

  datatype Packet = Packet(kind: Kind, data: Bytes)

  ghost function SpawnPackets(rs: seq<Record>): seq<Packet> {
    if rs == [] then [] else SpawnPackets(rs[..|rs| - 1]) + [Packet(Spawn, EncodeSpawn(rs[|rs| - 1]))]
  }

  ghost function DeltaPackets(es: seq<DueEntity>): seq<Packet> {
    if Carried(es) == [] then [] else [Packet(Delta, EncodeDelta(Carried(es)))]
  }

  ghost function DespawnPackets(es: seq<Entity>): seq<Packet> {
    if es == [] then [] else DespawnPackets(es[..|es| - 1]) + [Packet(Despawn, EncodeDespawn(es[|es| - 1]))]
  }

  ghost function FullPackets(rs: seq<Record>): seq<Packet> {
    if rs == [] then [] else [Packet(FullState, EncodeFullState(rs))]
  }

  /** All packets of one tick, in the order they go out. */
  ghost function TickPackets(reg: Registry, store: Store, reconcile: bool, o: Sending): seq<Packet> {
    SpawnPackets(SpawnRecords(reg, store, o.spawned)) + DeltaPackets(o.delta) + DespawnPackets(o.despawned)
    + (if reconcile then FullPackets(NetRecords(reg, store, o.walk)) else [])
  }
}
