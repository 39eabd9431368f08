/** The replication strategy object: its event handlers, its delta builder and its tick, proved to follow the state
    machine of module Servers. */
module Replication {
  import opened Base
  import opened Schema
  import S = Storage
  import opened StorageLaws
  import opened Operations
  import opened CommandLaws
  import opened Columns
  import opened Queries
  import opened Engine
  import opened Walks
  import opened Wire
  import opened Buffers
  import opened Serializer
  import opened SnapshotFormat
  import opened Snapshots
  import opened SaveLoad
  import opened SnapshotLoad
  import opened SyncPlan
  import opened Packets
  import opened Replicas
  import opened FullStates
  import opened SnapshotIO
  import opened Servers
  import opened ServerLaws
  import opened ServerRuns
  import opened Arrivals
  import opened Receiving
  import opened DeltaApply

  // ------------------------------------------------------------------ one component of a delta

  lemma PlanIs(fields: seq<Field>, plan: Plan)
    requires PlanFor(fields, plan)
    ensures plan == PlanOf(fields)
  {
    hide PlanFor, PlanOf;
    PlanOfOk(fields);
    PlanUnique(fields, plan, PlanOf(fields));
  }

  lemma DuesGrow(reg: Registry, t: TypeId, row: Bytes, ticks: seq<real>, now: real, b: nat)
    requires b < |PlanAt(reg, t).intervals|
    ensures var f, d := DuesUpTo(reg, t, row, ticks, now, b), DueOf(reg, t, row, b);
      EncodeMany(EncodeDue, DuesUpTo(reg, t, row, ticks, now, b + 1))
        == EncodeMany(EncodeDue, f) + if DueAtTime(ticks, b, now) then EncodeDue(d) else []
  {
    hide PlanAt, EncodeDue, DueOf, DueAtTime;
    EncodeManySnoc(EncodeDue, DuesUpTo(reg, t, row, ticks, now, b), DueOf(reg, t, row, b));
  }

  /** One bucket record: index, mask, masked fields. */
  method PutDue(s: Schema, b: nat, mask: seq<bool>, row: Bytes, rec: BinaryBuffer)
    requires FieldsOk(s.fields, s.size) && |row| == s.size
    modifies rec
    ensures rec.data == old(rec.data) + EncodeDue(Due(b, mask, Block(s, mask, row)))
  {
    hide LE, Block, FieldsOk, EncodeMask;
    rec.WriteLE(b, 1);
    PutMask(mask, rec);
    PutComponent(s, row, mask, rec);
  }

  ghost predicate Ticked(reg: Registry, t: TypeId, ticks: seq<real>, now: real, next: seq<real>, n: nat) {
    var ivs := PlanAt(reg, t).intervals;
    && |next| == (if |ticks| < |ivs| then |ivs| else |ticks|) && n <= |ivs|
    && forall b :: 0 <= b < |next| ==> next[b] == if b < n && DueAtTime(ticks, b, now) then now + ivs[b]
       else TickAt(ticks, b)
  }

  /** The due buckets of one component: written, and their next send times set; the others are left for later. */
  method PutDues(reg: Registry, t: TypeId, plan: Plan, row: Bytes, ticks: seq<real>, now: real, rec: BinaryBuffer)
    returns (next: seq<real>, n: nat, allSent: bool)
    requires RegistryOk(reg) && Registered(reg, t) && |row| == SizeOf(reg, t) && plan == PlanAt(reg, t)
    modifies rec
    ensures var ivs := PlanAt(reg, t).intervals; var ds := DuesUpTo(reg, t, row, ticks, now, |ivs|);
      && rec.data == old(rec.data) + EncodeMany(EncodeDue, ds) && n == |ds| && next == NextTicks(ivs, ticks, now)
      && (allSent <==> forall b :: 0 <= b < |ivs| ==> DueAtTime(ticks, b, now))
  {
    hide RegistryOk, PlanFor, PlanOf, EncodeDue, FieldsOk, EncodeMany, Block;
    var s := SchemaOf(reg, t);
    SchemaFits(reg, t);
    PlanKnown(reg, t);
    var ivs := plan.intervals;
    next, n, allSent := ticks, 0, true;
    if |next| < |ivs| {
      next := next + seq(|ivs| - |next|, i => 0.0);
    }
    NothingDue(reg, t, row, ticks, now);
    for b := 0 to |ivs|
      invariant rec.data == old(rec.data) + EncodeMany(EncodeDue, DuesUpTo(reg, t, row, ticks, now, b))
        && n == |DuesUpTo(reg, t, row, ticks, now, b)|
      invariant Ticked(reg, t, ticks, now, next, b)
        && (allSent <==> forall k :: 0 <= k < b ==> DueAtTime(ticks, k, now))
    {
      DuesGrow(reg, t, row, ticks, now, b);
      if now < next[b] {
        allSent := false;
      } else {
        PutDue(s, b, plan.masks[b], row, rec);
        next := next[b := now + ivs[b]];
        n := n + 1;
      }
    }
    assert next == NextTicks(ivs, ticks, now);
  }

  lemma NothingDue(reg: Registry, t: TypeId, row: Bytes, ticks: seq<real>, now: real)
    ensures DuesUpTo(reg, t, row, ticks, now, 0) == [] && EncodeMany(EncodeDue, []) == []
  {
  }

  /** The record of one component, if any of its buckets is due. */
  method PutDueComp(reg: Registry, t: TypeId, plan: Plan, row: Bytes, ticks: seq<real>, now: real, buf: BinaryBuffer)
    returns (sent: bool, keep: bool, next: seq<real>)
    requires RegistryOk(reg) && Registered(reg, t) && |row| == SizeOf(reg, t) && plan == PlanAt(reg, t)
    modifies buf
    ensures var ivs := PlanAt(reg, t).intervals; var ds := DuesUpTo(reg, t, row, ticks, now, |ivs|);
      && (sent <==> ds != []) && next == NextTicks(ivs, ticks, now)
      && (keep <==> !forall b :: 0 <= b < |ivs| ==> DueAtTime(ticks, b, now))
      && buf.data == old(buf.data) + if sent then EncodeDueComp(DueComp(t, ds)) else []
  {
    hide RegistryOk, PlanOf, DuesUpTo, NextTicks, LE, EncodeMany, EncodeDue, DueAtTime;
    var rec := new BinaryBuffer();
    var n, allSent;
    next, n, allSent := PutDues(reg, t, plan, row, ticks, now, rec);
    FewTiers(reg, t);
    sent, keep := n > 0, !allSent;
    if n > 0 {
      buf.WriteLE(Word(t), 4);
      buf.WriteLE(n, 1);
      buf.WriteBytes(rec.data);
    }
  }

  /** One dirty component: forgotten when it cannot be delivered, otherwise its due buckets go out and it stays dirty
      while any bucket is not due yet. */
  method FlushComponent(world: World, e: Entity, t: TypeId, ticks: seq<real>, buf: BinaryBuffer, now: real,
                        ghost s: Server)
    returns (touched: bool, sent: bool, keep: bool, next: seq<real>)
    requires world.Valid() && RegistryOk(world.reg) && buf !in world.repr
    requires ticks == Ticks(s, (e, t)) && now == s.elapsed
    modifies buf
    ensures var store, p := S.Contents(world.ix), (e, t);
      && (touched <==> Deliverable(world.reg, store, p)) && (keep <==> touched && !AllDue(world.reg, s, p))
      && (touched ==> next == NextTicks(PlanAt(world.reg, t).intervals, ticks, now))
      && (sent <==> Dues(world.reg, store, s, p) != [])
      && buf.data == old(buf.data) + if sent then EncodeDueComp(DueComp(t, Dues(world.reg, store, s, p))) else []
  {
    hide WorldOk, World.Tied, World.WindowTied, S.Contents, RegistryOk, PlanOf, DuesUpTo, NextTicks, IsNetworked,
      EncodeDueComp, DueAtTime, Ticks;
    touched, sent, keep, next := false, false, false, ticks;
    var net := NetworkedType(world.reg, t);
    var data := world.GetRaw(e, t);
    world.Lookup();
    world.UseOk();
    if net && data.Some? {
      StoredComps(world.ix, e);
      var plan := SyncPlanFor(SchemaOf(world.reg, t).fields);
      PlanIs(SchemaOf(world.reg, t).fields, plan);
      if plan.intervals != [] {
        touched := true;
        sent, keep, next := PutDueComp(world.reg, t, plan, data.value, ticks, now, buf);
      }
    } else if net {
      NotHeld(world, e, t);
    }
  }

  lemma NotHeld(world: World, e: Entity, t: TypeId)
    requires world.Valid() && !S.Has(world.ix, e, t)
    ensures e in S.Contents(world.ix) ==> t !in S.Contents(world.ix)[e]
  {
    hide World.Tied, World.WindowTied, S.Contents, S.Shaped, S.Sized, SlotsOk;
    ContentsKeys(world.ix);
    if e in world.ix.loc {
      LiveHandle(world.ix, e);
      StoredComps(world.ix, e);
    }
  }

  // ------------------------------------------------------------------ one entity of a delta

  /** The components of one entity that have been looked at, and what became of them. */
  ghost predicate CompsDone(reg: Registry, store: S.Store, s: Server, e: Entity, cs: seq<DueComp>, done: set<TypeId>) {
    && (forall i, j :: 0 <= i < j < |cs| ==> cs[i].t != cs[j].t)
    && (forall j :: 0 <= j < |cs| ==>
      cs[j].t in done && (e, cs[j].t) in s.dirty
      && cs[j].dues == Dues(reg, store, s, (e, cs[j].t)) && cs[j].dues != [])
    && forall t :: t in done && Dues(reg, store, s, (e, t)) != [] ==> t in TypesOf(cs)
  }

  ghost predicate Stays(reg: Registry, store: S.Store, s: Server, p: (Entity, TypeId)) {
    Deliverable(reg, store, p) && !AllDue(reg, s, p)
  }

  ghost predicate LeftDone(reg: Registry, store: S.Store, s: Server, e: Entity, comps: set<TypeId>, left: set<TypeId>,
                           done: set<TypeId>)
  {
    left <= comps && (forall t :: t in comps - done ==> t in left)
      && forall t :: t in done ==> (t in left <==> Stays(reg, store, s, (e, t)))
  }

  ghost predicate TicksDone(reg: Registry, store: S.Store, s: Server, e: Entity, ticks: map<TypeId, seq<real>>,
                            next: map<TypeId, seq<real>>, done: set<TypeId>)
  {
    forall t ::
      (t in next <==> t in ticks || (t in done && Deliverable(reg, store, (e, t))))
      && (t in next ==> next[t] == TickDone(reg, store, s, e, ticks, done, t))
  }

  ghost function TickDone(reg: Registry, store: S.Store, s: Server, e: Entity, ticks: map<TypeId, seq<real>>,
                          done: set<TypeId>, t: TypeId): seq<real>
  {
    if t in done && Deliverable(reg, store, (e, t))
      then NextTicks(PlanAt(reg, t).intervals, Ticks(s, (e, t)), s.elapsed)
    else if t in ticks then ticks[t] else []
  }

  lemma CompsMore(reg: Registry, store: S.Store, s: Server, e: Entity, cs: seq<DueComp>, done: set<TypeId>, t: TypeId)
    requires CompsDone(reg, store, s, e, cs, done) && t !in done && (e, t) in s.dirty
    ensures var ds := Dues(reg, store, s, (e, t));
      CompsDone(reg, store, s, e, if ds != [] then cs + [DueComp(t, ds)] else cs, done + {t})
  {
    hide Dues;
    var ds := Dues(reg, store, s, (e, t));
    if ds != [] {
      var more := cs + [DueComp(t, ds)];
      TypesSnoc(more);
      assert more[..|cs|] == cs;
    }
  }

  lemma LeftMore(reg: Registry, store: S.Store, s: Server, e: Entity, comps: set<TypeId>, left: set<TypeId>,
                 done: set<TypeId>, t: TypeId)
    requires LeftDone(reg, store, s, e, comps, left, done) && t in comps && t !in done
    ensures LeftDone(reg, store, s, e, comps, if Stays(reg, store, s, (e, t)) then left else left - {t}, done + {t})
  {
    hide Stays;
  }

  lemma TicksMore(reg: Registry, store: S.Store, s: Server, e: Entity, ticks: map<TypeId, seq<real>>,
                  next: map<TypeId, seq<real>>, done: set<TypeId>, t: TypeId)
    requires TicksDone(reg, store, s, e, ticks, next, done) && t !in done
    ensures var moved := next[t := NextTicks(PlanAt(reg, t).intervals, Ticks(s, (e, t)), s.elapsed)];
      TicksDone(reg, store, s, e, ticks, if Deliverable(reg, store, (e, t)) then moved else next, done + {t})
  {
    hide Deliverable, NextTicks, Ticks, PlanAt;
  }

  method FlushEntity(world: World, e: Entity, comps: set<TypeId>, ticks: map<TypeId, seq<real>>, now: real,
                     ghost s: Server)
    returns (left: set<TypeId>, next: map<TypeId, seq<real>>, n: nat, buf: BinaryBuffer, ghost cs: seq<DueComp>)
    requires world.Valid() && RegistryOk(world.reg) && now == s.elapsed
    requires (forall t :: t in comps ==> (e, t) in s.dirty) && forall t :: Ticks(s, (e, t)) == if t in ticks
      then ticks[t] else []
    ensures fresh(buf) && buf.data == EncodeMany(EncodeDueComp, cs) && n == |cs| % 256
    ensures var store := S.Contents(world.ix);
      && CompsDone(world.reg, store, s, e, cs, comps) && LeftDone(world.reg, store, s, e, comps, left, comps)
      && TicksDone(world.reg, store, s, e, ticks, next, comps)
  {
    hide WorldOk, World.Tied, World.WindowTied, S.Contents, RegistryOk, Deliverable, NextTicks, EncodeDueComp, AllDue,
      Ticks, Dues, CompsDone, LeftDone, TicksDone, EncodeMany;
    world.Lookup();
    ghost var store := S.Contents(world.ix);
    left, next, n, cs := comps, ticks, 0, [];
    buf := new BinaryBuffer();
    var rest := comps;
    NothingFlushed(world.reg, store, s, e, comps, ticks);
    while rest != {}
      invariant rest <= comps && n == |cs| % 256 && buf.data == EncodeMany(EncodeDueComp, cs)
      invariant CompsDone(world.reg, store, s, e, cs, comps - rest)
        && LeftDone(world.reg, store, s, e, comps, left, comps - rest)
      invariant TicksDone(world.reg, store, s, e, ticks, next, comps - rest)
      decreases |rest|
    {
      var t := Pick(rest);
      ghost var done := comps - rest;
      TickBefore(world.reg, store, s, e, ticks, next, done, t);
      var touched, sent, keep, ahead := FlushComponent(world, e, t, if t in next then next[t] else [], buf, now, s);
      CompsMore(world.reg, store, s, e, cs, done, t);
      LeftMore(world.reg, store, s, e, comps, left, done, t);
      TicksMore(world.reg, store, s, e, ticks, next, done, t);
      if touched {
        next := next[t := ahead];
      }
      if sent {
        EncodeManySnoc(EncodeDueComp, cs, DueComp(t, Dues(world.reg, store, s, (e, t))));
        cs := cs + [DueComp(t, Dues(world.reg, store, s, (e, t)))];
        n := (n + 1) % 256;
      }
      if !keep {
        left := left - {t};
      }
      rest := rest - {t};
      assert comps - rest == done + {t};
    }
    assert comps - {} == comps;
  }

  lemma TickBefore(reg: Registry, store: S.Store, s: Server, e: Entity, ticks: map<TypeId, seq<real>>,
                   next: map<TypeId, seq<real>>, done: set<TypeId>, t: TypeId)
    requires TicksDone(reg, store, s, e, ticks, next, done) && t !in done
    ensures (if t in next then next[t] else []) == if t in ticks then ticks[t] else []
  {
    hide Deliverable;
  }

  lemma NothingFlushed(reg: Registry, store: S.Store, s: Server, e: Entity, comps: set<TypeId>, ticks: map<TypeId,
                       seq<real>>)
    ensures comps - comps == {} && CompsDone(reg, store, s, e, [], {}) && LeftDone(reg, store, s, e, comps, comps, {})
    ensures TicksDone(reg, store, s, e, ticks, ticks, {}) && EncodeMany(EncodeDueComp, []) == []
  {
  }

  // ------------------------------------------------------------------ whole deltas

  ghost predicate DeltaDone(reg: Registry, store: S.Store, s: Server, es: seq<DueEntity>, done: set<Entity>) {
    && (forall i, j :: 0 <= i < j < |es| ==> es[i].id != es[j].id)
    && (forall i :: 0 <= i < |es| ==>
      es[i].id in done && CompsFor(reg, store, s, es[i].id, es[i].comps) && es[i].comps != [])
    && forall p :: p in s.dirty && p.0 in done && Dues(reg, store, s, p) != [] ==> p.0 in IdsOfDelta(es)
  }

  lemma DeltaMore(reg: Registry, store: S.Store, s: Server, es: seq<DueEntity>, done: set<Entity>, e: Entity,
                  cs: seq<DueComp>, comps: set<TypeId>)
    requires DeltaDone(reg, store, s, es, done) && e !in done && CompsDone(reg, store, s, e, cs, comps)
    requires forall t :: (e, t) in s.dirty <==> t in comps
    ensures DeltaDone(reg, store, s, if cs != [] then es + [DueEntity(e, cs)] else es, done + {e})
  {
    hide Dues, NoDup;
    CompsForOf(reg, store, s, e, cs, comps);
    var more := if cs != [] then es + [DueEntity(e, cs)] else es;
    if cs != [] {
      IdsSnoc(more);
      assert more[..|es|] == es;
    }
    forall p | p in s.dirty && p.0 in done + {e} && Dues(reg, store, s, p) != [] ensures p.0 in IdsOfDelta(more) {
      if p.0 == e {
        assert p == (e, p.1);
        DuesNamed(reg, store, s, e, cs, comps, p.1);
      }
    }
  }

  lemma CompsForOf(reg: Registry, store: S.Store, s: Server, e: Entity, cs: seq<DueComp>, comps: set<TypeId>)
    requires CompsDone(reg, store, s, e, cs, comps) && forall t :: (e, t) in s.dirty <==> t in comps
    ensures CompsFor(reg, store, s, e, cs)
      && forall t :: (e, t) in s.dirty && Dues(reg, store, s, (e, t)) != [] ==> t in TypesOf(cs)
  {
    hide Dues;
  }

  lemma DuesNamed(reg: Registry, store: S.Store, s: Server, e: Entity, cs: seq<DueComp>, comps: set<TypeId>, t: TypeId)
    requires CompsDone(reg, store, s, e, cs, comps) && t in comps && Dues(reg, store, s, (e, t)) != []
    ensures t in TypesOf(cs) && cs != []
  {
    hide Dues;
  }

  /** A dead entity's components are dropped without a trace. */
  lemma DeltaSkips(reg: Registry, store: S.Store, s: Server, es: seq<DueEntity>, done: set<Entity>, e: Entity)
    requires DeltaDone(reg, store, s, es, done) && e !in store
    ensures DeltaDone(reg, store, s, es, done + {e})
  {
    hide DuesUpTo, CompsFor;
  }

  ghost predicate DirtyTied(dirty: map<Entity, set<TypeId>>, flat: set<(Entity, TypeId)>) {
    forall e, t :: (e, t) in flat <==> e in dirty && t in dirty[e]
  }

  ghost predicate NextTied(next: map<Entity, map<TypeId, seq<real>>>, flat: map<(Entity, TypeId), seq<real>>) {
    forall e, t :: ((e, t) in flat <==> e in next && t in next[e]) && ((e, t) in flat ==> flat[(e, t)] == next[e][t])
  }

  /** The nested tables while a delta is being built: settled for the entities done, as before for the others. */
  ghost predicate DirtyDone(reg: Registry, store: S.Store, s: Server, dirty: map<Entity, set<TypeId>>,
                            done: set<Entity>)
  {
    forall e, t :: (e in dirty && t in dirty[e]) <==> (e, t) in s.dirty && (e in done ==> Stays(reg, store, s, (e, t)))
  }

  ghost predicate NextDone(reg: Registry, store: S.Store, s: Server, next: map<Entity, map<TypeId, seq<real>>>,
                           done: set<Entity>)
  {
    forall e, t ::
      ((e in next && t in next[e]) <==> (e, t) in s.next || (e in done && (e, t) in Touched(reg, store, s)))
      && (e in next && t in next[e] ==> next[e][t] == NextFor(reg, store, s, done, (e, t)))
  }

  ghost function NextFor(reg: Registry, store: S.Store, s: Server, done: set<Entity>, p: (Entity, TypeId)): seq<real> {
    if p.0 in done && p in Touched(reg, store, s) then NextTicks(PlanAt(reg, p.1).intervals, Ticks(s, p), s.elapsed)
      else Ticks(s, p)
  }

  lemma DirtySettled(reg: Registry, store: S.Store, s: Server, dirty: map<Entity, set<TypeId>>, done: set<Entity>,
                     e: Entity, left: set<TypeId>)
    requires DirtyDone(reg, store, s, dirty, done) && e !in done && e in dirty
      && LeftDone(reg, store, s, e, dirty[e], left, dirty[e])
    ensures DirtyDone(reg, store, s, if left == {} then dirty - {e} else dirty[e := left], done + {e})
  {
    hide Stays;
  }

  lemma DirtyDropped(reg: Registry, store: S.Store, s: Server, dirty: map<Entity, set<TypeId>>, done: set<Entity>,
                     e: Entity)
    requires DirtyDone(reg, store, s, dirty, done) && e !in store
    ensures DirtyDone(reg, store, s, dirty - {e}, done + {e})
  {
    hide AllDue;
  }

  lemma NextSettled(reg: Registry, store: S.Store, s: Server, next: map<Entity, map<TypeId, seq<real>>>,
                    done: set<Entity>, e: Entity,
                    comps: set<TypeId>, ticks: map<TypeId, seq<real>>, moved: map<TypeId, seq<real>>)
    requires NextDone(reg, store, s, next, done) && e !in done && ticks == (if e in next then next[e] else map[])
    requires TicksDone(reg, store, s, e, ticks, moved, comps) && forall t :: (e, t) in s.dirty <==> t in comps
    ensures NextDone(reg, store, s, if moved != map[] then next[e := moved] else next, done + {e})
  {
    hide NextTicks, Deliverable, PlanAt, NextFor;
    var after := if moved != map[] then next[e := moved] else next;
    forall x, t
      ensures (x in after && t in after[x])
        <==> (x, t) in s.next || (x in done + {e} && (x, t) in Touched(reg, store, s))
      ensures x in after && t in after[x] ==> after[x][t] == NextFor(reg, store, s, done + {e}, (x, t))
    {
      NextSettledAt(reg, store, s, next, done, e, comps, ticks, moved, x, t);
    }
  }

  lemma NextSettledAt(reg: Registry, store: S.Store, s: Server, next: map<Entity, map<TypeId, seq<real>>>,
                      done: set<Entity>, e: Entity,
                      comps: set<TypeId>, ticks: map<TypeId, seq<real>>, moved: map<TypeId, seq<real>>, x: Entity,
                        t: TypeId)
    requires NextDone(reg, store, s, next, done) && e !in done && ticks == (if e in next then next[e] else map[])
    requires TicksDone(reg, store, s, e, ticks, moved, comps) && forall t :: (e, t) in s.dirty <==> t in comps
    ensures var after := if moved != map[] then next[e := moved] else next;
      ((x in after && t in after[x]) <==> (x, t) in s.next || (x in done + {e} && (x, t) in Touched(reg, store, s)))
      && (x in after && t in after[x] ==> after[x][t] == NextFor(reg, store, s, done + {e}, (x, t)))
  {
    hide NextTicks, Deliverable, PlanAt;
    assert (x, t).0 == x && (x, t).1 == t;
    assert (x, t) in Touched(reg, store, s) <==> (x, t) in s.dirty && Deliverable(reg, store, (x, t));
  }

  lemma NextSkipped(reg: Registry, store: S.Store, s: Server, next: map<Entity, map<TypeId, seq<real>>>,
                    done: set<Entity>, e: Entity)
    requires NextDone(reg, store, s, next, done) && e !in store
    ensures NextDone(reg, store, s, next, done + {e})
  {
    hide NextTicks, PlanAt;
    forall t ensures (e, t) !in Touched(reg, store, s) { assert (e, t).0 == e; }
  }

  // ------------------------------------------------------------------ writing a delta

  /** `get_entity_component_types`. */
  method EntityTypes(world: World, e: Entity) returns (ids: seq<TypeId>)
    requires world.Valid()
    ensures forall t :: t in ids <==> S.Has(world.ix, e, t)
    ensures ids == if e in S.Contents(world.ix) then SortedIds(S.Contents(world.ix)[e].Keys) else []
  {
    hide WorldOk, World.WindowTied, S.Contents, S.Shaped, Archetype.View, QueryCache.Consistent, ListTied;
    world.Lookup();
    world.UseOk();
    ContentsKeys(world.ix);
    ids := [];
    if world.IsAlive(e) {
      world.Home(e);
      TypesAt(world, e);
      ids := world.locations[e].archetype.componentIds;
    } else if e in world.ix.loc {
      LiveHandle(world.ix, e);
    }
  }

  lemma TypesAt(world: World, e: Entity)
    requires world.Valid() && e in world.locations && e in world.ix.loc
    ensures var ids := world.locations[e].archetype.componentIds;
      && (forall t :: t in ids <==> S.Has(world.ix, e, t)) && e in S.Contents(world.ix)
         && ids == SortedIds(S.Contents(world.ix)[e].Keys)
  {
    hide World.WindowTied, S.Contents, S.Sized, SlotsOk, Archetype.View, QueryCache.Consistent;
    world.Lookup();
    world.Home(e);
    world.Where(e);
    LiveHandle(world.ix, e);
    StoredComps(world.ix, e);
    KeyIds(world, world.locations[e].archetype);
  }

  ghost predicate DeltaWrote(data: Bytes, head: Bytes, n: nat, es: seq<DueEntity>) {
    n == |Carried(es)| && data == head + EncodeMany(EncodeDueEntity, Carried(es))
  }

  lemma CarriedSnoc(es: seq<DueEntity>, e: DueEntity)
    ensures Carried(es + [e]) == if Counted(e) then Carried(es) + [e] else Carried(es)
  {
    assert (es + [e])[..|es|] == es;
  }

  lemma WroteEntity(data: Bytes, head: Bytes, n: nat, es: seq<DueEntity>, e: DueEntity)
    requires DeltaWrote(data, head, n, es)
    ensures if Counted(e) then DeltaWrote(data + EncodeDueEntity(e), head, n + 1, es + [e])
      else DeltaWrote(data, head, n, es + [e])
  {
    hide EncodeDueEntity, Counted;
    CarriedSnoc(es, e);
    EncodeManySnoc(EncodeDueEntity, Carried(es), e);
  }

  /** One byte of a number is its remainder. */
  lemma ByteOf(v: nat)
    ensures LE(v % 256, 1) == LE(v, 1)
  {
  }

  class SnapshotReplication {
    var tracked: set<Entity>
    var dirty: map<Entity, set<TypeId>>
    var pendingSpawn: set<Entity>
    var pendingDespawn: set<Entity>
    var clientReplicated: set<Entity>
    var tickCount: int
    var reconcileAccum: real
    var reconciliationInterval: real
    var elapsedTime: real
    var nextSendTick: map<Entity, map<TypeId, seq<real>>>
    ghost var book: Server

    /** The tables spell out the bookkeeping of the state machine. */
    ghost predicate Valid()
      reads this
    {
      && book.tracked == tracked && book.spawns == pendingSpawn && book.despawns == pendingDespawn
      && book.elapsed == elapsedTime && book.accum == reconcileAccum
      && DirtyTied(dirty, book.dirty) && NextTied(nextSendTick, book.next)
    }

    constructor ()
      ensures Valid() && book == IDLE && clientReplicated == {} && reconciliationInterval == 30.0
    {
      tracked, dirty, pendingSpawn, pendingDespawn, clientReplicated := {}, map[], {}, {}, {};
      tickCount, reconcileAccum, reconciliationInterval, elapsedTime, nextSendTick := 0, 0.0, 30.0, 0.0, map[];
      book := IDLE;
    }

    method MarkDirty(e: Entity, t: TypeId)
      requires DirtyTied(dirty, book.dirty)
      modifies this`dirty
      ensures DirtyTied(dirty, book.dirty + {(e, t)})
    {
      dirty := dirty[e := (if e in dirty then dirty[e] else {}) + {t}];
    }

    /** `active` is a server that is not applying a packet. */
    method OnEntityComponentAdded(reg: Registry, active: bool, e: Entity, t: TypeId)
      requires Valid()
      modifies this
      ensures Valid() && book == (if active then OnAdded(old(book), reg, e, t) else old(book))
        && clientReplicated == old(clientReplicated)
    {
      hide NetType;
      var net := NetworkedType(reg, t);
      if !active || !net {
        return;
      }
      if e !in tracked {
        tracked, pendingSpawn := tracked + {e}, pendingSpawn + {e};
        book := book.(tracked := tracked, spawns := pendingSpawn);
      } else {
        MarkDirty(e, t);
        book := book.(dirty := book.dirty + {(e, t)});
      }
    }

    method OnEntityComponentChanged(reg: Registry, active: bool, e: Entity, t: TypeId)
      requires Valid()
      modifies this
      ensures Valid() && book == (if active then OnChanged(old(book), reg, e, t) else old(book))
        && clientReplicated == old(clientReplicated)
    {
      hide NetType;
      var net := NetworkedType(reg, t);
      if !active || !net {
        return;
      }
      if e in tracked {
        MarkDirty(e, t);
        book := book.(dirty := book.dirty + {(e, t)});
      }
    }

    method AnyNetworked(reg: Registry, ids: seq<TypeId>) returns (any: bool)
      ensures any <==> AnyNet(reg, Elements(ids))
    {
      hide NetType;
      any := false;
      for i := 0 to |ids|
        invariant !any && forall k :: 0 <= k < i ==> !NetType(reg, ids[k])
      {
        var net := NetworkedType(reg, ids[i]);
        if net {
          assert ids[i] in Elements(ids);
          return true;
        }
      }
    }

    /** The last networked component is gone: forget the entity, throttling included, and despawn it. */
    method Untrack(e: Entity)
      requires Valid()
      modifies this
      ensures Valid() && book == Untracked(old(book), e) && clientReplicated == old(clientReplicated)
    {
      hide NextTied, DirtyTied;
      DirtyGone(dirty, book.dirty, e);
      NextGone(nextSendTick, book.next, e);
      tracked := tracked - {e};
      dirty := dirty - {e};
      nextSendTick := nextSendTick - {e};
      pendingDespawn := pendingDespawn + {e};
      book := Untracked(book, e);
    }

    method OnEntityComponentRemoved(world: World, active: bool, e: Entity, t: TypeId)
      requires Valid() && world.Valid() && this !in world.repr
      modifies this
      ensures Valid() && clientReplicated == old(clientReplicated)
      ensures var left := if e in S.Contents(world.ix) then S.Contents(world.ix)[e].Keys else {};
        book == if active then OnRemoved(old(book), world.reg, e, t, left) else old(book)
    {
      hide NetType, World.Valid, S.Contents, AnyNet, NextTied, DirtyTied;
      var net := NetworkedType(world.reg, t);
      if !active || !net {
        return;
      }
      ghost var before := book;
      DirtyErased(dirty, book.dirty, e, t);
      if e in dirty {
        dirty := dirty[e := dirty[e] - {t}];
      }
      book := book.(dirty := book.dirty - {(e, t)});
      if e in tracked {
        var comps := EntityTypes(world, e);
        SameElements(comps, if e in S.Contents(world.ix) then S.Contents(world.ix)[e].Keys else {});
        var any := AnyNetworked(world.reg, comps);
        if !any {
          Untrack(e);
        }
      }
    }

    static lemma SameElements(ids: seq<TypeId>, s: set<TypeId>)
      requires ids == SortedIds(s) || (ids == [] && s == {})
      ensures Elements(ids) == s
    {
    }

    static lemma DirtyErased(d: map<Entity, set<TypeId>>, flat: set<(Entity, TypeId)>, e: Entity, t: TypeId)
      requires DirtyTied(d, flat)
      ensures DirtyTied(if e in d then d[e := d[e] - {t}] else d, flat - {(e, t)})
    {
    }

    static lemma DirtyGone(d: map<Entity, set<TypeId>>, flat: set<(Entity, TypeId)>, e: Entity)
      requires DirtyTied(d, flat)
      ensures DirtyTied(d - {e}, set p | p in flat && p.0 != e)
    {
    }

    static lemma NextGone(n: map<Entity, map<TypeId, seq<real>>>, flat: map<(Entity, TypeId), seq<real>>, e: Entity)
      requires NextTied(n, flat)
      ensures NextTied(n - {e}, map p | p in flat && p.0 != e :: flat[p])
    {
    }

    /** `reset_state`: the world was replaced wholesale. */
    method ResetState()
      modifies this
      ensures Valid() && book == IDLE && clientReplicated == {} && reconciliationInterval == old(reconciliationInterval)
    {
      tracked, dirty, pendingSpawn, pendingDespawn, clientReplicated := {}, map[], {}, {}, {};
      tickCount, reconcileAccum, elapsedTime, nextSendTick := 0, 0.0, 0.0, map[];
      book := IDLE;
    }

    static lemma DeltaStarts(reg: Registry, store: S.Store, s: Server, dirty: map<Entity, set<TypeId>>,
                             next: map<Entity, map<TypeId, seq<real>>>)
      requires DirtyTied(dirty, s.dirty) && NextTied(next, s.next)
      ensures DeltaDone(reg, store, s, [], {}) && DirtyDone(reg, store, s, dirty, {})
        && NextDone(reg, store, s, next, {}) && EncodeMany(EncodeDueEntity, []) == []
    {
    }

    static lemma DirtyEnds(reg: Registry, store: S.Store, s: Server, dirty: map<Entity, set<TypeId>>, all: set<Entity>)
      requires DirtyDone(reg, store, s, dirty, all) && forall p :: p in s.dirty ==> p.0 in all
      ensures DirtyTied(dirty, Flushed(reg, store, s).dirty)
    {
      hide Deliverable, AllDue;
      forall e, t
        ensures (e, t) in Flushed(reg, store, s).dirty <==> e in dirty && t in dirty[e]
      {
        assert (e, t).0 == e;
      }
    }

    static lemma NextEnds(reg: Registry, store: S.Store, s: Server, next: map<Entity, map<TypeId, seq<real>>>,
                          all: set<Entity>)
      requires NextDone(reg, store, s, next, all) && forall p :: p in s.dirty ==> p.0 in all
      ensures NextTied(next, Flushed(reg, store, s).next)
    {
      hide NextTicks, Deliverable, AllDue, PlanAt;
      var flat := Flushed(reg, store, s).next;
      forall e, t
        ensures (e, t) in flat <==> e in next && t in next[e]
        ensures (e, t) in flat ==> flat[(e, t)] == next[e][t]
      {
        var p := (e, t);
        assert p.0 == e && p.1 == t;
        assert p in Touched(reg, store, s) ==> p in s.dirty;
      }
    }

    static lemma DeltaEnds(reg: Registry, store: S.Store, s: Server, es: seq<DueEntity>, all: set<Entity>)
      requires DeltaDone(reg, store, s, es, all) && forall p :: p in s.dirty ==> p.0 in all
      ensures DeltaFor(reg, store, s, es)
    {
      hide Dues, CompsFor;
    }

    static lemma EntityTicks(s: Server, next: map<Entity, map<TypeId, seq<real>>>, reg: Registry, store: S.Store,
                             done: set<Entity>, e: Entity)
      requires NextDone(reg, store, s, next, done) && e !in done
      ensures forall t :: Ticks(s, (e, t)) == if e in next && t in next[e] then next[e][t] else []
    {
      hide NextTicks, PlanAt, Touched;
      forall t
        ensures Ticks(s, (e, t)) == if e in next && t in next[e] then next[e][t] else []
      {
        assert (e, t).0 == e;
      }
    }

    ghost predicate FewDirty()
      reads this
    {
      |dirty| < U32_LIMIT
    }

    /** A dead entity in the dirty table. */
    method DropDead(e: Entity, ghost reg: Registry, ghost store: S.Store, ghost s: Server, ghost es: seq<DueEntity>,
                    ghost done: set<Entity>)
      requires e !in store && DeltaDone(reg, store, s, es, done) && DirtyDone(reg, store, s, dirty, done)
        && NextDone(reg, store, s, nextSendTick, done)
      modifies this`dirty
      ensures DeltaDone(reg, store, s, es, done + {e}) && DirtyDone(reg, store, s, dirty, done + {e})
        && NextDone(reg, store, s, nextSendTick, done + {e})
      ensures dirty == old(dirty) - {e}
    {
      hide DeltaDone, DirtyDone, NextDone;
      DeltaSkips(reg, store, s, es, done, e);
      DirtyDropped(reg, store, s, dirty, done, e);
      NextSkipped(reg, store, s, nextSendTick, done, e);
      dirty := dirty - {e};
    }

    /** A live entity in the dirty table. */
    method FlushLive(world: World, e: Entity, out: BinaryBuffer, n: nat, ghost s: Server, ghost es: seq<DueEntity>,
                     ghost done: set<Entity>, ghost head: Bytes)
      returns (m: nat, ghost more: seq<DueEntity>)
      requires world.Valid() && RegistryOk(world.reg) && this !in world.repr && out !in world.repr
        && elapsedTime == s.elapsed
      requires e in dirty && e !in done && DeltaWrote(out.data, head, n, es)
      requires DeltaDone(world.reg, S.Contents(world.ix), s, es, done)
        && DirtyDone(world.reg, S.Contents(world.ix), s, dirty, done)
      requires NextDone(world.reg, S.Contents(world.ix), s, nextSendTick, done)
      modifies this`dirty, this`nextSendTick, out
      ensures DeltaWrote(out.data, head, m, more) && m <= n + 1
      ensures DeltaDone(world.reg, S.Contents(world.ix), s, more, done + {e})
        && DirtyDone(world.reg, S.Contents(world.ix), s, dirty, done + {e})
      ensures NextDone(world.reg, S.Contents(world.ix), s, nextSendTick, done + {e})
      ensures dirty.Keys <= old(dirty).Keys
        && forall x :: x != e && x in old(dirty) ==> x in dirty && dirty[x] == old(dirty)[x]
    {
      hide World.Valid, S.Contents, RegistryOk, DeltaDone, DirtyDone, NextDone, CompsDone, LeftDone, TicksDone, LE,
        EncodeDueComp, EncodeMany, DeltaWrote, Ticks;
      ghost var store, data := S.Contents(world.ix), out.data;
      m, more := n, es;
      EntityTicks(s, nextSendTick, world.reg, store, done, e);
      DirtyOf(world.reg, store, s, dirty, done, e);
      var ticks := if e in nextSendTick then nextSendTick[e] else map[];
      var left, next, k, comps;
      ghost var cs;
      left, next, k, comps, cs := FlushEntity(world, e, dirty[e], ticks, elapsedTime, s);
      DeltaMore(world.reg, store, s, es, done, e, cs, dirty[e]);
      DirtySettled(world.reg, store, s, dirty, done, e, left);
      NextSettled(world.reg, store, s, nextSendTick, done, e, dirty[e], ticks, next);
      if cs != [] {
        more := es + [DueEntity(e, cs)];
        WroteEntity(data, head, n, es, DueEntity(e, cs));
      }
      if k > 0 {
        out.WriteLE(Word(e), 8);
        out.WriteLE(k, 1);
        out.WriteBytes(comps.data);
        m := n + 1;
        ByteOf(|cs|);
        assert out.data == data + EncodeDueEntity(DueEntity(e, cs));
      }
      dirty := if left == {} then dirty - {e} else dirty[e := left];
      if next != map[] {
        nextSendTick := nextSendTick[e := next];
      }
    }

    static lemma DirtyOf(reg: Registry, store: S.Store, s: Server, dirty: map<Entity, set<TypeId>>, done: set<Entity>,
                         e: Entity)
      requires DirtyDone(reg, store, s, dirty, done) && e in dirty && e !in done
      ensures forall t :: (e, t) in s.dirty <==> t in dirty[e]
    {
      hide Stays;
    }

    /** Every dirty entity once, in any order. */
    method DrainDirty(world: World, out: BinaryBuffer) returns (n: nat, ghost es: seq<DueEntity>)
      requires Valid() && world.Valid() && RegistryOk(world.reg) && this !in world.repr && out !in world.repr
        && FewDirty()
      modifies this`dirty, this`nextSendTick, out
      ensures DeltaWrote(out.data, old(out.data), n, es) && n < U32_LIMIT
      ensures DeltaDone(world.reg, S.Contents(world.ix), book, es, old(dirty).Keys)
        && DirtyDone(world.reg, S.Contents(world.ix), book, dirty, old(dirty).Keys)
      ensures NextDone(world.reg, S.Contents(world.ix), book, nextSendTick, old(dirty).Keys)
    {
      hide World.Valid, S.Contents, RegistryOk, DeltaDone, DirtyDone, NextDone, DeltaWrote, DirtyTied, NextTied;
      ghost var s, store, head := book, S.Contents(world.ix), out.data;
      DeltaStarts(world.reg, store, s, dirty, nextSendTick);
      var all, rest := dirty, dirty.Keys;
      n, es := 0, [];
      NoneBuilt(head);
      assert all.Keys - rest == {};
      while rest != {}
        invariant rest <= all.Keys && n + |rest| <= |all.Keys| && DeltaWrote(out.data, head, n, es)
        invariant forall x :: x in rest ==> x in dirty && dirty[x] == all[x]
        invariant DeltaDone(world.reg, store, s, es, all.Keys - rest)
          && DirtyDone(world.reg, store, s, dirty, all.Keys - rest)
        invariant NextDone(world.reg, store, s, nextSendTick, all.Keys - rest)
        decreases |rest|
      {
        var e := Pick(rest);
        ghost var done := all.Keys - rest;
        var alive := LivesIn(world, e);
        if alive {
          n, es := FlushLive(world, e, out, n, s, es, done, head);
        } else {
          DropDead(e, world.reg, store, s, es, done);
        }
        rest := rest - {e};
        assert all.Keys - rest == done + {e};
      }
      assert all.Keys - {} == all.Keys;
      assert |all.Keys| == |all|;
    }

    /** `build_delta`: the count is patched in at the end, and a delta about nobody is emptied. */
    method BuildDelta(world: World) returns (out: BinaryBuffer, ghost es: seq<DueEntity>)
      requires Valid() && world.Valid() && RegistryOk(world.reg) && this !in world.repr && FewDirty()
      modifies this`dirty, this`nextSendTick, this`book
      ensures Valid() && fresh(out) && book == Flushed(world.reg, S.Contents(world.ix), old(book))
      ensures DeltaFor(world.reg, S.Contents(world.ix), old(book), es) && out.data == EncodeDelta(Carried(es))
        && |Carried(es)| < U32_LIMIT
    {
      hide World.Valid, S.Contents, RegistryOk, DeltaDone, DirtyDone, NextDone, LE, EncodeDueEntity, EncodeMany,
        DeltaWrote, DirtyTied, NextTied, Flushed, DeltaFor;
      ghost var s, store, all := book, S.Contents(world.ix), dirty.Keys;
      DirtyKeys(dirty, s.dirty);
      out := new BinaryBuffer();
      out.WriteLE(SYNC_VERSION, 2);
      var countPos := out.pos;
      out.WriteLE(0, 4);
      assert out.data == LE(SYNC_VERSION, 2) + LE(0, 4);
      var n;
      n, es := DrainDirty(world, out);
      DeltaEnds(world.reg, store, s, es, all);
      DirtyEnds(world.reg, store, s, dirty, all);
      NextEnds(world.reg, store, s, nextSendTick, all);
      book := Flushed(world.reg, store, s);
      BookOf(world.reg, store, s);
      DeltaPatched(out.data, n, es);
      if n > 0 {
        out.OverwriteU32(countPos, n);
      } else {
        out := new BinaryBuffer();
      }
    }

    static lemma BookOf(reg: Registry, store: S.Store, s: Server)
      ensures var f := Flushed(reg, store, s);
        f.tracked == s.tracked && f.spawns == s.spawns && f.despawns == s.despawns && f.elapsed == s.elapsed
          && f.accum == s.accum
    {
      hide Touched, AllDue, NextTicks;
    }

    static lemma DirtyKeys(dirty: map<Entity, set<TypeId>>, flat: set<(Entity, TypeId)>)
      requires DirtyTied(dirty, flat)
      ensures forall p :: p in flat ==> p.0 in dirty.Keys
    {
      forall p | p in flat ensures p.0 in dirty.Keys {
        var e, t := p.0, p.1;
        assert (e, t) in flat;
      }
    }

    static lemma NoneBuilt(head: Bytes)
      ensures DeltaWrote(head, head, 0, [])
    {
    }

    static lemma DeltaPatched(data: Bytes, n: nat, es: seq<DueEntity>)
      requires DeltaWrote(data, LE(SYNC_VERSION, 2) + LE(0, 4), n, es)
      ensures |data| >= 6 && n == |Carried(es)|
      ensures n > 0 ==> data[..2] + LE(n, 4) + data[6..] == EncodeDelta(Carried(es))
    {
      hide LE, EncodeMany;
      assert data[..2] == LE(SYNC_VERSION, 2);
      assert data[6..] == EncodeMany(EncodeDueEntity, Carried(es));
    }

    static method LivesIn(world: World, e: Entity) returns (alive: bool)
      requires world.Valid()
      ensures alive <==> e in S.Contents(world.ix)
    {
      hide World.Tied, World.WindowTied, S.Contents, S.Shaped, S.Sized, SlotsOk;
      world.Lookup();
      ContentsKeys(world.ix);
      if e in world.ix.loc { LiveHandle(world.ix, e); }
      alive := world.IsAlive(e);
    }

    /** The spawn packet of a live entity: all its networked components. */
    static method SpawnPacket(world: World, e: Entity) returns (data: Bytes)
      requires world.Valid() && RegistryOk(world.reg) && e in S.Contents(world.ix)
      ensures data == EncodeSpawn(NetRecord(world.reg, e, S.Contents(world.ix)[e]))
    {
      hide World.Valid, S.Contents, RegistryOk, NetParts, LE, EncodeMany, EncodeComp;
      var buf := new BinaryBuffer();
      buf.WriteLE(SYNC_VERSION, 2);
      buf.WriteLE(Word(e), 8);
      var ids := EntityTypes(world, e);
      ghost var ps := NetParts(world.reg, S.Contents(world.ix)[e], ids);
      var comps := new BinaryBuffer();
      var n := PutNetworked(world, e, ids, comps);
      buf.WriteLE(n, 2);
      buf.WriteBytes(comps.data);
      data := buf.data;
      SpawnBytes(data, Record(e, ps), comps.data);
    }

    static lemma SpawnBytes(data: Bytes, r: Record, comps: Bytes)
      requires data == [] + LE(SYNC_VERSION, 2) + LE(Word(r.id), 8) + LE(|r.parts|, 2) + comps
        && comps == [] + EncodeMany(EncodeComp, r.parts)
      ensures data == EncodeSpawn(r)
    {
      hide LE, EncodeMany, EncodeComp;
      assert data == LE(SYNC_VERSION, 2) + (LE(Word(r.id), 8) + LE(|r.parts|, 2) + comps);
    }

    static method Spawns(world: World, pending: set<Entity>) returns (packets: seq<Packet>, ghost order: seq<Entity>)
      requires world.Valid() && RegistryOk(world.reg)
      ensures Elements(order) == pending && NoDup(order)
        && packets == SpawnPackets(SpawnRecords(world.reg, S.Contents(world.ix), order))
    {
      hide World.Valid, S.Contents, RegistryOk, NetRecord, EncodeSpawn;
      packets, order := [], [];
      ghost var store := S.Contents(world.ix);
      var rest := pending;
      while rest != {}
        invariant NoDup(order) && rest !! Elements(order) && rest + Elements(order) == pending
        invariant packets == SpawnPackets(SpawnRecords(world.reg, store, order))
        decreases |rest|
      {
        var e := Pick(rest);
        var alive := LivesIn(world, e);
        OrderMore(order, e);
        ghost var rs := SpawnRecords(world.reg, store, order);
        if alive {
          var data := SpawnPacket(world, e);
          packets := packets + [Packet(Spawn, data)];
          assert (rs + [NetRecord(world.reg, e, store[e])])[..|rs|] == rs;
        }
        assert (order + [e])[..|order|] == order;
        assert SpawnRecords(world.reg, store, order + [e]) == if alive then rs + [NetRecord(world.reg, e, store[e])]
          else rs;
        order := order + [e];
        rest := rest - {e};
      }
    }

    static lemma OrderMore(order: seq<Entity>, e: Entity)
      requires NoDup(order) && e !in Elements(order)
      ensures NoDup(order + [e]) && Elements(order + [e]) == Elements(order) + {e}
    {
      assert e !in order;
    }

    static method DespawnPacket(e: Entity) returns (data: Bytes)
      ensures data == EncodeDespawn(e)
    {
      hide LE;
      var buf := new BinaryBuffer();
      buf.WriteLE(Word(e), 8);
      data := buf.data;
      assert data == LE(Word(e), 8);
    }

    static method Despawns(pending: set<Entity>) returns (packets: seq<Packet>, ghost order: seq<Entity>)
      ensures Elements(order) == pending && packets == DespawnPackets(order)
    {
      hide EncodeDespawn, DespawnPackets, NoDup;
      packets, order := [], [];
      var rest := pending;
      assert DespawnPackets([]) == [] && NoDup<Entity>([]) by { NobodyDespawned(); }
      while rest != {}
        invariant NoDup(order) && rest !! Elements(order) && rest + Elements(order) == pending
        invariant packets == DespawnPackets(order)
        decreases |rest|
      {
        var e := Pick(rest);
        OrderMore(order, e);
        var data := DespawnPacket(e);
        packets := packets + [Packet(Despawn, data)];
        DespawnPacketsSnoc(order, e);
        order := order + [e];
        rest := rest - {e};
      }
    }

    static lemma NobodyDespawned()
      ensures DespawnPackets([]) == [] && NoDup<Entity>([])
    {
    }

    static lemma DespawnPacketsSnoc(order: seq<Entity>, e: Entity)
      ensures DespawnPackets(order + [e]) == DespawnPackets(order) + [Packet(Despawn, EncodeDespawn(e))]
    {
      hide EncodeDespawn;
      assert (order + [e])[..|order|] == order;
    }

    static lemma CleanFlushed(reg: Registry, store: S.Store, s: Server)
      requires s.dirty == {}
      ensures Flushed(reg, store, s) == s && DeltaFor(reg, store, s, [])
    {
      hide Deliverable, AllDue, NextTicks, PlanAt, Dues;
      assert Touched(reg, store, s) == {};
      assert Flushed(reg, store, s).next == s.next;
    }

    static lemma NothingDirty(dirty: map<Entity, set<TypeId>>, flat: set<(Entity, TypeId)>)
      requires DirtyTied(dirty, flat) && dirty == map[]
      ensures flat == {}
    {
      forall p: (Entity, TypeId) ensures p !in flat {
        var e, t := p.0, p.1;
        assert (e, t) !in flat;
      }
    }

    /** Deltas of one tick: the builder is not called when nothing is dirty, and an empty packet is not sent. */
    method SendDelta(world: World) returns (packets: seq<Packet>, ghost es: seq<DueEntity>)
      requires Valid() && world.Valid() && RegistryOk(world.reg) && this !in world.repr && FewDirty()
      modifies this`dirty, this`nextSendTick, this`book
      ensures Valid() && book == Flushed(world.reg, S.Contents(world.ix), old(book))
      ensures DeltaFor(world.reg, S.Contents(world.ix), old(book), es) && packets == DeltaPackets(es)
    {
      hide World.Valid, S.Contents, RegistryOk, DirtyTied, NextTied, Flushed, DeltaFor, EncodeMany, LE;
      packets, es := [], [];
      if dirty != map[] {
        var buf;
        buf, es := BuildDelta(world);
        if |buf.data| > 0 {
          packets := [Packet(Delta, buf.data)];
        }
      } else {
        NothingDirty(dirty, book.dirty);
        CleanFlushed(world.reg, S.Contents(world.ix), book);
      }
    }

    static lemma Dropped(n: map<Entity, map<TypeId, seq<real>>>, flat: map<(Entity, TypeId), seq<real>>,
                         gone: set<Entity>)
      requires NextTied(n, flat)
      ensures NextTied(n - gone, map p | p in flat && p.0 !in gone :: flat[p])
    {
    }

    /** The periodic full state. */
    static method SendFull(world: World, signature: seq<TypeId> -> int)
      returns (packets: seq<Packet>, ghost walk: seq<Entity>)
      requires world.Valid() && RegistryOk(world.reg)
      ensures Elements(walk) == S.Contents(world.ix).Keys && NoDup(walk)
      ensures packets == FullPackets(NetRecords(world.reg, S.Contents(world.ix), walk))
    {
      hide World.Valid, S.Contents, RegistryOk, NetRecords, LE, EncodeMany, AllKeys;
      var buf;
      ghost var ks;
      buf, ks := SerializeFullState(world, signature);
      walk := Walk(world.ix, ks);
      WalkIsAll(world, ks);
      packets := if |buf.data| > 0 then [Packet(FullState, buf.data)] else [];
    }

    static lemma WalkIsAll(world: World, ks: seq<S.Key>)
      requires world.Valid() && AllKeys(world.ix, ks)
      ensures Elements(Walk(world.ix, ks)) == S.Contents(world.ix).Keys && NoDup(Walk(world.ix, ks))
        && world.ix.reg == world.reg
    {
      hide World.Tied, World.WindowTied, S.Contents, S.Sized, SlotsOk, Walk;
      world.Lookup();
      WalkMeetsOnce(world.ix, ks);
      LivesInArch(world.ix);
      ContentsKeys(world.ix);
      var walk := Walk(world.ix, ks);
      forall e
        ensures e in Elements(walk) <==> e in S.Contents(world.ix).Keys
      {
        assert e in Elements(walk) <==> e in walk;
      }
    }

    static lemma AnyWalk(store: S.Store) returns (walk: seq<Entity>)
      ensures Elements(walk) == store.Keys && NoDup(walk)
    {
      walk := SortedIds(store.Keys);
      assert forall e :: e in walk <==> e in store.Keys;
    }

    /** The part of a tick that follows the queues: spawns, then the delta, then despawns. */
    method SendQueued(world: World, delta: real)
      returns (packets: seq<Packet>, ghost sp: seq<Entity>, ghost es: seq<DueEntity>, ghost dp: seq<Entity>)
      requires Valid() && world.Valid() && RegistryOk(world.reg) && this !in world.repr && FewDirty()
      modifies this`tickCount, this`elapsedTime, this`pendingSpawn, this`pendingDespawn, this`dirty,
        this`nextSendTick, this`book
      ensures Valid() && book == Queued(world.reg, S.Contents(world.ix), old(book), delta)
      ensures Elements(sp) == old(book).spawns && NoDup(sp) && Elements(dp) == old(book).despawns
      ensures DeltaFor(world.reg, S.Contents(world.ix), Advanced(old(book), delta), es)
      ensures packets == SpawnPackets(SpawnRecords(world.reg, S.Contents(world.ix), sp)) + DeltaPackets(es)
        + DespawnPackets(dp)
    {
      hide World.Valid, S.Contents, RegistryOk, DirtyTied, NextTied, Flushed, DeltaFor, SpawnRecords, SpawnPackets,
        DespawnPackets, DeltaPackets;
      tickCount := tickCount + 1;
      elapsedTime := elapsedTime + delta;
      var spawned, deltas, despawned;
      spawned, sp := Spawns(world, pendingSpawn);
      pendingSpawn := {};
      book := Advanced(book, delta);
      ghost var adv := book;
      deltas, es := SendDelta(world);
      BookOf(world.reg, S.Contents(world.ix), adv);
      despawned, dp := Despawns(pendingDespawn);
      Dropped(nextSendTick, book.next, pendingDespawn);
      nextSendTick := nextSendTick - pendingDespawn;
      book := Queued(world.reg, S.Contents(world.ix), old(book), delta);
      pendingDespawn := {};
      packets := spawned + deltas + despawned;
    }

    /** `tick`: what is queued, then now and then the full state. */
    method Tick(world: World, server: bool, delta: real, signature: seq<TypeId> -> int)
      returns (packets: seq<Packet>, ghost o: Sending)
      requires Valid() && world.Valid() && RegistryOk(world.reg) && this !in world.repr && FewDirty()
      modifies this
      ensures Valid() && clientReplicated == old(clientReplicated)
        && reconciliationInterval == old(reconciliationInterval)
      ensures !server ==> book == old(book) && packets == []
      ensures (server ==>
        && book == TickState(old(book), world.reg, S.Contents(world.ix), delta, reconciliationInterval)
        && SendingFor(world.reg, S.Contents(world.ix), old(book), delta, o)
        && packets == TickPackets(world.reg, S.Contents(world.ix),
           Reconciles(old(book), delta, reconciliationInterval), o))
    {
      hide World.Valid, S.Contents, RegistryOk, DirtyTied, NextTied, Flushed, DeltaFor, NetRecords, SpawnRecords,
        SpawnPackets, DespawnPackets, DeltaPackets;
      packets, o := [], Sending([], [], [], []);
      if !server {
        return;
      }
      ghost var s, store := book, S.Contents(world.ix);
      ghost var sp, es, dp, walk;
      packets, sp, es, dp := SendQueued(world, delta);
      QueuedAccum(world.reg, store, s, delta);
      reconcileAccum := reconcileAccum + delta;
      if reconcileAccum >= reconciliationInterval {
        reconcileAccum := 0.0;
        var full;
        full, walk := SendFull(world, signature);
        packets := packets + full;
      } else {
        walk := AnyWalk(store);
        assert packets + [] == packets;
      }
      book := book.(accum := reconcileAccum);
      o := Sending(sp, es, dp, walk);
    }

    /** One archetype of `seed_from_world`. */
    method SeedRows(reg: Registry, a: Archetype)
      requires Valid()
      modifies this`tracked, this`pendingSpawn, this`book
      ensures Valid()
        && book == SeededWith(old(book), if AnyNet(reg, Elements(a.componentIds)) then Elements(a.entities) else {})
    {
      hide NetType, AnyNet, DirtyTied, NextTied;
      ghost var s := book;
      ghost var any := AnyNet(reg, Elements(a.componentIds));
      assert SeededWith(s, {}) == s;
      for row := 0 to |a.entities|
        invariant Valid() && book == SeededWith(s, if any then Elements(a.entities[..row]) else {})
      {
        var net := AnyNetworked(reg, a.componentIds);
        ghost var before := if any then Elements(a.entities[..row]) else {};
        assert Elements(a.entities[..row + 1]) == Elements(a.entities[..row]) + {a.entities[row]} by {
          assert a.entities[..row + 1] == a.entities[..row] + [a.entities[row]];
        }
        if net {
          var e := a.entities[row];
          SeedMore(s, before, e);
          if e !in tracked {
            tracked, pendingSpawn := tracked + {e}, pendingSpawn + {e};
          }
          book := book.(tracked := tracked, spawns := pendingSpawn);
        }
      }
      assert a.entities[..|a.entities|] == a.entities;
    }

    static lemma SeedMore(s: Server, es: set<Entity>, e: Entity)
      ensures var m := SeededWith(s, es);
        SeededWith(s, es + {e}) == if e in m.tracked then m
          else m.(tracked := m.tracked + {e}, spawns := m.spawns + {e})
    {
      var m, n := SeededWith(s, es), SeededWith(s, es + {e});
      assert n.tracked == m.tracked + {e};
      assert n.spawns == if e in m.tracked then m.spawns else m.spawns + {e};
    }

    static lemma SeedTwice(s: Server, a: set<Entity>, b: set<Entity>)
      ensures SeededWith(SeededWith(s, a), b) == SeededWith(s, a + b)
    {
      assert SeededWith(SeededWith(s, a), b).tracked == SeededWith(s, a + b).tracked;
      assert SeededWith(SeededWith(s, a), b).spawns == SeededWith(s, a + b).spawns;
    }

    /** `seed_from_world`: entities not tracked yet are tracked and queued for spawn; seeding again respawns nobody. */
    method SeedFromWorld(world: World, server: bool)
      requires Valid() && world.Valid() && this !in world.repr
      modifies this`tracked, this`pendingSpawn, this`book
      ensures Valid() && book == if server then SeededWith(old(book), NetEntities(world.reg, S.Contents(world.ix)))
        else old(book)
    {
      hide NetType, World.Valid, S.Contents, DirtyTied, NextTied, AnyNet, HasNet, SeededWith;
      if !server {
        return;
      }
      ghost var s, seen := book, {};
      assert SeededWith(s, {}) == s by { SeedNobody(s); }
      for i := 0 to |world.archetypeList|
        invariant Valid() && book == SeededWith(s, seen) && seen == SeenIn(world, i)
      {
        var a := world.archetypeList[i];
        SeedRows(world.reg, a);
        ghost var more := if AnyNet(world.reg, Elements(a.componentIds)) then Elements(a.entities) else {};
        SeedTwice(s, seen, more);
        SeenMore(world, i);
        seen := seen + more;
      }
      SeenAll(world);
    }

    static lemma SeedNobody(s: Server)
      ensures SeededWith(s, {}) == s
    {
    }

    /** Entities with a networked component among the first n archetypes. */
    static ghost function SeenIn(world: World, n: nat): set<Entity>
      requires n <= |world.archetypeList|
      reads world, set a | a in world.archetypeList
    {
      if n == 0 then {} else
        var a := world.archetypeList[n - 1];
        SeenIn(world, n - 1) + if AnyNet(world.reg, Elements(a.componentIds)) then Elements(a.entities) else {}
    }

    static lemma SeenMore(world: World, i: nat)
      requires i < |world.archetypeList|
      ensures var a := world.archetypeList[i];
        SeenIn(world, i + 1) == SeenIn(world, i) + if AnyNet(world.reg, Elements(a.componentIds))
          then Elements(a.entities) else {}
    {
    }

    static lemma {:induction false} SeenAre(world: World, n: nat, e: Entity)
      requires n <= |world.archetypeList|
      ensures e in SeenIn(world, n) <==>
        exists i :: 0 <= i < n && AnyNet(world.reg, Elements(world.archetypeList[i].componentIds))
          && e in world.archetypeList[i].entities
    {
      hide AnyNet;
      if n > 0 { SeenAre(world, n - 1, e); }
    }

    static lemma SeenAll(world: World)
      requires world.Valid()
      ensures SeenIn(world, |world.archetypeList|) == NetEntities(world.reg, S.Contents(world.ix))
    {
      hide NetType, World.Valid, S.Contents, AnyNet, HasNet, SeenIn;
      forall e
        ensures e in SeenIn(world, |world.archetypeList|) <==> e in NetEntities(world.reg, S.Contents(world.ix))
      {
        SeenAre(world, |world.archetypeList|, e);
        if e in S.Contents(world.ix) {
          var i := HomeIndex(world, e);
          NetOfHome(world, e, i);
        }
        if e in SeenIn(world, |world.archetypeList|) {
          var i :| 0 <= i < |world.archetypeList| && AnyNet(world.reg, Elements(world.archetypeList[i].componentIds))
            && e in world.archetypeList[i].entities;
          NetOfHome(world, e, i);
        }
      }
    }

    static lemma HomeIndex(world: World, e: Entity) returns (i: nat)
      requires world.Valid() && e in S.Contents(world.ix)
      ensures i < |world.archetypeList| && e in world.archetypeList[i].entities
    {
      hide World.WindowTied, S.Contents, S.Sized, SlotsOk, QueryCache.Consistent;
      ContentsKeys(world.ix);
      world.UseOk();
      assert S.Placed(world.ix, e);
      var a := ListHas(world, world.ix.loc[e].key);
      world.Reach(a);
      world.InList(a);
      i :| 0 <= i < |world.archetypeList| && world.archetypeList[i] == a;
    }

    static lemma NetOfHome(world: World, e: Entity, i: nat)
      requires world.Valid() && i < |world.archetypeList| && e in world.archetypeList[i].entities
      ensures e in S.Contents(world.ix)
      ensures AnyNet(world.reg, Elements(world.archetypeList[i].componentIds))
        <==> HasNet(world.reg, S.Contents(world.ix)[e])
    {
      hide NetType, World.Valid, S.Contents;
      var a := world.archetypeList[i];
      var row :| 0 <= row < |a.entities| && a.entities[row] == e;
      RowKnown(world, a, row);
      assert forall t :: t in Elements(a.componentIds) <==> t in S.Contents(world.ix)[e];
    }

    /** `apply_packet` on the receiving side. */
    method Receive(world: World, kind: Kind, data: Bytes) returns (ghost order: seq<Entity>)
      requires Valid() && Loadable(world) && this !in world.repr
      modifies this`clientReplicated, world, world.repr, world.queryCache
      ensures Valid() && book == old(book) && Loadable(world) && Elements(order) == old(clientReplicated)
      ensures (world.Model(), clientReplicated) ==
        Received(old(world.Model()), old(clientReplicated), kind, data, order)
    {
      hide Loadable, Received, World.Model, DirtyTied, NextTied;
      var now;
      now, order := ApplyPacket(world, clientReplicated, kind, data);
      clientReplicated := now;
    }
  }

  ghost function SeededWith(s: Server, es: set<Entity>): Server {
    s.(tracked := s.tracked + es, spawns := s.spawns + (es - s.tracked))
  }

  /** A server that is seeded before anything else is the one every run starts with. */
  lemma SeedStarts(c: ServerRuns.Setting, store: S.Store)
    ensures SeededWith(IDLE, NetEntities(c.reg, store)) == Start(c, store).server
  {
    hide HasNet;
  }

  /** The bookkeeping once the queues are empty, before the reconciliation clock moves. */
  ghost function Queued(reg: Registry, store: S.Store, s: Server, delta: real): Server {
    var f := Flushed(reg, store, Advanced(s, delta));
    f.(next := (map p | p in f.next && p.0 !in s.despawns :: f.next[p]), despawns := {})
  }

  lemma QueuedAccum(reg: Registry, store: S.Store, s: Server, delta: real)
    ensures Queued(reg, store, s, delta).accum == s.accum
  {
    hide Touched, AllDue, NextTicks, PlanAt;
  }
}
