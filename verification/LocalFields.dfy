/** Servers that differ only in local or non-networked fields send identical packets. */
module LocalFields {
  import opened Base
  import opened Schema
  import opened Storage
  import opened CommandLaws
  import opened Wire
  import opened SnapshotFormat
  import opened Snapshots
  import opened SaveLoad
  import opened SyncPlan
  import opened Packets
  import opened Replicas
  import opened Servers
  import opened ServerLaws

  /** The same components, and in the networked ones the same bytes in every field that may cross the wire. */
  ghost predicate SameNet(reg: Registry, a: Comps, b: Comps) {
    && a.Keys == b.Keys && CompsSized(reg, a) && CompsSized(reg, b) && RegistryOk(reg)
    && forall t :: t in a && NetType(reg, t) ==> SameRow(reg, t, a[t], b[t])
  }

  ghost predicate SameRow(reg: Registry, t: TypeId, a: Bytes, b: Bytes) {
    && Registered(reg, t) && RegistryOk(reg) && |a| == SizeOf(reg, t) && |b| == SizeOf(reg, t)
    && (SchemaFits(reg, t); SameOnWireFields(SchemaOf(reg, t), a, b))
  }

  ghost predicate SameNetStore(reg: Registry, a: Store, b: Store) {
    a.Keys == b.Keys && forall e :: e in a ==> SameNet(reg, a[e], b[e])
  }

  lemma SamePart(reg: Registry, a: Comps, b: Comps, t: TypeId)
    requires SameNet(reg, a, b) && NetType(reg, t)
    ensures NetPart(reg, a, t) == NetPart(reg, b, t)
  {
    hide Block, FieldsOk, PlanFor, PlanOf, RegistryOk, CompsSized, SameOnWireFields, IsNetworked;
    if t in a {
      assert SameRow(reg, t, a[t], b[t]);
      var s := SchemaOf(reg, t);
      SchemaFits(reg, t);
      PlanOfOk(s.fields);
      PlanMask(s.fields);
      LocalStaysLocal(s, PlanOf(s.fields), SpawnMask(s.fields), a[t], b[t]);
    }
  }

  lemma PlanMask(fields: seq<Field>)
    ensures PlanOf(fields).spawnMask == SpawnMask(fields)
  {
  }

  lemma {:induction false} SameParts(reg: Registry, a: Comps, b: Comps, ids: seq<TypeId>)
    requires SameNet(reg, a, b)
    ensures NetParts(reg, a, ids) == NetParts(reg, b, ids)
  {
    hide NetPart, NetType, SameNet;
    if ids != [] {
      SameParts(reg, a, b, ids[..|ids| - 1]);
      if NetType(reg, ids[|ids| - 1]) { SamePart(reg, a, b, ids[|ids| - 1]); }
    }
  }

  lemma SameNetRecord(reg: Registry, e: Entity, a: Comps, b: Comps)
    requires SameNet(reg, a, b)
    ensures NetRecord(reg, e, a) == NetRecord(reg, e, b)
  {
    hide NetParts, NetType;
    SameParts(reg, a, b, SortedIds(a.Keys));
  }

  lemma {:induction false} SameFullRecords(reg: Registry, a: Store, b: Store, es: seq<Entity>)
    requires SameNetStore(reg, a, b)
    ensures NetRecords(reg, a, es) == NetRecords(reg, b, es)
  {
    hide NetRecord, SameNet;
    if es != [] {
      var e := es[|es| - 1];
      SameFullRecords(reg, a, b, es[..|es| - 1]);
      if e in a { SameNetRecord(reg, e, a[e], b[e]); }
    }
  }

  lemma {:induction false} SameSpawnRecords(reg: Registry, a: Store, b: Store, es: seq<Entity>)
    requires SameNetStore(reg, a, b)
    ensures SpawnRecords(reg, a, es) == SpawnRecords(reg, b, es)
  {
    hide NetRecord, SameNet;
    if es != [] {
      var e := es[|es| - 1];
      SameSpawnRecords(reg, a, b, es[..|es| - 1]);
      if e in a { SameNetRecord(reg, e, a[e], b[e]); }
    }
  }

  lemma {:induction false} SameDues(reg: Registry, t: TypeId, a: Bytes, b: Bytes, ticks: seq<real>, now: real, n: nat)
    requires SameRow(reg, t, a, b) && n <= |PlanAt(reg, t).intervals|
    ensures DuesUpTo(reg, t, a, ticks, now, n) == DuesUpTo(reg, t, b, ticks, now, n)
  {
    hide PlanAt, SameRow, DueAtTime, DueOf;
    if n > 0 {
      SameDues(reg, t, a, b, ticks, now, n - 1);
      SameDue(reg, t, a, b, n - 1);
    }
  }

  lemma SameDue(reg: Registry, t: TypeId, a: Bytes, b: Bytes, i: nat)
    requires SameRow(reg, t, a, b) && i < |PlanAt(reg, t).intervals|
    ensures DueOf(reg, t, a, i) == DueOf(reg, t, b, i)
  {
    hide Block, FieldsOk, PlanFor, PlanAt, RegistryOk, SameOnWireFields;
    PlanKnown(reg, t);
    SchemaFits(reg, t);
    assert PlanAt(reg, t).masks[i] in PlanAt(reg, t).masks;
    LocalStaysLocal(SchemaOf(reg, t), PlanAt(reg, t), PlanAt(reg, t).masks[i], a, b);
  }

  lemma NetRow(reg: Registry, a: Comps, b: Comps, t: TypeId)
    requires SameNet(reg, a, b)
    ensures (t in a <==> t in b) && (t in a && NetType(reg, t) ==> SameRow(reg, t, a[t], b[t]))
  {
    hide NetType, SameRow;
  }

  lemma SameDelivery(reg: Registry, a: Store, b: Store, s: Server, p: (Entity, TypeId))
    requires SameNetStore(reg, a, b)
    ensures Dues(reg, a, s, p) == Dues(reg, b, s, p) && (Deliverable(reg, a, p) <==> Deliverable(reg, b, p))
  {
    hide PlanAt, DuesUpTo, NetType, SameRow, SameNet;
    var e, t := p.0, p.1;
    if e in a {
      NetRow(reg, a[e], b[e], t);
      if Deliverable(reg, a, p) {
        SameDues(reg, t, a[e][t], b[e][t], Ticks(s, p), s.elapsed, |PlanAt(reg, t).intervals|);
      }
    }
  }

  lemma SameDeltas(reg: Registry, a: Store, b: Store, s: Server, es: seq<DueEntity>)
    requires SameNetStore(reg, a, b) && DeltaFor(reg, a, s, es)
    ensures DeltaFor(reg, b, s, es)
  {
    hide Dues, SameNetStore, TypesOf, IdsOfDelta;
    forall p ensures Dues(reg, a, s, p) == Dues(reg, b, s, p) { SameDelivery(reg, a, b, s, p); }
    forall i | 0 <= i < |es|
      ensures CompsFor(reg, b, s, es[i].id, es[i].comps)
    {
      assert CompsFor(reg, a, s, es[i].id, es[i].comps);
    }
  }

  /** Local and non-networked fields never reach the wire: whatever one server may send in a tick, the other may send
      byte for byte, and their bookkeeping stays the same. */
  lemma LocalNeverSent(reg: Registry, a: Store, b: Store, s: Server, delta: real, period: real, o: Sending)
    requires SameNetStore(reg, a, b) && SendingFor(reg, a, s, delta, o)
    ensures SendingFor(reg, b, s, delta, o)
      && TickState(s, reg, a, delta, period) == TickState(s, reg, b, delta, period)
    ensures TickPackets(reg, a, Reconciles(s, delta, period), o) == TickPackets(reg, b, Reconciles(s, delta, period), o)
  {
    hide SameNetStore, DeltaFor, NetRecords, SpawnRecords, SpawnPackets, DeltaPackets, DespawnPackets, FullPackets,
      NoDup, Deliverable, NextTicks, AllDue, PlanAt;
    SameDeltas(reg, a, b, Advanced(s, delta), o.delta);
    SameSpawnRecords(reg, a, b, o.spawned);
    SameFullRecords(reg, a, b, o.walk);
    assert a.Keys == b.Keys by { SameEntities(reg, a, b); }
    var adv := Advanced(s, delta);
    forall p ensures p in Touched(reg, a, adv) <==> p in Touched(reg, b, adv) { SameDelivery(reg, a, b, adv, p); }
    assert Touched(reg, a, adv) == Touched(reg, b, adv);
  }

  lemma SameEntities(reg: Registry, a: Store, b: Store)
    requires SameNetStore(reg, a, b)
    ensures a.Keys == b.Keys
  {
    hide SameNet;
  }
}
