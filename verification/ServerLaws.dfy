/** How the server's bookkeeping follows a batch of events, and what its deltas do to a replica's rows. */
module ServerLaws {
  import opened Base
  import opened Schema
  import opened Storage
  import opened CommandLaws
  import opened Wire
  import opened SnapshotFormat
  import opened Snapshots
  import opened SyncPlan
  import opened Packets
  import opened Replicas
  import opened Deltas
  import opened Servers

  // ------------------------------------------------------------------ batches of events about one entity

  ghost predicate AddedNet(reg: Registry, evs: seq<Event>) {
    exists v :: v in evs && v.AddedEvent? && NetType(reg, v.t)
  }

  ghost predicate RemovedNet(reg: Registry, evs: seq<Event>) {
    exists v :: v in evs && v.RemovedEvent? && NetType(reg, v.t)
  }

  /** A batch about one entity, delivered after the fact: what it says was added or changed is there, what was
      removed is not. */
  ghost predicate About(e: Entity, evs: seq<Event>, left: set<TypeId>) {
    forall v :: v in evs ==>
      (v.AddedEvent? && v.e == e && v.t in left)
      || (v.ChangedEvent? && v.e == e && v.t in left)
      || (v.RemovedEvent? && v.e == e && v.t !in left)
  }

  ghost predicate Wrote(e: Entity, t: TypeId, evs: seq<Event>) {
    AddedEvent(e, t) in evs || ChangedEvent(e, t) in evs
  }

  /** While a networked component is left, the entity stays or becomes tracked, and each networked write to a
      tracked entity leaves its component dirty. */
  ghost predicate StillTracked(s: Server, u: Server, reg: Registry, e: Entity, evs: seq<Event>) {
    && u.next == s.next && u.despawns == s.despawns && u.elapsed == s.elapsed && u.accum == s.accum
    && u.tracked == (if AddedNet(reg, evs) then s.tracked + {e} else s.tracked)
    && u.spawns == (if e !in s.tracked && AddedNet(reg, evs) then s.spawns + {e} else s.spawns)
    && KeptDirty(s, u, reg, e, evs)
  }

  ghost predicate KeptDirty(s: Server, u: Server, reg: Registry, e: Entity, evs: seq<Event>) {
    && (forall p: (Entity, TypeId) :: p.0 != e ==> (p in u.dirty <==> p in s.dirty))
    && forall t :: DirtyAt(s, u, reg, e, evs, t)
  }

  ghost predicate DirtyAt(s: Server, u: Server, reg: Registry, e: Entity, evs: seq<Event>, t: TypeId) {
    && ((e, t) in u.dirty ==>
      ((e, t) in s.dirty && !(RemovedEvent(e, t) in evs && NetType(reg, t)))
      || (Wrote(e, t, evs) && NetType(reg, t)))
    && ((e, t) in s.dirty && RemovedEvent(e, t) !in evs ==> (e, t) in u.dirty)
    && (Wrote(e, t, evs) && NetType(reg, t) && e in s.tracked ==> (e, t) in u.dirty)
  }

  lemma DirtyStepAt(s: Server, m: Server, reg: Registry, e: Entity, front: seq<Event>, v: Event, left: set<TypeId>,
                    t: TypeId)
    requires About(e, front + [v], left) && AnyNet(reg, left) && DirtyAt(s, m, reg, e, front, t)
      && (e in s.tracked ==> e in m.tracked)
    ensures DirtyAt(s, Handle(m, reg, v, left), reg, e, front + [v], t)
  {
    hide AnyNet, NetType;
    var evs := front + [v];
    assert forall x :: x in evs <==> x in front || x == v;
    assert v in evs;
  }

  lemma DirtyStep(s: Server, m: Server, reg: Registry, e: Entity, front: seq<Event>, v: Event, left: set<TypeId>)
    requires About(e, front + [v], left) && AnyNet(reg, left) && KeptDirty(s, m, reg, e, front)
      && (e in s.tracked ==> e in m.tracked)
    ensures KeptDirty(s, Handle(m, reg, v, left), reg, e, front + [v])
  {
    hide AnyNet, NetType, DirtyAt;
    assert v in front + [v];
    forall t
      ensures DirtyAt(s, Handle(m, reg, v, left), reg, e, front + [v], t)
    {
      DirtyStepAt(s, m, reg, e, front, v, left, t);
    }
  }

  lemma KeptStep(s: Server, m: Server, reg: Registry, e: Entity, front: seq<Event>, v: Event, left: set<TypeId>)
    requires About(e, front + [v], left) && AnyNet(reg, left) && StillTracked(s, m, reg, e, front)
    ensures StillTracked(s, Handle(m, reg, v, left), reg, e, front + [v])
  {
    hide AnyNet, NetType, KeptDirty;
    var evs := front + [v];
    DirtyStep(s, m, reg, e, front, v, left);
    assert forall x :: x in evs <==> x in front || x == v;
    assert v in evs;
    assert AddedNet(reg, evs) <==> AddedNet(reg, front) || (v.AddedEvent? && NetType(reg, v.t));
  }

  lemma {:induction false} BatchKeeps(s: Server, reg: Registry, e: Entity, evs: seq<Event>, left: set<TypeId>)
    requires About(e, evs, left) && AnyNet(reg, left)
    ensures StillTracked(s, HandleAll(s, reg, evs, left), reg, e, evs)
  {
    hide AnyNet, StillTracked, Handle;
    if evs == [] {
      NothingKept(s, reg, e);
    } else {
      var front, v := evs[..|evs| - 1], evs[|evs| - 1];
      assert evs == front + [v];
      BatchKeeps(s, reg, e, front, left);
      KeptStep(s, HandleAll(s, reg, front, left), reg, e, front, v, left);
    }
  }

  lemma NothingKept(s: Server, reg: Registry, e: Entity)
    ensures StillTracked(s, s, reg, e, [])
  {
  }

  /** When none is left, a tracked entity is untracked, once. */
  lemma {:induction false} BatchLoses(s: Server, reg: Registry, e: Entity, evs: seq<Event>, left: set<TypeId>)
    requires About(e, evs, left) && !AnyNet(reg, left) && forall p :: p in s.dirty ==> p.0 in s.tracked
    ensures HandleAll(s, reg, evs, left) == if e in s.tracked && RemovedNet(reg, evs) then Untracked(s, e) else s
  {
    if evs != [] {
      var front, v := evs[..|evs| - 1], evs[|evs| - 1];
      assert evs == front + [v];
      assert v in evs && forall x :: x in evs <==> x in front || x == v;
      BatchLoses(s, reg, e, front, left);
      assert RemovedNet(reg, evs) <==> RemovedNet(reg, front) || (v.RemovedEvent? && NetType(reg, v.t));
      if v.RemovedEvent? && NetType(reg, v.t) { LoseOne(s, e, v.t); }
    }
  }

  lemma LoseOne(s: Server, e: Entity, t: TypeId)
    requires forall p :: p in s.dirty ==> p.0 in s.tracked
    ensures Untracked(s.(dirty := s.dirty - {(e, t)}), e) == Untracked(s, e)
    ensures Untracked(s, e).(dirty := Untracked(s, e).dirty - {(e, t)}) == Untracked(s, e)
    ensures e !in s.tracked ==> s.dirty - {(e, t)} == s.dirty
  {
    assert (set p | p in s.dirty - {(e, t)} && p.0 != e) == (set p | p in s.dirty && p.0 != e);
    assert Untracked(s, e).dirty - {(e, t)} == Untracked(s, e).dirty;
  }

  // ------------------------------------------------------------------ rows in step

  /** The fields of one bucket read the same on both sides. */
  ghost predicate BucketSync(reg: Registry, t: TypeId, b: nat, row: Bytes, copy: Bytes) {
    && Registered(reg, t) && RegistryOk(reg) && |row| == SizeOf(reg, t) && |copy| == SizeOf(reg, t)
       && b < |PlanAt(reg, t).masks|
    && forall i :: 0 <= i < |SchemaOf(reg, t).fields| && Included(PlanAt(reg, t).masks[b], i) ==>
       IsCopy(SchemaOf(reg, t).fields[i], row, copy)
  }

  /** A bucket in step means the same values on both sides, texts included. */
  lemma InStep(reg: Registry, t: TypeId, b: nat, row: Bytes, copy: Bytes, i: nat)
    requires BucketSync(reg, t, b, row, copy) && i < |SchemaOf(reg, t).fields| && Included(PlanAt(reg, t).masks[b], i)
    ensures SameValue(SchemaOf(reg, t).fields[i], row, copy)
  {
    hide RegistryOk, SameValue, IsCopy, PlanAt;
    SchemaFits(reg, t);
    CopyIsSame(SchemaOf(reg, t).fields[i], row, copy);
  }

  lemma PlanKnown(reg: Registry, t: TypeId)
    requires Registered(reg, t)
    ensures PlanFor(SchemaOf(reg, t).fields, PlanAt(reg, t))
    ensures |PlanAt(reg, t).masks| == |PlanAt(reg, t).intervals|
      && forall iv :: iv in PlanAt(reg, t).intervals ==> iv >= 0.0
    ensures forall b :: 0 <= b < |PlanAt(reg, t).masks| ==> |PlanAt(reg, t).masks[b]| == |SchemaOf(reg, t).fields|
  {
    hide PlanOf;
    var fields := SchemaOf(reg, t).fields;
    PlanOfOk(fields);
    forall b | 0 <= b < |PlanAt(reg, t).masks| ensures |PlanAt(reg, t).masks[b]| == |fields| {
      assert MaskOf(fields, PlanAt(reg, t).masks[b], f => InBucket(f, PlanAt(reg, t).intervals[b]));
    }
  }

  /** A spawned or reconciled component is in step in every bucket. */
  lemma ReplicaSync(reg: Registry, t: TypeId, b: nat, row: Bytes)
    requires Registered(reg, t) && RegistryOk(reg) && |row| == SizeOf(reg, t) && b < |PlanAt(reg, t).intervals|
    ensures BucketSync(reg, t, b, row, ReplicaRow(reg, t, row))
  {
    hide PlanAt, PlanFor, ReplicaRow, RegistryOk, IsCopy;
    PlanKnown(reg, t);
    var fields := SchemaOf(reg, t).fields;
    if fields == [] { RowSize(reg, t, row); } else { FieldsArrive(reg, t, row, 0); }
    forall i | 0 <= i < |fields| && Included(PlanAt(reg, t).masks[b], i)
      ensures IsCopy(fields[i], row, ReplicaRow(reg, t, row))
    {
      BucketsPartition(fields, PlanAt(reg, t), i);
      FieldsArrive(reg, t, row, i);
      SchemaFits(reg, t);
    }
  }

  lemma RowSize(reg: Registry, t: TypeId, row: Bytes)
    requires Registered(reg, t) && RegistryOk(reg) && |row| == SizeOf(reg, t)
    ensures |ReplicaRow(reg, t, row)| == SizeOf(reg, t)
  {
    hide ReadBlock, Block;
    SchemaFits(reg, t);
  }

  lemma OverlaySize(reg: Registry, t: TypeId, copy: Bytes, d: Due)
    ensures |Overlaid(reg, t, copy, d)| == |copy|
  {
    hide ReadBlock, BlockSize;
    if Registered(reg, t) && RegistryOk(reg) { SchemaFits(reg, t); }
  }

  /** Overlaying a due bucket brings it in step, whatever was there before. */
  lemma DueArrives(reg: Registry, t: TypeId, b: nat, row: Bytes, copy: Bytes)
    requires Registered(reg, t) && RegistryOk(reg) && |row| == SizeOf(reg, t) && |copy| == SizeOf(reg, t)
      && b < |PlanAt(reg, t).intervals|
    ensures BucketSync(reg, t, b, row, Overlaid(reg, t, copy, DueOf(reg, t, row, b)))
  {
    hide PlanAt, PlanFor, RegistryOk, IsCopy, BlockSize, ReadBlock, Block;
    PlanKnown(reg, t);
    SchemaFits(reg, t);
    var s := SchemaOf(reg, t);
    var mask := PlanAt(reg, t).masks[b];
    OverlaySize(reg, t, copy, DueOf(reg, t, row, b));
    forall i | 0 <= i < |s.fields| && Included(mask, i)
      ensures IsCopy(s.fields[i], row, Overlaid(reg, t, copy, DueOf(reg, t, row, b)))
    {
      FieldIsCopied(s, mask, row, copy, i);
    }
  }

  /** Overlaying one bucket leaves every other bucket as it was. */
  lemma OthersStay(reg: Registry, t: TypeId, b: nat, c: nat, row: Bytes, copy: Bytes)
    requires BucketSync(reg, t, c, row, copy) && b < |PlanAt(reg, t).intervals| && b != c
    ensures BucketSync(reg, t, c, row, Overlaid(reg, t, copy, DueOf(reg, t, row, b)))
  {
    hide PlanAt, PlanFor, RegistryOk, IsCopy, BlockSize, ReadBlock, Block, FieldWidth;
    PlanKnown(reg, t);
    SchemaFits(reg, t);
    var s := SchemaOf(reg, t);
    var plan, d := PlanAt(reg, t), DueOf(reg, t, row, b);
    var after := Overlaid(reg, t, copy, d);
    OverlaySize(reg, t, copy, d);
    forall i | 0 <= i < |s.fields| && Included(plan.masks[c], i) ensures IsCopy(s.fields[i], row, after) {
      BucketsPartition(s.fields, plan, i);
      OneBucket(s.fields, plan, i, b, c);
      assert IsCopy(s.fields[i], row, copy);
      UnmaskedStays(s, plan.masks[b], copy, d.block, i);
      SameField(s.fields[i], s, row, copy, after);
    }
  }

  lemma OneBucket(fields: seq<Field>, plan: Plan, i: nat, b: nat, c: nat)
    requires PlanFor(fields, plan) && i < |fields| && b < |plan.masks| && c < |plan.masks| && b != c
      && Included(plan.masks[c], i)
    ensures !Included(plan.masks[b], i)
  {
    hide PlanFor;
    BucketsPartition(fields, plan, i);
  }

  lemma SameField(f: Field, s: Schema, row: Bytes, copy: Bytes, after: Bytes)
    requires FieldsOk(s.fields, s.size) && f in s.fields && |copy| == s.size && |after| == s.size
      && IsCopy(f, row, copy)
    requires f.offset + f.byteSize <= s.size
      && after[f.offset..f.offset + f.byteSize] == copy[f.offset..f.offset + f.byteSize]
    ensures IsCopy(f, row, after)
  {
    assert FieldWidth(f) <= f.byteSize;
    forall k | f.offset <= k < f.offset + FieldWidth(f) ensures after[k] == copy[k] {
      assert after[f.offset..f.offset + f.byteSize][k - f.offset] ==
        copy[f.offset..f.offset + f.byteSize][k - f.offset];
    }
  }

  /** After a delta's records for one component, each due bucket is in step and the others are as before. */
  lemma {:induction false} DuesSync(reg: Registry, t: TypeId, row: Bytes, copy: Bytes, ticks: seq<real>, now: real,
                                    n: nat, c: nat)
    requires Registered(reg, t) && RegistryOk(reg) && |row| == SizeOf(reg, t) && |copy| == SizeOf(reg, t)
    requires n <= |PlanAt(reg, t).intervals| && c < |PlanAt(reg, t).intervals|
    requires (c < n && DueAtTime(ticks, c, now)) || BucketSync(reg, t, c, row, copy)
    ensures var after := MergeDues(reg, t, copy, DuesUpTo(reg, t, row, ticks, now, n));
      |after| == SizeOf(reg, t) && BucketSync(reg, t, c, row, after)
  {
    hide PlanAt, BucketSync, RegistryOk, Overlaid, DueOf;
    if n > 0 {
      var front := DuesUpTo(reg, t, row, ticks, now, n - 1);
      MergedSize(reg, t, copy, front);
      if DueAtTime(ticks, n - 1, now) {
        var m := MergeDues(reg, t, copy, front);
        assert (front + [DueOf(reg, t, row, n - 1)])[..|front|] == front;
        OverlaySize(reg, t, m, DueOf(reg, t, row, n - 1));
        if c == n - 1 {
          DueArrives(reg, t, c, row, m);
        } else {
          DuesSync(reg, t, row, copy, ticks, now, n - 1, c);
          OthersStay(reg, t, n - 1, c, row, m);
        }
      } else {
        DuesSync(reg, t, row, copy, ticks, now, n - 1, c);
      }
    }
  }

  lemma {:induction false} MergedSize(reg: Registry, t: TypeId, copy: Bytes, ds: seq<Due>)
    ensures |MergeDues(reg, t, copy, ds)| == |copy|
  {
    hide Overlaid;
    if ds != [] {
      MergedSize(reg, t, copy, ds[..|ds| - 1]);
      OverlaySize(reg, t, MergeDues(reg, t, copy, ds[..|ds| - 1]), ds[|ds| - 1]);
    }
  }

  // ------------------------------------------------------------------ whole deltas

  lemma {:induction false} MergedTypes(reg: Registry, comps: Comps, cs: seq<DueComp>, t: TypeId)
    ensures t !in TypesOf(cs) ==> (t in MergeComps(reg, comps, 2, cs) <==> t in comps)
    ensures t !in TypesOf(cs) && t in comps ==> MergeComps(reg, comps, 2, cs)[t] == comps[t]
    ensures t in TypesOf(cs) || t in comps ==> t in MergeComps(reg, comps, 2, cs)
  {
    hide MergeDues, StartRow;
    if cs != [] {
      var front, c := cs[..|cs| - 1], cs[|cs| - 1];
      MergedTypes(reg, comps, front, t);
      TypesSnoc(cs);
    }
  }

  lemma TypesSnoc(cs: seq<DueComp>)
    requires cs != []
    ensures TypesOf(cs) == TypesOf(cs[..|cs| - 1]) + {cs[|cs| - 1].t}
  {
    var front := cs[..|cs| - 1];
    forall t ensures t in TypesOf(cs) <==> t in TypesOf(front) + {cs[|cs| - 1].t} {
      if t in TypesOf(front) {
        var j :| 0 <= j < |front| && front[j].t == t;
        assert cs[j].t == t;
      }
      if t in TypesOf(cs) && t != cs[|cs| - 1].t {
        var j :| 0 <= j < |cs| && cs[j].t == t;
        assert front[j].t == t;
      }
    }
  }

  /** A component named once in a delta is merged once. */
  lemma {:induction false} MergedComp(reg: Registry, comps: Comps, cs: seq<DueComp>, j: nat)
    requires j < |cs| && forall a, b :: 0 <= a < b < |cs| ==> cs[a].t != cs[b].t
    ensures cs[j].t in MergeComps(reg, comps, 2, cs)
    ensures MergeComps(reg, comps, 2, cs)[cs[j].t] ==
      MergeDues(reg, cs[j].t, StartRow(reg, comps, 2, cs[j].t), cs[j].dues)
  {
    hide MergeDues;
    var front := cs[..|cs| - 1];
    if j < |cs| - 1 {
      MergedComp(reg, comps, front, j);
    } else {
      assert cs[j].t !in TypesOf(front);
      MergedTypes(reg, comps, front, cs[j].t);
    }
  }

  lemma {:induction false} MergedStore(reg: Registry, store: Store, es: seq<DueEntity>, e: Entity)
    requires forall a, b :: 0 <= a < b < |es| ==> es[a].id != es[b].id
    ensures e in MergeDelta(reg, store, 2, es) <==> e in store
    ensures e in store && e !in IdsOfDelta(es) ==> MergeDelta(reg, store, 2, es)[e] == store[e]
    ensures forall i :: 0 <= i < |es| && es[i].id == e && e in store ==>
      MergeDelta(reg, store, 2, es)[e] == MergeComps(reg, store[e], 2, es[i].comps)
  {
    hide MergeComps;
    if es != [] {
      var front, d := es[..|es| - 1], es[|es| - 1];
      MergedStore(reg, store, front, e);
      IdsSnoc(es);
      if d.id == e {
        assert e !in IdsOfDelta(front);
      } else {
        forall i | 0 <= i < |es| && es[i].id == e ensures i < |front| && front[i] == es[i] {}
      }
    }
  }

  lemma IdsSnoc(es: seq<DueEntity>)
    requires es != []
    ensures IdsOfDelta(es) == IdsOfDelta(es[..|es| - 1]) + {es[|es| - 1].id}
  {
    var front := es[..|es| - 1];
    forall e ensures e in IdsOfDelta(es) <==> e in IdsOfDelta(front) + {es[|es| - 1].id} {
      if e in IdsOfDelta(front) {
        var i :| 0 <= i < |front| && front[i].id == e;
        assert es[i].id == e;
      }
      if e in IdsOfDelta(es) && e != es[|es| - 1].id {
        var i :| 0 <= i < |es| && es[i].id == e;
        assert front[i].id == e;
      }
    }
  }
}
