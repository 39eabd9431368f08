/** What delta, spawn and despawn packets do to a receiving world. */
module Deltas {
  import opened Base
  import opened Schema
  import opened Storage
  import opened StorageLaws
  import opened Operations
  import opened CommandLaws
  import opened Wire
  import opened SnapshotFormat
  import opened Snapshots
  import opened SaveLoad
  import opened SyncPlan
  import opened Packets
  import opened Replicas

  // ------------------------------------------------------------------ on the world

  /** A row with the fields of one due bucket replaced. */
  ghost function Overlaid(reg: Registry, t: TypeId, row: Bytes, d: Due): Bytes {
    if !Registered(reg, t) || !RegistryOk(reg) || |row| != SizeOf(reg, t)
      || |d.block| != BlockSize(SchemaOf(reg, t), d.mask) then row
    else ReadBlock(SchemaOf(reg, t), d.mask, row, d.block)
  }

  ghost function ApplyDue(w: World, e: Entity, t: TypeId, d: Due): World {
    if e !in Contents(w.ix) || t !in Contents(w.ix)[e] then w
      else Poke(w, e, t, Overlaid(w.ix.reg, t, Contents(w.ix)[e][t], d))
  }

  ghost function ApplyDues(w: World, e: Entity, t: TypeId, ds: seq<Due>): World {
    if ds == [] then w else ApplyDue(ApplyDues(w, e, t, ds[..|ds| - 1]), e, t, ds[|ds| - 1])
  }

  /** Version 1 always starts from zeroes; version 2 adds the component only when it is missing. */
  ghost function Presented(w: World, version: nat, e: Entity, t: TypeId): World {
    if version == 1 || !Has(w.ix, e, t) then AddRaw(w, e, t, None) else w
  }

  /** Nothing happens to an entity that died locally. */
  ghost function ApplyDueComp(w: World, version: nat, e: Entity, c: DueComp): World {
    if !Alive(w.ix, e) then w else ApplyDues(Presented(w, version, e, c.t), e, c.t, c.dues)
  }

  ghost function ApplyDueComps(w: World, version: nat, e: Entity, cs: seq<DueComp>): World {
    if cs == [] then w else ApplyDueComp(ApplyDueComps(w, version, e, cs[..|cs| - 1]), version, e, cs[|cs| - 1])
  }

  ghost function ApplyDelta(w: World, version: nat, es: seq<DueEntity>): World {
    if es == [] then w else
      ApplyDueComps(ApplyDelta(w, version, es[..|es| - 1]), version, es[|es| - 1].id, es[|es| - 1].comps)
  }

  /** A refused id leaves everything but the slot table alone. */
  ghost function ApplySpawn(w: World, r: Record): World {
    if AcceptsForeign(r.id) && r.id !in w.ix.loc then LoadParts(CreatePreassigned(w, r.id), r.id, r.parts)
      else CreatePreassigned(w, r.id)
  }

  // ------------------------------------------------------------------ on the store

  ghost function MergeDues(reg: Registry, t: TypeId, row: Bytes, ds: seq<Due>): Bytes {
    if ds == [] then row else Overlaid(reg, t, MergeDues(reg, t, row, ds[..|ds| - 1]), ds[|ds| - 1])
  }

  ghost function StartRow(reg: Registry, comps: Comps, version: nat, t: TypeId): Bytes {
    if version != 1 && t in comps then comps[t] else if Registered(reg, t) then Zeros(SizeOf(reg, t)) else []
  }

  ghost function MergeComp(reg: Registry, comps: Comps, version: nat, c: DueComp): Comps {
    comps[c.t := MergeDues(reg, c.t, StartRow(reg, comps, version, c.t), c.dues)]
  }

  ghost function MergeComps(reg: Registry, comps: Comps, version: nat, cs: seq<DueComp>): Comps {
    if cs == [] then comps else MergeComp(reg, MergeComps(reg, comps, version, cs[..|cs| - 1]), version, cs[|cs| - 1])
  }

  ghost function MergeDelta(reg: Registry, store: Store, version: nat, es: seq<DueEntity>): Store {
    if es == [] then store else
      var s := MergeDelta(reg, store, version, es[..|es| - 1]);
      var e := es[|es| - 1];
      if e.id in s then s[e.id := MergeComps(reg, s[e.id], version, e.comps)] else s
  }

  // ------------------------------------------------------------------ the world does what the store says

  lemma ApplyDueOk(w: World, e: Entity, t: TypeId, d: Due)
    requires Healthy(w) && e in Contents(w.ix) && t in Contents(w.ix)[e] && Registered(w.ix.reg, t)
    ensures var v := ApplyDue(w, e, t, d);
      Healthy(v) && v.ix.reg == w.ix.reg && v.ix.loc == w.ix.loc && v.depth == w.depth
      && Contents(v.ix) == Contents(w.ix)[e := Contents(w.ix)[e][t := Overlaid(w.ix.reg, t, Contents(w.ix)[e][t], d)]]
  {
    hide Coherent, SlotsOk, Contents, RegistryOk, Poke, ReadBlock, BlockSize, SizeOf, SchemaOf, Registered;
    ContentsKeys(w.ix);
    StoredComps(w.ix, e);
    SchemaFits(w.ix.reg, t);
    PokeOk(w, e, t, Overlaid(w.ix.reg, t, Contents(w.ix)[e][t], d));
  }

  lemma {:induction false} ApplyDuesOk(w: World, e: Entity, t: TypeId, ds: seq<Due>)
    requires Healthy(w) && e in Contents(w.ix) && t in Contents(w.ix)[e] && Registered(w.ix.reg, t)
    ensures var v := ApplyDues(w, e, t, ds);
      Healthy(v) && v.ix.reg == w.ix.reg && v.ix.loc == w.ix.loc && v.depth == w.depth
      && Contents(v.ix) == Contents(w.ix)[e := Contents(w.ix)[e][t := MergeDues(w.ix.reg, t, Contents(w.ix)[e][t], ds)]]
  {
    hide Healthy, Contents, ApplyDue, Overlaid, Registered;
    if ds == [] {
      NoWrite(Contents(w.ix), e, t);
    } else {
      ApplyDuesOk(w, e, t, ds[..|ds| - 1]);
      var front := MergeDues(w.ix.reg, t, Contents(w.ix)[e][t], ds[..|ds| - 1]);
      ApplyDueOk(ApplyDues(w, e, t, ds[..|ds| - 1]), e, t, ds[|ds| - 1]);
      TwoWrites(Contents(w.ix), e, t, front, Overlaid(w.ix.reg, t, front, ds[|ds| - 1]));
    }
  }

  lemma NoWrite(s: Store, e: Entity, t: TypeId)
    requires e in s && t in s[e]
    ensures s[e := s[e][t := s[e][t]]] == s
  {
    assert s[e][t := s[e][t]] == s[e];
  }

  lemma PresentedOk(w: World, version: nat, e: Entity, t: TypeId)
    requires Healthy(w) && Alive(w.ix, e) && Registered(w.ix.reg, t) && (w.depth <= 0 || Has(w.ix, e, t))
    ensures var v := Presented(w, version, e, t);
      Healthy(v) && v.ix.reg == w.ix.reg && v.ix.loc.Keys == w.ix.loc.Keys && v.depth == w.depth
      && e in Contents(w.ix) && Contents(v.ix) == Contents(w.ix)[e :=
         Contents(w.ix)[e][t := StartRow(w.ix.reg, Contents(w.ix)[e], version, t)]]
      && Has(v.ix, e, t)
  {
    hide Coherent, SlotsOk, Contents, RegistryOk, AddRaw, SizeOf, Registered;
    ContentsKeys(w.ix);
    StoredComps(w.ix, e);
    var comps := Contents(w.ix)[e];
    var v := Presented(w, version, e, t);
    if version == 1 || !Has(w.ix, e, t) {
      NoData(w.ix.reg, t);
      AddRawOk(w, e, t, None);
    } else {
      NoWrite(Contents(w.ix), e, t);
    }
    ContentsKeys(v.ix);
    StoredComps(v.ix, e);
  }

  /** A component of a delta: present it, then overlay each due bucket. */
  lemma ApplyDueCompOk(w: World, version: nat, e: Entity, c: DueComp)
    requires Healthy(w) && Alive(w.ix, e) && Registered(w.ix.reg, c.t) && (w.depth <= 0 || Has(w.ix, e, c.t))
    ensures var v := ApplyDueComp(w, version, e, c);
      Healthy(v) && v.ix.reg == w.ix.reg && v.ix.loc.Keys == w.ix.loc.Keys && v.depth == w.depth
      && e in Contents(w.ix) && Contents(v.ix) == Contents(w.ix)[e :=
         MergeComp(w.ix.reg, Contents(w.ix)[e], version, c)]
  {
    hide Healthy, Contents, Presented, ApplyDues, MergeDues, StartRow, Registered, Has;
    var m := Presented(w, version, e, c.t);
    PresentedOk(w, version, e, c.t);
    ApplyDuesOk(m, e, c.t, c.dues);
    TwoWrites(Contents(w.ix), e, c.t, StartRow(w.ix.reg, Contents(w.ix)[e], version, c.t),
              MergeDues(w.ix.reg, c.t, StartRow(w.ix.reg, Contents(w.ix)[e], version, c.t), c.dues));
  }

  lemma TwoWrites(s: Store, e: Entity, t: TypeId, a: Bytes, b: Bytes)
    requires e in s
    ensures var m := s[e := s[e][t := a]]; m[e := m[e][t := b]] == s[e := s[e][t := b]]
  {
    assert s[e][t := a][t := b] == s[e][t := b];
  }

  lemma {:induction false} ApplyDueCompsOk(w: World, version: nat, e: Entity, cs: seq<DueComp>)
    requires Receptive(w) && forall i :: 0 <= i < |cs| ==> Registered(w.ix.reg, cs[i].t)
    ensures var v := ApplyDueComps(w, version, e, cs);
      Receptive(v) && v.ix.reg == w.ix.reg && v.ix.loc.Keys == w.ix.loc.Keys
      && (e in Contents(w.ix) <==> Alive(w.ix, e))
      && Contents(v.ix) == if e in Contents(w.ix)
         then Contents(w.ix)[e := MergeComps(w.ix.reg, Contents(w.ix)[e], version, cs)] else Contents(w.ix)
  {
    hide Contents, WorldOk, RegistryOk, ApplyDueComp, MergeComp, Registered;
    AliveIsStored(w, e);
    if cs == [] {
      if e in Contents(w.ix) { assert Contents(w.ix)[e := Contents(w.ix)[e]] == Contents(w.ix); }
    } else {
      var front, c := cs[..|cs| - 1], cs[|cs| - 1];
      ApplyDueCompsOk(w, version, e, front);
      var m := ApplyDueComps(w, version, e, front);
      if Alive(w.ix, e) {
        ApplyDueCompOk(m, version, e, c);
        assert m.ix.reg == w.ix.reg;
      } else {
        DeadUntouched(m, version, e, c);
      }
    }
  }

  lemma DeadUntouched(w: World, version: nat, e: Entity, c: DueComp)
    requires !Alive(w.ix, e)
    ensures ApplyDueComp(w, version, e, c) == w
  {
  }

  lemma AliveIsStored(w: World, e: Entity)
    requires Healthy(w)
    ensures e in Contents(w.ix) <==> Alive(w.ix, e)
  {
    hide Sized, SlotsOk, RegistryOk, Contents;
    ContentsKeys(w.ix);
    if e in w.ix.loc { LiveHandle(w.ix, e); }
  }

  /** A delta rewrites the components it names of the entities that are still alive, bucket by bucket, and nothing
      else. */
  lemma {:induction false} ApplyDeltaOk(w: World, version: nat, es: seq<DueEntity>)
    requires Receptive(w) && forall i, j :: 0 <= i < |es| && 0 <= j < |es[i].comps| ==>
      Registered(w.ix.reg, es[i].comps[j].t)
    ensures var v := ApplyDelta(w, version, es);
      Receptive(v) && v.ix.reg == w.ix.reg && v.ix.loc.Keys == w.ix.loc.Keys
      && Contents(v.ix) == MergeDelta(w.ix.reg, Contents(w.ix), version, es)
  {
    hide Contents, Receptive, ApplyDueComps, MergeComps, Registered;
    if es != [] {
      var front := es[..|es| - 1];
      forall i, j | 0 <= i < |front| && 0 <= j < |front[i].comps|
        ensures Registered(w.ix.reg, front[i].comps[j].t)
      {
        assert front[i] == es[i];
      }
      ApplyDeltaOk(w, version, front);
      ApplyDueCompsOk(ApplyDelta(w, version, front), version, es[|es| - 1].id, es[|es| - 1].comps);
    }
  }

  lemma ApplySpawnOk(w: World, r: Record)
    requires Receptive(w) && IsHandle(r.id)
    ensures var v := ApplySpawn(w, r);
      Receptive(v) && v.ix.reg == w.ix.reg
      && Contents(v.ix) ==
        if AcceptsForeign(r.id) && r.id !in Contents(w.ix) then Contents(w.ix)[r.id := Built(w.ix.reg, r.parts)]
          else Contents(w.ix)
  {
    hide WorldOk, Contents, RegistryOk, CreatePreassigned, AcceptsForeign, LoadParts, Built, RowsIn;
    ContentsKeys(w.ix);
    if AcceptsForeign(r.id) && r.id !in w.ix.loc {
      CreatedOnTop(w, r.id);
      PartsOnTop(w.ix, CreatePreassigned(w, r.id), r.id, r.parts);
    } else {
      CreatePreassignedOk(w, r.id);
      CreatePreassignedKeeps(w, r.id);
    }
  }
}
