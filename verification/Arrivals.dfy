/** What arrives of a delta: all of it if its counts fit, and how much otherwise. */
module Arrivals {
  import opened Base
  import opened Schema
  import opened Storage
  import opened Operations
  import opened CommandLaws
  import opened Wire
  import opened SnapshotFormat
  import opened Snapshots
  import opened SaveLoad
  import opened SyncPlan
  import opened Packets
  import opened Replicas
  import opened Deltas
  import opened Servers
  import opened ServerLaws
  import opened ServerRuns

  // ------------------------------------------------------------------ what the server sends fits the format

  lemma DueOfFits(reg: Registry, t: TypeId, row: Bytes, b: nat)
    requires RegistryOk(reg) && Registered(reg, t) && |row| == SizeOf(reg, t) && b < |PlanAt(reg, t).intervals|
    ensures DueFits(SchemaOf(reg, t), DueOf(reg, t, row, b))
  {
    hide PlanAt, PlanFor, RegistryOk, Block, BlockSize;
    PlanKnown(reg, t);
    SchemaFits(reg, t);
    FewBuckets(SchemaOf(reg, t).fields, PlanAt(reg, t));
  }

  lemma {:induction false} DuesFit(reg: Registry, t: TypeId, row: Bytes, ticks: seq<real>, now: real, n: nat)
    requires RegistryOk(reg) && Registered(reg, t) && |row| == SizeOf(reg, t) && n <= |PlanAt(reg, t).intervals|
    ensures var ds := DuesUpTo(reg, t, row, ticks, now, n);
      |ds| <= n && forall i :: 0 <= i < |ds| ==> DueFits(SchemaOf(reg, t), ds[i])
  {
    hide PlanAt, RegistryOk, DueOf, DueFits, DueAtTime, Registered;
    if n > 0 {
      DuesFit(reg, t, row, ticks, now, n - 1);
      DueOfFits(reg, t, row, n - 1);
    }
  }

  lemma FewTiers(reg: Registry, t: TypeId)
    ensures |PlanAt(reg, t).intervals| <= 4
  {
    hide PlanOf, PlanFor;
    if Registered(reg, t) {
      PlanKnown(reg, t);
      FewBuckets(SchemaOf(reg, t).fields, PlanAt(reg, t));
    }
  }

  lemma DeltaCompFits(c: Setting, store: Store, s: Server, e: Entity, comp: DueComp)
    requires StoreOk(c, store) && e in store && comp.dues == Dues(c.reg, store, s, (e, comp.t)) && comp.dues != []
    ensures DueCompFits(c.reg, comp)
  {
    hide RegistryOk, PlanAt, DuesUpTo, DueFits, BlockSize, IsNetworked, IsHandle, AcceptsForeign;
    var p := (e, comp.t);
    assert p.0 == e && p.1 == comp.t && CompsSized(c.reg, store[e]);
    DuesFit(c.reg, comp.t, store[e][comp.t], Ticks(s, p), s.elapsed, |PlanAt(c.reg, comp.t).intervals|);
    FewTiers(c.reg, comp.t);
  }

  /** Entities of a delta, each once, with just its due components, but perhaps not all entities. */
  ghost predicate PartOf(reg: Registry, store: Store, s: Server, es: seq<DueEntity>) {
    && (forall i, j :: 0 <= i < j < |es| ==> es[i].id != es[j].id)
    && forall i :: 0 <= i < |es| ==> CompsFor(reg, store, s, es[i].id, es[i].comps) && es[i].comps != []
  }

  /** Everything the server builds fits the format, but for the counts. */
  lemma DeltaFits(c: Setting, store: Store, s: Server, es: seq<DueEntity>)
    requires StoreOk(c, store) && PartOf(c.reg, store, s, es)
    ensures forall i :: 0 <= i < |es| ==> DueEntityOk(c.reg, es[i])
  {
    hide RegistryOk, DueCompFits, AcceptsForeign, IsHandle, CompsSized;
    forall i | 0 <= i < |es| ensures DueEntityOk(c.reg, es[i]) {
      var e, cs := es[i].id, es[i].comps;
      assert CompsFor(c.reg, store, s, e, cs);
      assert (e, cs[0].t).0 == e;
      assert Deliverable(c.reg, store, (e, cs[0].t));
      forall j | 0 <= j < |cs| ensures DueCompFits(c.reg, cs[j]) { DeltaCompFits(c, store, s, e, cs[j]); }
    }
  }

  /** A delta arrives as it was built if and only if it has fewer than 2^32 entities, each with fewer than 256 due
      components. */
  lemma DeltaArrivesIff(c: Setting, store: Store, s: Server, es: seq<DueEntity>)
    requires StoreOk(c, store) && DeltaFor(c.reg, store, s, es)
    ensures Arriving(c.reg, es) == es <==> Countable(es)
    ensures Countable(es) ==> !Garbles(c.reg, es)
  {
    hide DueEntityOk, StoreOk, CompsFor, Arriving, Carried, Dues;
    DeltaFits(c, store, s, es);
    ArrivesIff(c.reg, es);
    if Countable(es) {
      forall i | 0 <= i < |es| ensures Counted(es[i]) { assert DueEntityOk(c.reg, es[i]); Nonempty(c.reg, es[i]); }
      CarriedAll(es);
    }
  }

  // ------------------------------------------------------------------ parts of a delta

  lemma PartOfFront(reg: Registry, store: Store, s: Server, front: seq<DueEntity>, e: DueEntity)
    requires PartOf(reg, store, s, front + [e])
    ensures PartOf(reg, store, s, front) && forall d :: d in front ==> d.id != e.id
  {
    hide CompsFor;
    var es := front + [e];
    assert es[|front|] == e && forall i :: 0 <= i < |front| ==> es[i] == front[i];
  }

  lemma PartOfMore(reg: Registry, store: Store, s: Server, es: seq<DueEntity>, cs: seq<DueEntity>, e: DueEntity)
    requires PartOf(reg, store, s, es) && PartOf(reg, store, s, cs) && e in es && forall d :: d in cs ==> d.id != e.id
    ensures PartOf(reg, store, s, cs + [e])
  {
    hide CompsFor;
    forall i | 0 <= i < |cs| ensures cs[i].id != e.id { assert cs[i] in cs; }
  }

  lemma {:induction false} CarriedPart(reg: Registry, store: Store, s: Server, es: seq<DueEntity>)
    requires PartOf(reg, store, s, es)
    ensures PartOf(reg, store, s, Carried(es))
  {
    hide PartOf, Counted;
    if es == [] {
      assert Carried(es) == es;
    } else {
      var front, e := es[..|es| - 1], es[|es| - 1];
      assert es == front + [e];
      PartOfFront(reg, store, s, front, e);
      CarriedPart(reg, store, s, front);
      CarriedAre(front);
      if Counted(e) {
        PartOfMore(reg, store, s, es, Carried(front), e);
      } else {
        assert Carried(es) == Carried(front);
      }
    }
  }

  /** What arrives, if it was understood, is part of what was built. */
  lemma ArrivingPart(reg: Registry, store: Store, s: Server, es: seq<DueEntity>)
    requires DeltaFor(reg, store, s, es) && !Garbles(reg, es)
    ensures PartOf(reg, store, s, Arriving(reg, es))
  {
    hide CompsFor, Arriving, Carried;
    CarriedPart(reg, store, s, es);
  }

  /** Not even a count that overflows garbles a delta, if it is the count of the last entity. */
  lemma LastIsClean(c: Setting, store: Store, s: Server, es: seq<DueEntity>)
    requires StoreOk(c, store) && DeltaFor(c.reg, store, s, es) && es != [] && |es| < U32_LIMIT
      && Countable(es[..|es| - 1])
    ensures !Garbles(c.reg, es)
    ensures Landed(c.reg, es) ==
      if |es[|es| - 1].comps| < 256 then IdsOfDelta(es) else if Counted(es[|es| - 1]) then {}
        else IdsOfDelta(es[..|es| - 1])
  {
    hide DueEntityOk, StoreOk, CompsFor, Arriving, Dues;
    DeltaFits(c, store, s, es);
    var front, e := es[..|es| - 1], es[|es| - 1];
    if |e.comps| < 256 {
      DeltaArrivesIff(c, store, s, es);
      assert forall i :: 0 <= i < |front| ==> front[i] == es[i];
      assert Countable(es);
    } else {
      LastOverflows(c.reg, es);
      forall i | 0 <= i < |front| ensures Counted(front[i]) {
        assert front[i] == es[i];
        Nonempty(c.reg, es[i]);
      }
      CarriedAll(front);
      assert IdsOfDelta([]) == {};
    }
  }
}
