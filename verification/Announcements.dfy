/** What is announced is what happens: the events tell which entity has which components, and every change of bytes is
    announced, but for a delta packet that overwrites fields of a component that is there. */
module Announcements {
  import opened Base
  import opened Schema
  import opened Storage
  import opened StorageLaws
  import opened Operations
  import opened Commands
  import opened CommandLaws
  import opened Wire
  import opened Buffers
  import opened SnapshotFormat
  import opened Snapshots
  import opened SaveLoad
  import opened Replicas
  import opened Deltas
  import opened Attempts
  import opened Receiving
  import opened Runs
  import Packets
  import opened Stamps
  import opened ServerRuns
  import opened Delivery

  /** The component types of an entity once some events have happened. */
  ghost function TypesAfter(types: set<TypeId>, e: Entity, evs: seq<Event>): set<TypeId> {
    if evs == [] then types else
      var before := TypesAfter(types, e, evs[..|evs| - 1]);
      match evs[|evs| - 1]
      case AddedEvent(x, t) => if x == e then before + {t} else before
      case RemovedEvent(x, t) => if x == e then before - {t} else before
      case ChangedEvent(_, _) => before
      case ClearedEvent => {}
  }

  ghost predicate Announces(evs: seq<Event>, e: Entity, t: TypeId) {
    AddedEvent(e, t) in evs || ChangedEvent(e, t) in evs
  }

  /** A component that was not there, or had other bytes. */
  ghost predicate Rewrote(before: Option<Comps>, after: Option<Comps>, t: TypeId) {
    t in TypesIn(after) && (t !in TypesIn(before) || before.value[t] != after.value[t])
  }

  ghost predicate EntityTold(before: Option<Comps>, after: Option<Comps>, e: Entity, evs: seq<Event>, but: set<Pair>) {
    && TypesIn(after) == TypesAfter(TypesIn(before), e, evs)
    && forall t :: (e, t) !in but && Rewrote(before, after, t) ==> Announces(evs, e, t)
  }

  ghost function News(a: World, b: World): seq<Event> {
    if a.events <= b.events then b.events[|a.events|..] else []
  }

  /** The events between two worlds tell what happened to every entity, but for the bytes of some components. */
  ghost predicate Told(a: World, b: World, but: set<Pair>) {
    a.events <= b.events
    && forall e :: EntityTold(Lookup(Contents(a.ix), e), Lookup(Contents(b.ix), e), e, News(a, b), but)
  }

  /** A component that is there has been announced. */
  ghost predicate HeardOf(a: World, b: World, e: Entity, t: TypeId) {
    t in TypesIn(Lookup(Contents(b.ix), e)) ==> Announces(News(a, b), e, t)
  }

  // ------------------------------------------------------------------ putting steps together

  lemma {:induction false} TypesTwice(types: set<TypeId>, e: Entity, xs: seq<Event>, ys: seq<Event>)
    ensures TypesAfter(types, e, xs + ys) == TypesAfter(TypesAfter(types, e, xs), e, ys)
    decreases |ys|
  {
    if ys == [] {
      assert xs + ys == xs;
    } else {
      assert (xs + ys)[..|xs + ys| - 1] == xs + ys[..|ys| - 1];
      TypesTwice(types, e, xs, ys[..|ys| - 1]);
    }
  }

  lemma NewsTwice(a: World, b: World, c: World)
    requires a.events <= b.events && b.events <= c.events
    ensures a.events <= c.events && News(a, c) == News(a, b) + News(b, c)
  {
  }

  lemma EntityToldTwice(x: Option<Comps>, y: Option<Comps>, z: Option<Comps>, e: Entity, xs: seq<Event>, ys: seq<Event>,
                        but: set<Pair>, more: set<Pair>)
    requires EntityTold(x, y, e, xs, but) && EntityTold(y, z, e, ys, more)
    ensures EntityTold(x, z, e, xs + ys, but + more)
  {
    hide TypesAfter;
    TypesTwice(TypesIn(x), e, xs, ys);
    forall t | (e, t) !in but + more && Rewrote(x, z, t) ensures Announces(xs + ys, e, t) {
      if Rewrote(y, z, t) {
        assert Announces(ys, e, t);
      } else {
        assert Rewrote(x, y, t) && Announces(xs, e, t);
      }
    }
  }

  lemma ToldTwice(a: World, b: World, c: World, but: set<Pair>, more: set<Pair>)
    requires Told(a, b, but) && Told(b, c, more)
    ensures Told(a, c, but + more)
  {
    hide Contents, EntityTold, News;
    NewsTwice(a, b, c);
    forall e
      ensures EntityTold(Lookup(Contents(a.ix), e), Lookup(Contents(c.ix), e), e, News(a, c), but + more)
    {
      EntityToldTwice(Lookup(Contents(a.ix), e), Lookup(Contents(b.ix), e), Lookup(Contents(c.ix), e), e, News(a, b),
                      News(b, c), but, more);
    }
  }

  lemma ToldThen(a: World, b: World, c: World, but: set<Pair>)
    requires Told(a, b, but) && Told(b, c, {})
    ensures Told(a, c, but)
  {
    hide Told;
    ToldTwice(a, b, c, but, {});
    assert but + {} == but;
  }

  lemma ToldMore(a: World, b: World, but: set<Pair>, more: set<Pair>)
    requires Told(a, b, but) && but <= more
    ensures Told(a, b, more)
  {
    hide Contents, TypesAfter, Announces;
  }

  lemma HeardSince(a: World, w: World, b: World, but: set<Pair>, e: Entity, t: TypeId)
    requires Told(a, w, but) && Told(w, b, {}) && HeardOf(w, b, e, t)
    ensures HeardOf(a, b, e, t)
  {
    hide Contents, EntityTold, News;
    NewsTwice(a, w, b);
    assert forall v :: v in News(w, b) ==> v in News(a, b);
  }

  // ------------------------------------------------------------------ one step

  /** Nothing announced, and no entity rewritten. */
  lemma ToldSame(a: World, b: World)
    requires b.events == a.events && forall e :: SameComps(Lookup(Contents(a.ix), e), Lookup(Contents(b.ix), e))
    ensures Told(a, b, {})
  {
    hide Contents;
    assert News(a, b) == [];
  }

  /** The same components with the same bytes, an entity without any counting as none. */
  ghost predicate SameComps(before: Option<Comps>, after: Option<Comps>) {
    TypesIn(before) == TypesIn(after) && forall t :: t in TypesIn(after) ==> before.value[t] == after.value[t]
  }

  lemma SameStore(a: World, b: World)
    requires b.events == a.events && Contents(b.ix) == Contents(a.ix)
    ensures Told(a, b, {})
  {
    hide Contents, Told;
    ToldSame(a, b);
  }

  /** An entity without components comes in. */
  lemma BareEntity(a: World, b: World, e: Entity)
    requires b.events == a.events && e !in Contents(a.ix) && Contents(b.ix) == Contents(a.ix)[e := map[]]
    ensures Told(a, b, {})
  {
    hide Contents, Told;
    forall x ensures SameComps(Lookup(Contents(a.ix), x), Lookup(Contents(b.ix), x)) {}
    ToldSame(a, b);
  }

  lemma {:induction false} ElsewhereTold(types: set<TypeId>, e: Entity, x: Entity, evs: seq<Event>)
    requires x != e && forall v :: v in evs ==> !v.ClearedEvent? && v.e == e
    ensures TypesAfter(types, x, evs) == types
  {
    if evs != [] {
      assert evs == evs[..|evs| - 1] + [evs[|evs| - 1]];
      ElsewhereTold(types, e, x, evs[..|evs| - 1]);
    }
  }

  /** Additions and removals that are all announced lead from the old component set to the new one, in any order. */
  lemma {:induction false} AnnouncedTypes(types: set<TypeId>, e: Entity, evs: seq<Event>, t: TypeId)
    requires forall v :: v in evs ==> !v.ClearedEvent? && v.e == e
    requires !(AddedEvent(e, t) in evs && RemovedEvent(e, t) in evs)
    ensures t in TypesAfter(types, e, evs) <==>
      (if AddedEvent(e, t) in evs then true else if RemovedEvent(e, t) in evs then false else t in types)
  {
    if evs != [] {
      assert evs == evs[..|evs| - 1] + [evs[|evs| - 1]];
      AnnouncedTypes(types, e, evs[..|evs| - 1], t);
    }
  }

  lemma OneTold(a: World, b: World, e: Entity, evs: seq<Event>)
    requires b.events == a.events + evs
    requires Announced(Lookup(Contents(a.ix), e), Mutation(e, Lookup(Contents(b.ix), e), evs))
    requires forall x :: x != e ==> Lookup(Contents(b.ix), x) == Lookup(Contents(a.ix), x)
    ensures Told(a, b, {})
  {
    hide Contents, TypesAfter;
    assert News(a, b) == evs;
    forall x ensures EntityTold(Lookup(Contents(a.ix), x), Lookup(Contents(b.ix), x), x, evs, {}) {
      var before, after := Lookup(Contents(a.ix), x), Lookup(Contents(b.ix), x);
      if x == e {
        forall t ensures t in TypesAfter(TypesIn(before), e, evs) <==> t in TypesIn(after) {
          AnnouncedTypes(TypesIn(before), e, evs, t);
        }
      } else {
        ElsewhereTold(TypesIn(before), e, x, evs);
      }
    }
  }

  lemma AddTold(w: World, e: Entity, t: TypeId, data: Option<Bytes>)
    requires WorldOk(w) && DataOk(w.ix.reg, t, data)
    ensures var b := AddRaw(w, e, t, data); Told(w, b, {}) && HeardOf(w, b, e, t)
  {
    hide WorldOk, Contents, AddRaw, DataOk, Registered, Told, Announced;
    var b := AddRaw(w, e, t, data);
    if Alive(w.ix, e) && Registered(w.ix.reg, t) && (w.depth <= 0 || Has(w.ix, e, t)) {
      AddAnnounced(w, e, t, data);
      var ev := if Has(w.ix, e, t) then ChangedEvent(e, t) else AddedEvent(e, t);
      OneTold(w, b, e, [ev]);
      assert News(w, b) == [ev] && ev in News(w, b);
    } else {
      NotAdded(w, e, t, data);
      SameStore(w, b);
    }
  }

  lemma NotAdded(w: World, e: Entity, t: TypeId, data: Option<Bytes>)
    requires WorldOk(w) && !(Alive(w.ix, e) && Registered(w.ix.reg, t) && (w.depth <= 0 || Has(w.ix, e, t)))
    ensures AddRaw(w, e, t, data) == w && t !in TypesIn(Lookup(Contents(w.ix), e))
  {
    hide Contents, Sized, SlotsOk;
    HasMeansStored(w, e, t);
    if Has(w.ix, e, t) { KeyRegistered(w.ix, e); }
  }

  lemma RemoveTold(w: World, e: Entity, t: TypeId)
    requires WorldOk(w)
    ensures Told(w, RemoveComponent(w, e, t), {})
  {
    hide WorldOk, Contents, ChangeKey, Told, Announced;
    if w.depth <= 0 && Has(w.ix, e, t) {
      RemoveAnnounced(w, e, t);
      OneTold(w, RemoveComponent(w, e, t), e, [RemovedEvent(e, t)]);
    } else {
      SameStore(w, w);
    }
  }

  lemma DestroyTold(w: World, e: Entity)
    requires WorldOk(w)
    ensures Told(w, Destroy(w, e), {}) && Told(w, DestroyPooled(w, e), {})
  {
    hide WorldOk, Contents, Detach, FreeId, RemovedEvents, Told, Announced;
    if w.depth <= 0 && e in w.ix.loc {
      DestroyAnnounced(w, e);
      DestroyPooledAnnounced(w, e);
      OneTold(w, Destroy(w, e), e, RemovedEvents(e, w.ix.loc[e].key));
      OneTold(w, DestroyPooled(w, e), e, RemovedEvents(e, w.ix.loc[e].key));
    } else {
      SameStore(w, w);
    }
  }

  lemma MarkTold(w: World, e: Entity, t: TypeId)
    requires WorldOk(w)
    ensures Told(w, MarkChanged(w, e, t), {})
  {
    hide WorldOk, Contents, MarkChanged, Told, Announced;
    MarkAnnounced(w, e, t, Servers.IDLE, {});
    if Has(w.ix, e, t) {
      OneTold(w, MarkChanged(w, e, t), e, [ChangedEvent(e, t)]);
    } else {
      assert w.events + [] == w.events;
      SameStore(w, MarkChanged(w, e, t));
    }
  }

  lemma ClearTold(w: World, order: seq<Entity>)
    requires WorldOk(w) && forall e :: e in w.ix.loc ==> e in order
    ensures Told(w, Operations.Clear(w, order), {})
  {
    hide WorldOk, Contents, Operations.Clear;
    var b := Operations.Clear(w, order);
    if w.depth <= 0 {
      ClearAnnounced(w, order, Servers.IDLE, {});
      assert News(w, b) == [ClearedEvent] && [ClearedEvent][..0] == [];
    } else {
      ClearNothing(w, order);
      SameStore(w, w);
    }
  }

  lemma CreateTold(w: World)
    requires WorldOk(w) && NextId(w.slots) !in w.ix.loc
    ensures Told(w, Create(w), {})
  {
    hide WorldOk, Contents, NextId, Allocate, Attach, Told;
    CreateOk(w);
    ContentsKeys(w.ix);
    if NextId(w.slots) == NO_ENTITY { SameStore(w, Create(w)); } else { BareEntity(w, Create(w), NextId(w.slots)); }
  }

  lemma CreateForeignTold(w: World, id: Entity)
    requires WorldOk(w) && IsHandle(id)
    ensures Told(w, CreatePreassigned(w, id), {})
  {
    hide WorldOk, Contents, ResizedGenerations, Attach, Told, IsHandle;
    CreatePreassignedOk(w, id);
    ContentsKeys(w.ix);
    if AcceptsForeign(id) && id !in w.ix.loc {
      BareEntity(w, CreatePreassigned(w, id), id);
    } else {
      SameStore(w, CreatePreassigned(w, id));
    }
  }

  lemma CreatePooledTold(w: World)
    requires WorldOk(w) && PooledId(w.slots) !in w.ix.loc
    ensures Told(w, CreatePooled(w), {})
  {
    hide WorldOk, Contents, NextId, Allocate, Attach, Told;
    CreatePooledOk(w);
    ContentsKeys(w.ix);
    var id := PooledId(w.slots);
    if id == NO_ENTITY { SameStore(w, CreatePooled(w)); } else { BareEntity(w, CreatePooled(w), id); }
  }

  // ------------------------------------------------------------------ a flush

  lemma CommitTold(w: World, e: Entity, ops: seq<PendingOp>)
    requires WorldOk(w) && OpsOk(w.ix.reg, ops)
    ensures Told(w, Commit(w, e, ops), {})
  {
    hide WorldOk, Contents, Commit, OpsOk, FinalSet, NetEvents, Told, Announced;
    if e in w.ix.loc && ops != [] {
      var key := w.ix.loc[e].key;
      CommitAnnounced(w, e, ops);
      OneTold(w, Commit(w, e, ops), e, NetEvents(e, key, FinalSet(key, ops), ops));
    } else {
      CommitNothing(w, e, ops);
      SameStore(w, w);
    }
  }

  lemma {:induction false} DestroyAllTold(w: World, d: Window, es: seq<Entity>)
    requires WorldOk(w) && w.depth <= 0
    ensures Told(w, DestroyAll(w, d, es), {})
    decreases es
  {
    hide WorldOk, Contents, Destroy, Told;
    if es == [] {
      SameStore(w, w);
    } else {
      var front, e := es[..|es| - 1], es[|es| - 1];
      var m := DestroyAll(w, d, front);
      DestroyAllOk(w, d, front);
      DestroyAllTold(w, d, front);
      DestroyTold(m, e);
      if e in d.doomed { ToldThen(w, m, Destroy(m, e), {}); }
    }
  }

  lemma {:induction false} CommitAllTold(w: World, d: Window, es: seq<Entity>)
    requires WorldOk(w) && NoDup(es) && forall e :: OpsOk(w.ix.reg, OpsOf(d, e))
    ensures Told(w, CommitAll(w, d, es), {})
    decreases es
  {
    hide WorldOk, Contents, Commit, OpsOk, OpsOf, ApplyOps, Told;
    if es == [] {
      SameStore(w, w);
    } else {
      var front, e := es[..|es| - 1], es[|es| - 1];
      var m := CommitAll(w, d, front);
      CommitAllOk(w, d, front);
      CommitAllTold(w, d, front);
      if e !in d.doomed {
        CommitTold(m, e, OpsOf(d, e));
        ToldThen(w, m, Commit(m, e, OpsOf(d, e)), {});
      }
    }
  }

  lemma {:induction false} DeferAllTold(w: World, cs: seq<Command>)
    requires WorldOk(w) && w.depth <= 0 && forall c :: c in cs ==> CommandOk(w.ix.reg, c)
    ensures Told(w, DeferAll(w, EMPTY_WINDOW, cs).0, {})
    decreases cs
  {
    hide WorldOk, CreatePreassigned, Alive, Queue, Contents, DefersOne, OpsOk, OpsOf, WindowOk, View, DataOk, IsHandle,
      Told;
    if cs == [] {
      SameStore(w, w);
    } else {
      var front, c := cs[..|cs| - 1], cs[|cs| - 1];
      DeferAllTold(w, front);
      EmptyWindowOk(w.ix.reg);
      DeferAllOk(w, EMPTY_WINDOW, front);
      assert c in cs;
      var m := DeferAll(w, EMPTY_WINDOW, front).0;
      if c.AddEntity? && !Alive(m.ix, c.entity) {
        CreateForeignTold(m, c.entity);
        ToldThen(w, m, CreatePreassigned(m, c.entity), {});
      }
    }
  }

  lemma FlushTold(w: World, cs: seq<Command>)
    requires WorldOk(w) && w.depth <= 0 && forall c :: c in cs ==> CommandOk(w.ix.reg, c)
    ensures Told(w, Flush(w, cs), {})
  {
    hide WorldOk, DeferAll, CommitAll, DestroyAll, CommandOk, OpsOk, OpsOf, Contents, View, NoDup, DefersOne, Told;
    EmptyWindowOk(w.ix.reg);
    DeferAllOk(w, EMPTY_WINDOW, cs);
    DeferAllTold(w, cs);
    var (w1, d) := DeferAll(w, EMPTY_WINDOW, cs);
    DestroyAllOk(w1, d, d.order);
    DestroyAllTold(w1, d, d.order);
    var w2 := DestroyAll(w1, d, d.order);
    CommitAllTold(w2, d, d.order);
    ToldThen(w, w1, w2, {});
    ToldThen(w, w2, CommitAll(w2, d, d.order), {});
  }

  // ------------------------------------------------------------------ loads and packets

  /** Bytes written straight into a row that has been announced, or that is excused. */
  lemma PokeTold(a: World, w: World, b: World, but: set<Pair>, e: Entity, t: TypeId, data: Bytes)
    requires Told(a, w, but) && b.events == w.events && e in Contents(w.ix) && t in Contents(w.ix)[e]
      && Contents(b.ix) == Contents(w.ix)[e := Contents(w.ix)[e][t := data]]
    requires (e, t) in but || HeardOf(a, w, e, t)
    ensures Told(a, b, but) && ((e, t) in but || HeardOf(a, b, e, t))
  {
    hide Contents, TypesAfter, Announces;
    assert News(a, b) == News(a, w);
    forall x ensures EntityTold(Lookup(Contents(a.ix), x), Lookup(Contents(b.ix), x), x, News(a, b), but) {
      assert EntityTold(Lookup(Contents(a.ix), x), Lookup(Contents(w.ix), x), x, News(a, w), but);
    }
  }

  lemma PokeKeepsEvents(w: World, e: Entity, t: TypeId, data: Bytes)
    ensures Poke(w, e, t, data).events == w.events
  {
    hide HasCell;
  }

  lemma TryPartTold(w: World, e: Entity, p: Part)
    requires Healthy(w)
    ensures Told(w, TryPart(w, e, p).0, {})
  {
    hide WorldOk, RegistryOk, AddRaw, Poke, Contents, ReadBlock, BlockSize, FieldsOk, Told, HeardOf;
    var reg, v := w.ix.reg, AddRaw(w, e, p.t, None);
    NoData(reg, p.t);
    AddRawOk(w, e, p.t, None);
    AddTold(w, e, p.t, None);
    if Has(v.ix, e, p.t) {
      if Registered(reg, p.t) && |p.block| == BlockSize(SchemaOf(reg, p.t), p.mask) {
        SchemaFits(reg, p.t);
        var row := ReadBlock(SchemaOf(reg, p.t), p.mask, Zeros(SizeOf(reg, p.t)), p.block);
        PokeOk(v, e, p.t, row);
        HasMeansStored(v, e, p.t);
        PokeKeepsEvents(v, e, p.t, row);
        PokeTold(w, v, Poke(v, e, p.t, row), {}, e, p.t, row);
      } else {
        SameStore(w, w);
      }
    }
  }

  lemma {:induction false} TryPartsTold(w: World, e: Entity, ps: seq<Part>)
    requires Healthy(w)
    ensures Told(w, TryParts(w, e, ps).0, {})
    decreases ps
  {
    hide Healthy, TryPart, Told;
    if ps == [] {
      SameStore(w, w);
    } else {
      var front, p := TryParts(w, e, ps[..|ps| - 1]), ps[|ps| - 1];
      PartsStay(w, e, ps[..|ps| - 1]);
      TryPartsTold(w, e, ps[..|ps| - 1]);
      if front.1 {
        TryPartTold(front.0, e, p);
        ToldThen(w, front.0, TryPart(front.0, e, p).0, {});
      }
    }
  }

  lemma TryRecordTold(w: World, r: Record)
    requires Healthy(w) && IsHandle(r.id)
    ensures Told(w, TryRecord(w, r).0, {})
  {
    hide WorldOk, RegistryOk, TryParts, CreatePreassigned, AcceptsForeign, IsHandle, Told, Contents;
    var m := CreatePreassigned(w, r.id);
    CreatePreassignedOk(w, r.id);
    CreatePreassignedKeeps(w, r.id);
    CreateForeignTold(w, r.id);
    TryPartsTold(m, r.id, r.parts);
    ToldThen(w, m, TryParts(m, r.id, r.parts).0, {});
  }

  lemma {:induction false} TryRecordsTold(w: World, rs: seq<Record>)
    requires Healthy(w) && forall i :: 0 <= i < |rs| ==> IsHandle(rs[i].id)
    ensures Told(w, TryRecords(w, rs).0, {})
    decreases rs
  {
    hide Healthy, TryRecord, IsHandle, Told;
    if rs == [] {
      SameStore(w, w);
    } else {
      var front := rs[..|rs| - 1];
      assert forall i :: 0 <= i < |front| ==> front[i] == rs[i];
      var m := TryRecords(w, front);
      RecordsStay(w, front);
      TryRecordsTold(w, front);
      if m.1 {
        TryRecordTold(m.0, rs[|rs| - 1]);
        ToldThen(w, m.0, TryRecord(m.0, rs[|rs| - 1]).0, {});
      }
    }
  }

  lemma LoadTold(w: World, bytes: Bytes, order: seq<Entity>)
    requires WorldOk(w) && Runs.Allowed(w, OpLoad(bytes, order))
    ensures Told(w, Load(w, bytes, order), {})
  {
    hide WorldOk, Operations.Clear, TryRecords, Parse, PartOk, RegistryOk, AcceptsForeign, IsHandle, Contents, Told;
    if Parse(w.ix.reg, bytes, 0).Some? {
      var rs, m := Parse(w.ix.reg, bytes, 0).value.value, Operations.Clear(w, order);
      ClearTold(w, order);
      if w.depth <= 0 { ClearOk(w, order); } else { ClearNothing(w, order); }
      RecordsParsed(w.ix.reg, bytes);
      forall i | 0 <= i < |rs| ensures IsHandle(rs[i].id) { assert RecordOk(w.ix.reg, rs[i]); }
      TryRecordsTold(m, rs);
      ToldThen(w, m, TryRecords(m, rs).0, {});
    } else {
      SameStore(w, w);
    }
  }

  lemma {:induction false} DuesTold(a: World, w: World, but: set<Pair>, e: Entity, t: TypeId, ds: seq<Packets.Due>)
    requires Healthy(w) && e in Contents(w.ix) && t in Contents(w.ix)[e] && Registered(w.ix.reg, t) && Told(a, w, but)
    requires ds != [] ==> (e, t) in but || HeardOf(a, w, e, t)
    ensures var b := ApplyDues(w, e, t, ds); Told(a, b, but) && (ds != [] ==> (e, t) in but || HeardOf(a, b, e, t))
  {
    hide Healthy, Poke, Contents, Overlaid, Told, HeardOf, Registered;
    if ds != [] {
      var front, d := ds[..|ds| - 1], ds[|ds| - 1];
      var m := ApplyDues(w, e, t, front);
      if front == [] { assert m == w; }
      DuesTold(a, w, but, e, t, front);
      ApplyDuesOk(w, e, t, front);
      ApplyDueOk(m, e, t, d);
      var row := Overlaid(m.ix.reg, t, Contents(m.ix)[e][t], d);
      PokeKeepsEvents(m, e, t, row);
      PokeTold(a, m, ApplyDue(m, e, t, d), but, e, t, row);
    }
  }

  /** A component that was not there at first can only have been announced. */
  lemma NewIsHeard(a: World, b: World, but: set<Pair>, e: Entity, t: TypeId)
    requires Told(a, b, but) && (e, t) !in but && WorldOk(a) && !Has(a.ix, e, t)
    ensures HeardOf(a, b, e, t)
  {
    hide Contents, WorldOk, TypesAfter, Announces;
    HasMeansStored(a, e, t);
    assert EntityTold(Lookup(Contents(a.ix), e), Lookup(Contents(b.ix), e), e, News(a, b), but);
  }

  lemma DueCompStays(w: World, version: nat, e: Entity, c: Packets.DueComp)
    requires Healthy(w) && Registered(w.ix.reg, c.t)
    ensures Healthy(TryDueComp(w, version, e, c).0) && TryDueComp(w, version, e, c).0.ix.reg == w.ix.reg
  {
    hide WorldOk, RegistryOk, TryDueComp, ApplyDueComp, Contents, Registered, MergeComp;
    if !Alive(w.ix, e) {
      DeadSkipped(w, version, e, c);
    } else if w.depth > 0 {
      CompHeld(w, version, e, c);
    } else {
      DueCompGoesIn(w, version, e, c);
      ApplyDueCompOk(w, version, e, c);
    }
  }

  lemma DueCompTold(a: World, w: World, but: set<Pair>, version: nat, e: Entity, c: Packets.DueComp)
    requires WorldOk(a) && Told(a, w, but) && Healthy(w) && Registered(w.ix.reg, c.t)
    requires Unseen(a, version, e, c) ==> (e, c.t) in but
    ensures Told(a, TryDueComp(w, version, e, c).0, but)
  {
    hide WorldOk, RegistryOk, AddRaw, ApplyDues, Has, Alive, Told, HeardOf, Contents, Registered, StartRow;
    if Alive(w.ix, e) {
      var m := Presented(w, version, e, c.t);
      if version == 1 || !Has(w.ix, e, c.t) {
        NoData(w.ix.reg, c.t);
        AddTold(w, e, c.t, None);
        ToldThen(a, w, m, but);
        HeardSince(a, w, m, but, e, c.t);
      } else if (e, c.t) !in but && c.dues != [] {
        NewIsHeard(a, w, but, e, c.t);
      }
      if w.depth <= 0 || Has(w.ix, e, c.t) {
        PresentedOk(w, version, e, c.t);
        DuesTold(a, m, but, e, c.t, c.dues);
      } else {
        NotPresented(w, version, e, c.t);
      }
    }
  }

  lemma {:induction false} DueCompsTold(a: World, w: World, but: set<Pair>, version: nat, e: Entity,
                                        cs: seq<Packets.DueComp>)
    requires WorldOk(a) && Told(a, w, but) && Healthy(w)
    requires forall j :: 0 <= j < |cs| ==>
      Registered(w.ix.reg, cs[j].t) && (Unseen(a, version, e, cs[j]) ==> (e, cs[j].t) in but)
    ensures var v := TryDueComps(w, version, e, cs).0; Told(a, v, but) && Healthy(v) && v.ix.reg == w.ix.reg
  {
    hide WorldOk, RegistryOk, TryDueComp, Unseen, Told, Registered;
    if cs != [] {
      var front, c := cs[..|cs| - 1], cs[|cs| - 1];
      assert forall j :: 0 <= j < |front| ==> front[j] == cs[j];
      DueCompsTold(a, w, but, version, e, front);
      var m := TryDueComps(w, version, e, front);
      DueCompStays(m.0, version, e, c);
      DueCompTold(a, m.0, but, version, e, c);
    }
  }

  lemma {:induction false} DeltaTold(w: World, but: set<Pair>, version: nat, es: seq<Packets.DueEntity>)
    requires Healthy(w) && KnownDues(w.ix.reg, es) && Overwritten(w, version, es) <= but
    ensures var v := TryDelta(w, version, es).w; Told(w, v, but) && Healthy(v) && v.ix.reg == w.ix.reg
  {
    hide WorldOk, RegistryOk, TryDueComps, Unseen, Told, Registered;
    if es == [] {
      SameStore(w, w);
      ToldMore(w, w, {}, but);
    } else {
      var front, e := es[..|es| - 1], es[|es| - 1];
      assert forall i :: 0 <= i < |front| ==> front[i] == es[i];
      forall p | p in Overwritten(w, version, front) ensures p in but {
        var i, j :| 0 <= i < |front| && 0 <= j < |front[i].comps| && Unseen(w, version, front[i].id, front[i].comps[j])
          && p == (front[i].id, front[i].comps[j].t);
        assert front[i] == es[i] && p in Overwritten(w, version, es);
      }
      DeltaTold(w, but, version, front);
      forall j | 0 <= j < |e.comps| && Unseen(w, version, e.id, e.comps[j]) ensures (e.id, e.comps[j].t) in but {
        assert (e.id, e.comps[j].t) in Overwritten(w, version, es);
      }
      DueCompsTold(w, TryDelta(w, version, front).w, but, version, e.id, e.comps);
    }
  }

  lemma {:induction false} TryEntitiesTold(w: World, rs: seq<Record>)
    requires Healthy(w) && forall i :: 0 <= i < |rs| ==> IsHandle(rs[i].id)
    ensures Told(w, TryEntities(w, rs).0, {})
    decreases rs
  {
    hide WorldOk, RegistryOk, TryRecord, IsHandle, Destroy, DestroyPooled, Told;
    if rs == [] {
      SameStore(w, w);
    } else {
      var front, r := rs[..|rs| - 1], rs[|rs| - 1];
      assert forall i :: 0 <= i < |front| ==> front[i] == rs[i];
      EntitiesStay(w, front);
      TryEntitiesTold(w, front);
      var m := TryEntities(w, front);
      if m.1 {
        DestroyTold(m.0, r.id);
        Vacates(m.0, r.id);
        TryRecordTold(Destroy(m.0, r.id), r);
        ToldThen(w, m.0, Destroy(m.0, r.id), {});
        ToldThen(w, Destroy(m.0, r.id), TryRecord(Destroy(m.0, r.id), r).0, {});
      }
    }
  }

  lemma {:induction false} DestroyAbsentTold(w: World, es: seq<Entity>, keep: set<Entity>)
    requires Healthy(w)
    ensures var v := DestroyAbsent(w, es, keep); Told(w, v, {}) && Healthy(v)
  {
    hide WorldOk, RegistryOk, Destroy, Told;
    if es == [] {
      SameStore(w, w);
    } else {
      var m, e := DestroyAbsent(w, es[..|es| - 1], keep), es[|es| - 1];
      DestroyAbsentTold(w, es[..|es| - 1], keep);
      DestroyTold(m, e);
      Vacates(m, e);
      ToldThen(w, m, Destroy(m, e), {});
    }
  }

  lemma ReceiveTold(w: World, op: Op)
    requires Healthy(w) && op.OpReceive?
    ensures Told(w, Received(w, op.replicated, op.kind, op.packet, op.order).0, Silent(w, op))
  {
    hide WorldOk, RegistryOk, Packets.ParseVersion, Packets.ParseEntity, Packets.ParseMany, Destroy, DestroyPooled,
      DestroyAbsent, TryEntities, TryRecord, TryDelta, FromLE, AcceptsForeign, IdsOf, ReadInt, IsHandle, Told,
      Overwritten;
    var reg := w.ix.reg;
    SameStore(w, w);
    if Packets.ValidPacket(reg, op.kind, op.packet) {
      match op.kind
      case Spawn =>
        SpawnParsed(reg, op.packet);
        TryRecordTold(w, Packets.ParseSpawn(reg, op.packet).value.value);
      case Delta =>
        DeltaParsed(reg, op.packet);
        var p := Packets.ParseDelta(reg, op.packet).value;
        DeltaTold(w, Overwritten(w, p.version, p.value), p.version, p.value);
      case FullState =>
        FullStateParsed(reg, op.packet);
        var rs := Packets.ParseFullState(reg, op.packet).value.value;
        var m := TryEntities(w, rs).0;
        TryEntitiesTold(w, rs);
        EntitiesStay(w, rs);
        DestroyAbsentTold(m, op.order, IdsOf(rs));
        ToldThen(w, m, DestroyAbsent(m, op.order, IdsOf(rs)), {});
      case Despawn =>
        DestroyTold(w, FromLE(op.packet));
    }
  }

  // ------------------------------------------------------------------ every operation, every run

  /** Every operation announces what it does, but for the bytes it writes without a trace. */
  lemma ApplyTold(w: World, op: Op)
    requires WorldOk(w) && Runs.Allowed(w, op)
    ensures Told(w, Runs.Apply(w, op), Silent(w, op))
  {
    hide WorldOk, Create, CreatePreassigned, CreatePooled, Destroy, DestroyPooled, AddRaw, RemoveComponent, MarkChanged,
      Operations.Clear, Flush, Load, Received, DataOk, CommandOk, Track, NextId, PooledId, RegistryOk, IsHandle, Told,
      Contents;
    SameStore(w, w);
    match op
    case OpCreate => CreateTold(w);
    case OpCreateForeign(id) => CreateForeignTold(w, id);
    case OpCreatePooled => CreatePooledTold(w);
    case OpDestroy(e) => DestroyTold(w, e);
    case OpDestroyPooled(e) => DestroyTold(w, e);
    case OpAdd(e, t, data) => AddTold(w, e, t, data);
    case OpRemove(e, t) => RemoveTold(w, e, t);
    case OpMark(e, t) => MarkTold(w, e, t);
    case OpTrack(k, t) => TrackWorldOk(w, k, t); SameStore(w, Runs.Apply(w, op));
    case OpBeginIteration => SameStore(w, Runs.Apply(w, op));
    case OpEndIteration => SameStore(w, Runs.Apply(w, op));
    case OpClear(order) => ClearTold(w, order);
    case OpCompact => CompactOk(w); SameStore(w, Runs.Apply(w, op));
    case OpFlush(cs) => if w.depth <= 0 { FlushTold(w, cs); }
    case OpLoad(bytes, order) => LoadTold(w, bytes, order);
    case OpReceive(_, _, _, _) => ReceiveTold(w, op);
  }

  /** Over every run, loads, packets and flushes included, the events alone tell which entity has which components. */
  lemma EventsTell(reg: Registry, ops: seq<Op>)
    requires AllAllowed(EmptyWorld(reg), ops)
    ensures var w := Runs.Run(EmptyWorld(reg), ops);
      forall e :: TypesIn(Lookup(Contents(w.ix), e)) == TypesAfter({}, e, w.events)
  {
    hide WorldOk, Contents, EmptyWorld, Runs.Run, AllAllowed, TypesAfter;
    EventsSince(reg, ops);
    var a, w := EmptyWorld(reg), Runs.Run(EmptyWorld(reg), ops);
    assert a.events == [] && Contents(a.ix) == map[] by { NothingYet(reg); }
    assert News(a, w) == w.events;
    forall e ensures TypesIn(Lookup(Contents(w.ix), e)) == TypesAfter({}, e, w.events) {
      var but :| Told(a, w, but);
      assert EntityTold(Lookup(Contents(a.ix), e), Lookup(Contents(w.ix), e), e, News(a, w), but);
    }
  }

  lemma NothingYet(reg: Registry)
    ensures EmptyWorld(reg).events == [] && Contents(EmptyWorld(reg).ix) == map[]
  {
  }

  lemma {:induction false} EventsSince(reg: Registry, ops: seq<Op>)
    requires AllAllowed(EmptyWorld(reg), ops)
    ensures exists but :: Told(EmptyWorld(reg), Runs.Run(EmptyWorld(reg), ops), but)
    decreases ops
  {
    hide WorldOk, Contents, EmptyWorld, Told, Runs.Apply, Runs.Allowed, Silent;
    var a := EmptyWorld(reg);
    if ops == [] {
      SameStore(a, a);
      assert Told(a, Runs.Run(a, ops), {});
    } else {
      var front, op := ops[..|ops| - 1], ops[|ops| - 1];
      EventsSince(reg, front);
      var m := Runs.Run(a, front);
      var but :| Told(a, m, but);
      ReachableOk(reg, front);
      ApplyTold(m, op);
      ToldTwice(a, m, Runs.Apply(m, op), but, Silent(m, op));
      assert Told(a, Runs.Run(a, ops), but + Silent(m, op));
    }
  }
}
