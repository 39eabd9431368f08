/** Runs in which foreign ids come in on open slots only: live, parked and free slots stay apart, creation never meets
    a live id, and ids are never reissued. */
module OrderlyRuns {
  import opened Base
  import opened Schema
  import opened Storage
  import opened StorageLaws
  import opened Operations
  import opened Commands
  import opened CommandLaws
  import opened Allocator
  import opened Receiving
  import opened Runs
  import opened SnapshotFormat
  import opened Snapshots

  ghost predicate OpenForeign(w: World, id: Entity) {
    IsHandle(id) && (AcceptsForeign(id) && id !in w.ix.loc ==> SlotIsOpen(w.ix.loc.Keys, w.slots, id))
  }

  /** Ids queued for creation come in one after the other. */
  ghost predicate OpenQueue(w: World, cs: seq<Command>)
    decreases cs
  {
    cs == [] || (
      var front, c := cs[..|cs| - 1], cs[|cs| - 1];
      OpenQueue(w, front) && CommandOk(w.ix.reg, c)
      && (c.AddEntity? ==> OpenForeign(DeferAll(w, EMPTY_WINDOW, front).0, c.entity)))
  }

  /** Foreign ids on open slots only, nothing loaded or received; creation needs no guard of its own. */
  ghost predicate Orderly(w: World, op: Op) {
    match op
    case OpCreate => true
    case OpCreatePooled => true
    case OpCreateForeign(id) => OpenForeign(w, id)
    case OpFlush(cs) => OpenQueue(w, cs)
    case OpLoad(_, _) => false
    case OpReceive(_, _, _, _) => false
    case _ => Allowed(w, op)
  }

  ghost predicate AllOrderly(w: World, ops: seq<Op>)
    decreases ops
  {
    ops == [] || (AllOrderly(w, ops[..|ops| - 1]) && Orderly(Run(w, ops[..|ops| - 1]), ops[|ops| - 1]))
  }

  // ------------------------------------------------------------------ the run invariant

  ghost predicate Sound(w: World) {
    WorldOk(w) && Fits(w.ix.loc.Keys, w.slots)
  }

  lemma NobodyIsZero(w: World)
    requires WorldOk(w)
    ensures NO_ENTITY !in w.ix.loc.Keys
  {
    if NO_ENTITY in w.ix.loc { LiveHandle(w.ix, NO_ENTITY); }
  }

  lemma SpawnKeys(w: World, e: Entity)
    requires {} in w.ix.archs
    ensures Spawn(w, e).ix.loc.Keys == w.ix.loc.Keys + {e} && Spawn(w, e).slots == w.slots
  {
  }

  lemma CreateSound(w: World)
    requires Sound(w)
    ensures Sound(Create(w)) && NextId(w.slots) !in w.ix.loc
    ensures Create(w).ix.loc.Keys == w.ix.loc.Keys + if NextId(w.slots) == NO_ENTITY then {} else {NextId(w.slots)}
    ensures Create(w).slots == Allocate(w.slots) && Create(w).depth == w.depth && Create(w).ix.reg == w.ix.reg
    ensures Contents(Create(w).ix) == if NextId(w.slots) == NO_ENTITY then Contents(w.ix)
      else Contents(w.ix)[NextId(w.slots) := map[]]
  {
    hide Coherent, SlotsOk, Fits, NextId, Allocate, Contents;
    NobodyIsZero(w);
    FitsAllocated(w.ix.loc.Keys, w.slots);
    CreateOk(w);
    HasEmptyArchetype(w);
    SpawnKeys(w.(slots := Allocate(w.slots)), NextId(w.slots));
  }

  lemma HasEmptyArchetype(w: World)
    requires WorldOk(w)
    ensures {} in w.ix.archs
  {
    HasEmptyArch(w.ix);
  }

  lemma CreateForeignSound(w: World, id: Entity)
    requires Sound(w) && OpenForeign(w, id)
    ensures Sound(CreatePreassigned(w, id))
  {
    hide Coherent, SlotsOk, Fits, ResizedGenerations, Contents, Slot, Generation, SlotIsOpen;
    HasEmptyArchetype(w);
    CreatePreassignedOk(w, id);
    NoForeignZero();
    if AcceptsForeign(id) {
      FitsResized(w.ix.loc.Keys, w.slots, Slot(id) + 1);
      if id !in w.ix.loc { FitsForeign(w.ix.loc.Keys, w.slots, id); }
      var g := ResizedGenerations(w.slots.generations, Slot(id) + 1);
      assert |g| > Slot(id);
      SpawnKeys(w.(slots := w.slots.(generations := g[Slot(id) := Generation(id)])), id);
    }
  }

  lemma CreatePooledSound(w: World)
    requires Sound(w)
    ensures Sound(CreatePooled(w))
  {
    hide Coherent, SlotsOk, Fits, NextId, Create, Contents;
    HasEmptyArchetype(w);
    if w.slots.pool == [] {
      CreateSound(w);
      CreatePooledOk(w);
    } else {
      var n := |w.slots.pool|;
      FitsUnpooled(w.ix.loc.Keys, w.slots);
      CreatePooledOk(w);
      SpawnKeys(w.(slots := w.slots.(pool := w.slots.pool[..n - 1])), w.slots.pool[n - 1]);
    }
  }

  lemma DetachKeys(w: World, e: Entity)
    requires WorldOk(w) && e in w.ix.loc
    ensures Detach(w.ix, e).loc.Keys == w.ix.loc.Keys - {e}
  {
    DetachShaped(w.ix, e);
  }

  lemma DestroySound(w: World, e: Entity)
    requires Sound(w)
    ensures Sound(Destroy(w, e)) && Sound(DestroyPooled(w, e))
  {
    hide Coherent, SlotsOk, Fits, Contents, Detach, FreeId, RemovedEvents;
    DestroyOk(w, e);
    DestroyPooledOk(w, e);
    if e in w.ix.loc {
      DetachKeys(w, e);
      FitsFreed(w.ix.loc.Keys, w.slots, e);
      FitsPooled(w.ix.loc.Keys, w.slots, e);
    }
  }

  lemma CompsSound(w: World, e: Entity, t: TypeId, data: Option<Bytes>)
    requires Sound(w) && DataOk(w.ix.reg, t, data)
    ensures Sound(AddRaw(w, e, t, data)) && Sound(RemoveComponent(w, e, t)) && Sound(MarkChanged(w, e, t))
  {
    hide Coherent, SlotsOk, Fits, Contents, AddRaw, RemoveComponent, MarkChanged, DataOk, Registered, Payload;
    AddRawOk(w, e, t, data);
    AddRawKeeps(w, e, t, data);
    RemoveComponentOk(w, e, t);
    RemoveComponentKeeps(w, e, t);
    MarkChangedOk(w, e, t);
    CompsKeys(w, e, t, data);
  }

  lemma CompsKeys(w: World, e: Entity, t: TypeId, data: Option<Bytes>)
    requires WorldOk(w)
    ensures AddRaw(w, e, t, data).ix.loc.Keys == w.ix.loc.Keys && RemoveComponent(w, e, t).ix.loc.Keys == w.ix.loc.Keys
  {
    hide Coherent, SlotsOk, Payload, WriteCell, ChangeKey, Registered;
    ShapedOf(w);
    if Has(w.ix, e, t) {
      if w.depth <= 0 { RemoveComponentCells(w, e, t); RestKeys(w.ix, RemoveComponent(w, e, t).ix, e); }
      KeyRegistered(w.ix, e);
      AddRawCells(w, e, t, data);
      RestKeys(w.ix, AddRaw(w, e, t, data).ix, e);
    } else if Alive(w.ix, e) && Registered(w.ix.reg, t) && w.depth <= 0 {
      AddRawCells(w, e, t, data);
      RestKeys(w.ix, AddRaw(w, e, t, data).ix, e);
    }
  }

  lemma RestKeys(a: Index, b: Index, e: Entity)
    requires OnlyTouches(a, b, e) && e in a.loc && e in b.loc
    ensures a.loc.Keys == b.loc.Keys
  {
    forall x ensures x in a.loc.Keys <==> x in b.loc.Keys { if x != e { assert x in a.loc <==> x in b.loc; } }
  }

  lemma {:induction false} ClearAllSound(w: World, order: seq<Entity>)
    requires Sound(w)
    ensures Sound(ClearAll(w, order))
    decreases order
  {
    hide Coherent, SlotsOk, Fits, Contents, Detach, FreeId;
    if order != [] {
      var e := order[0];
      if e in w.ix.loc {
        DetachKeys(w, e);
        FitsFreed(w.ix.loc.Keys, w.slots, e);
        FreeIdOk(w.slots, e);
        DetachStore(w.ix, e);
        ClearAllSound(w.(ix := Detach(w.ix, e), slots := FreeId(w.slots, e)), order[1..]);
      } else {
        ClearAllSound(w, order[1..]);
      }
    }
  }

  lemma ClearSound(w: World, order: seq<Entity>)
    requires Sound(w)
    ensures Sound(Clear(w, order))
  {
    hide Coherent, SlotsOk, Fits, ClearAll;
    ClearAllSound(w, order);
  }

  lemma CompactSound(w: World)
    requires Sound(w)
    ensures Sound(Compact(w))
  {
    hide Coherent, Fits, SlotsOk;
    CompactOk(w);
  }

  // ------------------------------------------------------------------ a flush

  lemma {:induction false} DeferAllSound(w: World, cs: seq<Command>)
    requires Sound(w) && w.depth <= 0 && OpenQueue(w, cs)
    ensures Sound(DeferAll(w, EMPTY_WINDOW, cs).0) && forall c :: c in cs ==> CommandOk(w.ix.reg, c)
    decreases cs
  {
    hide Sound, CreatePreassigned, Alive, OpenForeign, CommandOk, Queue;
    if cs != [] {
      var front, c := cs[..|cs| - 1], cs[|cs| - 1];
      DeferAllSound(w, front);
      if c.AddEntity? { CreateForeignSound(DeferAll(w, EMPTY_WINDOW, front).0, c.entity); }
      assert cs == front + [c];
    }
  }

  lemma {:induction false} DestroyAllSound(w: World, d: Window, es: seq<Entity>)
    requires Sound(w)
    ensures Sound(DestroyAll(w, d, es))
    decreases es
  {
    hide Sound, Destroy;
    if es != [] {
      DestroyAllSound(w, d, es[..|es| - 1]);
      DestroySound(DestroyAll(w, d, es[..|es| - 1]), es[|es| - 1]);
    }
  }

  lemma CommitSound(w: World, e: Entity, ops: seq<PendingOp>)
    requires Sound(w) && OpsOk(w.ix.reg, ops)
    ensures Sound(Commit(w, e, ops)) && Commit(w, e, ops).ix.reg == w.ix.reg
  {
    hide Coherent, SlotsOk, Fits, Contents, Commit, OpsOk, ApplyOps;
    CommitOk(w, e, ops);
    if e in w.ix.loc && ops != [] {
      assert Shaped(w.ix) by { ShapedOf(w); }
      CommitCells(w, e, ops);
      RestKeys(w.ix, Commit(w, e, ops).ix, e);
    } else {
      CommitNothing(w, e, ops);
    }
  }

  lemma {:induction false} CommitAllSound(w: World, d: Window, es: seq<Entity>)
    requires Sound(w) && forall e :: OpsOk(w.ix.reg, OpsOf(d, e))
    ensures Sound(CommitAll(w, d, es)) && CommitAll(w, d, es).ix.reg == w.ix.reg
    decreases es
  {
    hide Sound, Commit, OpsOk, OpsOf;
    if es != [] {
      CommitAllSound(w, d, es[..|es| - 1]);
      CommitSound(CommitAll(w, d, es[..|es| - 1]), es[|es| - 1], OpsOf(d, es[|es| - 1]));
    }
  }

  lemma SoundIsOk(w: World)
    requires Sound(w)
    ensures WorldOk(w)
  {
  }

  lemma FlushSound(w: World, cs: seq<Command>)
    requires Sound(w) && w.depth <= 0 && OpenQueue(w, cs)
    ensures Sound(Flush(w, cs))
  {
    hide Sound, WorldOk, DeferAll, CommitAll, DestroyAll, CommandOk, OpsOk, OpsOf, WindowOk, Contents, View, OpenQueue;
    DeferAllSound(w, cs);
    EmptyWindowOk(w.ix.reg);
    assert WorldOk(w) by { SoundIsOk(w); }
    DeferAllOk(w, EMPTY_WINDOW, cs);
    var (w1, d) := DeferAll(w, EMPTY_WINDOW, cs);
    DestroyAllSound(w1, d, d.order);
    assert WorldOk(w1) by { SoundIsOk(w1); }
    DestroyAllOk(w1, d, d.order);
    CommitAllSound(DestroyAll(w1, d, d.order), d, d.order);
  }

  // ------------------------------------------------------------------ every reachable state

  lemma ApplySound(w: World, op: Op)
    requires Sound(w) && Orderly(w, op)
    ensures Sound(Apply(w, op))
  {
    hide Sound, Create, CreatePreassigned, CreatePooled, Destroy, DestroyPooled, AddRaw, RemoveComponent, MarkChanged,
      Clear, Compact, Flush, OpenForeign, OpenQueue, DataOk, Track;
    match op
    case OpCreate => CreateSound(w);
    case OpCreateForeign(id) => CreateForeignSound(w, id);
    case OpCreatePooled => CreatePooledSound(w);
    case OpDestroy(e) => DestroySound(w, e);
    case OpDestroyPooled(e) => DestroySound(w, e);
    case OpAdd(e, t, data) => CompsSound(w, e, t, data);
    case OpRemove(e, t) => NoData(w.ix.reg, t); CompsSound(w, e, t, None);
    case OpMark(e, t) => NoData(w.ix.reg, t); CompsSound(w, e, t, None);
    case OpClear(order) => ClearSound(w, order);
    case OpCompact => CompactSound(w);
    case OpFlush(cs) => if w.depth <= 0 { FlushSound(w, cs); }
    case OpTrack(k, t) => TrackSound(w, k, t);
    case OpBeginIteration => DepthSound(w, w.depth + 1);
    case OpEndIteration => DepthSound(w, w.depth - 1);
  }

  lemma TrackSound(w: World, k: Key, t: TypeId)
    requires Sound(w)
    ensures Sound(w.(ix := Track(w.ix, k, t, w.clock.tick)))
  {
    hide Coherent, SlotsOk, Fits, Track, Contents;
    TrackOk(w.ix, k, t, w.clock.tick);
  }

  lemma DepthSound(w: World, depth: int)
    requires Sound(w)
    ensures Sound(w.(depth := depth))
  {
    hide Coherent, SlotsOk, Fits;
  }

  lemma {:induction false} QueueOk(w: World, cs: seq<Command>)
    requires OpenQueue(w, cs)
    ensures forall c :: c in cs ==> CommandOk(w.ix.reg, c)
  {
    hide CommandOk, OpenForeign, DeferAll;
    if cs != [] {
      QueueOk(w, cs[..|cs| - 1]);
      assert cs == cs[..|cs| - 1] + [cs[|cs| - 1]];
    }
  }

  /** While foreign ids come in on open slots, creation never meets a live id. */
  lemma OrderlyAllowed(w: World, op: Op)
    requires Sound(w) && Orderly(w, op)
    ensures Allowed(w, op)
  {
    hide WorldOk, Fits, NextId, OpenQueue, CommandOk, DataOk;
    if op.OpCreate? || op.OpCreatePooled? {
      CreateSound(w);
      if w.slots.pool != [] { FitsUnpooled(w.ix.loc.Keys, w.slots); }
    } else if op.OpFlush? {
      QueueOk(w, op.cs);
    }
  }

  /** An orderly run keeps live, parked and free slots disjoint, wherever it starts, and is one of those
      `Runs.ReachableOk` is about. */
  lemma {:induction false} RunSound(w: World, ops: seq<Op>)
    requires Sound(w) && AllOrderly(w, ops)
    ensures Sound(Run(w, ops)) && AllAllowed(w, ops)
    decreases ops
  {
    hide Sound, Apply, Orderly, Allowed;
    if ops != [] {
      RunSound(w, ops[..|ops| - 1]);
      OrderlyAllowed(Run(w, ops[..|ops| - 1]), ops[|ops| - 1]);
      ApplySound(Run(w, ops[..|ops| - 1]), ops[|ops| - 1]);
    }
  }

  /** Live, parked and free slots are disjoint in every state an orderly run reaches. */
  lemma ReachableSound(reg: Registry, ops: seq<Op>)
    requires AllOrderly(EmptyWorld(reg), ops)
    ensures Sound(Run(EmptyWorld(reg), ops)) && AllAllowed(EmptyWorld(reg), ops)
  {
    hide Sound, Run, AllOrderly, AllAllowed, EmptyWorld;
    EmptySound(reg);
    RunSound(EmptyWorld(reg), ops);
  }

  lemma EmptySound(reg: Registry)
    ensures Sound(EmptyWorld(reg)) && EmptyWorld(reg).slots.pool == []
  {
    EmptyWorldOk(reg);
  }

  // ------------------------------------------------------------------ ids are never reissued

  /** Operations that neither bring in foreign ids nor pool them. */
  predicate Plain(op: Op) {
    && !op.OpCreateForeign? && !op.OpCreatePooled? && !op.OpDestroyPooled?
    && (op.OpFlush? ==> forall c :: c in op.cs ==> !c.AddEntity?)
  }

  /** Every id handed out by a run. */
  ghost function IssuedIn(w: World, ops: seq<Op>): set<Entity>
    decreases ops
  {
    if ops == [] then {} else
      var front := ops[..|ops| - 1];
      IssuedIn(w, front) + {Issued(Run(w, front).slots, ops[|ops| - 1])} - {NO_ENTITY}
  }

  /** An id once issued is never ahead of its slot, and behind it once the slot is free again. */
  ghost predicate Aged(s: Slots, id: Entity) {
    && Slot(id) < |s.generations| && Generation(id) <= s.generations[Slot(id)]
    && (Slot(id) in s.free ==> Generation(id) < s.generations[Slot(id)])
  }

  ghost predicate AllAged(s: Slots, ids: set<Entity>) {
    forall id :: id in ids ==> Aged(s, id)
  }

  lemma AgedAllocated(live: set<Entity>, s: Slots, ids: set<Entity>)
    requires SlotsOk(s) && Fits(live, s) && AllAged(s, ids) && NO_ENTITY !in ids
    ensures AllAged(Allocate(s), ids + {NextId(s)} - {NO_ENTITY}) && NextId(s) !in ids
  {
    if NextId(s) != NO_ENTITY {
      hide Slot, Generation, NextId, SlotsOk, IsHandle;
      NextParts(s);
    } else {
      NextNone(s);
    }
  }

  lemma AgedFreed(live: set<Entity>, s: Slots, e: Entity, ids: set<Entity>)
    requires Fits(live, s) && e in live && AllAged(s, ids)
    ensures AllAged(FreeId(s, e), ids) && FreeId(s, e).pool == s.pool
  {
    hide Slot, Generation, IsHandle;
  }

  lemma {:induction false} ClearAllAged(w: World, order: seq<Entity>, ids: set<Entity>)
    requires Sound(w) && AllAged(w.slots, ids)
    ensures AllAged(ClearAll(w, order).slots, ids) && ClearAll(w, order).slots.pool == w.slots.pool
    decreases order
  {
    hide Coherent, SlotsOk, Fits, Contents, Detach, FreeId, AllAged;
    if order != [] {
      var e := order[0];
      if e in w.ix.loc {
        DetachKeys(w, e);
        FitsFreed(w.ix.loc.Keys, w.slots, e);
        AgedFreed(w.ix.loc.Keys, w.slots, e, ids);
        FreeIdOk(w.slots, e);
        DetachStore(w.ix, e);
        ClearAllAged(w.(ix := Detach(w.ix, e), slots := FreeId(w.slots, e)), order[1..], ids);
      } else {
        ClearAllAged(w, order[1..], ids);
      }
    }
  }

  lemma DestroyAged(w: World, e: Entity, ids: set<Entity>)
    requires Sound(w) && AllAged(w.slots, ids)
    ensures AllAged(Destroy(w, e).slots, ids) && Destroy(w, e).slots.pool == w.slots.pool
  {
    hide Coherent, SlotsOk, Fits, Detach, FreeId, AllAged, RemovedEvents;
    if e in w.ix.loc {
      FitsFreed(w.ix.loc.Keys, w.slots, e);
      AgedFreed(w.ix.loc.Keys, w.slots, e, ids);
    }
  }

  lemma {:induction false} DestroyAllAged(w: World, d: Window, es: seq<Entity>, ids: set<Entity>)
    requires Sound(w) && AllAged(w.slots, ids)
    ensures AllAged(DestroyAll(w, d, es).slots, ids) && DestroyAll(w, d, es).slots.pool == w.slots.pool
    decreases es
  {
    hide Sound, Destroy, AllAged;
    if es != [] {
      DestroyAllAged(w, d, es[..|es| - 1], ids);
      DestroyAllSound(w, d, es[..|es| - 1]);
      DestroyAged(DestroyAll(w, d, es[..|es| - 1]), es[|es| - 1], ids);
    }
  }

  lemma {:induction false} CommitAllSlots(w: World, d: Window, es: seq<Entity>)
    requires Sound(w) && forall e :: OpsOk(w.ix.reg, OpsOf(d, e))
    ensures CommitAll(w, d, es).slots == w.slots
    decreases es
  {
    hide Sound, Commit, OpsOk, OpsOf;
    if es != [] {
      var front := CommitAll(w, d, es[..|es| - 1]);
      CommitAllSlots(w, d, es[..|es| - 1]);
      CommitAllSound(w, d, es[..|es| - 1]);
      CommitSlots(front, es[|es| - 1], OpsOf(d, es[|es| - 1]));
    }
  }

  lemma CommitSlots(w: World, e: Entity, ops: seq<PendingOp>)
    requires Sound(w) && OpsOk(w.ix.reg, ops)
    ensures Commit(w, e, ops).slots == w.slots
  {
    hide Coherent, SlotsOk, Fits, Commit, OpsOk;
    if e in w.ix.loc && ops != [] {
      ShapedOf(w);
      CommitCells(w, e, ops);
    } else {
      CommitNothing(w, e, ops);
    }
  }

  /** A queue that creates nothing leaves the allocator alone until the window closes. */
  lemma {:induction false} DeferNoSlots(w: World, d: Window, cs: seq<Command>)
    requires forall c :: c in cs ==> !c.AddEntity?
    ensures DeferAll(w, d, cs).0 == w
    decreases cs
  {
    if cs != [] { DeferNoSlots(w, d, cs[..|cs| - 1]); }
  }

  lemma FlushAged(w: World, cs: seq<Command>, ids: set<Entity>)
    requires Sound(w) && w.depth <= 0 && OpenQueue(w, cs) && AllAged(w.slots, ids)
      && forall c :: c in cs ==> !c.AddEntity?
    ensures AllAged(Flush(w, cs).slots, ids) && Flush(w, cs).slots.pool == w.slots.pool
  {
    hide Sound, WorldOk, DeferAll, CommitAll, DestroyAll, CommandOk, OpsOk, OpsOf, WindowOk, Contents, View,
      OpenQueue, AllAged;
    DeferAllSound(w, cs);
    EmptyWindowOk(w.ix.reg);
    assert WorldOk(w) by { SoundIsOk(w); }
    DeferAllOk(w, EMPTY_WINDOW, cs);
    DeferNoSlots(w, EMPTY_WINDOW, cs);
    var (w1, d) := DeferAll(w, EMPTY_WINDOW, cs);
    DestroyAllAged(w1, d, d.order, ids);
    DestroyAllSound(w1, d, d.order);
    DestroyAllOk(w1, d, d.order);
    CommitAllSlots(DestroyAll(w1, d, d.order), d, d.order);
  }

  /** No plain operation reissues an id, nor lets an issued one catch up with its slot again. */
  lemma StepAged(w: World, op: Op, ids: set<Entity>)
    requires Sound(w) && Orderly(w, op) && Plain(op) && w.slots.pool == [] && AllAged(w.slots, ids) && NO_ENTITY !in ids
    ensures Apply(w, op).slots.pool == [] && AllAged(Apply(w, op).slots, ids + {Issued(w.slots, op)} - {NO_ENTITY})
    ensures Issued(w.slots, op) !in ids
  {
    hide Coherent, SlotsOk, Fits, AddRaw, RemoveComponent, MarkChanged, ClearAll, Compact, Flush, OpenForeign, DataOk,
      Track, Contents, NextId, Create, Destroy, AllAged, Allocate, OpenQueue;
    if !op.OpCreate? { assert ids + {NO_ENTITY} - {NO_ENTITY} == ids; }
    match op
    case OpCreate => NobodyIsZero(w); CreateSound(w); AgedAllocated(w.ix.loc.Keys, w.slots, ids); PoolKept(w.slots);
    case OpDestroy(e) => DestroyAged(w, e, ids);
    case OpAdd(e, t, data) => AddRawKeeps(w, e, t, data);
    case OpRemove(e, t) => RemoveComponentKeeps(w, e, t);
    case OpMark(e, t) => MarkChangedOk(w, e, t);
    case OpClear(order) => ClearAllAged(w, order, ids);
    case OpCompact => CompactSlots(w);
    case OpFlush(cs) => if w.depth <= 0 { FlushAged(w, cs, ids); }
    case _ =>
  }

  lemma PoolKept(s: Slots)
    ensures Allocate(s).pool == s.pool
  {
  }

  lemma CompactSlots(w: World)
    ensures Compact(w).slots == w.slots
  {
  }

  lemma NothingArrives(w: World, op: Op)
    requires Orderly(w, op)
    ensures !op.OpLoad? && !op.OpReceive?
  {
  }

  /** Only the id an operation issues can become live through it. */
  lemma OnlyIssuedAppears(w: World, op: Op, id: Entity)
    requires Sound(w) && Orderly(w, op) && Plain(op) && id !in w.ix.loc && id in Apply(w, op).ix.loc
    ensures id == Issued(w.slots, op) && id != NO_ENTITY
  {
    hide Coherent, SlotsOk, Fits, Apply, Orderly, Allowed, Contents, Issued, DefersOne, ApplyOps, AcceptsForeign,
      Payload, StoreOf, StoreReceived, Parse;
    OrderlyAllowed(w, op);
    assert !op.OpLoad? && !op.OpReceive? by { NothingArrives(w, op); }
    StepRefines(w, op);
    ContentsKeys(w.ix);
    ContentsKeys(Apply(w, op).ix);
    assert Lookup(Contents(w.ix), id) == None && Lookup(Contents(Apply(w, op).ix), id) != None;
    if op.OpFlush? { ReadOff(w.ix.reg, id, None, op.cs); }
  }

  ghost predicate Remembered(w: World, issued: set<Entity>) {
    Sound(w) && w.slots.pool == [] && w.ix.loc.Keys <= issued && NO_ENTITY !in issued && AllAged(w.slots, issued)
  }

  /** The ids live at the start, and those handed out since. */
  ghost function Known(w: World, ops: seq<Op>): set<Entity> {
    w.ix.loc.Keys + IssuedIn(w, ops)
  }

  lemma LiveAreAged(w: World)
    requires Sound(w)
    ensures AllAged(w.slots, w.ix.loc.Keys) && NO_ENTITY !in w.ix.loc
  {
    hide WorldOk, Slot, Generation, IsHandle;
    NobodyIsZero(w);
    forall id | id in w.ix.loc ensures Aged(w.slots, id) { assert Owns(w.slots, id); }
  }

  lemma {:induction false} RunRemembers(w: World, ops: seq<Op>)
    requires Sound(w) && w.slots.pool == [] && AllOrderly(w, ops) && forall op :: op in ops ==> Plain(op)
    ensures Remembered(Run(w, ops), Known(w, ops))
    decreases ops
  {
    hide Sound, Apply, Orderly, Plain, AllAged, Issued;
    if ops == [] {
      LiveAreAged(w);
      assert Known(w, ops) == w.ix.loc.Keys;
    } else {
      var front, op := ops[..|ops| - 1], ops[|ops| - 1];
      var m, known := Run(w, front), Known(w, front);
      RunRemembers(w, front);
      assert op in ops;
      ApplySound(m, op);
      StepAged(m, op, known);
      assert Known(w, ops) == known + {Issued(m.slots, op)} - {NO_ENTITY} by { LiveAreAged(w); }
      forall id | id in Apply(m, op).ix.loc ensures id in known + {Issued(m.slots, op)} - {NO_ENTITY} {
        if id !in m.ix.loc { OnlyIssuedAppears(m, op, id); }
      }
    }
  }

  /** `create_entity` never returns an id it has returned before, nor one that was live when the run started, however
      often slots are reused. */
  lemma NeverReissued(w: World, ops: seq<Op>)
    requires Sound(w) && w.slots.pool == [] && AllOrderly(w, ops) && forall op :: op in ops ==> Plain(op)
    ensures NextId(Run(w, ops).slots) !in Known(w, ops)
  {
    hide Sound, AllAged;
    RunRemembers(w, ops);
    StepAged(Run(w, ops), OpCreate, Known(w, ops));
  }

  /** An id that has been issued, or was live at the start, and is not live any more stays dead for the rest of the
      run. */
  lemma {:induction false} DeadForGood(w: World, before: seq<Op>, after: seq<Op>, id: Entity)
    requires Sound(w) && w.slots.pool == []
    requires AllOrderly(w, before + after) && forall op :: op in before + after ==> Plain(op)
    requires id in Known(w, before) && id !in Run(w, before).ix.loc
    ensures id !in Run(w, before + after).ix.loc
    ensures id in Known(w, before + after)
    decreases after
  {
    hide Sound, Apply, Orderly, Plain, AllAged, Issued;
    if after == [] {
      assert before + after == before;
    } else {
      var front, op := before + after[..|after| - 1], after[|after| - 1];
      var ops := before + after;
      assert ops[..|ops| - 1] == front && ops[|ops| - 1] == op && op in ops;
      assert forall o :: o in front ==> o in ops;
      DeadForGood(w, before, after[..|after| - 1], id);
      RunRemembers(w, front);
      var m := Run(w, front);
      if id in Apply(m, op).ix.loc {
        OnlyIssuedAppears(m, op, id);
        StepAged(m, op, Known(w, front));
      }
    }
  }
}
