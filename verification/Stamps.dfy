/** Bytes and versions: whatever changes the bytes of a component leaves a stamp that a change view sees, except for a
    delta packet that overwrites fields of a component that is there. */
module Stamps {
  import opened Base
  import opened Schema
  import opened Storage
  import opened StorageLaws
  import opened Operations
  import opened Commands
  import opened CommandLaws
  import opened Wire
  import opened Buffers
  import opened SnapshotFormat
  import opened Snapshots
  import opened Replicas
  import opened Deltas
  import opened Attempts
  import opened Receiving
  import opened Runs
  import Packets
  import opened Changes
  import opened ChangeLaws
  import opened ChangeRuns
  import opened Takes
  import opened TakeRuns

  /** A component of one entity, told apart. */
  type Pair = (Entity, TypeId)

  /** A component still has the bytes it had, and was last written no earlier than it was; or it was written after
      `from`. */
  ghost predicate Accounted(before: map<TypeId, Cell>, after: map<TypeId, Cell>, t: TypeId, from: Tick, now: Tick) {
    t in after ==>
      LastWrite(after[t], now) > from
      || (t in before && after[t].bytes == before[t].bytes && LastWrite(after[t], now) >= LastWrite(before[t], from))
  }

  /** What happened between two worlds is accounted for, component by component, but for some. A clock that has reached
      its end accounts for nothing. */
  ghost predicate Stamped(a: World, b: World, but: set<Pair>) {
    a.clock.tick <= b.clock.tick
    && (b.clock.tick < U64_MAX ==>
      forall x, t :: (x, t) !in but ==>
        Accounted(CellsOf(a.ix, x), CellsOf(b.ix, x), t, a.clock.tick, b.clock.tick))
  }

  /** Written after the first of two worlds. */
  ghost predicate FreshIn(a: World, b: World, e: Entity, t: TypeId) {
    b.clock.tick < U64_MAX && t in CellsOf(b.ix, e) ==> LastWrite(CellsOf(b.ix, e)[t], b.clock.tick) > a.clock.tick
  }

  // ------------------------------------------------------------------ putting steps together

  lemma StampedSame(a: World, b: World)
    requires b.ix == a.ix && b.clock == a.clock
    ensures Stamped(a, b, {})
  {
    hide CellsOf;
  }

  lemma AccountedTwice(x: map<TypeId, Cell>, y: map<TypeId, Cell>, z: map<TypeId, Cell>, t: TypeId, i: Tick, j: Tick,
                       k: Tick)
    requires i <= j <= k && Accounted(x, y, t, i, j) && Accounted(y, z, t, j, k)
    ensures Accounted(x, z, t, i, k)
  {
  }

  lemma StampedTwice(a: World, b: World, c: World, but: set<Pair>, more: set<Pair>)
    requires Stamped(a, b, but) && Stamped(b, c, more)
    ensures Stamped(a, c, but + more)
  {
    hide CellsOf, Accounted;
    if c.clock.tick < U64_MAX {
      forall x, t | (x, t) !in but + more
        ensures Accounted(CellsOf(a.ix, x), CellsOf(c.ix, x), t, a.clock.tick, c.clock.tick)
      {
        AccountedTwice(CellsOf(a.ix, x), CellsOf(b.ix, x), CellsOf(c.ix, x), t, a.clock.tick, b.clock.tick,
                       c.clock.tick);
      }
    }
  }

  lemma StampedThen(a: World, b: World, c: World, but: set<Pair>)
    requires Stamped(a, b, but) && Stamped(b, c, {})
    ensures Stamped(a, c, but)
  {
    hide Stamped;
    StampedTwice(a, b, c, but, {});
    assert but + {} == but;
  }

  lemma StampedMore(a: World, b: World, but: set<Pair>, more: set<Pair>)
    requires Stamped(a, b, but) && but <= more
    ensures Stamped(a, b, more)
  {
    hide CellsOf, Accounted;
  }

  /** A component written at the end of it all needs no excuse. */
  lemma FreshExcused(a: World, b: World, but: set<Pair>, e: Entity, t: TypeId)
    requires Stamped(a, b, but) && FreshIn(a, b, e, t)
    ensures Stamped(a, b, but - {(e, t)})
  {
    hide CellsOf;
  }

  /** Where one entity is touched, only its components have to be accounted for. */
  lemma TouchStamped(a: World, b: World, e: Entity, but: set<Pair>)
    requires OnlyTouches(a.ix, b.ix, e) && a.clock.tick <= b.clock.tick
    requires b.clock.tick < U64_MAX ==>
      forall t :: (e, t) !in but ==> Accounted(CellsOf(a.ix, e), CellsOf(b.ix, e), t, a.clock.tick, b.clock.tick)
    ensures Stamped(a, b, but)
  {
    hide CellsOf;
    forall x | x != e ensures CellsOf(b.ix, x) == CellsOf(a.ix, x) {
      if x !in a.ix.loc { GoneCells(a.ix, x); GoneCells(b.ix, x); }
    }
  }

  lemma GoneStamped(a: World, b: World, e: Entity)
    requires OnlyTouches(a.ix, b.ix, e) && a.clock.tick <= b.clock.tick && CellsOf(b.ix, e) == map[]
    ensures Stamped(a, b, {})
  {
    hide CellsOf, OnlyTouches;
    TouchStamped(a, b, e, {});
  }

  // ------------------------------------------------------------------ the building blocks

  lemma SpawnStamped(w: World, b: World, e: Entity)
    requires WorldOk(w) && e !in w.ix.loc && e != NO_ENTITY && b.ix == Spawn(w, e).ix && b.clock == w.clock
    ensures Stamped(w, b, {})
  {
    hide Shaped, Sized, CellsOf, Attach, OnlyTouches, Stamped, SlotsOk;
    SpawnStore(w, e);
    GoneStamped(w, b, e);
  }

  lemma DetachStamped(w: World, b: World, e: Entity)
    requires Shaped(w.ix) && e in w.ix.loc && b.ix == Detach(w.ix, e) && b.clock == w.clock
    ensures Stamped(w, b, {})
  {
    hide Shaped, CellsOf, Detach, OnlyTouches, Stamped;
    DetachShaped(w.ix, e);
    DetachTouches(w.ix, e);
    assert CellsOf(b.ix, e) == map[] by { GoneCells(b.ix, e); }
    GoneStamped(w, b, e);
  }

  /** The components a move brings in are still unwritten. */
  ghost function Gained(e: Entity, from: Key, to: Key): set<Pair> {
    set t | t in to && t !in from :: (e, t)
  }

  lemma GainedHolds(e: Entity, from: Key, to: Key, t: TypeId)
    ensures (e, t) in Gained(e, from, to) <==> t in to && t !in from
  {
  }

  lemma ArrivedAccounted(brought: map<TypeId, Cell>, held: map<TypeId, Cell>, to: Key, tick: Tick, t: TypeId)
    requires Arrived(brought, held, to, tick) && t in brought && brought[t].version <= tick
    ensures Accounted(brought, held, t, tick, tick)
  {
    if t in held { assert ArrivedCell(brought, held[t], t, tick); }
  }

  lemma MoveStamped(w: World, e: Entity, to: Key)
    requires Timed(w) && Shaped(w.ix) && e in w.ix.loc && to != w.ix.loc[e].key
      && forall t :: t in to ==> Registered(w.ix.reg, t)
    ensures Stamped(w, ChangeKey(w, e, to), Gained(e, w.ix.loc[e].key, to))
  {
    hide Shaped, CellsOf, ChangeKey, OnlyTouches, Stamped, Accounted, Gained, Registered, IndexTimed, LogBacked;
    var b, from := ChangeKey(w, e, to), w.ix.loc[e].key;
    ChangeKeyCells(w, e, to);
    ChangedKeyCells(w, e, to);
    ChangeKeyTicks(w, e, to);
    MoveClock(w, e, to);
    KeyRegistered(w.ix, e);
    TickKnown(w.clock);
    CellTimed(w.ix, e, w.clock.tick);
    forall t | (e, t) !in Gained(e, from, to)
      ensures Accounted(CellsOf(w.ix, e), CellsOf(b.ix, e), t, w.clock.tick, w.clock.tick)
    {
      GainedHolds(e, from, to, t);
      if t in from {
        ArrivedAccounted(CellsOf(w.ix, e), CellsOf(b.ix, e), to, w.clock.tick, t);
      } else {
        NothingThere(CellsOf(w.ix, e), CellsOf(b.ix, e), t, w.clock.tick, w.clock.tick);
      }
    }
    TouchStamped(w, b, e, Gained(e, from, to));
  }

  lemma NothingThere(before: map<TypeId, Cell>, after: map<TypeId, Cell>, t: TypeId, from: Tick, now: Tick)
    requires t !in after
    ensures Accounted(before, after, t, from, now)
  {
  }

  lemma MoveClock(w: World, e: Entity, to: Key)
    ensures ChangeKey(w, e, to).clock == w.clock
  {
  }

  lemma WriteStamped(w: World, e: Entity, t: TypeId, data: Bytes)
    requires Timed(w) && Shaped(w.ix) && e in w.ix.loc && t in w.ix.loc[e].key
    ensures var b := WriteCell(w, e, t, data); Stamped(w, b, {}) && FreshIn(w, b, e, t)
  {
    hide Shaped, CellsOf, WriteCell, OnlyTouches, Stamped, IndexTimed, LogBacked, LogChange, ClockOk, ClockGrows, Put;
    var b := WriteCell(w, e, t, data);
    CellThere(w.ix, e, t);
    WriteCellClock(w, e, t, data);
    TickKnown(w.clock);
    WriteCellCells(w, e, t, data);
    TouchStamped(w, b, e, {});
  }

  /** A write after something else. */
  lemma WriteAfter(a: World, w: World, but: set<Pair>, e: Entity, t: TypeId, data: Bytes)
    requires Stamped(a, w, but) && Timed(w) && Shaped(w.ix) && e in w.ix.loc && t in w.ix.loc[e].key
    ensures var b := WriteCell(w, e, t, data); Stamped(a, b, but - {(e, t)}) && FreshIn(a, b, e, t)
  {
    hide Shaped, CellsOf, WriteCell, Timed, Accounted;
    var b := WriteCell(w, e, t, data);
    WriteStamped(w, e, t, data);
    StampedThen(a, w, b, but);
    FreshExcused(a, b, but, e, t);
  }

  /** Adding accounts for itself, and stamps what it wrote. */
  lemma AddStamped(w: World, v: Viewer, e: Entity, t: TypeId, data: Option<Bytes>)
    requires Trusted(w, v)
    ensures var b := AddRaw(w, e, t, data); Stamped(w, b, {}) && FreshIn(w, b, e, t)
  {
    hide CellsOf, WriteCell, ChangeKey, Payload, Registered, Shaped, Timed, Watching, Stamped, FreshIn;
    var b := AddRaw(w, e, t, data);
    if Has(w.ix, e, t) && Registered(w.ix.reg, t) {
      var c := WriteCell(w, e, t, Payload(w.ix.reg, t, data));
      WriteStamped(w, e, t, Payload(w.ix.reg, t, data));
      SameStamped(w, c, b, {});
      SameFresh(w, c, b, e, t);
    } else if Alive(w.ix, e) && Registered(w.ix.reg, t) && w.depth <= 0 {
      GainStamped(w, b, v, e, t, Payload(w.ix.reg, t, data));
    } else {
      StampedSame(w, b);
      NoCellFresh(w, b, e, t);
    }
  }

  lemma SameStamped(a: World, b: World, c: World, but: set<Pair>)
    requires Stamped(a, b, but) && c.ix == b.ix && c.clock == b.clock
    ensures Stamped(a, c, but)
  {
    hide CellsOf, Accounted;
  }

  lemma SameFresh(a: World, b: World, c: World, e: Entity, t: TypeId)
    requires FreshIn(a, b, e, t) && c.ix == b.ix && c.clock == b.clock
    ensures FreshIn(a, c, e, t)
  {
    hide CellsOf;
  }

  lemma NoCellFresh(a: World, b: World, e: Entity, t: TypeId)
    requires Shaped(b.ix) && (!Has(b.ix, e, t) || !Registered(b.ix.reg, t))
    ensures FreshIn(a, b, e, t)
  {
    hide CellsOf, Shaped, Registered;
    if e in b.ix.loc { KeyRegistered(b.ix, e); LiveHandle(b.ix, e); } else { GoneCells(b.ix, e); }
  }

  lemma GainStamped(w: World, b: World, v: Viewer, e: Entity, t: TypeId, data: Bytes)
    requires Trusted(w, v) && e in w.ix.loc && t !in w.ix.loc[e].key && Registered(w.ix.reg, t)
    requires var c := WriteCell(ChangeKey(w, e, w.ix.loc[e].key + {t}), e, t, data); b.ix == c.ix && b.clock == c.clock
    ensures Stamped(w, b, {}) && FreshIn(w, b, e, t)
  {
    hide Shaped, Timed, WriteCell, ChangeKey, Watching, Registered, OnlyTouches, CellsOf, Stamped, FreshIn;
    var from := w.ix.loc[e].key;
    var m := ChangeKey(w, e, from + {t});
    var c := WriteCell(m, e, t, data);
    KeyRegistered(w.ix, e);
    ChangeKeyTicks(w, e, from + {t});
    ChangeKeyCells(w, e, from + {t});
    MoveStamped(w, e, from + {t});
    assert Gained(e, from, from + {t}) == {(e, t)};
    WriteAfter(w, m, {(e, t)}, e, t, data);
    assert {(e, t)} - {(e, t)} == {};
    SameStamped(w, c, b, {});
    SameFresh(w, c, b, e, t);
  }

  lemma RemoveStamped(w: World, v: Viewer, e: Entity, t: TypeId)
    requires Trusted(w, v)
    ensures Stamped(w, RemoveComponent(w, e, t), {})
  {
    hide Shaped, Timed, ChangeKey, Watching, Registered, CellsOf, Stamped;
    var b := RemoveComponent(w, e, t);
    if Has(w.ix, e, t) && w.depth <= 0 {
      var from := w.ix.loc[e].key;
      KeyRegistered(w.ix, e);
      MoveStamped(w, e, from - {t});
      assert Gained(e, from, from - {t}) == {};
      SameStamped(w, ChangeKey(w, e, from - {t}), b, {});
    } else {
      StampedSame(w, b);
    }
  }

  lemma TrackedAccounted(before: map<TypeId, Cell>, t: TypeId, u: TypeId, now: Tick, later: Tick)
    requires now <= later && t in before
    ensures Accounted(before, before, u, now, later)
    ensures Accounted(before, before[t := Tracked(before[t], now)], u, now, later)
  {
  }

  lemma TrackStamped(w: World, k: Key, t: TypeId)
    requires Timed(w) && Shaped(w.ix)
    ensures Stamped(w, w.(ix := Track(w.ix, k, t, w.clock.tick)), {})
  {
    hide Shaped, CellsOf, Timed, Track, Accounted;
    var b := w.(ix := Track(w.ix, k, t, w.clock.tick));
    if k in w.ix.archs && t in k {
      TrackShaped(w.ix, k, t, w.clock.tick);
      forall x, u ensures Accounted(CellsOf(w.ix, x), CellsOf(b.ix, x), u, w.clock.tick, w.clock.tick) {
        if x in w.ix.loc {
          TrackCells(w.ix, k, t, w.clock.tick, x);
          Unmoved(CellsOf(w.ix, x), u, w.clock.tick, w.clock.tick);
          if t in CellsOf(w.ix, x) { TrackedAccounted(CellsOf(w.ix, x), t, u, w.clock.tick, w.clock.tick); }
        } else {
          GoneCells(b.ix, x);
          NothingThere(CellsOf(w.ix, x), CellsOf(b.ix, x), u, w.clock.tick, w.clock.tick);
        }
      }
    } else {
      TrackNothing(w.ix, k, t, w.clock.tick);
      StampedSame(w, b);
    }
  }

  lemma Unmoved(cells: map<TypeId, Cell>, t: TypeId, from: Tick, now: Tick)
    requires from <= now
    ensures Accounted(cells, cells, t, from, now)
  {
  }

  lemma MarkedAccounted(before: map<TypeId, Cell>, t: TypeId, u: TypeId, now: Tick, later: Tick)
    requires now <= later < U64_MAX && t in before && later == BumpedTick(now)
    ensures Accounted(before, before[t := Cell(before[t].bytes, true, later)], u, now, later)
  {
  }

  lemma MarkStamped(w: World, v: Viewer, e: Entity, t: TypeId)
    requires Trusted(w, v)
    ensures Stamped(w, MarkChanged(w, e, t), {})
  {
    hide Shaped, CellsOf, IndexTimed, LogBacked, ClockOk, ClockGrows, Stamp, Accounted, Watching;
    var b := MarkChanged(w, e, t);
    if Has(w.ix, e, t) {
      hide MarkChanged;
      MarkClock(w, e, t);
      TickKnown(w.clock);
      StampShaped(w.ix, e, t, w.clock.tick, b.clock.tick);
      if b.clock.tick < U64_MAX {
        forall x, u ensures Accounted(CellsOf(w.ix, x), CellsOf(b.ix, x), u, w.clock.tick, b.clock.tick) {
          if x in w.ix.loc {
            StampCells(w.ix, e, t, w.clock.tick, b.clock.tick, x);
            Unmoved(CellsOf(w.ix, x), u, w.clock.tick, b.clock.tick);
            if t in CellsOf(w.ix, x) {
              TrackedAccounted(CellsOf(w.ix, x), t, u, w.clock.tick, b.clock.tick);
              MarkedAccounted(CellsOf(w.ix, x), t, u, w.clock.tick, b.clock.tick);
            }
          } else {
            GoneCells(b.ix, x);
            NothingThere(CellsOf(w.ix, x), CellsOf(b.ix, x), u, w.clock.tick, b.clock.tick);
          }
        }
      }
    } else {
      StampedSame(w, b);
    }
  }

  // ------------------------------------------------------------------ creating, destroying, clearing

  lemma CreateStamped(w: World)
    requires WorldOk(w) && NextId(w.slots) !in w.ix.loc
    ensures Stamped(w, Create(w), {})
  {
    hide WorldOk, NextId, Allocate, Spawn, Stamped;
    if NextId(w.slots) != NO_ENTITY {
      SpawnSlots(w, w.(slots := Allocate(w.slots)), NextId(w.slots));
      SpawnStamped(w, Create(w), NextId(w.slots));
    } else {
      StampedSame(w, Create(w));
    }
  }

  lemma CreateForeignStamped(w: World, id: Entity)
    requires WorldOk(w) && IsHandle(id)
    ensures Stamped(w, CreatePreassigned(w, id), {})
  {
    hide WorldOk, Spawn, ResizedGenerations, Stamped;
    NoForeignZero();
    if AcceptsForeign(id) && id !in w.ix.loc {
      var g := ResizedGenerations(w.slots.generations, Slot(id) + 1);
      assert |g| > Slot(id);
      SpawnSlots(w, w.(slots := w.slots.(generations := g[Slot(id) := Generation(id)])), id);
      SpawnStamped(w, CreatePreassigned(w, id), id);
    } else {
      StampedSame(w, CreatePreassigned(w, id));
    }
  }

  lemma CreatePooledStamped(w: World)
    requires WorldOk(w) && PooledId(w.slots) !in w.ix.loc
    ensures Stamped(w, CreatePooled(w), {})
  {
    hide Spawn, Coherent, Create, Stamped;
    var n := |w.slots.pool|;
    if n == 0 {
      CreateStamped(w);
    } else {
      SpawnSlots(w, w.(slots := w.slots.(pool := w.slots.pool[..n - 1])), w.slots.pool[n - 1]);
      SpawnStamped(w, CreatePooled(w), w.slots.pool[n - 1]);
    }
  }

  lemma DestroyStamped(w: World, v: Viewer, e: Entity)
    requires Trusted(w, v)
    ensures Stamped(w, Destroy(w, e), {}) && Stamped(w, DestroyPooled(w, e), {})
  {
    hide Shaped, Timed, Watching, Detach, FreeId, RemovedEvents, Stamped;
    if e in w.ix.loc && w.depth <= 0 {
      DetachStamped(w, Destroy(w, e), e);
      DetachStamped(w, DestroyPooled(w, e), e);
    } else {
      StampedSame(w, w);
    }
  }

  lemma {:induction false} ClearAllStamped(w: World, v: Viewer, order: seq<Entity>)
    requires Trusted(w, v)
    ensures Stamped(w, ClearAll(w, order), {})
    decreases order
  {
    hide Shaped, Timed, Watching, Detach, FreeId, Stamped;
    if order == [] {
      StampedSame(w, w);
    } else {
      var e := order[0];
      if e in w.ix.loc {
        var b := w.(ix := Detach(w.ix, e), slots := FreeId(w.slots, e));
        DetachTrust(w, b, v, e);
        DetachStamped(w, b, e);
        ClearAllStamped(b, v, order[1..]);
        StampedThen(w, b, ClearAll(b, order[1..]), {});
      } else {
        ClearAllStamped(w, v, order[1..]);
      }
    }
  }

  lemma ClearStamped(w: World, v: Viewer, order: seq<Entity>)
    requires Trusted(w, v)
    ensures Stamped(w, Clear(w, order), {})
  {
    hide ClearAll, Accounted, CellsOf, Trusted;
    if w.depth <= 0 { ClearAllStamped(w, v, order); } else { StampedSame(w, Clear(w, order)); }
  }

  // ------------------------------------------------------------------ a flush

  /** The components a list of pending writes rewrites. */
  ghost function Rewritten(e: Entity, ids: seq<TypeId>, ops: seq<PendingOp>): set<Pair> {
    set t | t in ids && LastAdd(ops, t).Some? :: (e, t)
  }

  lemma {:induction false} WriteAllStamped(a: World, w: World, but: set<Pair>, e: Entity, ids: seq<TypeId>,
                                           ops: seq<PendingOp>)
    requires Stamped(a, w, but) && Shaped(w.ix) && Timed(w) && e in w.ix.loc
      && forall t :: t in ids ==> t in w.ix.loc[e].key
    ensures Stamped(a, WriteAll(w, e, ids, ops), but - Rewritten(e, ids, ops))
    decreases ids
  {
    hide Shaped, Timed, Watching, WriteCell, LastAdd, Payload, Stamped, FreshIn, OnlyTouches;
    if ids == [] {
      assert Rewritten(e, ids, ops) == {} && but - {} == but;
    } else {
      var front, t := ids[..|ids| - 1], ids[|ids| - 1];
      assert ids == front + [t];
      NewViewTrusts(w, {});
      WriteAllTrust(w, NewView(w, {}), {}, e, front, ops);
      WriteAllStamped(a, w, but, e, front, ops);
      var m := WriteAll(w, e, front, ops);
      if LastAdd(ops, t).Some? {
        WriteAfter(a, m, but - Rewritten(e, front, ops), e, t, Payload(w.ix.reg, t, LastAdd(ops, t).value));
        assert but - Rewritten(e, ids, ops) == but - Rewritten(e, front, ops) - {(e, t)};
      } else {
        assert Rewritten(e, ids, ops) == Rewritten(e, front, ops);
      }
    }
  }

  /** Whatever a commit moves in, it writes. */
  lemma CommitStamped(w: World, v: Viewer, e: Entity, ops: seq<PendingOp>)
    requires Trusted(w, v) && OpsOk(w.ix.reg, ops)
    ensures Stamped(w, Commit(w, e, ops), {})
  {
    hide Shaped, Timed, Watching, WriteAll, ChangeKey, FinalSet, LastAdd, OpsOk, Registered, NetEvents, OnlyTouches,
      Stamped;
    if e in w.ix.loc && ops != [] {
      var key := w.ix.loc[e].key;
      var final := FinalSet(key, ops);
      KeyRegistered(w.ix, e);
      FinalRegistered(w.ix.reg, key, ops);
      var m := if final != key then ChangeKey(w, e, final) else w;
      if final != key {
        ChangeKeyTicks(w, e, final);
        ChangeKeyCells(w, e, final);
        MoveStamped(w, e, final);
      } else {
        StampedSame(w, w);
        StampedMore(w, w, {}, Gained(e, key, final));
      }
      WriteAllStamped(w, m, Gained(e, key, final), e, SortedIds(final), ops);
      assert Gained(e, key, final) - Rewritten(e, SortedIds(final), ops) == {};
      SameStamped(w, WriteAll(m, e, SortedIds(final), ops), Commit(w, e, ops), {});
    } else {
      CommitNothing(w, e, ops);
      StampedSame(w, w);
    }
  }

  lemma {:induction false} DestroyAllStamped(w: World, v: Viewer, d: Window, es: seq<Entity>)
    requires Trusted(w, v)
    ensures Stamped(w, DestroyAll(w, d, es), {})
    decreases es
  {
    hide Trusted, Destroy, Stamped;
    if es == [] {
      StampedSame(w, w);
    } else {
      var m := DestroyAll(w, d, es[..|es| - 1]);
      DestroyAllTrust(w, v, d, es[..|es| - 1]);
      DestroyAllStamped(w, v, d, es[..|es| - 1]);
      DestroyStamped(m, v, es[|es| - 1]);
      if es[|es| - 1] in d.doomed { StampedThen(w, m, Destroy(m, es[|es| - 1]), {}); }
    }
  }

  lemma {:induction false} CommitAllStamped(w: World, v: Viewer, d: Window, es: seq<Entity>)
    requires Trusted(w, v) && WorldOk(w) && NoDup(es) && forall e :: OpsOk(w.ix.reg, OpsOf(d, e))
    ensures Stamped(w, CommitAll(w, d, es), {})
    decreases es
  {
    hide Trusted, WorldOk, Commit, OpsOk, OpsOf, Contents, ApplyOps, Stamped;
    if es == [] {
      StampedSame(w, w);
    } else {
      var front, e := es[..|es| - 1], es[|es| - 1];
      var m := CommitAll(w, d, front);
      CommitAllTrust(w, v, d, front);
      CommitAllOk(w, d, front);
      CommitAllStamped(w, v, d, front);
      if e !in d.doomed {
        CommitStamped(m, v, e, OpsOf(d, e));
        StampedThen(w, m, Commit(m, e, OpsOf(d, e)), {});
      }
    }
  }

  lemma {:induction false} DeferAllStamped(w: World, v: Viewer, cs: seq<Command>)
    requires Trusted(w, v) && WorldOk(w) && w.depth <= 0 && forall c :: c in cs ==> CommandOk(w.ix.reg, c)
    ensures Stamped(w, DeferAll(w, EMPTY_WINDOW, cs).0, {})
    decreases cs
  {
    hide Trusted, WorldOk, CreatePreassigned, Alive, Queue, Contents, DefersOne, OpsOk, OpsOf, WindowOk, View, DataOk,
      IsHandle, Stamped;
    if cs == [] {
      StampedSame(w, w);
    } else {
      var front, c := cs[..|cs| - 1], cs[|cs| - 1];
      DeferAllStamped(w, v, front);
      EmptyWindowOk(w.ix.reg);
      DeferAllOk(w, EMPTY_WINDOW, front);
      assert c in cs;
      var m := DeferAll(w, EMPTY_WINDOW, front).0;
      if c.AddEntity? && !Alive(m.ix, c.entity) {
        CreateForeignStamped(m, c.entity);
        StampedThen(w, m, CreatePreassigned(m, c.entity), {});
      }
    }
  }

  lemma FlushStamped(w: World, v: Viewer, cs: seq<Command>)
    requires Trusted(w, v) && WorldOk(w) && w.depth <= 0 && forall c :: c in cs ==> CommandOk(w.ix.reg, c)
    ensures Stamped(w, Flush(w, cs), {})
  {
    hide Trusted, WorldOk, DeferAll, CommitAll, DestroyAll, CommandOk, OpsOk, OpsOf, Contents, View, NoDup, DefersOne,
      Stamped;
    EmptyWindowOk(w.ix.reg);
    DeferAllOk(w, EMPTY_WINDOW, cs);
    DeferAllTrust(w, v, cs);
    DeferAllStamped(w, v, cs);
    var (w1, d) := DeferAll(w, EMPTY_WINDOW, cs);
    DestroyAllTrust(w1, v, d, d.order);
    DestroyAllOk(w1, d, d.order);
    DestroyAllStamped(w1, v, d, d.order);
    var w2 := DestroyAll(w1, d, d.order);
    CommitAllStamped(w2, v, d, d.order);
    StampedThen(w, w1, w2, {});
    StampedThen(w, w2, CommitAll(w2, d, d.order), {});
  }

  // ------------------------------------------------------------------ loads

  /** Bytes written straight into a row that has been stamped, or that is excused. */
  lemma PokeStamped(a: World, w: World, but: set<Pair>, e: Entity, t: TypeId, data: Bytes)
    requires Stamped(a, w, but) && Shaped(w.ix) && ((e, t) in but || FreshIn(a, w, e, t))
    ensures var b := Poke(w, e, t, data); Stamped(a, b, but) && ((e, t) in but || FreshIn(a, b, e, t))
  {
    hide Shaped, CellsOf, Poke, Accounted;
    var b := Poke(w, e, t, data);
    PokeClock(w, e, t, data);
    forall x, u | x != e || u != t
      ensures Accounted(CellsOf(w.ix, x), CellsOf(b.ix, x), u, w.clock.tick, w.clock.tick)
    {
      PokedAccounted(w, e, t, data, x, u);
    }
    assert Stamped(w, b, {(e, t)});
    StampedTwice(a, w, b, but, {(e, t)});
    assert (e, t) in but ==> but + {(e, t)} == but;
    PokeStamps(w, e, t, data, e);
    if (e, t) !in but {
      FreshExcused(a, b, but + {(e, t)}, e, t);
      assert but + {(e, t)} - {(e, t)} == but;
    }
  }

  lemma PokeClock(w: World, e: Entity, t: TypeId, data: Bytes)
    ensures Poke(w, e, t, data).clock == w.clock
  {
  }

  lemma PokedAccounted(w: World, e: Entity, t: TypeId, data: Bytes, x: Entity, u: TypeId)
    requires Shaped(w.ix) && (x != e || u != t)
    ensures Accounted(CellsOf(w.ix, x), CellsOf(Poke(w, e, t, data).ix, x), u, w.clock.tick, w.clock.tick)
  {
    hide CellsOf, Shaped;
    PokeStamps(w, e, t, data, x);
    if HasCell(w.ix, e, t) {
      ColumnsAreKey(w.ix, e, t);
      if x in w.ix.loc {
        PokeCells(w.ix, Poke(w, e, t, data).ix, e, t, data, x);
        SameBytes(CellsOf(w.ix, x), CellsOf(Poke(w, e, t, data).ix, x), t, data, u);
      } else {
        GoneCells(w.ix, x);
      }
    }
  }

  lemma SameBytes(before: map<TypeId, Cell>, after: map<TypeId, Cell>, t: TypeId, data: Bytes, u: TypeId)
    requires before.Keys == after.Keys
      && (BytesIn(after) == BytesIn(before) || (u != t && BytesIn(after) == BytesIn(before)[t := data]))
    ensures u in before ==> after[u].bytes == before[u].bytes
  {
    if u in before { assert BytesIn(after)[u] == BytesIn(before)[u]; }
  }

  lemma LoadPartStamped(w: World, v: Viewer, e: Entity, p: Part)
    requires Trusted(w, v)
    ensures Stamped(w, LoadPart(w, e, p), {})
  {
    hide Shaped, Timed, Watching, AddRaw, Poke, ReadBlock, BlockSize, FieldsOk, Stamped, FreshIn;
    var reg := w.ix.reg;
    if Registered(reg, p.t) && |p.block| == BlockSize(SchemaOf(reg, p.t), p.mask) && RegistryOk(reg) {
      AddStamped(w, v, e, p.t, None);
      AddTrust(w, v, e, p.t, None);
      PokeStamped(w, AddRaw(w, e, p.t, None), {}, e, p.t,
        ReadBlock(SchemaOf(reg, p.t), p.mask, Zeros(SizeOf(reg, p.t)), p.block));
    } else {
      StampedSame(w, w);
    }
  }

  lemma {:induction false} TryPartsStamped(w: World, v: Viewer, e: Entity, ps: seq<Part>)
    requires Trusted(w, v)
    ensures Stamped(w, TryParts(w, e, ps).0, {})
    decreases ps
  {
    hide Trusted, LoadPart, AddRaw, Has, Stamped;
    if ps == [] {
      StampedSame(w, w);
    } else {
      var front, p := TryParts(w, e, ps[..|ps| - 1]), ps[|ps| - 1];
      TryPartsTrust(w, v, e, ps[..|ps| - 1]);
      TryPartsStamped(w, v, e, ps[..|ps| - 1]);
      AddStamped(front.0, v, e, p.t, None);
      LoadPartStamped(front.0, v, e, p);
      if front.1 { StampedThen(w, front.0, TryPart(front.0, e, p).0, {}); }
    }
  }

  lemma TryRecordStamped(w: World, v: Viewer, r: Record)
    requires Trusted(w, v) && WorldOk(w) && IsHandle(r.id)
    ensures Stamped(w, TryRecord(w, r).0, {})
  {
    hide Trusted, WorldOk, TryParts, CreatePreassigned, AcceptsForeign, IsHandle, Stamped;
    var m := CreatePreassigned(w, r.id);
    CreateForeignTrust(w, v, r.id);
    CreateForeignStamped(w, r.id);
    TryPartsStamped(m, v, r.id, r.parts);
    StampedThen(w, m, TryParts(m, r.id, r.parts).0, {});
  }

  lemma {:induction false} TryRecordsStamped(w: World, v: Viewer, rs: seq<Record>)
    requires Trusted(w, v) && Healthy(w) && forall i :: 0 <= i < |rs| ==> IsHandle(rs[i].id)
    ensures Stamped(w, TryRecords(w, rs).0, {})
    decreases rs
  {
    hide Trusted, WorldOk, RegistryOk, TryRecord, IsHandle, Stamped;
    if rs == [] {
      StampedSame(w, w);
    } else {
      var front := rs[..|rs| - 1];
      assert forall i :: 0 <= i < |front| ==> front[i] == rs[i];
      var m := TryRecords(w, front);
      TryRecordsTrust(w, v, front);
      RecordsStay(w, front);
      TryRecordsStamped(w, v, front);
      TryRecordStamped(m.0, v, rs[|rs| - 1]);
      if m.1 { StampedThen(w, m.0, TryRecord(m.0, rs[|rs| - 1]).0, {}); }
    }
  }

  lemma LoadStamped(w: World, v: Viewer, bytes: Bytes, order: seq<Entity>)
    requires Trusted(w, v) && WorldOk(w) && Allowed(w, OpLoad(bytes, order))
    ensures Stamped(w, Load(w, bytes, order), {})
  {
    hide Trusted, WorldOk, Clear, TryRecords, Parse, PartOk, RegistryOk, AcceptsForeign, IsHandle, Contents, Stamped;
    if Parse(w.ix.reg, bytes, 0).Some? {
      var rs, m := Parse(w.ix.reg, bytes, 0).value.value, Clear(w, order);
      ClearTrust(w, v, order);
      ClearStamped(w, v, order);
      if w.depth <= 0 { ClearOk(w, order); } else { ClearNothing(w, order); }
      ClearReg(w, order);
      RecordsParsed(w.ix.reg, bytes);
      forall i | 0 <= i < |rs| ensures IsHandle(rs[i].id) { assert RecordOk(w.ix.reg, rs[i]); }
      TryRecordsStamped(m, v, rs);
      StampedThen(w, m, TryRecords(m, rs).0, {});
    } else {
      StampedSame(w, w);
    }
  }

  // ------------------------------------------------------------------ packets

  lemma {:induction false} ApplyDuesStamped(a: World, w: World, v: Viewer, but: set<Pair>, e: Entity, t: TypeId,
                                            ds: seq<Packets.Due>)
    requires Trusted(w, v) && Stamped(a, w, but) && (ds != [] ==> (e, t) in but || FreshIn(a, w, e, t))
    ensures var b := ApplyDues(w, e, t, ds); Stamped(a, b, but) && (ds != [] ==> (e, t) in but || FreshIn(a, b, e, t))
  {
    hide Shaped, Timed, Watching, Poke, Contents, Overlaid, Stamped, FreshIn;
    if ds != [] {
      var front, d := ds[..|ds| - 1], ds[|ds| - 1];
      var m := ApplyDues(w, e, t, front);
      if front == [] { assert m == w; } else { ApplyDuesStamped(a, w, v, but, e, t, front); }
      ApplyDuesTrust(w, v, e, t, front);
      if e in Contents(m.ix) && t in Contents(m.ix)[e] {
        PokeStamped(a, m, but, e, t, Overlaid(m.ix.reg, t, Contents(m.ix)[e][t], d));
      }
    }
  }

  /** A component that was not there at first can only be accounted for by a stamp. */
  lemma NewIsFresh(a: World, b: World, but: set<Pair>, e: Entity, t: TypeId)
    requires Stamped(a, b, but) && (e, t) !in but && Shaped(a.ix) && !Has(a.ix, e, t)
    ensures FreshIn(a, b, e, t)
  {
    hide CellsOf, Shaped;
    if e in a.ix.loc { KeyRegistered(a.ix, e); LiveHandle(a.ix, e); } else { GoneCells(a.ix, e); }
    assert Accounted(CellsOf(a.ix, e), CellsOf(b.ix, e), t, a.clock.tick, b.clock.tick) || b.clock.tick >= U64_MAX;
  }

  /** What a delta record does unseen: it overwrites fields of a component that is there. */
  ghost predicate Unseen(w: World, version: nat, e: Entity, c: Packets.DueComp) {
    version != 1 && c.dues != [] && Has(w.ix, e, c.t)
  }

  lemma DueCompStamped(a: World, w: World, v: Viewer, but: set<Pair>, version: nat, e: Entity, c: Packets.DueComp)
    requires Shaped(a.ix) && Stamped(a, w, but) && Trusted(w, v) && (Unseen(a, version, e, c) ==> (e, c.t) in but)
    ensures Stamped(a, TryDueComp(w, version, e, c).0, but)
  {
    hide Shaped, Timed, Watching, AddRaw, ApplyDues, Has, Stamped, FreshIn;
    var m := Presented(w, version, e, c.t);
    AddTrust(w, v, e, c.t, None);
    if version == 1 || !Has(w.ix, e, c.t) {
      AddStamped(w, v, e, c.t, None);
      StampedThen(a, w, m, but);
      FreshSince(a, w, m, but, e, c.t);
    } else if (e, c.t) !in but && c.dues != [] {
      NewIsFresh(a, w, but, e, c.t);
    }
    ApplyDuesStamped(a, m, v, but, e, c.t, c.dues);
  }

  lemma FreshSince(a: World, w: World, b: World, but: set<Pair>, e: Entity, t: TypeId)
    requires Stamped(a, w, but) && FreshIn(w, b, e, t)
    ensures FreshIn(a, b, e, t)
  {
    hide CellsOf, Accounted;
  }

  lemma {:induction false} DueCompsStamped(a: World, w: World, v: Viewer, but: set<Pair>, version: nat, e: Entity,
                                           cs: seq<Packets.DueComp>)
    requires Shaped(a.ix) && Stamped(a, w, but) && Trusted(w, v)
      && forall j :: 0 <= j < |cs| && Unseen(a, version, e, cs[j]) ==> (e, cs[j].t) in but
    ensures Stamped(a, TryDueComps(w, version, e, cs).0, but)
  {
    hide Shaped, Trusted, TryDueComp, Unseen, Stamped;
    if cs != [] {
      var front := cs[..|cs| - 1];
      assert forall j :: 0 <= j < |front| ==> front[j] == cs[j];
      DueCompsStamped(a, w, v, but, version, e, front);
      TryDueCompsTrust(w, v, version, e, front);
      DueCompStamped(a, TryDueComps(w, version, e, front).0, v, but, version, e, cs[|cs| - 1]);
    }
  }

  /** The components a delta packet overwrites unseen. */
  ghost function Overwritten(w: World, version: nat, es: seq<Packets.DueEntity>): set<Pair> {
    set i, j | 0 <= i < |es| && 0 <= j < |es[i].comps| && Unseen(w, version, es[i].id, es[i].comps[j])
      :: (es[i].id, es[i].comps[j].t)
  }

  lemma {:induction false} DeltaStamped(w: World, v: Viewer, but: set<Pair>, version: nat, es: seq<Packets.DueEntity>)
    requires Trusted(w, v) && Overwritten(w, version, es) <= but
    ensures Stamped(w, TryDelta(w, version, es).w, but)
  {
    hide Shaped, Timed, Watching, TryDueComps, Unseen, Stamped;
    if es == [] {
      StampedSame(w, w);
      StampedMore(w, w, {}, but);
    } else {
      var front, e := es[..|es| - 1], es[|es| - 1];
      forall p | p in Overwritten(w, version, front) ensures p in but {
        var i, j :| 0 <= i < |front| && 0 <= j < |front[i].comps| && Unseen(w, version, front[i].id, front[i].comps[j])
          && p == (front[i].id, front[i].comps[j].t);
        assert front[i] == es[i] && p in Overwritten(w, version, es);
      }
      DeltaStamped(w, v, but, version, front);
      TryDeltaTrust(w, v, version, front);
      forall j | 0 <= j < |e.comps| && Unseen(w, version, e.id, e.comps[j]) ensures (e.id, e.comps[j].t) in but {
        assert (e.id, e.comps[j].t) in Overwritten(w, version, es);
      }
      DueCompsStamped(w, TryDelta(w, version, front).w, v, but, version, e.id, e.comps);
    }
  }

  lemma {:induction false} TryEntitiesStamped(w: World, v: Viewer, rs: seq<Record>)
    requires Trusted(w, v) && Healthy(w) && forall i :: 0 <= i < |rs| ==> IsHandle(rs[i].id)
    ensures Stamped(w, TryEntities(w, rs).0, {})
    decreases rs
  {
    hide Trusted, WorldOk, RegistryOk, TryRecord, IsHandle, Destroy, DestroyPooled, Stamped;
    if rs == [] {
      StampedSame(w, w);
    } else {
      var front, r := rs[..|rs| - 1], rs[|rs| - 1];
      assert forall i :: 0 <= i < |front| ==> front[i] == rs[i];
      TryEntitiesTrust(w, v, front);
      TryEntitiesStamped(w, v, front);
      EntitiesStay(w, front);
      var m := TryEntities(w, front);
      DestroyTrust(m.0, v, r.id);
      DestroyStamped(m.0, v, r.id);
      Vacates(m.0, r.id);
      TryRecordStamped(Destroy(m.0, r.id), v, r);
      if m.1 {
        StampedThen(w, m.0, Destroy(m.0, r.id), {});
        StampedThen(w, Destroy(m.0, r.id), TryRecord(Destroy(m.0, r.id), r).0, {});
      }
    }
  }

  lemma {:induction false} DestroyAbsentStamped(w: World, v: Viewer, es: seq<Entity>, keep: set<Entity>)
    requires Trusted(w, v)
    ensures Stamped(w, DestroyAbsent(w, es, keep), {})
  {
    hide Trusted, Destroy, Stamped;
    if es == [] {
      StampedSame(w, w);
    } else {
      var m := DestroyAbsent(w, es[..|es| - 1], keep);
      DestroyAbsentTrust(w, v, es[..|es| - 1], keep);
      DestroyAbsentStamped(w, v, es[..|es| - 1], keep);
      DestroyStamped(m, v, es[|es| - 1]);
      StampedThen(w, m, Destroy(m, es[|es| - 1]), {});
    }
  }

  /** The components an operation writes without a trace. */
  ghost function Silent(w: World, op: Op): set<Pair> {
    if op.OpReceive? && op.kind == Packets.Delta && Packets.ValidPacket(w.ix.reg, op.kind, op.packet) then
      var p := Packets.ParseDelta(w.ix.reg, op.packet).value;
      Overwritten(w, p.version, p.value)
    else {}
  }

  lemma ReceiveStamped(w: World, v: Viewer, op: Op)
    requires Trusted(w, v) && Healthy(w) && op.OpReceive?
    ensures Stamped(w, Received(w, op.replicated, op.kind, op.packet, op.order).0, Silent(w, op))
  {
    hide Trusted, WorldOk, RegistryOk, Packets.ParseVersion, Packets.ParseEntity, Packets.ParseMany, Destroy,
      DestroyPooled, DestroyAbsent, TryEntities, TryRecord, TryDelta, FromLE, AcceptsForeign, IdsOf, ReadInt,
      IsHandle, Stamped, Overwritten;
    var reg := w.ix.reg;
    StampedSame(w, w);
    if Packets.ValidPacket(reg, op.kind, op.packet) {
      match op.kind
      case Spawn =>
        SpawnParsed(reg, op.packet);
        TryRecordStamped(w, v, Packets.ParseSpawn(reg, op.packet).value.value);
      case Delta =>
        var p := Packets.ParseDelta(reg, op.packet).value;
        DeltaStamped(w, v, Overwritten(w, p.version, p.value), p.version, p.value);
      case FullState =>
        FullStateParsed(reg, op.packet);
        var rs := Packets.ParseFullState(reg, op.packet).value.value;
        var m := TryEntities(w, rs).0;
        TryEntitiesStamped(w, v, rs);
        TryEntitiesTrust(w, v, rs);
        DestroyAbsentStamped(m, v, op.order, IdsOf(rs));
        StampedThen(w, m, DestroyAbsent(m, op.order, IdsOf(rs)), {});
      case Despawn =>
        DestroyStamped(w, v, FromLE(op.packet));
    }
  }

  // ------------------------------------------------------------------ every operation, every run

  lemma CompactStamped(w: World)
    requires WorldOk(w)
    ensures Stamped(w, Compact(w), {})
  {
    hide WorldOk, CellsOf;
    SameClock(w);
    forall x ensures CellsOf(Compact(w).ix, x) == CellsOf(w.ix, x) {
      if x in w.ix.loc { CompactCells(w, x); } else { GoneCells(w.ix, x); GoneCells(Compact(w).ix, x); }
    }
  }

  /** Every operation accounts for every byte it changes, but for what it writes without a trace. */
  lemma ApplyStamped(w: World, v: Viewer, op: Op)
    requires Trusted(w, v) && WorldOk(w) && Allowed(w, op)
    ensures Stamped(w, Apply(w, op), Silent(w, op))
  {
    hide Shaped, Timed, Watching, WorldOk, Create, CreatePreassigned, CreatePooled, Destroy, DestroyPooled, AddRaw,
      RemoveComponent, MarkChanged, Clear, Compact, Flush, Load, Received, DataOk, CommandOk, Track, NextId, PooledId,
      RegistryOk, IsHandle, Stamped, FreshIn;
    StampedSame(w, w);
    match op
    case OpCreate => CreateStamped(w);
    case OpCreateForeign(id) => CreateForeignStamped(w, id);
    case OpCreatePooled => CreatePooledStamped(w);
    case OpDestroy(e) => DestroyStamped(w, v, e);
    case OpDestroyPooled(e) => DestroyStamped(w, v, e);
    case OpAdd(e, t, data) => AddStamped(w, v, e, t, data);
    case OpRemove(e, t) => RemoveStamped(w, v, e, t);
    case OpMark(e, t) => MarkStamped(w, v, e, t);
    case OpTrack(k, t) => TrackStamped(w, k, t);
    case OpBeginIteration => StampedSame(w, Apply(w, op));
    case OpEndIteration => StampedSame(w, Apply(w, op));
    case OpClear(order) => ClearStamped(w, v, order);
    case OpCompact => CompactStamped(w);
    case OpFlush(cs) => if w.depth <= 0 { FlushStamped(w, v, cs); }
    case OpLoad(bytes, order) => LoadStamped(w, v, bytes, order);
    case OpReceive(_, _, _, _) => ReceiveStamped(w, v, op);
  }

  /** What is written without a trace in the course of a play. */
  ghost function SilentOver(s: Scene, ids: seq<TypeId>, acts: seq<Act>): set<Pair>
    decreases acts
  {
    if acts == [] then {} else
      var front, a := acts[..|acts| - 1], acts[|acts| - 1];
      SilentOver(s, ids, front) + if a.Do? then Silent(Play(s, ids, front).w, a.op) else {}
  }

  lemma PerformStamped(s: Scene, ids: seq<TypeId>, a: Act)
    requires Staged(s, ids) && CanPerform(s, a) && a != Take
    ensures var z := Perform(s, ids, a);
      && Stamped(s.w, z.w, if a.Do? then Silent(s.w, a.op) else {})
      && z.v.baseline == s.v.baseline && z.v.watched == s.v.watched
  {
    hide WorldOk, Trusted, Apply, Allowed, Stamped, Silent, SafeToCompact, SafeToMistake;
    if a.Do? { ApplyStamped(s.w, s.v, a.op); } else { StampedSame(s.w, s.w); }
  }

  lemma {:induction false} PlayStamped(s: Scene, ids: seq<TypeId>, acts: seq<Act>)
    requires Staged(s, ids) && Playable(s, ids, acts) && Take !in acts
    ensures var z := Play(s, ids, acts);
      && Stamped(s.w, z.w, SilentOver(s, ids, acts))
      && z.v.baseline == s.v.baseline && z.v.watched == s.v.watched
    decreases acts
  {
    hide Staged, Perform, CanPerform, Stamped, Silent;
    if acts == [] {
      StampedSame(s.w, s.w);
    } else {
      var front, a := acts[..|acts| - 1], acts[|acts| - 1];
      assert acts == front + [a];
      PlayStaged(s, ids, front);
      PlayStamped(s, ids, front);
      var m := Play(s, ids, front);
      PerformStamped(m, ids, a);
      StampedTwice(s.w, m.w, Perform(m, ids, a).w, SilentOver(s, ids, front),
                   if a.Do? then Silent(m.w, a.op) else {});
    }
  }

  // ------------------------------------------------------------------ what a take reports of it

  /** A component is there that was not, or with other bytes. */
  ghost predicate BytesChanged(a: Store, b: Store, e: Entity, t: TypeId) {
    e in b && t in b[e] && (e !in a || t !in a[e] || b[e][t] != a[e][t])
  }

  lemma ChangedIsRecent(a: World, b: World, but: set<Pair>, e: Entity, t: TypeId)
    requires Stamped(a, b, but) && (e, t) !in but && b.clock.tick < U64_MAX
    requires BytesChanged(Contents(a.ix), Contents(b.ix), e, t)
    ensures t in CellsOf(b.ix, e) && LastWrite(CellsOf(b.ix, e)[t], b.clock.tick) > a.clock.tick
  {
    hide CellsOf;
    assert Accounted(CellsOf(a.ix, e), CellsOf(b.ix, e), t, a.clock.tick, b.clock.tick);
    if e !in a.ix.loc { GoneCells(a.ix, e); }
  }

  lemma RecentIsScanned(w: World, v: Viewer, ids: seq<TypeId>, e: Entity, t: TypeId)
    requires Trusted(w, v) && v.watched == Elements(ids) && e in w.ix.loc && v.watched <= w.ix.loc[e].key
      && t in v.watched
    requires t in CellsOf(w.ix, e) && LastWrite(CellsOf(w.ix, e)[t], w.clock.tick) > v.baseline
    ensures e in Scan(Prepared(w, v, ids).ix, v.watched, v.baseline)
  {
    hide CellsOf, TrackKeys, Shaped, Timed, Watching, Quiet, Dirty;
    if Quiet(w, v) {
      TrackedHere(w, v, e, t);
      PreparedQuiet(w, v, ids);
      NewerIsDirty(w.ix, v.watched, v.baseline, e, t);
    } else {
      PreparedTracked(w, v, ids);
      MayHaveChangedIff(w, v, ids, e);
    }
  }

  lemma NewerIsDirty(w: Index, watched: set<TypeId>, baseline: Tick, e: Entity, t: TypeId)
    requires e in w.loc && watched <= w.loc[e].key && t in watched && Newer(CellsOf(w, e), t, baseline)
    ensures Dirty(w, watched, baseline, e)
  {
  }

  lemma TrackedHere(w: World, v: Viewer, e: Entity, t: TypeId)
    requires Trusted(w, v) && Quiet(w, v) && e in w.ix.loc && v.watched <= w.ix.loc[e].key && t in v.watched
    ensures t in CellsOf(w.ix, e) && CellsOf(w.ix, e)[t].tracked
  {
    hide CellsOf, Shaped, Timed, Quiet;
    Trusts(w, v, {});
    CellThere(w.ix, e, t);
    HomeKnown(w.ix, e);
  }

  /** From a take on, or from the creation of the view, until the next take: whatever changed the bytes of a watched
      component of a matching entity, be it a write, a move, a load or a packet, is among what the version scan sees,
      and is reported whenever the take equals the scan; unless a delta overwrote fields of a component that was
      there. */
  lemma EveryChange(s: Scene, ids: seq<TypeId>, acts: seq<Act>, e: Entity, t: TypeId)
    requires Staged(s, ids) && s.v.baseline == s.w.clock.tick && Playable(s, ids, acts) && Take !in acts
    requires var z := Play(s, ids, acts);
      && z.w.clock.tick < U64_MAX && t in s.v.watched && e in z.w.ix.loc && s.v.watched <= z.w.ix.loc[e].key
      && BytesChanged(Contents(s.w.ix), Contents(z.w.ix), e, t) && (e, t) !in SilentOver(s, ids, acts)
    ensures var z := Play(s, ids, acts); var scan := Scan(Prepared(z.w, z.v, ids).ix, z.v.watched, z.v.baseline);
      e in scan && (Quiet(z.w, z.v) || MaximaIntact(Prepared(z.w, z.v, ids).ix, z.v.watched) ==>
        e in Found(z.w, z.v, ids))
  {
    hide WorldOk, Trusted, TrackKeys, MaximaIntact, Quiet, Scan, Found, Playable, Play, SilentOver, Stamped, Contents;
    var z := Play(s, ids, acts);
    PlayStaged(s, ids, acts);
    PlayStamped(s, ids, acts);
    ChangedIsRecent(s.w, z.w, SilentOver(s, ids, acts), e, t);
    RecentIsScanned(z.w, z.v, ids, e, t);
    if MaximaIntact(Prepared(z.w, z.v, ids).ix, z.v.watched) { TakeLosesNothing(z.w, z.v, ids); }
    if Quiet(z.w, z.v) { QuietTakeIsScan(z.w, z.v, ids); PreparedQuiet(z.w, z.v, ids); }
  }

  // ------------------------------------------------------------------ what no take reports

  /** Only bytes differ. */
  ghost predicate OnlyBytes(a: World, b: World) {
    b.clock == a.clock && b.ix.loc == a.ix.loc && b.ix.order == a.ix.order
  }

  lemma {:induction false} DuesOnlyBytes(w: World, e: Entity, t: TypeId, ds: seq<Packets.Due>)
    ensures OnlyBytes(w, ApplyDues(w, e, t, ds))
  {
    hide Contents, Overlaid, HasCell;
    if ds != [] { DuesOnlyBytes(w, e, t, ds[..|ds| - 1]); }
  }

  lemma {:induction false} CompsOnlyBytes(w: World, version: nat, e: Entity, cs: seq<Packets.DueComp>)
    requires version != 1 && forall j :: 0 <= j < |cs| && Alive(w.ix, e) ==> Has(w.ix, e, cs[j].t)
    ensures OnlyBytes(w, TryDueComps(w, version, e, cs).0)
  {
    hide ApplyDues;
    if cs != [] {
      var front, c := cs[..|cs| - 1], cs[|cs| - 1];
      assert forall j :: 0 <= j < |front| ==> front[j] == cs[j];
      CompsOnlyBytes(w, version, e, front);
      DuesOnlyBytes(TryDueComps(w, version, e, front).0, e, c.t, c.dues);
    }
  }

  lemma {:induction false} DeltaOnlyBytes(w: World, version: nat, es: seq<Packets.DueEntity>)
    requires version != 1
    requires forall i, j :: 0 <= i < |es| && 0 <= j < |es[i].comps| && Alive(w.ix, es[i].id) ==>
      Has(w.ix, es[i].id, es[i].comps[j].t)
    ensures OnlyBytes(w, TryDelta(w, version, es).w)
  {
    hide TryDueComps;
    if es != [] {
      var front, e := es[..|es| - 1], es[|es| - 1];
      assert forall i :: 0 <= i < |front| ==> front[i] == es[i];
      DeltaOnlyBytes(w, version, front);
      CompsOnlyBytes(TryDelta(w, version, front).w, version, e.id, e.comps);
    }
  }

  /** Right after a take, a delta that finds every component in its place is not reported, whatever bytes it
      changes. */
  lemma DeltaIsMissed(w: World, v: Viewer, ids: seq<TypeId>, version: nat, es: seq<Packets.DueEntity>)
    requires Quiet(w, v) && v.logPos == |w.clock.log| && version != 1
    requires forall i, j :: 0 <= i < |es| && 0 <= j < |es[i].comps| && Alive(w.ix, es[i].id) ==>
      Has(w.ix, es[i].id, es[i].comps[j].t)
    ensures Found(TryDelta(w, version, es).w, v, ids) == {}
  {
    hide TryDelta, Matching, Has;
    DeltaOnlyBytes(w, version, es);
    var b := TryDelta(w, version, es).w;
    assert Quiet(b, v) && Start(b, v) == |b.clock.log|;
  }
}
