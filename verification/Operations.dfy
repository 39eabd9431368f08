/** The world's operations, as values, and what each does to the stored cells. */
module Operations {
  import opened Base
  import opened Schema
  import opened Storage
  import opened StorageLaws

  /** Every entity but e keeps its component set and its cells. */
  ghost predicate OnlyTouches(a: Index, b: Index, e: Entity) {
    && (forall x :: x != e ==> (x in a.loc <==> x in b.loc))
    && (forall x :: x != e && x in a.loc ==> b.loc[x].key == a.loc[x].key && CellsOf(b, x) == CellsOf(a, x))
  }

  // ------------------------------------------------------------------ slot allocator

  ghost predicate SlotsOk(s: Slots) {
    && |s.generations| < U32_LIMIT
    && (forall i :: 0 <= i < |s.generations| ==> 0 <= s.generations[i] < U32_LIMIT)
    && (forall i :: 0 <= i < |s.free| ==> 0 <= s.free[i] < |s.generations|)
    && NO_ENTITY !in s.pool
  }

  /** The id the allocator hands out next, or none when the slot space is used up. */
  function NextId(s: Slots): Entity {
    if s.free == [] then
      if |s.generations| >= U32_LIMIT - 2 then NO_ENTITY else MakeEntity(|s.generations|, 0)
    else
      var slot := s.free[|s.free| - 1];
      if 0 <= slot < |s.generations| then slot + 1 + s.generations[slot] * U32_LIMIT else NO_ENTITY
  }

  function Allocate(s: Slots): Slots {
    if s.free == [] then
      if |s.generations| >= U32_LIMIT - 2 then s else s.(generations := s.generations + [0])
    else s.(free := s.free[..|s.free| - 1])
  }

  /** A stale handle frees nothing; a slot whose generation is used up is retired for good. */
  function FreeId(s: Slots, e: Entity): Slots {
    var slot := Slot(e);
    if slot >= |s.generations| || s.generations[slot] != Generation(e) || Generation(e) == U32_LIMIT - 1 then s
    else s.(generations := s.generations[slot := Generation(e) + 1], free := s.free + [slot])
  }

  function ResizedGenerations(g: seq<int>, n: nat): (r: seq<int>)
    ensures |r| >= n && |r| >= |g|
  {
    if |g| >= n then g else g + seq(n - |g|, i => 0)
  }

  predicate AcceptsForeign(id: Entity) {
    Slot(id) < MAX_FOREIGN_SLOT
  }

  // ------------------------------------------------------------------ shared steps

  function Emit(w: World, e: Event): World {
    w.(events := w.events + [e])
  }

  ghost function RemovedEvents(e: Entity, key: Key): seq<Event> {
    var ids := SortedIds(key);
    seq(|ids|, i requires 0 <= i < |ids| => RemovedEvent(e, ids[i]))
  }

  /** `memcpy`/`memset`, `mark_changed` on the column, and the log entry when the column is tracked. */
  ghost function WriteCell(w: World, e: Entity, t: TypeId, data: Bytes): World {
    if !HasCell(w.ix, e, t) then w else
      var clock := w.clock.(tick := BumpedTick(w.clock.tick));
      var tracked := w.ix.archs[w.ix.loc[e].key].cols[t].tracking;
      w.(ix := Put(w.ix, e, t, data, clock.tick), clock := if tracked then LogChange(clock, e, t) else clock)
  }

  /** Find or create the archetype of a component set and move the entity there. */
  ghost function ChangeKey(w: World, e: Entity, to: Key): World {
    w.(ix := Move(Ensure(w.ix, to), e, to, w.clock.tick))
  }

  lemma MoveShaped(w: Index, e: Entity, to: Key, tick: Tick)
    requires Shaped(w) && e in w.loc && to in w.archs && to != w.loc[e].key
    ensures Shaped(Move(w, e, to, tick)) && Move(w, e, to, tick).loc.Keys == w.loc.Keys
    ensures Move(w, e, to, tick).loc[e].key == to
  {
    hide Shaped, Attach, CellsOf, Detach;
    LiveHandle(w, e);
    DetachShaped(w, e);
    AttachShaped(Detach(w, e), e, to, CellsOf(w, e), tick);
  }

  lemma MoveOther(w: Index, e: Entity, to: Key, tick: Tick, x: Entity)
    requires Shaped(w) && e in w.loc && to in w.archs && to != w.loc[e].key && x != e && x in w.loc
    ensures x in Move(w, e, to, tick).loc && Move(w, e, to, tick).loc[x].key == w.loc[x].key
    ensures CellsOf(Move(w, e, to, tick), x) == CellsOf(w, x)
  {
    hide Shaped, Attach, CellsOf, Detach;
    LiveHandle(w, e);
    DetachCells(w, e, x);
    DetachShaped(w, e);
    AttachCells(Detach(w, e), e, to, CellsOf(w, e), tick, x);
  }

  lemma MoveSelf(w: Index, e: Entity, to: Key, tick: Tick)
    requires Shaped(w) && e in w.loc && to in w.archs && to != w.loc[e].key
    ensures w.archs[to].cols.Keys == to && Arrived(CellsOf(w, e), CellsOf(Move(w, e, to, tick), e), to, tick)
    ensures forall t :: t in to ==> CellsOf(Move(w, e, to, tick), e)[t].tracked == w.archs[to].cols[t].tracking
  {
    hide Shaped, Attach, CellsOf, Arrived, Detach;
    var d := Detach(w, e);
    LiveHandle(w, e);
    DetachShaped(w, e);
    AttachedCells(d, e, to, CellsOf(w, e), tick);
    assert d.archs[to] == w.archs[to];
  }

  lemma MoveCells(w: Index, e: Entity, to: Key, tick: Tick)
    requires Shaped(w) && e in w.loc && to in w.archs && to != w.loc[e].key
    ensures OnlyTouches(w, Move(w, e, to, tick), e)
  {
    forall x | x != e && x in w.loc
      ensures x in Move(w, e, to, tick).loc && Move(w, e, to, tick).loc[x].key == w.loc[x].key
      ensures CellsOf(Move(w, e, to, tick), x) == CellsOf(w, x)
    {
      MoveOther(w, e, to, tick, x);
    }
    MoveShaped(w, e, to, tick);
  }

  lemma ChangeKeyCells(w: World, e: Entity, to: Key)
    requires Shaped(w.ix) && e in w.ix.loc && to != w.ix.loc[e].key && forall t :: t in to ==> Registered(w.ix.reg, t)
    ensures var v := ChangeKey(w, e, to);
      && Shaped(v.ix) && OnlyTouches(w.ix, v.ix, e)
      && v.ix.reg == w.ix.reg && v.ix.loc.Keys == w.ix.loc.Keys && v.ix.loc[e].key == to
  {
    var m := Ensure(w.ix, to);
    EnsureShaped(w.ix, to);
    MoveShaped(m, e, to, w.clock.tick);
    MoveCells(m, e, to, w.clock.tick);
    forall x | x in w.ix.loc ensures CellsOf(m, x) == CellsOf(w.ix, x) { EnsureCells(w.ix, to, x); }
  }

  lemma ChangedKeyCells(w: World, e: Entity, to: Key)
    requires Shaped(w.ix) && e in w.ix.loc && to != w.ix.loc[e].key && forall t :: t in to ==> Registered(w.ix.reg, t)
    ensures Arrived(CellsOf(w.ix, e), CellsOf(ChangeKey(w, e, to).ix, e), to, w.clock.tick)
    ensures to in w.ix.archs ==> w.ix.archs[to].cols.Keys == to
    ensures to in w.ix.archs ==>
      forall t :: t in to ==> CellsOf(ChangeKey(w, e, to).ix, e)[t].tracked == w.ix.archs[to].cols[t].tracking
  {
    EnsureShaped(w.ix, to);
    EnsureCells(w.ix, to, e);
    MoveSelf(Ensure(w.ix, to), e, to, w.clock.tick);
  }

  lemma PutOther(w: Index, e: Entity, t: TypeId, data: Bytes, tick: Tick, x: Entity)
    requires Shaped(w) && e in w.loc && t in w.loc[e].key && HasRow(w, w.loc[e]) && x in w.loc && x != e
    ensures CellsOf(Put(w, e, t, data, tick), x) == CellsOf(w, x)
  {
    var l := w.loc[e];
    assert ArchOk(w, l.key) && Placed(w, x) && Placed(w, e);
    var c := w.archs[l.key].cols[t].SetRow(l.row, data).SetVersion(l.row, tick);
    WithColCells(w, l.key, t, c, x);
    RowExists(w, x);
    if w.loc[x].key == l.key { assert CellAt(w, w.loc[x], t) == CellsOf(w, x)[t]; }
  }

  lemma PutSelf(w: Index, e: Entity, t: TypeId, data: Bytes, tick: Tick)
    requires Shaped(w) && e in w.loc && t in w.loc[e].key && HasRow(w, w.loc[e])
    ensures t in CellsOf(w, e)
    ensures var tracked := w.archs[w.loc[e].key].cols[t].tracking;
      && tracked == CellsOf(w, e)[t].tracked
      && CellsOf(Put(w, e, t, data, tick), e) == CellsOf(w, e)[t := Cell(data, tracked, if tracked then tick else 0)]
  {
    var l := w.loc[e];
    assert ArchOk(w, l.key) && Placed(w, e);
    var c := w.archs[l.key].cols[t].SetRow(l.row, data).SetVersion(l.row, tick);
    WithColCells(w, l.key, t, c, e);
  }

  lemma PutShaped(w: Index, e: Entity, t: TypeId, data: Bytes, tick: Tick)
    requires Shaped(w) && e in w.loc && t in w.loc[e].key && HasRow(w, w.loc[e])
    ensures Shaped(Put(w, e, t, data, tick))
  {
    var l := w.loc[e];
    assert ArchOk(w, l.key) && Placed(w, e);
    WithColShaped(w, l.key, t, w.archs[l.key].cols[t].SetRow(l.row, data).SetVersion(l.row, tick));
  }

  lemma WriteCellCells(w: World, e: Entity, t: TypeId, data: Bytes)
    requires Shaped(w.ix) && e in w.ix.loc && t in w.ix.loc[e].key
    ensures var v := WriteCell(w, e, t, data);
      && Shaped(v.ix) && OnlyTouches(w.ix, v.ix, e) && v.ix.reg == w.ix.reg && v.ix.loc == w.ix.loc
      && t in CellsOf(w.ix, e)
      && var tracked := CellsOf(w.ix, e)[t].tracked;
         CellsOf(v.ix, e) == CellsOf(w.ix, e)[t := Cell(data, tracked, if tracked then v.clock.tick else 0)]
  {
    var tick := BumpedTick(w.clock.tick);
    RowExists(w.ix, e);
    PutShaped(w.ix, e, t, data, tick);
    PutSelf(w.ix, e, t, data, tick);
    forall x | x != e && x in w.ix.loc ensures CellsOf(Put(w.ix, e, t, data, tick), x) == CellsOf(w.ix, x) {
      PutOther(w.ix, e, t, data, tick, x);
    }
  }

  // ------------------------------------------------------------------ operations

  /** Put a handle into the empty archetype. */
  function Spawn(w: World, e: Entity): World {
    w.(ix := Attach(w.ix, e, {}, map[], w.clock.tick))
  }

  function Create(w: World): World {
    var e := NextId(w.slots);
    var w1 := w.(slots := Allocate(w.slots));
    if e == NO_ENTITY then w1 else Spawn(w1, e)
  }

  /** The slot table grows to a foreign slot even when the id is then refused as already live. */
  function CreatePreassigned(w: World, id: Entity): World {
    if !AcceptsForeign(id) then w else
      var g := ResizedGenerations(w.slots.generations, Slot(id) + 1);
      if id in w.ix.loc then w.(slots := w.slots.(generations := g))
      else Spawn(w.(slots := w.slots.(generations := g[Slot(id) := Generation(id)])), id)
  }

  /** The id pooled creation hands out: the one parked last, else the allocator's next. */
  function PooledId(s: Slots): Entity {
    if s.pool != [] then s.pool[|s.pool| - 1] else NextId(s)
  }

  function CreatePooled(w: World): World {
    var n := |w.slots.pool|;
    if n > 0 then Spawn(w.(slots := w.slots.(pool := w.slots.pool[..n - 1])), w.slots.pool[n - 1]) else Create(w)
  }

  ghost function Destroy(w: World, e: Entity): World {
    if e !in w.ix.loc || w.depth > 0 then w
    else w.(ix := Detach(w.ix, e), slots := FreeId(w.slots, e), events := w.events + RemovedEvents(e, w.ix.loc[e].key))
  }

  ghost function DestroyPooled(w: World, e: Entity): World {
    if e !in w.ix.loc || w.depth > 0 then w
    else w.(ix := Detach(w.ix, e), slots := w.slots.(pool := w.slots.pool + [e]),
            events := w.events + RemovedEvents(e, w.ix.loc[e].key))
  }

  /** `add_raw` outside a deferred window. No data means zeroes. */
  ghost function AddRaw(w: World, e: Entity, t: TypeId, data: Option<Bytes>): World {
    if !Alive(w.ix, e) || !Registered(w.ix.reg, t) then w else
      var key := w.ix.loc[e].key;
      var bytes := Payload(w.ix.reg, t, data);
      if t in key then Emit(WriteCell(w, e, t, bytes), ChangedEvent(e, t))
      else if w.depth > 0 then w
      else Emit(WriteCell(ChangeKey(w, e, key + {t}), e, t, bytes), AddedEvent(e, t))
  }

  ghost function RemoveComponent(w: World, e: Entity, t: TypeId): World {
    if !Has(w.ix, e, t) || w.depth > 0 then w
    else Emit(ChangeKey(w, e, w.ix.loc[e].key - {t}), RemovedEvent(e, t))
  }

  /** Tracking starts if it was off, the row is stamped with a new tick, and the write is always logged. */
  ghost function MarkChanged(w: World, e: Entity, t: TypeId): World {
    if !Has(w.ix, e, t) then w else
      var clock := w.clock.(tick := BumpedTick(w.clock.tick));
      Emit(w.(ix := Stamp(w.ix, e, t, w.clock.tick, clock.tick), clock := LogChange(clock, e, t)), ChangedEvent(e, t))
  }

  /** `clear` empties the world entity by entity, in whatever order the index yields them. */
  ghost function ClearAll(w: World, order: seq<Entity>): World
    decreases order
  {
    if order == [] then w else
      var e := order[0];
      ClearAll(if e in w.ix.loc then w.(ix := Detach(w.ix, e), slots := FreeId(w.slots, e)) else w, order[1..])
  }

  ghost function Clear(w: World, order: seq<Entity>): World {
    if w.depth > 0 then w else
      var v := ClearAll(w, order);
      v.(clock := Clock(v.clock.tick, [], v.clock.logGen + 1), events := v.events + [ClearedEvent])
  }

  predicate Kept(w: Index, k: Key) {
    k == {} || (k in w.archs && w.archs[k].entities != [])
  }

  function KeptOrder(w: Index, order: seq<Key>): (r: seq<Key>)
    ensures forall k :: k in r <==> k in order && Kept(w, k)
    ensures NoDup(order) ==> NoDup(r)
  {
    if order == [] then [] else
      var rest := KeptOrder(w, order[..|order| - 1]);
      var k := order[|order| - 1];
      assert order == order[..|order| - 1] + [k];
      if Kept(w, k) then rest + [k] else rest
  }

  /** Drop every archetype without entities, but the empty one. */
  ghost function Compact(w: World): World {
    w.(ix := w.ix.(archs := map k | k in w.ix.archs
      && Kept(w.ix, k) :: w.ix.archs[k], order := KeptOrder(w.ix, w.ix.order)))
  }

  // ------------------------------------------------------------------ what they do to the store

  ghost predicate WorldOk(w: World) {
    Coherent(w.ix) && SlotsOk(w.slots)
  }

  lemma ShapedOf(w: World)
    requires WorldOk(w)
    ensures Shaped(w.ix)
  {
  }

  lemma EmptyWorldOk(reg: Registry)
    ensures WorldOk(EmptyWorld(reg))
  {
  }

  lemma ContentsRewritten(a: Index, b: Index, e: Entity)
    requires OnlyTouches(a, b, e) && e in b.loc
    ensures Contents(b) == Contents(a)[e := BytesIn(CellsOf(b, e))]
  {
  }

  lemma ContentsErased(a: Index, b: Index, e: Entity)
    requires OnlyTouches(a, b, e) && e !in b.loc
    ensures Contents(b) == Contents(a) - {e}
  {
  }

  lemma SizesKept(a: Index, b: Index, e: Entity)
    requires (forall x :: x in a.loc ==> Sized(a, x)) && a.reg == b.reg && OnlyTouches(a, b, e)
    requires e in b.loc ==> Sized(b, e)
    ensures forall x :: x in b.loc ==> Sized(b, x)
  {
    forall x | x in b.loc ensures Sized(b, x) { if x != e { assert Sized(a, x); } }
  }

  /** Rewriting one entity's cells keeps the world coherent and changes one entry of the store. */
  lemma Rewritten(a: Index, b: Index, e: Entity)
    requires Coherent(a) && Shaped(b) && a.reg == b.reg && OnlyTouches(a, b, e) && e in b.loc && Sized(b, e)
    ensures Coherent(b) && Contents(b) == Contents(a)[e := BytesIn(CellsOf(b, e))]
  {
    ContentsRewritten(a, b, e);
    SizesKept(a, b, e);
  }

  lemma SizedEmpty(w: Index, e: Entity)
    requires CellsOf(w, e) == map[]
    ensures Sized(w, e)
  {
  }

  lemma SpawnStore(w: World, e: Entity)
    requires Coherent(w.ix) && e !in w.ix.loc && e != NO_ENTITY
    ensures Coherent(Spawn(w, e).ix) && Contents(Spawn(w, e).ix) == Contents(w.ix)[e := map[]]
    ensures OnlyTouches(w.ix, Spawn(w, e).ix, e) && CellsOf(Spawn(w, e).ix, e) == map[]
      && Spawn(w, e).ix.loc[e].key == {}
  {
    hide Shaped, Attach, CellsOf, Sized;
    HasEmptyArch(w.ix);
    AttachShaped(w.ix, e, {}, map[], w.clock.tick);
    AttachedCells(w.ix, e, {}, map[], w.clock.tick);
    forall x | x in w.ix.loc ensures CellsOf(Spawn(w, e).ix, x) == CellsOf(w.ix, x) {
      AttachCells(w.ix, e, {}, map[], w.clock.tick, x);
    }
    assert CellsOf(Spawn(w, e).ix, e) == map[];
    assert Sized(Spawn(w, e).ix, e) by { SizedEmpty(Spawn(w, e).ix, e); }
    Rewritten(w.ix, Spawn(w, e).ix, e);
  }

  /** Taking one entity out keeps the world coherent and deletes one entry of the store. */
  lemma Erased(a: Index, b: Index, e: Entity)
    requires Coherent(a) && Shaped(b) && a.reg == b.reg && OnlyTouches(a, b, e) && e !in b.loc
    ensures Coherent(b) && Contents(b) == Contents(a) - {e}
  {
    ContentsErased(a, b, e);
    SizesKept(a, b, e);
  }

  lemma DetachTouches(w: Index, e: Entity)
    requires Shaped(w) && e in w.loc
    ensures OnlyTouches(w, Detach(w, e), e)
  {
    forall x | x in w.loc && x != e
      ensures x in Detach(w, e).loc && Detach(w, e).loc[x].key == w.loc[x].key
        && CellsOf(Detach(w, e), x) == CellsOf(w, x)
    {
      DetachCells(w, e, x);
    }
    assert Detach(w, e).loc.Keys == w.loc.Keys - {e} by { DetachShaped(w, e); }
  }

  lemma DetachStore(w: Index, e: Entity)
    requires Coherent(w) && e in w.loc
    ensures Coherent(Detach(w, e)) && Contents(Detach(w, e)) == Contents(w) - {e}
    ensures OnlyTouches(w, Detach(w, e), e) && e !in Detach(w, e).loc
  {
    DetachShaped(w, e);
    DetachTouches(w, e);
    Erased(w, Detach(w, e), e);
  }

  lemma TouchesTwice(a: Index, b: Index, c: Index, e: Entity)
    requires OnlyTouches(a, b, e) && OnlyTouches(b, c, e)
    ensures OnlyTouches(a, c, e)
  {
  }

  lemma KeyRegistered(w: Index, e: Entity)
    requires Shaped(w) && e in w.loc
    ensures CellsOf(w, e).Keys == w.loc[e].key && forall t :: t in w.loc[e].key ==> Registered(w.reg, t)
  {
    RowExists(w, e);
    assert ArchOk(w, w.loc[e].key);
  }

  lemma ArrivedThenWritten(before: map<TypeId, Cell>, moved: map<TypeId, Cell>, after: map<TypeId, Cell>, t: TypeId,
                           c: Cell, tick: Tick)
    requires t !in before && Arrived(before, moved, before.Keys + {t}, tick) && after == moved[t := c]
    ensures BytesIn(after) == BytesIn(before)[t := c.bytes]
  {
    assert forall u :: u in before ==> ArrivedCell(before, moved[u], u, tick);
  }

  lemma ArrivedWithout(before: map<TypeId, Cell>, moved: map<TypeId, Cell>, t: TypeId, tick: Tick)
    requires Arrived(before, moved, before.Keys - {t}, tick)
    ensures BytesIn(moved) == BytesIn(before) - {t}
  {
    assert forall u :: u in moved ==> ArrivedCell(before, moved[u], u, tick);
  }

  /** `add_raw` of a type the entity lacks: one archetype move, then one write. */
  lemma AddRawMoves(w: World, e: Entity, t: TypeId, data: Option<Bytes>)
    requires Shaped(w.ix) && Registered(w.ix.reg, t) && Alive(w.ix, e) && t !in w.ix.loc[e].key && w.depth <= 0
    ensures var v := AddRaw(w, e, t, data);
      && Shaped(v.ix) && OnlyTouches(w.ix, v.ix, e) && v.ix.reg == w.ix.reg
      && e in v.ix.loc && v.ix.loc[e].key == w.ix.loc[e].key + {t}
      && BytesIn(CellsOf(v.ix, e)) == BytesIn(CellsOf(w.ix, e))[t := Payload(w.ix.reg, t, data)]
  {
    hide ChangeKey, WriteCell, Shaped, OnlyTouches, CellsOf, BytesIn, Arrived, Payload, Registered;
    var key := w.ix.loc[e].key;
    KeyRegistered(w.ix, e);
    var w1 := ChangeKey(w, e, key + {t});
    ChangeKeyCells(w, e, key + {t});
    ChangedKeyCells(w, e, key + {t});
    WriteCellCells(w1, e, t, Payload(w.ix.reg, t, data));
    var v := WriteCell(w1, e, t, Payload(w.ix.reg, t, data));
    TouchesTwice(w.ix, w1.ix, v.ix, e);
    ArrivedThenWritten(CellsOf(w.ix, e), CellsOf(w1.ix, e), CellsOf(v.ix, e), t, CellsOf(v.ix, e)[t], w.clock.tick);
  }

  /** What `add_raw` leaves in the entity it writes. */
  lemma AddRawCells(w: World, e: Entity, t: TypeId, data: Option<Bytes>)
    requires Shaped(w.ix) && Registered(w.ix.reg, t) && Alive(w.ix, e) && (t in w.ix.loc[e].key || w.depth <= 0)
    ensures var v := AddRaw(w, e, t, data);
      && Shaped(v.ix) && OnlyTouches(w.ix, v.ix, e) && v.ix.reg == w.ix.reg
      && e in v.ix.loc && v.ix.loc[e].key == w.ix.loc[e].key + {t}
      && BytesIn(CellsOf(v.ix, e)) == BytesIn(CellsOf(w.ix, e))[t := Payload(w.ix.reg, t, data)]
  {
    hide ChangeKey, WriteCell, Shaped, OnlyTouches, CellsOf, Payload, Registered, Arrived;
    if t in w.ix.loc[e].key {
      WriteCellCells(w, e, t, Payload(w.ix.reg, t, data));
      KeyRegistered(w.ix, e);
      assert w.ix.loc[e].key + {t} == w.ix.loc[e].key;
    } else {
      AddRawMoves(w, e, t, data);
    }
  }

  lemma AddRawStore(w: World, e: Entity, t: TypeId, data: Option<Bytes>)
    requires Coherent(w.ix) && Registered(w.ix.reg, t) && Alive(w.ix, e) && (t in w.ix.loc[e].key || w.depth <= 0)
    requires |Payload(w.ix.reg, t, data)| == SizeOf(w.ix.reg, t)
    ensures var v := AddRaw(w, e, t, data);
      && Coherent(v.ix)
      && e in Contents(w.ix)
      && Contents(v.ix) == Contents(w.ix)[e := Contents(w.ix)[e][t := Payload(w.ix.reg, t, data)]]
  {
    hide AddRaw, Shaped, OnlyTouches, CellsOf, Registered, SizeOf, Payload;
    AddRawCells(w, e, t, data);
    assert Sized(w.ix, e);
    StillSized(w.ix, AddRaw(w, e, t, data).ix, e, t, Payload(w.ix.reg, t, data));
    Rewritten(w.ix, AddRaw(w, e, t, data).ix, e);
  }

  lemma StillSized(a: Index, b: Index, e: Entity, t: TypeId, data: Bytes)
    requires Sized(a, e) && a.reg == b.reg && Registered(a.reg, t) && |data| == SizeOf(a.reg, t)
    requires BytesIn(CellsOf(b, e)) == BytesIn(CellsOf(a, e))[t := data]
    ensures Sized(b, e)
  {
    forall u | u in CellsOf(b, e) ensures Registered(b.reg, u) && |CellsOf(b, e)[u].bytes| == SizeOf(b.reg, u) {
      assert CellsOf(b, e)[u].bytes == BytesIn(CellsOf(b, e))[u];
      assert u != t ==> u in BytesIn(CellsOf(a, e));
    }
  }

  lemma RemoveComponentCells(w: World, e: Entity, t: TypeId)
    requires Shaped(w.ix) && Has(w.ix, e, t) && w.depth <= 0
    ensures var v := RemoveComponent(w, e, t);
      && Shaped(v.ix) && OnlyTouches(w.ix, v.ix, e) && v.ix.reg == w.ix.reg
      && e in v.ix.loc && v.ix.loc[e].key == w.ix.loc[e].key - {t}
      && BytesIn(CellsOf(v.ix, e)) == BytesIn(CellsOf(w.ix, e)) - {t}
  {
    hide ChangeKey, Shaped, OnlyTouches, CellsOf, Arrived, BytesIn, Registered;
    var key := w.ix.loc[e].key;
    KeyRegistered(w.ix, e);
    ChangeKeyCells(w, e, key - {t});
    ChangedKeyCells(w, e, key - {t});
    ArrivedWithout(CellsOf(w.ix, e), CellsOf(ChangeKey(w, e, key - {t}).ix, e), t, w.clock.tick);
  }

  lemma RemoveComponentStore(w: World, e: Entity, t: TypeId)
    requires Coherent(w.ix) && Has(w.ix, e, t) && w.depth <= 0
    ensures var v := RemoveComponent(w, e, t);
      Coherent(v.ix) && e in Contents(w.ix) && Contents(v.ix) == Contents(w.ix)[e := Contents(w.ix)[e] - {t}]
  {
    hide RemoveComponent, Shaped, OnlyTouches, CellsOf, Registered, SizeOf;
    var v := RemoveComponent(w, e, t);
    RemoveComponentCells(w, e, t);
    assert Sized(w.ix, e);
    forall u | u in CellsOf(v.ix, e)
      ensures Registered(v.ix.reg, u) && |CellsOf(v.ix, e)[u].bytes| == SizeOf(v.ix.reg, u)
    {
      assert CellsOf(v.ix, e)[u].bytes == BytesIn(CellsOf(v.ix, e))[u];
      assert u in BytesIn(CellsOf(w.ix, e)) - {t};
    }
    Rewritten(w.ix, v.ix, e);
  }

  // ------------------------------------------------------------------ every operation keeps the world well formed

  lemma AllocateOk(s: Slots)
    requires SlotsOk(s)
    ensures SlotsOk(Allocate(s)) && IsHandle(NextId(s))
  {
  }

  lemma FreeIdOk(s: Slots, e: Entity)
    requires SlotsOk(s)
    ensures SlotsOk(FreeId(s, e))
  {
  }

  lemma CreateOk(w: World)
    requires WorldOk(w) && NextId(w.slots) !in w.ix.loc
    ensures WorldOk(Create(w))
    ensures Contents(Create(w).ix) == if NextId(w.slots) == NO_ENTITY then Contents(w.ix)
      else Contents(w.ix)[NextId(w.slots) := map[]]
  {
    hide Shaped, Attach, Sized, Contents, SlotsOk, NextId, Allocate;
    AllocateOk(w.slots);
    if NextId(w.slots) != NO_ENTITY {
      SpawnStore(w.(slots := Allocate(w.slots)), NextId(w.slots));
    }
  }

  lemma PreassignedSlotsOk(s: Slots, id: Entity)
    requires SlotsOk(s) && IsHandle(id) && AcceptsForeign(id)
    ensures var g := ResizedGenerations(s.generations, Slot(id) + 1);
      SlotsOk(s.(generations := g)) && SlotsOk(s.(generations := g[Slot(id) := Generation(id)]))
  {
  }

  lemma CreatePreassignedOk(w: World, id: Entity)
    requires WorldOk(w) && IsHandle(id)
    ensures WorldOk(CreatePreassigned(w, id))
    ensures Contents(CreatePreassigned(w, id).ix) ==
      if AcceptsForeign(id) && id !in w.ix.loc then Contents(w.ix)[id := map[]] else Contents(w.ix)
  {
    hide Shaped, Attach, Sized, Contents, SlotsOk, ResizedGenerations, Generation;
    if AcceptsForeign(id) {
      PreassignedSlotsOk(w.slots, id);
      if id !in w.ix.loc {
        var g := ResizedGenerations(w.slots.generations, Slot(id) + 1);
        assert |g| > Slot(id);
        SpawnStore(w.(slots := w.slots.(generations := g[Slot(id) := Generation(id)])), id);
      }
    }
  }

  lemma CreatePooledOk(w: World)
    requires WorldOk(w)
    requires PooledId(w.slots) !in w.ix.loc
    ensures WorldOk(CreatePooled(w))
    ensures Contents(CreatePooled(w).ix) ==
      if PooledId(w.slots) == NO_ENTITY then Contents(w.ix) else Contents(w.ix)[PooledId(w.slots) := map[]]
  {
    hide Shaped, Attach, Sized, Contents, NextId, Allocate, Create;
    var n := |w.slots.pool|;
    if n == 0 {
      CreateOk(w);
    } else {
      SpawnStore(w.(slots := w.slots.(pool := w.slots.pool[..n - 1])), w.slots.pool[n - 1]);
    }
  }

  /** A live id that is handed out once more gets a second row, and its first row is orphaned. */
  lemma SpawnedTwice(w: World, e: Entity)
    requires Shaped(w.ix) && e in w.ix.loc
    ensures !Shaped(Spawn(w, e).ix)
  {
    var b, l := Spawn(w, e).ix, w.ix.loc[e];
    assert Placed(w.ix, e);
    assert b.archs[l.key].entities[l.row] == e;
    assert !RowOk(b, l.key, l.row);
  }

  /** Creation keeps the world coherent if and only if the id it hands out is not live. */
  lemma CreateIff(w: World)
    requires WorldOk(w)
    ensures WorldOk(Create(w)) <==> NextId(w.slots) !in w.ix.loc
  {
    hide Shaped, SlotsOk, Sized, Spawn, NextId, Allocate;
    if NextId(w.slots) in w.ix.loc {
      LiveHandle(w.ix, NextId(w.slots));
      SpawnedTwice(w.(slots := Allocate(w.slots)), NextId(w.slots));
    } else {
      CreateOk(w);
    }
  }

  /** The same for pooled creation. */
  lemma CreatePooledIff(w: World)
    requires WorldOk(w)
    ensures WorldOk(CreatePooled(w)) <==> PooledId(w.slots) !in w.ix.loc
  {
    hide Shaped, SlotsOk, Sized, Spawn, NextId, Allocate;
    var n := |w.slots.pool|;
    if PooledId(w.slots) !in w.ix.loc {
      CreatePooledOk(w);
    } else if n == 0 {
      CreateIff(w);
    } else {
      SpawnedTwice(w.(slots := w.slots.(pool := w.slots.pool[..n - 1])), w.slots.pool[n - 1]);
    }
  }

  lemma DestroyOk(w: World, e: Entity)
    requires WorldOk(w)
    ensures WorldOk(Destroy(w, e))
    ensures Contents(Destroy(w, e).ix) == if w.depth > 0 then Contents(w.ix) else Contents(w.ix) - {e}
  {
    hide Shaped, Detach, Sized, SlotsOk, FreeId, RemovedEvents, CellsOf;
    FreeIdOk(w.slots, e);
    if e in w.ix.loc { DetachStore(w.ix, e); }
  }

  lemma DestroyPooledOk(w: World, e: Entity)
    requires WorldOk(w)
    ensures WorldOk(DestroyPooled(w, e))
    ensures Contents(DestroyPooled(w, e).ix) == if w.depth > 0 then Contents(w.ix) else Contents(w.ix) - {e}
  {
    hide Shaped, Detach, Sized, RemovedEvents, CellsOf;
    if e in w.ix.loc {
      LiveHandle(w.ix, e);
      DetachStore(w.ix, e);
    }
  }

  /** The store after `add_raw`. */
  ghost function StoreAdd(s: Store, reg: Registry, e: Entity, t: TypeId, data: Option<Bytes>): Store {
    if e in s && Registered(reg, t) then s[e := s[e][t := Payload(reg, t, data)]] else s
  }

  ghost function StoreRemove(s: Store, e: Entity, t: TypeId): Store {
    if e in s then s[e := s[e] - {t}] else s
  }

  lemma PayloadSize(reg: Registry, t: TypeId, data: Option<Bytes>)
    requires Registered(reg, t) && DataOk(reg, t, data)
    ensures |Payload(reg, t, data)| == SizeOf(reg, t)
  {
  }

  lemma NoData(reg: Registry, t: TypeId)
    ensures DataOk(reg, t, None)
  {
  }

  lemma AddRawOk(w: World, e: Entity, t: TypeId, data: Option<Bytes>)
    requires WorldOk(w) && DataOk(w.ix.reg, t, data)
    ensures WorldOk(AddRaw(w, e, t, data)) && AddRaw(w, e, t, data).ix.reg == w.ix.reg
      && AddRaw(w, e, t, data).depth == w.depth
    ensures w.depth <= 0 || Has(w.ix, e, t) ==>
      Contents(AddRaw(w, e, t, data).ix) == StoreAdd(Contents(w.ix), w.ix.reg, e, t, data)
  {
    hide Shaped, Sized, Payload, SizeOf, ChangeKey, WriteCell, CellsOf, Registered, DataOk;
    AddRawKeeps(w, e, t, data);
    if e in w.ix.loc && Registered(w.ix.reg, t) {
      LiveHandle(w.ix, e);
      PayloadSize(w.ix.reg, t, data);
      if w.depth <= 0 || Has(w.ix, e, t) { AddRawStore(w, e, t, data); }
    }
  }

  lemma AddRawKeeps(w: World, e: Entity, t: TypeId, data: Option<Bytes>)
    ensures var v := AddRaw(w, e, t, data); v.slots == w.slots && v.depth == w.depth && v.ix.reg == w.ix.reg
  {
    hide Shaped, Sized, Payload, SizeOf, CellsOf, Registered;
  }

  lemma RemoveComponentOk(w: World, e: Entity, t: TypeId)
    requires WorldOk(w)
    ensures var v := RemoveComponent(w, e, t);
      WorldOk(v) && v.ix.reg == w.ix.reg && v.depth == w.depth
      && (w.depth <= 0 ==> Contents(v.ix) == StoreRemove(Contents(w.ix), e, t))
  {
    hide Shaped, Sized, ChangeKey, SlotsOk;
    RemoveComponentKeeps(w, e, t);
    if Has(w.ix, e, t) && w.depth <= 0 {
      RemoveComponentStore(w, e, t);
    } else if e in w.ix.loc && w.depth <= 0 {
      LiveHandle(w.ix, e);
      KeyRegistered(w.ix, e);
      assert BytesIn(CellsOf(w.ix, e)) - {t} == BytesIn(CellsOf(w.ix, e));
    }
  }

  lemma RemoveComponentKeeps(w: World, e: Entity, t: TypeId)
    ensures var v := RemoveComponent(w, e, t); v.slots == w.slots && v.depth == w.depth && v.ix.reg == w.ix.reg
  {
    hide Shaped, Sized, CellsOf;
  }

  // ------------------------------------------------------------------ tracking, marking, clearing, compacting

  /** Replacing one column by one with the same bytes changes no byte anywhere. */
  lemma SameBytes(w: Index, k: Key, t: TypeId, c: Col)
    requires Coherent(w) && k in w.archs && t in k && c.Ok(|w.archs[k].entities|) && t in w.archs[k].cols
      && c.rows == w.archs[k].cols[t].rows
    ensures Coherent(WithCol(w, k, t, c)) && Contents(WithCol(w, k, t, c)) == Contents(w)
  {
    hide Shaped, Sized, CellsOf, WithCol, Col.Ok;
    var v := WithCol(w, k, t, c);
    WithColShaped(w, k, t, c);
    assert v.loc == w.loc && v.reg == w.reg by { WithColLoc(w, k, t, c); }
    forall x | x in w.loc ensures BytesIn(CellsOf(v, x)) == BytesIn(CellsOf(w, x)) && Sized(v, x) {
      WithColCells(w, k, t, c, x);
      if w.loc[x].key == k { SameBytesAt(w, k, t, x); }
      assert BytesIn(CellsOf(v, x)) == BytesIn(CellsOf(w, x));
      assert Sized(w, x);
      SizedByBytes(w, v, x);
    }
  }

  lemma WithColLoc(w: Index, k: Key, t: TypeId, c: Col)
    ensures WithCol(w, k, t, c).loc == w.loc && WithCol(w, k, t, c).reg == w.reg && WithCol(w, k, t, c).order == w.order
  {
  }

  lemma SameBytesAt(w: Index, k: Key, t: TypeId, x: Entity)
    requires Shaped(w) && x in w.loc && w.loc[x].key == k && t in k
    ensures k in w.archs && t in w.archs[k].cols && w.loc[x].row < |w.archs[k].cols[t].rows|
    ensures t in CellsOf(w, x) && CellsOf(w, x)[t].bytes == w.archs[k].cols[t].rows[w.loc[x].row]
  {
    RowExists(w, x);
  }

  lemma SizedByBytes(w: Index, v: Index, x: Entity)
    requires Sized(w, x) && v.reg == w.reg && BytesIn(CellsOf(v, x)) == BytesIn(CellsOf(w, x))
    ensures Sized(v, x)
  {
    hide CellsOf, SizeOf, Registered;
    forall t | t in CellsOf(v, x) ensures Registered(v.reg, t) && |CellsOf(v, x)[t].bytes| == SizeOf(v.reg, t) {
      assert BytesIn(CellsOf(v, x))[t] == CellsOf(v, x)[t].bytes;
      assert t in BytesIn(CellsOf(w, x));
    }
  }

  lemma TrackOk(w: Index, k: Key, t: TypeId, tick: Tick)
    requires Coherent(w)
    ensures Coherent(Track(w, k, t, tick)) && Contents(Track(w, k, t, tick)) == Contents(w)
    ensures Track(w, k, t, tick).loc == w.loc && Track(w, k, t, tick).reg == w.reg
  {
    hide Sized, CellsOf, Contents;
    if k in w.archs && t in w.archs[k].cols {
      assert ArchOk(w, k);
      SameBytes(w, k, t, w.archs[k].cols[t].EnsureVersions(tick));
    }
  }

  lemma MarkChangedOk(w: World, e: Entity, t: TypeId)
    requires WorldOk(w)
    ensures var v := MarkChanged(w, e, t);
      WorldOk(v) && v.slots == w.slots && v.depth == w.depth && v.ix.reg == w.ix.reg && v.ix.loc == w.ix.loc
        && Contents(v.ix) == Contents(w.ix)
  {
    hide Sized, CellsOf, Contents;
    if Has(w.ix, e, t) {
      var l := w.ix.loc[e];
      assert Placed(w.ix, e) && ArchOk(w.ix, l.key);
      var c := w.ix.archs[l.key].cols[t].EnsureVersions(w.clock.tick).SetVersion(l.row, BumpedTick(w.clock.tick));
      SameBytes(w.ix, l.key, t, c);
    }
  }

  lemma {:induction false} ClearAllOk(w: World, order: seq<Entity>)
    requires WorldOk(w)
    ensures var v := ClearAll(w, order);
      WorldOk(v) && v.clock == w.clock && v.depth == w.depth && v.ix.reg == w.ix.reg
      && v.ix.order == w.ix.order && v.ix.archs.Keys == w.ix.archs.Keys
      && (forall e :: e in v.ix.loc <==> e in w.ix.loc && e !in order)
    decreases order
  {
    hide Shaped, Sized, SlotsOk, FreeId, Contents, CellsOf;
    if order != [] {
      var e := order[0];
      var w1 := if e in w.ix.loc then w.(ix := Detach(w.ix, e), slots := FreeId(w.slots, e)) else w;
      if e in w.ix.loc {
        DetachStore(w.ix, e);
        DetachShaped(w.ix, e);
        FreeIdOk(w.slots, e);
        DetachOrder(w.ix, e);
      }
      ClearAllOk(w1, order[1..]);
      assert order == [e] + order[1..];
    }
  }

  lemma DetachOrder(w: Index, e: Entity)
    requires Shaped(w) && e in w.loc
    ensures Detach(w, e).order == w.order && Detach(w, e).archs.Keys == w.archs.Keys
  {
    assert Placed(w, e);
  }

  /** Whatever order the index is walked in, `clear` leaves no entity and no row. */
  lemma ClearOk(w: World, order: seq<Entity>)
    requires WorldOk(w) && w.depth <= 0 && forall e :: e in w.ix.loc ==> e in order
    ensures var v := Clear(w, order);
      WorldOk(v) && v.ix.loc == map[] && Contents(v.ix) == map[] && v.ix.reg == w.ix.reg && v.depth == w.depth
      && v.ix.order == w.ix.order && v.clock.log == [] && forall k :: k in v.ix.archs ==> v.ix.archs[k].entities == []
  {
    hide Sized, SlotsOk, ClearAll, ArchOk, Placed;
    ClearAllOk(w, order);
    var v := ClearAll(w, order);
    assert forall e :: e !in v.ix.loc;
    assert v.ix.loc == map[];
    forall k | k in v.ix.archs ensures v.ix.archs[k].entities == [] { NoRows(v.ix, k); }
  }

  lemma NoRows(w: Index, k: Key)
    requires Shaped(w) && w.loc == map[] && k in w.archs
    ensures w.archs[k].entities == []
  {
    assert |w.archs[k].entities| == 0 || RowOk(w, k, 0);
  }

  lemma CompactOk(w: World)
    requires WorldOk(w)
    ensures var v := Compact(w);
      WorldOk(v) && v.ix.loc == w.ix.loc && v.ix.reg == w.ix.reg && Contents(v.ix) == Contents(w.ix)
  {
    hide Sized, SlotsOk, Contents;
    var v := Compact(w).ix;
    forall k | k in v.archs ensures ArchOk(v, k) { assert ArchOk(w.ix, k); }
    forall k, r | k in v.archs && 0 <= r < |v.archs[k].entities| ensures RowOk(v, k, r) { assert RowOk(w.ix, k, r); }
    forall e | e in v.loc ensures Placed(v, e) { assert Placed(w.ix, e); }
    CompactSame(w);
  }

  /** Exactly the archetypes without entities go, but for the empty one. */
  lemma CompactDrops(w: World, k: Key)
    requires WorldOk(w)
    ensures k in Compact(w).ix.archs <==> k in w.ix.archs && (k == {} || w.ix.archs[k].entities != [])
    ensures k in Compact(w).ix.archs ==> Compact(w).ix.archs[k] == w.ix.archs[k]
    ensures k in Compact(w).ix.order <==> k in Compact(w).ix.archs
  {
    hide Sized, SlotsOk, Contents;
    CompactOk(w);
    ShapedOf(Compact(w));
    assert k in Compact(w).ix.order <==> k in Elements(Compact(w).ix.order);
  }

  lemma CompactSame(w: World)
    requires WorldOk(w)
    ensures forall e :: e in w.ix.loc ==> Sized(Compact(w).ix, e)
    ensures Contents(Compact(w).ix) == Contents(w.ix)
  {
    hide SlotsOk, KeptOrder, ArchOk, RowOk;
    forall e | e in w.ix.loc ensures CellsOf(Compact(w).ix, e) == CellsOf(w.ix, e) && Sized(Compact(w).ix, e) {
      assert Placed(w.ix, e) && Sized(w.ix, e);
    }
  }

  // ------------------------------------------------------------------ writing into a row in place

  /** What a loader does through `get_raw`: replace the row's bytes, no version, no log, no event. */
  ghost function Poke(w: World, e: Entity, t: TypeId, data: Bytes): World {
    if !HasCell(w.ix, e, t) then w else
      var l := w.ix.loc[e];
      w.(ix := WithCol(w.ix, l.key, t, w.ix.archs[l.key].cols[t].SetRow(l.row, data)))
  }

  lemma BytesReplaced(cells: map<TypeId, Cell>, t: TypeId, c: Cell)
    ensures BytesIn(cells[t := c]) == BytesIn(cells)[t := c.bytes]
    ensures t in cells && c.bytes == cells[t].bytes ==> BytesIn(cells[t := c]) == BytesIn(cells)
  {
  }

  lemma OtherRow(w: Index, e: Entity, x: Entity, t: TypeId, data: Bytes)
    requires Shaped(w) && e in w.loc && t in w.loc[e].key && HasCell(w, e, t) && x in w.loc && x != e
      && w.loc[x].key == w.loc[e].key
    ensures var c := w.archs[w.loc[e].key].cols[t];
      t in CellsOf(w, x) && w.loc[x].row < |c.rows|
        && c.SetRow(w.loc[e].row, data).rows[w.loc[x].row] == CellsOf(w, x)[t].bytes
  {
    RowExists(w, x);
    assert Placed(w, x) && Placed(w, e);
  }

  lemma PokeCells(w: Index, v: Index, e: Entity, t: TypeId, data: Bytes, x: Entity)
    requires Shaped(w) && e in w.loc && t in w.loc[e].key && HasCell(w, e, t) && x in w.loc
    requires v == WithCol(w, w.loc[e].key, t, w.archs[w.loc[e].key].cols[t].SetRow(w.loc[e].row, data))
    ensures v.loc == w.loc && v.reg == w.reg
    ensures BytesIn(CellsOf(v, x)) == if x == e then BytesIn(CellsOf(w, x))[t := data] else BytesIn(CellsOf(w, x))
  {
    hide Shaped, CellsOf, BytesIn;
    var l := w.loc[e];
    var c := w.archs[l.key].cols[t].SetRow(l.row, data);
    ColumnFits(w, e, t);
    WithColCells(w, l.key, t, c, x);
    if w.loc[x].key == l.key {
      BytesReplaced(CellsOf(w, x), t, Cell(c.rows[w.loc[x].row], c.tracking, c.Version(w.loc[x].row)));
      if x != e { OtherRow(w, e, x, t, data); }
    }
  }

  lemma ColumnFits(w: Index, e: Entity, t: TypeId)
    requires Shaped(w) && e in w.loc && t in w.loc[e].key
    ensures w.loc[e].key in w.archs && t in w.archs[w.loc[e].key].cols
    ensures w.archs[w.loc[e].key].cols[t].Ok(|w.archs[w.loc[e].key].entities|)
  {
    assert Placed(w, e) && ArchOk(w, w.loc[e].key);
  }

  lemma PokeShaped(w: World, e: Entity, t: TypeId, data: Bytes)
    requires Shaped(w.ix) && HasCell(w.ix, e, t) && e in w.ix.loc && t in w.ix.loc[e].key
    ensures Shaped(Poke(w, e, t, data).ix)
  {
    var l := w.ix.loc[e];
    assert ArchOk(w.ix, l.key) && Placed(w.ix, e);
    WithColShaped(w.ix, l.key, t, w.ix.archs[l.key].cols[t].SetRow(l.row, data));
  }

  lemma CellPresent(w: Index, e: Entity, t: TypeId)
    requires Shaped(w) && e in w.loc && t in w.loc[e].key
    ensures HasCell(w, e, t)
  {
    RowExists(w, e);
    assert Placed(w, e) && ArchOk(w, w.loc[e].key);
  }

  /** Poking bytes of the right size changes one component of one entity in the store. */
  lemma PokeOk(w: World, e: Entity, t: TypeId, data: Bytes)
    requires WorldOk(w) && e in w.ix.loc && t in w.ix.loc[e].key && Registered(w.ix.reg, t)
      && |data| == SizeOf(w.ix.reg, t)
    ensures var v := Poke(w, e, t, data);
      WorldOk(v) && v.ix.loc == w.ix.loc && v.ix.reg == w.ix.reg && v.depth == w.depth && v.slots == w.slots
      && e in Contents(w.ix) && Contents(v.ix) == Contents(w.ix)[e := Contents(w.ix)[e][t := data]]
  {
    hide Shaped, CellsOf, SlotsOk, WithCol, Sized;
    var v := Poke(w, e, t, data);
    CellPresent(w.ix, e, t);
    PokeShaped(w, e, t, data);
    forall x | x in w.ix.loc
      ensures v.ix.loc == w.ix.loc && v.ix.reg == w.ix.reg
      ensures BytesIn(CellsOf(v.ix, x)) == if x == e then BytesIn(CellsOf(w.ix, x))[t := data]
        else BytesIn(CellsOf(w.ix, x))
    {
      PokeCells(w.ix, v.ix, e, t, data, x);
    }
    forall x | x in v.ix.loc ensures Sized(v.ix, x) {
      assert Sized(w.ix, x);
      if x == e { StillSized(w.ix, v.ix, e, t, data); } else { SizedByBytes(w.ix, v.ix, x); }
    }
  }
}
