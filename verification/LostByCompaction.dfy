/** Compacting archetypes between two takes can hide a change: an archetype that started to match, and took the change
    in untracked, is freed before the view ever looks at it. */
module LostByCompaction {
  import opened Base
  import opened Schema
  import opened Storage
  import opened StorageLaws
  import opened Operations
  import opened CommandLaws
  import opened Runs
  import opened Changes
  import opened ChangeLaws
  import opened ChangeRuns
  import opened Takes
  import opened TakeRuns
  import opened LostChange

  // ------------------------------------------------------------------ what the three steps do to archetypes

  ghost predicate Untracked(w: Index, k: Key) {
    k in w.archs && w.archs[k].cols.Keys == k && forall t :: t in k ==> !w.archs[k].cols[t].tracking
  }

  lemma AttachKnown(w: Index, e: Entity, to: Key, cells: map<TypeId, Cell>, tick: Tick)
    requires Untracked(w, to)
    ensures var v := Attach(w, e, to, cells, tick);
      Untracked(v, to) && v.order == w.order && v.archs.Keys == w.archs.Keys
  {
  }

  /** Entering an archetype that did not exist: it is appended to the list, and none of its columns tracks. */
  lemma EnterFresh(w: World, e: Entity, to: Key)
    requires Shaped(w.ix) && e in w.ix.loc && to !in w.ix.archs && forall t :: t in to ==> Registered(w.ix.reg, t)
    ensures var v := ChangeKey(w, e, to);
      v.clock == w.clock && v.ix.order == w.ix.order + [to] && v.ix.archs.Keys == w.ix.archs.Keys + {to}
        && Untracked(v.ix, to)
  {
    hide Shaped, Detach, Attach, Registered;
    var m := Ensure(w.ix, to);
    EnsureShaped(w.ix, to);
    assert w.ix.loc[e].key in w.ix.archs by { assert Shaped(w.ix); HomeKnown(w.ix, e); }
    DetachShaped(m, e);
    DetachOrder(m, e);
    AttachKnown(Detach(m, e), e, to, CellsOf(m, e), w.clock.tick);
  }

  /** A write to an untracked column moves the clock and leaves no entry. */
  lemma WriteUntracked(w: World, e: Entity, t: TypeId, data: Bytes)
    requires Shaped(w.ix) && e in w.ix.loc && t in w.ix.loc[e].key && Untracked(w.ix, w.ix.loc[e].key)
    ensures var v := WriteCell(w, e, t, data);
      && v.clock == w.clock.(tick := BumpedTick(w.clock.tick)) && v.ix.order == w.ix.order
      && v.ix.archs.Keys == w.ix.archs.Keys && Untracked(v.ix, w.ix.loc[e].key)
  {
    hide Shaped, CellsOf;
    CellThere(w.ix, e, t);
  }

  /** Going back to an archetype that exists changes neither list nor clock; a version the entity did not bring is the
      clock's. */
  lemma ReturnTracked(w: World, e: Entity, to: Key, t: TypeId)
    requires Shaped(w.ix) && e in w.ix.loc && to in w.ix.archs && to != w.ix.loc[e].key && t in to * w.ix.loc[e].key
    requires (forall u :: u in to ==> Registered(w.ix.reg, u)) && Untracked(w.ix, w.ix.loc[e].key)
    requires t in w.ix.archs[to].cols && w.ix.archs[to].cols[t].tracking
    ensures var v := ChangeKey(w, e, to);
      && v.clock == w.clock && v.ix.order == w.ix.order && v.ix.archs.Keys == w.ix.archs.Keys
      && t in CellsOf(v.ix, e) && CellsOf(v.ix, e)[t].tracked && CellsOf(v.ix, e)[t].version == w.clock.tick
      && t in CellsOf(w.ix, e) && CellsOf(v.ix, e)[t].bytes == CellsOf(w.ix, e)[t].bytes
  {
    hide Shaped, Detach, Attach, CellsOf, Registered;
    ChangedKeyCells(w, e, to);
    CellThere(w.ix, e, t);
    DetachShaped(w.ix, e);
    DetachOrder(w.ix, e);
    HomeKnown(w.ix, e);
    AttachLists(Detach(w.ix, e), e, to, CellsOf(w.ix, e), w.clock.tick);
    assert ArrivedCell(CellsOf(w.ix, e), CellsOf(ChangeKey(w, e, to).ix, e)[t], t, w.clock.tick);
  }

  lemma AttachLists(w: Index, e: Entity, to: Key, cells: map<TypeId, Cell>, tick: Tick)
    ensures var v := Attach(w, e, to, cells, tick); v.order == w.order && v.archs.Keys == w.archs.Keys
  {
  }

  // ------------------------------------------------------------------ there and back again

  /** Every archetype has an entity other than e, or is the empty one. */
  ghost predicate Populated(w: Index, e: Entity) {
    forall k :: k in w.archs && k != {} ==> exists x :: x != e && x in w.loc && w.loc[x].key == k
  }

  ghost function Detour(w: World, e: Entity, t: TypeId, u: TypeId, data: Bytes): World {
    RemoveComponent(AddRaw(AddRaw(w, e, u, None), e, t, Some(data)), e, u)
  }

  /** One entity takes on a second component, is written, and loses that component again: it is back in its archetype
      with new bytes and a new version, and the log has not heard of it. */
  lemma DetourDone(w: World, e: Entity, t: TypeId, u: TypeId, data: Bytes)
    requires Shaped(w.ix) && Timed(w) && w.depth <= 0 && e != NO_ENTITY
    requires e in w.ix.loc && w.ix.loc[e].key == {t} && t != u && {t, u} !in w.ix.archs
    requires Registered(w.ix.reg, t) && Registered(w.ix.reg, u) && w.clock.tick < U64_MAX
      && |data| == SizeOf(w.ix.reg, t)
    requires {t} in w.ix.archs && t in w.ix.archs[{t}].cols && w.ix.archs[{t}].cols[t].tracking
    ensures var v := Detour(w, e, t, u, data);
      && Shaped(v.ix) && OnlyTouches(w.ix, v.ix, e) && v.depth == w.depth && v.slots == w.slots && v.ix.reg == w.ix.reg
      && v.ix.order == w.ix.order + [{t, u}] && v.ix.archs.Keys == w.ix.archs.Keys + {{t, u}}
      && e in v.ix.loc && v.ix.loc[e].key == {t} && v.clock.log == w.clock.log && v.clock.logGen == w.clock.logGen
      && t in CellsOf(v.ix, e) && CellsOf(v.ix, e)[t].tracked && CellsOf(v.ix, e)[t].version > w.clock.tick
      && CellsOf(v.ix, e)[t].bytes == data
  {
    hide Shaped, Timed, ClockGrows, CellsOf, ChangeKey, WriteCell, OnlyTouches, Evolves, Registered, Payload,
      Untracked, Detour;
    var both: Key := {t} + {u};
    assert both == {t, u};
    var m := ChangeKey(w, e, both);
    var zeroes := Payload(w.ix.reg, u, None);
    EnterFresh(w, e, both);
    ChangeKeyCells(w, e, both);
    var a := WriteCell(m, e, u, zeroes);
    WriteUntracked(m, e, u, zeroes);
    WriteCellCells(m, e, u, zeroes);
    var b := WriteCell(a, e, t, data);
    WriteUntracked(a, e, t, data);
    WriteCellCells(a, e, t, data);
    assert both - {u} == {t};
    assert b.ix.archs.Keys >= {{t}} && t in b.ix.archs[{t}].cols && b.ix.archs[{t}].cols[t].tracking by {
      ChangeKeyTicks(w, e, both);
      StaysTracking(w.ix, m.ix, {t}, t);
      WriteCellTicks(m, e, u, zeroes);
      StaysTracking(m.ix, a.ix, {t}, t);
      WriteCellTicks(a, e, t, data);
      StaysTracking(a.ix, b.ix, {t}, t);
    }
    ReturnTracked(b, e, {t}, t);
    ChangeKeyCells(b, e, {t});
    TouchesTwice(w.ix, m.ix, a.ix, e);
    TouchesTwice(w.ix, a.ix, b.ix, e);
    TouchesTwice(w.ix, b.ix, ChangeKey(b, e, {t}).ix, e);
    DetourSteps(w, e, t, u, data);
  }

  lemma StaysTracking(a: Index, b: Index, k: Key, t: TypeId)
    requires Evolves(a, b) && k in a.archs && t in a.archs[k].cols && a.archs[k].cols[t].tracking
    ensures k in b.archs && t in b.archs[k].cols && b.archs[k].cols[t].tracking
  {
  }

  lemma DetourSteps(w: World, e: Entity, t: TypeId, u: TypeId, data: Bytes)
    requires Shaped(w.ix) && w.depth <= 0 && e != NO_ENTITY && e in w.ix.loc && w.ix.loc[e].key == {t} && t != u
    requires Registered(w.ix.reg, t) && Registered(w.ix.reg, u) && |data| == SizeOf(w.ix.reg, t)
    ensures var a := WriteCell(ChangeKey(w, e, {t} + {u}), e, u, Payload(w.ix.reg, u, None));
      var v, b := Detour(w, e, t, u, data), ChangeKey(WriteCell(a, e, t, data), e, {t});
      v.ix == b.ix && v.clock == b.clock && v.depth == w.depth && v.slots == w.slots
  {
    hide Shaped, CellsOf, ChangeKey, WriteCell, OnlyTouches, Registered;
    var both, zeroes := {t} + {u}, Payload(w.ix.reg, u, None);
    var m := ChangeKey(w, e, both);
    ChangeKeyCells(w, e, both);
    WriteCellCells(m, e, u, zeroes);
    var a0, a := WriteCell(m, e, u, zeroes), AddRaw(w, e, u, None);
    AddRawKeeps(w, e, u, None);
    assert a == Emit(a0, AddedEvent(e, u));
    assert data[..SizeOf(w.ix.reg, t)] == data;
    WriteCellCells(a, e, t, data);
    EmittedWrite(a, a0, e, t, data);
    var b0, b := WriteCell(a, e, t, data), AddRaw(a, e, t, Some(data));
    AddRawKeeps(a, e, t, Some(data));
    assert b == Emit(b0, ChangedEvent(e, t));
    assert both - {u} == {t};
    RemoveComponentKeeps(b, e, u);
    assert RemoveComponent(b, e, u) == Emit(ChangeKey(b, e, {t}), RemovedEvent(e, u));
    EmittedSame(b, WriteCell(a0, e, t, data), e, {t});
  }

  lemma EmittedSame(a: World, b: World, e: Entity, to: Key)
    requires a.ix == b.ix && a.clock == b.clock
    ensures ChangeKey(a, e, to).ix == ChangeKey(b, e, to).ix && ChangeKey(a, e, to).clock == ChangeKey(b, e, to).clock
  {
  }

  lemma EmittedWrite(a: World, b: World, e: Entity, t: TypeId, data: Bytes)
    requires a.ix == b.ix && a.clock == b.clock
    ensures WriteCell(a, e, t, data).ix == WriteCell(b, e, t, data).ix
      && WriteCell(a, e, t, data).clock == WriteCell(b, e, t, data).clock
  {
    hide Put;
  }

  // ------------------------------------------------------------------ the compaction that hides it

  lemma {:induction false} KeptAll(w: Index, order: seq<Key>)
    requires forall k :: k in order ==> Kept(w, k)
    ensures KeptOrder(w, order) == order
    decreases order
  {
    if order != [] {
      KeptAll(w, order[..|order| - 1]);
      assert order == order[..|order| - 1] + [order[|order| - 1]];
    }
  }

  /** An archetype some entity is in holds entities; one that nobody is in holds none. */
  lemma KeptIfHome(w: Index, k: Key)
    requires Shaped(w) && k in w.archs && k != {}
    ensures Kept(w, k) <==> exists x :: x in w.loc && w.loc[x].key == k
  {
    if x :| x in w.loc && w.loc[x].key == k { assert Placed(w, x); }
    if Kept(w, k) {
      assert RowOk(w, k, 0);
      assert w.loc[w.archs[k].entities[0]].key == k;
    }
  }

  /** What `Detour` leaves to `compact`: everything that was there before is kept, the new archetype goes. */
  lemma OnlyNewGoes(w: Index, d: Index, e: Entity, novel: Key)
    requires Shaped(w) && Shaped(d) && Populated(w, e) && OnlyTouches(w, d, e) && e in w.loc && e in d.loc
      && d.loc[e].key == w.loc[e].key
    requires novel !in w.archs && novel != {} && d.order == w.order + [novel] && d.archs.Keys == w.archs.Keys + {novel}
    ensures (forall k :: k in w.order ==> Kept(d, k)) && !Kept(d, novel) && KeptOrder(d, d.order) == w.order
  {
    hide Shaped, CellsOf, Kept, KeptOrder;
    forall k | k in w.order ensures Kept(d, k) {
      assert k in w.archs by { assert k in Elements(w.order); assert Shaped(w); OrderKnown(w); }
      if k != {} {
        KeptIfHome(d, k);
        var x :| x != e && x in w.loc && w.loc[x].key == k;
        assert x in d.loc && d.loc[x].key == k;
      } else {
        EmptyKept(d);
      }
    }
    KeptIfHome(d, novel);
    forall x | x in d.loc ensures d.loc[x].key != novel {
      if x != e { assert x in w.loc; }
      HomeKnown(w, x);
    }
    KeptAll(d, w.order);
    assert d.order[..|d.order| - 1] == w.order;
    LastDropped(d, w.order, novel);
  }

  lemma OrderKnown(w: Index)
    requires Shaped(w)
    ensures Elements(w.order) == w.archs.Keys
  {
  }

  lemma EmptyKept(w: Index)
    ensures Kept(w, {})
  {
  }

  lemma LastDropped(w: Index, front: seq<Key>, k: Key)
    requires !Kept(w, k)
    ensures KeptOrder(w, front + [k]) == KeptOrder(w, front)
  {
    assert (front + [k])[..|front|] == front;
  }

  /** A view that just took sends its world through the detour and a compaction: nothing looks different to it, and the
      changed entity is not reported although a version scan finds it. */
  lemma CompactionHides(w: World, v: Viewer, e: Entity, t: TypeId, u: TypeId, data: Bytes)
    requires WorldOk(w) && Timed(w) && w.depth <= 0 && e != NO_ENTITY && Populated(w.ix, e)
    requires e in w.ix.loc && w.ix.loc[e].key == {t} && t != u && {t, u} !in w.ix.archs
    requires Registered(w.ix.reg, t) && Registered(w.ix.reg, u) && w.clock.tick < U64_MAX
      && |data| == SizeOf(w.ix.reg, t)
    requires {t} in w.ix.archs && t in w.ix.archs[{t}].cols && w.ix.archs[{t}].cols[t].tracking
    requires v.watched == {t} && Quiet(w, v) && v.logPos == |w.clock.log| && v.baseline <= w.clock.tick
      && v.aliases == {}
    ensures var d := Detour(w, e, t, u, data); var z, after := Compact(d), Outlived(d, v);
      && !SafeToCompact(d, v)
      && e in Scan(Prepared(z, after, [t]).ix, {t}, after.baseline) && e !in Found(z, after, [t])
      && t in CellsOf(z.ix, e) && CellsOf(z.ix, e)[t].bytes == data
  {
    hide WorldOk, Timed, CellsOf, Detour, Shaped, OnlyTouches, Populated, Compact, TrackKeys, Registered;
    var d := Detour(w, e, t, u, data);
    ShapedOf(w);
    DetourDone(w, e, t, u, data);
    DetourOk(w, e, t, u, data);
    var z, after := Compact(d), Outlived(d, v);
    var both: Key := {t, u};
    OnlyNewGoes(w.ix, d.ix, e, both);
    AfterCompact(w.ix, d, v, e);
    assert after == v && Quiet(z, v);
    assert Newer(CellsOf(z.ix, e), t, v.baseline);
    assert !Caught(d, v, e) by { AfterCompactCaught(d, v, e, t); }
  }

  lemma DetourOk(w: World, e: Entity, t: TypeId, u: TypeId, data: Bytes)
    requires WorldOk(w) && Registered(w.ix.reg, t) && |data| == SizeOf(w.ix.reg, t)
    ensures WorldOk(Detour(w, e, t, u, data))
  {
    hide WorldOk, AddRaw, RemoveComponent, Contents;
    NoData(w.ix.reg, u);
    AddRawOk(w, e, u, None);
    AddRawOk(AddRaw(w, e, u, None), e, t, Some(data));
    RemoveComponentOk(AddRaw(AddRaw(w, e, u, None), e, t, Some(data)), e, u);
  }

  lemma AfterCompactCaught(d: World, v: Viewer, e: Entity, t: TypeId)
    requires v.watched == {t} && e in d.ix.loc && d.ix.loc[e].key == {t} && v.logPos == |d.clock.log|
    requires Newer(CellsOf(d.ix, e), t, v.baseline)
    ensures !Caught(d, v, e)
  {
    hide CellsOf, Newer;
    assert t in v.watched;
  }

  lemma AfterCompact(w: Index, d: World, v: Viewer, e: Entity)
    requires WorldOk(d) && Shaped(w) && v.last == Matching(w.order, v.watched) && v.aliases == {}
    requires (forall k :: k in w.order ==> k in d.ix.archs && Kept(d.ix, k))
      && KeptOrder(d.ix, d.ix.order) == w.order && e in d.ix.loc
    ensures Compact(d).ix.order == w.order && Compact(d).ix.loc == d.ix.loc && Compact(d).clock == d.clock
    ensures CellsOf(Compact(d).ix, e) == CellsOf(d.ix, e) && Outlived(d, v) == v
  {
    hide WorldOk, Kept, KeptOrder, CellsOf, Shaped;
    CompactCells(d, e);
    MatchingMembers(w.order, v.watched);
    assert Remember(v.last, Compact(d).ix.archs.Keys) == v.last;
  }

  // ------------------------------------------------------------------ a run that gets there

  lemma NextAct(s: Scene, ids: seq<TypeId>, acts: seq<Act>, n: nat)
    requires n < |acts|
    ensures Play(s, ids, acts[..n + 1]) == Perform(Play(s, ids, acts[..n]), ids, acts[n])
  {
    hide Perform;
    assert acts[..n + 1][..n] == acts[..n];
  }

  function Acts(data: Bytes): seq<Act> {
    [Take, Do(OpAdd(1, 2, None)), Do(OpAdd(1, 1, Some(data))), Do(OpRemove(1, 2)), Do(OpCompact)]
  }

  lemma ActsPlay(s: Scene, data: Bytes)
    ensures var p := Perform(s, [1], Take);
      Play(s, [1], Acts(data)) == Scene(Compact(Detour(p.w, 1, 1, 2, data)), Outlived(Detour(p.w, 1, 1, 2, data), p.v))
  {
    hide Compact, AddRaw, RemoveComponent, Prepared, Advanced, Outlived, Play;
    var acts := Acts(data);
    assert acts[..0] == [] && acts[..5] == acts;
    assert Play(s, [1], []) == s by { NoActs(s); }
    NextAct(s, [1], acts, 0);
    NextAct(s, [1], acts, 1);
    NextAct(s, [1], acts, 2);
    NextAct(s, [1], acts, 3);
    NextAct(s, [1], acts, 4);
  }

  lemma NoActs(s: Scene)
    ensures Play(s, [1], []) == s
  {
  }

  /** The world of `LostChange.Setup` after a first take: entity 1 is in a tracked archetype, and every archetype has
      another entity. */
  lemma FirstTake(w: World)
    requires Ready(w, 3, 4)
      && Contents(w.ix) == map[1 := map[1 := Zeros(4)], 2 := map[1 := Zeros(4)], 3 := map[2 := Zeros(4)]]
    ensures var p := Perform(Scene(w, NewView(w, {1})), [1], Take);
      && WorldOk(p.w) && Timed(p.w) && p.w.depth == 0 && p.w.ix.reg == TWO_TYPES && p.w.clock.tick <= 4
      && 1 in p.w.ix.loc && p.w.ix.loc[1].key == {1} && {1, 2} !in p.w.ix.archs && Populated(p.w.ix, 1)
      && {1} in p.w.ix.archs && 1 in p.w.ix.archs[{1}].cols && p.w.ix.archs[{1}].cols[1].tracking
      && p.v.watched == {1} && Quiet(p.w, p.v) && p.v.logPos == |p.w.clock.log| && p.v.baseline <= p.w.clock.tick
      && p.v.aliases == {}
  {
    hide WorldOk, Timed, Contents, Trusted, TrackKeys, Quiet, Shaped, Matching, AllTracked;
    var v := NewView(w, {1});
    var p := Perform(Scene(w, v), [1], Take);
    KeyIsStored(w, 1);
    KeyIsStored(w, 2);
    KeyIsStored(w, 3);
    assert Contents(w.ix)[1].Keys == {1} && Contents(w.ix)[3].Keys == {2};
    CoherentOf(w);
    NewViewTrusts(w, {1});
    assert Elements([1]) == {1};
    assert !Quiet(w, v) by { NotWarm(w, {1}); }
    AdvancedTrusts(w, v, [1]);
    PreparedTracked(w, v, [1]);
    TrackKeysOk(w, Matching(w.ix.order, v.watched), [1]);
    TrackKeysTrust(w, v, Matching(w.ix.order, v.watched), [1]);
    assert Trusted(p.w, p.v) ==> Timed(p.w) by { if Trusted(p.w, p.v) { TrustedTimed(p.w, p.v); } }
    assert p.w.ix.loc == w.ix.loc && p.w.ix.archs.Keys == w.ix.archs.Keys;
    assert 2 in {1, 2} && 2 !in {1} && 1 in {1, 2} && 1 !in {2};
    HomeTracked(p.w.ix, 1, 1);
    TrackKeysReg(w.ix, Matching(w.ix.order, v.watched), [1], w.clock.tick);
  }

  lemma NotWarm(w: World, watched: set<TypeId>)
    ensures !Quiet(w, NewView(w, watched))
  {
  }

  lemma TrustedTimed(w: World, v: Viewer)
    requires Trusted(w, v)
    ensures Timed(w)
  {
  }

  lemma HomeTracked(w: Index, e: Entity, t: TypeId)
    requires Shaped(w) && e in w.loc && w.loc[e].key == {t} && AllTracked(w, {t})
    ensures {t} in w.archs && t in w.archs[{t}].cols && w.archs[{t}].cols[t].tracking
  {
    assert Placed(w, e) && ArchOk(w, {t});
  }

  lemma {:induction false} TrackKeysReg(w: Index, ks: seq<Key>, ids: seq<TypeId>, tick: Tick)
    ensures TrackKeys(w, ks, ids, tick).reg == w.reg
  {
    if ks != [] {
      TrackKeysReg(w, ks[..|ks| - 1], ids, tick);
      TrackKeyReg(TrackKeys(w, ks[..|ks| - 1], ids, tick), ks[|ks| - 1], ids, tick);
    }
  }

  lemma {:induction false} TrackKeyReg(w: Index, k: Key, ids: seq<TypeId>, tick: Tick)
    ensures TrackKey(w, k, ids, tick).reg == w.reg
  {
    if ids != [] { TrackKeyReg(w, k, ids[..|ids| - 1], tick); }
  }

  /** A whole run: take, give entity 1 a second component, overwrite its first, take the second away, compact. The next
      take does not report entity 1. */
  lemma LostToCompaction(data: Bytes)
    requires |data| == 4
    ensures AllAllowed(EmptyWorld(TWO_TYPES), Setup())
    ensures var w := Run(EmptyWorld(TWO_TYPES), Setup()); var s := Play(Scene(w, NewView(w, {1})), [1], Acts(data));
      && 1 in Scan(Prepared(s.w, s.v, [1]).ix, {1}, s.v.baseline) && 1 !in Found(s.w, s.v, [1])
      && 1 in CellsOf(s.w.ix, 1) && CellsOf(s.w.ix, 1)[1].bytes == data
  {
    hide WorldOk, Timed, Contents, EmptyWorld, Setup, Found, Prepared, Scan, Run, AllAllowed, Play, Acts, CellsOf,
      Ready, Quiet, Perform, Detour, Compact, Outlived, SafeToCompact, Populated;
    var w := Run(EmptyWorld(TWO_TYPES), Setup());
    SetupRuns();
    FirstTake(w);
    var p := Perform(Scene(w, NewView(w, {1})), [1], Take);
    ActsPlay(Scene(w, NewView(w, {1})), data);
    CompactionHides(p.w, p.v, 1, 1, 2, data);
  }
}
