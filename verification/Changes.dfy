/** Change detection: row versions, the write log, and what a change view reports. */
module Changes {
  import opened Base
  import opened Schema
  import opened Storage
  import opened StorageLaws
  import opened Operations

  // ------------------------------------------------------------------ the clock and the versions

  /** Versions never run ahead of the clock, and the column maximum is 0 or bounds every row. */
  ghost predicate ColTimed(c: Col, tick: Tick) {
    c.tracking ==>
      0 <= c.maxVersion <= tick
      && forall i :: 0 <= i < |c.versions| ==>
         c.versions[i] <= tick && (c.maxVersion == 0 || c.versions[i] <= c.maxVersion)
  }

  ghost predicate IndexTimed(w: Index, tick: Tick) {
    forall k, t {:trigger w.archs[k].cols[t]} :: k in w.archs && t in w.archs[k].cols ==>
      ColTimed(w.archs[k].cols[t], tick)
  }

  /** The log is sorted by tick, nowhere ahead of the clock, and within the soft cap. */
  ghost predicate ClockOk(c: Clock) {
    && 0 <= c.tick <= U64_MAX && |c.log| <= CHANGE_LOG_SOFT_CAP
    && (forall i :: 0 <= i < |c.log| ==> c.log[i].tick <= c.tick)
    && (forall i, j :: 0 <= i < j < |c.log| ==> c.log[i].tick <= c.log[j].tick)
  }

  /** A live tracked cell is at least as recent as every log entry about it. */
  ghost predicate Backed(cells: map<TypeId, Cell>, entry: LogEntry) {
    entry.comp in cells && cells[entry.comp].tracked ==> cells[entry.comp].version >= entry.tick
  }

  ghost predicate LogBacked(w: World) {
    forall i :: 0 <= i < |w.clock.log| ==> Backed(CellsOf(w.ix, w.clock.log[i].entity), w.clock.log[i])
  }

  ghost predicate Timed(w: World) {
    IndexTimed(w.ix, w.clock.tick) && ClockOk(w.clock) && LogBacked(w)
  }

  // ------------------------------------------------------------------ how an index and a clock evolve

  /** Archetypes are only appended, keep their columns, and never stop tracking. */
  ghost predicate Evolves(a: Index, b: Index) {
    && a.order <= b.order
    && forall k, t {:trigger a.archs[k].cols[t]} :: k in a.archs && t in a.archs[k].cols ==>
      k in b.archs && t in b.archs[k].cols && (a.archs[k].cols[t].tracking ==> b.archs[k].cols[t].tracking)
  }

  ghost predicate ClockGrows(c: Clock, d: Clock) {
    c.tick <= d.tick && c.logGen <= d.logGen && (c.logGen == d.logGen ==> c.log <= d.log)
  }

  /** A cell either keeps or raises its version, or is stamped with a tick no older than `tick`. */
  ghost predicate Advances(before: map<TypeId, Cell>, after: map<TypeId, Cell>, tick: Tick) {
    forall t :: t in after && after[t].tracked ==>
      after[t].version >= tick || (t in before && before[t].tracked && after[t].version >= before[t].version)
  }

  lemma LogChangeGrows(c: Clock, e: Entity, t: TypeId)
    requires ClockOk(c)
    ensures ClockOk(LogChange(c, e, t)) && ClockGrows(c, LogChange(c, e, t)) && LogChange(c, e, t).tick == c.tick
    ensures var d := LogChange(c, e, t); |d.log| > 0 && d.log[|d.log| - 1] == LogEntry(e, t, c.tick)
    ensures forall x :: x in LogChange(c, e, t).log ==> x in c.log || x == LogEntry(e, t, c.tick)
    ensures LogChange(c, e, t).logGen == c.logGen ==> LogChange(c, e, t).log == c.log + [LogEntry(e, t, c.tick)]
  {
  }

  /** The log is never shorter than half of what it could hold, ends with the newest entry, and its generation moves
      on exactly when it forgets some. */
  lemma LogKeepsNewest(c: Clock, e: Entity, t: TypeId)
    requires |c.log| <= CHANGE_LOG_SOFT_CAP
    ensures var d, all := LogChange(c, e, t), c.log + [LogEntry(e, t, c.tick)];
      && d.tick == c.tick && d.log != [] && d.log[|d.log| - 1] == LogEntry(e, t, c.tick)
      && d.log == all[|all| - |d.log|..] && 2 * |d.log| >= |all| && |d.log| <= CHANGE_LOG_SOFT_CAP
      && (d.logGen == c.logGen <==> d.log == all) && (d.logGen == c.logGen || d.logGen == c.logGen + 1)
      && (d.log == all <==> |c.log| < CHANGE_LOG_SOFT_CAP) && (d.log != all ==> |d.log| == (|all| + 1) / 2)
  {
    var all := c.log + [LogEntry(e, t, c.tick)];
    assert |all[|all| / 2..]| == |all| - |all| / 2;
    assert all[0..] == all;
  }

  lemma BumpGrows(c: Clock)
    requires ClockOk(c)
    ensures var d := c.(tick := BumpedTick(c.tick));
      ClockOk(d) && ClockGrows(c, d) && (d.tick > c.tick || d.tick == U64_MAX)
  {
  }

  lemma ClockTwice(a: Clock, b: Clock, c: Clock)
    requires ClockGrows(a, b) && ClockGrows(b, c)
    ensures ClockGrows(a, c)
  {
  }

  lemma EvolvesTwice(a: Index, b: Index, c: Index)
    requires Evolves(a, b) && Evolves(b, c)
    ensures Evolves(a, c)
  {
    forall k, t | k in a.archs && t in a.archs[k].cols
      ensures k in c.archs && t in c.archs[k].cols && (a.archs[k].cols[t].tracking ==> c.archs[k].cols[t].tracking)
    {
      assert k in b.archs && t in b.archs[k].cols && (a.archs[k].cols[t].tracking ==> b.archs[k].cols[t].tracking);
    }
  }

  lemma LaterTimed(w: Index, tick: Tick, later: Tick)
    requires IndexTimed(w, tick) && tick <= later
    ensures IndexTimed(w, later)
  {
  }

  // ------------------------------------------------------------------ the building blocks keep time

  lemma AttachTimed(w: Index, e: Entity, to: Key, cells: map<TypeId, Cell>, tick: Tick)
    requires IndexTimed(w, tick) && 0 <= tick && forall t :: t in cells ==> cells[t].version <= tick
    ensures IndexTimed(Attach(w, e, to, cells, tick), tick) && Evolves(w, Attach(w, e, to, cells, tick))
  {
  }

  lemma DetachTimed(w: Index, e: Entity, tick: Tick)
    requires IndexTimed(w, tick) && Shaped(w) && e in w.loc
    ensures IndexTimed(Detach(w, e), tick) && Evolves(w, Detach(w, e))
  {
    assert Placed(w, e) && ArchOk(w, w.loc[e].key);
  }

  lemma EnsureTimed(w: Index, k: Key, tick: Tick)
    requires IndexTimed(w, tick)
    ensures IndexTimed(Ensure(w, k), tick) && Evolves(w, Ensure(w, k))
  {
  }

  lemma PutTimed(w: Index, e: Entity, t: TypeId, data: Bytes, tick: Tick)
    requires IndexTimed(w, tick)
    ensures IndexTimed(Put(w, e, t, data, tick), tick) && Evolves(w, Put(w, e, t, data, tick))
  {
  }

  lemma StampTimed(w: Index, e: Entity, t: TypeId, now: Tick, tick: Tick)
    requires IndexTimed(w, tick) && 0 <= now <= tick
    ensures IndexTimed(Stamp(w, e, t, now, tick), tick) && Evolves(w, Stamp(w, e, t, now, tick))
  {
  }

  lemma TrackTimed(w: Index, k: Key, t: TypeId, tick: Tick)
    requires IndexTimed(w, tick) && 0 <= tick
    ensures IndexTimed(Track(w, k, t, tick), tick) && Evolves(w, Track(w, k, t, tick))
  {
  }

  // ------------------------------------------------------------------ the log stays backed

  lemma CellTimed(w: Index, e: Entity, tick: Tick)
    requires IndexTimed(w, tick) && Shaped(w) && e in w.loc && 0 <= tick
    ensures forall t :: t in CellsOf(w, e) ==> CellsOf(w, e)[t].version <= tick
  {
    RowExists(w, e);
    forall t | t in CellsOf(w, e) ensures CellsOf(w, e)[t].version <= tick {
      assert ColTimed(w.archs[w.loc[e].key].cols[t], tick);
    }
  }

  lemma BackedStep(a: World, b: World, e: Entity, t: TypeId)
    requires LogBacked(a) && ClockOk(a.clock)
    requires forall x :: Advances(CellsOf(a.ix, x), CellsOf(b.ix, x), a.clock.tick)
    requires forall x :: x in b.clock.log ==>
      x in a.clock.log || (x == LogEntry(e, t, b.clock.tick) && Backed(CellsOf(b.ix, e), x))
    ensures LogBacked(b)
  {
    hide CellsOf;
    forall i | 0 <= i < |b.clock.log| ensures Backed(CellsOf(b.ix, b.clock.log[i].entity), b.clock.log[i]) {
      var entry := b.clock.log[i];
      assert entry in b.clock.log;
      if entry in a.clock.log {
        assert Backed(CellsOf(a.ix, entry.entity), entry) && entry.tick <= a.clock.tick;
        assert Advances(CellsOf(a.ix, entry.entity), CellsOf(b.ix, entry.entity), a.clock.tick);
      }
    }
  }

  lemma TouchAdvances(a: Index, b: Index, e: Entity, tick: Tick)
    requires OnlyTouches(a, b, e) && Advances(CellsOf(a, e), CellsOf(b, e), tick)
    ensures forall x :: Advances(CellsOf(a, x), CellsOf(b, x), tick)
  {
    forall x ensures Advances(CellsOf(a, x), CellsOf(b, x), tick) { if x != e && x in b.loc { assert x in a.loc; } }
  }

  /** What every step from a to b keeps. */
  ghost predicate Ticks(a: World, b: World) {
    Timed(b) && Shaped(b.ix) && Evolves(a.ix, b.ix) && ClockGrows(a.clock, b.clock)
  }

  lemma TicksTwice(a: World, b: World, c: World)
    requires Ticks(a, b) && Ticks(b, c)
    ensures Ticks(a, c)
  {
    hide Timed, Shaped, Evolves, ClockGrows;
    EvolvesTwice(a.ix, b.ix, c.ix);
    ClockTwice(a.clock, b.clock, c.clock);
  }

  lemma TicksSame(w: World)
    requires Timed(w) && Shaped(w.ix)
    ensures Ticks(w, w)
  {
  }

  lemma SpawnTicks(w: World, e: Entity)
    requires Timed(w) && Coherent(w.ix) && e !in w.ix.loc && e != NO_ENTITY
    ensures Ticks(w, Spawn(w, e))
  {
    hide Shaped, Sized, CellsOf, IndexTimed, Attach, OnlyTouches, Evolves, LogBacked;
    var v := Spawn(w, e);
    SpawnStore(w, e);
    AttachTimed(w.ix, e, {}, map[], w.clock.tick);
    TouchAdvances(w.ix, v.ix, e, w.clock.tick);
    BackedStep(w, v, e, 0);
  }

  lemma DetachTicks(w: World, v: World, e: Entity)
    requires Timed(w) && Shaped(w.ix) && e in w.ix.loc && v.ix == Detach(w.ix, e) && v.clock == w.clock
    ensures Ticks(w, v)
  {
    hide Shaped, CellsOf, IndexTimed, Detach, OnlyTouches, Evolves, LogBacked;
    DetachTimed(w.ix, e, w.clock.tick);
    DetachShaped(w.ix, e);
    DetachTouches(w.ix, e);
    assert CellsOf(v.ix, e) == map[] by { GoneCells(v.ix, e); }
    TouchAdvances(w.ix, v.ix, e, w.clock.tick);
    BackedStep(w, v, e, 0);
  }

  lemma GoneCells(w: Index, e: Entity)
    requires e !in w.loc
    ensures CellsOf(w, e) == map[]
  {
  }

  lemma ArrivedAdvances(brought: map<TypeId, Cell>, held: map<TypeId, Cell>, to: Key, tick: Tick)
    requires Arrived(brought, held, to, tick)
    ensures Advances(brought, held, tick)
  {
    forall t | t in held && held[t].tracked
      ensures held[t].version >= tick || (t in brought && brought[t].tracked && held[t].version >= brought[t].version)
    {
      assert ArrivedCell(brought, held[t], t, tick);
    }
  }

  lemma MoveTimed(w: World, e: Entity, to: Key)
    requires Timed(w) && Shaped(w.ix) && e in w.ix.loc && to != w.ix.loc[e].key
      && forall t :: t in to ==> Registered(w.ix.reg, t)
    ensures IndexTimed(ChangeKey(w, e, to).ix, w.clock.tick) && Evolves(w.ix, ChangeKey(w, e, to).ix)
  {
    hide Shaped, CellsOf, IndexTimed, Detach, Attach, Ensure, Evolves, LogBacked, Registered;
    var m, tick := Ensure(w.ix, to), w.clock.tick;
    EnsureTimed(w.ix, to, tick);
    EnsureShaped(w.ix, to);
    EnsureKnown(w.ix, to);
    DetachTimed(m, e, tick);
    CellTimed(m, e, tick);
    AttachTimed(Detach(m, e), e, to, CellsOf(m, e), tick);
    EvolvesTwice(w.ix, m, Detach(m, e));
    EvolvesTwice(w.ix, Detach(m, e), Attach(Detach(m, e), e, to, CellsOf(m, e), tick));
  }

  lemma EnsureKnown(w: Index, to: Key)
    ensures to in Ensure(w, to).archs && Ensure(w, to).loc == w.loc && Ensure(w, to).reg == w.reg
  {
  }

  lemma ChangeKeyTicks(w: World, e: Entity, to: Key)
    requires Timed(w) && Shaped(w.ix) && e in w.ix.loc && to != w.ix.loc[e].key
      && forall t :: t in to ==> Registered(w.ix.reg, t)
    ensures Ticks(w, ChangeKey(w, e, to))
  {
    hide Shaped, CellsOf, IndexTimed, Move, OnlyTouches, Evolves, LogBacked, Arrived, Registered, Ensure;
    var v := ChangeKey(w, e, to);
    MoveTimed(w, e, to);
    ChangeKeyCells(w, e, to);
    ChangedKeyCells(w, e, to);
    ArrivedAdvances(CellsOf(w.ix, e), CellsOf(v.ix, e), to, w.clock.tick);
    TouchAdvances(w.ix, v.ix, e, w.clock.tick);
    BackedStep(w, v, e, 0);
  }

  lemma WriteCellClock(w: World, e: Entity, t: TypeId, data: Bytes)
    requires ClockOk(w.clock) && HasCell(w.ix, e, t)
    ensures var v := WriteCell(w, e, t, data);
      && ClockOk(v.clock) && ClockGrows(w.clock, v.clock) && v.clock.tick == BumpedTick(w.clock.tick)
      && (forall x :: x in v.clock.log ==> x in w.clock.log || x == LogEntry(e, t, v.clock.tick))
      && (w.ix.archs[w.ix.loc[e].key].cols[t].tracking ==>
         v.clock.log != [] && v.clock.log[|v.clock.log| - 1] == LogEntry(e, t, v.clock.tick))
      && v.ix == Put(w.ix, e, t, data, v.clock.tick)
  {
    hide Put, LogChange, ClockOk, ClockGrows;
    var bumped := w.clock.(tick := BumpedTick(w.clock.tick));
    BumpGrows(w.clock);
    LogChangeGrows(bumped, e, t);
    ClockTwice(w.clock, bumped, LogChange(bumped, e, t));
  }

  lemma WriteCellTicks(w: World, e: Entity, t: TypeId, data: Bytes)
    requires Timed(w) && Shaped(w.ix) && e in w.ix.loc && t in w.ix.loc[e].key
    ensures Ticks(w, WriteCell(w, e, t, data))
  {
    hide Shaped, CellsOf, IndexTimed, Put, OnlyTouches, Evolves, LogBacked, LogChange, WriteCell, ClockOk;
    var v := WriteCell(w, e, t, data);
    CellThere(w.ix, e, t);
    WriteCellClock(w, e, t, data);
    LaterTimed(w.ix, w.clock.tick, v.clock.tick);
    PutTimed(w.ix, e, t, data, v.clock.tick);
    WriteCellCells(w, e, t, data);
    TouchAdvances(w.ix, v.ix, e, w.clock.tick);
    BackedStep(w, v, e, t);
  }

  lemma CellThere(w: Index, e: Entity, t: TypeId)
    requires Shaped(w) && e in w.loc && t in w.loc[e].key
    ensures HasCell(w, e, t) && t in CellsOf(w, e) && CellsOf(w, e)[t].tracked == w.archs[w.loc[e].key].cols[t].tracking
  {
    RowExists(w, e);
    assert Placed(w, e) && ArchOk(w, w.loc[e].key);
  }

  // ------------------------------------------------------------------ marking and tracking

  /** A cell of a column on which tracking has been turned on. */
  function Tracked(c: Cell, tick: Tick): Cell {
    if c.tracked then c else Cell(c.bytes, true, tick)
  }

  lemma TrackCells(w: Index, k: Key, t: TypeId, tick: Tick, x: Entity)
    requires Shaped(w) && k in w.archs && t in k && x in w.loc
    ensures w.loc[x].key == k ==> t in CellsOf(w, x)
    ensures CellsOf(Track(w, k, t, tick), x) ==
      if w.loc[x].key == k then CellsOf(w, x)[t := Tracked(CellsOf(w, x)[t], tick)] else CellsOf(w, x)
  {
    assert ArchOk(w, k) && Placed(w, x);
    RowExists(w, x);
    WithColCells(w, k, t, w.archs[k].cols[t].EnsureVersions(tick), x);
  }

  lemma StampCells(w: Index, e: Entity, t: TypeId, now: Tick, tick: Tick, x: Entity)
    requires Shaped(w) && e in w.loc && t in w.loc[e].key && x in w.loc
    ensures w.loc[x].key == w.loc[e].key ==> t in CellsOf(w, x)
    ensures CellsOf(Stamp(w, e, t, now, tick), x) ==
      if w.loc[x].key != w.loc[e].key then CellsOf(w, x)
      else if x == e then CellsOf(w, x)[t := Cell(CellsOf(w, x)[t].bytes, true, tick)]
      else CellsOf(w, x)[t := Tracked(CellsOf(w, x)[t], now)]
  {
    var l := w.loc[e];
    assert Placed(w, e) && ArchOk(w, l.key) && Placed(w, x);
    RowExists(w, x);
    WithColCells(w, l.key, t, w.archs[l.key].cols[t].EnsureVersions(now).SetVersion(l.row, tick), x);
  }

  lemma StampShaped(w: Index, e: Entity, t: TypeId, now: Tick, tick: Tick)
    requires Shaped(w) && e in w.loc && t in w.loc[e].key
    ensures Shaped(Stamp(w, e, t, now, tick)) && Stamp(w, e, t, now, tick).loc == w.loc
  {
    var l := w.loc[e];
    assert Placed(w, e) && ArchOk(w, l.key);
    WithColShaped(w, l.key, t, w.archs[l.key].cols[t].EnsureVersions(now).SetVersion(l.row, tick));
  }

  lemma TrackShaped(w: Index, k: Key, t: TypeId, tick: Tick)
    requires Shaped(w) && k in w.archs && t in k
    ensures Shaped(Track(w, k, t, tick)) && Track(w, k, t, tick).loc == w.loc
  {
    assert ArchOk(w, k);
    WithColShaped(w, k, t, w.archs[k].cols[t].EnsureVersions(tick));
  }

  lemma TrackTicks(w: World, k: Key, t: TypeId)
    requires Timed(w) && Shaped(w.ix)
    ensures Ticks(w, w.(ix := Track(w.ix, k, t, w.clock.tick)))
  {
    hide Shaped, CellsOf, IndexTimed, Evolves, LogBacked, Track;
    if k in w.ix.archs && t in k {
      var v := w.(ix := Track(w.ix, k, t, w.clock.tick));
      TrackTimed(w.ix, k, t, w.clock.tick);
      TrackShaped(w.ix, k, t, w.clock.tick);
      forall x ensures Advances(CellsOf(w.ix, x), CellsOf(v.ix, x), w.clock.tick) {
        if x in w.ix.loc { TrackCells(w.ix, k, t, w.clock.tick, x); } else { GoneCells(v.ix, x); }
      }
      BackedStep(w, v, 0, 0);
    } else {
      TrackNothing(w.ix, k, t, w.clock.tick);
      TicksSame(w);
    }
  }

  lemma TrackNothing(w: Index, k: Key, t: TypeId, tick: Tick)
    requires Shaped(w) && !(k in w.archs && t in k)
    ensures Track(w, k, t, tick) == w
  {
    if k in w.archs { assert ArchOk(w, k); }
  }

  lemma MarkClock(w: World, e: Entity, t: TypeId)
    requires ClockOk(w.clock) && Has(w.ix, e, t)
    ensures var v := MarkChanged(w, e, t);
      && ClockOk(v.clock) && ClockGrows(w.clock, v.clock) && v.clock.tick == BumpedTick(w.clock.tick)
      && (forall x :: x in v.clock.log ==> x in w.clock.log || x == LogEntry(e, t, v.clock.tick))
      && v.clock.log != [] && v.clock.log[|v.clock.log| - 1] == LogEntry(e, t, v.clock.tick)
      && v.ix == Stamp(w.ix, e, t, w.clock.tick, v.clock.tick)
  {
    hide Stamp, LogChange, ClockOk, ClockGrows;
    var bumped := w.clock.(tick := BumpedTick(w.clock.tick));
    BumpGrows(w.clock);
    LogChangeGrows(bumped, e, t);
    ClockTwice(w.clock, bumped, LogChange(bumped, e, t));
  }

  lemma MarkTicks(w: World, e: Entity, t: TypeId)
    requires Timed(w) && Shaped(w.ix) && Has(w.ix, e, t)
    ensures Ticks(w, MarkChanged(w, e, t))
  {
    hide Shaped, CellsOf, IndexTimed, Stamp, Evolves, LogBacked, LogChange, MarkChanged, ClockOk;
    var v := MarkChanged(w, e, t);
    MarkClock(w, e, t);
    assert 0 <= w.clock.tick by { TickKnown(w.clock); }
    LaterTimed(w.ix, w.clock.tick, v.clock.tick);
    StampTimed(w.ix, e, t, w.clock.tick, v.clock.tick);
    StampShaped(w.ix, e, t, w.clock.tick, v.clock.tick);
    forall x ensures Advances(CellsOf(w.ix, x), CellsOf(v.ix, x), w.clock.tick) {
      if x in w.ix.loc { StampCells(w.ix, e, t, w.clock.tick, v.clock.tick, x); } else { GoneCells(v.ix, x); }
    }
    StampCells(w.ix, e, t, w.clock.tick, v.clock.tick, e);
    BackedStep(w, v, e, t);
  }

  lemma TickKnown(c: Clock)
    requires ClockOk(c)
    ensures 0 <= c.tick <= U64_MAX
  {
  }
}
