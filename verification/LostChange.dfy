/** The engine promises that compacting the change log never loses a change. It can: a removal resets the
    column maximum that the fallback scan reads. */
module LostChange {
  import opened Base
  import opened Schema
  import opened Storage
  import opened StorageLaws
  import opened Operations
  import opened CommandLaws
  import opened Runs
  import opened Changes
  import opened ChangeLaws
  import opened ChangeRuns
  import opened Takes
  import opened TakeRuns

  function Marks(e: Entity, t: TypeId, n: nat): seq<Op> {
    if n == 0 then [] else Marks(e, t, n - 1) + [OpMark(e, t)]
  }

  function Times(e: Entity, n: nat): seq<Entity> {
    seq(n, i => e)
  }

  function EntitiesOf(log: seq<LogEntry>): seq<Entity> {
    seq(|log|, i requires 0 <= i < |log| => log[i].entity)
  }

  /** After n more entries about e, the log is the tail of all that was ever written. */
  ghost predicate Tail(c: Clock, d: Clock, e: Entity, n: nat) {
    && |d.log| <= |c.log| + n
    && EntitiesOf(d.log) == (EntitiesOf(c.log) + Times(e, n))[|c.log| + n - |d.log|..]
    && (if |d.log| < |c.log| + n then d.logGen > c.logGen else d.logGen == c.logGen)
  }

  lemma TailStep(c: Clock, d: Clock, e: Entity, t: TypeId, n: nat)
    requires Tail(c, d, e, n)
    ensures Tail(c, LogChange(d, e, t), e, n + 1)
  {
    var all := EntitiesOf(c.log) + Times(e, n);
    var more := EntitiesOf(c.log) + Times(e, n + 1);
    assert more == all + [e];
    var log := d.log + [LogEntry(e, t, d.tick)];
    assert EntitiesOf(log) == EntitiesOf(d.log) + [e];
    assert EntitiesOf(log) == more[|more| - |log|..];
    if |log| > CHANGE_LOG_SOFT_CAP {
      assert EntitiesOf(log[|log| / 2..]) == EntitiesOf(log)[|log| / 2..];
    }
  }

  /** Marking e touches only its own archetype. */
  ghost predicate Elsewhere(w: Index, z: Index, key: Key) {
    && z.loc == w.loc && z.order == w.order && z.archs.Keys == w.archs.Keys
    && forall k :: k in w.archs && k != key ==> k in z.archs && z.archs[k] == w.archs[k]
  }

  lemma StampElsewhere(w: Index, e: Entity, t: TypeId, now: Tick, tick: Tick)
    requires e in w.loc
    ensures Elsewhere(w, Stamp(w, e, t, now, tick), w.loc[e].key)
  {
  }

  lemma RunMarks(w: World, e: Entity, t: TypeId, n: nat)
    ensures Run(w, Marks(e, t, 0)) == w
    ensures n > 0 ==> Run(w, Marks(e, t, n)) == MarkChanged(Run(w, Marks(e, t, n - 1)), e, t)
  {
    hide MarkChanged;
    if n > 0 { assert Marks(e, t, n)[..|Marks(e, t, n)| - 1] == Marks(e, t, n - 1); }
  }

  /** What one mark leaves where it was, and what it adds to the log. */
  lemma MarkStep(w: World, e: Entity, t: TypeId)
    requires Has(w.ix, e, t)
    ensures var v := MarkChanged(w, e, t);
      Elsewhere(w.ix, v.ix, w.ix.loc[e].key) && v.clock == LogChange(w.clock.(tick := BumpedTick(w.clock.tick)), e, t)
  {
    hide Stamp, LogChange;
    StampElsewhere(w.ix, e, t, w.clock.tick, BumpedTick(w.clock.tick));
  }

  lemma {:induction false} MarksDrown(w: World, e: Entity, t: TypeId, n: nat)
    requires WorldOk(w) && Has(w.ix, e, t)
    ensures var z := Run(w, Marks(e, t, n));
      Tail(w.clock, z.clock, e, n) && Elsewhere(w.ix, z.ix, w.ix.loc[e].key) && WorldOk(z) && z.depth == w.depth
  {
    hide WorldOk, MarkChanged, LogChange, Run, Marks, Contents;
    RunMarks(w, e, t, n);
    if n == 0 {
      assert EntitiesOf(w.clock.log) + Times(e, 0) == EntitiesOf(w.clock.log);
    } else {
      hide Tail;
      var z := Run(w, Marks(e, t, n - 1));
      MarksDrown(w, e, t, n - 1);
      MarkChangedOk(z, e, t);
      MarkStep(z, e, t);
      TailStep(w.clock, z.clock.(tick := BumpedTick(z.clock.tick)), e, t, n - 1);
    }
  }

  /** Once the cap's worth of entries about b has gone in, the log holds nothing else. */
  lemma OnlyMarks(c: Clock, d: Clock, b: Entity, e: Entity, watched: set<TypeId>, baseline: Tick)
    requires Tail(c, d, b, CHANGE_LOG_SOFT_CAP) && ClockOk(d) && e != b
    ensures !Noted(d.log, 0, watched, baseline, e)
    ensures c.log != [] ==> d.logGen > c.logGen
  {
    var all := EntitiesOf(c.log) + Times(b, CHANGE_LOG_SOFT_CAP);
    forall i | 0 <= i < |d.log| ensures d.log[i].entity == b {
      assert EntitiesOf(d.log)[i] == all[|all| - |d.log| + i];
    }
  }

  lemma {:induction false} RunAppend(w: World, x: seq<Op>, y: seq<Op>)
    ensures Run(w, x + y) == Run(Run(w, x), y)
    decreases y
  {
    hide Apply;
    if y == [] {
      assert x + y == x;
    } else {
      assert (x + y)[..|x + y| - 1] == x + y[..|y| - 1];
      RunAppend(w, x, y[..|y| - 1]);
    }
  }

  /** Tracking a column that is tracked already does nothing to it. */
  lemma {:induction false} TrackKeysLeave(w: Index, ks: seq<Key>, t: TypeId, tick: Tick, k: Key)
    requires k in w.archs && t in w.archs[k].cols && w.archs[k].cols[t].tracking
    ensures var z := TrackKeys(w, ks, [t], tick); k in z.archs && z.archs[k] == w.archs[k] && z.loc == w.loc
  {
    if ks != [] {
      TrackKeysLeave(w, ks[..|ks| - 1], t, tick, k);
      var m := TrackKeys(w, ks[..|ks| - 1], [t], tick);
      assert TrackKey(m, ks[|ks| - 1], [], tick) == m;
      assert TrackKey(m, ks[|ks| - 1], [t], tick) == Track(m, ks[|ks| - 1], t, tick);
    }
  }

  lemma CellsBy(w: Index, z: Index, e: Entity)
    requires e in w.loc && e in z.loc && z.loc[e] == w.loc[e] && w.loc[e].key in w.archs && w.loc[e].key in z.archs
    requires z.archs[w.loc[e].key] == w.archs[w.loc[e].key]
    ensures CellsOf(z, e) == CellsOf(w, e)
  {
  }

  /** A changed row in a skipped archetype is lost once the log has forgotten it. */
  lemma ForgottenIsLost(w: World, v: Viewer, t: TypeId, a: Entity, b: Entity, u: TypeId)
    requires WorldOk(w) && ClockOk(w.clock) && w.clock.log != [] && v.watched == {t} && v.logGen <= w.clock.logGen
    requires Dirty(w.ix, {t}, v.baseline, a) && Has(w.ix, b, u) && w.ix.loc[b].key != w.ix.loc[a].key
    requires Skipped(w.ix, w.ix.loc[a].key, {t}, v.baseline)
    requires ClockOk(Run(w, Marks(b, u, CHANGE_LOG_SOFT_CAP)).clock)
    ensures var z := Run(w, Marks(b, u, CHANGE_LOG_SOFT_CAP));
      a in Scan(Prepared(z, v, [t]).ix, {t}, v.baseline) && a !in Found(z, v, [t])
  {
    hide Marks, Tail, SlotsOk, CellsOf, TrackKeys, ArchOk, RowOk, Sized;
    var z, ka := Run(w, Marks(b, u, CHANGE_LOG_SOFT_CAP)), w.ix.loc[a].key;
    MarksDrown(w, b, u, CHANGE_LOG_SOFT_CAP);
    OnlyMarks(w.clock, z.clock, b, a, {t}, v.baseline);
    assert Placed(w.ix, a);
    var ks := Matching(z.ix.order, v.watched);
    CellThere(w.ix, a, t);
    TrackKeysLeave(z.ix, ks, t, z.clock.tick, ka);
    var p := Prepared(z, v, [t]);
    CellsBy(w.ix, p.ix, a);
    assert Dirty(p.ix, {t}, v.baseline, a);
    assert Skipped(p.ix, ka, {t}, v.baseline);
    forall from: nat ensures !Noted(z.clock.log, from, {t}, v.baseline, a) {}
  }

  lemma DropForgets(w: Index, c: Entity, t: TypeId)
    requires Shaped(w) && c in w.loc && t in w.loc[c].key && w.loc[c].key in w.archs && w.loc[c].key != {}
    requires t in w.archs[w.loc[c].key].cols && w.archs[w.loc[c].key].cols[t].tracking
    ensures w.loc[c].key in Detach(w, c).archs && t in Detach(w, c).archs[w.loc[c].key].cols
    ensures Detach(w, c).archs[w.loc[c].key].cols[t].Max() == 0
  {
    assert Placed(w, c) && ArchOk(w, w.loc[c].key);
  }

  lemma {:induction false} MarksTimed(w: World, e: Entity, t: TypeId, n: nat)
    requires WorldOk(w) && Timed(w) && Has(w.ix, e, t)
    ensures Timed(Run(w, Marks(e, t, n)))
  {
    hide WorldOk, Timed, MarkChanged, Shaped, Evolves, ClockGrows;
    if n > 0 {
      var z := Run(w, Marks(e, t, n - 1));
      MarksTimed(w, e, t, n - 1);
      MarksThere(w, e, t, n - 1);
      assert Marks(e, t, n)[..|Marks(e, t, n)| - 1] == Marks(e, t, n - 1);
      MarkTicks(z, e, t);
    }
  }

  lemma MarksThere(w: World, e: Entity, t: TypeId, n: nat)
    requires WorldOk(w) && Has(w.ix, e, t)
    ensures var z := Run(w, Marks(e, t, n)); Shaped(z.ix) && Has(z.ix, e, t)
  {
    hide WorldOk, Tail, MarkChanged, Shaped, Run;
    MarksDrown(w, e, t, n);
    ShapedOf(Run(w, Marks(e, t, n)));
  }

  lemma Marked(w: World, a: Entity, t: TypeId)
    requires WorldOk(w) && Timed(w) && Has(w.ix, a, t)
    ensures var z := MarkChanged(w, a, t);
      WorldOk(z) && Timed(z) && z.ix.loc == w.ix.loc && z.depth == w.depth && z.clock.log != []
        && z.clock.logGen >= w.clock.logGen
      && t in CellsOf(z.ix, a) && CellsOf(z.ix, a)[t].tracked && CellsOf(z.ix, a)[t].version == BumpedTick(w.clock.tick)
  {
    hide Coherent, SlotsOk, IndexTimed, LogBacked, Stamp, CellsOf, MarkChanged;
    assert Shaped(w.ix) by { ShapedOf(w); }
    MarkChangedOk(w, a, t);
    MarkTicks(w, a, t);
    MarkClock(w, a, t);
    StampCells(w.ix, a, t, w.clock.tick, BumpedTick(w.clock.tick), a);
  }

  /** Destroying another row of the archetype leaves the changed row but resets the maximum. */
  lemma Removed(w: World, a: Entity, c: Entity, t: TypeId)
    requires WorldOk(w) && Timed(w) && w.depth <= 0 && a != c && Has(w.ix, a, t) && Has(w.ix, c, t)
      && w.ix.loc[a].key == w.ix.loc[c].key
    requires t in CellsOf(w.ix, a) && CellsOf(w.ix, a)[t].tracked
    ensures var z := Destroy(w, c);
      WorldOk(z) && Timed(z) && z.clock == w.clock && a in z.ix.loc && z.ix.loc[a].key == w.ix.loc[a].key
      && CellsOf(z.ix, a) == CellsOf(w.ix, a)
         && (forall baseline :: 0 <= baseline ==> Skipped(z.ix, z.ix.loc[a].key, {t}, baseline))
      && forall b :: b in w.ix.loc && b != c ==> b in z.ix.loc && z.ix.loc[b].key == w.ix.loc[b].key
  {
    hide WorldOk, Timed, CellsOf, Detach, FreeId, RemovedEvents, Shaped, Evolves, ClockGrows;
    assert Shaped(w.ix) by { ShapedOf(w); }
    DestroyOk(w, c);
    DetachTicks(w, Destroy(w, c), c);
    forall b | b in w.ix.loc && b != c
      ensures b in Detach(w.ix, c).loc && Detach(w.ix, c).loc[b].key == w.ix.loc[b].key
        && CellsOf(Detach(w.ix, c), b) == CellsOf(w.ix, b)
    {
      DetachCells(w.ix, c, b);
    }
    CellThere(w.ix, a, t);
    DropForgets(w.ix, c, t);
  }

  /** Change a row, remove another row of the same archetype, then write elsewhere until the log is compacted:
      the next take does not report the change, although a version scan would. */
  lemma RemovalLosesChange(w: World, v: Viewer, t: TypeId, a: Entity, c: Entity, b: Entity, u: TypeId)
    requires WorldOk(w) && Timed(w) && w.depth <= 0 && w.clock.tick < U64_MAX
    requires v.watched == {t} && 0 <= v.baseline <= w.clock.tick && v.logGen <= w.clock.logGen
    requires a != c && Has(w.ix, a, t) && Has(w.ix, c, t) && w.ix.loc[a].key == w.ix.loc[c].key
    requires Has(w.ix, b, u) && w.ix.loc[b].key != w.ix.loc[a].key
    ensures var z := Run(w, [OpMark(a, t), OpDestroy(c)] + Marks(b, u, CHANGE_LOG_SOFT_CAP));
      a in Scan(Prepared(z, v, [t]).ix, {t}, v.baseline) && a !in Found(z, v, [t])
  {
    hide Marks, WorldOk, CellsOf, TrackKeys, Skipped, Timed, Prepared, Found, MarkChanged, Destroy;
    var w1 := MarkChanged(w, a, t);
    var w2 := Destroy(w1, c);
    Marked(w, a, t);
    Removed(w1, a, c, t);
    TwoSteps(w, OpMark(a, t), OpDestroy(c));
    RunAppend(w, [OpMark(a, t), OpDestroy(c)], Marks(b, u, CHANGE_LOG_SOFT_CAP));
    MarksTimed(w2, b, u, CHANGE_LOG_SOFT_CAP);
    assert Newer(CellsOf(w2.ix, a), t, v.baseline);
    assert Dirty(w2.ix, {t}, v.baseline, a);
    TimedClock(w2);
    TimedClock(Run(w2, Marks(b, u, CHANGE_LOG_SOFT_CAP)));
    ForgottenIsLost(w2, v, t, a, b, u);
  }

  lemma TimedClock(w: World)
    requires Timed(w)
    ensures ClockOk(w.clock)
  {
  }

  lemma TwoSteps(w: World, x: Op, y: Op)
    ensures Run(w, [x, y]) == Apply(Apply(w, x), y)
  {
    hide Apply;
    assert [x, y][..1] == [x] && [x][..0] == [];
    assert Run(w, [x]) == Apply(Run(w, []), x);
  }

  // ------------------------------------------------------------------ a run that gets there

  const TWO_TYPES: Registry := [Schema(4, 4, [], false), Schema(4, 4, [], false)]

  /** Three entities; the first two hold type 1, the third holds type 2. */
  function Setup(): seq<Op> {
    [OpCreate, OpCreate, OpCreate, OpAdd(1, 1, None), OpAdd(2, 1, None), OpAdd(3, 2, None)]
  }

  ghost predicate Ready(w: World, n: nat, tick: Tick) {
    && WorldOk(w) && Timed(w) && w.depth == 0 && w.ix.reg == TWO_TYPES && w.slots == Slots(seq(n, i => 0), [], [])
    && w.clock.tick <= tick && w.ix.archs.Keys <= {{}, {1}, {2}}
  }

  lemma SetupCreate(w: World, n: nat)
    requires Ready(w, n, 1) && n < 3 && n + 1 !in Contents(w.ix)
    ensures Allowed(w, OpCreate) && Ready(Apply(w, OpCreate), n + 1, 1)
    ensures Contents(Apply(w, OpCreate).ix) == Contents(w.ix)[n + 1 := map[]]
  {
    hide WorldOk, Timed, Contents, Spawn;
    assert NextId(w.slots) == MakeEntity(n, 0) == n + 1;
    ContentsKeys(w.ix);
    CreateOk(w);
    ApplyTimed(w, OpCreate);
    assert Allocate(w.slots).generations == seq(n + 1, i => 0);
    SpawnClock(w.(slots := Allocate(w.slots)), n + 1);
  }

  lemma SpawnClock(w: World, e: Entity)
    ensures Spawn(w, e).ix.archs.Keys == w.ix.archs.Keys && Spawn(w, e).clock == w.clock
      && Spawn(w, e).slots == w.slots && Spawn(w, e).depth == w.depth && Spawn(w, e).ix.reg == w.ix.reg
  {
  }

  lemma AddTick(w: World, e: Entity, t: TypeId)
    ensures AddRaw(w, e, t, None).clock.tick <= w.clock.tick + 1
  {
    hide Put, Ensure, Move, Payload;
  }

  lemma SetupAdd(w: World, e: Entity, t: TypeId, tick: Tick)
    requires Ready(w, 3, tick) && e in Contents(w.ix) && Contents(w.ix)[e] == map[] && 1 <= t <= 2
    ensures var z := Apply(w, OpAdd(e, t, None));
      Allowed(w, OpAdd(e, t, None)) && Ready(z, 3, tick + 1)
        && Contents(z.ix) == Contents(w.ix)[e := Contents(w.ix)[e][t := Zeros(4)]]
  {
    hide WorldOk, Timed, Contents, AddRaw;
    NoData(w.ix.reg, t);
    ApplyTimed(w, OpAdd(e, t, None));
    AddRawOk(w, e, t, None);
    AddRawKeeps(w, e, t, None);
    AddTick(w, e, t);
    KeyIsStored(w, e);
    AddKeys(w, e, t);
    var none: Comps := map[];
    assert none.Keys == {} && w.ix.loc[e].key + {t} == {t};
    assert t == 1 || t == 2;
  }

  lemma AddKeys(w: World, e: Entity, t: TypeId)
    requires WorldOk(w) && e in w.ix.loc
    ensures AddRaw(w, e, t, None).ix.archs.Keys <= w.ix.archs.Keys + {w.ix.loc[e].key + {t}}
  {
    hide Shaped, Sized, Detach, Attach, Payload, CellsOf, Registered;
    var m := Ensure(w.ix, w.ix.loc[e].key + {t});
    if Shaped(m) && e in m.loc {
      DetachOrder(m, e);
      AttachKeys(Detach(m, e), e, w.ix.loc[e].key + {t}, CellsOf(m, e), w.clock.tick);
    }
  }

  lemma AttachKeys(w: Index, e: Entity, to: Key, cells: map<TypeId, Cell>, tick: Tick)
    ensures Attach(w, e, to, cells, tick).archs.Keys == w.archs.Keys
  {
  }

  lemma SetupRuns()
    ensures AllAllowed(EmptyWorld(TWO_TYPES), Setup())
    ensures var w := Run(EmptyWorld(TWO_TYPES), Setup());
      Ready(w, 3, 4) && Contents(w.ix) == map[1 := map[1 := Zeros(4)], 2 := map[1 := Zeros(4)], 3 := map[2 := Zeros(4)]]
  {
    hide Ready, Apply, Allowed, AllAllowed, Run, Contents, EmptyWorld;
    var w := EmptyWorld(TWO_TYPES);
    Nothing();
    var ops := Setup();
    NoSteps(w, ops);
    assert ops[..6] == ops;
    SetupCreate(w, 0);
    NextStep(w, ops, 0, w);
    var w1 := Apply(w, OpCreate);
    SetupCreate(w1, 1);
    NextStep(w, ops, 1, w1);
    var w2 := Apply(w1, OpCreate);
    SetupCreate(w2, 2);
    NextStep(w, ops, 2, w2);
    var w3 := Apply(w2, OpCreate);
    SetupAdd(w3, 1, 1, 1);
    NextStep(w, ops, 3, w3);
    var w4 := Apply(w3, OpAdd(1, 1, None));
    SetupAdd(w4, 2, 1, 2);
    NextStep(w, ops, 4, w4);
    var w5 := Apply(w4, OpAdd(2, 1, None));
    SetupAdd(w5, 3, 2, 3);
    NextStep(w, ops, 5, w5);
  }

  lemma Nothing()
    ensures Ready(EmptyWorld(TWO_TYPES), 0, 1) && Contents(EmptyWorld(TWO_TYPES).ix) == map[]
  {
    EmptyWorldOk(TWO_TYPES);
    EmptyTimed(TWO_TYPES);
  }

  lemma KeyIsStored(w: World, e: Entity)
    requires WorldOk(w) && e in Contents(w.ix)
    ensures e in w.ix.loc && e != NO_ENTITY && w.ix.loc[e].key == Contents(w.ix)[e].Keys
  {
    hide Shaped, CellsOf;
    CoherentOf(w);
    LiveHandle(w.ix, e);
    KeyRegistered(w.ix, e);
  }

  /** A whole run from the empty world that loses a change: entity 1 is changed, entity 2 is destroyed, entity 3
      is written until the log is compacted; a view taken before any of it never hears of entity 1. */
  lemma LostForReal()
    ensures AllAllowed(EmptyWorld(TWO_TYPES), Setup())
    ensures var w := Run(EmptyWorld(TWO_TYPES), Setup()); var v := NewView(w, {1});
      var z := Run(w, [OpMark(1, 1), OpDestroy(2)] + Marks(3, 2, CHANGE_LOG_SOFT_CAP));
      1 in Scan(Prepared(z, v, [1]).ix, {1}, v.baseline) && 1 !in Found(z, v, [1])
  {
    hide WorldOk, Timed, Contents, EmptyWorld, Setup, Found, Prepared, Scan, Run, Marks, AllAllowed;
    var w := Run(EmptyWorld(TWO_TYPES), Setup());
    SetupRuns();
    KeyIsStored(w, 1);
    KeyIsStored(w, 2);
    KeyIsStored(w, 3);
    TimedClock(w);
    RemovalLosesChange(w, NewView(w, {1}), 1, 1, 2, 3, 2);
  }
}
