/** The storage engine as values: what every world operation computes, written over archetypes keyed by
    their component set. The classes in module Engine are proved to compute these functions. */
module Storage {
  import opened Base
  import opened Schema

  type Key = set<TypeId>

  /** A freshly grown row holds no bytes until it is written: memory the engine leaves uninitialised. */
  const UNWRITTEN: Bytes := []

  const CHANGE_LOG_SOFT_CAP := 65536
  const MAX_FOREIGN_SLOT := 0x100_0000

  // ------------------------------------------------------------------- columns

  /** One component of one entity. */
  datatype Cell = Cell(bytes: Bytes, tracked: bool, version: Tick)

  datatype Col = Col(rows: seq<Bytes>, versions: seq<Tick>, tracking: bool, maxVersion: Tick) {
    ghost predicate Ok(n: nat) {
      |rows| == n && |versions| == (if tracking then n else 0)
    }

    function Version(i: nat): Tick {
      if tracking && i < |versions| then versions[i] else 0
    }

    function Max(): Tick {
      if tracking then maxVersion else 0
    }

    predicate ChangedSince(i: nat, baseline: Tick) {
      tracking && i < |versions| && versions[i] > baseline
    }

    function Grow(): Col {
      Col(rows + [UNWRITTEN], if tracking then versions + [0] else versions, tracking, maxVersion)
    }

    function SetVersion(i: nat, v: Tick): Col {
      if tracking && i < |versions|
      then this.(versions := versions[i := v], maxVersion := if v > maxVersion then v else maxVersion)
      else this
    }

    function EnsureVersions(tick: Tick): Col {
      if tracking then this
      else this.(tracking := true, versions := seq(|rows|, i => tick), maxVersion := tick)
    }

    /** Swap-remove; on the last row this is a plain pop, and an empty column has nothing to drop. Either
        way a tracked column forgets its maximum. */
    function Drop(i: nat): Col {
      if i >= |rows| || (tracking && |versions| != |rows|) then this else
        var n := |rows| - 1;
        Col(rows[i := rows[n]][..n],
            if tracking then versions[i := versions[n]][..n] else versions,
            tracking,
            if tracking then 0 else maxVersion)
    }

    function SetRow(i: nat, data: Bytes): Col
      requires i < |rows|
    {
      this.(rows := rows[i := data])
    }

    /** Row i takes over a cell brought from another archetype; a version survives only between tracked columns. */
    function Receive(i: nat, c: Cell): Col
      requires i < |rows|
    {
      var copied := SetRow(i, c.bytes);
      if tracking && c.tracked then copied.SetVersion(i, c.version) else copied
    }
  }

  // ---------------------------------------------------------------- archetypes

  datatype Arch = Arch(entities: seq<Entity>, enabled: seq<bool>, cols: map<TypeId, Col>, rowOf: map<Entity, nat>) {
    ghost predicate Ok() {
      && |enabled| == |entities|
      && (forall t {:trigger cols[t]} :: t in cols ==> cols[t].Ok(|entities|))
      && (forall r :: 0 <= r < |entities| ==> entities[r] in rowOf && rowOf[entities[r]] == r)
      && (forall e :: e in rowOf ==> rowOf[e] < |entities| && entities[rowOf[e]] == e)
    }

    function Added(e: Entity, tick: Tick): Arch {
      Arch(entities + [e], enabled + [true],
           map t | t in cols :: cols[t].Grow().SetVersion(|entities|, tick),
           rowOf[e := |entities|])
    }

    /** The entity that fills the hole, or none when the last row goes. */
    function Filler(e: Entity): Entity
      requires e in rowOf && entities != []
    {
      var n := |entities| - 1;
      if rowOf[e] != n then entities[n] else NO_ENTITY
    }

    function Removed(e: Entity): Arch
      requires Ok() && e in rowOf
    {
      var r := rowOf[e];
      var n := |entities| - 1;
      Arch(entities[r := entities[n]][..n], enabled[r := enabled[n]][..n],
           map t | t in cols :: cols[t].Drop(r),
           if r != n then (rowOf - {e})[entities[n] := r] else rowOf - {e})
    }
  }

  // --------------------------------------------------------------------- world

  datatype Loc = Loc(key: Key, row: nat)

  datatype LogEntry = LogEntry(entity: Entity, comp: TypeId, tick: Tick)

  datatype Event =
    | AddedEvent(e: Entity, t: TypeId)
    | RemovedEvent(e: Entity, t: TypeId)
    | ChangedEvent(e: Entity, t: TypeId)
    | ClearedEvent

  /** Where everything is; `order` is the archetype list. */
  datatype Index = Index(reg: Registry, loc: map<Entity, Loc>, archs: map<Key, Arch>, order: seq<Key>)

  /** The change clock and the write log. */
  datatype Clock = Clock(tick: Tick, log: seq<LogEntry>, logGen: nat)

  /** The id allocator: current generation per slot, slots to hand out again, ids parked for pooled reuse. */
  datatype Slots = Slots(generations: seq<int>, free: seq<int>, pool: seq<Entity>)

  /** `depth` counts running iterations. */
  datatype World = World(ix: Index, clock: Clock, slots: Slots, depth: int, events: seq<Event>)

  // -------------------------------------------------------------- coherence

  ghost predicate ArchOk(w: Index, k: Key)
    requires k in w.archs
  {
    var a := w.archs[k];
    && a.Ok()
    && a.cols.Keys == k
    && forall t :: t in k ==> Registered(w.reg, t)
  }

  ghost predicate RowOk(w: Index, k: Key, r: nat)
    requires k in w.archs && r < |w.archs[k].entities|
  {
    var e := w.archs[k].entities[r];
    e != NO_ENTITY && e in w.loc && w.loc[e] == Loc(k, r)
  }

  ghost predicate Placed(w: Index, e: Entity)
    requires e in w.loc
  {
    var l := w.loc[e];
    l.key in w.archs && l.row < |w.archs[l.key].entities| && w.archs[l.key].entities[l.row] == e
  }

  /** Locations, archetype rows and row indexes are mutually inverse; every column has one row per entity. */
  ghost predicate Shaped(w: Index) {
    && {} in w.archs
    && (forall k :: k in w.archs ==> ArchOk(w, k))
    && (forall k, r :: k in w.archs && 0 <= r < |w.archs[k].entities| ==> RowOk(w, k, r))
    && (forall e :: e in w.loc ==> Placed(w, e))
    && NoDup(w.order) && Elements(w.order) == w.archs.Keys
  }

  // ------------------------------------------------------------------- reading

  predicate Alive(w: Index, e: Entity) {
    e != NO_ENTITY && e in w.loc
  }

  predicate Has(w: Index, e: Entity, t: TypeId) {
    Alive(w, e) && t in w.loc[e].key
  }

  ghost predicate HasRow(w: Index, l: Loc) {
    l.key in w.archs && w.archs[l.key].cols.Keys == l.key
      && forall t :: t in l.key ==> l.row < |w.archs[l.key].cols[t].rows|
  }

  ghost function CellAt(w: Index, l: Loc, t: TypeId): Cell
    requires l.key in w.archs && t in w.archs[l.key].cols && l.row < |w.archs[l.key].cols[t].rows|
  {
    var c := w.archs[l.key].cols[t];
    Cell(c.rows[l.row], c.tracking, c.Version(l.row))
  }

  /** Everything stored for an entity; in a shaped world `HasRow` holds of every location. */
  ghost function CellsOf(w: Index, e: Entity): map<TypeId, Cell> {
    if e in w.loc && HasRow(w, w.loc[e]) then map t | t in w.loc[e].key :: CellAt(w, w.loc[e], t) else map[]
  }

  /** The abstract store: live entities, their components, their bytes. */
  type Store = map<Entity, map<TypeId, Bytes>>

  ghost function BytesIn(cells: map<TypeId, Cell>): map<TypeId, Bytes> {
    map t | t in cells :: cells[t].bytes
  }

  ghost function Contents(w: Index): Store {
    map e | e in w.loc :: BytesIn(CellsOf(w, e))
  }

  /** Every component of a live entity holds exactly the bytes of its type: nothing stays unwritten. */
  ghost predicate Sized(w: Index, e: Entity) {
    var cells := CellsOf(w, e);
    forall t :: t in cells ==> Registered(w.reg, t) && |cells[t].bytes| == SizeOf(w.reg, t)
  }

  ghost predicate Coherent(w: Index) {
    Shaped(w) && forall e :: e in w.loc ==> Sized(w, e)
  }

  // ------------------------------------------------------------- building blocks

  function EmptyWorld(reg: Registry): World {
    World(Index(reg, map[], map[{} := Arch([], [], map[], map[])], [{}]), Clock(1, [], 0), Slots([], [], []), 0, [])
  }

  function BumpedTick(tick: Tick): Tick {
    if tick < U64_MAX then tick + 1 else tick
  }

  /** Append one entry; past the soft cap the older half is dropped and the generation moves on. */
  function LogChange(c: Clock, e: Entity, t: TypeId): Clock {
    var log := c.log + [LogEntry(e, t, c.tick)];
    if |log| > CHANGE_LOG_SOFT_CAP
    then c.(log := log[|log| / 2..], logGen := c.logGen + 1)
    else c.(log := log)
  }

  function Ensure(w: Index, k: Key): Index {
    if k in w.archs then w
    else w.(archs := w.archs[k := Arch([], [], map t | t in k :: Col([], [], false, 0), map[])],
            order := w.order + [k])
  }

  function Filled(a: Arch, r: nat, cells: map<TypeId, Cell>): Arch {
    a.(cols := map t | t in a.cols :: if t in cells && r < |a.cols[t].rows| then a.cols[t].Receive(r, cells[t])
      else a.cols[t])
  }

  /** Append a row for e to an archetype, filling the columns it brings cells for. */
  function Attach(w: Index, e: Entity, to: Key, cells: map<TypeId, Cell>, tick: Tick): Index {
    if to !in w.archs then w else
      var r := |w.archs[to].entities|;
      w.(archs := w.archs[to := Filled(w.archs[to].Added(e, tick), r, cells)], loc := w.loc[e := Loc(to, r)])
  }

  function Relocated(loc: map<Entity, Loc>, moved: Entity, row: nat): map<Entity, Loc> {
    if moved != NO_ENTITY && moved in loc then loc[moved := loc[moved].(row := row)] else loc
  }

  /** Take a live entity out of its archetype and out of the index. */
  ghost function Detach(w: Index, e: Entity): Index {
    if !Shaped(w) || e !in w.loc then w else
      assert Placed(w, e) && ArchOk(w, w.loc[e].key);
      var l := w.loc[e];
      var a := w.archs[l.key];
      w.(archs := w.archs[l.key := a.Removed(e)], loc := Relocated(w.loc - {e}, a.Filler(e), l.row))
  }

  /** Move an entity to another archetype, taking along the cells both have. */
  ghost function Move(w: Index, e: Entity, to: Key, tick: Tick): Index {
    if !Shaped(w) || e !in w.loc || to !in w.archs || to == w.loc[e].key then w
    else Attach(Detach(w, e), e, to, CellsOf(w, e), tick)
  }

  function WithCol(w: Index, k: Key, t: TypeId, c: Col): Index {
    if k !in w.archs then w else w.(archs := w.archs[k := w.archs[k].(cols := w.archs[k].cols[t := c])])
  }

  /** The bytes written for some caller data: a prefix of the type's size, or zeroes for none. */
  function Payload(reg: Registry, t: TypeId, data: Option<Bytes>): Bytes {
    if !Registered(reg, t) then [] else
      match data
      case None => Zeros(SizeOf(reg, t))
      case Some(d) => if |d| >= SizeOf(reg, t) then d[..SizeOf(reg, t)] else d
  }

  /** Callers hand over at least as many bytes as the type holds. */
  predicate DataOk(reg: Registry, t: TypeId, data: Option<Bytes>) {
    Registered(reg, t) && data.Some? ==> |data.value| >= SizeOf(reg, t)
  }

  ghost predicate HasCell(w: Index, e: Entity, t: TypeId) {
    && e in w.loc && w.loc[e].key in w.archs && t in w.archs[w.loc[e].key].cols
    && w.loc[e].row < |w.archs[w.loc[e].key].cols[t].rows|
  }

  /** Overwrite one row and stamp it. */
  ghost function Put(w: Index, e: Entity, t: TypeId, data: Bytes, tick: Tick): Index {
    if !HasCell(w, e, t) then w else
      var l := w.loc[e];
      WithCol(w, l.key, t, w.archs[l.key].cols[t].SetRow(l.row, data).SetVersion(l.row, tick))
  }

  /** Turn version tracking on for one column, as change queries do. */
  function Track(w: Index, k: Key, t: TypeId, tick: Tick): Index {
    if k in w.archs && t in w.archs[k].cols then WithCol(w, k, t, w.archs[k].cols[t].EnsureVersions(tick)) else w
  }

  /** `mark_changed`: track the column if it was not (at the old tick), then stamp the row. */
  ghost function Stamp(w: Index, e: Entity, t: TypeId, now: Tick, tick: Tick): Index {
    if !HasCell(w, e, t) then w else
      var l := w.loc[e];
      WithCol(w, l.key, t, w.archs[l.key].cols[t].EnsureVersions(now).SetVersion(l.row, tick))
  }
}
