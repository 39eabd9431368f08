/** Structural commands: run one at a time, or queued through a deferred window and committed once. */
module Commands {
  import opened Base
  import opened Schema
  import opened Storage
  import opened StorageLaws
  import opened Operations

  datatype Command =
    | AddComponent(entity: Entity, t: TypeId, data: Option<Bytes>)
    | DropComponent(entity: Entity, t: TypeId)
    | AddEntity(entity: Entity)
    | RemoveEntity(entity: Entity)

  /** A write waiting for the end of the window: an add with its bytes (none means zeroes), or a removal. */
  datatype PendingOp = PendingAdd(t: TypeId, data: Option<Bytes>) | PendingDrop(t: TypeId)

  /** The open window: entities in the order they were first touched, their ops, and those marked to die. */
  datatype Window = Window(order: seq<Entity>, ops: map<Entity, seq<PendingOp>>, doomed: set<Entity>)

  const EMPTY_WINDOW := Window([], map[], {})

  // ------------------------------------------------------------------ one at a time

  ghost function RunOne(w: World, c: Command): World {
    match c
    case AddComponent(e, t, data) => AddRaw(w, e, t, data)
    case DropComponent(e, t) => RemoveComponent(w, e, t)
    case AddEntity(e) => if Alive(w.ix, e) then w else CreatePreassigned(w, e)
    case RemoveEntity(e) => Destroy(w, e)
  }

  ghost function RunAll(w: World, cs: seq<Command>): World
    decreases cs
  {
    if cs == [] then w else RunOne(RunAll(w, cs[..|cs| - 1]), cs[|cs| - 1])
  }

  // ------------------------------------------------------------------ through the window

  function Touch(d: Window, e: Entity): Window {
    if e in d.order then d else d.(order := d.order + [e])
  }

  function OpsOf(d: Window, e: Entity): seq<PendingOp> {
    if e in d.ops then d.ops[e] else []
  }

  function Queue(d: Window, e: Entity, op: PendingOp): Window {
    Touch(d.(ops := d.ops[e := OpsOf(d, e) + [op]]), e)
  }

  /** While the window is open a command only queues; creating an entity is immediate. */
  function Defer(w: World, d: Window, c: Command): (World, Window) {
    match c
    case AddComponent(e, t, data) =>
      (w, if Alive(w.ix, e) && Registered(w.ix.reg, t)
          then Queue(d, e, PendingAdd(t, if data.Some? then Some(Payload(w.ix.reg, t, data)) else None)) else d)
    case DropComponent(e, t) => (w, if Alive(w.ix, e) then Queue(d, e, PendingDrop(t)) else d)
    case AddEntity(e) => (if Alive(w.ix, e) then w else CreatePreassigned(w, e), d)
    case RemoveEntity(e) => (w, if Alive(w.ix, e) then Touch(d.(doomed := d.doomed + {e}), e) else d)
  }

  function DeferAll(w: World, d: Window, cs: seq<Command>): (World, Window)
    decreases cs
  {
    if cs == [] then (w, d) else
      var (w1, d1) := DeferAll(w, d, cs[..|cs| - 1]);
      Defer(w1, d1, cs[|cs| - 1])
  }

  /** The component set the ops leave: the single source of truth for the move. */
  function FinalSet(key: Key, ops: seq<PendingOp>): Key {
    if ops == [] then key else
      var before := FinalSet(key, ops[..|ops| - 1]);
      match ops[|ops| - 1]
      case PendingAdd(t, _) => before + {t}
      case PendingDrop(t) => before - {t}
  }

  /** The data of the last add of a type, if it was ever added. */
  function LastAdd(ops: seq<PendingOp>, t: TypeId): Option<Option<Bytes>> {
    if ops == [] then None else
      match ops[|ops| - 1]
      case PendingAdd(u, data) => if u == t then Some(data) else LastAdd(ops[..|ops| - 1], t)
      case PendingDrop(_) => LastAdd(ops[..|ops| - 1], t)
  }

  ghost function WriteAll(w: World, e: Entity, ids: seq<TypeId>, ops: seq<PendingOp>): World
    decreases ids
  {
    if ids == [] then w else
      var before := WriteAll(w, e, ids[..|ids| - 1], ops);
      var t := ids[|ids| - 1];
      var last := LastAdd(ops, t);
      if last.Some? then WriteCell(before, e, t, Payload(w.ix.reg, t, last.value)) else before
  }

  /** One event per type, against the original set. */
  function NetAdded(e: Entity, key: Key, ops: seq<PendingOp>, ids: seq<TypeId>): seq<Event> {
    if ids == [] then [] else
      var t := ids[|ids| - 1];
      NetAdded(e, key, ops, ids[..|ids| - 1])
      + if t !in key then [AddedEvent(e, t)] else if LastAdd(ops, t).Some? then [ChangedEvent(e, t)] else []
  }

  function NetRemoved(e: Entity, final: Key, ids: seq<TypeId>): seq<Event> {
    if ids == [] then [] else
      var t := ids[|ids| - 1];
      NetRemoved(e, final, ids[..|ids| - 1]) + if t !in final then [RemovedEvent(e, t)] else []
  }

  ghost function NetEvents(e: Entity, key: Key, final: Key, ops: seq<PendingOp>): seq<Event> {
    NetAdded(e, key, ops, SortedIds(final)) + NetRemoved(e, final, SortedIds(key))
  }

  /** At most one archetype move, then the surviving writes, then the net events. */
  ghost function Commit(w: World, e: Entity, ops: seq<PendingOp>): World {
    if e !in w.ix.loc || ops == [] then w else
      var key := w.ix.loc[e].key;
      var final := FinalSet(key, ops);
      var moved := if final != key then ChangeKey(w, e, final) else w;
      var written := WriteAll(moved, e, SortedIds(final), ops);
      written.(events := written.events + NetEvents(e, key, final, ops))
  }

  ghost function DestroyAll(w: World, d: Window, es: seq<Entity>): World
    decreases es
  {
    if es == [] then w else
      var before := DestroyAll(w, d, es[..|es| - 1]);
      if es[|es| - 1] in d.doomed then Destroy(before, es[|es| - 1]) else before
  }

  ghost function CommitAll(w: World, d: Window, es: seq<Entity>): World
    decreases es
  {
    if es == [] then w else
      var before := CommitAll(w, d, es[..|es| - 1]);
      var e := es[|es| - 1];
      if e in d.doomed then before else Commit(before, e, OpsOf(d, e))
  }

  ghost function Close(w: World, d: Window): World {
    CommitAll(DestroyAll(w, d, d.order), d, d.order)
  }

  /** Flushing a queue outside any iteration. */
  ghost function Flush(w: World, cs: seq<Command>): World {
    var (w1, d) := DeferAll(w, EMPTY_WINDOW, cs);
    Close(w1, d)
  }
}
