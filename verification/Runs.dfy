/** Whole runs of the world, snapshot loads and received packets included: every reachable state is coherent and
    every operation refines the abstract store. */
module Runs {
  import opened Base
  import opened Schema
  import opened Storage
  import opened StorageLaws
  import opened Operations
  import opened Commands
  import opened CommandLaws
  import opened SnapshotFormat
  import opened Snapshots
  import opened Replicas
  import opened Attempts
  import opened Receiving
  import Packets

  datatype Op =
    | OpCreate
    | OpCreateForeign(id: Entity)
    | OpCreatePooled
    | OpDestroy(e: Entity)
    | OpDestroyPooled(e: Entity)
    | OpAdd(e: Entity, t: TypeId, data: Option<Bytes>)
    | OpRemove(e: Entity, t: TypeId)
    | OpMark(e: Entity, t: TypeId)
    | OpTrack(key: Key, t: TypeId)
    | OpBeginIteration
    | OpEndIteration
    | OpClear(order: seq<Entity>)
    | OpCompact
    | OpFlush(cs: seq<Command>)
    | OpLoad(bytes: Bytes, order: seq<Entity>)
    | OpReceive(kind: Packets.Kind, packet: Bytes, replicated: set<Entity>, order: seq<Entity>)

  /** `deserialize_snapshot`: bytes that do not parse change nothing; others are loaded record by record, up to the
      first one the world refuses. */
  ghost function Load(w: World, bytes: Bytes, order: seq<Entity>): World {
    match Parse(w.ix.reg, bytes, 0)
    case None => w
    case Some(p) => TryRecords(Clear(w, order), p.value).0
  }

  ghost function Apply(w: World, op: Op): World {
    match op
    case OpCreate => Create(w)
    case OpCreateForeign(id) => CreatePreassigned(w, id)
    case OpCreatePooled => CreatePooled(w)
    case OpDestroy(e) => Destroy(w, e)
    case OpDestroyPooled(e) => DestroyPooled(w, e)
    case OpAdd(e, t, data) => AddRaw(w, e, t, data)
    case OpRemove(e, t) => RemoveComponent(w, e, t)
    case OpMark(e, t) => MarkChanged(w, e, t)
    case OpTrack(k, t) => w.(ix := Track(w.ix, k, t, w.clock.tick))
    case OpBeginIteration => w.(depth := w.depth + 1)
    case OpEndIteration => w.(depth := w.depth - 1)
    case OpClear(order) => Clear(w, order)
    case OpCompact => Compact(w)
    case OpFlush(cs) => if w.depth > 0 then w else Flush(w, cs)
    case OpLoad(bytes, order) => Load(w, bytes, order)
    case OpReceive(kind, data, replicated, order) => Received(w, replicated, kind, data, order).0
  }

  /** What the engine asks of its callers: payloads that cover their type, ids that fit 64 bits, well-formed field
      tables. Creation needs more than the caller can see: the id it is about to hand out must not be
      live. */
  ghost predicate Allowed(w: World, op: Op) {
    match op
    case OpCreate => NextId(w.slots) !in w.ix.loc
    case OpCreatePooled => PooledId(w.slots) !in w.ix.loc
    case OpCreateForeign(id) => IsHandle(id)
    case OpAdd(_, t, data) => DataOk(w.ix.reg, t, data)
    case OpClear(order) => forall e :: e in order <==> e in w.ix.loc
    case OpFlush(cs) => forall c :: c in cs ==> CommandOk(w.ix.reg, c)
    case OpLoad(_, order) => RegistryOk(w.ix.reg) && forall e :: e in order <==> e in w.ix.loc
    case OpReceive(_, _, replicated, order) => RegistryOk(w.ix.reg) && Elements(order) == replicated
    case _ => true
  }

  ghost function Run(w: World, ops: seq<Op>): World
    decreases ops
  {
    if ops == [] then w else Apply(Run(w, ops[..|ops| - 1]), ops[|ops| - 1])
  }

  ghost predicate AllAllowed(w: World, ops: seq<Op>)
    decreases ops
  {
    ops == [] || (AllAllowed(w, ops[..|ops| - 1]) && Allowed(Run(w, ops[..|ops| - 1]), ops[|ops| - 1]))
  }

  lemma NoSteps(start: World, ops: seq<Op>)
    ensures Run(start, ops[..0]) == start && AllAllowed(start, ops[..0])
  {
  }

  /** One more operation of a given run. */
  lemma NextStep(start: World, ops: seq<Op>, n: nat, w: World)
    requires n < |ops| && AllAllowed(start, ops[..n]) && Run(start, ops[..n]) == w && Allowed(w, ops[n])
    ensures Run(start, ops[..n + 1]) == Apply(w, ops[n]) && AllAllowed(start, ops[..n + 1])
  {
    hide Apply, Allowed;
    assert ops[..n + 1][..n] == ops[..n];
  }

  // ------------------------------------------------------------------ the abstract store

  /** The id an operation hands out. */
  function Issued(s: Slots, op: Op): Entity {
    if op.OpCreate? then NextId(s) else if op.OpCreatePooled? then PooledId(s) else NO_ENTITY
  }

  /** Loading replaces the whole store, or, while the world is iterated, adds bare entities. */
  ghost function StoreLoaded(reg: Registry, iterating: bool, store: Store, bytes: Bytes): Store {
    match Parse(reg, bytes, 0)
    case None => store
    case Some(p) => if iterating then BareRecords(store, p.value).0 else StoreOf(reg, p.value)
  }

  /** What an operation makes of one entity, told from the store alone. */
  ghost function OpOne(reg: Registry, iterating: bool, issued: Entity, op: Op, store: Store, e: Entity): Option<Comps> {
    var s := Lookup(store, e);
    match op
    case OpCreateForeign(id) => if e == id && AcceptsForeign(id) && s.None? then Some(map[]) else s
    case OpDestroy(x) => if e == x && !iterating then None else s
    case OpDestroyPooled(x) => if e == x && !iterating then None else s
    case OpAdd(x, t, data) =>
      if e == x && s.Some? && Registered(reg, t) && (!iterating || t in s.value)
      then Some(s.value[t := Payload(reg, t, data)]) else s
    case OpRemove(x, t) => if e == x && s.Some? && !iterating then Some(s.value - {t}) else s
    case OpClear(_) => if iterating then s else None
    case OpFlush(cs) => if iterating then s else Settled(reg, DefersOne(reg, e, Waiting(s, [], false), cs))
    case OpLoad(bytes, _) => Lookup(StoreLoaded(reg, iterating, store, bytes), e)
    case OpReceive(kind, data, replicated, _) => Lookup(StoreReceived(reg, iterating, store, replicated, kind, data), e)
    case _ => if e == issued && e != NO_ENTITY then Some(map[]) else s
  }

  ghost predicate Refines(w: World, op: Op) {
    forall e :: Lookup(Contents(Apply(w, op).ix), e) ==
                OpOne(w.ix.reg, w.depth > 0, Issued(w.slots, op), op, Contents(w.ix), e)
  }

  // ------------------------------------------------------------------ every operation

  lemma CreateRefines(w: World, op: Op)
    requires WorldOk(w) && (op.OpCreate? || op.OpCreateForeign? || op.OpCreatePooled?) && Allowed(w, op)
    ensures WorldOk(Apply(w, op)) && Refines(w, op)
  {
    hide WorldOk, Contents, NextId, PooledId, CreatePreassigned, Create, CreatePooled, AcceptsForeign;
    ContentsKeys(w.ix);
    if op.OpCreateForeign? {
      NoForeignZero();
      CreatePreassignedOk(w, op.id);
    } else if op.OpCreate? {
      CreateOk(w);
    } else {
      CreatePooledOk(w);
    }
  }

  lemma AddRefines(w: World, e: Entity, t: TypeId, data: Option<Bytes>)
    requires WorldOk(w) && DataOk(w.ix.reg, t, data)
    ensures WorldOk(AddRaw(w, e, t, data)) && Refines(w, OpAdd(e, t, data))
  {
    hide WorldOk, AddRaw, Contents, Registered, Payload, DataOk, NextId;
    AddRawOk(w, e, t, data);
    HasMeansStored(w, e, t);
    if w.depth > 0 && !Has(w.ix, e, t) { AddRawNothing(w, e, t, data); }
  }

  lemma AddRawNothing(w: World, e: Entity, t: TypeId, data: Option<Bytes>)
    requires w.depth > 0 && !Has(w.ix, e, t)
    ensures AddRaw(w, e, t, data) == w
  {
  }

  lemma RemoveRefines(w: World, e: Entity, t: TypeId)
    requires WorldOk(w)
    ensures WorldOk(RemoveComponent(w, e, t)) && Refines(w, OpRemove(e, t))
  {
    hide WorldOk, RemoveComponent, Contents, NextId;
    RemoveComponentOk(w, e, t);
    if w.depth > 0 { RemoveNothing(w, e, t); }
  }

  lemma RemoveNothing(w: World, e: Entity, t: TypeId)
    requires w.depth > 0
    ensures RemoveComponent(w, e, t) == w
  {
  }

  lemma HasMeansStored(w: World, e: Entity, t: TypeId)
    requires WorldOk(w)
    ensures Has(w.ix, e, t) <==> e in Contents(w.ix) && t in Contents(w.ix)[e]
  {
    hide Shaped, CellsOf;
    ShapedOf(w);
    if e in w.ix.loc {
      LiveHandle(w.ix, e);
      KeyRegistered(w.ix, e);
    }
  }

  lemma ClearNothing(w: World, order: seq<Entity>)
    requires w.depth > 0
    ensures Clear(w, order) == w
  {
  }

  /** Outside iteration nothing is refused. */
  lemma LoadIsWhole(w: World, bytes: Bytes, order: seq<Entity>)
    requires WorldOk(w) && Allowed(w, OpLoad(bytes, order)) && w.depth <= 0 && Parse(w.ix.reg, bytes, 0).Some?
    ensures var rs, z := Parse(w.ix.reg, bytes, 0).value.value, Clear(w, order);
      && LoadedFrom(z, w.ix.reg, []) && RecordsOk(w.ix.reg, rs)
      && TryRecords(z, rs) == (LoadRecords(z, rs), true) && Load(w, bytes, order) == LoadRecords(z, rs)
  {
    hide WorldOk, Clear, LoadRecords, Parse, RecordsOk, Contents, RegistryOk, StoreOf, RowsIn, LoadedFrom;
    ClearedIsEmpty(w, order);
    RecordsParsed(w.ix.reg, bytes);
    RecordsGoIn(Clear(w, order), w.ix.reg, Parse(w.ix.reg, bytes, 0).value.value);
  }

  /** Loading replaces the store by what the bytes describe; while the world is iterated it is not cleared, and bare
      entities appear up to the first record that is refused. */
  lemma LoadOk(w: World, bytes: Bytes, order: seq<Entity>)
    requires WorldOk(w) && Allowed(w, OpLoad(bytes, order))
    ensures var v := Load(w, bytes, order);
      WorldOk(v) && Contents(v.ix) == StoreLoaded(w.ix.reg, w.depth > 0, Contents(w.ix), bytes)
  {
    hide WorldOk, Clear, LoadRecords, TryRecords, Parse, Contents, RegistryOk, StoreOf, RowsIn, PartOk, BareRecords,
      AcceptsForeign, IsHandle;
    if Parse(w.ix.reg, bytes, 0).Some? {
      var rs := Parse(w.ix.reg, bytes, 0).value.value;
      if w.depth <= 0 {
        LoadIsWhole(w, bytes, order);
        LoadRecordsOk(Clear(w, order), w.ix.reg, rs);
      } else {
        RecordsParsed(w.ix.reg, bytes);
        ClearNothing(w, order);
        forall i | 0 <= i < |rs| ensures IsHandle(rs[i].id) { assert RecordOk(w.ix.reg, rs[i]); }
        RecordsBare(w, rs);
      }
    }
  }

  /** What loading accepted bytes into a world that is iterated reports, and when it does nothing: it succeeds if and
      only if no record has a component or a live id, and otherwise leaves bare entities behind unless the first id is
      live. */
  lemma LoadIteratingIff(w: World, bytes: Bytes, order: seq<Entity>)
    requires WorldOk(w) && Allowed(w, OpLoad(bytes, order)) && w.depth > 0 && Parse(w.ix.reg, bytes, 0).Some?
    ensures var rs := Parse(w.ix.reg, bytes, 0).value.value; var v := Load(w, bytes, order);
      && (TryRecords(Clear(w, order), rs).1 <==>
          forall i :: 0 <= i < |rs| ==> rs[i].parts == [] && rs[i].id !in w.ix.loc)
      && (Contents(v.ix) == Contents(w.ix) <==> rs == [] || rs[0].id in w.ix.loc)
  {
    hide WorldOk, Clear, LoadRecords, TryRecords, Parse, Contents, RegistryOk, StoreOf, RowsIn, PartOk, BareRecords,
      AcceptsForeign, IsHandle;
    var rs := Parse(w.ix.reg, bytes, 0).value.value;
    RecordsParsed(w.ix.reg, bytes);
    ClearNothing(w, order);
    forall i | 0 <= i < |rs| ensures IsHandle(rs[i].id) { assert RecordOk(w.ix.reg, rs[i]); }
    RecordsBare(w, rs);
    BareIff(Contents(w.ix), w.ix.reg, rs);
    ContentsKeys(w.ix);
  }

  lemma RecordsParsed(reg: Registry, bytes: Bytes)
    requires Parse(reg, bytes, 0).Some?
    ensures RecordsOk(reg, Parse(reg, bytes, 0).value.value)
  {
    hide ParseRecords, RecordsOk, ReadInt;
    var version := ReadInt(bytes, 0, 2).value;
    var n := ReadInt(bytes, version.pos, 4).value;
    ParsedRecords(reg, bytes, n.pos, n.value);
  }

  lemma DepthOk(w: World, depth: int)
    requires WorldOk(w)
    ensures WorldOk(w.(depth := depth))
  {
  }

  lemma TrackWorldOk(w: World, k: Key, t: TypeId)
    requires WorldOk(w)
    ensures var v := w.(ix := Track(w.ix, k, t, w.clock.tick)); WorldOk(v) && Contents(v.ix) == Contents(w.ix)
  {
    hide Coherent, SlotsOk, Track, Contents;
    TrackOk(w.ix, k, t, w.clock.tick);
  }

  /** Every operation keeps the world coherent and does to each entity what the abstract store says, and nothing to
      any other. */
  lemma StepRefines(w: World, op: Op)
    requires WorldOk(w) && Allowed(w, op)
    ensures WorldOk(Apply(w, op)) && Refines(w, op)
  {
    hide WorldOk, Create, CreatePreassigned, CreatePooled, Destroy, DestroyPooled, AddRaw, RemoveComponent,
      MarkChanged, Clear, Load, Received, Compact, Flush, DataOk, Track, Contents, NextId, PooledId, Registered,
      Payload, AcceptsForeign, DefersOne, Settled, CommandOk, StoreReceived, StoreLoaded, RegistryOk, Parse;
    match op
    case OpCreate => CreateRefines(w, op);
    case OpCreateForeign(id) => CreateRefines(w, op);
    case OpCreatePooled => CreateRefines(w, op);
    case OpDestroy(e) => DestroyOk(w, e);
    case OpDestroyPooled(e) => DestroyPooledOk(w, e);
    case OpAdd(e, t, data) => AddRefines(w, e, t, data);
    case OpRemove(e, t) => RemoveRefines(w, e, t);
    case OpMark(e, t) => MarkChangedOk(w, e, t);
    case OpClear(order) => if w.depth <= 0 { ClearOk(w, order); } else { ClearNothing(w, order); }
    case OpCompact => CompactOk(w);
    case OpFlush(cs) => if w.depth <= 0 { FlushOk(w, cs); }
    case OpTrack(k, t) => TrackWorldOk(w, k, t);
    case OpBeginIteration => DepthOk(w, w.depth + 1);
    case OpEndIteration => DepthOk(w, w.depth - 1);
    case OpLoad(bytes, order) => LoadOk(w, bytes, order);
    case OpReceive(kind, data, replicated, order) => ReceivedOk(w, replicated, kind, data, order);
  }

  /** Every reachable state is coherent, whatever foreign ids, snapshots and packets came in: locations, rows and row
      indexes are mutually inverse, and every live component holds exactly the bytes of its type. */
  lemma {:induction false} ReachableOk(reg: Registry, ops: seq<Op>)
    requires AllAllowed(EmptyWorld(reg), ops)
    ensures WorldOk(Run(EmptyWorld(reg), ops))
    decreases ops
  {
    hide WorldOk, Apply, Allowed, EmptyWorld, Refines;
    if ops == [] {
      EmptyWorldOk(reg);
    } else {
      ReachableOk(reg, ops[..|ops| - 1]);
      StepRefines(Run(EmptyWorld(reg), ops[..|ops| - 1]), ops[|ops| - 1]);
    }
  }
}
