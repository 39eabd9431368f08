/** Flushing a queue through the deferred window means the same as running its commands one at a time,
    exactly when no command revives an entity the queue has removed. */
module CommandLaws {
  import opened Base
  import opened Schema
  import opened Storage
  import opened StorageLaws
  import opened Operations
  import opened Commands

  type Comps = map<TypeId, Bytes>

  function Lookup(s: Store, e: Entity): Option<Comps> {
    if e in s then Some(s[e]) else None
  }

  /** A handle is a 64-bit word and a payload covers its type. */
  predicate CommandOk(reg: Registry, c: Command) {
    IsHandle(c.entity) && (c.AddComponent? ==> DataOk(reg, c.t, c.data))
  }

  // ------------------------------------------------------------------ one entity's view of a queue

  function StepOne(reg: Registry, e: Entity, s: Option<Comps>, c: Command): Option<Comps> {
    if c.entity != e then s else
      match c
      case AddComponent(_, t, data) =>
        if s.Some? && Registered(reg, t) then Some(s.value[t := Payload(reg, t, data)]) else s
      case DropComponent(_, t) => if s.Some? then Some(s.value - {t}) else s
      case AddEntity(_) => if s.None? && AcceptsForeign(e) then Some(map[]) else s
      case RemoveEntity(_) => None
  }

  function StepsOne(reg: Registry, e: Entity, s: Option<Comps>, cs: seq<Command>): Option<Comps>
    decreases cs
  {
    if cs == [] then s else StepOne(reg, e, StepsOne(reg, e, s, cs[..|cs| - 1]), cs[|cs| - 1])
  }

  lemma RunOk(w: World, c: Command)
    requires WorldOk(w) && w.depth <= 0 && CommandOk(w.ix.reg, c)
    ensures var v := RunOne(w, c);
      WorldOk(v) && v.depth == w.depth && v.ix.reg == w.ix.reg
      && forall e :: Lookup(Contents(v.ix), e) == StepOne(w.ix.reg, e, Lookup(Contents(w.ix), e), c)
  {
    hide Shaped, Sized, AddRaw, RemoveComponent, Destroy, CreatePreassigned, SlotsOk, Payload, Registered, CellsOf,
      BytesIn, AcceptsForeign, IsHandle, DataOk;
    var e := c.entity;
    if e in w.ix.loc { LiveHandle(w.ix, e); }
    match c {
      case AddComponent(_, t, data) => AddRawOk(w, e, t, data);
      case DropComponent(_, t) => RemoveComponentOk(w, e, t);
      case AddEntity(_) =>
        CreatePreassignedOk(w, e);
        CreatePreassignedKeeps(w, e);
        assert e == NO_ENTITY ==> !AcceptsForeign(e) by { NoForeignZero(); }
      case RemoveEntity(_) =>
        DestroyOk(w, e);
        DestroyKeeps(w, e);
    }
  }

  lemma NoForeignZero()
    ensures !AcceptsForeign(NO_ENTITY)
  {
  }

  lemma CreatePreassignedKeeps(w: World, id: Entity)
    ensures CreatePreassigned(w, id).ix.reg == w.ix.reg && CreatePreassigned(w, id).depth == w.depth
  {
  }

  lemma DestroyKeeps(w: World, e: Entity)
    ensures Destroy(w, e).ix.reg == w.ix.reg && Destroy(w, e).depth == w.depth
  {
  }

  /** Running a queue one command at a time is, for each entity, running that entity's commands. */
  lemma {:induction false} RunAllOk(w: World, cs: seq<Command>)
    requires WorldOk(w) && w.depth <= 0 && forall c :: c in cs ==> CommandOk(w.ix.reg, c)
    ensures var v := RunAll(w, cs);
      WorldOk(v) && v.depth == w.depth && v.ix.reg == w.ix.reg
      && forall e :: Lookup(Contents(v.ix), e) == StepsOne(w.ix.reg, e, Lookup(Contents(w.ix), e), cs)
    decreases cs
  {
    hide WorldOk, RunOne, Contents, StepOne, CommandOk;
    if cs != [] {
      RunAllOk(w, cs[..|cs| - 1]);
      RunOk(RunAll(w, cs[..|cs| - 1]), cs[|cs| - 1]);
    }
  }

  // ------------------------------------------------------------------ one entity's view of the window

  /** What the window holds for one entity: its components at the time, its queued ops, whether it must die. */
  datatype Waiting = Waiting(comps: Option<Comps>, ops: seq<PendingOp>, doomed: bool)

  function DeferOne(reg: Registry, e: Entity, p: Waiting, c: Command): Waiting {
    if c.entity != e then p else
      match c
      case AddComponent(_, t, data) =>
        if p.comps.Some? && Registered(reg, t)
        then p.(ops := p.ops + [PendingAdd(t, if data.Some? then Some(Payload(reg, t, data)) else None)]) else p
      case DropComponent(_, t) => if p.comps.Some? then p.(ops := p.ops + [PendingDrop(t)]) else p
      case AddEntity(_) => if p.comps.None? && AcceptsForeign(e) then p.(comps := Some(map[])) else p
      case RemoveEntity(_) => if p.comps.Some? then p.(doomed := true) else p
  }

  function DefersOne(reg: Registry, e: Entity, p: Waiting, cs: seq<Command>): Waiting
    decreases cs
  {
    if cs == [] then p else DeferOne(reg, e, DefersOne(reg, e, p, cs[..|cs| - 1]), cs[|cs| - 1])
  }

  function View(s: Store, d: Window, e: Entity): Waiting {
    Waiting(Lookup(s, e), OpsOf(d, e), e in d.doomed)
  }

  /** Every touched entity is queued for the commit exactly once. */
  ghost predicate WindowOk(d: Window) {
    && NoDup(d.order)
    && (forall e :: e in d.doomed || OpsOf(d, e) != [] ==> e in d.order)
    && (forall e :: e in d.ops ==> d.ops[e] != [])
  }

  /** Queued ops name registered types and carry exactly their bytes. */
  predicate OpsOk(reg: Registry, ops: seq<PendingOp>) {
    forall i :: 0 <= i < |ops| && ops[i].PendingAdd? ==>
      Registered(reg, ops[i].t) && |Payload(reg, ops[i].t, ops[i].data)| == SizeOf(reg, ops[i].t)
  }

  lemma EmptyWindowOk(reg: Registry)
    ensures WindowOk(EMPTY_WINDOW) && forall e :: OpsOk(reg, OpsOf(EMPTY_WINDOW, e))
  {
  }

  /** Truncating to the size of the type happens once. */
  lemma PayloadTwice(reg: Registry, t: TypeId, data: Option<Bytes>)
    requires Registered(reg, t) && DataOk(reg, t, data)
    ensures |Payload(reg, t, data)| == SizeOf(reg, t)
    ensures Payload(reg, t, if data.Some? then Some(Payload(reg, t, data)) else None) == Payload(reg, t, data)
  {
  }

  lemma DeferKeepsOps(w: World, d: Window, c: Command)
    requires (c.AddComponent? ==> DataOk(w.ix.reg, c.t, c.data)) && forall e :: OpsOk(w.ix.reg, OpsOf(d, e))
    ensures forall e :: OpsOk(w.ix.reg, OpsOf(Defer(w, d, c).1, e))
  {
    hide Payload, Registered, SizeOf, CreatePreassigned, Alive, DataOk;
    if c.AddComponent? && Registered(w.ix.reg, c.t) { PayloadTwice(w.ix.reg, c.t, c.data); }
    forall e ensures OpsOk(w.ix.reg, OpsOf(Defer(w, d, c).1, e)) { assert OpsOk(w.ix.reg, OpsOf(d, e)); }
  }

  lemma QueueOk(d: Window, e: Entity, op: PendingOp)
    requires WindowOk(d)
    ensures WindowOk(Queue(d, e, op)) && Queue(d, e, op).doomed == d.doomed
    ensures forall x :: OpsOf(Queue(d, e, op), x) == if x == e then OpsOf(d, x) + [op] else OpsOf(d, x)
  {
  }

  lemma QueuedOpsOk(reg: Registry, d: Window, e: Entity, op: PendingOp)
    requires (forall x :: OpsOk(reg, OpsOf(d, x))) && OpsOk(reg, [op])
    ensures forall x :: OpsOk(reg, OpsOf(Queue(d, e, op), x))
  {
    hide Payload, Registered, SizeOf;
    assert [op][0] == op;
    forall x ensures OpsOk(reg, OpsOf(Queue(d, e, op), x)) {
      assert OpsOk(reg, OpsOf(d, x));
      assert OpsOf(Queue(d, e, op), x) == if x == e then OpsOf(d, e) + [op] else OpsOf(d, x);
    }
  }

  lemma DoomOk(d: Window, e: Entity)
    requires WindowOk(d)
    ensures var v := Touch(d.(doomed := d.doomed + {e}), e);
      WindowOk(v) && v.doomed == d.doomed + {e} && forall x :: OpsOf(v, x) == OpsOf(d, x)
  {
  }

  lemma DeferOk(w: World, d: Window, c: Command)
    requires WorldOk(w) && w.depth <= 0 && CommandOk(w.ix.reg, c) && WindowOk(d)
    ensures var (v, d') := Defer(w, d, c);
      WorldOk(v) && v.depth == w.depth && v.ix.reg == w.ix.reg && WindowOk(d')
      && forall e :: View(Contents(v.ix), d', e) == DeferOne(w.ix.reg, e, View(Contents(w.ix), d, e), c)
  {
    hide WindowOk, Queue, Touch, OpsOf, Coherent, SlotsOk, CreatePreassigned, Payload, Registered, Contents,
      AcceptsForeign, IsHandle, DataOk;
    var e := c.entity;
    ContentsKeys(w.ix);
    assert e in w.ix.loc ==> e != NO_ENTITY by { HandleIsLive(w, e); }
    match c {
      case AddComponent(_, t, data) =>
        QueueOk(d, e, PendingAdd(t, if data.Some? then Some(Payload(w.ix.reg, t, data)) else None));
      case DropComponent(_, t) => QueueOk(d, e, PendingDrop(t));
      case RemoveEntity(_) => DoomOk(d, e);
      case AddEntity(_) =>
        CreatePreassignedOk(w, e);
        CreatePreassignedKeeps(w, e);
        assert e == NO_ENTITY ==> !AcceptsForeign(e) by { NoForeignZero(); }
    }
  }

  lemma HandleIsLive(w: World, e: Entity)
    requires WorldOk(w)
    ensures e in w.ix.loc ==> e != NO_ENTITY
  {
    if e in w.ix.loc { LiveHandle(w.ix, e); }
  }

  lemma {:induction false} DeferAllOk(w: World, d: Window, cs: seq<Command>)
    requires WorldOk(w) && w.depth <= 0 && WindowOk(d) && forall c :: c in cs ==> CommandOk(w.ix.reg, c)
    requires forall e :: OpsOk(w.ix.reg, OpsOf(d, e))
    ensures var (v, d') := DeferAll(w, d, cs);
      (forall e :: OpsOk(w.ix.reg, OpsOf(d', e))) && WorldOk(v) && v.depth == w.depth && v.ix.reg == w.ix.reg
        && WindowOk(d')
      && forall e :: View(Contents(v.ix), d', e) == DefersOne(w.ix.reg, e, View(Contents(w.ix), d, e), cs)
    decreases cs
  {
    hide WorldOk, Defer, Contents, DeferOne, DataOk, IsHandle, WindowOk, View, OpsOk, OpsOf;
    if cs != [] {
      DeferAllOk(w, d, cs[..|cs| - 1]);
      var (w1, d1) := DeferAll(w, d, cs[..|cs| - 1]);
      DeferOk(w1, d1, cs[|cs| - 1]);
      DeferKeepsOps(w1, d1, cs[|cs| - 1]);
    }
  }

  // ------------------------------------------------------------------ committing one entity

  /** The queued ops applied one after the other. */
  function ApplyOps(reg: Registry, comps: Comps, ops: seq<PendingOp>): Comps {
    if ops == [] then comps else
      var before := ApplyOps(reg, comps, ops[..|ops| - 1]);
      match ops[|ops| - 1]
      case PendingAdd(t, data) => before[t := Payload(reg, t, data)]
      case PendingDrop(t) => before - {t}
  }

  /** The collapsed form: the final set, each type with its last written bytes or the bytes it had. */
  predicate Collapsed(reg: Registry, comps: Comps, ops: seq<PendingOp>, r: Comps) {
    && r.Keys == FinalSet(comps.Keys, ops)
    && forall t :: t in r ==>
      if LastAdd(ops, t).Some? then r[t] == Payload(reg, t, LastAdd(ops, t).value) else t in comps && r[t] == comps[t]
  }

  /** Collapsing a batch of ops gives what the ops give in order: the last write of each surviving type wins. */
  lemma {:induction false} CollapseIsSequential(reg: Registry, comps: Comps, ops: seq<PendingOp>)
    ensures Collapsed(reg, comps, ops, ApplyOps(reg, comps, ops))
  {
    if ops != [] {
      CollapseIsSequential(reg, comps, ops[..|ops| - 1]);
    }
  }

  lemma CollapseUnique(reg: Registry, comps: Comps, ops: seq<PendingOp>, r: Comps)
    requires Collapsed(reg, comps, ops, r)
    ensures r == ApplyOps(reg, comps, ops)
  {
    hide Payload, FinalSet, LastAdd, ApplyOps;
    CollapseIsSequential(reg, comps, ops);
    var q := ApplyOps(reg, comps, ops);
    assert r.Keys == q.Keys;
    forall t | t in r ensures r[t] == q[t] {}
  }

  ghost function BytesAt(w: Index, e: Entity): Comps {
    BytesIn(CellsOf(w, e))
  }

  /** What one entity's bytes are once the listed types have been written. */
  ghost predicate WrittenTo(before: Comps, after: Comps, reg: Registry, ids: seq<TypeId>, ops: seq<PendingOp>) {
    && after.Keys == before.Keys
    && forall t :: t in before ==>
      after[t] == if t in ids && LastAdd(ops, t).Some? then Payload(reg, t, LastAdd(ops, t).value) else before[t]
  }

  lemma WriteBytes(w: World, e: Entity, t: TypeId, data: Bytes)
    requires Shaped(w.ix) && e in w.ix.loc && t in w.ix.loc[e].key
    ensures var v := WriteCell(w, e, t, data);
      Shaped(v.ix) && OnlyTouches(w.ix, v.ix, e) && v.ix.loc == w.ix.loc && v.ix.reg == w.ix.reg
      && v.depth == w.depth && v.slots == w.slots && v.events == w.events
      && BytesAt(v.ix, e) == BytesAt(w.ix, e)[t := data]
  {
    hide Shaped, CellsOf, OnlyTouches, Put, LogChange;
    WriteCellCells(w, e, t, data);
  }

  lemma Untouched(w: Index, e: Entity)
    ensures OnlyTouches(w, w, e)
  {
  }

  lemma {:induction false} WriteAllOk(w: World, e: Entity, ids: seq<TypeId>, ops: seq<PendingOp>)
    requires Shaped(w.ix) && e in w.ix.loc && forall t :: t in ids ==> t in w.ix.loc[e].key
    ensures var v := WriteAll(w, e, ids, ops);
      Shaped(v.ix) && OnlyTouches(w.ix, v.ix, e) && v.ix.loc == w.ix.loc && v.ix.reg == w.ix.reg
      && v.depth == w.depth && v.slots == w.slots && v.events == w.events
      && WrittenTo(BytesAt(w.ix, e), BytesAt(v.ix, e), w.ix.reg, ids, ops)
    decreases ids
  {
    hide Shaped, CellsOf, OnlyTouches, WriteCell, LastAdd, Payload, BytesAt;
    if ids == [] {
      Untouched(w.ix, e);
    } else {
      var front, t := ids[..|ids| - 1], ids[|ids| - 1];
      var last := LastAdd(ops, t);
      WriteAllOk(w, e, front, ops);
      var w1 := WriteAll(w, e, front, ops);
      assert forall u :: u in ids <==> u == t || u in front;
      if last.Some? {
        BytesAtKeys(w1.ix, e);
        WriteBytes(w1, e, t, Payload(w.ix.reg, t, last.value));
        TouchesTwice(w.ix, w1.ix, WriteAll(w, e, ids, ops).ix, e);
      }
    }
  }

  lemma {:induction false} FinalRegistered(reg: Registry, key: Key, ops: seq<PendingOp>)
    requires OpsOk(reg, ops) && forall t :: t in key ==> Registered(reg, t)
    ensures forall t :: t in FinalSet(key, ops) ==> Registered(reg, t)
    ensures forall t :: t in FinalSet(key, ops) && t !in key ==> LastAdd(ops, t).Some?
  {
    hide Registered, Payload, SizeOf;
    if ops != [] {
      FinalRegistered(reg, key, ops[..|ops| - 1]);
    }
  }

  lemma MovedBytes(w: World, e: Entity, to: Key)
    requires Shaped(w.ix) && e in w.ix.loc && to != w.ix.loc[e].key && forall t :: t in to ==> Registered(w.ix.reg, t)
    ensures var v := ChangeKey(w, e, to);
      Shaped(v.ix) && OnlyTouches(w.ix, v.ix, e) && v.ix.reg == w.ix.reg && v.ix.loc.Keys == w.ix.loc.Keys
        && v.ix.loc[e].key == to
      && v.depth == w.depth && v.slots == w.slots && v.events == w.events
      && BytesAt(v.ix, e).Keys == to && BytesAt(w.ix, e).Keys == w.ix.loc[e].key
      && forall t :: t in to && t in w.ix.loc[e].key ==> BytesAt(v.ix, e)[t] == BytesAt(w.ix, e)[t]
  {
    hide Shaped, CellsOf, OnlyTouches, Ensure, Move, Registered;
    ChangeKeyCells(w, e, to);
    ChangedKeyCells(w, e, to);
    KeyRegistered(w.ix, e);
    assert forall t :: t in to ==>
      ArrivedCell(CellsOf(w.ix, e), CellsOf(ChangeKey(w, e, to).ix, e)[t], t, w.clock.tick);
  }

  /** Committing one entity collapses its ops into one move and one write per surviving type. */
  lemma CommitCells(w: World, e: Entity, ops: seq<PendingOp>)
    requires Shaped(w.ix) && e in w.ix.loc && ops != [] && OpsOk(w.ix.reg, ops)
    ensures var v := Commit(w, e, ops);
      Shaped(v.ix) && OnlyTouches(w.ix, v.ix, e) && v.ix.reg == w.ix.reg && e in v.ix.loc
      && v.depth == w.depth && v.slots == w.slots
      && v.ix.loc[e].key == FinalSet(w.ix.loc[e].key, ops)
      && BytesAt(v.ix, e) == ApplyOps(w.ix.reg, BytesAt(w.ix, e), ops)
  {
    hide Shaped, CellsOf, OnlyTouches, WriteAll, ChangeKey, LastAdd, FinalSet, Payload, BytesAt, ApplyOps, Registered,
      NetEvents, OpsOk, Sorted;
    var key := w.ix.loc[e].key;
    var final := FinalSet(key, ops);
    KeyRegistered(w.ix, e);
    FinalRegistered(w.ix.reg, key, ops);
    var moved := if final != key then ChangeKey(w, e, final) else w;
    if final != key { MovedBytes(w, e, final); } else { Untouched(w.ix, e); BytesAtKeys(w.ix, e); }
    var ids := SortedIds(final);
    WriteAllOk(moved, e, ids, ops);
    TouchesTwice(w.ix, moved.ix, WriteAll(moved, e, ids, ops).ix, e);
    CollapseUnique(w.ix.reg, BytesAt(w.ix, e), ops, BytesAt(WriteAll(moved, e, ids, ops).ix, e));
  }

  lemma BytesAtKeys(w: Index, e: Entity)
    requires Shaped(w) && e in w.loc
    ensures BytesAt(w, e).Keys == w.loc[e].key
  {
    KeyRegistered(w, e);
  }

  ghost predicate CompsOk(reg: Registry, comps: Comps) {
    forall t :: t in comps ==> Registered(reg, t) && |comps[t]| == SizeOf(reg, t)
  }

  lemma {:induction false} ApplyOpsSized(reg: Registry, comps: Comps, ops: seq<PendingOp>)
    requires CompsOk(reg, comps) && OpsOk(reg, ops)
    ensures CompsOk(reg, ApplyOps(reg, comps, ops))
  {
    hide Payload, SizeOf, Registered;
    if ops != [] {
      ApplyOpsSized(reg, comps, ops[..|ops| - 1]);
    }
  }

  lemma SizedIsCompsOk(w: Index, e: Entity)
    ensures Sized(w, e) <==> CompsOk(w.reg, BytesAt(w, e))
  {
    hide CellsOf, SizeOf, Registered;
    if CompsOk(w.reg, BytesAt(w, e)) {
      forall t | t in CellsOf(w, e) ensures Registered(w.reg, t) && |CellsOf(w, e)[t].bytes| == SizeOf(w.reg, t) {
        assert BytesAt(w, e)[t] == CellsOf(w, e)[t].bytes;
      }
    }
  }

  lemma CommitOk(w: World, e: Entity, ops: seq<PendingOp>)
    requires WorldOk(w) && OpsOk(w.ix.reg, ops)
    ensures var v := Commit(w, e, ops);
      WorldOk(v) && v.ix.reg == w.ix.reg && v.depth == w.depth
      && forall x :: Lookup(Contents(v.ix), x) ==
                     (if x == e && x in Contents(w.ix) then Some(ApplyOps(w.ix.reg, Contents(w.ix)[e], ops))
                       else Lookup(Contents(w.ix), x))
  {
    hide Shaped, Sized, CellsOf, OnlyTouches, Commit, OpsOk, SlotsOk, Payload, CompsOk;
    if e in w.ix.loc && ops != [] {
      var v := Commit(w, e, ops);
      CommitCells(w, e, ops);
      SizedIsCompsOk(w.ix, e);
      SizedIsCompsOk(v.ix, e);
      assert Sized(w.ix, e);
      ApplyOpsSized(w.ix.reg, BytesAt(w.ix, e), ops);
      Rewritten(w.ix, v.ix, e);
    } else {
      CommitNothing(w, e, ops);
    }
  }

  lemma CommitNothing(w: World, e: Entity, ops: seq<PendingOp>)
    requires e !in w.ix.loc || ops == []
    ensures Commit(w, e, ops) == w
    ensures forall x :: ApplyOps(w.ix.reg, x, []) == x
  {
  }

  // ------------------------------------------------------------------ closing the window

  lemma {:induction false} DestroyAllOk(w: World, d: Window, es: seq<Entity>)
    requires WorldOk(w) && w.depth <= 0
    ensures var v := DestroyAll(w, d, es);
      WorldOk(v) && v.ix.reg == w.ix.reg && v.depth == w.depth
      && forall e :: Lookup(Contents(v.ix), e) == if e in es && e in d.doomed then None else Lookup(Contents(w.ix), e)
    decreases es
  {
    hide WorldOk, Contents, Destroy;
    if es != [] {
      var front, last := es[..|es| - 1], es[|es| - 1];
      DestroyAllOk(w, d, front);
      if last in d.doomed { DestroyOk(DestroyAll(w, d, front), last); DestroyKeeps(DestroyAll(w, d, front), last); }
      assert forall e :: e in es <==> e == last || e in front;
    }
  }

  lemma {:induction false} CommitAllOk(w: World, d: Window, es: seq<Entity>)
    requires WorldOk(w) && NoDup(es) && forall e :: OpsOk(w.ix.reg, OpsOf(d, e))
    ensures var v := CommitAll(w, d, es);
      WorldOk(v) && v.ix.reg == w.ix.reg && v.depth == w.depth
      && forall e :: Lookup(Contents(v.ix), e) ==
                     (if e in es && e !in d.doomed && e in Contents(w.ix)
                       then Some(ApplyOps(w.ix.reg, Contents(w.ix)[e], OpsOf(d, e)))
                      else Lookup(Contents(w.ix), e))
    decreases es
  {
    hide WorldOk, Contents, Commit, OpsOk, ApplyOps, OpsOf;
    if es != [] {
      var front, last := es[..|es| - 1], es[|es| - 1];
      CommitAllOk(w, d, front);
      if last !in d.doomed { CommitOk(CommitAll(w, d, front), last, OpsOf(d, last)); }
      assert forall e :: e in es <==> e == last || e in front;
      assert last !in front;
    }
  }

  /** What one entity is once the window has closed on it. */
  function Settled(reg: Registry, p: Waiting): Option<Comps> {
    if p.doomed || p.comps.None? then None else Some(ApplyOps(reg, p.comps.value, p.ops))
  }

  lemma CloseOk(w: World, d: Window)
    requires WorldOk(w) && w.depth <= 0 && WindowOk(d) && forall e :: OpsOk(w.ix.reg, OpsOf(d, e))
    ensures var v := Close(w, d);
      WorldOk(v) && v.ix.reg == w.ix.reg && v.depth == w.depth
      && forall e :: Lookup(Contents(v.ix), e) == Settled(w.ix.reg, View(Contents(w.ix), d, e))
  {
    hide WorldOk, Contents, OpsOk, CommitAll, DestroyAll, ApplyOps, OpsOf;
    DestroyAllOk(w, d, d.order);
    CommitAllOk(DestroyAll(w, d, d.order), d, d.order);
    NoOps();
  }

  lemma NoOps()
    ensures forall reg: Registry, x: Comps :: ApplyOps(reg, x, []) == x
  {
  }

  // ------------------------------------------------------------------ the two ways agree

  lemma FlushOk(w: World, cs: seq<Command>)
    requires WorldOk(w) && w.depth <= 0 && forall c :: c in cs ==> CommandOk(w.ix.reg, c)
    ensures var v := Flush(w, cs);
      WorldOk(v) && v.ix.reg == w.ix.reg && v.depth == w.depth
      && forall e ::
           Lookup(Contents(v.ix), e)
           == Settled(w.ix.reg, DefersOne(w.ix.reg, e, Waiting(Lookup(Contents(w.ix), e), [], false), cs))
  {
    hide WorldOk, Contents, CommandOk, Close, DeferAll, Settled, DefersOne, Payload, Registered;
    DeferAllOk(w, EMPTY_WINDOW, cs);
    var (w1, d) := DeferAll(w, EMPTY_WINDOW, cs);
    CloseOk(w1, d);
  }

  /** Until an entity is doomed, the window holds exactly what running the commands would give. */
  ghost predicate InStep(reg: Registry, p: Waiting, s: Option<Comps>) {
    && (p.doomed ==> p.comps.Some?)
    && (!p.doomed ==> s == if p.comps.None? then None else Some(ApplyOps(reg, p.comps.value, p.ops)))
    && (p.comps.None? ==> p.ops == [])
  }

  lemma StaysInStep(reg: Registry, e: Entity, p: Waiting, s: Option<Comps>, c: Command)
    requires InStep(reg, p, s) && CommandOk(reg, c)
    ensures InStep(reg, DeferOne(reg, e, p, c), StepOne(reg, e, s, c))
  {
    hide Payload, Registered, DataOk, AcceptsForeign;
    if c.AddComponent? && Registered(reg, c.t) { PayloadTwice(reg, c.t, c.data); }
    NoOps();
  }

  lemma {:induction false} EndsInStep(reg: Registry, e: Entity, p: Waiting, s: Option<Comps>, cs: seq<Command>)
    requires InStep(reg, p, s) && forall c :: c in cs ==> CommandOk(reg, c)
    ensures InStep(reg, DefersOne(reg, e, p, cs), StepsOne(reg, e, s, cs))
    decreases cs
  {
    hide InStep, DeferOne, StepOne, CommandOk;
    if cs != [] {
      var front := cs[..|cs| - 1];
      EndsInStep(reg, e, p, s, front);
      StaysInStep(reg, e, DefersOne(reg, e, p, front), StepsOne(reg, e, s, front), cs[|cs| - 1]);
    }
  }

  /** The queue removes e while it exists and later brings it back for good: RemoveEntity(e), then AddEntity(e)
      with no RemoveEntity(e) after it. Only an id the world accepts can come back. */
  ghost predicate Revived(cs: seq<Command>, e: Entity, live: bool) {
    AcceptsForeign(e) && exists i, j ::
      0 <= i < j < |cs| && cs[i] == RemoveEntity(e) && cs[j] == AddEntity(e)
      && (forall m :: j < m < |cs| ==> cs[m] != RemoveEntity(e))
      && (live || exists k :: 0 <= k < i && cs[k] == AddEntity(e))
  }

  /** Which of the e-level commands have happened, read off the queue. */
  ghost predicate Appeared(cs: seq<Command>, e: Entity, live: bool) {
    live || (AcceptsForeign(e) && exists k :: 0 <= k < |cs| && cs[k] == AddEntity(e))
  }

  ghost predicate Removed(cs: seq<Command>, e: Entity, live: bool) {
    exists i :: 0 <= i < |cs| && cs[i] == RemoveEntity(e) && Appeared(cs[..i], e, live)
  }

  ghost predicate EndsAlive(cs: seq<Command>, e: Entity, live: bool) {
    || (live && forall m :: 0 <= m < |cs| ==> cs[m] != RemoveEntity(e))
    || (AcceptsForeign(e)
        && exists j :: 0 <= j < |cs| && cs[j] == AddEntity(e) && forall m :: j < m < |cs| ==> cs[m] != RemoveEntity(e))
  }

  lemma {:induction false} ReadOff(reg: Registry, e: Entity, s: Option<Comps>, cs: seq<Command>)
    ensures var p := DefersOne(reg, e, Waiting(s, [], false), cs);
      && (p.comps.Some? <==> Appeared(cs, e, s.Some?))
      && (p.doomed <==> Removed(cs, e, s.Some?))
      && (StepsOne(reg, e, s, cs).Some? <==> EndsAlive(cs, e, s.Some?))
    decreases cs
  {
    hide AcceptsForeign, Registered, Payload, Appeared, Removed, EndsAlive;
    if cs == [] {
      ReadOffNothing(e, s.Some?);
    } else {
      var front, c := cs[..|cs| - 1], cs[|cs| - 1];
      ReadOff(reg, e, s, front);
      AppearedStep(front, c, e, s.Some?);
      RemovedStep(front, c, e, s.Some?);
      EndsAliveStep(front, c, e, s.Some?);
      assert front + [c] == cs;
    }
  }

  lemma ReadOffNothing(e: Entity, live: bool)
    ensures (Appeared([], e, live) <==> live) && !Removed([], e, live) && (EndsAlive([], e, live) <==> live)
  {
  }

  lemma AppearedStep(front: seq<Command>, c: Command, e: Entity, live: bool)
    ensures Appeared(front + [c], e, live) <==> Appeared(front, e, live) || (AcceptsForeign(e) && c == AddEntity(e))
  {
    hide AcceptsForeign;
    assert (front + [c])[|front|] == c;
    forall k | 0 <= k < |front| ensures (front + [c])[k] == front[k] {}
  }

  lemma RemovedStep(front: seq<Command>, c: Command, e: Entity, live: bool)
    ensures Removed(front + [c], e, live)
      <==> Removed(front, e, live) || (c == RemoveEntity(e) && Appeared(front, e, live))
  {
    hide Appeared;
    var cs := front + [c];
    assert cs[|front|] == c && cs[..|front|] == front;
    forall i | 0 <= i < |front| ensures cs[i] == front[i] && cs[..i] == front[..i] {}
  }

  lemma EndsAliveStep(front: seq<Command>, c: Command, e: Entity, live: bool)
    ensures EndsAlive(front + [c], e, live) <==>
      (c == AddEntity(e) && AcceptsForeign(e)) || (c != RemoveEntity(e) && EndsAlive(front, e, live))
  {
    hide AcceptsForeign;
    var cs := front + [c];
    assert cs[|front|] == c;
    forall i | 0 <= i < |front| ensures cs[i] == front[i] {}
  }

  lemma RevivedReads(cs: seq<Command>, e: Entity, live: bool)
    requires Removed(cs, e, live) && EndsAlive(cs, e, live)
    ensures Revived(cs, e, live)
  {
    hide AcceptsForeign;
    var i :| 0 <= i < |cs| && cs[i] == RemoveEntity(e) && Appeared(cs[..i], e, live);
    var j :| 0 <= j < |cs| && cs[j] == AddEntity(e) && forall m :: j < m < |cs| ==> cs[m] != RemoveEntity(e);
    assert i < j;
    if !live {
      var k :| 0 <= k < |cs[..i]| && cs[..i][k] == AddEntity(e);
      assert cs[k] == AddEntity(e);
    }
  }

  lemma RevivedReadOff(cs: seq<Command>, e: Entity, live: bool)
    ensures Revived(cs, e, live) <==> Removed(cs, e, live) && EndsAlive(cs, e, live)
  {
    hide AcceptsForeign;
    if Removed(cs, e, live) && EndsAlive(cs, e, live) { RevivedReads(cs, e, live); }
    if Revived(cs, e, live) {
      var i, j :| 0 <= i < j < |cs| && cs[i] == RemoveEntity(e) && cs[j] == AddEntity(e)
        && (forall m :: j < m < |cs| ==> cs[m] != RemoveEntity(e))
        && (live || exists k :: 0 <= k < i && cs[k] == AddEntity(e));
      if !live {
        var k :| 0 <= k < i && cs[k] == AddEntity(e);
        assert cs[..i][k] == AddEntity(e);
      }
      assert Appeared(cs[..i], e, live);
    }
  }

  /** Flushing the queue and running it command by command agree on an entity unless the queue revives it;
      then the flush has destroyed what the run has recreated. */
  lemma FlushAgrees(w: World, cs: seq<Command>, e: Entity)
    requires WorldOk(w) && w.depth <= 0 && forall c :: c in cs ==> CommandOk(w.ix.reg, c)
    ensures Lookup(Contents(Flush(w, cs).ix), e) == Lookup(Contents(RunAll(w, cs).ix), e)
      <==> !Revived(cs, e, e in w.ix.loc)
  {
    hide WorldOk, Contents, CommandOk, DefersOne, StepsOne, Flush, RunAll, Removed, EndsAlive, Revived, ApplyOps;
    var reg, s := w.ix.reg, Lookup(Contents(w.ix), e);
    assert s.Some? <==> e in w.ix.loc by { ContentsKeys(w.ix); }
    FlushOk(w, cs);
    RunAllOk(w, cs);
    NoOps();
    EndsInStep(reg, e, Waiting(s, [], false), s, cs);
    ReadOff(reg, e, s, cs);
    RevivedReadOff(cs, e, s.Some?);
  }

  lemma ContentsKeys(w: Index)
    ensures Contents(w).Keys == w.loc.Keys
  {
  }

  /** The whole store comes out the same if and only if the queue revives no entity. */
  lemma FlushMeansRun(w: World, cs: seq<Command>)
    requires WorldOk(w) && w.depth <= 0 && forall c :: c in cs ==> CommandOk(w.ix.reg, c)
    ensures Contents(Flush(w, cs).ix) == Contents(RunAll(w, cs).ix) <==> forall e :: !Revived(cs, e, e in w.ix.loc)
  {
    hide WorldOk, Contents, CommandOk, Flush, RunAll, Revived;
    forall e
      ensures Lookup(Contents(Flush(w, cs).ix), e) == Lookup(Contents(RunAll(w, cs).ix), e)
        <==> !Revived(cs, e, e in w.ix.loc)
    {
      FlushAgrees(w, cs, e);
    }
    SameStores(Contents(Flush(w, cs).ix), Contents(RunAll(w, cs).ix));
  }

  lemma SameStores(a: Store, b: Store)
    ensures a == b <==> forall e :: Lookup(a, e) == Lookup(b, e)
  {
    if forall e :: Lookup(a, e) == Lookup(b, e) {
      forall e ensures (e in a <==> e in b) && (e in a ==> a[e] == b[e]) { assert Lookup(a, e) == Lookup(b, e); }
      assert a == b;
    }
  }

  /** The failing family in its smallest form: remove a live entity, then add the same id again. */
  lemma FlushLosesRevived(w: World, e: Entity)
    requires WorldOk(w) && w.depth <= 0 && IsHandle(e) && AcceptsForeign(e) && e in w.ix.loc
    ensures e in Contents(RunAll(w, [RemoveEntity(e), AddEntity(e)]).ix)
    ensures e !in Contents(Flush(w, [RemoveEntity(e), AddEntity(e)]).ix)
  {
    hide WorldOk, Contents, AcceptsForeign, ApplyOps;
    var cs := [RemoveEntity(e), AddEntity(e)];
    assert cs[..1] == [RemoveEntity(e)] && cs[..1][..0] == [];
    assert e in Contents(w.ix) by { ContentsKeys(w.ix); }
    FlushOk(w, cs);
    RunAllOk(w, cs);
    assert StepsOne(w.ix.reg, e, Lookup(Contents(w.ix), e), cs) == Some(map[]);
    var p := Waiting(Lookup(Contents(w.ix), e), [], false);
    assert DefersOne(w.ix.reg, e, p, cs[..1]) == DeferOne(w.ix.reg, e, p, cs[0]);
    assert DefersOne(w.ix.reg, e, p, cs).doomed;
  }

  lemma {:induction false} NetAddedExact(e: Entity, key: Key, ops: seq<PendingOp>, ids: seq<TypeId>)
    requires Sorted(ids)
    ensures var es := NetAdded(e, key, ops, ids);
      && NoDup(es)
      && forall v :: v in es <==>
        || (v.AddedEvent? && v.e == e && v.t in ids && v.t !in key)
        || (v.ChangedEvent? && v.e == e && v.t in ids && v.t in key && LastAdd(ops, v.t).Some?)
  {
    if ids != [] {
      var front, t := ids[..|ids| - 1], ids[|ids| - 1];
      NetAddedExact(e, key, ops, front);
      assert forall u :: u in ids <==> u in front || u == t;
      assert t !in front;
    }
  }

  lemma {:induction false} NetRemovedExact(e: Entity, final: Key, ids: seq<TypeId>)
    requires Sorted(ids)
    ensures var es := NetRemoved(e, final, ids);
      && NoDup(es)
      && forall v :: v in es <==> v.RemovedEvent? && v.e == e && v.t in ids && v.t !in final
  {
    if ids != [] {
      var front, t := ids[..|ids| - 1], ids[|ids| - 1];
      NetRemovedExact(e, final, front);
      assert forall u :: u in ids <==> u in front || u == t;
      assert t !in front;
    }
  }

  /** A commit announces each type at most once, and exactly its net change: Added for a type the entity
      gained, Changed for one it kept and had written, Removed for one it lost. */
  lemma NetEventsExact(e: Entity, key: Key, ops: seq<PendingOp>)
    ensures var final := FinalSet(key, ops); var es := NetEvents(e, key, final, ops);
      && NoDup(es)
      && forall v :: v in es <==>
        || (v.AddedEvent? && v.e == e && v.t in final - key)
        || (v.ChangedEvent? && v.e == e && v.t in final * key && LastAdd(ops, v.t).Some?)
        || (v.RemovedEvent? && v.e == e && v.t in key - final)
  {
    hide LastAdd, FinalSet, NetAdded, NetRemoved, Sorted;
    var gains := NetAdded(e, key, ops, SortedIds(FinalSet(key, ops)));
    var losses := NetRemoved(e, FinalSet(key, ops), SortedIds(key));
    NetAddedExact(e, key, ops, SortedIds(FinalSet(key, ops)));
    NetRemovedExact(e, FinalSet(key, ops), SortedIds(key));
    assert forall v :: v in gains + losses <==> v in gains || v in losses;
    forall i, j | 0 <= i < |gains| && 0 <= j < |losses| ensures gains[i] != losses[j] {
      assert gains[i] in gains && losses[j] in losses;
    }
  }

  /** What is gained or written comes before what is lost, each part by ascending type. */
  ghost predicate Precedes(a: Event, b: Event)
    requires !a.ClearedEvent? && !b.ClearedEvent?
  {
    if a.RemovedEvent? == b.RemovedEvent? then a.t < b.t else b.RemovedEvent?
  }

  ghost predicate InOrder(es: seq<Event>) {
    && (forall i :: 0 <= i < |es| ==> !es[i].ClearedEvent?)
    && forall i, j :: 0 <= i < j < |es| ==> Precedes(es[i], es[j])
  }

  ghost predicate Among(es: seq<Event>, ids: seq<TypeId>, lost: bool) {
    forall i :: 0 <= i < |es| ==> !es[i].ClearedEvent? && es[i].RemovedEvent? == lost && es[i].t in ids
  }

  lemma OneMoreInOrder(es: seq<Event>, ids: seq<TypeId>, t: TypeId, lost: bool, v: Event)
    requires InOrder(es) && Among(es, ids, lost) && Sorted(ids + [t])
    requires !v.ClearedEvent? && v.RemovedEvent? == lost && v.t == t
    ensures InOrder(es + [v]) && Among(es + [v], ids + [t], lost) && Among(es, ids + [t], lost)
  {
    var all := ids + [t];
    forall u | u in ids ensures u < t {
      var i :| 0 <= i < |ids| && ids[i] == u;
      assert all[i] < all[|ids|];
    }
  }

  lemma {:induction false} NetAddedInOrder(e: Entity, key: Key, ops: seq<PendingOp>, ids: seq<TypeId>)
    requires Sorted(ids)
    ensures InOrder(NetAdded(e, key, ops, ids)) && Among(NetAdded(e, key, ops, ids), ids, false)
  {
    hide LastAdd, InOrder, Among, Sorted;
    if ids == [] {
      assert InOrder([]) && Among([], ids, false) by { NothingInOrder(ids, false); }
    } else {
      var front, t := ids[..|ids| - 1], ids[|ids| - 1];
      assert ids == front + [t] && Sorted(front) by { SortedFront(ids); }
      NetAddedInOrder(e, key, ops, front);
      var es := NetAdded(e, key, ops, front);
      OneMoreInOrder(es, front, t, false, AddedEvent(e, t));
      OneMoreInOrder(es, front, t, false, ChangedEvent(e, t));
      assert es + [] == es;
    }
  }

  lemma NothingInOrder(ids: seq<TypeId>, lost: bool)
    ensures InOrder([]) && Among([], ids, lost)
  {
  }

  lemma SortedFront(ids: seq<TypeId>)
    requires Sorted(ids) && ids != []
    ensures Sorted(ids[..|ids| - 1]) && ids == ids[..|ids| - 1] + [ids[|ids| - 1]]
  {
  }

  lemma {:induction false} NetRemovedInOrder(e: Entity, final: Key, ids: seq<TypeId>)
    requires Sorted(ids)
    ensures InOrder(NetRemoved(e, final, ids)) && Among(NetRemoved(e, final, ids), ids, true)
  {
    hide InOrder, Among, Sorted;
    if ids == [] {
      assert InOrder([]) && Among([], ids, true) by { NothingInOrder(ids, true); }
    } else {
      var front, t := ids[..|ids| - 1], ids[|ids| - 1];
      assert ids == front + [t] && Sorted(front) by { SortedFront(ids); }
      NetRemovedInOrder(e, final, front);
      var es := NetRemoved(e, final, front);
      OneMoreInOrder(es, front, t, true, RemovedEvent(e, t));
      assert es + [] == es;
    }
  }

  /** A commit announces gains and writes first, then losses, each by ascending type. */
  lemma NetEventsInOrder(e: Entity, key: Key, ops: seq<PendingOp>)
    ensures InOrder(NetEvents(e, key, FinalSet(key, ops), ops))
  {
    hide LastAdd, FinalSet, NetAdded, NetRemoved, Sorted;
    NetAddedInOrder(e, key, ops, SortedIds(FinalSet(key, ops)));
    NetRemovedInOrder(e, FinalSet(key, ops), SortedIds(key));
  }

  /** Destroying announces exactly the types of the entity, by ascending type. */
  lemma RemovedInOrder(e: Entity, key: Key)
    ensures var es := RemovedEvents(e, key);
      InOrder(es) && forall v :: v in es <==> v.RemovedEvent? && v.e == e && v.t in key
  {
    var ids, es := SortedIds(key), RemovedEvents(e, key);
    forall v: Event | v.RemovedEvent? && v.e == e && v.t in key ensures v in es {
      assert v.t in ids;
      var i :| 0 <= i < |ids| && ids[i] == v.t;
      assert es[i] == v;
    }
  }
}
