/** The world as the engine keeps it: archetype objects, an entity index, the id allocator, the change log
    and the query cache. The ghost field `model` is the same state as a value; every method is proved to
    take the model through the operation of the same name. */
module Engine {
  import opened Base
  import opened Schema
  import S = Storage
  import opened StorageLaws
  import opened Operations
  import opened Columns
  import opened Queries
  import opened Commands
  import opened CommandLaws

  datatype Location = Location(archetype: Archetype, row: nat)

  ghost predicate Disjoint(a: Archetype, b: Archetype) {
    a.Key() != b.Key() && a.footprint !! b.footprint
  }

  /** The list and the map hold the same archetypes, keyed by their sorted ids; no two share anything. */
  ghost predicate Register(list: seq<Archetype>, byIds: map<seq<TypeId>, Archetype>, repr: set<object>,
                           empty: Archetype, world: object, cache: object)
  {
    && world !in repr && cache !in repr
    && (forall a :: a in list ==>
       a.Shape() && a.footprint <= repr && a.componentIds in byIds && byIds[a.componentIds] == a)
    && (forall a, b :: a in list && b in list && a != b ==> Disjoint(a, b))
    && (forall ids :: ids in byIds ==> byIds[ids] in list && byIds[ids].componentIds == ids)
    && empty in list && empty.componentIds == []
    && NoDup(list)
  }

  /** Adding a new archetype to the list and the map keeps both in step. */
  lemma GrownRegister(list: seq<Archetype>, byIds: map<seq<TypeId>, Archetype>, repr: set<object>,
                      empty: Archetype, world: object, cache: object, a: Archetype)
    requires Register(list, byIds, repr, empty, world, cache)
    requires a.Shape() && a.footprint !! repr && a.componentIds !in byIds && world !in a.footprint
      && cache !in a.footprint
    ensures Register(list + [a], byIds[a.componentIds := a], repr + a.footprint, empty, world, cache)
    ensures forall b :: b in list ==> b.Key() != a.Key()
  {
    forall b | b in list ensures Disjoint(a, b) && Disjoint(b, a) { KeyUnique(a, b); }
    assert a !in list;
  }

  lemma KeyUnique(a: Archetype, b: Archetype)
    requires a.Shape() && b.Shape() && a.componentIds != b.componentIds
    ensures a.Key() != b.Key()
  {
    if a.Key() == b.Key() {
      assert forall t :: t in a.componentIds <==> t in a.Key();
      assert forall t :: t in b.componentIds <==> t in b.Key();
      SortedUnique(a.componentIds, b.componentIds);
    }
  }

  ghost predicate ArchTied(a: Archetype, ix: S.Index)
    requires a.Shape()
    reads a.footprint
  {
    a.Key() in ix.archs && ix.archs[a.Key()] == a.View()
  }

  ghost predicate LocTied(locs: map<Entity, Location>, list: seq<Archetype>, ix: S.Index, e: Entity)
    requires e in locs
  {
    && locs[e].archetype in list
    && e in ix.loc && ix.loc[e] == S.Loc(locs[e].archetype.Key(), locs[e].row)
  }

  ghost predicate LocsTied(locs: map<Entity, Location>, list: seq<Archetype>, ix: S.Index) {
    ix.loc.Keys == locs.Keys && forall e :: e in locs ==> LocTied(locs, list, ix, e)
  }

  ghost predicate ListTied(reg: Registry, list: seq<Archetype>, ix: S.Index) {
    && ix.reg == reg
    && |ix.order| == |list|
    && forall i :: 0 <= i < |list| ==> ix.order[i] == list[i].Key()
  }

  function Relocated(locs: map<Entity, Location>, moved: Entity, row: nat): map<Entity, Location> {
    if moved != NO_ENTITY && moved in locs then locs[moved := locs[moved].(row := row)] else locs
  }

  lemma RelocatedTied(locs: map<Entity, Location>, list: seq<Archetype>, ix: S.Index, moved: Entity, row: nat,
                      after: S.Index)
    requires LocsTied(locs, list, ix) && after.loc == S.Relocated(ix.loc, moved, row)
    ensures LocsTied(Relocated(locs, moved, row), list, after)
  {
    forall x | x in Relocated(locs, moved, row) ensures LocTied(Relocated(locs, moved, row), list, after, x) {
      assert LocTied(locs, list, ix, x);
    }
  }

  lemma StoredTied(locs: map<Entity, Location>, list: seq<Archetype>, ix: S.Index, e: Entity, to: Archetype, row: nat,
                   after: S.Index)
    requires LocsTied(locs, list, ix) && to in list && after.loc == ix.loc[e := S.Loc(to.Key(), row)]
    ensures LocsTied(locs[e := Location(to, row)], list, after)
  {
    var moved := locs[e := Location(to, row)];
    forall x | x in moved ensures LocTied(moved, list, after, x) {
      if x != e { assert LocTied(locs, list, ix, x); }
    }
  }

  lemma GrownListTied(locs: map<Entity, Location>, list: seq<Archetype>, ix: S.Index, a: Archetype, after: S.Index)
    requires LocsTied(locs, list, ix) && after.loc == ix.loc
    ensures LocsTied(locs, list + [a], after)
  {
    forall x | x in locs ensures LocTied(locs, list + [a], after, x) { assert LocTied(locs, list, ix, x); }
  }

  /** The archetypes `compact` keeps, in list order. */
  ghost function KeptList(w: S.Index, list: seq<Archetype>): seq<Archetype> {
    if list == [] then [] else
      var rest := KeptList(w, list[..|list| - 1]);
      if Kept(w, list[|list| - 1].Key()) then rest + [list[|list| - 1]] else rest
  }

  lemma {:induction false} KeptMembers(w: S.Index, list: seq<Archetype>)
    ensures forall a :: a in KeptList(w, list) <==> a in list && Kept(w, a.Key())
  {
    if list != [] {
      KeptMembers(w, list[..|list| - 1]);
      assert list == list[..|list| - 1] + [list[|list| - 1]];
    }
  }

  /** The kept keys and the kept archetypes stay in step. */
  lemma {:induction false} KeptInStep(w: S.Index, order: seq<S.Key>, list: seq<Archetype>)
    requires |order| == |list| && forall i :: 0 <= i < |list| ==> order[i] == list[i].Key()
    ensures |KeptOrder(w, order)| == |KeptList(w, list)|
    ensures forall i :: 0 <= i < |KeptList(w, list)| ==> KeptOrder(w, order)[i] == KeptList(w, list)[i].Key()
  {
    if list != [] { KeptInStep(w, order[..|list| - 1], list[..|list| - 1]); }
  }

  /** Taking one member out of a list without repetitions. */
  lemma MiddleGone<T>(x: seq<T>, a: T, y: seq<T>)
    requires NoDup(x + [a] + y)
    ensures NoDup(x + y) && a !in x && a !in y && forall b :: b in x + y <==> b in x + [a] + y && b != a
  {
    var list := x + [a] + y;
    assert list[|x|] == a;
    forall i | 0 <= i < |x| ensures list[i] == x[i] {}
    forall i | 0 <= i < |y| ensures list[|x| + 1 + i] == y[i] {}
    forall i, j | 0 <= i < j < |x + y| ensures (x + y)[i] != (x + y)[j] {
      assert (x + y)[i] == list[if i < |x| then i else i + 1] && (x + y)[j] == list[if j < |x| then j else j + 1];
    }
  }

  lemma ShrunkRegister(x: seq<Archetype>, a: Archetype, y: seq<Archetype>, byIds: map<seq<TypeId>, Archetype>,
                       repr: set<object>,
                       empty: Archetype, world: object, cache: object)
    requires Register(x + [a] + y, byIds, repr, empty, world, cache) && a != empty
    ensures Register(x + y, byIds - {a.componentIds}, repr, empty, world, cache)
    ensures a !in x && a !in y
  {
    hide Disjoint, Archetype.Shape, NoDup;
    MiddleGone(x, a, y);
    assert a in x + [a] + y;
  }

  class World {
    const reg: Registry
    const queryCache: QueryCache
    const emptyArchetype: Archetype
    var slotGenerations: seq<int>
    var freeSlots: seq<int>
    var poolSlots: seq<Entity>
    var locations: map<Entity, Location>
    var archetypes: map<seq<TypeId>, Archetype>
    var archetypeList: seq<Archetype>
    var changeTick: Tick
    var changeLog: seq<S.LogEntry>
    var changeLogGeneration: nat
    var iterationDepth: int
    var deferMoves: bool
    var deferredEntities: seq<Entity>
    var pendingOps: map<Entity, seq<PendingOp>>
    var pendingDestroy: set<Entity>
    ghost var repr: set<object>
    ghost var ix: S.Index
    ghost var events: seq<S.Event>

    /** The whole state as a value. */
    ghost function Model(): S.World
      reads this
    {
      S.World(ix, S.Clock(changeTick, changeLog, changeLogGeneration), S.Slots(slotGenerations, freeSlots, poolSlots),
        iterationDepth, events)
    }

    /** The deferred window: open or not, and what waits in it. */
    ghost function Deferral(): (bool, Window)
      reads this
    {
      (deferMoves, Window(deferredEntities, pendingOps, pendingDestroy))
    }

    // ---------------------------------------------------------------- class invariant

    ghost predicate Listed()
      reads this`archetypeList, this`archetypes, this`repr
    {
      Register(archetypeList, archetypes, repr, emptyArchetype, this, queryCache)
    }

    /** The object graph spells out the index of the model. */
    ghost predicate IndexTied()
      requires Listed()
      reads this`ix, this`locations, this`archetypeList, this`archetypes, this`repr, repr
    {
      ListTied(reg, archetypeList, ix) && LocsTied(locations, archetypeList, ix)
        && forall a :: a in archetypeList ==> ArchTied(a, ix)
    }

    ghost predicate Tied()
      reads this`ix, this`locations, this`archetypeList, this`archetypes, this`repr, repr, queryCache
    {
      Listed() && IndexTied() && queryCache.Consistent(archetypeList)
    }

    /** What waits in the deferred window is well formed. */
    ghost predicate WindowTied()
      reads this`deferredEntities, this`pendingOps, this`pendingDestroy
    {
      var d := Window(deferredEntities, pendingOps, pendingDestroy);
      WindowOk(d) && forall e :: OpsOk(reg, OpsOf(d, e))
    }

    ghost predicate Valid()
      reads this, repr, queryCache
    {
      Tied() && WorldOk(Model()) && WindowTied()
    }

    lemma InitialTied(a: Archetype)
      requires archetypeList == [a] && repr == a.footprint && archetypes == map[[] := a] && emptyArchetype == a
        && locations == map[]
      requires a.Shape() && a.componentIds == [] && a.entities == [] && a.enabled == [] && a.entityToRow == map[]
      requires ix == S.EmptyWorld(reg).ix
      ensures Listed() && IndexTied()
    {
      assert a.Key() == {} && a.ColViews().Keys == {};
    }

    constructor (reg: Registry, signature: Query -> int)
      ensures Valid() && fresh(repr) && fresh(queryCache)
      ensures Model() == S.EmptyWorld(reg) && Deferral() == (false, EMPTY_WINDOW)
    {
      hide WorldOk, QueryCache.Consistent, Register, IndexTied, Archetype.ColViews;
      EmptyWorldOk(reg);
      this.reg := reg;
      queryCache := new QueryCache(signature);
      var a := new Archetype([]);
      emptyArchetype := a;
      slotGenerations, freeSlots, poolSlots := [], [], [];
      locations := map[];
      archetypes := map[[] := a];
      archetypeList := [a];
      repr := a.footprint;
      changeTick, changeLog, changeLogGeneration := 1, [], 0;
      iterationDepth := 0;
      deferMoves, deferredEntities, pendingOps, pendingDestroy := false, [], map[], {};
      ix := S.EmptyWorld(reg).ix;
      events := [];
      new;
      queryCache.RegisterNewArchetype(a, []);
      assert [] + [a] == archetypeList;
      InitialTied(a);
    }

    // ---------------------------------------------------------------- archetypes

    lemma NewKey(ids: seq<TypeId>)
      requires Listed() && ListTied(reg, archetypeList, ix) && S.Shaped(ix) && Sorted(ids) && ids !in archetypes
      ensures (set t | t in ids) !in ix.archs
    {
      hide S.ArchOk, S.RowOk, S.Placed, Disjoint;
      if (set t | t in ids) in ix.archs {
        assert (set t | t in ids) in Elements(ix.order);
        var i :| 0 <= i < |ix.order| && ix.order[i] == set t | t in ids;
        var a := archetypeList[i];
        assert a in archetypeList && a.Key() == set t | t in ids;
        assert forall t :: t in a.componentIds <==> t in a.Key();
        assert forall t :: t in ids <==> t in set t | t in ids;
        SortedUnique(a.componentIds, ids);
      }
    }

    static lemma BlankTied(a: Archetype, before: S.Index, after: S.Index)
      requires a.Shape() && a.entities == [] && a.enabled == [] && a.entityToRow == map[]
      requires a.ColViews().Keys == a.Key()
        && forall t :: t in a.componentIds ==> a.ColViews()[t] == S.Col([], [], false, 0)
      requires a.Key() !in before.archs && after == S.Ensure(before, a.Key())
      ensures ArchTied(a, after)
    {
    }

    method CreateArchetype(ids: seq<TypeId>) returns (a: Archetype)
      requires Tied() && Sorted(ids) && ids !in archetypes && (set t | t in ids) !in ix.archs
      modifies this`archetypes, this`archetypeList, this`ix, this`repr, queryCache
      ensures Tied() && fresh(a.footprint) && a.componentIds == ids && archetypeList == old(archetypeList) + [a]
      ensures ix == S.Ensure(old(ix), a.Key())
      ensures repr == old(repr) + a.footprint
    {
      hide QueryCache.Consistent, Archetype.ColViews, Archetype.View, Register, ListTied, LocsTied, S.Shaped, Sorted,
        S.Ensure;
      ghost var list, before := archetypeList, ix;
      forall b | b in list ensures b.Shape() && b.footprint <= repr && ArchTied(b, before) { Member(b); }
      a := new Archetype(ids);
      archetypes := archetypes[ids := a];
      archetypeList := archetypeList + [a];
      repr := repr + a.footprint;
      ix := S.Ensure(ix, a.Key());
      queryCache.RegisterNewArchetype(a, list);
      GrownRegister(list, old(archetypes), old(repr), emptyArchetype, this, queryCache, a);
      GrownIndex(list, before, a);
    }

    lemma GrownIndex(list: seq<Archetype>, before: S.Index, a: Archetype)
      requires archetypeList == list + [a] && Listed()
      requires ListTied(reg, list, before) && LocsTied(locations, list, before)
      requires forall b :: b in list ==> b.Shape() && ArchTied(b, before) && b.Key() != a.Key()
      requires a.Shape() && a.entities == [] && a.enabled == [] && a.entityToRow == map[]
      requires a.ColViews().Keys == a.Key()
        && forall t :: t in a.componentIds ==> a.ColViews()[t] == S.Col([], [], false, 0)
      requires a.Key() !in before.archs && ix == S.Ensure(before, a.Key())
      ensures IndexTied()
    {
      hide Archetype.ColViews, Archetype.View, ListTied, LocsTied, Archetype.Shape;
      SameLoc(before, a.Key());
      GrownListTied(locations, list, before, a, ix);
      AppendedList(reg, list, before, a, ix);
      BlankTied(a, before, ix);
      AppendedArchs(list, before, a, ix);
    }

    static lemma SameLoc(w: S.Index, k: S.Key)
      ensures S.Ensure(w, k).loc == w.loc
    {
    }

    method EnsureArchetype(ids: seq<TypeId>) returns (a: Archetype)
      requires Tied() && Sorted(ids) && S.Shaped(ix)
      modifies this`archetypes, this`archetypeList, this`ix, this`repr, queryCache
      ensures Tied() && a in archetypeList && a.componentIds == ids
      ensures ix == S.Ensure(old(ix), a.Key())
      ensures old(archetypeList) <= archetypeList && (a in old(archetypeList) || fresh(a.footprint))
      ensures old(repr) <= repr && fresh(repr - old(repr))
    {
      hide QueryCache.Consistent, Register, ListTied, LocsTied, S.Shaped, Sorted, S.Ensure;
      if ids in archetypes {
        a := archetypes[ids];
        Found(ids);
        return a;
      }
      NewKey(ids);
      a := CreateArchetype(ids);
    }

    static lemma AppendedArchs(list: seq<Archetype>, before: S.Index, a: Archetype, after: S.Index)
      requires forall b :: b in list ==> b.Shape() && ArchTied(b, before) && b.Key() != a.Key()
      requires a.Shape() && ArchTied(a, after) && after == S.Ensure(before, a.Key())
      ensures forall b :: b in list + [a] ==> ArchTied(b, after)
    {
    }

    static lemma AppendedList(reg: Registry, list: seq<Archetype>, before: S.Index, a: Archetype, after: S.Index)
      requires ListTied(reg, list, before) && a.Key() !in before.archs && after == S.Ensure(before, a.Key())
      ensures ListTied(reg, list + [a], after)
    {
    }

    lemma Member(a: Archetype)
      requires Listed() && a in archetypeList
      ensures a.Shape() && a.footprint <= repr
    {
    }

    // ---------------------------------------------------------------- moving rows

    static lemma MovedRows(w: S.Index, e: Entity, to: S.Key)
      requires S.Shaped(w) && e in w.loc && to in w.archs && to != w.loc[e].key
      ensures w.loc[e].key in w.archs && w.archs[w.loc[e].key].Ok() && w.archs[to].Ok()
      ensures e in w.archs[w.loc[e].key].rowOf && w.archs[w.loc[e].key].rowOf[e] == w.loc[e].row
        && e !in w.archs[to].rowOf
    {
      var l := w.loc[e];
      assert S.Placed(w, e) && S.ArchOk(w, l.key) && S.ArchOk(w, to) && S.RowOk(w, l.key, l.row);
      assert e !in w.archs[to].rowOf by {
        assert forall x :: x in w.archs[to].rowOf ==> S.RowOk(w, to, w.archs[to].rowOf[x]);
      }
    }

    /** Filling from the entity's cells and merging from the source columns are the same. */
    static lemma FilledIsMerged(w: S.Index, e: Entity, dst: S.Arch, tick: Tick)
      requires e in w.loc && S.HasRow(w, w.loc[e]) && dst.Ok()
      ensures S.Filled(dst.Added(e, tick), |dst.entities|, S.CellsOf(w, e))
        == MergedArch(dst, w.archs[w.loc[e].key], e, tick, w.loc[e].row)
    {
      var l := w.loc[e];
      var src := w.archs[l.key];
      var a := dst.Added(e, tick);
      forall t | t in a.cols && t in src.cols ensures S.CellsOf(w, e)[t] == CellIn(src.cols[t], l.row) {}
    }

    /** The model's move, spelled out the way the objects perform it. */
    static lemma MoveSteps(w: S.Index, e: Entity, to: S.Key, tick: Tick)
      requires S.Shaped(w) && e in w.loc && to in w.archs && to != w.loc[e].key && w.loc[e].key in w.archs
      requires w.archs[w.loc[e].key].Ok() && w.archs[to].Ok() && e in w.archs[w.loc[e].key].rowOf
      ensures var l, v := w.loc[e], S.Move(w, e, to, tick);
        && v.reg == w.reg && v.order == w.order
        && v.archs == w.archs[l.key := w.archs[l.key].Removed(e)][to :=
           MergedArch(w.archs[to], w.archs[l.key], e, tick, l.row)]
        && v.loc == S.Relocated(w.loc, w.archs[l.key].Filler(e), l.row)[e := S.Loc(to, |w.archs[to].entities|)]
    {
      hide S.Arch.Removed, S.Filled, S.CellsOf, MergedArch, S.HasRow, S.Arch.Ok, S.ArchOk, S.RowOk, S.Placed,
        S.Arch.Added;
      RowExists(w, e);
      FilledIsMerged(w, e, w.archs[to], tick);
    }

    /** Writing one archetype reaches no other, nor the query cache. */
    lemma Apart(a: Archetype)
      requires Listed() && a in archetypeList
      ensures queryCache !in a.footprint && this !in a.footprint
      ensures forall b :: b in archetypeList ==> b.Shape() && this !in b.footprint
      ensures forall b :: b in archetypeList && b != a ==> b.footprint !! a.footprint && b.Key() != a.Key()
    {
      assert forall b :: b in archetypeList && b != a ==> Disjoint(b, a);
    }

    lemma Before(e: Entity, from: Archetype, to: Archetype)
      requires Tied() && S.Shaped(ix) && e in locations && locations[e].archetype == from && to in archetypeList
        && to != from
      ensures from in archetypeList && from.Valid() && to.Valid() && from.footprint !! to.footprint
        && from.Key() != to.Key()
      ensures e in from.entityToRow && from.entityToRow[e] == locations[e].row && e !in to.entityToRow
      ensures e in ix.loc && ix.loc[e] == S.Loc(from.Key(), locations[e].row) && to.Key() in ix.archs
        && from.Key() in ix.archs
      ensures ix.archs[from.Key()] == from.View() && ix.archs[to.Key()] == to.View()
      ensures |to.View().entities| == |to.entities|
      ensures var l, v := ix.loc[e], S.Move(ix, e, to.Key(), changeTick);
        && v.reg == ix.reg && v.order == ix.order
        && v.archs == ix.archs[l.key := from.View().Removed(e)][to.Key() :=
           MergedArch(to.View(), from.View(), e, changeTick, l.row)]
        && v.loc == S.Relocated(ix.loc, from.View().Filler(e), l.row)[e := S.Loc(to.Key(), |to.entities|)]
    {
      hide MergedArch, S.Arch.Removed, S.Shaped, S.Move, QueryCache.Consistent, Archetype.ColViews;
      assert LocTied(locations, archetypeList, ix, e) && ArchTied(from, ix) && ArchTied(to, ix) && Disjoint(from, to);
      MovedRows(ix, e, to.Key());
      MoveSteps(ix, e, to.Key(), changeTick);
    }

    /** `_move_entity_to` and the location store that follows it at every call. */
    method MoveEntityTo(e: Entity, from: Archetype, to: Archetype, fromRow: nat) returns (newRow: nat)
      requires Tied() && S.Shaped(ix)
      requires e in locations && locations[e] == Location(from, fromRow) && to in archetypeList && to != from
      modifies this`locations, this`ix, from.footprint, to.footprint
      ensures Tied() && e in locations && locations[e] == Location(to, newRow)
      ensures ix == S.Move(old(ix), e, to.Key(), changeTick)
    {
      hide Archetype.View, Archetype.Shape, S.Shaped, QueryCache.Consistent, LocsTied, ListTied, MergedArch,
        S.Arch.Removed, S.Arch.Filler, S.Move, Register;
      ghost var before := ix;
      Before(e, from, to);
      Apart(from);
      Apart(to);
      var row, moved := Transfer(from, to, e, fromRow, changeTick);
      newRow := row;
      forall b | b in archetypeList && b != from && b != to
        ensures b.Shape() && ArchTied(b, before) && b.Key() != from.Key() && b.Key() != to.Key() {}
      ghost var half := before.(loc := S.Relocated(before.loc, moved, fromRow));
      RelocatedTied(locations, archetypeList, before, moved, fromRow, half);
      if moved != NO_ENTITY && moved in locations {
        locations := locations[moved := locations[moved].(row := fromRow)];
      }
      ix := S.Move(ix, e, to.Key(), changeTick);
      StoredTied(locations, archetypeList, half, e, to, newRow, ix);
      locations := locations[e := Location(to, newRow)];
      RewrittenArchs(archetypeList, before, from, to, ix);
      SameList(reg, archetypeList, before, ix);
    }

    static lemma SameList(reg: Registry, list: seq<Archetype>, before: S.Index, after: S.Index)
      requires ListTied(reg, list, before) && after.reg == before.reg && after.order == before.order
      ensures ListTied(reg, list, after)
    {
    }

    static lemma RewrittenArchs(list: seq<Archetype>, before: S.Index, from: Archetype, to: Archetype, after: S.Index)
      requires forall b :: b in list && b != from && b != to ==>
        b.Shape() && ArchTied(b, before) && b.Key() != from.Key() && b.Key() != to.Key()
      requires from.Shape() && to.Shape() && (from == to || from.Key() != to.Key())
      requires after.archs == before.archs[from.Key() := from.View()][to.Key() := to.View()]
      ensures forall b :: b in list ==> b.Shape() && ArchTied(b, after)
    {
    }

    // ---------------------------------------------------------------- one archetype at a time

    /** Where a live entity is, in objects and in the model. */
    lemma Where(e: Entity)
      requires Listed() && IndexTied() && S.Shaped(ix) && e in locations
      ensures var a, row := locations[e].archetype, locations[e].row;
        && a in archetypeList && a.Valid() && row < |a.entities|
        && e in a.entityToRow && a.entityToRow[e] == row
        && e in ix.loc && ix.loc[e] == S.Loc(a.Key(), row)
        && a.Key() in ix.archs && ix.archs[a.Key()] == a.View()
    {
      var a := locations[e].archetype;
      assert LocTied(locations, archetypeList, ix, e) && ArchTied(a, ix);
      assert S.Placed(ix, e) && S.ArchOk(ix, a.Key()) && S.RowOk(ix, a.Key(), locations[e].row);
    }

    static lemma DetachSteps(w: S.Index, e: Entity)
      requires S.Shaped(w) && e in w.loc
      ensures var l, v := w.loc[e], S.Detach(w, e);
        && l.key in w.archs && w.archs[l.key].Ok() && e in w.archs[l.key].rowOf
        && v.reg == w.reg && v.order == w.order
        && v.archs == w.archs[l.key := w.archs[l.key].Removed(e)]
        && v.loc == S.Relocated(w.loc - {e}, w.archs[l.key].Filler(e), l.row)
    {
      hide S.Arch.Removed;
      assert S.Placed(w, e) && S.ArchOk(w, w.loc[e].key);
    }

    static lemma PlaceSteps(w: S.Index, e: Entity, tick: Tick)
      requires S.Shaped(w)
      ensures {} in w.archs && w.archs[{}].Ok()
      ensures var v := S.Attach(w, e, {}, map[], tick);
        && v.reg == w.reg && v.order == w.order
        && v.archs == w.archs[{} := w.archs[{}].Added(e, tick)]
        && v.loc == w.loc[e := S.Loc({}, |w.archs[{}].entities|)]
    {
      HasEmptyArch(w);
      assert S.ArchOk(w, {});
    }

    /** After writing one archetype, the model with its new entry is tied again. */
    lemma OneRewritten(before: S.Index, a: Archetype)
      requires Listed() && a in archetypeList
      requires forall b :: b in archetypeList && b != a ==> b.Shape() && ArchTied(b, before) && b.Key() != a.Key()
      requires ix.archs == before.archs[a.Key() := a.View()]
      requires ListTied(reg, archetypeList, before) && ix.reg == before.reg && ix.order == before.order
      requires LocsTied(locations, archetypeList, ix)
      ensures IndexTied()
    {
      RewrittenArchs(archetypeList, before, a, a, ix);
      SameList(reg, archetypeList, before, ix);
    }

    /** `add_entity` on the empty archetype and the location store after it. */
    method Place(e: Entity)
      requires Tied() && S.Shaped(ix)
      modifies this`locations, this`ix, emptyArchetype.footprint
      ensures Tied() && ix == S.Attach(old(ix), e, {}, map[], changeTick)
    {
      hide Archetype.View, S.Shaped, QueryCache.Consistent, LocsTied, ListTied, S.Arch.Added, S.Attach, Register;
      ghost var before := ix;
      var a := emptyArchetype;
      EmptyKnown();
      Apart(a);
      PlaceSteps(ix, e, changeTick);
      var row := a.AddEntity(e, changeTick);
      forall b | b in archetypeList && b != a ensures b.Shape() && ArchTied(b, before) && b.Key() != a.Key() {}
      ix := S.Attach(ix, e, {}, map[], changeTick);
      StoredTied(locations, archetypeList, before, e, a, row, ix);
      locations := locations[e := Location(a, row)];
      OneRewritten(before, a);
    }

    lemma EmptyKnown()
      requires Listed() && IndexTied() && S.Shaped(ix)
      ensures emptyArchetype in archetypeList && emptyArchetype.Valid() && emptyArchetype.Key() == {}
      ensures {} in ix.archs && ix.archs[{}] == emptyArchetype.View()
        && |ix.archs[{}].entities| == |emptyArchetype.entities|
      ensures ix.loc.Keys == locations.Keys
    {
      assert emptyArchetype.Key() == {};
      assert ArchTied(emptyArchetype, ix) && S.ArchOk(ix, {});
    }

    /** `remove_entity`, the location erase, and the fix of the row that was moved into the hole. */
    method Unplace(e: Entity)
      requires Tied() && S.Shaped(ix) && e in locations
      modifies this`locations, this`ix, locations[e].archetype.footprint
      ensures Tied() && ix == S.Detach(old(ix), e)
    {
      hide Archetype.View, S.Shaped, QueryCache.Consistent, LocsTied, ListTied, S.Arch.Removed, S.Arch.Filler,
        S.Detach, Register;
      Where(e);
      DetachSteps(ix, e);
      ghost var before := ix;
      var a, row := locations[e].archetype, locations[e].row;
      Apart(a);
      var moved := a.RemoveEntity(e);
      forall b | b in archetypeList && b != a ensures b.Shape() && ArchTied(b, before) && b.Key() != a.Key() {}
      ghost var half := before.(loc := before.loc - {e});
      ErasedTied(locations, archetypeList, before, e);
      locations := locations - {e};
      ix := S.Detach(ix, e);
      RelocatedTied(locations, archetypeList, half, moved, row, ix);
      if moved != NO_ENTITY && moved in locations {
        locations := locations[moved := locations[moved].(row := row)];
      }
      OneRewritten(before, a);
    }

    static lemma ErasedTied(locs: map<Entity, Location>, list: seq<Archetype>, before: S.Index, e: Entity)
      requires LocsTied(locs, list, before)
      ensures LocsTied(locs - {e}, list, before.(loc := before.loc - {e}))
    {
      var after := before.(loc := before.loc - {e});
      forall x | x in locs - {e} ensures LocTied(locs - {e}, list, after, x) { assert LocTied(locs, list, before, x); }
    }

    static lemma PutSteps(w: S.Index, e: Entity, t: TypeId, data: Bytes, tick: Tick)
      requires S.Shaped(w) && e in w.loc && t in w.loc[e].key
      ensures w.loc[e].key in w.archs && t in w.archs[w.loc[e].key].cols
        && w.loc[e].row < |w.archs[w.loc[e].key].cols[t].rows|
      ensures var l, v := w.loc[e], S.Put(w, e, t, data, tick);
        && v.reg == w.reg && v.order == w.order && v.loc == w.loc
        && v.archs == w.archs[l.key := w.archs[l.key].(cols :=
           w.archs[l.key].cols[t := w.archs[l.key].cols[t].SetRow(l.row, data).SetVersion(l.row, tick)])]
    {
      RowExists(w, e);
    }

    method BumpTick()
      modifies this`changeTick
      ensures changeTick == S.BumpedTick(old(changeTick))
      ensures old(changeTick) < U64_MAX ==> changeTick == old(changeTick) + 1
      ensures old(changeTick) >= U64_MAX ==> changeTick == old(changeTick)
    {
      if changeTick < U64_MAX {
        changeTick := changeTick + 1;
      }
    }

    method LogChange(e: Entity, t: TypeId)
      modifies this`changeLog, this`changeLogGeneration
      ensures S.Clock(changeTick, changeLog, changeLogGeneration) ==
        S.LogChange(S.Clock(changeTick, old(changeLog), old(changeLogGeneration)), e, t)
    {
      changeLog := changeLog + [S.LogEntry(e, t, changeTick)];
      if |changeLog| > S.CHANGE_LOG_SOFT_CAP {
        changeLog := changeLog[|changeLog| / 2..];
        changeLogGeneration := changeLogGeneration + 1;
      }
    }

    /** Write one component of a live entity, stamp it, and log the write when its column is tracked. */
    method Store(e: Entity, t: TypeId, data: Bytes)
      requires Tied() && S.Shaped(ix) && e in locations && t in locations[e].archetype.Key()
      modifies this`ix, this`changeTick, this`changeLog, this`changeLogGeneration, locations[e].archetype.footprint
      ensures Tied() && Model() == WriteCell(old(Model()), e, t, data)
    {
      hide Archetype.View, S.Shaped, QueryCache.Consistent, LocsTied, ListTied, S.Col.SetRow, S.Col.SetVersion, S.Put,
        Register, S.LogChange;
      Where(e);
      PutSteps(ix, e, t, data, S.BumpedTick(changeTick));
      ghost var before := ix;
      var a, row := locations[e].archetype, locations[e].row;
      Apart(a);
      BumpTick();
      var tracked := WriteComponent(a, t, row, data, changeTick);
      forall b | b in archetypeList && b != a ensures b.Shape() && ArchTied(b, before) && b.Key() != a.Key() {}
      ix := S.Put(ix, e, t, data, changeTick);
      SameLocs(locations, archetypeList, before, ix);
      OneRewritten(before, a);
      if tracked {
        LogChange(e, t);
      }
    }

    static lemma SameLocs(locs: map<Entity, Location>, list: seq<Archetype>, before: S.Index, after: S.Index)
      requires LocsTied(locs, list, before) && after.loc == before.loc
      ensures LocsTied(locs, list, after)
    {
      forall x | x in locs ensures LocTied(locs, list, after, x) { assert LocTied(locs, list, before, x); }
    }

    // ---------------------------------------------------------------- entities

    method AllocEntityId() returns (e: Entity)
      requires SlotsOk(S.Slots(slotGenerations, freeSlots, poolSlots))
      modifies this`slotGenerations, this`freeSlots
      ensures e == NextId(S.Slots(old(slotGenerations), old(freeSlots), poolSlots))
      ensures S.Slots(slotGenerations, freeSlots, poolSlots) ==
        Allocate(S.Slots(old(slotGenerations), old(freeSlots), poolSlots))
    {
      var slot;
      if |freeSlots| == 0 {
        if |slotGenerations| >= U32_LIMIT - 2 {
          return NO_ENTITY;
        }
        slot := |slotGenerations|;
        slotGenerations := slotGenerations + [0];
      } else {
        slot := freeSlots[|freeSlots| - 1];
        freeSlots := freeSlots[..|freeSlots| - 1];
      }
      return MakeEntity(slot, slotGenerations[slot]);
    }

    method FreeEntityId(e: Entity)
      modifies this`slotGenerations, this`freeSlots
      ensures S.Slots(slotGenerations, freeSlots, poolSlots) ==
        FreeId(S.Slots(old(slotGenerations), old(freeSlots), poolSlots), e)
    {
      var slot := Slot(e);
      if slot >= |slotGenerations| {
        return;
      }
      if slotGenerations[slot] != Generation(e) {
        return;
      }
      if Generation(e) == U32_LIMIT - 1 {
        slotGenerations := slotGenerations[slot := U32_LIMIT - 1];
        return;
      }
      slotGenerations := slotGenerations[slot := Generation(e) + 1];
      freeSlots := freeSlots + [slot];
    }

    /** The world stays coherent if and only if the id handed out was not live: modules Allocator and OrderlyRuns say
        which runs keep this true, module Collisions which do not. */
    method CreateEntity() returns (e: Entity)
      requires Valid()
      modifies this`slotGenerations, this`freeSlots, this`locations, this`ix, repr
      ensures Tied() && WindowTied() && Model() == Create(old(Model())) && e == NextId(old(Model().slots))
      ensures Valid() <==> e !in old(locations)
    {
      hide WorldOk, Tied, S.Shaped, S.Attach;
      UseOk();
      Lookup();
      CreateIff(Model());
      e := AllocEntityId();
      if e == NO_ENTITY {
        return;
      }
      Place(e);
    }

    method CreateEntityPreassigned(id: Entity) returns (e: Entity)
      requires Valid() && IsHandle(id)
      modifies this`slotGenerations, this`locations, this`ix, repr
      ensures Valid() && Model() == CreatePreassigned(old(Model()), id)
      ensures e == if AcceptsForeign(id) && id !in old(locations) then id else NO_ENTITY
    {
      hide WorldOk, Tied, S.Shaped, S.Attach;
      UseOk();
      Lookup();
      NoForeignZero();
      CreatePreassignedOk(Model(), id);
      var slot := Slot(id);
      if slot >= S.MAX_FOREIGN_SLOT {
        return NO_ENTITY;
      }
      slotGenerations := ResizedGenerations(slotGenerations, slot + 1);
      if id in locations {
        return NO_ENTITY;
      }
      slotGenerations := slotGenerations[slot := Generation(id)];
      Place(id);
      return id;
    }

    /** A pooled id comes back with its old generation. */
    method CreateEntityPooled() returns (e: Entity)
      requires Valid()
      modifies this`slotGenerations, this`freeSlots, this`poolSlots, this`locations, this`ix, repr
      ensures Tied() && WindowTied() && Model() == CreatePooled(old(Model())) && e == PooledId(old(Model().slots))
      ensures Valid() <==> e !in old(locations)
    {
      hide WorldOk, Tied, S.Shaped, S.Attach, Create;
      UseOk();
      Lookup();
      CreatePooledIff(Model());
      if |poolSlots| > 0 {
        e := poolSlots[|poolSlots| - 1];
        poolSlots := poolSlots[..|poolSlots| - 1];
        Place(e);
        return e;
      }
      e := CreateEntity();
    }

    // ---------------------------------------------------------------- observers

    /** Observers hear of one event. */
    method Dispatch(event: S.Event)
      modifies this`events
      ensures events == old(events) + [event]
    {
      events := events + [event];
    }

    static lemma IdsInOrder(a: Archetype)
      requires a.Shape()
      ensures a.componentIds == SortedIds(a.Key())
    {
      SortedUnique(a.componentIds, SortedIds(a.Key()));
    }

    method DispatchRemoved(e: Entity, ids: seq<TypeId>, ghost key: S.Key)
      requires ids == SortedIds(key)
      modifies this`events
      ensures events == old(events) + RemovedEvents(e, key)
    {
      for i := 0 to |ids|
        invariant events == old(events) + RemovedEvents(e, key)[..i]
      {
        Dispatch(S.RemovedEvent(e, ids[i]));
      }
    }

    /** Remember the component types of an entity and take it out. */
    method TakeOut(e: Entity) returns (removed: seq<TypeId>)
      requires Tied() && S.Shaped(ix) && e in locations
      modifies this`locations, this`ix, repr
      ensures Tied() && ix == S.Detach(old(ix), e) && e in old(ix.loc) && removed == SortedIds(old(ix.loc[e].key))
    {
      hide Tied, S.Shaped, S.Detach;
      Home(e);
      WithType(e);
      removed := locations[e].archetype.componentIds;
      IdsInOrder(locations[e].archetype);
      Unplace(e);
    }

    method DestroyEntity(e: Entity)
      requires Valid()
      modifies this`slotGenerations, this`freeSlots, this`locations, this`ix, this`events, repr
      ensures Valid() && Model() == Destroy(old(Model()), e)
    {
      hide WorldOk, Tied, S.Shaped, S.Detach, WindowTied, RemovedEvents, FreeId;
      UseOk();
      Lookup();
      DestroyOk(Model(), e);
      if e !in locations || iterationDepth > 0 {
        return;
      }
      ghost var key := ix.loc[e].key;
      var removed := TakeOut(e);
      FreeEntityId(e);
      DispatchRemoved(e, removed, key);
    }

    method DestroyEntityPooled(e: Entity)
      requires Valid()
      modifies this`poolSlots, this`locations, this`ix, this`events, repr
      ensures Valid() && Model() == DestroyPooled(old(Model()), e)
    {
      hide WorldOk, Tied, S.Shaped, S.Detach, WindowTied, RemovedEvents;
      UseOk();
      Lookup();
      DestroyPooledOk(Model(), e);
      if e !in locations || iterationDepth > 0 {
        return;
      }
      ghost var key := ix.loc[e].key;
      var removed := TakeOut(e);
      poolSlots := poolSlots + [e];
      DispatchRemoved(e, removed, key);
    }

    predicate IsAlive(e: Entity)
      reads this`locations
    {
      e != NO_ENTITY && e in locations
    }

    // ---------------------------------------------------------------- components

    predicate HasComponentOf(e: Entity, t: TypeId)
      requires Tied()
      reads this`ix, this`locations, this`archetypeList, this`archetypes, this`repr, repr, queryCache
      ensures HasComponentOf(e, t) == S.Has(ix, e, t)
    {
      assert ix.loc.Keys == locations.Keys && forall x :: x in locations ==> LocTied(locations, archetypeList, ix, x);
      e != NO_ENTITY && e in locations && t in locations[e].archetype.componentIds
    }

    /** Find or create the archetype of a component set and move the entity there. */
    method ChangeArchetype(e: Entity, ids: seq<TypeId>)
      requires Tied() && S.Shaped(ix) && e in locations && Sorted(ids)
        && (set t | t in ids) != locations[e].archetype.Key()
      requires forall t :: t in ids ==> Registered(reg, t)
      modifies this`locations, this`archetypes, this`archetypeList, this`ix, this`repr, repr, queryCache
      ensures Tied() && S.Shaped(ix) && e in locations && locations[e].archetype.Key() == (set t | t in ids)
      ensures Model() == ChangeKey(old(Model()), e, set t | t in ids)
      ensures old(repr) <= repr && fresh(repr - old(repr))
    {
      hide S.Shaped, S.Move, S.Ensure, IndexTied, Register, QueryCache.Consistent, Archetype.Shape, Disjoint;
      ghost var before := Model();
      ghost var to := set t | t in ids;
      Lookup();
      Home(e);
      ChangeKeyCells(before, e, to);
      ghost var list := archetypeList;
      forall b | b in list ensures b.footprint <= repr { Member(b); }
      var target := EnsureArchetype(ids);
      EnsureShaped(before.ix, to);
      var from := locations[e].archetype;
      Apart(target);
      Lookup();
      Home(e);
      var row := MoveEntityTo(e, from, target, locations[e].row);
    }

    /** Put one op in the deferred window, and the entity in the commit order the first time it is touched. */
    method QueueOp(e: Entity, op: PendingOp)
      requires WindowTied()
        && (op.PendingAdd? ==> Registered(reg, op.t) && |S.Payload(reg, op.t, op.data)| == SizeOf(reg, op.t))
      modifies this`pendingOps, this`deferredEntities
      ensures Deferral() == (deferMoves, Queue(old(Deferral()).1, e, op)) && WindowTied()
    {
      hide S.Payload, Registered, SizeOf, WindowOk, OpsOk, OpsOf;
      ghost var before := Deferral().1;
      QueueOk(before, e, op);
      OneOpOk(reg, op);
      QueuedOpsOk(reg, before, e, op);
      pendingOps := pendingOps[e := (if e in pendingOps then pendingOps[e] else []) + [op]];
      if e !in deferredEntities {
        deferredEntities := deferredEntities + [e];
      }
      assert Deferral().1 == Queue(before, e, op) by { QueueIs(before, e, op); }
    }

    static lemma OneOpOk(reg: Registry, op: PendingOp)
      requires op.PendingAdd? ==> Registered(reg, op.t) && |S.Payload(reg, op.t, op.data)| == SizeOf(reg, op.t)
      ensures OpsOk(reg, [op])
    {
    }

    static lemma QueueIs(d: Window, e: Entity, op: PendingOp)
      ensures Queue(d, e, op) ==
        Window(if e in d.order then d.order
          else d.order + [e], d.ops[e := (if e in d.ops then d.ops[e] else []) + [op]], d.doomed)
    {
    }

    /** Overwrite a component the entity has. */
    method Overwrite(e: Entity, t: TypeId, bytes: Bytes)
      requires Tied() && S.Shaped(ix) && e in locations && t in locations[e].archetype.Key()
      modifies this`ix, this`changeTick, this`changeLog, this`changeLogGeneration, this`events,
        locations[e].archetype.footprint
      ensures Tied() && Model() == Emit(WriteCell(old(Model()), e, t, bytes), S.ChangedEvent(e, t))
    {
      hide Tied, S.Shaped, WriteCell;
      Lookup();
      Home(e);
      Store(e, t, bytes);
      events := events + [S.ChangedEvent(e, t)];
    }

    /** Give the entity a component it lacks: one archetype move, then the write. */
    method Gain(e: Entity, t: TypeId, bytes: Bytes)
      requires Tied() && S.Shaped(ix) && e in locations && t !in locations[e].archetype.Key() && Registered(reg, t)
      modifies this`ix, this`changeTick, this`changeLog, this`changeLogGeneration, this`events, this`locations,
        this`archetypes, this`archetypeList, this`repr, repr, queryCache
      ensures Tied() && old(repr) <= repr && fresh(repr - old(repr))
      ensures Model() ==
        Emit(WriteCell(ChangeKey(old(Model()), e, old(locations[e].archetype.Key()) + {t}), e, t, bytes),
          S.AddedEvent(e, t))
    {
      hide Tied, S.Shaped, WriteCell, ChangeKey, Registered;
      WithType(e);
      Lookup();
      Home(e);
      ghost var key := locations[e].archetype.Key();
      var ids := Inserted(locations[e].archetype.componentIds, t);
      assert forall u :: u in ids <==> u in key + {t};
      assert (set u | u in ids) == key + {t};
      ChangeArchetype(e, ids);
      Lookup();
      Home(e);
      Store(e, t, bytes);
      events := events + [S.AddedEvent(e, t)];
    }

    method Lose(e: Entity, t: TypeId)
      requires Tied() && S.Shaped(ix) && e in locations && t in locations[e].archetype.Key()
      modifies this`ix, this`events, this`locations, this`archetypes, this`archetypeList, this`repr, repr, queryCache
      ensures Tied() && old(repr) <= repr && fresh(repr - old(repr))
      ensures Model() == Emit(ChangeKey(old(Model()), e, old(locations[e].archetype.Key()) - {t}), S.RemovedEvent(e, t))
    {
      hide Tied, S.Shaped, ChangeKey, Registered;
      WithType(e);
      Lookup();
      Home(e);
      ghost var key := locations[e].archetype.Key();
      var ids := Deleted(locations[e].archetype.componentIds, t);
      assert (set u | u in ids) == key - {t};
      ChangeArchetype(e, ids);
      Lookup();
      Home(e);
      events := events + [S.RemovedEvent(e, t)];
    }

    method AddNow(e: Entity, t: TypeId, bytes: Bytes)
      requires Tied() && S.Shaped(ix) && e in locations && Registered(reg, t)
      modifies this`ix, this`changeTick, this`changeLog, this`changeLogGeneration, this`events, this`locations,
        this`archetypes, this`archetypeList, this`repr, repr, queryCache
      ensures Tied() && old(repr) <= repr && fresh(repr - old(repr))
      ensures Model() ==
        if t in old(locations[e].archetype.Key()) then Emit(WriteCell(old(Model()), e, t, bytes), S.ChangedEvent(e, t))
        else if iterationDepth > 0 then old(Model())
        else Emit(WriteCell(ChangeKey(old(Model()), e, old(locations[e].archetype.Key()) + {t}), e, t, bytes),
          S.AddedEvent(e, t))
    {
      hide Tied, S.Shaped, WriteCell, ChangeKey, Registered, Emit;
      WithType(e);
      Lookup();
      Home(e);
      var has := HasComponent(locations[e].archetype, t);
      if has {
        Overwrite(e, t, bytes);
      } else if iterationDepth <= 0 {
        Gain(e, t, bytes);
      }
    }

    method RemoveNow(e: Entity, t: TypeId)
      requires Tied() && S.Shaped(ix) && e in locations
      modifies this`ix, this`events, this`locations, this`archetypes, this`archetypeList, this`repr, repr, queryCache
      ensures Tied() && old(repr) <= repr && fresh(repr - old(repr))
      ensures Model() ==
        if t !in old(locations[e].archetype.Key()) || iterationDepth > 0 then old(Model())
        else Emit(ChangeKey(old(Model()), e, old(locations[e].archetype.Key()) - {t}), S.RemovedEvent(e, t))
    {
      hide Tied, S.Shaped, ChangeKey, Registered, Emit;
      WithType(e);
      Lookup();
      Home(e);
      var has := HasComponent(locations[e].archetype, t);
      if has && iterationDepth <= 0 {
        Lose(e, t);
      }
    }

    /** Overwrite in place, or move once to the archetype with the type and write there; inside a deferred
        window only queue. */
    method AddComponentRaw(e: Entity, t: TypeId, data: Option<Bytes>)
      requires Valid() && S.DataOk(reg, t, data)
      modifies this, repr, queryCache
      ensures Valid() && fresh(repr - old(repr))
      ensures !old(deferMoves) ==> Model() == AddRaw(old(Model()), e, t, data) && Deferral() == old(Deferral())
      ensures (old(deferMoves) ==>
        Model() == old(Model())
        && Deferral() == (true, Defer(old(Model()), old(Deferral()).1, AddComponent(e, t, data)).1))
    {
      hide WorldOk, Tied, S.Shaped, S.Payload, ChangeKey, WriteCell, Queue, WindowTied, Registered, S.DataOk, Emit;
      UseOk();
      Lookup();
      if IsAlive(e) && Registered(reg, t) {
        PayloadTwice(reg, t, data);
        if deferMoves {
          QueueOp(e, PendingAdd(t, if data.Some? then Some(S.Payload(reg, t, data)) else None));
        } else {
          AddRawOk(Model(), e, t, data);
          Home(e);
          AddNow(e, t, S.Payload(reg, t, data));
        }
      }
    }

    /** Move once to the archetype without the type; inside a deferred window only queue. */
    method RemoveComponentRaw(e: Entity, t: TypeId)
      requires Valid()
      modifies this, repr, queryCache
      ensures Valid() && fresh(repr - old(repr))
      ensures !old(deferMoves) ==> Model() == RemoveComponent(old(Model()), e, t) && Deferral() == old(Deferral())
      ensures (old(deferMoves) ==>
        Model() == old(Model()) && Deferral() == (true, Defer(old(Model()), old(Deferral()).1, DropComponent(e, t)).1))
    {
      hide WorldOk, Tied, S.Shaped, ChangeKey, Queue, WindowTied, Registered, Emit;
      UseOk();
      Lookup();
      if IsAlive(e) {
        if deferMoves {
          QueueOp(e, PendingDrop(t));
        } else {
          RemoveComponentOk(Model(), e, t);
          Home(e);
          RemoveNow(e, t);
        }
      }
    }

    lemma WithType(e: Entity)
      requires Tied() && S.Shaped(ix) && e in locations
      ensures locations[e].archetype.Shape()
        && forall u :: u in locations[e].archetype.componentIds <==> u in locations[e].archetype.Key()
      ensures forall u :: u in locations[e].archetype.Key() ==> Registered(reg, u)
    {
      Where(e);
      KeyRegistered(ix, e);
    }

    static lemma StampSteps(w: S.Index, e: Entity, t: TypeId, now: Tick, tick: Tick)
      requires S.Shaped(w) && e in w.loc && t in w.loc[e].key
      ensures w.loc[e].key in w.archs && t in w.archs[w.loc[e].key].cols
      ensures var l, v := w.loc[e], S.Stamp(w, e, t, now, tick);
        && v.reg == w.reg && v.order == w.order && v.loc == w.loc
        && v.archs == w.archs[l.key := w.archs[l.key].(cols :=
           w.archs[l.key].cols[t := w.archs[l.key].cols[t].EnsureVersions(now).SetVersion(l.row, tick)])]
    {
      RowExists(w, e);
    }

    /** Track the column if it was not, stamp the row with a new tick, log the write. */
    method Mark(e: Entity, t: TypeId)
      requires Tied() && S.Shaped(ix) && e in locations && t in locations[e].archetype.Key()
      modifies this`ix, this`changeTick, this`changeLog, this`changeLogGeneration, locations[e].archetype.footprint
      ensures Tied() && changeTick == S.BumpedTick(old(changeTick))
      ensures ix == S.Stamp(old(ix), e, t, old(changeTick), changeTick)
      ensures S.Clock(changeTick, changeLog, changeLogGeneration)
        == S.LogChange(S.Clock(S.BumpedTick(old(changeTick)), old(changeLog), old(changeLogGeneration)), e, t)
    {
      hide Archetype.View, S.Shaped, QueryCache.Consistent, LocsTied, ListTied, S.Col.EnsureVersions,
        S.Col.SetVersion, S.Stamp, Register, S.LogChange;
      Where(e);
      ghost var before := ix;
      var a, row, now := locations[e].archetype, locations[e].row, changeTick;
      Apart(a);
      BumpTick();
      StampSteps(ix, e, t, now, changeTick);
      StampComponent(a, t, row, now, changeTick);
      forall b | b in archetypeList && b != a ensures b.Shape() && ArchTied(b, before) && b.Key() != a.Key() {}
      ix := S.Stamp(ix, e, t, now, changeTick);
      SameLocs(locations, archetypeList, before, ix);
      OneRewritten(before, a);
      LogChange(e, t);
    }

    method MarkChangedRaw(e: Entity, t: TypeId)
      requires Valid()
      modifies this`ix, this`changeTick, this`changeLog, this`changeLogGeneration, this`events, repr
      ensures Valid() && Model() == MarkChanged(old(Model()), e, t)
    {
      hide WorldOk, Tied, S.Shaped, S.Stamp, WindowTied, S.LogChange;
      UseOk();
      Lookup();
      MarkChangedOk(Model(), e, t);
      if IsAlive(e) {
        Home(e);
        WithType(e);
        var has := HasComponent(locations[e].archetype, t);
        if has {
          Mark(e, t);
          events := events + [S.ChangedEvent(e, t)];
        }
      }
    }

    /** What a change query does to a column before it reads versions. */
    method TrackColumn(a: Archetype, t: TypeId)
      requires Valid() && a in archetypeList
      modifies this`ix, a.footprint
      ensures Valid() && Model() == old(Model()).(ix := S.Track(old(ix), a.Key(), t, changeTick))
    {
      hide WorldOk, Tied, S.Shaped, S.Coherent, WindowTied, S.Track;
      UseOk();
      Lookup();
      Reach(a);
      TrackOk(ix, a.Key(), t, changeTick);
      StillOk(Model(), S.Track(ix, a.Key(), t, changeTick));
      TrackTied(a, t);
    }

    static lemma StillOk(w: S.World, after: S.Index)
      requires WorldOk(w) && S.Coherent(after)
      ensures WorldOk(w.(ix := after))
    {
    }

    method TrackTied(a: Archetype, t: TypeId)
      requires Tied() && S.Shaped(ix) && a in archetypeList
      modifies this`ix, a.footprint
      ensures Tied() && ix == S.Track(old(ix), a.Key(), t, changeTick)
    {
      hide Archetype.View, S.Shaped, QueryCache.Consistent, LocsTied, ListTied, S.Col.EnsureVersions, Register;
      ghost var before := ix;
      Member(a);
      Apart(a);
      InList(a);
      var has := HasComponent(a, t);
      if has {
        TrackComponent(a, t, changeTick);
        forall b | b in archetypeList && b != a ensures b.Shape() && ArchTied(b, before) && b.Key() != a.Key() {}
        ix := S.Track(ix, a.Key(), t, changeTick);
        SameLocs(locations, archetypeList, before, ix);
        OneRewritten(before, a);
      }
    }

    lemma Reach(a: Archetype)
      requires Tied() && a in archetypeList
      ensures a.footprint <= repr && a.Shape()
    {
      Member(a);
    }

    lemma InList(a: Archetype)
      requires Listed() && IndexTied() && S.Shaped(ix) && a in archetypeList
      ensures a.Valid() && a.Key() in ix.archs && ix.archs[a.Key()] == a.View()
        && ix.archs[a.Key()].cols.Keys == a.Key()
    {
      assert ArchTied(a, ix) && S.ArchOk(ix, a.Key());
    }

    // ---------------------------------------------------------------- raw access

    static lemma PokeSteps(w: S.Index, e: Entity, t: TypeId, data: Bytes)
      requires S.Shaped(w) && e in w.loc && t in w.loc[e].key
      ensures w.loc[e].key in w.archs && t in w.archs[w.loc[e].key].cols
        && w.loc[e].row < |w.archs[w.loc[e].key].cols[t].rows|
      ensures S.HasCell(w, e, t)
      ensures var l := w.loc[e]; var v := S.WithCol(w, l.key, t, w.archs[l.key].cols[t].SetRow(l.row, data));
        && v.reg == w.reg && v.order == w.order && v.loc == w.loc
        && v.archs == w.archs[l.key := w.archs[l.key].(cols :=
           w.archs[l.key].cols[t := w.archs[l.key].cols[t].SetRow(l.row, data)])]
    {
      RowExists(w, e);
    }

    method PokeTied(e: Entity, t: TypeId, data: Bytes)
      requires Tied() && S.Shaped(ix) && e in locations && t in locations[e].archetype.Key()
      modifies this`ix, locations[e].archetype.footprint
      ensures Tied() && Model() == Poke(old(Model()), e, t, data)
    {
      hide Archetype.View, S.Shaped, QueryCache.Consistent, LocsTied, ListTied, S.Col.SetRow, Register, S.WithCol,
        S.HasCell;
      Where(e);
      PokeSteps(ix, e, t, data);
      ghost var before := ix;
      var a, row := locations[e].archetype, locations[e].row;
      Apart(a);
      ghost var key := a.Key();
      ix := S.WithCol(ix, key, t, ix.archs[key].cols[t].SetRow(row, data));
      PokeComponent(a, t, row, data);
      forall b | b in archetypeList && b != a ensures b.Shape() && ArchTied(b, before) && b.Key() != a.Key() {}
      SameLocs(locations, archetypeList, before, ix);
      OneRewritten(before, a);
    }

    /** Write a component's memory through `get_raw`. */
    method PokeRaw(e: Entity, t: TypeId, data: Bytes)
      requires Valid() && S.Has(ix, e, t) && Registered(reg, t) && |data| == SizeOf(reg, t)
      modifies this`ix, repr
      ensures Valid() && Model() == Poke(old(Model()), e, t, data)
    {
      hide WorldOk, Tied, S.Shaped, WindowTied, Poke, Registered, SizeOf;
      UseOk();
      Lookup();
      Home(e);
      PokeOk(Model(), e, t, data);
      PokeTied(e, t, data);
    }

    /** A component's memory, if the entity has it. */
    method GetRaw(e: Entity, t: TypeId) returns (data: Option<Bytes>)
      requires Valid()
      ensures data.Some? <==> S.Has(ix, e, t)
      ensures data.Some? ==> e in S.Contents(ix) && t in S.Contents(ix)[e] && data.value == S.Contents(ix)[e][t]
    {
      hide WorldOk, WindowTied, S.Shaped, S.Contents, Register, QueryCache.Consistent;
      UseOk();
      Lookup();
      if !IsAlive(e) {
        return None;
      }
      Home(e);
      Where(e);
      var a := locations[e].archetype;
      var i := a.ColumnIndex(t);
      if i < 0 {
        return None;
      }
      a.ColAt(i);
      RowBytes(ix, e, t);
      return Some(a.columns[i].rows[locations[e].row]);
    }

    static lemma RowBytes(w: S.Index, e: Entity, t: TypeId)
      requires S.Shaped(w) && e in w.loc && t in w.loc[e].key
      ensures e in S.Contents(w) && t in S.Contents(w)[e]
      ensures w.loc[e].key in w.archs && t in w.archs[w.loc[e].key].cols
        && w.loc[e].row < |w.archs[w.loc[e].key].cols[t].rows|
      ensures S.Contents(w)[e][t] == w.archs[w.loc[e].key].cols[t].rows[w.loc[e].row]
    {
      RowExists(w, e);
    }

    // ---------------------------------------------------------------- the deferred window

    method DestroyEntityDeferred(e: Entity)
      requires Valid()
      modifies this, repr
      ensures Valid() && repr == old(repr)
      ensures !old(deferMoves) ==> Model() == Destroy(old(Model()), e) && Deferral() == old(Deferral())
      ensures (old(deferMoves) ==>
        Model() == old(Model()) && Deferral() == (true, Defer(old(Model()), old(Deferral()).1, RemoveEntity(e)).1))
    {
      hide WorldOk, Tied, S.Shaped, OpsOk;
      UseOk();
      Lookup();
      if deferMoves {
        if IsAlive(e) {
          DoomedOk(reg, Deferral().1, e);
          pendingDestroy := pendingDestroy + {e};
          if e !in deferredEntities {
            deferredEntities := deferredEntities + [e];
          }
        }
      } else {
        DestroyEntity(e);
      }
    }

    static lemma DoomedOk(reg: Registry, d: Window, e: Entity)
      requires WindowOk(d) && forall x :: OpsOk(reg, OpsOf(d, x))
      ensures var v := Touch(d.(doomed := d.doomed + {e}), e); WindowOk(v) && forall x :: OpsOk(reg, OpsOf(v, x))
    {
      hide OpsOk;
      var v := Touch(d.(doomed := d.doomed + {e}), e);
      forall x ensures OpsOf(v, x) == OpsOf(d, x) {}
    }

    method BeginDeferredMoves()
      requires Valid()
      modifies this`deferMoves
      ensures Valid() && Model() == old(Model()) && Deferral() == (true, old(Deferral()).1)
    {
      hide WorldOk, Tied, WindowTied;
      Lookup();
      deferMoves := true;
    }

    /** The final component set and the last add of each type, in one pass over the ops. */
    static method CollapseOps(ids: seq<TypeId>, ops: seq<PendingOp>)
      returns (final: set<TypeId>, lastAdd: map<TypeId, Option<Bytes>>)
      ensures final == FinalSet((set t | t in ids), ops)
      ensures forall t :: LastAdd(ops, t) == if t in lastAdd then Some(lastAdd[t]) else None
    {
      final, lastAdd := (set t | t in ids), map[];
      for k := 0 to |ops|
        invariant final == FinalSet((set t | t in ids), ops[..k])
        invariant forall t :: LastAdd(ops[..k], t) == if t in lastAdd then Some(lastAdd[t]) else None
      {
        assert ops[..k + 1][..k] == ops[..k];
        match ops[k] {
          case PendingAdd(t, data) => final, lastAdd := final + {t}, lastAdd[t := data];
          case PendingDrop(t) => final := final - {t};
        }
      }
      assert ops[..|ops|] == ops;
    }

    /** Write the last add of every surviving type. */
    method WriteSurvivors(e: Entity, ids: seq<TypeId>, ghost ops: seq<PendingOp>, lastAdd: map<TypeId, Option<Bytes>>)
      requires Tied() && S.Shaped(ix) && e in locations && forall t :: t in ids ==> t in locations[e].archetype.Key()
      requires forall t :: LastAdd(ops, t) == if t in lastAdd then Some(lastAdd[t]) else None
      modifies this`ix, this`changeTick, this`changeLog, this`changeLogGeneration, locations[e].archetype.footprint
      ensures Tied() && Model() == WriteAll(old(Model()), e, ids, ops)
    {
      hide Tied, S.Shaped, WriteCell, LastAdd, S.Payload;
      Lookup();
      Home(e);
      ghost var before := Model();
      for k := 0 to |ids|
        invariant Tied() && S.Shaped(ix) && Model() == WriteAll(before, e, ids[..k], ops)
      {
        assert ids[..k + 1][..k] == ids[..k];
        WriteAllOk(before, e, ids[..k + 1], ops);
        if ids[k] in lastAdd {
          Store(e, ids[k], S.Payload(reg, ids[k], lastAdd[ids[k]]));
        }
      }
      assert ids[..|ids|] == ids;
    }

    static lemma SameIds(a: Archetype, ids: seq<TypeId>)
      requires a.Shape() && Sorted(ids)
      ensures ids == a.componentIds <==> (set t | t in ids) == a.Key()
    {
      if (set t | t in ids) == a.Key() {
        assert forall t :: t in ids <==> t in a.Key();
        assert forall t :: t in a.componentIds <==> t in a.Key();
        SortedUnique(ids, a.componentIds);
      }
    }

    lemma Queued(e: Entity)
      requires WindowTied()
      ensures OpsOk(reg, OpsOf(Deferral().1, e))
        && (e in pendingOps ==> OpsOf(Deferral().1, e) != [] && OpsOf(Deferral().1, e) == pendingOps[e])
    {
    }

    method CommitDeferredMove(e: Entity)
      requires Valid()
      modifies this`ix, this`changeTick, this`changeLog, this`changeLogGeneration, this`events, this`locations,
        this`archetypes, this`archetypeList, this`repr, repr, queryCache
      ensures Valid() && old(repr) <= repr && fresh(repr - old(repr))
      ensures Model() == Commit(old(Model()), e, OpsOf(Deferral().1, e))
    {
      hide WorldOk, Tied, S.Shaped, WindowTied, OpsOk, Commit;
      UseOk();
      Lookup();
      Queued(e);
      CommitOk(Model(), e, OpsOf(Deferral().1, e));
      if e in locations && e in pendingOps {
        CommitOps(e, pendingOps[e]);
      } else {
        CommitNothing(Model(), e, OpsOf(Deferral().1, e));
      }
    }

    /** The archetype move of a commit, when the final set differs from the set the entity has. */
    method Settle(e: Entity, ids: seq<TypeId>, ghost final: S.Key)
      requires Tied() && S.Shaped(ix) && e in locations && ids == SortedIds(final)
        && forall t :: t in final ==> Registered(reg, t)
      modifies this`ix, this`locations, this`archetypes, this`archetypeList, this`repr, repr, queryCache
      ensures Tied() && S.Shaped(ix) && old(repr) <= repr && fresh(repr - old(repr))
      ensures e in locations && locations[e].archetype.Key() == final && locations[e].archetype.footprint <= repr
      ensures Model() == if final != old(locations[e].archetype.Key()) then ChangeKey(old(Model()), e, final)
        else old(Model())
    {
      hide Tied, S.Shaped, ChangeKey, Registered;
      WithType(e);
      Home(e);
      assert forall t :: t in final <==> t in ids;
      assert (set t | t in ids) == final;
      SameIds(locations[e].archetype, ids);
      if ids != locations[e].archetype.componentIds {
        ChangeArchetype(e, ids);
        Home(e);
      }
    }

    method CommitOps(e: Entity, ops: seq<PendingOp>)
      requires Tied() && S.Shaped(ix) && e in locations && ops != [] && OpsOk(reg, ops)
      modifies this`ix, this`changeTick, this`changeLog, this`changeLogGeneration, this`events, this`locations,
        this`archetypes, this`archetypeList, this`repr, repr, queryCache
      ensures Tied() && old(repr) <= repr && fresh(repr - old(repr))
      ensures Model() == Commit(old(Model()), e, ops)
    {
      hide Tied, S.Shaped, WriteAll, ChangeKey, FinalSet, NetEvents, Registered, OpsOk, LastAdd;
      Lookup();
      Home(e);
      WithType(e);
      ghost var key := locations[e].archetype.Key();
      var original := locations[e].archetype.componentIds;
      IdsInOrder(locations[e].archetype);
      var final, lastAdd := CollapseOps(original, ops);
      FinalRegistered(reg, key, ops);
      var ids := SortedOf(final);
      Settle(e, ids, final);
      Lookup();
      WriteAndTell(e, key, original, final, ids, ops, lastAdd);
    }

    /** The surviving writes, then the net events. */
    method WriteAndTell(e: Entity, ghost key: S.Key, original: seq<TypeId>, final: set<TypeId>, ids: seq<TypeId>,
                        ghost ops: seq<PendingOp>, lastAdd: map<TypeId, Option<Bytes>>)
      requires Tied() && S.Shaped(ix) && e in locations && locations[e].archetype.Key() == final
      requires ids == SortedIds(final) && original == SortedIds(key)
      requires forall t :: LastAdd(ops, t) == if t in lastAdd then Some(lastAdd[t]) else None
      modifies this`ix, this`changeTick, this`changeLog, this`changeLogGeneration, this`events,
        locations[e].archetype.footprint
      ensures Tied()
      ensures var m := WriteAll(old(Model()), e, ids, ops);
        Model() == m.(events := m.events + NetEvents(e, key, final, ops))
    {
      hide Tied, S.Shaped, WriteAll, NetEvents, LastAdd;
      Lookup();
      Home(e);
      assert forall t :: t in ids ==> t in final;
      WriteSurvivors(e, ids, ops, lastAdd);
      DispatchNet(e, key, original, final, ids, ops, lastAdd);
    }

    /** Added for each type the entity gained, Changed for each it kept and had written. */
    method DispatchGains(e: Entity, ghost key: S.Key, original: seq<TypeId>, ids: seq<TypeId>,
                         ghost ops: seq<PendingOp>,
                         lastAdd: map<TypeId, Option<Bytes>>)
      requires forall t :: t in original <==> t in key
      requires forall t :: LastAdd(ops, t) == if t in lastAdd then Some(lastAdd[t]) else None
      modifies this`events
      ensures events == old(events) + NetAdded(e, key, ops, ids)
    {
      hide LastAdd;
      for i := 0 to |ids|
        invariant events == old(events) + NetAdded(e, key, ops, ids[..i])
      {
        assert ids[..i + 1][..i] == ids[..i];
        if ids[i] !in original {
          Dispatch(S.AddedEvent(e, ids[i]));
        } else if ids[i] in lastAdd {
          Dispatch(S.ChangedEvent(e, ids[i]));
        }
      }
      assert ids[..|ids|] == ids;
    }

    /** Removed for each type it lost. */
    method DispatchLosses(e: Entity, original: seq<TypeId>, final: set<TypeId>)
      modifies this`events
      ensures events == old(events) + NetRemoved(e, final, original)
    {
      for i := 0 to |original|
        invariant events == old(events) + NetRemoved(e, final, original[..i])
      {
        assert original[..i + 1][..i] == original[..i];
        if original[i] !in final {
          Dispatch(S.RemovedEvent(e, original[i]));
        }
      }
      assert original[..|original|] == original;
    }

    /** One event per type against the original set. */
    method DispatchNet(e: Entity, ghost key: S.Key, original: seq<TypeId>, final: set<TypeId>, ids: seq<TypeId>,
                       ghost ops: seq<PendingOp>,
                       lastAdd: map<TypeId, Option<Bytes>>)
      requires ids == SortedIds(final) && original == SortedIds(key)
      requires forall t :: LastAdd(ops, t) == if t in lastAdd then Some(lastAdd[t]) else None
      modifies this`events
      ensures events == old(events) + NetEvents(e, key, final, ops)
    {
      hide LastAdd, NetAdded, NetRemoved, Sorted;
      DispatchGains(e, key, original, ids, ops, lastAdd);
      DispatchLosses(e, original, final);
    }

    /** Close the window: first the doomed entities die, then every other one is committed once. */
    method EndDeferredMoves()
      requires Valid()
      modifies this, repr, queryCache
      ensures Valid() && fresh(repr - old(repr))
      ensures (
        if old(deferMoves)
        then Model() == Close(old(Model()), old(Deferral()).1) && Deferral() == (false, EMPTY_WINDOW)
        else Model() == old(Model()) && Deferral() == old(Deferral()))
    {
      hide WorldOk, Tied, CommitAll, DestroyAll, WindowTied;
      if deferMoves {
        Lookup();
        deferMoves := false;
        DestroyDoomed();
        CommitRest();
        Lookup();
        ForgetWindow();
      }
    }

    method ForgetWindow()
      modifies this`pendingOps, this`pendingDestroy, this`deferredEntities
      ensures WindowTied() && Deferral() == (deferMoves, EMPTY_WINDOW)
    {
      pendingOps, pendingDestroy, deferredEntities := map[], {}, [];
    }

    method DestroyDoomed()
      requires Valid()
      modifies this`slotGenerations, this`freeSlots, this`locations, this`ix, this`events, repr
      ensures Valid() && Deferral() == old(Deferral())
      ensures Model() == DestroyAll(old(Model()), Deferral().1, deferredEntities)
    {
      hide WorldOk, Tied, Destroy, WindowTied;
      var es := deferredEntities;
      ghost var before, d := Model(), Deferral();
      for k := 0 to |es|
        invariant Valid() && Deferral() == d && repr == old(repr) && Model() == DestroyAll(before, d.1, es[..k])
      {
        assert es[..k + 1][..k] == es[..k];
        Lookup();
        if es[k] in pendingDestroy {
          DestroyEntity(es[k]);
        }
      }
      Lookup();
      assert es[..|es|] == es;
    }

    method CommitRest()
      requires Valid()
      modifies this`ix, this`changeTick, this`changeLog, this`changeLogGeneration, this`events, this`locations,
        this`archetypes, this`archetypeList, this`repr, repr, queryCache
      ensures Valid() && Deferral() == old(Deferral()) && fresh(repr - old(repr))
      ensures Model() == CommitAll(old(Model()), Deferral().1, deferredEntities)
    {
      hide WorldOk, Tied, Commit, WindowTied, OpsOf;
      var es := deferredEntities;
      ghost var before, d := Model(), Deferral();
      for k := 0 to |es|
        invariant Valid() && Deferral() == d && old(repr) <= repr && fresh(repr - old(repr))
        invariant Model() == CommitAll(before, d.1, es[..k])
      {
        assert es[..k + 1][..k] == es[..k];
        Lookup();
        if es[k] !in pendingDestroy {
          CommitDeferredMove(es[k]);
        }
      }
      Lookup();
      assert es[..|es|] == es;
    }

    // ---------------------------------------------------------------- the whole world

    /** Copy the keys out of the unordered index, in whatever order it yields them. */
    method LiveEntities() returns (all: seq<Entity>)
      ensures NoDup(all) && forall e :: e in all <==> e in locations
    {
      all := [];
      var todo := locations.Keys;
      while todo != {}
        invariant todo <= locations.Keys && NoDup(all) && forall e :: e in all <==> e in locations && e !in todo
        decreases |todo|
      {
        var e := Pick(todo);
        todo := todo - {e};
        all := all + [e];
      }
    }

    /** Empty the world without telling anybody entity by entity. `order` is the order the index was walked in. */
    method ClearWorld() returns (ghost order: seq<Entity>)
      requires Valid()
      modifies this`slotGenerations, this`freeSlots, this`locations, this`ix, this`events, this`changeLog,
        this`changeLogGeneration, repr
      ensures NoDup(order) && forall e :: e in order <==> e in old(locations)
      ensures Valid() && Model() == Clear(old(Model()), order)
    {
      hide WorldOk, Tied, ClearAll, WindowTied;
      var all := LiveEntities();
      order := all;
      if iterationDepth <= 0 {
        UseOk();
        Lookup();
        CleanOk(Model(), order);
        UnplaceAll(all);
        StartLogOver();
      }
    }

    /** The log is emptied under a new generation, and observers hear that the world was cleared. */
    method StartLogOver()
      modifies this`changeLog, this`changeLogGeneration, this`events
      ensures changeLog == [] && changeLogGeneration == old(changeLogGeneration) + 1
      ensures events == old(events) + [S.ClearedEvent]
    {
      changeLog := [];
      changeLogGeneration := changeLogGeneration + 1;
      Dispatch(S.ClearedEvent);
    }

    static lemma CleanOk(w: S.World, order: seq<Entity>)
      requires WorldOk(w) && w.depth <= 0 && forall e :: e in order <==> e in w.ix.loc
      ensures WorldOk(Clear(w, order))
    {
      hide WorldOk;
      ClearOk(w, order);
    }

    method UnplaceAll(all: seq<Entity>)
      requires Tied() && WorldOk(Model())
      modifies this`slotGenerations, this`freeSlots, this`locations, this`ix, repr
      ensures Tied() && Model() == ClearAll(old(Model()), all)
    {
      hide WorldOk, Tied, S.Shaped, S.Detach, FreeId;
      ghost var before := Model();
      for k := 0 to |all|
        invariant Tied() && WorldOk(Model()) && repr == old(repr)
        invariant ClearAll(Model(), all[k..]) == ClearAll(before, all)
      {
        Lookup();
        UseOk();
        assert all[k..][0] == all[k] && all[k..][1..] == all[k + 1..];
        if all[k] in locations {
          ClearStep(Model(), all[k]);
          Home(all[k]);
          Unplace(all[k]);
          FreeEntityId(all[k]);
        }
      }
    }

    static lemma ClearStep(w: S.World, e: Entity)
      requires WorldOk(w) && e in w.ix.loc
      ensures WorldOk(w.(ix := S.Detach(w.ix, e), slots := FreeId(w.slots, e)))
    {
      hide S.Shaped, S.Detach, FreeId, SlotsOk, S.Sized;
      DetachStore(w.ix, e);
      FreeIdOk(w.slots, e);
    }

    /** The engine's test, an archetype other than the empty one without rows, is the model's. */
    lemma KeptTests()
      requires Listed() && IndexTied() && S.Shaped(ix)
      ensures forall a :: a in archetypeList ==> (Kept(ix, a.Key()) <==> a == emptyArchetype || |a.entities| > 0)
    {
      hide S.Shaped;
      forall a | a in archetypeList ensures Kept(ix, a.Key()) <==> a == emptyArchetype || |a.entities| > 0 {
        InList(a);
        assert a.View().entities == a.entities;
        if a != emptyArchetype { assert Disjoint(a, emptyArchetype) && emptyArchetype.Key() == {}; }
      }
    }

    static lemma CompactTied(reg: Registry, list: seq<Archetype>, keep: seq<Archetype>, locs: map<Entity, Location>,
                             w: S.World)
      requires ListTied(reg, list, w.ix) && LocsTied(locs, list, w.ix)
        && (forall a :: a in list ==> a.Shape() && ArchTied(a, w.ix))
      requires S.Shaped(w.ix) && keep == KeptList(w.ix, list)
      ensures ListTied(reg, keep, Compact(w).ix) && LocsTied(locs, keep, Compact(w).ix)
      ensures forall a :: a in keep ==> a.Shape() && ArchTied(a, Compact(w).ix)
    {
      hide S.ArchOk, S.RowOk, Archetype.View, Archetype.Shape;
      KeptMembers(w.ix, list);
      KeptInStep(w.ix, w.ix.order, list);
      forall e | e in locs ensures LocTied(locs, keep, Compact(w).ix, e) {
        assert LocTied(locs, list, w.ix, e) && S.Placed(w.ix, e);
      }
    }

    /** Drop every archetype without entities, but the empty one, from the list, the map and the cached answers. */
    method CompactWorld()
      requires Valid()
      modifies this`archetypes, this`archetypeList, this`ix, queryCache
      ensures Valid() && Model() == Compact(old(Model())) && archetypeList == KeptList(old(ix), old(archetypeList))
    {
      hide WorldOk, Register, ListTied, LocsTied, S.Shaped, QueryCache.Consistent, WindowTied, Compact,
        Archetype.Shape, Archetype.View, Kept;
      UseOk();
      CompactOk(Model());
      ghost var before, list := Model(), archetypeList;
      forall a | a in list ensures a.Shape() && ArchTied(a, ix) && a.footprint <= repr { Member(a); InList(a); }
      KeptTests();
      Lookup();
      var keep := DropEmpty();
      CompactTied(reg, list, keep, locations, before);
      KeptMembers(before.ix, list);
      archetypeList := keep;
      ix := Compact(before).ix;
      CompactOnly(before);
    }

    static lemma CompactOnly(w: S.World)
      ensures Compact(w) == w.(ix := Compact(w).ix)
    {
    }

    method DropEmpty() returns (keep: seq<Archetype>)
      requires Listed() && queryCache.Consistent(archetypeList) && queryCache !in repr && this !in repr
      requires forall a :: a in archetypeList ==> (Kept(ix, a.Key()) <==> a == emptyArchetype || |a.entities| > 0)
      modifies this`archetypes, queryCache
      ensures Register(keep, archetypes, repr, emptyArchetype, this, queryCache)
      ensures queryCache.Consistent(keep) && keep == KeptList(ix, archetypeList)
    {
      hide Register, QueryCache.Consistent, Kept, Archetype.Key;
      ghost var list := archetypeList;
      keep := [];
      assert [] + list[0..] == list;
      for k := 0 to |archetypeList|
        invariant Register(keep + list[k..], archetypes, repr, emptyArchetype, this, queryCache)
        invariant queryCache.Consistent(keep + list[k..]) && keep == KeptList(ix, list[..k])
      {
        var a := archetypeList[k];
        assert keep + list[k..] == keep + [a] + list[k + 1..] && list[..k + 1][..k] == list[..k];
        if a != emptyArchetype && |a.entities| == 0 {
          ShrunkRegister(keep, a, list[k + 1..], archetypes, repr, emptyArchetype, this, queryCache);
          WithoutMiddle(keep, a, list[k + 1..]);
          archetypes := archetypes - {a.componentIds};
          queryCache.EraseArchetype(a, keep + [a] + list[k + 1..]);
        } else {
          keep := keep + [a];
        }
      }
      assert list[..|list|] == list && keep + list[|list|..] == keep;
    }

    /** `query_cache().match` over the world's archetype list. */
    method MatchQuery(q: Query) returns (arches: seq<Archetype>)
      requires Valid()
      modifies queryCache
      ensures Valid() && Model() == old(Model()) && arches == Selected(q, archetypeList)
      ensures forall a :: a in arches ==> a in archetypeList
    {
      hide WorldOk, WindowTied, QueryCache.Consistent, Archetype.Shape, IndexTied;
      Lookup();
      forall a | a in archetypeList ensures a.Shape() && a.footprint <= repr { Reach(a); }
      arches := queryCache.Match(q, archetypeList);
      SelectedMembers(q, archetypeList);
    }

    /** First index whose entry is above the tick. */
    method ChangeLogLowerBound(tick: Tick) returns (lo: nat)
      requires forall i, j :: 0 <= i < j < |changeLog| ==> changeLog[i].tick <= changeLog[j].tick
      ensures lo <= |changeLog| && forall i :: 0 <= i < |changeLog| ==> (changeLog[i].tick <= tick <==> i < lo)
    {
      lo := 0;
      var hi := |changeLog|;
      while lo < hi
        invariant 0 <= lo <= hi <= |changeLog|
        invariant forall i :: 0 <= i < lo ==> changeLog[i].tick <= tick
        invariant forall i :: hi <= i < |changeLog| ==> changeLog[i].tick > tick
      {
        var mid := lo + (hi - lo) / 2;
        if changeLog[mid].tick <= tick { lo := mid + 1; } else { hi := mid; }
      }
    }

    method BeginIteration()
      requires Valid()
      modifies this`iterationDepth
      ensures Valid() && Model() == old(Model()).(depth := old(iterationDepth) + 1)
    {
      hide Tied, WindowTied, S.Coherent, SlotsOk;
      Lookup();
      iterationDepth := iterationDepth + 1;
    }

    method EndIteration()
      requires Valid()
      modifies this`iterationDepth
      ensures Valid() && Model() == old(Model()).(depth := old(iterationDepth) - 1)
    {
      hide Tied, WindowTied, S.Coherent, SlotsOk;
      Lookup();
      iterationDepth := iterationDepth - 1;
    }

    lemma UseOk()
      requires WorldOk(Model())
      ensures S.Coherent(ix) && S.Shaped(ix) && SlotsOk(S.Slots(slotGenerations, freeSlots, poolSlots))
        && {} in ix.archs
    {
      HasEmptyArch(ix);
    }

    lemma Lookup()
      requires Tied()
      ensures ix.loc.Keys == locations.Keys && ix.reg == reg
      ensures emptyArchetype.footprint <= repr && this !in repr && queryCache !in repr
    {
    }

    /** Where one entity is. */
    lemma Home(e: Entity)
      requires Tied() && e in locations
      ensures e in ix.loc && locations[e].archetype.footprint <= repr && ix.loc[e].key == locations[e].archetype.Key()
    {
      assert LocTied(locations, archetypeList, ix, e);
    }

    lemma Found(ids: seq<TypeId>)
      requires Listed() && IndexTied() && ids in archetypes
      ensures archetypes[ids] in archetypeList && archetypes[ids].componentIds == ids
      ensures ix == S.Ensure(ix, archetypes[ids].Key())
    {
      assert ArchTied(archetypes[ids], ix);
    }
  }
}
