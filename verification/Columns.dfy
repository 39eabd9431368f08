/** Column and archetype storage: one row per entity, swap-removed. */
module Columns {
  import opened Base
  import opened Schema
  import opened Storage

  /** All rows of one component type in one archetype, with lazily enabled change versions. */
  class Column {
    var rows: seq<Bytes>
    var versions: seq<Tick>
    var tracking: bool
    var maxVersion: Tick

    ghost function View(): Col
      reads this
    {
      Col(rows, versions, tracking, maxVersion)
    }

    function VersionAt(i: nat): Tick
      reads this
    {
      if tracking && i < |versions| then versions[i] else 0
    }

    constructor ()
      ensures View() == Col([], [], false, 0)
    {
      rows, versions, tracking, maxVersion := [], [], false, 0;
    }

    method Grow()
      modifies this
      ensures View() == old(View()).Grow()
    {
      rows := rows + [UNWRITTEN];
      if tracking {
        versions := versions + [0];
      }
    }

    method SwapRemove(i: nat)
      requires i < |rows| && View().Ok(|rows|)
      modifies this
      ensures View() == old(View()).Drop(i)
    {
      var last := |rows| - 1;
      if i + 1 < |rows| {
        rows := rows[i := rows[last]];
        if tracking {
          versions := versions[i := versions[last]];
        }
      }
      rows := rows[..last];
      if tracking {
        versions := versions[..last];
        maxVersion := 0;
      }
    }

    method PopBack()
      requires View().Ok(|rows|)
      modifies this
      ensures old(|rows|) == 0 ==> View() == old(View())
      ensures old(|rows|) > 0 ==> View() == old(View()).Drop(old(|rows|) - 1)
    {
      if |rows| == 0 {
        return;
      }
      rows := rows[..|rows| - 1];
      if tracking {
        versions := versions[..|versions| - 1];
        maxVersion := 0;
      }
    }

    method EnsureVersions(tick: Tick)
      modifies this
      ensures View() == old(View()).EnsureVersions(tick)
    {
      if !tracking {
        tracking := true;
        versions := seq(|rows|, i => tick);
        maxVersion := tick;
      }
    }

    /** `mark_changed` and `set_version` are the same store with the same maximum. */
    method SetVersion(i: nat, v: Tick)
      modifies this
      ensures View() == old(View()).SetVersion(i, v)
    {
      if tracking && i < |versions| {
        versions := versions[i := v];
        if v > maxVersion {
          maxVersion := v;
        }
      }
    }

    method Write(i: nat, data: Bytes)
      requires i < |rows|
      modifies this
      ensures View() == old(View()).SetRow(i, data)
    {
      rows := rows[i := data];
    }
  }

  ghost function IndexOf(ids: seq<TypeId>, t: TypeId): (i: nat)
    requires t in ids
    ensures i < |ids| && ids[i] == t
  {
    var i :| 0 <= i < |ids| && ids[i] == t;
    i
  }

  ghost predicate Injective(cs: seq<Column>) {
    forall i, j :: 0 <= i < j < |cs| ==> cs[i] != cs[j]
  }

  ghost function ColumnSet(cs: seq<Column>): set<object> {
    set c: object | c in cs
  }

  /** All entities with exactly one component set: parallel arrays and one column per component. */
  class Archetype {
    const componentIds: seq<TypeId>
    const columns: seq<Column>
    ghost const footprint: set<object>
    var entities: seq<Entity>
    var enabled: seq<bool>
    var entityToRow: map<Entity, nat>

    ghost predicate Shape() {
      && Sorted(componentIds) && |columns| == |componentIds| && Injective(columns)
      && footprint == {this} + ColumnSet(columns)
    }

    ghost function Key(): Key {
      set t | t in componentIds
    }

    ghost function ColViews(): map<TypeId, Col>
      requires Shape()
      reads columns
    {
      map t | t in componentIds :: columns[IndexOf(componentIds, t)].View()
    }

    ghost function View(): Arch
      requires Shape()
      reads footprint
    {
      assert forall c :: c in columns ==> c in ColumnSet(columns);
      Arch(entities, enabled, ColViews(), entityToRow)
    }

    ghost predicate Valid()
      reads footprint
    {
      Shape() && View().Ok()
    }

    lemma ColAt(i: nat)
      requires Shape() && i < |columns|
      ensures componentIds[i] in ColViews() && ColViews()[componentIds[i]] == columns[i].View()
    {
    }

    lemma ColumnsOk(n: nat)
      requires Shape() && forall t :: t in ColViews() ==> ColViews()[t].Ok(n)
      ensures forall j :: 0 <= j < |columns| ==> columns[j].View().Ok(n)
    {
      forall j | 0 <= j < |columns| ensures columns[j].View().Ok(n) { ColAt(j); }
    }

    lemma AllAt()
      requires Shape()
      ensures ColViews().Keys == Key()
      ensures forall i :: 0 <= i < |columns| ==>
        componentIds[i] in Key() && ColViews()[componentIds[i]] == columns[i].View()
    {
      forall i | 0 <= i < |columns| ensures ColViews()[componentIds[i]] == columns[i].View() { ColAt(i); }
    }

    /** Only column i differs from what the columns showed before. */
    lemma OneColumn(before: map<TypeId, Col>, i: nat)
      requires Shape() && i < |columns| && before.Keys == Key()
      requires forall j :: 0 <= j < |columns| && j != i ==> before[componentIds[j]] == columns[j].View()
      ensures ColViews() == before[componentIds[i] := columns[i].View()]
    {
    }

    constructor (ids: seq<TypeId>)
      requires Sorted(ids)
      ensures Valid() && componentIds == ids && fresh(footprint)
      ensures entities == [] && enabled == [] && entityToRow == map[]
      ensures ColViews().Keys == Key() && forall t :: t in ids ==> ColViews()[t] == Col([], [], false, 0)
    {
      componentIds := ids;
      entities, enabled, entityToRow := [], [], map[];
      var cs: seq<Column> := [];
      for k := 0 to |ids|
        invariant |cs| == k && Injective(cs) && fresh(cs)
        invariant forall j :: 0 <= j < k ==> cs[j].View() == Col([], [], false, 0)
      {
        var c := new Column();
        cs := cs + [c];
      }
      columns := cs;
      footprint := {this} + ColumnSet(cs);
    }

    /** Binary search over the sorted id list; -1 when absent. */
    method ColumnIndex(t: TypeId) returns (i: int)
      requires Shape()
      ensures t in componentIds ==> 0 <= i < |componentIds| && componentIds[i] == t
      ensures t !in componentIds ==> i == -1
    {
      var lo, hi := 0, |componentIds|;
      while lo < hi
        invariant 0 <= lo <= hi <= |componentIds|
        invariant forall k :: 0 <= k < lo ==> componentIds[k] < t
        invariant forall k :: hi <= k < |componentIds| ==> componentIds[k] >= t
      {
        var mid := lo + (hi - lo) / 2;
        if componentIds[mid] < t { lo := mid + 1; } else { hi := mid; }
      }
      if lo == |componentIds| || componentIds[lo] != t { return -1; }
      return lo;
    }

    method GrowColumns(row: nat, tick: Tick)
      requires Shape()
      modifies columns
      ensures ColViews() == map t | t in old(ColViews()) :: old(ColViews())[t].Grow().SetVersion(row, tick)
    {
      hide Col.Grow;
      for k := 0 to |columns|
        invariant forall j :: 0 <= j < k ==> columns[j].View() == old(columns[j].View()).Grow().SetVersion(row, tick)
        invariant forall j :: k <= j < |columns| ==> columns[j].View() == old(columns[j].View())
      {
        columns[k].Grow();
        if columns[k].tracking {
          columns[k].SetVersion(row, tick);
        }
      }
    }

    method DropColumns(row: nat, n: nat)
      requires Shape() && row < n && forall t :: t in ColViews() ==> ColViews()[t].Ok(n)
      modifies columns
      ensures ColViews() == map t | t in old(ColViews()) :: old(ColViews())[t].Drop(row)
    {
      hide Col.Drop;
      ColumnsOk(n);
      for k := 0 to |columns|
        invariant forall j :: 0 <= j < k ==> columns[j].View() == old(columns[j].View()).Drop(row)
        invariant forall j :: k <= j < |columns| ==> columns[j].View() == old(columns[j].View())
      {
        assert columns[k].View().Ok(n);
        if row != n - 1 {
          columns[k].SwapRemove(row);
        } else {
          columns[k].PopBack();
        }
      }
    }

    method AddEntity(e: Entity, tick: Tick) returns (row: nat)
      requires Valid()
      modifies footprint
      ensures View() == old(View()).Added(e, tick) && row == old(|entities|)
    {
      hide Col.Grow, Col.SetVersion, Arch.Ok, Archetype.ColViews, Sorted, Injective;
      row := |entities|;
      entities := entities + [e];
      enabled := enabled + [true];
      GrowColumns(row, tick);
      entityToRow := entityToRow[e := row];
    }

    /** Swap-remove; returns the entity moved into the hole, or none. */
    method RemoveEntity(e: Entity) returns (moved: Entity)
      requires Valid()
      modifies footprint
      ensures e !in old(entityToRow) ==> View() == old(View()) && moved == NO_ENTITY
      ensures e in old(entityToRow) ==> View() == old(View()).Removed(e) && moved == old(View()).Filler(e)
    {
      hide Col.Drop, Archetype.ColViews, Sorted, Injective;
      if e !in entityToRow {
        return NO_ENTITY;
      }
      var row := entityToRow[e];
      entityToRow := entityToRow - {e};
      var last := |entities| - 1;
      moved := NO_ENTITY;
      DropColumns(row, |entities|);
      if row != last {
        moved := entities[last];
        entities := entities[row := moved];
        entityToRow := entityToRow[moved := row];
        enabled := enabled[row := enabled[last]];
      }
      entities := entities[..last];
      enabled := enabled[..last];
    }
  }

  /** `push_back` and `sort`: the id list with one id more. */
  method Inserted(ids: seq<TypeId>, t: TypeId) returns (r: seq<TypeId>)
    requires Sorted(ids) && t !in ids
    ensures Sorted(r) && forall u :: u in r <==> u in ids || u == t
  {
    var i := 0;
    while i < |ids| && ids[i] < t
      invariant i <= |ids| && forall k :: 0 <= k < i ==> ids[k] < t
    {
      i := i + 1;
    }
    r := ids[..i] + [t] + ids[i..];
    assert ids == ids[..i] + ids[i..];
  }

  /** `find` and `erase`: the id list without one id. */
  method Deleted(ids: seq<TypeId>, t: TypeId) returns (r: seq<TypeId>)
    requires Sorted(ids)
    ensures Sorted(r) && forall u :: u in r <==> u in ids && u != t
  {
    var i := 0;
    while i < |ids| && ids[i] != t
      invariant i <= |ids| && t !in ids[..i]
    {
      i := i + 1;
    }
    assert ids == ids[..i] + ids[i..];
    if i == |ids| {
      return ids;
    }
    r := ids[..i] + ids[i + 1..];
    assert ids == ids[..i] + [t] + ids[i + 1..];
  }

  /** The ids of an unordered set, sorted. */
  method SortedOf(s: set<TypeId>) returns (ids: seq<TypeId>)
    ensures ids == SortedIds(s)
  {
    ids := [];
    var todo := s;
    while todo != {}
      invariant todo <= s && Sorted(ids) && forall t :: t in ids <==> t in s && t !in todo
      decreases |todo|
    {
      var t := Pick(todo);
      todo := todo - {t};
      ids := Inserted(ids, t);
    }
    SortedUnique(ids, SortedIds(s));
  }

  /** Overwrite one cell and stamp it; says whether its column keeps versions. */
  method WriteComponent(a: Archetype, t: TypeId, row: nat, data: Bytes, tick: Tick) returns (tracked: bool)
    requires a.Valid() && t in a.Key() && row < |a.entities|
    modifies a.footprint
    ensures t in old(a.View()).cols && row < |old(a.View()).cols[t].rows|
    ensures a.View() == old(a.View()).(cols :=
      old(a.View()).cols[t := old(a.View()).cols[t].SetRow(row, data).SetVersion(row, tick)])
    ensures tracked == old(a.View()).cols[t].tracking
  {
    hide Archetype.ColViews;
    var i := a.ColumnIndex(t);
    ghost var before := a.ColViews();
    a.AllAt();
    a.ColumnsOk(|a.entities|);
    a.columns[i].Write(row, data);
    a.columns[i].SetVersion(row, tick);
    tracked := a.columns[i].tracking;
    a.OneColumn(before, i);
  }

  /** Overwrite one cell through a raw pointer: no stamp. */
  method PokeComponent(a: Archetype, t: TypeId, row: nat, data: Bytes)
    requires a.Valid() && t in a.Key() && row < |a.entities|
    modifies a.footprint
    ensures t in old(a.View()).cols && row < |old(a.View()).cols[t].rows|
    ensures a.View() == old(a.View()).(cols := old(a.View()).cols[t := old(a.View()).cols[t].SetRow(row, data)])
  {
    hide Archetype.ColViews;
    var i := a.ColumnIndex(t);
    ghost var before := a.ColViews();
    a.AllAt();
    a.ColumnsOk(|a.entities|);
    a.columns[i].Write(row, data);
    a.OneColumn(before, i);
  }

  /** Turn version tracking on for one column. */
  method TrackComponent(a: Archetype, t: TypeId, tick: Tick)
    requires a.Valid() && t in a.Key()
    modifies a.footprint
    ensures t in old(a.View()).cols
    ensures a.View() == old(a.View()).(cols := old(a.View()).cols[t := old(a.View()).cols[t].EnsureVersions(tick)])
  {
    hide Col.EnsureVersions, Archetype.ColViews;
    var i := a.ColumnIndex(t);
    ghost var before := a.ColViews();
    a.AllAt();
    a.columns[i].EnsureVersions(tick);
    a.OneColumn(before, i);
  }

  /** `mark_changed`: track, then stamp one row. */
  method StampComponent(a: Archetype, t: TypeId, row: nat, now: Tick, tick: Tick)
    requires a.Valid() && t in a.Key()
    modifies a.footprint
    ensures t in old(a.View()).cols
    ensures a.View() == old(a.View()).(cols :=
      old(a.View()).cols[t := old(a.View()).cols[t].EnsureVersions(now).SetVersion(row, tick)])
  {
    hide Col.EnsureVersions, Col.SetVersion, Archetype.ColViews;
    var i := a.ColumnIndex(t);
    ghost var before := a.ColViews();
    a.AllAt();
    a.columns[i].EnsureVersions(now);
    a.columns[i].SetVersion(row, tick);
    a.OneColumn(before, i);
  }

  ghost function CellIn(c: Col, row: nat): Cell
    requires row < |c.rows|
  {
    Cell(c.rows[row], c.tracking, c.Version(row))
  }

  /** What the column of type t holds once the merge walk has passed it. */
  ghost function Merged(c: Col, newRow: nat, src: map<TypeId, Col>, t: TypeId, fromRow: nat): Col {
    if t in src && fromRow < |src[t].rows| && newRow < |c.rows| then c.Receive(newRow, CellIn(src[t], fromRow)) else c
  }

  method CopyCell(dst: Column, newRow: nat, src: Column, fromRow: nat)
    requires dst != src && newRow < |dst.rows| && fromRow < |src.rows|
    modifies dst
    ensures dst.View() == old(dst.View()).Receive(newRow, CellIn(src.View(), fromRow))
  {
    dst.Write(newRow, src.rows[fromRow]);
    if dst.tracking && src.tracking {
      dst.SetVersion(newRow, src.VersionAt(fromRow));
    }
  }

  /** A target id between two neighbours of the sorted source list is in no source column. */
  lemma NotShared(src: seq<TypeId>, i: nat, t: TypeId)
    requires Sorted(src) && i <= |src| && (forall m :: 0 <= m < i ==> src[m] < t) && (i < |src| ==> t < src[i])
    ensures t !in src
  {
  }

  /** One linear walk over both sorted id lists copies exactly the columns the two lists share. */
  method MergeWalk(src: seq<TypeId>, srcCols: seq<Column>, dst: seq<TypeId>, dstCols: seq<Column>, fromRow: nat,
                   newRow: nat,
                   ghost shared: map<TypeId, Col>)
    requires Sorted(src) && Sorted(dst) && |src| == |srcCols| && |dst| == |dstCols| && Injective(dstCols)
    requires forall k, m :: 0 <= k < |srcCols| && 0 <= m < |dstCols| ==> srcCols[k] != dstCols[m]
    requires forall k :: 0 <= k < |srcCols| ==> fromRow < |srcCols[k].rows|
    requires forall k :: 0 <= k < |dstCols| ==> newRow < |dstCols[k].rows|
    requires forall k :: 0 <= k < |src| ==> src[k] in shared && shared[src[k]] == srcCols[k].View()
    requires forall t :: t in shared ==> t in src
    modifies dstCols
    ensures forall k :: 0 <= k < |dstCols| ==>
      dstCols[k].View() == Merged(old(dstCols[k].View()), newRow, shared, dst[k], fromRow)
  {
    hide Col.Receive, CellIn;
    ghost var before := Views(dstCols);
    var i, j := 0, 0;
    while i < |src| && j < |dst|
      invariant i <= |src| && j <= |dst|
      invariant forall m, k :: 0 <= m < i && j <= k < |dst| ==> src[m] < dst[k]
      invariant forall k :: 0 <= k < |dst| ==>
        dstCols[k].View() == if k < j then Merged(before[k], newRow, shared, dst[k], fromRow) else before[k]
    {
      if src[i] < dst[j] {
        i := i + 1;
      } else if dst[j] < src[i] {
        NotShared(src, i, dst[j]);
        j := j + 1;
      } else {
        CopyCell(dstCols[j], newRow, srcCols[i], fromRow);
        i, j := i + 1, j + 1;
      }
    }
    forall k | j <= k < |dst| ensures dst[k] !in src { NotShared(src, i, dst[k]); }
  }

  method CopyShared(from: Archetype, to: Archetype, fromRow: nat, newRow: nat)
    requires from.Shape() && to.Shape() && from.footprint !! to.footprint
    requires forall k :: 0 <= k < |from.columns| ==> fromRow < |from.columns[k].rows|
    requires forall k :: 0 <= k < |to.columns| ==> newRow < |to.columns[k].rows|
    modifies to.columns
    ensures to.ColViews() == map t | t in old(to.ColViews()) ::
      Merged(old(to.ColViews())[t], newRow, from.ColViews(), t, fromRow)
    ensures from.ColViews() == old(from.ColViews())
  {
    hide Merged;
    Separate(from, to);
    forall k | 0 <= k < |from.componentIds|
      ensures from.componentIds[k] in from.ColViews() && from.ColViews()[from.componentIds[k]] == from.columns[k].View()
    {
      from.ColAt(k);
    }
    MergeWalk(from.componentIds, from.columns, to.componentIds, to.columns, fromRow, newRow, from.ColViews());
  }

  /** The target archetype once e has arrived from row `fromRow` of src. */
  ghost function MergedArch(dst: Arch, src: Arch, e: Entity, tick: Tick, fromRow: nat): Arch {
    var a := dst.Added(e, tick);
    a.(cols := map t | t in a.cols :: Merged(a.cols[t], |dst.entities|, src.cols, t, fromRow))
  }

  /** Append to the target, copy what is shared, swap-remove from the source. */
  method Transfer(from: Archetype, to: Archetype, e: Entity, fromRow: nat, tick: Tick)
    returns (newRow: nat, moved: Entity)
    requires from.Valid() && to.Valid() && from.footprint !! to.footprint
    requires e in from.entityToRow && from.entityToRow[e] == fromRow && e !in to.entityToRow
    modifies from.footprint, to.footprint
    ensures newRow == old(|to.entities|) && moved == old(from.View()).Filler(e)
    ensures to.View() == MergedArch(old(to.View()), old(from.View()), e, tick, fromRow)
    ensures from.View() == old(from.View()).Removed(e)
  {
    hide Arch.Removed, Merged, Sorted, Injective;
    newRow := to.AddEntity(e, tick);
    RowsOf(from, from.View());
    AddedRows(to, old(to.View()), e, tick);
    CopyShared(from, to, fromRow, newRow);
    moved := from.RemoveEntity(e);
  }

  lemma RowsOf(a: Archetype, v: Arch)
    requires a.Shape() && v == a.View() && v.Ok()
    ensures forall k :: 0 <= k < |a.columns| ==> |a.columns[k].rows| == |v.entities|
  {
    a.ColumnsOk(|v.entities|);
  }

  lemma AddedRows(a: Archetype, before: Arch, e: Entity, tick: Tick)
    requires a.Shape() && before.Ok() && a.View() == before.Added(e, tick)
    ensures forall k :: 0 <= k < |a.columns| ==> |a.columns[k].rows| == |before.entities| + 1
  {
    forall k | 0 <= k < |a.columns| ensures |a.columns[k].rows| == |before.entities| + 1 { a.ColAt(k); }
  }

  ghost function Views(cs: seq<Column>): (vs: seq<Col>)
    reads cs
    ensures |vs| == |cs| && forall k :: 0 <= k < |cs| ==> vs[k] == cs[k].View()
  {
    if cs == [] then [] else Views(cs[..|cs| - 1]) + [cs[|cs| - 1].View()]
  }

  lemma Separate(a: Archetype, b: Archetype)
    requires a.Shape() && b.Shape() && a.footprint !! b.footprint
    ensures forall k, m :: 0 <= k < |a.columns| && 0 <= m < |b.columns| ==> a.columns[k] != b.columns[m]
  {
    forall k, m | 0 <= k < |a.columns| && 0 <= m < |b.columns| ensures a.columns[k] != b.columns[m] {
      assert a.columns[k] in ColumnSet(a.columns) && b.columns[m] in ColumnSet(b.columns);
    }
  }
}
