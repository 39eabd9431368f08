/** What each building block of the storage engine keeps, and what it does to the cells. */
module StorageLaws {
  import opened Base
  import opened Schema
  import opened Storage

  lemma HasEmptyArch(w: Index)
    requires Shaped(w)
    ensures {} in w.archs
  {
  }

  lemma RowExists(w: Index, e: Entity)
    requires Shaped(w) && e in w.loc
    ensures HasRow(w, w.loc[e])
  {
    assert Placed(w, e) && ArchOk(w, w.loc[e].key);
  }

  /** Equal cells one by one are equal cells. */
  lemma SameCells(w: Index, v: Index, x: Entity)
    requires x in w.loc && x in v.loc && HasRow(w, w.loc[x]) && HasRow(v, v.loc[x]) && v.loc[x].key == w.loc[x].key
    requires forall t :: t in w.loc[x].key ==> CellAt(v, v.loc[x], t) == CellAt(w, w.loc[x], t)
    ensures CellsOf(v, x) == CellsOf(w, x)
  {
  }

  lemma AddedOk(a: Arch, e: Entity, tick: Tick)
    requires a.Ok() && e !in a.rowOf
    ensures a.Added(e, tick).Ok()
  {
    var b := a.Added(e, tick);
    forall r | 0 <= r < |b.entities| ensures b.entities[r] in b.rowOf && b.rowOf[b.entities[r]] == r {}
  }

  lemma RemovedOk(a: Arch, e: Entity)
    requires a.Ok() && e in a.rowOf
    ensures a.Removed(e).Ok() && a.Removed(e).rowOf.Keys == a.rowOf.Keys - {e}
  {
    var b := a.Removed(e);
    var r, n := a.rowOf[e], |a.entities| - 1;
    forall i | 0 <= i < n ensures b.entities[i] in b.rowOf && b.rowOf[b.entities[i]] == i {}
    forall x | x in b.rowOf ensures b.rowOf[x] < n && b.entities[b.rowOf[x]] == x {}
  }

  lemma EnsureShaped(w: Index, k: Key)
    requires Shaped(w) && forall t :: t in k ==> Registered(w.reg, t)
    ensures Shaped(Ensure(w, k))
  {
    var v := Ensure(w, k);
    if k !in w.archs {
      assert k !in Elements(w.order);
      assert Elements(v.order) == Elements(w.order) + {k};
      forall j | j in v.archs ensures ArchOk(v, j) { if j != k { assert ArchOk(w, j); } }
      forall j, r | j in v.archs && 0 <= r < |v.archs[j].entities| ensures RowOk(v, j, r) { assert RowOk(w, j, r); }
      forall e | e in v.loc ensures Placed(v, e) { assert Placed(w, e); }
    }
  }

  lemma EnsureCells(w: Index, k: Key, x: Entity)
    requires Shaped(w) && x in w.loc
    ensures CellsOf(Ensure(w, k), x) == CellsOf(w, x)
  {
    assert Placed(w, x);
  }

  /** What an entity holds on arrival: the bytes it brought, nothing written yet elsewhere. A version comes
      along only between tracked columns; a tracked column stamps everything else with the current tick. */
  ghost predicate Arrived(brought: map<TypeId, Cell>, held: map<TypeId, Cell>, to: Key, tick: Tick) {
    held.Keys == to && forall t :: t in to ==> ArrivedCell(brought, held[t], t, tick)
  }

  ghost predicate ArrivedCell(brought: map<TypeId, Cell>, c: Cell, t: TypeId, tick: Tick) {
    && c.bytes == (if t in brought then brought[t].bytes else UNWRITTEN)
    && c.version == (if !c.tracked then 0 else if t in brought && brought[t].tracked then brought[t].version else tick)
  }

  lemma AttachRow(w: Index, e: Entity, to: Key, cells: map<TypeId, Cell>, tick: Tick, j: Key, r: nat)
    requires Shaped(w) && e !in w.loc && e != NO_ENTITY && to in w.archs && j in w.archs
    requires r < |Attach(w, e, to, cells, tick).archs[j].entities|
    ensures RowOk(Attach(w, e, to, cells, tick), j, r)
  {
    if j != to || r < |w.archs[to].entities| { assert RowOk(w, j, r); }
  }

  lemma AttachArchs(w: Index, e: Entity, to: Key, cells: map<TypeId, Cell>, tick: Tick, j: Key)
    requires Shaped(w) && e !in w.loc && e != NO_ENTITY && to in w.archs && j in w.archs
    ensures ArchOk(Attach(w, e, to, cells, tick), j)
  {
    assert ArchOk(w, j);
    if j == to {
      assert e !in w.archs[to].rowOf by {
        assert forall x :: x in w.archs[to].rowOf ==> RowOk(w, to, w.archs[to].rowOf[x]);
      }
      AddedOk(w.archs[to], e, tick);
    }
  }

  lemma AttachShaped(w: Index, e: Entity, to: Key, cells: map<TypeId, Cell>, tick: Tick)
    requires Shaped(w) && e !in w.loc && e != NO_ENTITY && to in w.archs
    ensures Shaped(Attach(w, e, to, cells, tick))
    ensures Attach(w, e, to, cells, tick).reg == w.reg
    ensures Attach(w, e, to, cells, tick).loc == w.loc[e := Loc(to, |w.archs[to].entities|)]
  {
    var v := Attach(w, e, to, cells, tick);
    forall j | j in v.archs ensures ArchOk(v, j) { AttachArchs(w, e, to, cells, tick, j); }
    forall j, r | j in v.archs && 0 <= r < |v.archs[j].entities| ensures RowOk(v, j, r) {
      AttachRow(w, e, to, cells, tick, j, r);
    }
    forall x | x in v.loc ensures Placed(v, x) { if x != e { assert Placed(w, x); } }
  }

  lemma AttachCells(w: Index, e: Entity, to: Key, cells: map<TypeId, Cell>, tick: Tick, x: Entity)
    requires Shaped(w) && e !in w.loc && e != NO_ENTITY && to in w.archs && x in w.loc
    ensures x in Attach(w, e, to, cells, tick).loc && Attach(w, e, to, cells, tick).loc[x] == w.loc[x]
    ensures CellsOf(Attach(w, e, to, cells, tick), x) == CellsOf(w, x)
  {
    var v := Attach(w, e, to, cells, tick);
    assert HasRow(v, v.loc[x]) by { AttachShaped(w, e, to, cells, tick); RowExists(v, x); }
    RowExists(w, x);
    assert Placed(w, x);
    SameCells(w, v, x);
  }

  lemma AttachedCol(c: Col, n: nat, tick: Tick)
    requires c.Ok(n)
    ensures var g := c.Grow().SetVersion(n, tick);
      g.Ok(n + 1) && g.tracking == c.tracking && g.rows == c.rows + [UNWRITTEN] && g.Version(n) == if c.tracking
        then tick else 0
  {
  }

  lemma AttachedAt(w: Index, e: Entity, to: Key, cells: map<TypeId, Cell>, tick: Tick, t: TypeId)
    requires to in w.archs && w.archs[to].Ok() && t in w.archs[to].cols
    ensures var v, l := Attach(w, e, to, cells, tick), Loc(to, |w.archs[to].entities|);
      && t in v.archs[to].cols && l.row < |v.archs[to].cols[t].rows|
      && CellAt(v, l, t).tracked == w.archs[to].cols[t].tracking
      && ArrivedCell(cells, CellAt(v, l, t), t, tick)
  {
    AttachedCol(w.archs[to].cols[t], |w.archs[to].entities|, tick);
  }

  lemma AttachedCells(w: Index, e: Entity, to: Key, cells: map<TypeId, Cell>, tick: Tick)
    requires Shaped(w) && e !in w.loc && e != NO_ENTITY && to in w.archs
    ensures w.archs[to].cols.Keys == to && Arrived(cells, CellsOf(Attach(w, e, to, cells, tick), e), to, tick)
    ensures forall t :: t in to ==> CellsOf(Attach(w, e, to, cells, tick), e)[t].tracked == w.archs[to].cols[t].tracking
  {
    var v, l := Attach(w, e, to, cells, tick), Loc(to, |w.archs[to].entities|);
    assert HasRow(v, l) by { AttachShaped(w, e, to, cells, tick); RowExists(v, e); }
    assert ArchOk(w, to);
    forall t | t in to
      ensures CellAt(v, l, t).tracked == w.archs[to].cols[t].tracking && ArrivedCell(cells, CellAt(v, l, t), t, tick)
    {
      AttachedAt(w, e, to, cells, tick, t);
    }
  }

  /** The row of the old archetype that ends up in row i once e is gone. */
  function SourceRow(a: Arch, e: Entity, i: nat): nat
    requires e in a.rowOf && a.entities != []
  {
    if i == a.rowOf[e] then |a.entities| - 1 else i
  }

  lemma RemovedRows(a: Arch, e: Entity, i: nat)
    requires a.Ok() && e in a.rowOf && i < |a.entities| - 1
    ensures var b, j := a.Removed(e), SourceRow(a, e, i);
      && |b.entities| == |a.entities| - 1
      && b.entities[i] == a.entities[j]
      && (i == a.rowOf[e] ==> a.Filler(e) == a.entities[j])
      && forall t :: t in a.cols ==>
        b.cols[t].rows[i] == a.cols[t].rows[j] && b.cols[t].Version(i) == a.cols[t].Version(j)
          && b.cols[t].tracking == a.cols[t].tracking
  {
  }

  /** Only the filler moves, into the hole. */
  lemma DetachLoc(w: Index, e: Entity, x: Entity)
    requires Shaped(w) && e in w.loc && x in w.loc && x != e
    ensures x in Detach(w, e).loc
    ensures var a := w.archs[w.loc[e].key];
      Detach(w, e).loc[x] == if w.loc[x] == Loc(w.loc[e].key, |a.entities| - 1) then w.loc[e] else w.loc[x]
  {
    var key := w.loc[e].key;
    var a := w.archs[key];
    assert Placed(w, e) && ArchOk(w, key) && Placed(w, x);
    assert RowOk(w, key, |a.entities| - 1);
  }

  lemma DetachRow(w: Index, e: Entity, j: Key, r: nat)
    requires Shaped(w) && e in w.loc && j in w.archs && r < |Detach(w, e).archs[j].entities|
    ensures RowOk(Detach(w, e), j, r)
  {
    var key := w.loc[e].key;
    assert Placed(w, e) && ArchOk(w, key);
    var a := w.archs[key];
    if j == key {
      RemovedRows(a, e, r);
      var i := SourceRow(a, e, r);
      assert RowOk(w, j, i);
      DetachLoc(w, e, a.entities[i]);
    } else {
      assert RowOk(w, j, r);
      DetachLoc(w, e, w.archs[j].entities[r]);
    }
  }

  lemma DetachPlaced(w: Index, e: Entity, x: Entity)
    requires Shaped(w) && e in w.loc && x in w.loc && x != e
    ensures x in Detach(w, e).loc && Placed(Detach(w, e), x)
  {
    var key := w.loc[e].key;
    assert Placed(w, e) && ArchOk(w, key) && Placed(w, x);
    DetachLoc(w, e, x);
    if w.loc[x].key == key { RemovedRows(w.archs[key], e, Detach(w, e).loc[x].row); }
  }

  lemma DetachArchs(w: Index, e: Entity, j: Key)
    requires Shaped(w) && e in w.loc && j in w.archs
    ensures j in Detach(w, e).archs && ArchOk(Detach(w, e), j)
  {
    assert Placed(w, e) && ArchOk(w, w.loc[e].key) && ArchOk(w, j);
    RemovedOk(w.archs[w.loc[e].key], e);
  }

  lemma DetachShaped(w: Index, e: Entity)
    requires Shaped(w) && e in w.loc
    ensures Shaped(Detach(w, e)) && Detach(w, e).loc.Keys == w.loc.Keys - {e}
    ensures w.loc[e].key in Detach(w, e).archs && Detach(w, e).reg == w.reg
    ensures Detach(w, e).archs == w.archs[w.loc[e].key := Detach(w, e).archs[w.loc[e].key]]
  {
    hide RowOk, ArchOk, Arch.Ok, Arch.Removed, Arch.Filler;
    var v := Detach(w, e);
    assert Placed(w, e);
    DetachArchs(w, e, w.loc[e].key);
    forall j | j in v.archs ensures ArchOk(v, j) { DetachArchs(w, e, j); }
    forall j, r | j in v.archs && 0 <= r < |v.archs[j].entities| ensures RowOk(v, j, r) { DetachRow(w, e, j, r); }
    forall x | x in v.loc ensures Placed(v, x) { DetachPlaced(w, e, x); }
    forall x ensures x in v.loc <==> x in w.loc && x != e { if x in w.loc && x != e { DetachLoc(w, e, x); } }
  }

  lemma LiveHandle(w: Index, e: Entity)
    requires Shaped(w) && e in w.loc
    ensures e != NO_ENTITY
  {
    assert Placed(w, e) && RowOk(w, w.loc[e].key, w.loc[e].row);
  }

  lemma DetachCells(w: Index, e: Entity, x: Entity)
    requires Shaped(w) && e in w.loc && x in w.loc && x != e
    ensures x in Detach(w, e).loc && Detach(w, e).loc[x].key == w.loc[x].key
    ensures CellsOf(Detach(w, e), x) == CellsOf(w, x)
  {
    var v := Detach(w, e);
    var key := w.loc[e].key;
    DetachLoc(w, e, x);
    assert HasRow(v, v.loc[x]) by { DetachShaped(w, e); RowExists(v, x); }
    RowExists(w, x);
    assert Placed(w, e) && ArchOk(w, key) && Placed(w, x);
    if w.loc[x].key == key { RemovedRows(w.archs[key], e, v.loc[x].row); }
    SameCells(w, v, x);
  }

  lemma WithColShaped(w: Index, k: Key, t: TypeId, c: Col)
    requires Shaped(w) && k in w.archs && t in k && c.Ok(|w.archs[k].entities|)
    ensures Shaped(WithCol(w, k, t, c))
  {
    var v := WithCol(w, k, t, c);
    assert ArchOk(w, k);
    forall j | j in v.archs ensures ArchOk(v, j) { assert ArchOk(w, j); }
    forall j, r | j in v.archs && 0 <= r < |v.archs[j].entities| ensures RowOk(v, j, r) { assert RowOk(w, j, r); }
    forall e | e in v.loc ensures Placed(v, e) { assert Placed(w, e); }
  }

  lemma WithColCells(w: Index, k: Key, t: TypeId, c: Col, x: Entity)
    requires Shaped(w) && k in w.archs && t in k && c.Ok(|w.archs[k].entities|) && x in w.loc
    ensures w.loc[x].key == k ==> w.loc[x].row < |c.rows|
    ensures CellsOf(WithCol(w, k, t, c), x) ==
      if w.loc[x].key == k then CellsOf(w, x)[t := Cell(c.rows[w.loc[x].row], c.tracking, c.Version(w.loc[x].row))]
      else CellsOf(w, x)
  {
    var v := WithCol(w, k, t, c);
    assert HasRow(v, v.loc[x]) by { WithColShaped(w, k, t, c); RowExists(v, x); }
    RowExists(w, x);
    assert Placed(w, x);
    if w.loc[x].key != k { SameCells(w, v, x); }
  }
}
