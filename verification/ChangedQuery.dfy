/** The query builder's changed filter: the plain version scan that change views speed up, with a baseline per query. */
module ChangedQueries {
  import opened Base
  import opened Schema
  import S = Storage
  import opened StorageLaws
  import opened Operations
  import opened Columns
  import opened Queries
  import opened Engine
  import opened Changes
  import opened ChangeLaws
  import opened Takes
  import opened Views
  import opened Walks
  import opened ChangeViews

  ghost predicate Passes(a: S.Arch, changed: set<TypeId>, baseline: Tick, r: nat) {
    changed == {} || RowChanged(a, changed, baseline, r)
  }

  ghost function Rows(a: S.Arch, changed: set<TypeId>, baseline: Tick, n: nat): seq<Entity> {
    if n == 0 then [] else
      Rows(a, changed, baseline, n - 1) + if n <= |a.entities| && Passes(a, changed, baseline, n - 1)
        then [a.entities[n - 1]] else []
  }

  ghost function Collected(w: S.Index, ks: seq<S.Key>, changed: set<TypeId>, baseline: Tick): seq<Entity> {
    if ks == [] then [] else
      Collected(w, ks[..|ks| - 1], changed, baseline)
      + if ks[|ks| - 1] in w.archs
        then Rows(w.archs[ks[|ks| - 1]], changed, baseline, |w.archs[ks[|ks| - 1]].entities|)
        else []
  }

  /** The filter's criterion for one entity. */
  ghost predicate Passing(w: S.Index, changed: set<TypeId>, baseline: Tick, e: Entity) {
    changed == {} || exists t :: t in changed && Newer(S.CellsOf(w, e), t, baseline)
  }

  lemma {:induction false} RowsExact(w: S.Index, k: S.Key, changed: set<TypeId>, baseline: Tick, n: nat)
    requires S.Shaped(w) && k in w.archs && n <= |w.archs[k].entities|
    ensures var rows := Rows(w.archs[k], changed, baseline, n);
      NoDup(rows)
      && forall e ::
           e in rows <==>
           e in w.loc && w.loc[e].key == k && w.loc[e].row < n && Passing(w, changed, baseline, e)
  {
    hide S.Shaped, RowChanged, S.CellsOf;
    if n > 0 {
      var a, r := w.archs[k], n - 1;
      RowsExact(w, k, changed, baseline, r);
      RowCells(w, k, changed, baseline, r);
      assert S.RowOk(w, k, r) by { RowKnown(w, k, r); }
      forall e | e in w.loc && w.loc[e].key == k && w.loc[e].row == r ensures e == a.entities[r] { PlacedKnown(w, e); }
    }
  }

  lemma RowKnown(w: S.Index, k: S.Key, r: nat)
    requires S.Shaped(w) && k in w.archs && r < |w.archs[k].entities|
    ensures S.RowOk(w, k, r)
  {
  }

  /** Each entity that passes is collected once, and no other. */
  lemma {:induction false} CollectedExact(w: S.Index, ks: seq<S.Key>, changed: set<TypeId>, baseline: Tick)
    requires S.Shaped(w) && NoDup(ks) && forall k :: k in ks ==> k in w.archs
    ensures var c := Collected(w, ks, changed, baseline);
      NoDup(c) && forall e :: e in c <==> e in w.loc && w.loc[e].key in ks && Passing(w, changed, baseline, e)
  {
    hide S.Shaped, Passing, Rows;
    if ks != [] {
      var front, k := ks[..|ks| - 1], ks[|ks| - 1];
      CollectedExact(w, front, changed, baseline);
      RowsExact(w, k, changed, baseline, |w.archs[k].entities|);
      assert ks == front + [k];
      assert k !in front;
      var a, b := Collected(w, front, changed, baseline), Rows(w.archs[k], changed, baseline, |w.archs[k].entities|);
      forall i, j | 0 <= i < |a| && 0 <= j < |b| ensures a[i] != b[j] { assert a[i] in a && b[j] in b; }
      forall e | e in w.loc ensures w.loc[e].key == k ==> w.loc[e].row < |w.archs[k].entities| { PlacedKnown(w, e); }
    }
  }

  /** For a query over exactly the changed components, the filter is the scan change views are measured against. */
  lemma PassingIsScan(w: S.Index, ids: set<TypeId>, baseline: Tick)
    requires ids != {}
    ensures Scan(w, ids, baseline) == set e | e in w.loc && ids <= w.loc[e].key && Passing(w, ids, baseline, e)
  {
    hide S.CellsOf;
  }

  /** The keys of a query's answer, each once. */
  lemma {:induction false} SelectedKeys(q: Query, list: seq<Archetype>, order: seq<S.Key>)
    requires |order| == |list| && (forall i :: 0 <= i < |list| ==> order[i] == list[i].Key()) && NoDup(order)
    ensures NoDup(KeysOf(Selected(q, list)))
      && forall k :: k in KeysOf(Selected(q, list)) <==> k in order && Wants(q, k)
  {
    hide Wants;
    if list != [] {
      var front := Selected(q, list[..|list| - 1]);
      SelectedKeys(q, list[..|list| - 1], order[..|order| - 1]);
      var a := list[|list| - 1];
      assert order == order[..|order| - 1] + [a.Key()];
      assert KeysOf(front + [a]) == KeysOf(front) + [a.Key()];
    } else {
      assert KeysOf(Selected(q, list)) == [];
    }
  }

  class QueryBuilder {
    const world: World
    var baselines: map<int, Tick>

    constructor (world: World)
      ensures this.world == world && baselines == map[]
    {
      this.world, baselines := world, map[];
    }

    /** Run a query with a changed filter. The baseline is kept under whatever key the query hashes to. */
    method Execute(q: Query, changed: seq<TypeId>, key: int) returns (collected: seq<Entity>)
      requires world.Valid() && this !in world.repr
      modifies this, world`ix, world.repr, world.queryCache
      ensures world.Valid()
      ensures world.Model() == old(world.Model()).(ix := world.ix) && world.ix.loc == old(world.ix.loc)
      ensures var ks := KeysOf(Selected(q, old(world.archetypeList)));
        world.ix == if changed == [] then old(world.ix) else TrackKeys(old(world.ix), ks, changed, world.changeTick)
      ensures var baseline := if key in old(baselines) && changed != [] then old(baselines)[key] else 0;
        NoDup(collected) && forall e :: e in collected <==>
          e in world.ix.loc && Wants(q, world.ix.loc[e].key) && Passing(world.ix, Elements(changed), baseline, e)
      ensures baselines == if changed == [] then old(baselines) else old(baselines)[key := world.changeTick]
    {
      hide WorldOk, World.Tied, World.WindowTied, Selected, TrackKeys, S.Shaped, KeysOf, Passing, Wants, Collected;
      var arches := world.MatchQuery(q);
      world.Lookup();
      AnswerKeys(q);
      ghost var ks := KeysOf(arches);
      var baseline := 0;
      if changed != [] {
        if key in baselines {
          baseline := baselines[key];
        }
        TrackArches(arches, changed);
      }
      collected := CollectRows(arches, changed, baseline);
      AnswerKeys(q);
      world.UseOk();
      CollectedExact(world.ix, ks, Elements(changed), baseline);
      LivesInArch(world.ix);
      if changed != [] {
        baselines := baselines[key := world.changeTick];
      }
    }

    lemma AnswerKeys(q: Query)
      requires world.Valid()
      ensures var ks := KeysOf(Selected(q, world.archetypeList));
        NoDup(ks) && forall k :: k in ks <==> k in world.ix.archs && Wants(q, k)
    {
      hide World.WindowTied, QueryCache.Consistent, SlotsOk, Register, Selected, LocsTied, S.ArchOk, S.RowOk,
        S.Placed, S.Sized, ArchTied, Archetype.Key, Wants, KeysOf;
      SelectedKeys(q, world.archetypeList, world.ix.order);
      assert forall k :: k in world.ix.archs <==> k in Elements(world.ix.order);
    }

    method TrackArches(arches: seq<Archetype>, changed: seq<TypeId>)
      requires world.Valid() && (forall a :: a in arches ==> a in world.archetypeList) && this !in world.repr
      modifies world`ix, world.repr
      ensures world.Valid() && world.ix.loc == old(world.ix.loc)
      ensures world.Model() == old(world.Model()).(ix :=
        TrackKeys(old(world.ix), KeysOf(arches), changed, world.changeTick))
    {
      hide WorldOk, World.Tied, World.WindowTied, TrackKey;
      ghost var w, ks := world.ix, KeysOf(arches);
      world.Lookup();
      for k := 0 to |arches|
        invariant world.archetypeList == old(world.archetypeList) && world.repr == old(world.repr)
          && world.ix.loc == w.loc
        invariant world.Valid() && world.Model() == old(world.Model()).(ix :=
          TrackKeys(w, ks[..k], changed, world.changeTick))
      {
        assert ks[..k + 1][..k] == ks[..k];
        TrackKeyLoc(world.ix, ks[k], changed, world.changeTick);
        TrackAll(world, arches[k], changed);
        world.Lookup();
      }
      assert ks[..|ks|] == ks;
    }

    method CollectRows(arches: seq<Archetype>, changed: seq<TypeId>, baseline: Tick) returns (collected: seq<Entity>)
      requires world.Valid() && forall a :: a in arches ==> a in world.archetypeList
      ensures collected == Collected(world.ix, KeysOf(arches), Elements(changed), baseline)
    {
      hide WorldOk, World.Tied, World.WindowTied, Rows;
      ghost var ks := KeysOf(arches);
      collected := [];
      for k := 0 to |arches|
        invariant collected == Collected(world.ix, ks[..k], Elements(changed), baseline)
      {
        assert ks[..k + 1][..k] == ks[..k];
        InWorld(world, arches[k]);
        var rows := CollectFrom(arches[k], changed, baseline);
        collected := collected + rows;
      }
      assert ks[..|ks|] == ks;
    }

    method CollectFrom(a: Archetype, changed: seq<TypeId>, baseline: Tick) returns (rows: seq<Entity>)
      requires world.Valid() && a in world.archetypeList
      ensures a.Key() in world.ix.archs
      ensures rows == Rows(world.ix.archs[a.Key()], Elements(changed), baseline, |world.ix.archs[a.Key()].entities|)
    {
      hide WorldOk, World.Tied, World.WindowTied, RowChanged;
      InWorld(world, a);
      RowEntities(a);
      rows := [];
      for row := 0 to |a.entities|
        invariant rows == Rows(world.ix.archs[a.Key()], Elements(changed), baseline, row)
      {
        var wanted := true;
        if changed != [] {
          assert changed[0] in Elements(changed);
          wanted := RowTest(world, a, changed, baseline, row);
        }
        if wanted {
          rows := rows + [a.entities[row]];
        }
      }
    }

    lemma RowEntities(a: Archetype)
      requires world.Valid() && a in world.archetypeList
      ensures a.Key() in world.ix.archs && world.ix.archs[a.Key()].entities == a.entities
    {
      world.UseOk();
      world.InList(a);
    }
  }
}
