/** Views over the entities that hold a set of components: visiting all of them, and reporting changes. */
module Views {
  import opened Base
  import opened Schema
  import S = Storage
  import opened StorageLaws
  import opened Operations
  import opened Columns
  import opened Queries
  import opened Engine
  import opened Changes
  import opened ChangeLaws
  import opened Takes
  import opened Walks

  /** The cached answer to an all-of query lists the matching archetypes in order. */
  lemma {:induction false} SelectedIsMatching(q: Query, list: seq<Archetype>, order: seq<S.Key>, watched: set<TypeId>)
    requires |order| == |list| && forall i :: 0 <= i < |list| ==> order[i] == list[i].Key()
    requires q.any == [] && q.none == [] && forall t :: t in q.all <==> t in watched
    ensures |Selected(q, list)| == |Matching(order, watched)|
    ensures forall i :: 0 <= i < |Selected(q, list)| ==> Selected(q, list)[i].Key() == Matching(order, watched)[i]
  {
    if list != [] {
      SelectedIsMatching(q, list[..|list| - 1], order[..|order| - 1], watched);
      WantsAll(q, order[|order| - 1], watched);
    }
  }

  lemma WantsAll(q: Query, key: S.Key, watched: set<TypeId>)
    requires q.any == [] && q.none == [] && forall t :: t in q.all <==> t in watched
    ensures Wants(q, key) <==> watched <= key
  {
    if Wants(q, key) { forall t | t in watched ensures t in key { assert t in q.all; } }
    if watched <= key { assert Wants(q, key); }
  }

  lemma {:induction false} MatchingNoDup(order: seq<S.Key>, watched: set<TypeId>)
    requires NoDup(order)
    ensures NoDup(Matching(order, watched)) && forall k :: k in Matching(order, watched) <==> k in order && watched <= k
  {
    if order != [] {
      MatchingNoDup(order[..|order| - 1], watched);
      assert order == order[..|order| - 1] + [order[|order| - 1]];
    }
  }

  /** `std::sort` on an id list that may repeat ids. */
  method SortIds(ids: seq<TypeId>) returns (r: seq<TypeId>)
    ensures |r| == |ids| && (forall t :: t in r <==> t in ids) && forall i, j :: 0 <= i < j < |r| ==> r[i] <= r[j]
  {
    r := [];
    for k := 0 to |ids|
      invariant |r| == k && (forall t :: t in r <==> t in ids[..k]) && forall i, j :: 0 <= i < j < |r| ==> r[i] <= r[j]
    {
      r := Placed(r, ids[k]);
      assert ids[..k + 1] == ids[..k] + [ids[k]];
    }
    assert ids[..|ids|] == ids;
  }

  method Placed(r: seq<TypeId>, t: TypeId) returns (s: seq<TypeId>)
    requires forall i, j :: 0 <= i < j < |r| ==> r[i] <= r[j]
    ensures |s| == |r| + 1 && (forall u :: u in s <==> u in r || u == t)
      && forall i, j :: 0 <= i < j < |s| ==> s[i] <= s[j]
  {
    var i := 0;
    while i < |r| && r[i] <= t
      invariant i <= |r| && forall j :: 0 <= j < i ==> r[j] <= t
    {
      i := i + 1;
    }
    assert r == r[..i] + r[i..];
    s := r[..i] + [t] + r[i..];
  }

  datatype Visit = Visit(entity: Entity, parts: seq<Bytes>)

  ghost function VisitedIn(visits: seq<Visit>): seq<Entity> {
    seq(|visits|, i requires 0 <= i < |visits| => visits[i].entity)
  }

  /** The components handed to the callback are the entity's own, in the order the view names them. */
  ghost predicate Faithful(w: S.Index, ids: seq<TypeId>, v: Visit) {
    var store := S.Contents(w);
    |v.parts| == |ids| && v.entity in store
      && forall j :: 0 <= j < |ids| ==> ids[j] in store[v.entity] && v.parts[j] == store[v.entity][ids[j]]
  }

  lemma RowIsStored(w: S.Index, k: S.Key, r: nat, t: TypeId)
    requires S.Shaped(w) && k in w.archs && r < |w.archs[k].entities| && t in k
    ensures t in w.archs[k].cols && r < |w.archs[k].cols[t].rows|
    ensures var e := w.archs[k].entities[r];
      e in S.Contents(w) && t in S.Contents(w)[e] && S.Contents(w)[e][t] == w.archs[k].cols[t].rows[r]
  {
    assert S.RowOk(w, k, r) && S.ArchOk(w, k);
    RowExists(w, w.archs[k].entities[r]);
  }

  lemma RowIsLive(w: S.Index, k: S.Key, r: nat)
    requires S.Shaped(w) && k in w.archs && r < |w.archs[k].entities|
    ensures w.archs[k].entities[r] in S.Contents(w)
  {
    assert S.RowOk(w, k, r);
  }

  class View {
    const world: World
    const ids: seq<TypeId>
    var query: Query

    ghost predicate Ready()
      reads this
    {
      query.any == [] && query.none == [] && forall t :: t in query.all <==> t in ids
    }

    constructor (world: World, ids: seq<TypeId>)
      ensures Ready() && this.world == world && this.ids == ids
    {
      this.world, this.ids := world, ids;
      var sorted := SortIds(ids);
      query := Query(sorted, [], []);
    }

    lemma Matched()
      requires Ready() && world.Valid()
      ensures var ks := Matching(world.ix.order, Elements(ids)); var list := Selected(query, world.archetypeList);
        |list| == |ks| && (forall i :: 0 <= i < |ks| ==> list[i].Key() == ks[i]) && NoDup(ks)
        && forall k :: k in ks <==> k in world.ix.archs && Elements(ids) <= k
    {
      hide World.WindowTied, QueryCache.Consistent, SlotsOk, Register, Selected, Matching, LocsTied, S.ArchOk,
        S.RowOk, S.Placed, S.Sized, ArchTied, Archetype.Key, Wants;
      SelectedIsMatching(query, world.archetypeList, world.ix.order, Elements(ids));
      MatchingNoDup(world.ix.order, Elements(ids));
      assert forall k :: k in world.ix.archs <==> k in Elements(world.ix.order);
    }

    /** Visit every live entity that has all the components, once, with its components in the view's order. */
    method Each() returns (visits: seq<Visit>)
      requires Ready() && world.Valid()
      modifies world.queryCache, world`iterationDepth
      ensures world.Valid() && world.Model() == old(world.Model())
      ensures NoDup(VisitedIn(visits)) && forall v :: v in visits ==> Faithful(world.ix, ids, v)
      ensures forall e :: e in VisitedIn(visits) <==> e in world.ix.loc && Elements(ids) <= world.ix.loc[e].key
    {
      hide WorldOk, World.Tied, World.WindowTied, Selected, Matching, Walk, S.Shaped, Faithful;
      var arches := world.MatchQuery(query);
      Matched();
      ghost var ks := Matching(world.ix.order, Elements(ids));
      world.BeginIteration();
      visits := [];
      WalkNothing(world.ix, ks);
      for k := 0 to |arches|
        invariant world.Valid() && world.Model() == old(world.Model()).(depth := old(world.iterationDepth) + 1)
        invariant VisitedIn(visits) == Walk(world.ix, ks[..k]) && forall v :: v in visits ==> Faithful(world.ix, ids, v)
      {
        WalkStep(world.ix, ks, k);
        var more := VisitRows(arches[k]);
        assert VisitedIn(visits + more) == VisitedIn(visits) + VisitedIn(more);
        visits := visits + more;
      }
      assert ks[..|ks|] == ks;
      world.EndIteration();
      world.UseOk();
      WalkMeetsOnce(world.ix, ks);
      LivesInArch(world.ix);
    }

    method VisitRows(a: Archetype) returns (visits: seq<Visit>)
      requires world.Valid() && a in world.archetypeList && Elements(ids) <= a.Key()
      ensures a.Key() in world.ix.archs && VisitedIn(visits) == world.ix.archs[a.Key()].entities
      ensures forall v :: v in visits ==> Faithful(world.ix, ids, v)
    {
      hide WorldOk, World.WindowTied, S.Shaped, Register, QueryCache.Consistent, Archetype.ColViews, S.Contents;
      world.UseOk();
      world.InList(a);
      visits := [];
      for row := 0 to |a.entities|
        invariant VisitedIn(visits) == a.entities[..row] && forall v :: v in visits ==> Faithful(world.ix, ids, v)
      {
        var parts := Parts(a, row);
        visits := visits + [Visit(a.entities[row], parts)];
        assert a.entities[..row + 1] == a.entities[..row] + [a.entities[row]];
      }
      assert a.entities[..|a.entities|] == a.entities;
    }

    method Parts(a: Archetype, row: nat) returns (parts: seq<Bytes>)
      requires world.Valid() && a in world.archetypeList && Elements(ids) <= a.Key() && row < |a.entities|
      ensures Faithful(world.ix, ids, Visit(a.entities[row], parts))
    {
      hide WorldOk, World.WindowTied, S.Shaped, Register, QueryCache.Consistent, S.Contents;
      world.UseOk();
      world.InList(a);
      parts := [];
      ghost var e := a.entities[row];
      RowIsLive(world.ix, a.Key(), row);
      for j := 0 to |ids|
        invariant |parts| == j && forall i :: 0 <= i < j ==>
          ids[i] in S.Contents(world.ix)[e] && parts[i] == S.Contents(world.ix)[e][ids[i]]
      {
        assert ids[j] in Elements(ids);
        RowIsStored(world.ix, a.Key(), row, ids[j]);
        var c := a.ColumnIndex(ids[j]);
        a.ColAt(c);
        parts := parts + [a.columns[c].rows[row]];
      }
    }

    lemma EntitiesAt(a: Archetype)
      requires world.Valid() && a in world.archetypeList
      ensures a.Key() in world.ix.archs && world.ix.archs[a.Key()].entities == a.entities
    {
      world.UseOk();
      world.InList(a);
    }

    /** How many entities a visit would meet. */
    method Count() returns (n: nat)
      requires Ready() && world.Valid()
      modifies world.queryCache
      ensures world.Valid() && world.Model() == old(world.Model())
      ensures n == |set e | e in world.ix.loc && Elements(ids) <= world.ix.loc[e].key|
    {
      hide WorldOk, World.Tied, World.WindowTied, Selected, Matching, Walk, S.Shaped;
      var arches := world.MatchQuery(query);
      Matched();
      ghost var ks := Matching(world.ix.order, Elements(ids));
      n := 0;
      WalkNothing(world.ix, ks);
      for k := 0 to |arches|
        invariant world.Valid() && world.Model() == old(world.Model()) && n == |Walk(world.ix, ks[..k])|
      {
        WalkStep(world.ix, ks, k);
        world.UseOk();
        EntitiesAt(arches[k]);
        n := n + |arches[k].entities|;
      }
      assert ks[..|ks|] == ks;
      world.UseOk();
      WalkMeetsOnce(world.ix, ks);
      LivesInArch(world.ix);
      NoDupCount(Walk(world.ix, ks), set e | e in world.ix.loc && Elements(ids) <= world.ix.loc[e].key);
    }
  }
}
