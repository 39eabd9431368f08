/** Archetype queries and the incrementally maintained cache of their answers. */
module Queries {
  import opened Base
  import opened Storage
  import opened Columns

  datatype Query = Query(all: seq<TypeId>, any: seq<TypeId>, none: seq<TypeId>)

  /** A component set has all of `all`, one of `any` when there is one, and none of `none`. */
  ghost predicate Wants(q: Query, key: Key) {
    && (forall id :: id in q.all ==> id in key)
    && (q.any == [] || exists id :: id in q.any && id in key)
    && (forall id :: id in q.none ==> id !in key)
  }

  /** The archetypes of a list that satisfy a query, in list order. */
  ghost function Selected(q: Query, list: seq<Archetype>): seq<Archetype> {
    if list == [] then [] else
      var rest := Selected(q, list[..|list| - 1]);
      var a := list[|list| - 1];
      if Wants(q, a.Key()) then rest + [a] else rest
  }

  ghost function Without(list: seq<Archetype>, a: Archetype): seq<Archetype> {
    if list == [] then [] else
      var rest := Without(list[..|list| - 1], a);
      if list[|list| - 1] == a then rest else rest + [list[|list| - 1]]
  }

  lemma {:induction false} SelectedMembers(q: Query, list: seq<Archetype>)
    ensures forall a :: a in Selected(q, list) <==> a in list && Wants(q, a.Key())
  {
    if list != [] {
      SelectedMembers(q, list[..|list| - 1]);
      assert list == list[..|list| - 1] + [list[|list| - 1]];
    }
  }

  /** A match is the list, in its order, without the archetypes that do not fit. */
  lemma {:induction false} SelectedPlaces(q: Query, list: seq<Archetype>) returns (at: seq<nat>)
    ensures |at| == |Selected(q, list)| && forall i, j :: 0 <= i < j < |at| ==> at[i] < at[j]
    ensures forall i :: 0 <= i < |at| ==> at[i] < |list| && list[at[i]] == Selected(q, list)[i]
    ensures forall p: nat :: p in at <==> p < |list| && Fits(q, list[p].Key())
  {
    at := [];
    if list != [] {
      var n := |list| - 1;
      at := SelectedPlaces(q, list[..n]);
      forall p: nat | p in at ensures p < n { }
      WantsFits(q, list[n].Key());
      if Wants(q, list[n].Key()) { at := at + [n]; }
    }
  }

  ghost predicate Fits(q: Query, key: Key) {
    Elements(q.all) <= key && Elements(q.none) !! key && (q.any == [] || !(Elements(q.any) !! key))
  }

  lemma Within(ids: seq<TypeId>, key: Key)
    ensures (forall id :: id in ids ==> id in key) <==> Elements(ids) <= key
    ensures (exists id :: id in ids && id in key) <==> !(Elements(ids) !! key)
  {
    assert forall id :: id in Elements(ids) <==> id in ids;
    if forall id :: id in ids ==> id in key {
      forall id | id in Elements(ids) ensures id in key { assert id in ids; }
    }
    if id :| id in ids && id in key {
      assert id in Elements(ids) * key;
    } else {
      forall id | id in Elements(ids) ensures id !in key { assert id in ids; }
    }
  }

  lemma WantsFits(q: Query, key: Key)
    ensures Wants(q, key) <==> Fits(q, key)
  {
    Within(q.all, key);
    Within(q.any, key);
    Within(q.none, key);
  }

  lemma {:induction false} SelectedWithout(q: Query, list: seq<Archetype>, a: Archetype)
    ensures Selected(q, Without(list, a)) == Without(Selected(q, list), a)
  {
    if list != [] {
      var front, last := list[..|list| - 1], list[|list| - 1];
      SelectedWithout(q, front, a);
      var kept := Without(front, a);
      if last != a { assert (kept + [last])[..|kept|] == kept; }
      if Wants(q, last.Key()) {
        var s := Selected(q, front);
        assert (s + [last])[..|s|] == s;
      }
    }
  }

  lemma {:induction false} WithoutMiddle(x: seq<Archetype>, a: Archetype, y: seq<Archetype>)
    requires a !in x && a !in y
    ensures Without(x + [a] + y, a) == x + y
    decreases |y|, |x|
  {
    if y != [] {
      var n := |y| - 1;
      assert (x + [a] + y)[..|x| + 1 + n] == x + [a] + y[..n];
      WithoutMiddle(x, a, y[..n]);
      assert x + y == x + y[..n] + [y[n]];
    } else {
      assert x + [a] + y == x + [a] && (x + [a])[..|x|] == x && x + y == x;
      WithoutNone(x, a);
    }
  }

  lemma {:induction false} WithoutNone(x: seq<Archetype>, a: Archetype)
    requires a !in x
    ensures Without(x, a) == x
  {
    if x != [] { WithoutNone(x[..|x| - 1], a); }
  }

  method HasComponent(a: Archetype, t: TypeId) returns (b: bool)
    requires a.Shape()
    ensures b == (t in a.Key())
  {
    var i := a.ColumnIndex(t);
    return i >= 0;
  }

  method Matches(q: Query, a: Archetype) returns (b: bool)
    requires a.Shape()
    ensures b == Wants(q, a.Key())
  {
    for k := 0 to |q.all|
      invariant forall j :: 0 <= j < k ==> q.all[j] in a.Key()
    {
      var has := HasComponent(a, q.all[k]);
      if !has { return false; }
    }
    if q.any != [] {
      var ok := false;
      for k := 0 to |q.any|
        invariant ok == exists j :: 0 <= j < k && q.any[j] in a.Key()
      {
        var has := HasComponent(a, q.any[k]);
        if has { ok := true; break; }
      }
      if !ok { return false; }
    }
    for k := 0 to |q.none|
      invariant forall j :: 0 <= j < k ==> q.none[j] !in a.Key()
    {
      var has := HasComponent(a, q.none[k]);
      if has { return false; }
    }
    return true;
  }

  /** `std::remove`. */
  method RemoveAll(list: seq<Archetype>, a: Archetype) returns (kept: seq<Archetype>)
    ensures kept == Without(list, a)
  {
    kept := [];
    for i := 0 to |list|
      invariant kept == Without(list[..i], a)
    {
      if list[i] != a { kept := kept + [list[i]]; }
      assert list[..i + 1][..i] == list[..i];
    }
    assert list[..|list|] == list;
  }

  /** One slot per signature. The signature is any function at all: two queries may share one. */
  class QueryCache {
    const signature: Query -> int
    var cache: map<int, seq<Archetype>>
    var cachedQueries: map<int, Query>

    /** Every slot holds exactly the answer to its own query over the current archetype list. */
    ghost predicate Consistent(list: seq<Archetype>)
      reads this
    {
      && cache.Keys == cachedQueries.Keys
      && forall k :: k in cache ==> cache[k] == Selected(cachedQueries[k], list)
    }

    constructor (signature: Query -> int)
      ensures Consistent([])
    {
      this.signature := signature;
      cache, cachedQueries := map[], map[];
    }

    /** A slot is reused only for the query it was filled by; a colliding one evicts it. */
    method Match(q: Query, list: seq<Archetype>) returns (result: seq<Archetype>)
      requires Consistent(list) && forall a :: a in list ==> a.Shape()
      modifies this
      ensures Consistent(list) && result == Selected(q, list)
    {
      var key := signature(q);
      if key in cache && key in cachedQueries && cachedQueries[key] == q {
        return cache[key];
      }
      result := [];
      for i := 0 to |list|
        invariant result == Selected(q, list[..i])
        invariant unchanged(this)
      {
        var wanted := Matches(q, list[i]);
        if wanted { result := result + [list[i]]; }
        assert list[..i + 1][..i] == list[..i];
      }
      assert list[..|list|] == list;
      cachedQueries := cachedQueries[key := q];
      cache := cache[key := result];
    }

    method RegisterNewArchetype(a: Archetype, ghost list: seq<Archetype>)
      requires Consistent(list) && a.Shape()
      modifies this
      ensures Consistent(list + [a])
    {
      var todo := cachedQueries.Keys;
      assert (list + [a])[..|list|] == list;
      while todo != {}
        invariant todo <= cachedQueries.Keys && cachedQueries == old(cachedQueries) && cache.Keys == cachedQueries.Keys
        invariant forall k :: k in cache ==>
          cache[k] == Selected(cachedQueries[k], if k in todo then list else list + [a])
        decreases |todo|
      {
        var k := Pick(todo);
        todo := todo - {k};
        var wanted := Matches(cachedQueries[k], a);
        if wanted {
          cache := cache[k := cache[k] + [a]];
        }
      }
    }

    method EraseArchetype(a: Archetype, ghost list: seq<Archetype>)
      requires Consistent(list)
      modifies this
      ensures Consistent(Without(list, a))
    {
      var todo := cache.Keys;
      while todo != {}
        invariant todo <= cache.Keys && cachedQueries == old(cachedQueries) && cache.Keys == cachedQueries.Keys
        invariant forall k :: k in cache ==>
          cache[k] == Selected(cachedQueries[k], if k in todo then list else Without(list, a))
        decreases |todo|
      {
        var k := Pick(todo);
        todo := todo - {k};
        SelectedWithout(cachedQueries[k], list, a);
        var kept := RemoveAll(cache[k], a);
        cache := cache[k := kept];
      }
    }
  }
}
