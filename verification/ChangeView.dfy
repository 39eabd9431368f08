/** `ChangeView`: the entities whose watched components were written since the last take. */
module ChangeViews {
  import opened Base
  import opened Schema
  import S = Storage
  import opened StorageLaws
  import opened Operations
  import opened Columns
  import opened Queries
  import opened Engine
  import opened Changes
  import opened ChangeLaws
  import opened Takes
  import opened Views

  // ------------------------------------------------------------------ what one archetype contributes

  ghost predicate RowChanged(a: S.Arch, watched: set<TypeId>, baseline: Tick, r: nat) {
    exists t :: t in watched && t in a.cols && a.cols[t].ChangedSince(r, baseline)
  }

  ghost function ChangedRows(a: S.Arch, watched: set<TypeId>, baseline: Tick, n: nat): set<Entity> {
    set r | 0 <= r < n && r < |a.entities| && RowChanged(a, watched, baseline, r) :: a.entities[r]
  }

  /** The part of the scan that lies in the listed archetypes. */
  ghost function ScanIn(w: S.Index, ks: seq<S.Key>, watched: set<TypeId>, baseline: Tick): set<Entity> {
    set e | e in FromScan(w, watched, baseline) && w.loc[e].key in ks
  }

  lemma RowCells(w: S.Index, k: S.Key, watched: set<TypeId>, baseline: Tick, r: nat)
    requires S.Shaped(w) && k in w.archs && r < |w.archs[k].entities|
    ensures var e := w.archs[k].entities[r];
      e in w.loc && w.loc[e].key == k
      && ((exists t :: t in watched && Newer(S.CellsOf(w, e), t, baseline))
         <==> RowChanged(w.archs[k], watched, baseline, r))
  {
    assert S.RowOk(w, k, r) && S.ArchOk(w, k);
    var e := w.archs[k].entities[r];
    RowExists(w, e);
    forall t | t in k ensures Newer(S.CellsOf(w, e), t, baseline) <==> w.archs[k].cols[t].ChangedSince(r, baseline) {
      assert w.archs[k].cols[t].Ok(|w.archs[k].entities|);
    }
  }

  lemma DirtyRow(w: S.Index, k: S.Key, watched: set<TypeId>, baseline: Tick, r: nat)
    requires S.Shaped(w) && k in w.archs && watched <= k && r < |w.archs[k].entities|
    ensures var e := w.archs[k].entities[r];
      e in w.loc && w.loc[e].key == k
        && (Dirty(w, watched, baseline, e) <==> RowChanged(w.archs[k], watched, baseline, r))
  {
    hide S.Shaped, S.CellsOf, RowChanged;
    RowCells(w, k, watched, baseline, r);
  }

  /** Scanning one archetype finds its part of the scan. */
  lemma ScanOne(w: S.Index, k: S.Key, watched: set<TypeId>, baseline: Tick)
    requires S.Shaped(w) && k in w.archs && watched <= k
    ensures ScanIn(w, [k], watched, baseline) ==
      if Skipped(w, k, watched, baseline) then {} else ChangedRows(w.archs[k], watched, baseline, |w.archs[k].entities|)
  {
    hide S.Shaped, Dirty, RowChanged, Skipped;
    var rows := ChangedRows(w.archs[k], watched, baseline, |w.archs[k].entities|);
    forall e ensures e in ScanIn(w, [k], watched, baseline) <==> e in rows && !Skipped(w, k, watched, baseline) {
      if e in ScanIn(w, [k], watched, baseline) {
        assert S.Placed(w, e) by { PlacedKnown(w, e); }
        DirtyRow(w, k, watched, baseline, w.loc[e].row);
      }
      if e in rows {
        var r :| 0 <= r < |w.archs[k].entities| && RowChanged(w.archs[k], watched, baseline, r)
          && w.archs[k].entities[r] == e;
        DirtyRow(w, k, watched, baseline, r);
      }
    }
  }

  lemma PlacedKnown(w: S.Index, e: Entity)
    requires S.Shaped(w) && e in w.loc
    ensures S.Placed(w, e)
  {
  }

  lemma ScanMore(w: S.Index, ks: seq<S.Key>, k: S.Key, watched: set<TypeId>, baseline: Tick)
    ensures ScanIn(w, ks + [k], watched, baseline) == ScanIn(w, ks, watched, baseline)
      + ScanIn(w, [k], watched, baseline)
  {
    hide FromScan;
    assert forall e :: e in FromScan(w, watched, baseline) ==> e in w.loc by { ScanLives(w, watched, baseline); }
  }

  lemma ScanNothing(w: S.Index, watched: set<TypeId>, baseline: Tick)
    ensures ScanIn(w, [], watched, baseline) == {}
  {
  }

  lemma ScanLives(w: S.Index, watched: set<TypeId>, baseline: Tick)
    ensures forall e :: e in FromScan(w, watched, baseline) ==> e in w.loc
  {
  }

  /** Preparing another archetype leaves the part already scanned as it was. */
  lemma ScanKept(w: S.Index, z: S.Index, ks: seq<S.Key>, watched: set<TypeId>, baseline: Tick)
    requires z.loc == w.loc && forall k :: k in ks ==> k in w.archs && k in z.archs && z.archs[k] == w.archs[k]
    ensures ScanIn(z, ks, watched, baseline) == ScanIn(w, ks, watched, baseline)
  {
    forall e | e in w.loc && w.loc[e].key in ks
      ensures e in FromScan(z, watched, baseline) <==> e in FromScan(w, watched, baseline)
    {
      assert S.CellsOf(z, e) == S.CellsOf(w, e);
    }
  }

  lemma {:induction false} TrackKeyElsewhere(w: S.Index, k: S.Key, ids: seq<TypeId>, tick: Tick, j: S.Key)
    requires j != k && j in w.archs
    ensures var z := TrackKey(w, k, ids, tick); j in z.archs && z.archs[j] == w.archs[j] && z.loc == w.loc
  {
    if ids != [] { TrackKeyElsewhere(w, k, ids[..|ids| - 1], tick, j); }
  }

  lemma {:induction false} TrackKeyLoc(w: S.Index, k: S.Key, ids: seq<TypeId>, tick: Tick)
    ensures TrackKey(w, k, ids, tick).loc == w.loc && TrackKey(w, k, ids, tick).archs.Keys == w.archs.Keys
  {
    if ids != [] { TrackKeyLoc(w, k, ids[..|ids| - 1], tick); }
  }

  ghost function KeysOf(list: seq<Archetype>): seq<S.Key> {
    seq(|list|, i requires 0 <= i < |list| => list[i].Key())
  }

  /** Archetypes by identity: those that have been freed are like no archetype of the list. */
  ghost function IdentitiesIn(seen: seq<Archetype>, list: seq<Archetype>): seq<S.Key> {
    seq(|seen|, i requires 0 <= i < |seen| => if seen[i] in list then seen[i].Key() else GONE)
  }

  lemma AllListed(seen: seq<Archetype>, list: seq<Archetype>)
    requires forall a :: a in seen ==> a in list
    ensures IdentitiesIn(seen, list) == KeysOf(seen)
  {
  }

  /** Compaction makes of the remembered archetypes what the model's `Forget` says. */
  lemma IdentitiesKept(w: S.World, seen: seq<Archetype>, list: seq<Archetype>)
    requires forall a :: a in list ==> a.Key() in w.ix.archs
    ensures IdentitiesIn(seen, KeptList(w.ix, list)) == Remember(IdentitiesIn(seen, list), Compact(w).ix.archs.Keys)
  {
    hide KeptList, Kept, Archetype.Key;
    KeptMembers(w.ix, list);
  }

  lemma ColumnAt(world: World, a: Archetype, c: nat)
    requires world.Valid() && a in world.archetypeList && c < |a.componentIds|
    ensures a.Shape() && a.Key() in world.ix.archs && a.componentIds[c] in world.ix.archs[a.Key()].cols
    ensures world.ix.archs[a.Key()].cols[a.componentIds[c]] == a.columns[c].View()
  {
    hide WorldOk, World.WindowTied, Register, QueryCache.Consistent, LocsTied, ListTied;
    world.UseOk();
    world.InList(a);
    a.ColAt(c);
  }

  lemma InWorld(world: World, a: Archetype)
    requires world.Valid() && a in world.archetypeList
    ensures a.Shape() && a.Key() in world.ix.archs && |world.ix.archs[a.Key()].entities| == |a.entities|
    ensures world.ix.archs[a.Key()].cols.Keys == a.Key()
  {
    world.UseOk();
    world.InList(a);
  }

  method TrackAll(world: World, a: Archetype, ids: seq<TypeId>)
    requires world.Valid() && a in world.archetypeList
    modifies world`ix, world.repr
    ensures world.Valid() && world.Model() == old(world.Model()).(ix :=
      TrackKey(old(world.ix), a.Key(), ids, world.changeTick))
  {
    hide WorldOk, World.Tied, World.WindowTied, S.Track;
    ghost var w := world.ix;
    world.Lookup();
    for j := 0 to |ids|
      invariant world.archetypeList == old(world.archetypeList) && world.repr == old(world.repr)
      invariant world.Valid() && world.Model() == old(world.Model()).(ix :=
        TrackKey(w, a.Key(), ids[..j], world.changeTick))
    {
      assert ids[..j + 1][..j] == ids[..j];
      world.Lookup();
      world.Reach(a);
      world.TrackColumn(a, ids[j]);
    }
    assert ids[..|ids|] == ids;
  }

  /** Whether a row was written since the baseline in any of the listed components it has. */
  method RowTest(world: World, a: Archetype, ids: seq<TypeId>, baseline: Tick, row: nat) returns (changed: bool)
    requires world.Valid() && a in world.archetypeList && row < |a.entities|
    ensures a.Key() in world.ix.archs && changed == RowChanged(world.ix.archs[a.Key()], Elements(ids), baseline, row)
  {
    hide WorldOk, World.WindowTied, World.Tied, Archetype.View, Archetype.ColViews, Sorted, Injective;
    world.UseOk();
    InWorld(world, a);
    for j := 0 to |ids|
      invariant forall i :: 0 <= i < j && ids[i] in a.Key() ==>
        !world.ix.archs[a.Key()].cols[ids[i]].ChangedSince(row, baseline)
    {
      assert ids[j] in Elements(ids);
      var c := a.ColumnIndex(ids[j]);
      if c >= 0 {
        ColumnAt(world, a, c);
        var col := a.columns[c];
        if col.tracking && row < |col.versions| && col.versions[row] > baseline {
          return true;
        }
      }
    }
    return false;
  }

  class ChangeView {
    const world: World
    const ids: seq<TypeId>
    var query: Query
    var baseline: Tick
    var logPos: nat
    var logGen: nat
    var warmedUp: bool
    var lastArches: seq<Archetype>

    ghost predicate Ready()
      reads this
    {
      query.any == [] && query.none == [] && forall t :: t in query.all <==> t in ids
    }

    ghost function Seen(): Viewer
      reads this, world`archetypeList
    {
      Viewer(Elements(ids), baseline, logPos, logGen, warmedUp, IdentitiesIn(lastArches, world.archetypeList), {})
    }

    constructor (world: World, ids: seq<TypeId>)
      ensures Ready() && this.world == world && this.ids == ids
      ensures Seen() == NewView(world.Model(), Elements(ids))
    {
      this.world, this.ids := world, ids;
      baseline := world.changeTick;
      logPos, logGen, warmedUp, lastArches := 0, 0, false, [];
      var sorted := SortIds(ids);
      query := Query(sorted, [], []);
    }

    lemma Matched()
      requires Ready() && world.Valid()
      ensures var ks := Matching(world.ix.order, Elements(ids)); var list := Selected(query, world.archetypeList);
        |list| == |ks| && KeysOf(list) == ks && NoDup(ks)
        && forall k :: k in ks <==> k in world.ix.archs && Elements(ids) <= k
    {
      hide World.WindowTied, QueryCache.Consistent, SlotsOk, Register, Selected, Matching, LocsTied, S.ArchOk,
        S.RowOk, S.Placed, S.Sized, ArchTied, Archetype.Key, Wants;
      SelectedIsMatching(query, world.archetypeList, world.ix.order, Elements(ids));
      MatchingNoDup(world.ix.order, Elements(ids));
      assert forall k :: k in world.ix.archs <==> k in Elements(world.ix.order);
    }

    lemma KeysApart(a: Archetype, b: Archetype)
      requires world.Valid() && a in world.archetypeList && b in world.archetypeList && a != b
      ensures a.Key() != b.Key()
    {
      hide WorldOk, World.WindowTied, QueryCache.Consistent, IndexOf, Archetype.Shape, LocsTied, ListTied;
      assert Disjoint(a, b);
    }

    lemma NotGone(a: Archetype)
      requires world.Valid() && a in world.archetypeList
      ensures a.Key() != GONE
    {
      hide World.Tied, World.WindowTied, S.Shaped, Archetype.Key;
      InWorld(world, a);
      assert S.Shaped(world.ix) by { ShapedOf(world.Model()); }
      NoZero(world.ix, a.Key());
      assert 0 in GONE;
    }

    /** Existing archetypes are told apart by their component sets, and from those that were freed. */
    lemma SameAt(a: Archetype, b: Archetype)
      requires world.Valid() && a in world.archetypeList
      ensures a == b <==> a.Key() == if b in world.archetypeList then b.Key() else GONE
    {
      hide World.Valid, Archetype.Key;
      NotGone(a);
      if a != b && b in world.archetypeList { KeysApart(a, b); }
    }

    lemma SameByKey(x: seq<Archetype>, y: seq<Archetype>)
      requires world.Valid() && forall a :: a in x ==> a in world.archetypeList
      ensures x == y <==> KeysOf(x) == IdentitiesIn(y, world.archetypeList)
    {
      hide World.Valid, Archetype.Key;
      var list := world.archetypeList;
      assert |KeysOf(x)| == |x| && |IdentitiesIn(y, list)| == |y|;
      forall i | 0 <= i < |x| && i < |y|
        ensures x[i] == y[i] <==> KeysOf(x)[i] == IdentitiesIn(y, list)[i]
      {
        SameAt(x[i], y[i]);
      }
    }

    method SameArches(arches: seq<Archetype>) returns (same: bool)
      ensures same == (arches == lastArches)
    {
      if |lastArches| != |arches| {
        return false;
      }
      for i := 0 to |arches|
        invariant arches[..i] == lastArches[..i]
      {
        if arches[i] != lastArches[i] {
          return false;
        }
      }
      return true;
    }

    method SkipTest(a: Archetype) returns (skip: bool)
      requires world.Valid() && a in world.archetypeList && Elements(ids) <= a.Key()
      ensures skip == Skipped(world.ix, a.Key(), Elements(ids), baseline)
    {
      hide WorldOk, World.WindowTied, World.Tied, Archetype.View, Archetype.ColViews, Sorted, Injective;
      world.UseOk();
      InWorld(world, a);
      for j := 0 to |ids|
        invariant forall i :: 0 <= i < j ==> world.ix.archs[a.Key()].cols[ids[i]].Max() <= baseline
      {
        assert ids[j] in Elements(ids);
        var c := a.ColumnIndex(ids[j]);
        ColumnAt(world, a, c);
        if (if a.columns[c].tracking then a.columns[c].maxVersion else 0) > baseline {
          return false;
        }
      }
      return true;
    }

    method ScanRows(a: Archetype) returns (found: set<Entity>)
      requires world.Valid() && a in world.archetypeList && Elements(ids) <= a.Key()
      ensures a.Key() in world.ix.archs
      ensures found == ChangedRows(world.ix.archs[a.Key()], Elements(ids), baseline, |a.entities|)
    {
      hide WorldOk, World.WindowTied, Register, QueryCache.Consistent, LocsTied, ListTied, RowChanged,
        Archetype.ColViews;
      world.UseOk();
      world.InList(a);
      found := {};
      for row := 0 to |a.entities|
        invariant found == ChangedRows(world.ix.archs[a.Key()], Elements(ids), baseline, row)
      {
        var changed := RowTest(world, a, ids, baseline, row);
        RowMore(world.ix.archs[a.Key()], Elements(ids), baseline, row);
        if changed {
          found := found + {a.entities[row]};
        }
      }
    }

    static lemma RowMore(a: S.Arch, watched: set<TypeId>, baseline: Tick, r: nat)
      requires r < |a.entities|
      ensures ChangedRows(a, watched, baseline, r + 1) ==
        ChangedRows(a, watched, baseline, r) + if RowChanged(a, watched, baseline, r) then {a.entities[r]} else {}
    {
    }

    method ScanArch(a: Archetype, ghost done: seq<S.Key>) returns (found: set<Entity>)
      requires world.Valid() && a in world.archetypeList && Elements(ids) <= a.Key() && this !in world.repr
      requires a.Key() !in done && forall k :: k in done ==> k in world.ix.archs
      modifies world`ix, world.repr
      ensures world.Valid() && world.Model() == old(world.Model()).(ix :=
        TrackKey(old(world.ix), a.Key(), ids, world.changeTick))
      ensures found == ScanIn(world.ix, [a.Key()], Elements(ids), baseline)
      ensures ScanIn(world.ix, done, Elements(ids), baseline) == ScanIn(old(world.ix), done, Elements(ids), baseline)
    {
      hide WorldOk, World.Tied, World.WindowTied, TrackKey, ScanIn, Skipped, ChangedRows, S.Shaped;
      ghost var w := world.ix;
      world.Lookup();
      TrackAll(world, a, ids);
      Elsewhere(w, a, done);
      world.UseOk();
      world.Reach(a);
      var skip := SkipTest(a);
      InWorld(world, a);
      ScanOne(world.ix, a.Key(), Elements(ids), baseline);
      found := {};
      if !skip {
        found := ScanRows(a);
      }
    }

    lemma Elsewhere(w: S.Index, a: Archetype, done: seq<S.Key>)
      requires a.Key() !in done && forall k :: k in done ==> k in w.archs
      ensures ScanIn(TrackKey(w, a.Key(), ids, world.changeTick), done, Elements(ids), baseline) ==
        ScanIn(w, done, Elements(ids), baseline)
    {
      hide TrackKey, ScanIn;
      var z := TrackKey(w, a.Key(), ids, world.changeTick);
      assert z.loc == w.loc by { TrackKeyLoc(w, a.Key(), ids, world.changeTick); }
      forall k | k in done
        ensures k in z.archs && z.archs[k] == w.archs[k]
      {
        TrackKeyElsewhere(w, a.Key(), ids, world.changeTick, k);
      }
      ScanKept(w, z, done, Elements(ids), baseline);
    }

    /** The scanning path: prepare, skip or scan each matching archetype. */
    method ScanArches(arches: seq<Archetype>) returns (found: set<Entity>)
      requires Ready() && world.Valid() && arches == Selected(query, world.archetypeList) && this !in world.repr
      requires forall a :: a in arches ==> a in world.archetypeList
      modifies world`ix, world.repr
      ensures world.Valid()
      ensures var ks := Matching(old(world.ix.order), Elements(ids));
        world.Model() == old(world.Model()).(ix := TrackKeys(old(world.ix), ks, ids, world.changeTick))
        && found == FromScan(world.ix, Elements(ids), baseline)
    {
      hide WorldOk, World.Tied, World.WindowTied, Selected, Matching, TrackKey, ScanIn, Skipped, ChangedRows,
        S.Shaped, FromScan;
      ghost var w, ks := world.ix, Matching(world.ix.order, Elements(ids));
      Matched();
      found := {};
      world.Lookup();
      assert ks[..0] == [] && ScanIn(world.ix, [], Elements(ids), baseline) == {} by {
        ScanNothing(world.ix, Elements(ids), baseline);
      }
      for k := 0 to |arches|
        invariant world.archetypeList == old(world.archetypeList) && world.repr == old(world.repr)
          && world.ix.archs.Keys == w.archs.Keys
        invariant world.Valid() && world.Model() == old(world.Model()).(ix :=
          TrackKeys(w, ks[..k], ids, world.changeTick))
        invariant found == ScanIn(world.ix, ks[..k], Elements(ids), baseline)
      {
        assert ks[..k + 1] == ks[..k] + [ks[k]] && ks[..k + 1][..k] == ks[..k] && KeysOf(arches)[k] == ks[k];
        TrackKeyLoc(world.ix, ks[k], ids, world.changeTick);
        var more := ScanArch(arches[k], ks[..k]);
        ScanMore(world.ix, ks[..k], ks[k], Elements(ids), baseline);
        found := found + more;
      }
      assert ks[..|ks|] == ks;
      world.UseOk();
      AllScanned(world.ix, ks, Elements(ids), baseline);
    }

    // ---------------------------------------------------------------- reading the log

    method IsWatched(t: TypeId) returns (b: bool)
      ensures b == (t in Elements(ids))
    {
      for j := 0 to |ids|
        invariant t !in ids[..j]
      {
        if ids[j] == t {
          return true;
        }
        assert ids[..j + 1] == ids[..j] + [ids[j]];
      }
      assert ids[..|ids|] == ids;
      return false;
    }

    method MatchesAll(e: Entity) returns (b: bool)
      requires world.Valid() && world.IsAlive(e)
      ensures e in world.ix.loc && b == (Elements(ids) <= world.ix.loc[e].key)
    {
      hide WorldOk, World.Tied, World.WindowTied;
      world.Lookup();
      for j := 0 to |ids|
        invariant forall i :: 0 <= i < j ==> ids[i] in world.ix.loc[e].key
      {
        if !world.HasComponentOf(e, ids[j]) {
          assert ids[j] in Elements(ids);
          return false;
        }
      }
      return true;
    }

    /** Consume the log from a position on, keeping watched writes about live members. */
    method ReadLog(start: nat, already: set<Entity>) returns (found: set<Entity>)
      requires world.Valid() && start <= |world.changeLog|
      ensures found == already + FromLog(world.Model(), start, Elements(ids), baseline)
    {
      hide WorldOk, World.Tied, World.WindowTied, FromLog;
      ghost var w := world.Model();
      world.Lookup();
      found := already;
      assert FromLog(Upto(w, start), start, Elements(ids), baseline) == {} by {
        LogNothing(w, start, Elements(ids), baseline);
      }
      var i := start;
      while i < |world.changeLog|
        invariant start <= i <= |world.changeLog|
        invariant found == already + FromLog(Upto(w, i), start, Elements(ids), baseline)
      {
        var entry := world.changeLog[i];
        LogMore(w, start, i, Elements(ids), baseline);
        if entry.tick > baseline {
          var watched := IsWatched(entry.comp);
          world.UseOk();
          if entry.entity in world.locations { LiveHandle(w.ix, entry.entity); }
          if watched && world.IsAlive(entry.entity) {
            var member := MatchesAll(entry.entity);
            if member {
              found := found + {entry.entity};
            }
          }
        }
        i := i + 1;
      }
      assert Upto(w, |world.changeLog|) == w by { assert w.clock.log[..|w.clock.log|] == w.clock.log; }
    }

    static ghost function Upto(w: S.World, n: nat): S.World
      requires n <= |w.clock.log|
    {
      w.(clock := w.clock.(log := w.clock.log[..n]))
    }

    static lemma LogNothing(w: S.World, start: nat, watched: set<TypeId>, baseline: Tick)
      requires start <= |w.clock.log|
      ensures FromLog(Upto(w, start), start, watched, baseline) == {}
    {
    }

    static lemma LogMore(w: S.World, start: nat, i: nat, watched: set<TypeId>, baseline: Tick)
      requires start <= i < |w.clock.log|
      ensures var e := w.clock.log[i];
        FromLog(Upto(w, i + 1), start, watched, baseline) == FromLog(Upto(w, i), start, watched, baseline) +
          if e.tick > baseline && e.comp in watched && e.entity in w.ix.loc && watched <= w.ix.loc[e.entity].key
            then {e.entity} else {}
    {
      var log, more := w.clock.log[..i], w.clock.log[..i + 1];
      assert more == log + [w.clock.log[i]];
      forall e
        ensures Noted(more, start, watched, baseline, e)
          <==> Noted(log, start, watched, baseline, e) || NotedAt(more, i, watched, baseline, e)
      {
        if Noted(log, start, watched, baseline, e) {
          var j :| start <= j && NotedAt(log, j, watched, baseline, e);
          assert NotedAt(more, j, watched, baseline, e);
        }
        if Noted(more, start, watched, baseline, e) && !NotedAt(more, i, watched, baseline, e) {
          var j :| start <= j && NotedAt(more, j, watched, baseline, e);
          assert NotedAt(log, j, watched, baseline, e);
        }
      }
    }

    // ---------------------------------------------------------------- the take

    /** Where reading the log starts: where the view left off, or the search point of its baseline. */
    method StartAt() returns (start: nat)
      requires ClockOk(world.Model().clock) && ReadUpTo(world.Model(), Seen())
      ensures start == Start(world.Model(), Seen()) && start <= |world.changeLog|
    {
      start := logPos;
      if !warmedUp || world.changeLogGeneration != logGen {
        start := world.ChangeLogLowerBound(baseline);
        SameBound(world.changeLog, baseline, start);
      }
    }

    /** Warmed up, same log, same archetypes. */
    method IsQuiet(arches: seq<Archetype>) returns (quiet: bool)
      requires Ready() && world.Valid() && arches == Selected(query, world.archetypeList)
      requires forall a :: a in arches ==> a in world.archetypeList
      ensures quiet == Quiet(world.Model(), Seen()) && KeysOf(arches) == Matching(world.ix.order, Elements(ids))
    {
      hide WorldOk, World.Tied, World.WindowTied, Selected, Matching, KeysOf, IdentitiesIn;
      Matched();
      SameByKey(arches, lastArches);
      quiet := warmedUp && world.changeLogGeneration == logGen;
      if quiet {
        quiet := SameArches(arches);
      }
    }

    /** Scan unless nothing but the log can have moved, then read the log. */
    method Gather(arches: seq<Archetype>) returns (found: set<Entity>)
      requires Ready() && world.Valid() && ClockOk(world.Model().clock) && ReadUpTo(world.Model(), Seen())
      requires this !in world.repr && world !in world.repr
      requires arches == Selected(query, world.archetypeList) && forall a :: a in arches ==> a in world.archetypeList
      modifies world`ix, world.repr
      ensures world.Valid() && world.Model() == Prepared(old(world.Model()), Seen(), ids)
      ensures found == Found(old(world.Model()), Seen(), ids)
        && KeysOf(arches) == Matching(old(world.ix.order), Elements(ids))
    {
      hide WorldOk, World.Tied, World.WindowTied, Selected, Matching, TrackKeys, FromLog, FromScan, KeysOf,
        IdentitiesIn, Quiet, Start, ClockOk, ReadUpTo;
      var quiet := IsQuiet(arches);
      var start := StartAt();
      found := {};
      if !quiet {
        found := ScanArches(arches);
      }
      found := ReadLog(start, found);
    }

    /** Report, in id order and once each, what the model's take reports, and move the baseline on. */
    method Take() returns (out: seq<Entity>)
      requires Ready() && world.Valid() && ClockOk(world.Model().clock) && ReadUpTo(world.Model(), Seen())
      requires this !in world.repr
      modifies this, world`ix, world.repr, world.queryCache
      ensures world.Valid() && Ready()
      ensures world.Model() == Prepared(old(world.Model()), old(Seen()), ids)
      ensures Seen() == Advanced(old(world.Model()), old(Seen()))
      ensures Sorted(out) && forall e :: e in out <==> e in Found(old(world.Model()), old(Seen()), ids)
    {
      hide World.Valid, Selected, Matching, TrackKeys, Found, KeysOf, IdentitiesIn, Quiet, ClockOk, ReadUpTo, Sorted;
      var arches := world.MatchQuery(query);
      CacheApart(world);
      var found := Gather(arches);
      logPos := |world.changeLog|;
      logGen := world.changeLogGeneration;
      warmedUp := true;
      lastArches := arches;
      AllListed(arches, world.archetypeList);
      baseline := world.changeTick;
      out := SortedOf(found);
    }

    static lemma CacheApart(world: World)
      requires world.Valid()
      ensures world.queryCache !in world.repr && world !in world.repr
    {
      hide WorldOk, World.Tied, World.WindowTied;
      world.Lookup();
    }

    static lemma SameBound(log: seq<S.LogEntry>, tick: Tick, lo: nat)
      requires forall i, j :: 0 <= i < j < |log| ==> log[i].tick <= log[j].tick
      requires lo <= |log| && forall i :: 0 <= i < |log| ==> (log[i].tick <= tick <==> i < lo)
      ensures lo == LowerBound(log, tick)
    {
      LowerBoundSplits(log, tick);
    }

    lemma AllScanned(w: S.Index, ks: seq<S.Key>, watched: set<TypeId>, b: Tick)
      requires forall k :: k in ks <==> k in w.archs && watched <= k
      requires S.Shaped(w)
      ensures ScanIn(w, ks, watched, b) == FromScan(w, watched, b)
    {
      hide S.ArchOk, S.RowOk;
      forall e | e in FromScan(w, watched, b) ensures w.loc[e].key in ks { assert S.Placed(w, e); }
    }
  }
}
