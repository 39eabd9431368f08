/** What a change view may rely on between two takes, and that every operation keeps it. */
module ChangeLaws {
  import opened Base
  import opened Schema
  import opened Storage
  import opened StorageLaws
  import opened Operations
  import opened Changes

  /** What a view remembers: the tick it last reported up to, how far it read the log and which log that was,
      and the archetypes it saw. `aliases` are archetypes it takes for freed ones whose address they got. */
  datatype Viewer = Viewer(watched: set<TypeId>, baseline: Tick, logPos: nat, logGen: nat, warmed: bool,
                           last: seq<Key>, aliases: set<Key>)

  /** What a view remembers of an archetype that has been freed: an identity no live archetype has, as type id 0 is
      never registered. */
  const GONE: Key := {0}

  function Remember(last: seq<Key>, archs: set<Key>): seq<Key> {
    seq(|last|, i requires 0 <= i < |last| => if last[i] in archs then last[i] else GONE)
  }

  /** The view once some archetypes have been freed. */
  function Forget(v: Viewer, archs: set<Key>): Viewer {
    v.(last := Remember(v.last, archs), aliases := v.aliases * archs)
  }

  /** The view once an archetype has got the address of a freed one. */
  function Alias(v: Viewer, i: nat, k: Key): Viewer
    requires i < |v.last|
  {
    v.(last := v.last[i := k], aliases := v.aliases + {k})
  }

  /** The archetypes holding every watched component, in list order. */
  ghost function Matching(order: seq<Key>, watched: set<TypeId>): seq<Key> {
    if order == [] then [] else
      var rest := Matching(order[..|order| - 1], watched);
      if watched <= order[|order| - 1] then rest + [order[|order| - 1]] else rest
  }

  ghost predicate Newer(cells: map<TypeId, Cell>, t: TypeId, baseline: Tick) {
    t in cells && cells[t].tracked && cells[t].version > baseline
  }

  /** The plain version scan's criterion: some watched row version lies above the baseline. */
  ghost predicate Dirty(w: Index, watched: set<TypeId>, baseline: Tick, e: Entity) {
    e in w.loc && watched <= w.loc[e].key && exists t :: t in watched && Newer(CellsOf(w, e), t, baseline)
  }

  ghost function Scan(w: Index, watched: set<TypeId>, baseline: Tick): set<Entity> {
    set e | e in w.loc && Dirty(w, watched, baseline, e)
  }

  ghost predicate NotedAt(log: seq<LogEntry>, i: int, watched: set<TypeId>, baseline: Tick, e: Entity) {
    0 <= i < |log| && log[i].entity == e && log[i].comp in watched && log[i].tick > baseline
  }

  ghost predicate Noted(log: seq<LogEntry>, from: nat, watched: set<TypeId>, baseline: Tick, e: Entity) {
    exists i :: from <= i && NotedAt(log, i, watched, baseline, e)
  }

  /** Nothing happened that forces a scan: warmed up, same log, same archetypes. */
  ghost predicate Quiet(w: World, v: Viewer) {
    v.warmed && v.logGen == w.clock.logGen && v.last == Matching(w.ix.order, v.watched)
  }

  ghost predicate AllTracked(w: Index, watched: set<TypeId>) {
    forall k, t {:trigger w.archs[k].cols[t]} ::
      k in w.archs && watched <= k && t in watched && t in w.archs[k].cols ==> w.archs[k].cols[t].tracking
  }

  /** A change the view has not reported yet is in the part of the log it has not read. */
  ghost predicate Caught(w: World, v: Viewer, e: Entity) {
    Dirty(w.ix, v.watched, v.baseline, e) ==> Noted(w.clock.log, v.logPos, v.watched, v.baseline, e)
  }

  /** Up to where the view has read, nothing is above its baseline. */
  ghost predicate ReadUpTo(w: World, v: Viewer) {
    v.warmed && v.logGen == w.clock.logGen ==>
      v.logPos <= |w.clock.log| && forall i :: 0 <= i < v.logPos ==> w.clock.log[i].tick <= v.baseline
  }

  ghost predicate Tracks(w: Index, k: Key, watched: set<TypeId>) {
    k in w.archs ==> forall t :: t in watched && t in w.archs[k].cols ==> w.archs[k].cols[t].tracking
  }

  /** The remembered archetypes that are still there match, are remembered once, and track their watched columns unless
      they are there under a false name. */
  ghost predicate Recalled(w: Index, v: Viewer) {
    && (forall k :: k in v.last && k != GONE ==>
       k in w.archs && v.watched <= k && (k !in v.aliases ==> Tracks(w, k, v.watched)))
    && forall i, j :: 0 <= i < j < |v.last| && v.last[i] == v.last[j] ==> v.last[i] == GONE
  }

  ghost predicate Bounds(w: World, v: Viewer) {
    0 <= v.baseline <= w.clock.tick && v.logGen <= w.clock.logGen && Recalled(w.ix, v) && ReadUpTo(w, v)
  }

  /** The view can trust the log, except for the entities listed. */
  ghost predicate Watching(w: World, v: Viewer, but: set<Entity>) {
    Bounds(w, v)
    && (Quiet(w, v) ==>
      v.logPos <= |w.clock.log| && AllTracked(w.ix, v.watched) && forall e :: e !in but ==> Caught(w, v, e))
  }

  // ------------------------------------------------------------------ lists only grow

  lemma {:induction false} MatchingMembers(order: seq<Key>, watched: set<TypeId>)
    ensures forall k :: k in Matching(order, watched) <==> k in order && watched <= k
  {
    if order != [] {
      MatchingMembers(order[..|order| - 1], watched);
      assert order == order[..|order| - 1] + [order[|order| - 1]];
    }
  }

  lemma {:induction false} MatchingGrows(a: seq<Key>, b: seq<Key>, watched: set<TypeId>)
    requires a <= b
    ensures Matching(a, watched) <= Matching(b, watched)
    decreases |b|
  {
    if |a| < |b| {
      MatchingGrows(a, b[..|b| - 1], watched);
    } else {
      assert a == b;
    }
  }

  lemma NoZero(w: Index, k: Key)
    requires Shaped(w) && k in w.archs
    ensures 0 !in k
  {
    assert ArchOk(w, k);
  }

  lemma NeverGone(w: Index)
    requires Shaped(w)
    ensures GONE !in w.order
  {
    assert 0 in GONE;
    forall k | k in w.order ensures k != GONE {
      assert k in Elements(w.order);
      NoZero(w, k);
    }
  }

  /** A remembered list without gaps that starts with the matching list is the matching list. */
  lemma RecalledAll(w: Index, v: Viewer)
    requires Shaped(w) && Recalled(w, v) && GONE !in v.last && Matching(w.order, v.watched) <= v.last
    ensures v.last == Matching(w.order, v.watched)
  {
    hide ArchOk, Placed, Tracks;
    var now := Matching(w.order, v.watched);
    MatchingMembers(w.order, v.watched);
    forall k | k in v.last ensures k in now {
      assert k in Elements(w.order);
    }
    if |now| < |v.last| { NextIsNew(now, v.last); }
  }

  lemma NextIsNew(front: seq<Key>, all: seq<Key>)
    requires front < all && forall i, j :: 0 <= i < j < |all| ==> all[i] != all[j]
    ensures all[|front|] in all && all[|front|] !in front
  {
    forall i | 0 <= i < |front| ensures front[i] != all[|front|] { assert front[i] == all[i]; }
  }

  /** If nothing forces a scan after a step, nothing did before it, and no matching archetype is new. */
  lemma QuietBack(a: World, b: World, v: Viewer)
    requires Bounds(a, v) && Ticks(a, b) && Shaped(a.ix) && Quiet(b, v)
    ensures Quiet(a, v) && a.clock.log <= b.clock.log
      && forall k :: k in b.ix.archs && v.watched <= k ==> k in a.ix.archs
  {
    hide Timed, Recalled;
    MatchingGrows(a.ix.order, b.ix.order, v.watched);
    MatchingMembers(a.ix.order, v.watched);
    MatchingMembers(b.ix.order, v.watched);
    NeverGone(b.ix);
    RecalledAll(a.ix, v);
    assert Elements(b.ix.order) == b.ix.archs.Keys && Elements(a.ix.order) == a.ix.archs.Keys;
    forall k | k in b.ix.archs && v.watched <= k ensures k in a.ix.archs {
      assert k in Elements(b.ix.order);
      assert k in Elements(a.ix.order);
    }
  }

  lemma RecalledStill(a: Index, b: Index, v: Viewer)
    requires Recalled(a, v) && Evolves(a, b) && Shaped(a) && Shaped(b)
    ensures Recalled(b, v)
  {
    hide RowOk, Placed, Arch.Ok;
    forall k | k in v.last && k != GONE ensures k in b.archs && (Tracks(a, k, v.watched) ==> Tracks(b, k, v.watched)) {
      assert k in Elements(a.order) && k in Elements(b.order);
      assert ArchOk(a, k) && ArchOk(b, k);
    }
  }

  lemma WatchStep(a: World, b: World, v: Viewer, but: set<Entity>, rest: set<Entity>)
    requires Watching(a, v, but) && Ticks(a, b) && Shaped(a.ix)
    requires
      Quiet(a, v) && Quiet(b, v) && a.clock.log <= b.clock.log && AllTracked(a.ix, v.watched)
      && AllTracked(b.ix, v.watched) ==>
      forall e :: e !in rest ==> Caught(b, v, e)
    ensures Watching(b, v, rest)
  {
    hide Timed, Shaped, Caught, Evolves, Recalled;
    RecalledStill(a.ix, b.ix, v);
    if Quiet(b, v) {
      QuietBack(a, b, v);
      StillTracked(a.ix, b.ix, v.watched);
    }
  }

  lemma StillTracked(a: Index, b: Index, watched: set<TypeId>)
    requires AllTracked(a, watched) && Evolves(a, b) && Shaped(a) && Shaped(b)
    requires forall k :: k in b.archs && watched <= k ==> k in a.archs
    ensures AllTracked(b, watched)
  {
    hide RowOk, Placed, Arch.Ok;
    forall k, t | k in b.archs && watched <= k && t in watched && t in b.archs[k].cols
      ensures b.archs[k].cols[t].tracking
    {
      assert ArchOk(a, k) && ArchOk(b, k);
      assert t in a.archs[k].cols && a.archs[k].cols[t].tracking;
    }
  }

  // ------------------------------------------------------------------ when a change stays caught

  lemma NotedLater(log: seq<LogEntry>, more: seq<LogEntry>, from: nat, watched: set<TypeId>, baseline: Tick, e: Entity)
    requires log <= more && Noted(log, from, watched, baseline, e)
    ensures Noted(more, from, watched, baseline, e)
  {
    var i :| from <= i && NotedAt(log, i, watched, baseline, e);
    assert NotedAt(more, i, watched, baseline, e);
  }

  /** No watched version rises: the entity is caught as before. */
  lemma CaughtKept(a: World, b: World, v: Viewer, e: Entity)
    requires Caught(a, v, e) && a.clock.log <= b.clock.log
    requires e in b.ix.loc && v.watched <= b.ix.loc[e].key ==> e in a.ix.loc && v.watched <= a.ix.loc[e].key
    requires forall t :: t in v.watched && Newer(CellsOf(b.ix, e), t, v.baseline) ==>
      Newer(CellsOf(a.ix, e), t, v.baseline)
    ensures Caught(b, v, e)
  {
    hide CellsOf, Newer, Noted;
    if Dirty(b.ix, v.watched, v.baseline, e) {
      assert Dirty(a.ix, v.watched, v.baseline, e);
      NotedLater(a.clock.log, b.clock.log, v.logPos, v.watched, v.baseline, e);
    }
  }

  /** The log ends with an entry about the entity, as recent as the clock. */
  lemma CaughtNow(b: World, v: Viewer, e: Entity)
    requires IndexTimed(b.ix, b.clock.tick) && Shaped(b.ix) && 0 <= b.clock.tick
    requires v.logPos < |b.clock.log| && b.clock.log[|b.clock.log| - 1].entity == e
      && b.clock.log[|b.clock.log| - 1].comp in v.watched
    requires b.clock.log[|b.clock.log| - 1].tick == b.clock.tick
    ensures Caught(b, v, e)
  {
    hide CellsOf, Shaped, IndexTimed;
    if Dirty(b.ix, v.watched, v.baseline, e) {
      CellTimed(b.ix, e, b.clock.tick);
      assert NotedAt(b.clock.log, |b.clock.log| - 1, v.watched, v.baseline, e);
    }
  }

  lemma CaughtOthers(a: World, b: World, v: Viewer, but: set<Entity>, e: Entity)
    requires (forall x :: x !in but ==> Caught(a, v, x)) && OnlyTouches(a.ix, b.ix, e) && a.clock.log <= b.clock.log
    ensures forall x :: x !in but && x != e ==> Caught(b, v, x)
  {
    hide CellsOf, Caught;
    forall x | x !in but && x != e ensures Caught(b, v, x) {
      if x in a.ix.loc { CaughtKept(a, b, v, x); } else { NotHere(b, v, x); }
    }
  }

  lemma NotHere(b: World, v: Viewer, e: Entity)
    requires e !in b.ix.loc || !(v.watched <= b.ix.loc[e].key)
    ensures Caught(b, v, e)
  {
  }

  lemma NothingWatched(b: World, v: Viewer, e: Entity)
    requires CellsOf(b.ix, e) == map[]
    ensures Caught(b, v, e)
  {
  }

  // ------------------------------------------------------------------ the building blocks

  lemma SpawnWatch(w: World, v: Viewer, but: set<Entity>, e: Entity)
    requires Watching(w, v, but) && Timed(w) && Coherent(w.ix) && e !in w.ix.loc && e != NO_ENTITY
    ensures Watching(Spawn(w, e), v, but)
  {
    hide Shaped, Sized, CellsOf, Timed, Caught, OnlyTouches, AllTracked, Attach;
    var b := Spawn(w, e);
    SpawnTicks(w, e);
    SpawnStore(w, e);
    if Quiet(w, v) && Quiet(b, v) {
      CaughtOthers(w, b, v, but, e);
      NothingWatched(b, v, e);
    }
    WatchStep(w, b, v, but, but);
  }

  lemma DetachWatch(w: World, b: World, v: Viewer, but: set<Entity>, e: Entity)
    requires Watching(w, v, but) && Timed(w) && Shaped(w.ix) && e in w.ix.loc && b.ix == Detach(w.ix, e)
      && b.clock == w.clock
    ensures Watching(b, v, but)
  {
    hide Shaped, CellsOf, Timed, Caught, OnlyTouches, AllTracked, Detach;
    DetachTicks(w, b, e);
    DetachShaped(w.ix, e);
    DetachTouches(w.ix, e);
    if Quiet(w, v) && Quiet(b, v) {
      CaughtOthers(w, b, v, but, e);
      NotHere(b, v, e);
    }
    WatchStep(w, b, v, but, but);
  }

  lemma WriteWatch(w: World, v: Viewer, but: set<Entity>, e: Entity, t: TypeId, data: Bytes)
    requires Watching(w, v, but) && Timed(w) && Shaped(w.ix) && e in w.ix.loc && t in w.ix.loc[e].key
    ensures Watching(WriteCell(w, e, t, data), v, if t in v.watched then but - {e} else but)
  {
    hide Shaped, CellsOf, IndexTimed, LogBacked, ClockOk, Caught, OnlyTouches, AllTracked, WriteCell, Put;
    var b := WriteCell(w, e, t, data);
    WriteCellTicks(w, e, t, data);
    WriteCellCells(w, e, t, data);
    if Quiet(w, v) && Quiet(b, v) && w.clock.log <= b.clock.log {
      CaughtOthers(w, b, v, but, e);
      WriteCaught(w, v, but, e, t, data);
    }
    WatchStep(w, b, v, but, if t in v.watched then but - {e} else but);
  }

  lemma WriteCaught(w: World, v: Viewer, but: set<Entity>, e: Entity, t: TypeId, data: Bytes)
    requires Watching(w, v, but) && Timed(w) && Shaped(w.ix) && e in w.ix.loc && t in w.ix.loc[e].key
    requires Quiet(w, v) && Quiet(WriteCell(w, e, t, data), v) && w.clock.log <= WriteCell(w, e, t, data).clock.log
    ensures e !in but || t in v.watched ==> Caught(WriteCell(w, e, t, data), v, e)
  {
    hide Shaped, CellsOf, IndexTimed, LogBacked, ClockOk, Caught, OnlyTouches, WriteCell, Put, Watching;
    var b := WriteCell(w, e, t, data);
    assert v.logPos <= |w.clock.log| && AllTracked(w.ix, v.watched) && (e !in but ==> Caught(w, v, e)) by {
      Trusts(w, v, but);
    }
    WriteCellTicks(w, e, t, data);
    WriteCellCells(w, e, t, data);
    CellThere(w.ix, e, t);
    WriteCellClock(w, e, t, data);
    if !(v.watched <= w.ix.loc[e].key) {
      NotHere(b, v, e);
    } else if t in v.watched {
      assert w.ix.archs[w.ix.loc[e].key].cols[t].tracking;
      assert |b.clock.log| > |w.clock.log| by { Appended(w, e, t, data); }
      TickKnown(b.clock);
      CaughtNow(b, v, e);
    } else if e !in but {
      CaughtKept(w, b, v, e);
    }
  }

  lemma Trusts(w: World, v: Viewer, but: set<Entity>)
    requires Watching(w, v, but) && Quiet(w, v)
    ensures v.logPos <= |w.clock.log| && AllTracked(w.ix, v.watched) && forall e :: e !in but ==> Caught(w, v, e)
  {
  }

  lemma Appended(w: World, e: Entity, t: TypeId, data: Bytes)
    requires ClockOk(w.clock) && HasCell(w.ix, e, t) && w.ix.archs[w.ix.loc[e].key].cols[t].tracking
    requires WriteCell(w, e, t, data).clock.logGen == w.clock.logGen
    ensures |WriteCell(w, e, t, data).clock.log| == |w.clock.log| + 1
  {
    hide Put;
  }

  /** Moving between archetypes that both hold all watched components keeps the versions; entering the matching
      set does not, and the write that follows must make up for it. */
  ghost predicate Enters(watched: set<TypeId>, from: Key, to: Key) {
    watched <= to && !(watched <= from)
  }

  lemma MovedNewer(w: World, v: Viewer, e: Entity, to: Key, t: TypeId)
    requires Shaped(w.ix) && e in w.ix.loc && to != w.ix.loc[e].key && forall u :: u in to ==> Registered(w.ix.reg, u)
    requires AllTracked(w.ix, v.watched) && v.watched <= w.ix.loc[e].key && t in v.watched && t in to
    requires Newer(CellsOf(ChangeKey(w, e, to).ix, e), t, v.baseline)
    ensures Newer(CellsOf(w.ix, e), t, v.baseline)
  {
    hide Shaped, CellsOf, ChangeKey, Registered;
    ChangedKeyCells(w, e, to);
    CellThere(w.ix, e, t);
    assert ArrivedCell(CellsOf(w.ix, e), CellsOf(ChangeKey(w, e, to).ix, e)[t], t, w.clock.tick);
  }

  lemma MoveWatch(w: World, v: Viewer, but: set<Entity>, e: Entity, to: Key)
    requires Watching(w, v, but) && Timed(w) && Shaped(w.ix) && e in w.ix.loc && to != w.ix.loc[e].key
    requires forall t :: t in to ==> Registered(w.ix.reg, t)
    ensures Watching(ChangeKey(w, e, to), v, if Enters(v.watched, w.ix.loc[e].key, to) then but + {e} else but)
  {
    hide Shaped, CellsOf, Timed, Caught, OnlyTouches, AllTracked, ChangeKey, Registered, Newer;
    var b := ChangeKey(w, e, to);
    ChangeKeyTicks(w, e, to);
    ChangeKeyCells(w, e, to);
    if Quiet(w, v) && Quiet(b, v) && w.clock.log <= b.clock.log {
      CaughtOthers(w, b, v, but, e);
      if !(v.watched <= to) {
        NotHere(b, v, e);
      } else if v.watched <= w.ix.loc[e].key && e !in but {
        forall t | t in v.watched && Newer(CellsOf(b.ix, e), t, v.baseline)
          ensures Newer(CellsOf(w.ix, e), t, v.baseline)
        {
          MovedNewer(w, v, e, to, t);
        }
        CaughtKept(w, b, v, e);
      }
    }
    WatchStep(w, b, v, but, if Enters(v.watched, w.ix.loc[e].key, to) then but + {e} else but);
  }

  /** Turning tracking on elsewhere, or stamping other rows of a column that was not tracked, changes nothing a
      trusting view watches. */
  lemma CaughtTracked(a: World, b: World, v: Viewer, x: Entity, t: TypeId, tick: Tick)
    requires Caught(a, v, x) && a.clock.log <= b.clock.log && b.ix.loc == a.ix.loc && AllTracked(a.ix, v.watched)
      && Shaped(a.ix)
    requires x in a.ix.loc && t in CellsOf(a.ix, x)
    requires CellsOf(b.ix, x) == CellsOf(a.ix, x)
      || CellsOf(b.ix, x) == CellsOf(a.ix, x)[t := Tracked(CellsOf(a.ix, x)[t], tick)]
    ensures Caught(b, v, x)
  {
    hide CellsOf, Shaped, Noted, LogBacked;
    if v.watched <= a.ix.loc[x].key {
      if t in v.watched { CellThere(a.ix, x, t); }
      CaughtKept(a, b, v, x);
    } else {
      NotHere(b, v, x);
    }
  }

  lemma TrackWatch(w: World, v: Viewer, but: set<Entity>, k: Key, t: TypeId)
    requires Watching(w, v, but) && Timed(w) && Shaped(w.ix)
    ensures Watching(w.(ix := Track(w.ix, k, t, w.clock.tick)), v, but)
  {
    hide Shaped, CellsOf, Timed, Caught, AllTracked, Track, Registered, Newer;
    var b := w.(ix := Track(w.ix, k, t, w.clock.tick));
    TrackTicks(w, k, t);
    if Quiet(w, v) && Quiet(b, v) && AllTracked(w.ix, v.watched) {
      forall x | x !in but ensures Caught(b, v, x) {
        if k in w.ix.archs && t in k {
          TrackShaped(w.ix, k, t, w.clock.tick);
          if x in w.ix.loc && w.ix.loc[x].key == k {
            TrackCells(w.ix, k, t, w.clock.tick, x);
            CaughtTracked(w, b, v, x, t, w.clock.tick);
          } else if x in w.ix.loc {
            TrackCells(w.ix, k, t, w.clock.tick, x);
            CaughtKept(w, b, v, x);
          } else {
            NotHere(b, v, x);
          }
        } else {
          TrackNothing(w.ix, k, t, w.clock.tick);
        }
      }
    }
    WatchStep(w, b, v, but, but);
  }

  lemma MarkWatch(w: World, v: Viewer, e: Entity, t: TypeId)
    requires Watching(w, v, {}) && Timed(w) && Shaped(w.ix) && Has(w.ix, e, t)
    ensures Watching(MarkChanged(w, e, t), v, {})
  {
    hide Shaped, CellsOf, IndexTimed, LogBacked, ClockOk, Caught, AllTracked, MarkChanged, Stamp, Newer;
    var b := MarkChanged(w, e, t);
    MarkTicks(w, e, t);
    if Quiet(w, v) && Quiet(b, v) && w.clock.log <= b.clock.log && AllTracked(w.ix, v.watched) {
      forall x ensures Caught(b, v, x) { MarkCaught(w, v, e, t, x); }
    }
    WatchStep(w, b, v, {}, {});
  }

  lemma MarkCaught(w: World, v: Viewer, e: Entity, t: TypeId, x: Entity)
    requires Watching(w, v, {}) && Timed(w) && Shaped(w.ix) && Has(w.ix, e, t) && Ticks(w, MarkChanged(w, e, t))
    requires Quiet(w, v) && Quiet(MarkChanged(w, e, t), v) && w.clock.log <= MarkChanged(w, e, t).clock.log
    ensures Caught(MarkChanged(w, e, t), v, x)
  {
    hide Shaped, CellsOf, IndexTimed, LogBacked, ClockOk, Caught, MarkChanged, Stamp, Watching, Newer;
    var b := MarkChanged(w, e, t);
    assert v.logPos <= |w.clock.log| && AllTracked(w.ix, v.watched) && Caught(w, v, x) by { Trusts(w, v, {}); }
    MarkClock(w, e, t);
    StampShaped(w.ix, e, t, w.clock.tick, b.clock.tick);
    if x !in w.ix.loc || !(v.watched <= w.ix.loc[x].key) {
      NotHere(b, v, x);
    } else {
      StampCells(w.ix, e, t, w.clock.tick, b.clock.tick, x);
      if x == e && t in v.watched {
        assert |b.clock.log| > |w.clock.log| by { MarkAppended(w, e, t); }
        TickKnown(b.clock);
        CaughtNow(b, v, e);
      } else if x == e {
        MarkedOther(CellsOf(w.ix, e), CellsOf(b.ix, e), t, v.watched, v.baseline);
        CaughtKept(w, b, v, e);
      } else if w.ix.loc[x].key == w.ix.loc[e].key {
        CaughtTracked(w, b, v, x, t, w.clock.tick);
      } else {
        CaughtKept(w, b, v, x);
      }
    }
  }

  lemma MarkedOther(before: map<TypeId, Cell>, after: map<TypeId, Cell>, t: TypeId, watched: set<TypeId>,
                    baseline: Tick)
    requires t in before && after.Keys == before.Keys
      && (forall u :: u in before && u != t ==> after[u] == before[u]) && t !in watched
    ensures forall u :: u in watched && Newer(after, u, baseline) ==> Newer(before, u, baseline)
  {
  }

  lemma MarkAppended(w: World, e: Entity, t: TypeId)
    requires ClockOk(w.clock) && Has(w.ix, e, t) && MarkChanged(w, e, t).clock.logGen == w.clock.logGen
    ensures |MarkChanged(w, e, t).clock.log| == |w.clock.log| + 1
  {
    hide Stamp;
  }
}
