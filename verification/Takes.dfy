/** What `ChangeView::take` reports, against the plain version scan. */
module Takes {
  import opened Base
  import opened Schema
  import opened Storage
  import opened StorageLaws
  import opened Operations
  import opened Runs
  import opened Changes
  import opened ChangeLaws
  import opened ChangeRuns

  /** `ensure_versions` on every watched column of one archetype, then of a list of them. */
  ghost function TrackKey(w: Index, k: Key, ids: seq<TypeId>, tick: Tick): Index {
    if ids == [] then w else Track(TrackKey(w, k, ids[..|ids| - 1], tick), k, ids[|ids| - 1], tick)
  }

  ghost function TrackKeys(w: Index, ks: seq<Key>, ids: seq<TypeId>, tick: Tick): Index {
    if ks == [] then w else TrackKey(TrackKeys(w, ks[..|ks| - 1], ids, tick), ks[|ks| - 1], ids, tick)
  }

  /** An archetype whose watched maxima all lie at or below the baseline is not scanned. */
  ghost predicate Skipped(w: Index, k: Key, watched: set<TypeId>, baseline: Tick) {
    k in w.archs ==> forall t :: t in watched && t in w.archs[k].cols ==> w.archs[k].cols[t].Max() <= baseline
  }

  ghost function FromScan(w: Index, watched: set<TypeId>, baseline: Tick): set<Entity> {
    set e | e in w.loc && Dirty(w, watched, baseline, e) && !Skipped(w, w.loc[e].key, watched, baseline)
  }

  ghost function FromLog(w: World, from: nat, watched: set<TypeId>, baseline: Tick): set<Entity> {
    set e | e in w.ix.loc && watched <= w.ix.loc[e].key && Noted(w.clock.log, from, watched, baseline, e)
  }

  /** The first entry above a tick. */
  function LowerBound(log: seq<LogEntry>, tick: Tick): (i: nat)
    ensures i <= |log|
  {
    if log == [] || log[|log| - 1].tick <= tick then |log| else LowerBound(log[..|log| - 1], tick)
  }

  /** The world as the take leaves it. */
  ghost function Prepared(w: World, v: Viewer, ids: seq<TypeId>): World {
    if Quiet(w, v) then w else w.(ix := TrackKeys(w.ix, Matching(w.ix.order, v.watched), ids, w.clock.tick))
  }

  ghost function Start(w: World, v: Viewer): nat {
    if v.warmed && v.logGen == w.clock.logGen then v.logPos else LowerBound(w.clock.log, v.baseline)
  }

  /** What the take reports. */
  ghost function Found(w: World, v: Viewer, ids: seq<TypeId>): set<Entity> {
    var p := Prepared(w, v, ids);
    (if Quiet(w, v) then {} else FromScan(p.ix, v.watched, v.baseline)) + FromLog(p, Start(w, v), v.watched, v.baseline)
  }

  /** The view after the take. */
  ghost function Advanced(w: World, v: Viewer): Viewer {
    Viewer(v.watched, w.clock.tick, |w.clock.log|, w.clock.logGen, true, Matching(w.ix.order, v.watched), {})
  }

  function NewView(w: World, watched: set<TypeId>): Viewer {
    Viewer(watched, w.clock.tick, 0, 0, false, [], {})
  }

  // ------------------------------------------------------------------ the log search

  /** The search point splits the log exactly at the tick. */
  lemma {:induction false} LowerBoundSplits(log: seq<LogEntry>, tick: Tick)
    requires forall i, j :: 0 <= i < j < |log| ==> log[i].tick <= log[j].tick
    ensures forall i :: 0 <= i < |log| ==> (log[i].tick <= tick <==> i < LowerBound(log, tick))
  {
    if log != [] && log[|log| - 1].tick > tick { LowerBoundSplits(log[..|log| - 1], tick); }
  }

  /** Starting at the search point or at the beginning finds the same entries. */
  lemma NotedFrom(log: seq<LogEntry>, from: nat, watched: set<TypeId>, baseline: Tick, e: Entity)
    requires forall i :: 0 <= i < from && i < |log| ==> log[i].tick <= baseline
    ensures Noted(log, from, watched, baseline, e) <==> Noted(log, 0, watched, baseline, e)
  {
    if Noted(log, 0, watched, baseline, e) {
      var i :| 0 <= i && NotedAt(log, i, watched, baseline, e);
      assert from <= i;
    }
  }

  // ------------------------------------------------------------------ preparing

  lemma {:induction false} TrackKeyTrust(w: World, v: Viewer, k: Key, ids: seq<TypeId>)
    requires Trusted(w, v)
    ensures var b := w.(ix := TrackKey(w.ix, k, ids, w.clock.tick));
      Trusted(b, v) && Ticks(w, b) && b.ix.loc == w.ix.loc && b.ix.order == w.ix.order
        && b.ix.archs.Keys == w.ix.archs.Keys
  {
    hide Shaped, Timed, Watching, Track;
    if ids == [] {
      TicksSame(w);
    } else {
      var m := w.(ix := TrackKey(w.ix, k, ids[..|ids| - 1], w.clock.tick));
      TrackKeyTrust(w, v, k, ids[..|ids| - 1]);
      TrackTrust(m, v, k, ids[|ids| - 1]);
      TrackTicks(m, k, ids[|ids| - 1]);
      TicksTwice(w, m, m.(ix := Track(m.ix, k, ids[|ids| - 1], w.clock.tick)));
      TrackSame(m.ix, k, ids[|ids| - 1], w.clock.tick);
    }
  }

  lemma TrackSame(w: Index, k: Key, t: TypeId, tick: Tick)
    ensures Track(w, k, t, tick).loc == w.loc && Track(w, k, t, tick).order == w.order
      && Track(w, k, t, tick).archs.Keys == w.archs.Keys
    ensures Track(w, k, t, tick).reg == w.reg
  {
  }

  lemma {:induction false} TrackKeyTracks(w: Index, k: Key, ids: seq<TypeId>, tick: Tick)
    requires k in w.archs
    ensures var b := TrackKey(w, k, ids, tick);
      k in b.archs && b.archs[k].cols.Keys == w.archs[k].cols.Keys
      && forall t :: t in ids && t in b.archs[k].cols ==> b.archs[k].cols[t].tracking
  {
    if ids != [] {
      TrackKeyTracks(w, k, ids[..|ids| - 1], tick);
      assert ids == ids[..|ids| - 1] + [ids[|ids| - 1]];
    }
  }

  lemma {:induction false} TrackKeysTrust(w: World, v: Viewer, ks: seq<Key>, ids: seq<TypeId>)
    requires Trusted(w, v)
    ensures var b := w.(ix := TrackKeys(w.ix, ks, ids, w.clock.tick));
      Trusted(b, v) && Ticks(w, b) && b.ix.loc == w.ix.loc && b.ix.order == w.ix.order
        && b.ix.archs.Keys == w.ix.archs.Keys
  {
    hide Shaped, Timed, Watching, TrackKey;
    if ks == [] {
      TicksSame(w);
    } else {
      var m := w.(ix := TrackKeys(w.ix, ks[..|ks| - 1], ids, w.clock.tick));
      TrackKeysTrust(w, v, ks[..|ks| - 1], ids);
      TrackKeyTrust(m, v, ks[|ks| - 1], ids);
      TicksTwice(w, m, m.(ix := TrackKey(m.ix, ks[|ks| - 1], ids, w.clock.tick)));
    }
  }

  lemma {:induction false} TrackKeysTrack(w: World, v: Viewer, ks: seq<Key>, ids: seq<TypeId>)
    requires Trusted(w, v) && forall k :: k in ks ==> k in w.ix.archs
    ensures var b := TrackKeys(w.ix, ks, ids, w.clock.tick);
      forall k, t {:trigger b.archs[k].cols[t]} :: k in ks && t in ids && k in b.archs && t in b.archs[k].cols ==>
        b.archs[k].cols[t].tracking
  {
    hide Shaped, Timed, Watching, TrackKey;
    if ks != [] {
      var front, k := ks[..|ks| - 1], ks[|ks| - 1];
      var m := w.(ix := TrackKeys(w.ix, front, ids, w.clock.tick));
      TrackKeysTrust(w, v, front, ids);
      TrackKeysTrack(w, v, front, ids);
      TrackKeyTrust(m, v, k, ids);
      TrackKeyTracks(m.ix, k, ids, w.clock.tick);
      var b := TrackKey(m.ix, k, ids, w.clock.tick);
      assert ks == front + [k];
      forall j, t | j in ks && t in ids && j in b.archs && t in b.archs[j].cols ensures b.archs[j].cols[t].tracking {
        if j != k { SameColumns(m.ix, b, j); }
      }
    }
  }

  lemma SameColumns(a: Index, b: Index, k: Key)
    requires Shaped(a) && Shaped(b) && k in a.archs && k in b.archs
    ensures a.archs[k].cols.Keys == b.archs[k].cols.Keys
  {
    assert ArchOk(a, k) && ArchOk(b, k);
  }

  lemma PreparedTracked(w: World, v: Viewer, ids: seq<TypeId>)
    requires Trusted(w, v) && v.watched == Elements(ids)
    ensures var p := Prepared(w, v, ids);
      Trusted(p, v) && p.ix.loc == w.ix.loc && p.ix.order == w.ix.order && p.clock == w.clock
        && AllTracked(p.ix, v.watched)
  {
    hide Timed, Watching, TrackKeys, CellsOf;
    if Quiet(w, v) {
      Trusts(w, v, {});
    } else {
      var ks := Matching(w.ix.order, v.watched);
      MatchingMembers(w.ix.order, v.watched);
      assert forall k :: k in ks ==> k in Elements(w.ix.order);
      TrackKeysTrust(w, v, ks, ids);
      TrackKeysTrack(w, v, ks, ids);
      var p := Prepared(w, v, ids);
      forall k, t | k in p.ix.archs && v.watched <= k && t in v.watched && t in p.ix.archs[k].cols
        ensures p.ix.archs[k].cols[t].tracking
      {
        assert k in Elements(w.ix.order);
      }
    }
  }

  // ------------------------------------------------------------------ soundness and completeness of one take

  lemma StartReads(w: World, v: Viewer, e: Entity)
    requires ReadUpTo(w, v) && ClockOk(w.clock)
    ensures Noted(w.clock.log, Start(w, v), v.watched, v.baseline, e)
      <==> Noted(w.clock.log, 0, v.watched, v.baseline, e)
  {
    if !(v.warmed && v.logGen == w.clock.logGen) { LowerBoundSplits(w.clock.log, v.baseline); }
    NotedFrom(w.clock.log, Start(w, v), v.watched, v.baseline, e);
  }

  /** A log entry above the baseline about a live matching entity means a version above the baseline. */
  lemma NotedIsDirty(p: World, watched: set<TypeId>, baseline: Tick, from: nat, e: Entity)
    requires LogBacked(p) && Shaped(p.ix) && AllTracked(p.ix, watched) && e in p.ix.loc && watched <= p.ix.loc[e].key
    requires Noted(p.clock.log, from, watched, baseline, e)
    ensures Dirty(p.ix, watched, baseline, e)
  {
    hide CellsOf, Shaped;
    var i :| from <= i && NotedAt(p.clock.log, i, watched, baseline, e);
    var t := p.clock.log[i].comp;
    CellThere(p.ix, e, t);
    assert Backed(CellsOf(p.ix, e), p.clock.log[i]);
    assert Newer(CellsOf(p.ix, e), t, baseline);
  }

  /** A take never reports an entity the version scan would not. */
  lemma TakeIsSound(w: World, v: Viewer, ids: seq<TypeId>)
    requires Trusted(w, v) && v.watched == Elements(ids)
    ensures Found(w, v, ids) <= Scan(Prepared(w, v, ids).ix, v.watched, v.baseline)
  {
    hide CellsOf, Dirty, Noted, TrackKeys, Watching, Shaped, AllTracked, LogBacked;
    var p := Prepared(w, v, ids);
    PreparedTracked(w, v, ids);
    forall e | e in Found(w, v, ids) ensures e in Scan(p.ix, v.watched, v.baseline) {
      if e in FromLog(p, Start(w, v), v.watched, v.baseline) { NotedIsDirty(p, v.watched, v.baseline, Start(w, v), e); }
    }
  }

  /** The log-only path reports exactly what the plain version scan would. */
  lemma QuietTakeIsScan(w: World, v: Viewer, ids: seq<TypeId>)
    requires Trusted(w, v) && v.watched == Elements(ids) && Quiet(w, v)
    ensures Found(w, v, ids) == Scan(w.ix, v.watched, v.baseline)
  {
    hide CellsOf, Noted, Shaped, Timed, Newer;
    TakeIsSound(w, v, ids);
    forall e | e in Scan(w.ix, v.watched, v.baseline) ensures e in Found(w, v, ids) { assert Caught(w, v, e); }
  }

  /** What the scanning path can still reach: the archetype is scanned, or the log remembers the write. */
  ghost predicate Reachable(p: World, v: Viewer, e: Entity) {
    e in p.ix.loc && (!Skipped(p.ix, p.ix.loc[e].key, v.watched, v.baseline)
      || Noted(p.clock.log, 0, v.watched, v.baseline, e))
  }

  lemma ReportedIff(w: World, v: Viewer, ids: seq<TypeId>, e: Entity)
    requires Trusted(w, v) && v.watched == Elements(ids) && !Quiet(w, v)
    requires e in Scan(Prepared(w, v, ids).ix, v.watched, v.baseline)
    ensures e in Found(w, v, ids) <==> Reachable(Prepared(w, v, ids), v, e)
  {
    hide CellsOf, Dirty, Noted, TrackKeys, Watching, Shaped, Timed, Skipped, AllTracked;
    var p := Prepared(w, v, ids);
    PreparedTracked(w, v, ids);
    ClockOf(w, v);
    StartReads(w, v, e);
    assert v.watched <= p.ix.loc[e].key by { DirtyMatches(p.ix, v.watched, v.baseline, e); }
  }

  lemma ReportIffReachable(w: World, v: Viewer, ids: seq<TypeId>)
    requires Trusted(w, v) && v.watched == Elements(ids) && !Quiet(w, v)
    ensures var p := Prepared(w, v, ids);
      Found(w, v, ids) == Scan(p.ix, v.watched, v.baseline)
      <==> forall e :: e in Scan(p.ix, v.watched, v.baseline) ==> Reachable(p, v, e)
  {
    hide Reachable, Found, Prepared, Scan, Quiet, Trusted;
    var p := Prepared(w, v, ids);
    var found, scan := Found(w, v, ids), Scan(p.ix, v.watched, v.baseline);
    TakeIsSound(w, v, ids);
    forall e | e in scan ensures e in found <==> Reachable(p, v, e) { ReportedIff(w, v, ids, e); }
    if forall e :: e in scan ==> Reachable(p, v, e) {
      forall e | e in scan ensures e in found { assert Reachable(p, v, e); }
    }
  }

  lemma ClockOf(w: World, v: Viewer)
    requires Trusted(w, v)
    ensures ClockOk(w.clock) && IndexTimed(w.ix, w.clock.tick) && Shaped(w.ix) && 0 <= v.baseline <= w.clock.tick
      && ReadUpTo(w, v)
  {
  }

  // ------------------------------------------------------------------ the same before the call

  lemma {:induction false} TrackKeyCol(w: Index, k: Key, ids: seq<TypeId>, tick: Tick, j: Key, t: TypeId)
    requires j in w.archs && t in w.archs[j].cols
    ensures var b := TrackKey(w, k, ids, tick);
      && j in b.archs && t in b.archs[j].cols
      && b.archs[j].cols[t] ==
         if j == k && t in ids then w.archs[j].cols[t].EnsureVersions(tick) else w.archs[j].cols[t]
  {
    if ids != [] {
      TrackKeyCol(w, k, ids[..|ids| - 1], tick, j, t);
      assert ids == ids[..|ids| - 1] + [ids[|ids| - 1]];
    }
  }

  lemma {:induction false} TrackKeysCol(w: Index, ks: seq<Key>, ids: seq<TypeId>, tick: Tick, j: Key, t: TypeId)
    requires j in w.archs && t in w.archs[j].cols
    ensures var b := TrackKeys(w, ks, ids, tick);
      && j in b.archs && t in b.archs[j].cols
      && b.archs[j].cols[t] ==
         if j in ks && t in ids then w.archs[j].cols[t].EnsureVersions(tick) else w.archs[j].cols[t]
  {
    if ks != [] {
      var front, k := ks[..|ks| - 1], ks[|ks| - 1];
      TrackKeysCol(w, front, ids, tick, j, t);
      TrackKeyCol(TrackKeys(w, front, ids, tick), k, ids, tick, j, t);
      assert ks == front + [k];
    }
  }

  /** A scanning take turns tracking on in every watched column of every matching archetype. */
  lemma PreparedCol(w: World, v: Viewer, ids: seq<TypeId>, j: Key, t: TypeId)
    requires Shaped(w.ix) && v.watched == Elements(ids) && !Quiet(w, v)
    requires j in w.ix.archs && v.watched <= j && t in w.ix.archs[j].cols && t in v.watched
    ensures var p := Prepared(w, v, ids).ix;
      j in p.archs && t in p.archs[j].cols && p.archs[j].cols[t] == w.ix.archs[j].cols[t].EnsureVersions(w.clock.tick)
  {
    hide ArchOk, Placed, TrackKeys, Quiet;
    MatchingMembers(w.ix.order, v.watched);
    assert j in Elements(w.ix.order);
    TrackKeysCol(w.ix, Matching(w.ix.order, v.watched), ids, w.clock.tick, j, t);
  }

  /** When a row was last written, as far as is known: a row nobody tracked may have been written just now. */
  function LastWrite(c: Cell, now: Tick): Tick {
    if c.tracked then c.version else now
  }

  /** What a scanning take should report: a matching entity with a watched row that may have been written since. */
  ghost predicate MayHaveChanged(w: World, watched: set<TypeId>, baseline: Tick, e: Entity) {
    && e in w.ix.loc && watched <= w.ix.loc[e].key
    && exists t :: t in watched && t in CellsOf(w.ix, e) && LastWrite(CellsOf(w.ix, e)[t], w.clock.tick) > baseline
  }

  function MaxOrNow(c: Col, now: Tick): Tick {
    if c.tracking then c.maxVersion else now
  }

  /** An archetype that will be scanned: some watched column is untracked, or its maximum is recent. */
  ghost predicate WillScan(w: World, k: Key, watched: set<TypeId>, baseline: Tick) {
    k in w.ix.archs
    && exists t :: t in watched && t in w.ix.archs[k].cols && MaxOrNow(w.ix.archs[k].cols[t], w.clock.tick) > baseline
  }

  lemma PreparedCell(w: World, v: Viewer, ids: seq<TypeId>, e: Entity, t: TypeId)
    requires Trusted(w, v) && v.watched == Elements(ids) && !Quiet(w, v)
    requires e in w.ix.loc && v.watched <= w.ix.loc[e].key && t in v.watched
    ensures var p := Prepared(w, v, ids);
      && t in CellsOf(w.ix, e)
      && (Newer(CellsOf(p.ix, e), t, v.baseline) <==> LastWrite(CellsOf(w.ix, e)[t], w.clock.tick) > v.baseline)
  {
    hide CellsOf, TrackKeys, Quiet, Watching, Timed, AllTracked, ArchOk;
    var p, k := Prepared(w, v, ids), w.ix.loc[e].key;
    PreparedTracked(w, v, ids);
    CellVersion(w.ix, e, t);
    CellVersion(p.ix, e, t);
    PreparedCol(w, v, ids, k, t);
    RowExists(w.ix, e);
    RowExists(p.ix, e);
  }

  lemma MayHaveChangedIff(w: World, v: Viewer, ids: seq<TypeId>, e: Entity)
    requires Trusted(w, v) && v.watched == Elements(ids) && !Quiet(w, v)
    ensures Dirty(Prepared(w, v, ids).ix, v.watched, v.baseline, e)
      <==> MayHaveChanged(w, v.watched, v.baseline, e)
  {
    hide CellsOf, TrackKeys, Quiet, Watching, Shaped, Timed, AllTracked, Newer, LastWrite;
    var p := Prepared(w, v, ids);
    PreparedTracked(w, v, ids);
    if e in w.ix.loc && v.watched <= w.ix.loc[e].key {
      forall t | t in v.watched
        ensures t in CellsOf(w.ix, e)
        ensures Newer(CellsOf(p.ix, e), t, v.baseline) <==> LastWrite(CellsOf(w.ix, e)[t], w.clock.tick) > v.baseline
      {
        PreparedCell(w, v, ids, e, t);
      }
    }
  }

  lemma WillScanIff(w: World, v: Viewer, ids: seq<TypeId>, k: Key)
    requires Trusted(w, v) && v.watched == Elements(ids) && !Quiet(w, v) && k in w.ix.archs && v.watched <= k
    ensures Skipped(Prepared(w, v, ids).ix, k, v.watched, v.baseline) <==> !WillScan(w, k, v.watched, v.baseline)
  {
    hide TrackKeys, Quiet, Watching, Timed, AllTracked, Prepared;
    var p := Prepared(w, v, ids);
    PreparedTracked(w, v, ids);
    assert k in p.ix.archs by { OrderKeys(w.ix); OrderKeys(p.ix); }
    SameColumns(w.ix, p.ix, k);
    forall t | t in v.watched && t in w.ix.archs[k].cols
      ensures p.ix.archs[k].cols[t].Max() == MaxOrNow(w.ix.archs[k].cols[t], w.clock.tick)
    {
      PreparedCol(w, v, ids, k, t);
    }
  }

  lemma OrderKeys(w: Index)
    requires Shaped(w)
    ensures Elements(w.order) == w.archs.Keys
  {
  }

  /** Whatever happened since the last take, a scanning take reports every matching row that may have been written since
      if and only if, before the call, each such row is in an archetype with an untracked watched column or a recent
      watched maximum, or is named in what is left of the log. */
  lemma TakeIsScanIff(w: World, v: Viewer, ids: seq<TypeId>)
    requires Trusted(w, v) && v.watched == Elements(ids) && !Quiet(w, v)
    ensures forall e ::
      e in Scan(Prepared(w, v, ids).ix, v.watched, v.baseline) <==> MayHaveChanged(w, v.watched, v.baseline, e)
    ensures Found(w, v, ids) == Scan(Prepared(w, v, ids).ix, v.watched, v.baseline)
      <==> forall e :: MayHaveChanged(w, v.watched, v.baseline, e) ==>
        WillScan(w, w.ix.loc[e].key, v.watched, v.baseline) || Noted(w.clock.log, 0, v.watched, v.baseline, e)
  {
    hide CellsOf, TrackKeys, Quiet, Watching, Shaped, Timed, AllTracked, Dirty, Noted, Skipped, WillScan, Found;
    var p := Prepared(w, v, ids);
    PreparedTracked(w, v, ids);
    forall e
      ensures e in Scan(p.ix, v.watched, v.baseline) <==> MayHaveChanged(w, v.watched, v.baseline, e)
      ensures MayHaveChanged(w, v.watched, v.baseline, e) ==>
        (Reachable(p, v, e) <==>
          WillScan(w, w.ix.loc[e].key, v.watched, v.baseline) || Noted(w.clock.log, 0, v.watched, v.baseline, e))
    {
      MayHaveChangedIff(w, v, ids, e);
      if MayHaveChanged(w, v.watched, v.baseline, e) {
        HomeKnown(w.ix, e);
        WillScanIff(w, v, ids, w.ix.loc[e].key);
      }
    }
    ReportIffReachable(w, v, ids);
  }

  lemma HomeKnown(w: Index, e: Entity)
    requires Shaped(w) && e in w.loc
    ensures w.loc[e].key in w.archs
  {
    assert Placed(w, e);
  }

  lemma DirtyMatches(w: Index, watched: set<TypeId>, baseline: Tick, e: Entity)
    requires Dirty(w, watched, baseline, e)
    ensures e in w.loc && watched <= w.loc[e].key
  {
  }

  /** No column maximum was forgotten: a watched column of a matching archetype has maximum 0 only without rows. */
  ghost predicate MaximaIntact(w: Index, watched: set<TypeId>) {
    forall k, t {:trigger w.archs[k].cols[t]} ::
      k in w.archs && watched <= k && t in watched && t in w.archs[k].cols && w.archs[k].cols[t].maxVersion == 0 ==>
        w.archs[k].entities == []
  }

  lemma SkippedIsClean(w: Index, tick: Tick, watched: set<TypeId>, baseline: Tick, e: Entity)
    requires IndexTimed(w, tick) && Shaped(w) && MaximaIntact(w, watched) && 0 <= baseline
      && Dirty(w, watched, baseline, e)
    ensures !Skipped(w, w.loc[e].key, watched, baseline)
  {
    var k := w.loc[e].key;
    assert Placed(w, e) && ArchOk(w, k);
    var t :| t in watched && Newer(CellsOf(w, e), t, baseline);
    CellThere(w, e, t);
    var c := w.archs[k].cols[t];
    assert ColTimed(c, tick) && c.versions[w.loc[e].row] > baseline;
  }

  /** As long as no removal has reset a watched maximum, no take loses anything, not even across log compaction,
      `clear` or new archetypes. */
  lemma TakeLosesNothing(w: World, v: Viewer, ids: seq<TypeId>)
    requires Trusted(w, v) && v.watched == Elements(ids)
    requires MaximaIntact(Prepared(w, v, ids).ix, v.watched)
    ensures Found(w, v, ids) == Scan(Prepared(w, v, ids).ix, v.watched, v.baseline)
  {
    hide CellsOf, Noted, TrackKeys, Watching, Shaped, LogBacked, ClockOk, IndexTimed, Skipped, AllTracked,
      MaximaIntact, Dirty;
    if Quiet(w, v) {
      QuietTakeIsScan(w, v, ids);
    } else {
      var p := Prepared(w, v, ids);
      PreparedTracked(w, v, ids);
      ClockOf(p, v);
      forall e | e in Scan(p.ix, v.watched, v.baseline) ensures Reachable(p, v, e) {
        SkippedIsClean(p.ix, p.clock.tick, v.watched, v.baseline, e);
      }
      ReportIffReachable(w, v, ids);
    }
  }

  // ------------------------------------------------------------------ from one take to the next

  lemma NothingAhead(w: Index, tick: Tick, watched: set<TypeId>, e: Entity)
    requires IndexTimed(w, tick) && Shaped(w) && 0 <= tick
    ensures !Dirty(w, watched, tick, e)
  {
    hide CellsOf, Shaped, IndexTimed;
    if e in w.loc { CellTimed(w, e, tick); }
  }

  /** After a take the view trusts the log from its end on, and nothing is left to report. */
  lemma AdvancedTrusts(w: World, v: Viewer, ids: seq<TypeId>)
    requires Trusted(w, v) && v.watched == Elements(ids)
    ensures Trusted(Prepared(w, v, ids), Advanced(w, v))
    ensures Quiet(Prepared(w, v, ids), Advanced(w, v))
    ensures Scan(Prepared(w, v, ids).ix, v.watched, Advanced(w, v).baseline) == {}
  {
    hide CellsOf, TrackKeys, Dirty, Shaped, LogBacked, IndexTimed, AllTracked, Quiet, Noted, Recalled;
    var p := Prepared(w, v, ids);
    PreparedTracked(w, v, ids);
    assert Quiet(p, Advanced(w, v)) by { QuietAdvanced(w, v, p); }
    assert Recalled(p.ix, Advanced(w, v)) by { MatchingRecalled(p.ix, Advanced(w, v)); }
    forall e ensures !Dirty(p.ix, v.watched, w.clock.tick, e) { NothingAhead(p.ix, w.clock.tick, v.watched, e); }
  }

  lemma {:induction false} MatchingDistinct(order: seq<Key>, watched: set<TypeId>)
    requires NoDup(order)
    ensures NoDup(Matching(order, watched))
  {
    if order != [] {
      var front, k := order[..|order| - 1], order[|order| - 1];
      MatchingDistinct(front, watched);
      MatchingMembers(front, watched);
      assert k !in front;
    }
  }

  lemma MatchingRecalled(w: Index, v: Viewer)
    requires Shaped(w) && AllTracked(w, v.watched) && v.last == Matching(w.order, v.watched)
    ensures Recalled(w, v)
  {
    hide ArchOk, Placed;
    MatchingMembers(w.order, v.watched);
    MatchingDistinct(w.order, v.watched);
    assert forall k :: k in w.order ==> k in Elements(w.order);
  }

  lemma QuietAdvanced(w: World, v: Viewer, p: World)
    requires p.ix.order == w.ix.order && p.clock == w.clock
    ensures Quiet(p, Advanced(w, v))
  {
  }

  /** A marked component is reported by the next take of every view that watches it. */
  lemma MarkedIsReported(w: World, v: Viewer, ids: seq<TypeId>, e: Entity, t: TypeId)
    requires Trusted(w, v) && v.watched == Elements(ids) && Has(w.ix, e, t)
    requires t in v.watched && v.watched <= w.ix.loc[e].key && w.clock.tick < U64_MAX
    ensures e in Found(MarkChanged(w, e, t), v, ids)
  {
    hide CellsOf, Dirty, Noted, TrackKeys, Watching, Shaped, Timed, AllTracked, Quiet, Stamp;
    var m := MarkChanged(w, e, t);
    ClockOf(w, v);
    MarkClock(w, e, t);
    MarkTrust(w, v, e, t);
    ClockOf(m, v);
    PreparedTracked(m, v, ids);
    StampKeeps(w.ix, e, t, w.clock.tick, m.clock.tick);
    StartReads(m, v, e);
    var n := |m.clock.log| - 1;
    assert NotedAt(m.clock.log, n, v.watched, v.baseline, e);
    NotedThere(m.clock.log, n, v.watched, v.baseline, e);
  }

  lemma NotedThere(log: seq<LogEntry>, i: nat, watched: set<TypeId>, baseline: Tick, e: Entity)
    requires NotedAt(log, i, watched, baseline, e)
    ensures Noted(log, 0, watched, baseline, e)
  {
  }

  lemma StampKeeps(w: Index, e: Entity, t: TypeId, now: Tick, tick: Tick)
    ensures Stamp(w, e, t, now, tick).loc == w.loc && Stamp(w, e, t, now, tick).reg == w.reg
  {
  }

  /** A new view has nothing to report yet: what is there counts as seen. */
  lemma NewViewReportsNothing(w: World, ids: seq<TypeId>)
    requires Shaped(w.ix) && Timed(w)
    ensures Found(w, NewView(w, Elements(ids)), ids) == {}
  {
    hide Found;
    NewViewTrusts(w, Elements(ids));
    AdvancedTrusts(w, NewView(w, Elements(ids)), ids);
    TakeIsSound(w, NewView(w, Elements(ids)), ids);
  }

  lemma NewViewTrusts(w: World, watched: set<TypeId>)
    requires Shaped(w.ix) && Timed(w)
    ensures Trusted(w, NewView(w, watched))
  {
    hide Shaped, LogBacked, IndexTimed;
  }
}
