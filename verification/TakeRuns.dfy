/** A change view over whole histories: any operations, any number of takes. */
module TakeRuns {
  import opened Base
  import opened Schema
  import opened Storage
  import opened StorageLaws
  import opened Operations
  import opened Runs
  import opened Changes
  import opened ChangeLaws
  import opened ChangeRuns
  import opened Takes

  // ------------------------------------------------------------------ the clock over runs

  lemma CompactTimed(w: World)
    requires Timed(w) && WorldOk(w)
    ensures Timed(Compact(w))
  {
    hide SlotsOk, KeptOrder, ArchOk, RowOk, Sized;
    var v := Compact(w);
    forall e ensures CellsOf(v.ix, e) == CellsOf(w.ix, e) { if e in w.ix.loc { CompactCells(w, e); } }
    forall i | 0 <= i < |v.clock.log| ensures Backed(CellsOf(v.ix, v.clock.log[i].entity), v.clock.log[i]) {
      assert Backed(CellsOf(w.ix, v.clock.log[i].entity), v.clock.log[i]);
    }
  }

  lemma CompactCells(w: World, e: Entity)
    requires WorldOk(w) && e in w.ix.loc
    ensures CellsOf(Compact(w).ix, e) == CellsOf(w.ix, e)
  {
    hide SlotsOk, KeptOrder, ArchOk, RowOk, Sized;
    assert Placed(w.ix, e);
  }

  lemma EmptyTimed(reg: Registry)
    ensures Timed(EmptyWorld(reg))
  {
  }

  /** In every reachable state the log is sorted, within the soft cap and backed by the rows, and every column
      maximum is 0 or bounds its rows. */
  lemma {:induction false} ReachableTimed(reg: Registry, ops: seq<Op>)
    requires AllAllowed(EmptyWorld(reg), ops)
    ensures Timed(Run(EmptyWorld(reg), ops))
    decreases ops
  {
    hide WorldOk, Apply, Allowed, EmptyWorld, Timed;
    if ops == [] {
      EmptyTimed(reg);
    } else {
      ReachableTimed(reg, ops[..|ops| - 1]);
      ReachableOk(reg, ops[..|ops| - 1]);
      ApplyTimed(Run(EmptyWorld(reg), ops[..|ops| - 1]), ops[|ops| - 1]);
    }
  }

  lemma ApplyTimed(w: World, op: Op)
    requires WorldOk(w) && Timed(w) && Allowed(w, op)
    ensures Timed(Apply(w, op))
  {
    hide WorldOk, Allowed, Timed, Watching, Shaped, Compact;
    CoherentOf(w);
    if op.OpCompact? {
      CompactTimed(w);
    } else {
      hide Apply;
      NewViewTrusts(w, {});
      ApplyTrust(w, NewView(w, {}), op);
    }
  }

  // ------------------------------------------------------------------ compaction between takes

  /** The view after archetypes were freed: what it remembers of them matches nothing any more. */
  ghost function Outlived(w: World, v: Viewer): Viewer {
    Forget(v, Compact(w).ix.archs.Keys)
  }

  /** What the view remembers is just what would be kept: after the compaction it would see no reason to scan. */
  ghost predicate LooksSame(w: World, v: Viewer) {
    v.warmed && v.logGen == w.clock.logGen && v.last == Matching(KeptOrder(w.ix, w.ix.order), v.watched)
  }

  lemma LooksSameIff(w: World, v: Viewer)
    requires WorldOk(w)
    ensures Quiet(Compact(w), Outlived(w, v)) <==> LooksSame(w, v)
  {
    hide Sized, SlotsOk, Matching, Kept;
    var kept := Compact(w).ix.order;
    CompactOk(w);
    ShapedOf(Compact(w));
    NeverGone(Compact(w).ix);
    MatchingMembers(kept, v.watched);
    assert Elements(kept) == Compact(w).ix.archs.Keys;
    var last := Outlived(w, v).last;
    if v.last == Matching(kept, v.watched) {
      forall i | 0 <= i < |v.last| ensures last[i] == v.last[i] {
        assert v.last[i] in v.last;
        assert v.last[i] in Elements(kept);
      }
    }
    if last == Matching(kept, v.watched) {
      forall i | 0 <= i < |last| ensures last[i] == v.last[i] { assert last[i] in last; }
    }
  }

  /** A compaction is safe for a view unless it hides the archetypes that started to match since the last take while a
      change is not in the part of the log the view has not read. */
  ghost predicate SafeToCompact(w: World, v: Viewer) {
    LooksSame(w, v) ==>
      (forall k :: k in v.last && k in v.aliases ==> Tracks(w.ix, k, v.watched)) && forall e :: Caught(w, v, e)
  }

  lemma CompactRecalled(w: World, v: Viewer)
    requires Trusted(w, v) && WorldOk(w)
    ensures Recalled(Compact(w).ix, Outlived(w, v))
  {
    hide SlotsOk, Sized, ArchOk, Placed, RowOk, CellsOf, Timed;
    var b, u := Compact(w), Outlived(w, v);
    CompactOk(w);
    forall k | k in u.last && k != GONE
      ensures k in b.ix.archs && v.watched <= k && (k !in u.aliases ==> Tracks(b.ix, k, v.watched))
    {
      var i :| 0 <= i < |u.last| && u.last[i] == k;
      assert v.last[i] in v.last;
    }
    forall i, j | 0 <= i < j < |u.last| && u.last[i] == u.last[j] ensures u.last[i] == GONE {}
  }

  /** After a compaction the view may go on trusting the log if and only if the compaction was safe for it. */
  lemma CompactTrustIff(w: World, v: Viewer)
    requires Trusted(w, v) && WorldOk(w)
    ensures Trusted(Compact(w), Outlived(w, v)) <==> SafeToCompact(w, v)
  {
    hide SlotsOk, Sized, Shaped, CellsOf, Noted, Timed, Recalled, Compact, Matching, KeptOrder, WorldOk, Quiet;
    var b, u := Compact(w), Outlived(w, v);
    CompactOk(w);
    CompactTimed(w);
    ShapedOf(b);
    CompactRecalled(w, v);
    LooksSameIff(w, v);
    SameClock(w);
    forall e ensures Caught(b, u, e) <==> Caught(w, v, e) { CompactCaught(w, v, e); }
    if LooksSame(w, v) {
      TrackedIff(w, v);
      QuietReads(b, u);
    }
  }

  lemma SameClock(w: World)
    ensures Compact(w).clock == w.clock
  {
  }

  lemma QuietReads(w: World, v: Viewer)
    requires ReadUpTo(w, v) && Quiet(w, v)
    ensures v.logPos <= |w.clock.log|
  {
  }

  lemma CompactCaught(w: World, v: Viewer, e: Entity)
    requires WorldOk(w)
    ensures Caught(Compact(w), Outlived(w, v), e) <==> Caught(w, v, e)
  {
    hide WorldOk, CellsOf, KeptOrder;
    if e in w.ix.loc { CompactCells(w, e); }
  }

  /** Where what is remembered is what is kept, the kept archetypes track exactly if the misnamed ones do. */
  lemma TrackedIff(w: World, v: Viewer)
    requires Trusted(w, v) && WorldOk(w) && LooksSame(w, v)
    ensures AllTracked(Compact(w).ix, v.watched)
      <==> forall k :: k in v.last && k in v.aliases ==> Tracks(w.ix, k, v.watched)
  {
    hide SlotsOk, Sized, ArchOk, Placed, RowOk, CellsOf, Timed, Matching, Kept;
    var b := Compact(w).ix;
    CompactOk(w);
    ShapedOf(Compact(w));
    MatchingMembers(b.order, v.watched);
    NeverGone(b);
    forall k | k in b.archs && v.watched <= k ensures k in v.last { assert k in Elements(b.order); }
    forall k | k in v.last ensures k in b.archs && b.archs[k] == w.ix.archs[k] { assert k in Elements(b.order); }
  }

  /** When the compaction leaves the view no reason to scan, its next take equals the version scan if and only if every
      entity with a change is named in the unread part of the log. */
  lemma TakeAfterCompactIff(w: World, v: Viewer, ids: seq<TypeId>)
    requires Trusted(w, v) && WorldOk(w) && v.watched == Elements(ids) && LooksSame(w, v) && v.aliases == {}
    ensures var b, u := Compact(w), Outlived(w, v);
      Found(b, u, ids) == Scan(Prepared(b, u, ids).ix, v.watched, v.baseline) <==> forall e :: Caught(w, v, e)
  {
    hide SlotsOk, Sized, Shaped, CellsOf, Noted, Timed, Recalled, Compact, Matching, KeptOrder, WorldOk, Quiet, Dirty,
      LogBacked;
    var b, u := Compact(w), Outlived(w, v);
    CompactOk(w);
    CompactTimed(w);
    ShapedOf(b);
    LooksSameIff(w, v);
    SameClock(w);
    TrackedIff(w, v);
    StartsAt(b, u);
    var found, scan := Found(b, u, ids), Scan(b.ix, u.watched, u.baseline);
    forall e
      ensures e in found <==>
        (e in b.ix.loc && u.watched <= b.ix.loc[e].key && Noted(b.clock.log, u.logPos, u.watched, u.baseline, e))
    {
    }
    forall e ensures e in Found(b, u, ids) ==> Dirty(b.ix, u.watched, u.baseline, e) {
      if e in Found(b, u, ids) { assert Timed(b); TimedParts(b); NotedIsDirty(b, u.watched, u.baseline, u.logPos, e); }
    }
    forall e ensures Caught(b, u, e) <==> Caught(w, v, e) { CompactCaught(w, v, e); }
    forall e ensures Dirty(b.ix, u.watched, u.baseline, e) ==> e in b.ix.loc && u.watched <= b.ix.loc[e].key {
      if Dirty(b.ix, u.watched, u.baseline, e) { DirtyMatches(b.ix, u.watched, u.baseline, e); }
    }
    assert forall e :: e in scan <==> e in b.ix.loc && Dirty(b.ix, u.watched, u.baseline, e);
    if found == scan {
      forall e ensures Caught(b, u, e) { assert e in scan ==> e in found; }
    }
    if forall e :: Caught(b, u, e) {
      forall e ensures e in found <==> e in scan { assert Caught(b, u, e); }
    }
  }

  lemma StartsAt(w: World, v: Viewer)
    requires Quiet(w, v)
    ensures Start(w, v) == v.logPos && (forall ids :: Prepared(w, v, ids) == w)
  {
  }

  lemma TimedParts(w: World)
    requires Timed(w)
    ensures LogBacked(w)
  {
  }

  // ------------------------------------------------------------------ an address used again

  /** An archetype the view does not remember has the address of one that it remembers and that was freed. */
  ghost predicate TakesPlace(w: World, v: Viewer, i: nat, k: Key) {
    i < |v.last| && v.last[i] == GONE && k in w.ix.archs && v.watched <= k && k !in v.last
  }

  /** Mistaking one archetype for another is harmless unless it leaves the view no reason to scan while a watched column
      does not track or a change is not in the part of the log the view has not read. */
  ghost predicate SafeToMistake(w: World, v: Viewer, i: nat, k: Key)
    requires i < |v.last|
  {
    Quiet(w, Alias(v, i, k)) ==> AllTracked(w.ix, v.watched) && forall e :: Caught(w, v, e)
  }

  /** After an address is used again the view may go on trusting the log if and only if that was safe for it. */
  lemma ReuseTrustIff(w: World, v: Viewer, i: nat, k: Key)
    requires Trusted(w, v) && TakesPlace(w, v, i, k)
    ensures Trusted(w, Alias(v, i, k)) <==> SafeToMistake(w, v, i, k)
  {
    hide Shaped, CellsOf, Noted, Timed, Dirty, Recalled, AllTracked;
    var u := Alias(v, i, k);
    ReuseRecalled(w.ix, v, i, k);
    forall e ensures Caught(w, u, e) <==> Caught(w, v, e) {}
    if Quiet(w, u) { QuietReads(w, u); }
  }

  lemma ReuseRecalled(w: Index, v: Viewer, i: nat, k: Key)
    requires Recalled(w, v) && Shaped(w) && i < |v.last| && v.last[i] == GONE && k in w.archs && v.watched <= k
      && k !in v.last
    ensures Recalled(w, Alias(v, i, k))
  {
    hide ArchOk, Placed;
    var u := Alias(v, i, k);
    forall x | x in u.last && x != GONE && x != k ensures x in v.last {}
  }

  // ------------------------------------------------------------------ a view among the operations

  datatype Act = Do(op: Op) | Take | Reuse(i: nat, k: Key)

  datatype Scene = Scene(w: World, v: Viewer)

  ghost function Perform(s: Scene, ids: seq<TypeId>, a: Act): Scene {
    match a
    case Do(op) => Scene(Apply(s.w, op), if op.OpCompact? then Outlived(s.w, s.v) else s.v)
    case Take => Scene(Prepared(s.w, s.v, ids), Advanced(s.w, s.v))
    case Reuse(i, k) => if i < |s.v.last| then Scene(s.w, Alias(s.v, i, k)) else s
  }

  ghost function Play(s: Scene, ids: seq<TypeId>, acts: seq<Act>): Scene
    decreases acts
  {
    if acts == [] then s else Perform(Play(s, ids, acts[..|acts| - 1]), ids, acts[|acts| - 1])
  }

  /** Any operations, snapshot loads and packets included, with compaction and addresses used again wherever that is
      safe for the view. */
  ghost predicate Playable(s: Scene, ids: seq<TypeId>, acts: seq<Act>)
    decreases acts
  {
    acts == [] || (
      var front, a := acts[..|acts| - 1], acts[|acts| - 1];
      Playable(s, ids, front) && CanPerform(Play(s, ids, front), a))
  }

  ghost predicate CanPerform(s: Scene, a: Act) {
    match a
    case Do(op) => Allowed(s.w, op) && (op.OpCompact? ==> SafeToCompact(s.w, s.v))
    case Take => true
    case Reuse(i, k) => TakesPlace(s.w, s.v, i, k) && SafeToMistake(s.w, s.v, i, k)
  }

  ghost predicate Staged(s: Scene, ids: seq<TypeId>) {
    WorldOk(s.w) && Trusted(s.w, s.v) && s.v.watched == Elements(ids)
  }

  lemma {:induction false} TrackKeyOk(w: World, k: Key, ids: seq<TypeId>)
    requires WorldOk(w)
    ensures var v := w.(ix := TrackKey(w.ix, k, ids, w.clock.tick)); WorldOk(v) && Contents(v.ix) == Contents(w.ix)
  {
    hide WorldOk, Track, Contents;
    if ids != [] {
      TrackKeyOk(w, k, ids[..|ids| - 1]);
      TrackWorldOk(w.(ix := TrackKey(w.ix, k, ids[..|ids| - 1], w.clock.tick)), k, ids[|ids| - 1]);
    }
  }

  lemma {:induction false} TrackKeysOk(w: World, ks: seq<Key>, ids: seq<TypeId>)
    requires WorldOk(w)
    ensures var v := w.(ix := TrackKeys(w.ix, ks, ids, w.clock.tick)); WorldOk(v) && Contents(v.ix) == Contents(w.ix)
  {
    hide WorldOk, TrackKey, Contents;
    if ks != [] {
      TrackKeysOk(w, ks[..|ks| - 1], ids);
      TrackKeyOk(w.(ix := TrackKeys(w.ix, ks[..|ks| - 1], ids, w.clock.tick)), ks[|ks| - 1], ids);
    }
  }

  lemma PerformStaged(s: Scene, ids: seq<TypeId>, a: Act)
    requires Staged(s, ids) && CanPerform(s, a)
    ensures Staged(Perform(s, ids, a), ids)
  {
    hide WorldOk, Trusted, Apply, Allowed, TrackKeys, Quiet, Elements, Matching, Compact, Refines, SafeToCompact,
      SafeToMistake;
    match a
    case Do(op) =>
      StepRefines(s.w, op);
      if op.OpCompact? {
        CompactTrustIff(s.w, s.v);
        assert Apply(s.w, op) == Compact(s.w) by { Compacted(s.w); }
      } else {
        ApplyTrust(s.w, s.v, op);
      }
    case Take =>
      AdvancedTrusts(s.w, s.v, ids);
      TrackKeysOk(s.w, Matching(s.w.ix.order, s.v.watched), ids);
    case Reuse(i, k) => ReuseTrustIff(s.w, s.v, i, k);
  }

  lemma Compacted(w: World)
    ensures Apply(w, OpCompact) == Compact(w)
  {
  }

  lemma {:induction false} PlayStaged(s: Scene, ids: seq<TypeId>, acts: seq<Act>)
    requires Staged(s, ids) && Playable(s, ids, acts)
    ensures Staged(Play(s, ids, acts), ids)
    decreases acts
  {
    hide Staged, Perform, CanPerform;
    if acts != [] {
      PlayStaged(s, ids, acts[..|acts| - 1]);
      PerformStaged(Play(s, ids, acts[..|acts| - 1]), ids, acts[|acts| - 1]);
    }
  }

  /** Create a view in any reachable world, then let operations and takes follow in any order: every take
      reports only what a plain version scan would; it reports all of it whenever nothing forces a scan, and
      whenever no removal has reset a watched maximum. */
  lemma EveryTake(reg: Registry, ops: seq<Op>, ids: seq<TypeId>, acts: seq<Act>)
    requires AllAllowed(EmptyWorld(reg), ops)
    requires Playable(Scene(Run(EmptyWorld(reg), ops), NewView(Run(EmptyWorld(reg), ops), Elements(ids))), ids, acts)
    ensures var w0 := Run(EmptyWorld(reg), ops);
      var s := Play(Scene(w0, NewView(w0, Elements(ids))), ids, acts);
      var scan := Scan(Prepared(s.w, s.v, ids).ix, s.v.watched, s.v.baseline);
      Found(s.w, s.v, ids) <= scan
      && (Quiet(s.w, s.v) || MaximaIntact(Prepared(s.w, s.v, ids).ix, s.v.watched) ==> Found(s.w, s.v, ids) == scan)
  {
    hide WorldOk, Trusted, EmptyWorld, TrackKeys, Timed, MaximaIntact, Quiet, Scan, Found, Playable, Play;
    var w0 := Run(EmptyWorld(reg), ops);
    ReachableOk(reg, ops);
    ReachableTimed(reg, ops);
    CoherentOf(w0);
    NewViewTrusts(w0, Elements(ids));
    var s0 := Scene(w0, NewView(w0, Elements(ids)));
    PlayStaged(s0, ids, acts);
    var s := Play(s0, ids, acts);
    TakeIsSound(s.w, s.v, ids);
    if MaximaIntact(Prepared(s.w, s.v, ids).ix, s.v.watched) { TakeLosesNothing(s.w, s.v, ids); }
    if Quiet(s.w, s.v) { QuietTakeIsScan(s.w, s.v, ids); PreparedQuiet(s.w, s.v, ids); }
  }

  lemma PreparedQuiet(w: World, v: Viewer, ids: seq<TypeId>)
    requires Quiet(w, v)
    ensures Prepared(w, v, ids) == w
  {
  }
}
