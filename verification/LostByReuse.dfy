/** An archetype can be mistaken for a freed one that had its address: a view then sees no reason to scan, and what
    happened to the new archetype is not reported. */
module LostByReuse {
  import opened Base
  import opened Schema
  import opened Storage
  import opened StorageLaws
  import opened Operations
  import opened CommandLaws
  import opened Runs
  import opened Changes
  import opened ChangeLaws
  import opened ChangeRuns
  import opened Takes
  import opened TakeRuns
  import opened LostChange
  import opened LostByCompaction

  /** Entity e is the only one with component t, and has nothing else. */
  ghost predicate OnlyHolder(w: Index, e: Entity, t: TypeId) {
    && e in w.loc && w.loc[e].key == {t}
    && (forall x :: x in w.loc && x != e ==> t !in w.loc[x].key)
    && forall k :: k in w.archs && t in k ==> k == {t}
  }

  /** Take the component away, compact, and give it back. */
  ghost function Emptied(w: World, e: Entity, t: TypeId): World {
    RemoveComponent(w, e, t)
  }

  ghost function Refilled(w: World, e: Entity, t: TypeId, data: Bytes): World {
    AddRaw(Compact(Emptied(w, e, t)), e, t, Some(data))
  }

  /** Going back to an archetype that exists changes neither list nor clock. */
  lemma EnterKnown(w: World, e: Entity, to: Key)
    requires Shaped(w.ix) && e in w.ix.loc && to in w.ix.archs && to != w.ix.loc[e].key
    ensures var v := ChangeKey(w, e, to);
      v.clock == w.clock && v.ix.order == w.ix.order && v.ix.archs.Keys == w.ix.archs.Keys
  {
    hide Shaped, Detach, Attach, CellsOf;
    DetachShaped(w.ix, e);
    DetachOrder(w.ix, e);
    HomeKnown(w.ix, e);
    AttachLists(Detach(w.ix, e), e, to, CellsOf(w.ix, e), w.clock.tick);
  }

  lemma EmptiedWorld(w: World, e: Entity, t: TypeId)
    requires WorldOk(w) && w.depth <= 0 && e != NO_ENTITY && OnlyHolder(w.ix, e, t)
    ensures var a := Emptied(w, e, t);
      && WorldOk(a) && a.clock == w.clock && a.ix.order == w.ix.order && a.ix.archs.Keys == w.ix.archs.Keys
      && a.ix.reg == w.ix.reg && a.depth == w.depth && a.ix.loc.Keys == w.ix.loc.Keys && e in a.ix.loc
      && a.ix.loc[e].key == {}
      && forall x :: x in a.ix.loc ==> t !in a.ix.loc[x].key
  {
    hide WorldOk, Shaped, Contents, ChangeKey, CellsOf;
    ShapedOf(w);
    RemoveComponentOk(w, e, t);
    RemoveComponentKeeps(w, e, t);
    assert {t} - {t} == {};
    assert {} in w.ix.archs by { assert Shaped(w.ix); EmptyThere(w.ix); }
    EnterKnown(w, e, {});
    ChangeKeyCells(w, e, {});
    Moved(w, e, t);
  }

  lemma EmptyThere(w: Index)
    requires Shaped(w)
    ensures {} in w.archs
  {
  }

  lemma Moved(w: World, e: Entity, t: TypeId)
    requires Has(w.ix, e, t) && w.depth <= 0 && w.ix.loc[e].key - {t} == {}
    ensures var a := Emptied(w, e, t); a.ix == ChangeKey(w, e, {}).ix && a.clock == ChangeKey(w, e, {}).clock
  {
    hide ChangeKey;
  }

  /** After the compaction no archetype with the component is left. */
  lemma NoneLeft(a: World, t: TypeId)
    requires WorldOk(a) && forall x :: x in a.ix.loc ==> t !in a.ix.loc[x].key
    ensures var b := Compact(a);
      && WorldOk(b) && b.clock == a.clock && b.ix.loc == a.ix.loc && b.ix.reg == a.ix.reg && b.depth == a.depth
      && (forall k :: k in b.ix.archs ==> t !in k) && Matching(b.ix.order, {t}) == []
  {
    hide Sized, SlotsOk, Kept, KeptOrder, Matching;
    var b := Compact(a);
    CompactOk(a);
    ShapedOf(a);
    ShapedOf(b);
    forall k | k in b.ix.archs ensures t !in k {
      if t in k { KeptIfHome(a.ix, k); }
    }
    MatchingMembers(b.ix.order, {t});
    OrderKeys(b.ix);
    var now := Matching(b.ix.order, {t});
    forall k ensures k !in now {
      assert k in b.ix.order ==> k in Elements(b.ix.order);
      assert t !in k ==> !({t} <= k);
    }
    FirstIsMember(now);
  }

  lemma FirstIsMember(ks: seq<Key>)
    ensures ks != [] ==> ks[0] in ks
  {
  }

  /** Given back, the component lies in a fresh archetype at the end of the list, untracked, and the log has not
      heard of it. */
  lemma RefilledWorld(b: World, e: Entity, t: TypeId, data: Bytes)
    requires WorldOk(b) && Timed(b) && b.depth <= 0 && e != NO_ENTITY && e in b.ix.loc && b.ix.loc[e].key == {}
    requires {t} !in b.ix.archs && Registered(b.ix.reg, t) && |data| == SizeOf(b.ix.reg, t) && b.clock.tick < U64_MAX
    ensures var c := AddRaw(b, e, t, Some(data));
      && WorldOk(c) && c.ix.order == b.ix.order + [{t}] && Untracked(c.ix, {t}) && e in c.ix.loc
      && c.ix.loc[e].key == {t} && c.clock == b.clock.(tick := b.clock.tick + 1) && c.ix.reg == b.ix.reg
  {
    hide WorldOk, Shaped, Timed, Contents, ChangeKey, WriteCell, CellsOf, Untracked;
    ShapedOf(b);
    AddRawOk(b, e, t, Some(data));
    AddRawKeeps(b, e, t, Some(data));
    assert {} + {t} == {t} && data[..SizeOf(b.ix.reg, t)] == data;
    var m := ChangeKey(b, e, {t});
    EnterFresh(b, e, {t});
    ChangeKeyCells(b, e, {t});
    WriteUntracked(m, e, t, data);
    WriteCellCells(m, e, t, data);
    Given(b, e, t, data);
  }

  lemma Given(b: World, e: Entity, t: TypeId, data: Bytes)
    requires Alive(b.ix, e) && b.ix.loc[e].key == {} && b.depth <= 0 && Registered(b.ix.reg, t)
      && |data| == SizeOf(b.ix.reg, t)
    ensures var c, d := AddRaw(b, e, t, Some(data)), WriteCell(ChangeKey(b, e, {t}), e, t, data);
      c.ix == d.ix && c.clock == d.clock
  {
    hide ChangeKey, WriteCell;
    assert {} + {t} == {t} && data[..SizeOf(b.ix.reg, t)] == data;
  }

  /** A view that just took a world in which e is the only holder of the watched component: had the new archetype any
      other address, the next take would report e; at the address of the freed one, it reports nobody. */
  lemma ReuseHides(w: World, v: Viewer, e: Entity, t: TypeId, data: Bytes)
    requires WorldOk(w) && Trusted(w, v) && w.depth <= 0 && e != NO_ENTITY && OnlyHolder(w.ix, e, t)
    requires Registered(w.ix.reg, t) && |data| == SizeOf(w.ix.reg, t) && w.clock.tick < U64_MAX
    requires v.watched == {t} && v.last == [{t}] && v.warmed && v.logGen == w.clock.logGen
      && v.logPos == |w.clock.log| && v.aliases == {}
    ensures var a := Emptied(w, e, t); var c, u := Refilled(w, e, t, data), Outlived(a, v);
      && SafeToCompact(a, v) && TakesPlace(c, u, 0, {t}) && !SafeToMistake(c, u, 0, {t})
      && e in Found(c, u, [t]) && Found(c, Alias(u, 0, {t}), [t]) == {}
      && WorldOk(c) && e in c.ix.loc && c.ix.loc[e].key == {t} && u.last == [GONE] && u.aliases == {}
  {
    hide WorldOk, Timed, Trusted, CellsOf, Shaped, Compact, TrackKeys, Matching, AddRaw, RemoveComponent, Untracked,
      OnlyHolder, Found, AllTracked, KeptOrder, Registered;
    var a := Emptied(w, e, t);
    var b, c := Compact(a), Refilled(w, e, t, data);
    EmptiedWorld(w, e, t) by { assert OnlyHolder(w.ix, e, t); }
    RemoveTrust(w, v, e, t);
    ClockOf(w, v);
    NoneLeft(a, t);
    GoneAfter(a, v, t);
    CompactTrustIff(a, v);
    var u := Outlived(a, v);
    TrustedTimed(b, u);
    RefilledWorld(b, e, t, data);
    AddTrust(b, u, e, t, Some(data));
    Mistaken(b, c, u, e, t);
    Reported(c, u, e, t);
  }

  lemma GoneAfter(a: World, v: Viewer, t: TypeId)
    requires WorldOk(a) && v.last == [{t}] && v.watched == {t}
    requires Matching(Compact(a).ix.order, {t}) == [] && forall k :: k in Compact(a).ix.archs ==> t !in k
    ensures Outlived(a, v).last == [GONE] && SafeToCompact(a, v) && (v.aliases == {} ==> Outlived(a, v).aliases == {})
  {
    hide WorldOk, KeptOrder, Kept, Matching;
    var archs := Compact(a).ix.archs.Keys;
    assert t in {t} && {t} !in archs;
    assert Compact(a).ix.order == KeptOrder(a.ix, a.ix.order);
  }

  /** At the address of the freed archetype the view has no reason to scan, and nothing to read. */
  lemma Mistaken(b: World, c: World, u: Viewer, e: Entity, t: TypeId)
    requires Trusted(c, u) && u.last == [GONE] && u.watched == {t} && u.warmed && Registered(c.ix.reg, t)
    requires c.ix.order == b.ix.order + [{t}] && Matching(b.ix.order, {t}) == [] && Untracked(c.ix, {t})
    requires u.logGen == c.clock.logGen && u.logPos == |c.clock.log|
    ensures TakesPlace(c, u, 0, {t}) && !SafeToMistake(c, u, 0, {t}) && Found(c, Alias(u, 0, {t}), [t]) == {}
    ensures !Quiet(c, u)
  {
    hide Trusted, CellsOf;
    var x := Alias(u, 0, {t});
    assert t in {t} && 0 in GONE && {t} != GONE;
    assert x.last == [{t}];
    assert c.ix.order[..|c.ix.order| - 1] == b.ix.order;
    assert Matching(c.ix.order, {t}) == [] + [{t}];
    assert Quiet(c, x);
    assert {t} in c.ix.archs && t in c.ix.archs[{t}].cols && !c.ix.archs[{t}].cols[t].tracking;
    assert Elements([t]) == {t};
    assert FromLog(c, u.logPos, {t}, u.baseline) == {};
  }

  /** At any other address it scans, and finds e. */
  lemma Reported(c: World, u: Viewer, e: Entity, t: TypeId)
    requires Trusted(c, u) && u.watched == {t} && !Quiet(c, u) && e in c.ix.loc && c.ix.loc[e].key == {t}
      && Untracked(c.ix, {t}) && c.clock.tick > u.baseline
    ensures e in Found(c, u, [t])
  {
    hide Trusted, CellsOf, Quiet, Found, Prepared, TrackKeys;
    assert Elements([t]) == {t} && t in {t};
    TrustedShaped(c, u);
    CellThere(c.ix, e, t);
    assert LastWrite(CellsOf(c.ix, e)[t], c.clock.tick) > u.baseline;
    MayHaveChangedIff(c, u, [t], e);
    WillScanIff(c, u, [t], {t});
    PreparedTracked(c, u, [t]);
    ReportedIff(c, u, [t], e);
  }

  lemma TrustedShaped(w: World, v: Viewer)
    requires Trusted(w, v)
    ensures Shaped(w.ix)
  {
  }

  // ------------------------------------------------------------------ a run that gets there

  function Steps(data: Bytes): seq<Act> {
    [Take, Do(OpRemove(3, 2)), Do(OpCompact), Do(OpAdd(3, 2, Some(data))), Reuse(0, {2})]
  }

  lemma StepsPlay(s: Scene, data: Bytes)
    requires var p := Perform(s, [2], Take); |Outlived(Emptied(p.w, 3, 2), p.v).last| > 0
    ensures var p := Perform(s, [2], Take);
      Play(s, [2], Steps(data)) ==
        Scene(Refilled(p.w, 3, 2, data), Alias(Outlived(Emptied(p.w, 3, 2), p.v), 0, {2}))
  {
    hide Compact, AddRaw, RemoveComponent, Prepared, Advanced, Outlived, Play;
    var acts := Steps(data);
    assert acts[..0] == [] && acts[..5] == acts;
    NothingPlayed(s);
    NextAct(s, [2], acts, 0);
    NextAct(s, [2], acts, 1);
    NextAct(s, [2], acts, 2);
    NextAct(s, [2], acts, 3);
    NextAct(s, [2], acts, 4);
  }

  lemma NothingPlayed(s: Scene)
    ensures Play(s, [2], []) == s
  {
  }

  /** The world of `LostChange.Setup` after a first take of type 2: entity 3 is its only holder. */
  lemma HolderTaken(w: World)
    requires Ready(w, 3, 4)
      && Contents(w.ix) == map[1 := map[1 := Zeros(4)], 2 := map[1 := Zeros(4)], 3 := map[2 := Zeros(4)]]
    ensures var p := Perform(Scene(w, NewView(w, {2})), [2], Take);
      && WorldOk(p.w) && Trusted(p.w, p.v) && p.w.depth == 0 && p.w.ix.reg == TWO_TYPES && p.w.clock.tick <= 4
      && OnlyHolder(p.w.ix, 3, 2) && p.v.watched == {2} && p.v.last == [{2}] && p.v.warmed
      && p.v.logGen == p.w.clock.logGen && p.v.logPos == |p.w.clock.log| && p.v.aliases == {}
  {
    hide WorldOk, Timed, Contents, Trusted, TrackKeys, Quiet, Shaped, Matching, AllTracked;
    var v := NewView(w, {2});
    KeyIsStored(w, 1);
    KeyIsStored(w, 2);
    KeyIsStored(w, 3);
    assert Contents(w.ix)[1].Keys == {1} && Contents(w.ix)[2].Keys == {1} && Contents(w.ix)[3].Keys == {2};
    CoherentOf(w);
    ContentsKeys(w.ix);
    NewViewTrusts(w, {2});
    assert Elements([2]) == {2};
    assert !Quiet(w, v) by { NotWarm(w, {2}); }
    AdvancedTrusts(w, v, [2]);
    PreparedTracked(w, v, [2]);
    TrackKeysOk(w, Matching(w.ix.order, v.watched), [2]);
    TrackKeysTrust(w, v, Matching(w.ix.order, v.watched), [2]);
    TrackKeysReg(w.ix, Matching(w.ix.order, v.watched), [2], w.clock.tick);
    assert 2 in {2} && 2 !in {1};
    OnlyMatch(w.ix);
    StoredIds(w);
  }

  lemma StoredIds(w: World)
    requires WorldOk(w)
    ensures forall x :: x in w.ix.loc ==> x in Contents(w.ix)
  {
    hide Shaped, CellsOf, SlotsOk;
    CoherentOf(w);
    ContentsKeys(w.ix);
  }

  lemma OnlyMatch(w: Index)
    requires Shaped(w) && w.archs.Keys <= {{}, {1}, {2}} && exists e :: e in w.loc && w.loc[e].key == {2}
    ensures Matching(w.order, {2}) == [{2}]
  {
    hide ArchOk, RowOk;
    var e :| e in w.loc && w.loc[e].key == {2};
    HomeKnown(w, e);
    OrderKeys(w);
    MatchingMembers(w.order, {2});
    MatchingDistinct(w.order, {2});
    var now := Matching(w.order, {2});
    assert 2 in {2} && 2 !in {1};
    assert {2} in Elements(w.order);
    assert {2} in now;
    forall k | k in now ensures k == {2} { assert k in Elements(w.order); }
    AllTheSame(now, {2});
  }

  lemma AllTheSame(ks: seq<Key>, k: Key)
    requires k in ks && NoDup(ks) && forall x :: x in ks ==> x == k
    ensures ks == [k]
  {
    if |ks| > 1 { TwoTheSame(ks, k); }
  }

  lemma TwoTheSame(ks: seq<Key>, k: Key)
    requires |ks| > 1 && forall x :: x in ks ==> x == k
    ensures !NoDup(ks)
  {
    assert ks[0] in ks && ks[1] in ks;
  }

  /** A whole run: take, take the component of entity 3 away, compact, give it back, and let the new archetype have the
      address of the freed one. The next take reports nobody; with any other address it would report entity 3. */
  lemma LostToReuse(data: Bytes)
    requires |data| == 4
    ensures AllAllowed(EmptyWorld(TWO_TYPES), Setup())
    ensures var w := Run(EmptyWorld(TWO_TYPES), Setup()); var s := Play(Scene(w, NewView(w, {2})), [2], Steps(data));
      && Found(s.w, s.v, [2]) == {}
      && 3 in Found(s.w, s.v.(last := [GONE], aliases := {}), [2])
  {
    hide WorldOk, Timed, Contents, EmptyWorld, Setup, Found, Run, AllAllowed, Play, Steps, CellsOf, Ready, Quiet,
      Perform, Trusted, Emptied, Refilled, Compact, SafeToCompact, SafeToMistake, TakesPlace, OnlyHolder;
    var w := Run(EmptyWorld(TWO_TYPES), Setup());
    SetupRuns();
    HolderTaken(w);
    var p := Perform(Scene(w, NewView(w, {2})), [2], Take);
    ReuseHides(p.w, p.v, 3, 2, data);
    var u := Outlived(Emptied(p.w, 3, 2), p.v);
    StepsPlay(Scene(w, NewView(w, {2})), data);
  }
}
