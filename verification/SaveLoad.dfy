/** Saving, loading and saving again gives the identical bytes. */
module SaveLoad {
  import opened Base
  import opened Schema
  import opened Storage
  import opened StorageLaws
  import opened Operations
  import opened CommandLaws
  import opened Walks
  import opened Wire
  import opened SnapshotFormat
  import opened Snapshots

  /** The records of a list of entities. */
  ghost function RecordsOver(reg: Registry, store: Store, es: seq<Entity>): seq<Record> {
    if es == [] then [] else
      var e := es[|es| - 1];
      RecordsOver(reg, store, es[..|es| - 1]) + [RecordFor(reg, e, if e in store then store[e] else map[])]
  }

  ghost function SavedRecords(w: Index, ks: seq<Key>): seq<Record> {
    RecordsOver(w.reg, Contents(w), Walk(w, ks))
  }

  ghost function SavedBytes(w: Index, ks: seq<Key>): Bytes {
    Encode(SavedRecords(w, ks), |w.loc|)
  }

  /** All archetypes, by signature. */
  ghost predicate SaveOrder(w: Index, ks: seq<Key>, sig: Key -> int) {
    NoDup(ks) && (forall k :: k in ks <==> k in w.archs)
      && forall i, j :: 0 <= i < j < |ks| ==> sig(ks[i]) <= sig(ks[j])
  }

  /** No two archetypes that hold entities have the same signature. */
  ghost predicate SignaturesApart(w: Index, sig: Key -> int) {
    forall a, b :: RowsIn(w, a) != [] && RowsIn(w, b) != [] && a != b ==> sig(a) != sig(b)
  }

  /** What the format can carry: slots below the foreign limit, fewer than 2^16 component types. */
  ghost predicate Savable(w: Index) {
    && Coherent(w) && RegistryOk(w.reg) && |w.reg| < U16_LIMIT && |w.loc| < U32_LIMIT
    && forall e :: e in w.loc ==> IsHandle(e) && AcceptsForeign(e)
  }

  // ------------------------------------------------------------------ records of a world

  lemma {:induction false} RecordsOverAt(reg: Registry, store: Store, es: seq<Entity>)
    ensures |RecordsOver(reg, store, es)| == |es|
    ensures forall i :: 0 <= i < |es| ==>
      RecordsOver(reg, store, es)[i] == RecordFor(reg, es[i], if es[i] in store then store[es[i]] else map[])
  {
    hide RecordFor;
    if es != [] { RecordsOverAt(reg, store, es[..|es| - 1]); }
  }

  lemma {:induction false} RecordsOverJoin(reg: Registry, store: Store, a: seq<Entity>, b: seq<Entity>)
    ensures RecordsOver(reg, store, a + b) == RecordsOver(reg, store, a) + RecordsOver(reg, store, b)
    decreases |b|
  {
    hide RecordFor;
    if b == [] {
      assert a + b == a;
    } else {
      assert (a + b)[..|a + b| - 1] == a + b[..|b| - 1];
      RecordsOverJoin(reg, store, a, b[..|b| - 1]);
    }
  }

  lemma {:induction false} IdsWithJoin(reg: Registry, a: seq<Record>, b: seq<Record>, k: Key)
    ensures IdsWith(reg, a + b, k) == IdsWith(reg, a, k) + IdsWith(reg, b, k)
    decreases |b|
  {
    if b == [] {
      assert a + b == a;
    } else {
      assert (a + b)[..|a + b| - 1] == a + b[..|b| - 1];
      IdsWithJoin(reg, a, b[..|b| - 1], k);
    }
  }

  /** Stored components are sized and keyed by the entity's archetype. */
  lemma StoredComps(w: Index, e: Entity)
    requires Coherent(w) && e in w.loc
    ensures e in Contents(w) && Contents(w)[e].Keys == w.loc[e].key && CompsSized(w.reg, Contents(w)[e])
  {
    hide Shaped, CellsOf;
    KeyRegistered(w, e);
    assert Sized(w, e);
    forall t | t in Contents(w)[e] ensures Registered(w.reg, t) && |Contents(w)[e][t]| == SizeOf(w.reg, t) {
      assert Contents(w)[e][t] == CellsOf(w, e)[t].bytes;
    }
  }

  lemma {:induction false} IdsOfKey(w: Index, es: seq<Entity>, j: Key, k: Key)
    requires Coherent(w) && RegistryOk(w.reg) && forall e :: e in es ==> e in w.loc && w.loc[e].key == j
    ensures IdsWith(w.reg, RecordsOver(w.reg, Contents(w), es), k) == if j == k then es else []
  {
    hide Coherent, RegistryOk, Built, RecordFor, Contents;
    if es != [] {
      var front, e := es[..|es| - 1], es[|es| - 1];
      IdsOfKey(w, front, j, k);
      assert e in es;
      StoredComps(w, e);
      RebuiltSame(w.reg, e, Contents(w)[e]);
      assert RecordFor(w.reg, e, Contents(w)[e]).id == e by { RecordId(w.reg, e, Contents(w)[e]); }
      RecordsOverAt(w.reg, Contents(w), es);
      RecordsOverAt(w.reg, Contents(w), front);
      assert es == front + [e];
    }
  }

  lemma RecordId(reg: Registry, e: Entity, comps: Comps)
    ensures RecordFor(reg, e, comps).id == e
  {
  }

  /** Of what is saved, the entities of one component set are the rows of its archetype, in order. */
  lemma {:induction false} IdsOfWalk(w: Index, ks: seq<Key>, k: Key)
    requires Coherent(w) && RegistryOk(w.reg) && NoDup(ks) && forall j :: j in ks ==> j in w.archs
    ensures IdsWith(w.reg, SavedRecords(w, ks), k) == if k in ks then RowsIn(w, k) else []
  {
    hide RegistryOk, IdsWith, RecordsOver, Sized, Contents;
    if ks == [] {
      NoIds(w.reg, Contents(w), k);
    } else {
      var front, j := ks[..|ks| - 1], ks[|ks| - 1];
      IdsOfWalk(w, front, k);
      ArchMeetsOnce(w, j);
      IdsOfKey(w, w.archs[j].entities, j, k);
      RecordsOverJoin(w.reg, Contents(w), Walk(w, front), w.archs[j].entities);
      IdsWithJoin(w.reg, SavedRecords(w, front), RecordsOver(w.reg, Contents(w), w.archs[j].entities), k);
      assert ks == front + [j];
      assert j !in front;
    }
  }

  lemma NoIds(reg: Registry, store: Store, k: Key)
    ensures IdsWith(reg, RecordsOver(reg, store, []), k) == []
  {
  }

  lemma PartWellFormed(reg: Registry, comps: Comps, t: TypeId)
    requires RegistryOk(reg) && CompsSized(reg, comps) && t in comps && |reg| < U16_LIMIT
    ensures PartOk(reg, PartFor(reg, comps, t))
  {
    hide Block, BlockSize;
    SchemaFits(reg, t);
  }

  lemma {:induction false} FewKeys(ids: seq<TypeId>, n: nat)
    requires Sorted(ids) && forall t :: t in ids ==> 1 <= t <= n
    ensures |ids| <= n
    decreases n
  {
    if |ids| > 0 {
      assert ids[|ids| - 1] in ids;
      var front := ids[..|ids| - 1];
      forall t | t in front ensures 1 <= t <= n - 1 {
        var i :| 0 <= i < |front| && front[i] == t;
        assert ids[i] in ids && ids[i] < ids[|ids| - 1];
      }
      FewKeys(front, n - 1);
    }
  }

  lemma RecordWellFormed(w: Index, e: Entity)
    requires Savable(w) && e in w.loc
    ensures e in Contents(w) && RecordOk(w.reg, RecordFor(w.reg, e, Contents(w)[e]))
  {
    hide Coherent, RegistryOk, Contents, PartOk, PartFor, AcceptsForeign, CompsSized, Sorted;
    StoredComps(w, e);
    var comps, ids := Contents(w)[e], SortedIds(Contents(w)[e].Keys);
    PartsForAt(w.reg, comps, ids);
    forall i | 0 <= i < |ids| ensures PartOk(w.reg, PartFor(w.reg, comps, ids[i])) {
      assert ids[i] in ids;
      PartWellFormed(w.reg, comps, ids[i]);
    }
    RegisteredOnes(w.reg, comps);
    FewKeys(ids, |w.reg|);
  }

  lemma RegisteredOnes(reg: Registry, comps: Comps)
    requires CompsSized(reg, comps)
    ensures forall t :: t in comps.Keys ==> 1 <= t <= |reg|
  {
  }

  lemma SavedWellFormed(w: Index, ks: seq<Key>)
    requires Savable(w) && NoDup(ks) && forall k :: k in ks <==> k in w.archs
    ensures RecordsOk(w.reg, SavedRecords(w, ks)) && |SavedRecords(w, ks)| == |w.loc|
  {
    hide Coherent, RegistryOk, Contents, RecordOk, RecordFor, Walk, AcceptsForeign, RecordsOver;
    var es := Walk(w, ks);
    assert Shaped(w) by { CoherentShape(w); }
    WalkMeetsOnce(w, ks);
    LivesInArch(w);
    RecordsOverAt(w.reg, Contents(w), es);
    forall i | 0 <= i < |es| ensures RecordOk(w.reg, SavedRecords(w, ks)[i]) && SavedRecords(w, ks)[i].id == es[i] {
      assert es[i] in es;
      RecordWellFormed(w, es[i]);
      RecordId(w.reg, es[i], Contents(w)[es[i]]);
    }
    NoDupCount(es, w.loc.Keys);
  }

  lemma CoherentShape(w: Index)
    requires Coherent(w)
    ensures Shaped(w)
  {
  }

  // ------------------------------------------------------------------ two worlds with the same rows

  /** The archetypes of a list that hold entities. */
  ghost function Full(w: Index, ks: seq<Key>): seq<Key> {
    if ks == [] then [] else
      Full(w, ks[..|ks| - 1]) + if RowsIn(w, ks[|ks| - 1]) != [] then [ks[|ks| - 1]] else []
  }

  lemma {:induction false} FullWalk(w: Index, ks: seq<Key>)
    ensures Walk(w, Full(w, ks)) == Walk(w, ks)
  {
    if ks != [] {
      FullWalk(w, ks[..|ks| - 1]);
      var f, k := Full(w, ks[..|ks| - 1]), ks[|ks| - 1];
      assert (f + [k])[..|f|] == f;
      assert Walk(w, ks) == Walk(w, ks[..|ks| - 1]) + RowsIn(w, k);
      assert Full(w, ks) == if RowsIn(w, k) != [] then f + [k] else f;
    }
  }

  ghost predicate Ascending(ks: seq<Key>, sig: Key -> int) {
    forall i, j :: 0 <= i < j < |ks| ==> sig(ks[i]) < sig(ks[j])
  }

  lemma {:induction false} FullMembers(w: Index, ks: seq<Key>)
    ensures forall k :: k in Full(w, ks) <==> k in ks && RowsIn(w, k) != []
  {
    hide RowsIn;
    if ks != [] {
      FullMembers(w, ks[..|ks| - 1]);
      assert ks == ks[..|ks| - 1] + [ks[|ks| - 1]];
    }
  }

  lemma Before(w: Index, front: seq<Key>, k: Key, f: Key, sig: Key -> int)
    requires NoDup(front + [k]) && SignaturesApart(w, sig) && f in front && RowsIn(w, f) != [] && RowsIn(w, k) != []
    requires forall i, j :: 0 <= i < j < |front + [k]| ==> sig((front + [k])[i]) <= sig((front + [k])[j])
    ensures sig(f) < sig(k)
  {
    hide RowsIn;
    var m :| 0 <= m < |front| && front[m] == f;
    assert (front + [k])[m] == f && (front + [k])[|front|] == k;
  }

  lemma {:induction false} FullAscends(w: Index, ks: seq<Key>, sig: Key -> int)
    requires NoDup(ks) && SignaturesApart(w, sig) && forall i, j :: 0 <= i < j < |ks| ==> sig(ks[i]) <= sig(ks[j])
    ensures Ascending(Full(w, ks), sig)
  {
    hide RowsIn, SignaturesApart;
    if ks != [] {
      var front, k := ks[..|ks| - 1], ks[|ks| - 1];
      FullAscends(w, front, sig);
      FullMembers(w, front);
      assert ks == front + [k];
      var f := Full(w, front);
      if RowsIn(w, k) != [] {
        forall i | 0 <= i < |f| ensures sig(f[i]) < sig(k) {
          assert f[i] in f;
          Before(w, front, k, f[i], sig);
        }
      }
    }
  }

  /** Ascending lists of the same keys are the same list. */
  lemma {:induction false} AscendingUnique(a: seq<Key>, b: seq<Key>, sig: Key -> int)
    requires Ascending(a, sig) && Ascending(b, sig) && forall k :: k in a <==> k in b
    ensures a == b
  {
    assert (|a| > 0 ==> a[0] in a) && (|b| > 0 ==> b[0] in b);
    if |a| > 0 && |b| > 0 {
      assert a[0] in b && b[0] in a;
      assert a[0] == b[0];
      forall k ensures k in a[1..] <==> k in b[1..] {
        assert k in a[1..] <==> k in a && k != a[0];
        assert k in b[1..] <==> k in b && k != b[0];
      }
      AscendingUnique(a[1..], b[1..], sig);
      assert a == [a[0]] + a[1..] && b == [b[0]] + b[1..];
    }
  }

  lemma {:induction false} WalkByRows(w: Index, v: Index, ks: seq<Key>)
    requires forall k :: RowsIn(w, k) == RowsIn(v, k)
    ensures Walk(w, ks) == Walk(v, ks)
  {
    if ks != [] {
      WalkByRows(w, v, ks[..|ks| - 1]);
      assert RowsIn(w, ks[|ks| - 1]) == RowsIn(v, ks[|ks| - 1]);
    }
  }

  lemma RowsKnown(w: Index, k: Key)
    requires RowsIn(w, k) != []
    ensures k in w.archs
  {
  }

  /** Whatever empty archetypes two worlds keep, the same rows are walked in the same order. */
  lemma SameWalk(w: Index, ks: seq<Key>, v: Index, js: seq<Key>, sig: Key -> int)
    requires SaveOrder(w, ks, sig) && SaveOrder(v, js, sig) && SignaturesApart(w, sig)
      && forall k :: RowsIn(w, k) == RowsIn(v, k)
    ensures Walk(w, ks) == Walk(v, js)
  {
    hide RowsIn, Walk, Full, Ascending;
    FullAscends(w, ks, sig);
    assert SignaturesApart(v, sig);
    FullAscends(v, js, sig);
    FullMembers(w, ks);
    FullMembers(v, js);
    forall k ensures k in Full(w, ks) <==> k in Full(v, js) {
      if RowsIn(w, k) != [] { RowsKnown(w, k); RowsKnown(v, k); }
    }
    AscendingUnique(Full(w, ks), Full(v, js), sig);
    FullWalk(w, ks);
    FullWalk(v, js);
    WalkByRows(w, v, Full(w, ks));
  }

  // ------------------------------------------------------------------ save, load, save

  lemma {:induction false} StoreOfRecords(reg: Registry, store: Store, es: seq<Entity>)
    requires NoDup(es) && forall e :: e in es ==> e in store
    ensures var s := StoreOf(reg, RecordsOver(reg, store, es));
      (forall e :: e in s <==> e in es) && forall e :: e in es ==> s[e] == Built(reg, RecordFor(reg, e, store[e]).parts)
  {
    hide RecordFor, Built;
    if es != [] {
      var front, e := es[..|es| - 1], es[|es| - 1];
      assert es == front + [e];
      StoreOfRecords(reg, store, front);
      RecordId(reg, e, store[e]);
      assert e !in front;
      var r := RecordsOver(reg, store, front);
      assert (r + [RecordFor(reg, e, store[e])])[..|r|] == r;
    }
  }

  lemma {:induction false} SameRecords(reg: Registry, a: Store, b: Store, es: seq<Entity>)
    requires forall e :: e in es ==> e in a && e in b && RecordFor(reg, e, a[e]) == RecordFor(reg, e, b[e])
    ensures RecordsOver(reg, a, es) == RecordsOver(reg, b, es)
  {
    hide RecordFor;
    if es != [] {
      assert es[|es| - 1] in es;
      SameRecords(reg, a, b, es[..|es| - 1]);
    }
  }

  lemma LoadedRows(w: Index, ks: seq<Key>, v: World)
    requires Savable(w) && NoDup(ks) && (forall k :: k in ks <==> k in w.archs)
      && LoadedFrom(v, w.reg, SavedRecords(w, ks))
    ensures forall k :: RowsIn(v.ix, k) == RowsIn(w, k)
  {
    hide Coherent, RegistryOk, Contents, SavedRecords, RowsIn, IdsWith, WorldOk;
    forall k ensures RowsIn(v.ix, k) == RowsIn(w, k) {
      IdsOfWalk(w, ks, k);
      if RowsIn(w, k) != [] { RowsKnown(w, k); }
    }
  }

  lemma LoadedStore(w: Index, ks: seq<Key>, v: World)
    requires Savable(w) && NoDup(ks) && (forall k :: k in ks <==> k in w.archs)
      && LoadedFrom(v, w.reg, SavedRecords(w, ks))
    ensures v.ix.loc.Keys == w.loc.Keys
    ensures forall e :: e in w.loc ==>
      e in Contents(w) && e in Contents(v.ix)
        && Contents(v.ix)[e] == Built(w.reg, RecordFor(w.reg, e, Contents(w)[e]).parts)
  {
    hide Coherent, RegistryOk, Contents, RecordFor, Built, RecordsOver, Walk, RowsIn, IdsWith, StoreOf, WorldOk;
    CoherentShape(w);
    WalkMeetsOnce(w, ks);
    LivesInArch(w);
    ContentsKeys(w);
    ContentsKeys(v.ix);
    StoreOfRecords(w.reg, Contents(w), Walk(w, ks));
    assert forall e :: e in v.ix.loc.Keys <==> e in w.loc.Keys;
  }

  /** Loading the saved records into any emptied world rebuilds the same rows, component sets and wire bytes. */
  lemma LoadedLikeSaved(w: Index, ks: seq<Key>, z: World)
    requires Savable(w) && NoDup(ks) && (forall k :: k in ks <==> k in w.archs) && LoadedFrom(z, w.reg, [])
    ensures var v := LoadRecords(z, SavedRecords(w, ks));
      LoadedFrom(v, w.reg, SavedRecords(w, ks)) && (forall k :: RowsIn(v.ix, k) == RowsIn(w, k))
      && v.ix.loc.Keys == w.loc.Keys
      && forall e :: e in w.loc ==>
           v.ix.loc[e].key == w.loc[e].key
           && RecordFor(w.reg, e, Contents(v.ix)[e]) == RecordFor(w.reg, e, Contents(w)[e])
  {
    hide Coherent, RegistryOk, Contents, RecordFor, Built, SavedRecords, RowsIn, IdsWith, StoreOf, AcceptsForeign,
      RecordsOk, LoadedFrom, LoadRecords;
    var rs := SavedRecords(w, ks);
    var v := LoadRecords(z, rs);
    SavedWellFormed(w, ks);
    LoadRecordsOk(z, w.reg, rs);
    LoadedRows(w, ks, v);
    LoadedStore(w, ks, v);
    assert Coherent(v.ix) by { LoadedCoherent(v, w.reg, rs); }
    forall e | e in w.loc
      ensures v.ix.loc[e].key == w.loc[e].key
        && RecordFor(w.reg, e, Contents(v.ix)[e]) == RecordFor(w.reg, e, Contents(w)[e])
    {
      StoredComps(w, e);
      RebuiltSame(w.reg, e, Contents(w)[e]);
      StoredComps(v.ix, e);
    }
  }

  /** Components that are saved alike hold the same values, texts included. */
  lemma SavedAlike(reg: Registry, e: Entity, a: Comps, b: Comps, t: TypeId, i: nat)
    requires RegistryOk(reg) && CompsSized(reg, a) && CompsSized(reg, b) && a.Keys == b.Keys && t in a
    requires RecordFor(reg, e, a) == RecordFor(reg, e, b) && i < |SchemaOf(reg, t).fields|
    ensures SameValue(SchemaOf(reg, t).fields[i], a[t], b[t])
  {
    hide RegistryOk, WriteField, SameValue;
    var s, ids := SchemaOf(reg, t), SortedIds(a.Keys);
    PartsForAt(reg, a, ids);
    PartsForAt(reg, b, ids);
    var k :| 0 <= k < |ids| && ids[k] == t;
    assert PartFor(reg, a, ids[k]) == PartFor(reg, b, ids[k]);
    SchemaFits(reg, t);
    assert Block(s, [], a[t]) == Block(s, [], b[t]);
    WrittenAt(s.fields, [], a[t], |s.fields|, i);
    WrittenAt(s.fields, [], b[t], |s.fields|, i);
    WriteSame(s.fields[i], a[t], b[t]);
  }

  /** Every field of every component of every entity holds after a load what it held when it was saved. */
  lemma ValuesSurvive(w: Index, ks: seq<Key>, z: World, e: Entity, t: TypeId, i: nat)
    requires Savable(w) && NoDup(ks) && (forall k :: k in ks <==> k in w.archs) && LoadedFrom(z, w.reg, [])
    requires e in w.loc && t in w.loc[e].key && Registered(w.reg, t) && i < |SchemaOf(w.reg, t).fields|
    ensures var v := LoadRecords(z, SavedRecords(w, ks));
      && e in Contents(w) && t in Contents(w)[e] && e in Contents(v.ix) && t in Contents(v.ix)[e]
      && SameValue(SchemaOf(w.reg, t).fields[i], Contents(w)[e][t], Contents(v.ix)[e][t])
  {
    hide Coherent, RegistryOk, Contents, RecordFor, Built, SavedRecords, RowsIn, IdsWith, StoreOf, AcceptsForeign,
      RecordsOk, LoadedFrom, LoadRecords, SameValue, CompsSized;
    var rs := SavedRecords(w, ks);
    var v := LoadRecords(z, rs);
    LoadedLikeSaved(w, ks, z);
    assert Coherent(v.ix) by { LoadedCoherent(v, w.reg, rs); }
    LoadedReg(v, w.reg, rs);
    StoredComps(w, e);
    StoredComps(v.ix, e);
    SavedAlike(w.reg, e, Contents(w)[e], Contents(v.ix)[e], t, i);
  }

  lemma LoadedCoherent(w: World, reg: Registry, rs: seq<Record>)
    requires LoadedFrom(w, reg, rs)
    ensures Coherent(w.ix)
  {
  }

  /** Save a world, load the bytes into any world that is not iterating, and save again: the bytes are identical,
      and every id has the component set it had. */
  lemma SaveLoadSave(w: Index, ks: seq<Key>, sig: Key -> int, z: World, order: seq<Entity>, js: seq<Key>)
    requires Savable(w) && SaveOrder(w, ks, sig) && SignaturesApart(w, sig)
    requires WorldOk(z) && z.depth <= 0 && z.ix.reg == w.reg && forall e :: e in z.ix.loc ==> e in order
    ensures Parse(w.reg, SavedBytes(w, ks), 0).Some?
    ensures var v := LoadRecords(Clear(z, order), Parse(w.reg, SavedBytes(w, ks), 0).value.value).ix;
      v.loc.Keys == w.loc.Keys && (forall e :: e in w.loc ==> v.loc[e].key == w.loc[e].key)
      && (SaveOrder(v, js, sig) ==> SavedBytes(v, js) == SavedBytes(w, ks))
  {
    hide WorldOk, Coherent, Contents, Encode, Parse, RecordsOver, Walk, RowsIn, LoadedFrom, LoadRecords, RecordsOk,
      RecordFor, AcceptsForeign, RegistryOk;
    ClearedIsEmpty(z, order);
    SavedWellFormed(w, ks);
    ParseEncode(w.reg, SavedRecords(w, ks));
    var v := LoadRecords(Clear(z, order), SavedRecords(w, ks));
    LoadedLikeSaved(w, ks, Clear(z, order));
    assert v.ix.reg == w.reg by { LoadedReg(v, w.reg, SavedRecords(w, ks)); }
    if SaveOrder(v.ix, js, sig) {
      SameWalk(w, ks, v.ix, js, sig);
      CoherentShape(w);
      WalkMeetsOnce(w, ks);
      ContentsKeys(w);
      ContentsKeys(v.ix);
      SameRecords(w.reg, Contents(w), Contents(v.ix), Walk(w, ks));
    }
  }

  lemma LoadedReg(w: World, reg: Registry, rs: seq<Record>)
    requires LoadedFrom(w, reg, rs)
    ensures w.ix.reg == reg
  {
  }
}
