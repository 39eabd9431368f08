/** A delta that overwrites a component leaves no stamp: a view that just took does not report the change. */
module LostByDelta {
  import opened Base
  import opened Schema
  import opened Storage
  import opened Operations
  import opened CommandLaws
  import opened Wire
  import opened SnapshotFormat
  import opened Snapshots
  import opened Packets
  import opened Replicas
  import opened Deltas
  import opened Attempts
  import opened Receiving
  import opened Runs
  import opened Changes
  import opened ChangeLaws
  import opened ChangeRuns
  import opened Takes
  import opened TakeRuns
  import opened Stamps
  import opened LostByCompaction

  /** Entity 1 with its byte at zero. */
  function Before(): seq<Op> {
    [OpCreateForeign(1), OpAdd(1, 1, None)]
  }

  /** Its byte becomes 7. */
  function Seven(): seq<DueEntity> {
    [DueEntity(1, [DueComp(1, [Due(0, [true], [7])])])]
  }

  function Packet(): Op {
    OpReceive(Delta, EncodeDelta(Seven()), {1}, [1])
  }

  lemma OneByteOk()
    ensures RegistryOk(ONE_BYTE) && ValidPacket(ONE_BYTE, Delta, EncodeDelta(Seven()))
    ensures ParseDelta(ONE_BYTE, EncodeDelta(Seven())) == Some(Versioned(2, Seven(), |EncodeDelta(Seven())|))
  {
    hide EncodeDelta, ParseDelta, ValidPacket;
    var s := SchemaOf(ONE_BYTE, 1);
    assert Size(s.fields, [true], 1) == 1;
    assert DueFits(s, Seven()[0].comps[0].dues[0]);
    assert DueCompFits(ONE_BYTE, Seven()[0].comps[0]);
    DeltaBack(ONE_BYTE, Seven());
  }

  lemma Overlaid7()
    ensures Overlaid(ONE_BYTE, 1, [0], Due(0, [true], [7])) == [7]
  {
    var s := SchemaOf(ONE_BYTE, 1);
    OneByteOk();
    assert Size(s.fields, [true], 1) == 1 && Size(s.fields, [true], 0) == 0;
    assert Loaded(s.fields, [true], [0], [7], 0) == [0];
    assert Loaded(s.fields, [true], [0], [7], 1) == Overlay([0], 0, [7][0..1]);
  }

  lemma BecomesSeven()
    ensures MergeDelta(ONE_BYTE, map[1 := map[1 := [0]]], 2, Seven()) == map[1 := map[1 := [7]]]
  {
    hide Overlaid;
    var ds, cs := Seven()[0].comps[0].dues, Seven()[0].comps;
    Overlaid7();
    assert ds[..0] == [] && cs[..0] == [] && Seven()[..0] == [];
    assert MergeDues(ONE_BYTE, 1, [0], []) == [0];
    assert MergeDues(ONE_BYTE, 1, [0], ds) == [7];
    assert MergeComps(ONE_BYTE, map[1 := [0]], 2, []) == map[1 := [0]];
    assert MergeComps(ONE_BYTE, map[1 := [0]], 2, cs) == map[1 := [7]];
  }

  lemma BeforeRuns()
    ensures AllAllowed(EmptyWorld(ONE_BYTE), Before())
    ensures var w := Run(EmptyWorld(ONE_BYTE), Before());
      && WorldOk(w) && Timed(w) && w.depth == 0 && w.ix.reg == ONE_BYTE && Contents(w.ix) == map[1 := map[1 := [0]]]
  {
    hide WorldOk, Timed, Contents, EmptyWorld, Run, AllAllowed, AddRaw, CreatePreassigned;
    var start, ops := EmptyWorld(ONE_BYTE), Before();
    assert start.depth == 0 && start.ix.reg == ONE_BYTE && Contents(start.ix) == map[] by { Emptiness(); }
    NoSteps(start, ops);
    NextStep(start, ops, 0, start);
    EmptyWorldOk(ONE_BYTE);
    CreatePreassignedOk(start, 1);
    CreatePreassignedKeeps(start, 1);
    assert AcceptsForeign(1) && 1 !in start.ix.loc by { assert Slot(1) == 0; Emptiness(); }
    var bare: Comps := map[];
    assert Contents(start.ix)[1 := bare] == map[1 := bare];
    var a := CreatePreassigned(start, 1);
    assert Contents(a.ix) == map[1 := bare] && a.ix.reg == ONE_BYTE;
    NextStep(start, ops, 1, a);
    assert ops[..2] == ops;
    AddRawOk(a, 1, 1, None);
    assert bare[1 := [0]] == map[1 := [0]];
    assert Payload(ONE_BYTE, 1, None) == [0];
    assert Contents(AddRaw(a, 1, 1, None).ix) == StoreAdd(map[1 := bare], ONE_BYTE, 1, 1, None);
    ReachableTimed(ONE_BYTE, ops);
  }

  lemma Emptiness()
    ensures var w := EmptyWorld(ONE_BYTE);
      w.depth == 0 && w.ix.reg == ONE_BYTE && Contents(w.ix) == map[] && w.ix.loc == map[]
  {
  }

  function Steps(): seq<Act> {
    [Take, Do(Packet())]
  }

  /** The world and the view right after the take. */
  lemma JustTaken(w: World)
    requires WorldOk(w) && Timed(w)
    ensures var p := Perform(Scene(w, NewView(w, {1})), [1], Take);
      && WorldOk(p.w) && Quiet(p.w, p.v) && p.v.logPos == |p.w.clock.log| && p.v.watched == {1}
      && Contents(p.w.ix) == Contents(w.ix) && p.w.ix.reg == w.ix.reg && p.w.depth == w.depth
  {
    hide WorldOk, Timed, Contents, Trusted, TrackKeys, Quiet, Shaped, Matching;
    var v := NewView(w, {1});
    assert Elements([1]) == {1};
    CoherentOf(w);
    NewViewTrusts(w, {1});
    AdvancedTrusts(w, v, [1]);
    PreparedTracked(w, v, [1]);
    TrackKeysOk(w, Matching(w.ix.order, v.watched), [1]);
    TrackKeysReg(w.ix, Matching(w.ix.order, v.watched), [1], w.clock.tick);
  }

  lemma Received7(w: World)
    requires WorldOk(w) && w.depth == 0 && w.ix.reg == ONE_BYTE && Contents(w.ix) == map[1 := map[1 := [0]]]
    ensures var z := Apply(w, Packet());
      && Allowed(w, Packet()) && z == TryDelta(w, 2, Seven()).w && Contents(z.ix) == map[1 := map[1 := [7]]]
      && Has(w.ix, 1, 1) && Silent(w, Packet()) == {(1, 1)}
  {
    hide WorldOk, Contents, Has, EncodeDelta, ParseDelta, ValidPacket, TryDelta, MergeDelta;
    OneByteOk();
    BecomesSeven();
    assert Elements([1]) == {1};
    ReceivedOk(w, {1}, Delta, EncodeDelta(Seven()), [1]);
    HasMeansStored(w, 1, 1);
    assert Unseen(w, 2, Seven()[0].id, Seven()[0].comps[0]);
  }

  lemma IsReceive()
    ensures Packet().OpReceive?
  {
  }

  lemma StepsPlay(s: Scene)
    ensures var p := Perform(s, [1], Take);
      Play(s, [1], [Take]) == p && Play(s, [1], Steps()) == Perform(p, [1], Do(Packet()))
    ensures Allowed(Perform(s, [1], Take).w, Packet()) ==> Playable(s, [1], Steps())
  {
    hide Perform, Packet, Allowed;
    var acts := Steps();
    assert acts[..0] == [] && acts[..1] == [Take] && acts[..2] == acts && [Take][..0] == [];
    assert Play(s, [1], []) == s && Playable(s, [1], []);
    NextAct(s, [1], acts, 0);
    NextAct(s, [1], acts, 1);
    assert Playable(s, [1], [Take]);
    IsReceive();
  }

  /** A run of allowed steps, a take and a packet after which a watched byte has changed and the next take reports
      nothing; it is the one component the packet writes without a trace. */
  lemma LostToDelta()
    ensures AllAllowed(EmptyWorld(ONE_BYTE), Before())
    ensures var w := Run(EmptyWorld(ONE_BYTE), Before()); var s := Scene(w, NewView(w, {1}));
      var p, z := Play(s, [1], [Take]), Play(s, [1], Steps());
      && Playable(s, [1], Steps()) && Silent(p.w, Packet()) == {(1, 1)}
      && Contents(p.w.ix) == map[1 := map[1 := [0]]] && Contents(z.w.ix) == map[1 := map[1 := [7]]]
      && Found(z.w, z.v, [1]) == {}
  {
    hide WorldOk, Timed, Contents, EmptyWorld, Found, Run, AllAllowed, Quiet, TryDelta, Apply, Playable, Play, Silent,
      Allowed, Packet, Has, Steps, Prepared, Advanced;
    BeforeRuns();
    var w := Run(EmptyWorld(ONE_BYTE), Before());
    var s := Scene(w, NewView(w, {1}));
    var p := Perform(s, [1], Take);
    JustTaken(w);
    Received7(p.w);
    StepsPlay(s);
    DeltaIsMissed(p.w, p.v, [1], 2, Seven());
    IsReceive();
  }
}
