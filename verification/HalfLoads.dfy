/** A snapshot that every check accepts, loaded while the world is iterated: the load reports failure and has changed
    the world. */
module HalfLoads {
  import opened Base
  import opened Schema
  import opened Storage
  import opened Operations
  import opened CommandLaws
  import opened Wire
  import opened SnapshotFormat
  import opened Snapshots
  import opened Attempts
  import opened Runs

  /** One type without fields. */
  const TAG: Registry := [Schema(0, 1, [], false)]

  /** One entity with that component. */
  function Tagged(): seq<Record> {
    [Record(1, [Part(1, [], [])])]
  }

  lemma TaggedOk()
    ensures RegistryOk(TAG) && RecordsOk(TAG, Tagged())
  {
    assert BlockSize(SchemaOf(TAG, 1), []) == 0;
    assert PartOk(TAG, Tagged()[0].parts[0]);
    assert Slot(1) == 0;
  }

  function Steps(): seq<Op> {
    [OpBeginIteration, OpLoad(Encode(Tagged(), 1), [])]
  }

  lemma Iterated()
    ensures var w := Apply(EmptyWorld(TAG), OpBeginIteration);
      WorldOk(w) && w.depth == 1 && w.ix.reg == TAG && w.ix.loc == map[] && Contents(w.ix) == map[]
  {
    EmptyWorldOk(TAG);
  }

  /** A run of allowed steps in which a snapshot that parses is refused and yet leaves an entity behind that it does not
      describe. */
  lemma RefusedLoadChanges()
    ensures AllAllowed(EmptyWorld(TAG), Steps())
    ensures var w := Apply(EmptyWorld(TAG), OpBeginIteration); var v := Run(EmptyWorld(TAG), Steps());
      && Parse(TAG, Encode(Tagged(), 1), 0).Some? && !TryRecords(Clear(w, []), Tagged()).1
      && Contents(w.ix) == map[] && Contents(v.ix) == map[1 := map[]] && StoreOf(TAG, Tagged()) != Contents(v.ix)
  {
    hide WorldOk, Contents, Run, AllAllowed, EmptyWorld, Encode, Parse, TryRecords, Load, RecordsOk, RegistryOk,
      BareRecords, StoreOf;
    var start, ops, bytes := EmptyWorld(TAG), Steps(), Encode(Tagged(), 1);
    var w := Apply(start, OpBeginIteration);
    TaggedOk();
    ParseEncode(TAG, Tagged());
    Iterated();
    NoSteps(start, ops);
    NextStep(start, ops, 0, start);
    NextStep(start, ops, 1, w);
    assert ops[..2] == ops;
    LoadOk(w, bytes, []);
    LoadIteratingIff(w, bytes, []);
    OneBare();
  }

  lemma OneBare()
    ensures BareRecords(map[], Tagged()).0 == map[1 := map[]] && StoreOf(TAG, Tagged()) != map[1 := map[]]
  {
    assert Tagged()[..0] == [] && Slot(1) == 0;
    assert BareRecords(map[], []).0 == map[];
    var ps := Tagged()[0].parts;
    assert ps[..0] == [];
    TaggedOk();
    assert BlockSize(SchemaOf(TAG, 1), []) == 0;
    assert 1 in Built(TAG, ps);
    assert StoreOf(TAG, Tagged())[1] == Built(TAG, ps);
  }
}
