/** What delimits a packet on the wire, and where its parts lie. */
module Framing {
  import opened Base
  import opened Schema
  import opened Wire
  import opened Buffers
  import opened SnapshotFormat
  import opened SyncPlan
  import opened Packets

  // ------------------------------------------------------------------ bytes behind what is read make no difference

  lemma ReadMore(data: Bytes, more: Bytes, pos: nat, n: nat)
    requires ReadAt(data, pos, n).Some?
    ensures ReadAt(data + more, pos, n) == ReadAt(data, pos, n)
  {
    assert (data + more)[pos..pos + n] == data[pos..pos + n];
  }

  lemma {:induction false} ManyMore<T(!new)>(one: nat -> Option<Parsed<T>>, other: nat -> Option<Parsed<T>>, pos: nat,
                                      n: nat)
    requires (forall p: nat :: one(p).Some? ==> other(p) == one(p)) && ParseMany(one, pos, n).Some?
    ensures ParseMany(other, pos, n) == ParseMany(one, pos, n)
  {
    if n > 0 { ManyMore(one, other, pos, n - 1); }
  }

  lemma CompMore(reg: Registry, data: Bytes, more: Bytes, version: nat, pos: nat)
    requires ParseComp(reg, data, version, pos).Some?
    ensures ParseComp(reg, data + more, version, pos) == ParseComp(reg, data, version, pos)
  {
    hide FromLE, BlockSize, DecodeMask;
    ReadMore(data, more, pos, 4);
    var s := SchemaOf(reg, ReadInt(data, pos, 4).value.value);
    if version != 1 { ReadMore(data, more, pos + 4, MaskBytes(|s.fields|)); }
    var mask := ParseSelection(s, data, pos + 4, version).value;
    ReadMore(data, more, mask.pos, BlockSize(s, mask.value));
  }

  lemma EntityMore(reg: Registry, data: Bytes, more: Bytes, version: nat, pos: nat)
    requires ParseEntity(reg, data, version, pos).Some?
    ensures ParseEntity(reg, data + more, version, pos) == ParseEntity(reg, data, version, pos)
  {
    hide FromLE, ParseComp, ParseMany;
    ReadMore(data, more, pos, 8);
    ReadMore(data, more, pos + 8, 2);
    forall p: nat | CompAt(reg, data, version)(p).Some?
      ensures CompAt(reg, data + more, version)(p) == CompAt(reg, data, version)(p)
    {
      CompMore(reg, data, more, version, p);
    }
    ManyMore(CompAt(reg, data, version), CompAt(reg, data + more, version), pos + 10,
      ReadInt(data, pos + 8, 2).value.value);
  }

  lemma DueMore(s: Schema, data: Bytes, more: Bytes, pos: nat)
    requires ParseDue(s, data, pos).Some?
    ensures ParseDue(s, data + more, pos) == ParseDue(s, data, pos)
  {
    hide FromLE, BlockSize, DecodeMask;
    ReadMore(data, more, pos, 1);
    ReadMore(data, more, pos + 1, MaskBytes(|s.fields|));
    var mask := ParseMask(data, pos + 1, |s.fields|).value;
    ReadMore(data, more, mask.pos, BlockSize(s, mask.value));
  }

  lemma DueCompMore(reg: Registry, data: Bytes, more: Bytes, version: nat, pos: nat)
    requires ParseDueComp(reg, data, version, pos).Some?
    ensures ParseDueComp(reg, data + more, version, pos) == ParseDueComp(reg, data, version, pos)
  {
    hide FromLE, BlockSize, ParseDue, ParseMany;
    ReadMore(data, more, pos, 4);
    var s := SchemaOf(reg, ReadInt(data, pos, 4).value.value);
    if version == 1 {
      ReadMore(data, more, pos + 4, BlockSize(s, []));
    } else {
      ReadMore(data, more, pos + 4, 1);
      forall p: nat | DueAt(s, data)(p).Some? ensures DueAt(s, data + more)(p) == DueAt(s, data)(p) {
        DueMore(s, data, more, p);
      }
      ManyMore(DueAt(s, data), DueAt(s, data + more), pos + 5, ReadInt(data, pos + 4, 1).value.value);
    }
  }

  lemma DueEntityMore(reg: Registry, data: Bytes, more: Bytes, version: nat, pos: nat)
    requires ParseDueEntity(reg, data, version, pos).Some?
    ensures ParseDueEntity(reg, data + more, version, pos) == ParseDueEntity(reg, data, version, pos)
  {
    hide FromLE, ParseDueComp, ParseMany;
    ReadMore(data, more, pos, 8);
    ReadMore(data, more, pos + 8, 1);
    forall p: nat | DueCompAt(reg, data, version)(p).Some?
      ensures DueCompAt(reg, data + more, version)(p) == DueCompAt(reg, data, version)(p)
    {
      DueCompMore(reg, data, more, version, p);
    }
    ManyMore(DueCompAt(reg, data, version), DueCompAt(reg, data + more, version), pos + 9,
             ReadInt(data, pos + 8, 1).value.value);
  }

  lemma FullStateMore(reg: Registry, data: Bytes, more: Bytes)
    requires ParseFullState(reg, data).Some?
    ensures ParseFullState(reg, data + more) == ParseFullState(reg, data)
  {
    hide FromLE, ParseEntity, ParseMany;
    ReadMore(data, more, 0, 2);
    ReadMore(data, more, 2, 4);
    var version := ParseVersion(data).value.value;
    forall p: nat | EntityAt(reg, data, version)(p).Some?
      ensures EntityAt(reg, data + more, version)(p) == EntityAt(reg, data, version)(p)
    {
      EntityMore(reg, data, more, version, p);
    }
    ManyMore(EntityAt(reg, data, version), EntityAt(reg, data + more, version), 6, ReadInt(data, 2, 4).value.value);
  }

  lemma DeltaMore(reg: Registry, data: Bytes, more: Bytes)
    requires ParseDelta(reg, data).Some?
    ensures ParseDelta(reg, data + more) == ParseDelta(reg, data)
  {
    hide FromLE, ParseDueEntity, ParseMany;
    ReadMore(data, more, 0, 2);
    ReadMore(data, more, 2, 4);
    var version := ParseVersion(data).value.value;
    forall p: nat | DueEntityAt(reg, data, version)(p).Some?
      ensures DueEntityAt(reg, data + more, version)(p) == DueEntityAt(reg, data, version)(p)
    {
      DueEntityMore(reg, data, more, version, p);
    }
    ManyMore(DueEntityAt(reg, data, version), DueEntityAt(reg, data + more, version), 6,
      ReadInt(data, 2, 4).value.value);
  }

  lemma SpawnMore(reg: Registry, data: Bytes, more: Bytes)
    requires ParseSpawn(reg, data).Some?
    ensures ParseSpawn(reg, data + more) == ParseSpawn(reg, data)
  {
    hide FromLE, ParseEntity;
    ReadMore(data, more, 0, 2);
    EntityMore(reg, data, more, ParseVersion(data).value.value, 2);
  }

  /** Packets delimit themselves: no packet that is accepted is the beginning of another one of its kind. */
  lemma NothingBehind(reg: Registry, kind: Kind, data: Bytes, more: Bytes)
    requires ValidPacket(reg, kind, data) && more != []
    ensures !ValidPacket(reg, kind, data + more)
  {
    hide ParseSpawn, ParseFullState, ParseDelta;
    match kind
    case Spawn => SpawnMore(reg, data, more);
    case FullState => FullStateMore(reg, data, more);
    case Delta => DeltaMore(reg, data, more);
    case Despawn =>
  }

  /** What is accepted, but for a despawn, starts with version 1 or 2. */
  lemma TwoVersions(reg: Registry, kind: Kind, data: Bytes)
    requires ValidPacket(reg, kind, data) && !kind.Despawn?
    ensures |data| >= 2 && (data[..2] == [1, 0] || data[..2] == [2, 0])
  {
    hide ParseEntity, ParseMany;
    ReadIntBytes(data, 0, 2);
    SmallNumber(1, 2);
    SmallNumber(2, 2);
  }

  // ------------------------------------------------------------------ the bytes of small packets

  lemma {:induction false} ZeroNumber(n: nat)
    ensures LE(0, n) == Zeros(n)
  {
    if n > 0 { ZeroNumber(n - 1); }
  }

  lemma SmallNumber(v: nat, n: nat)
    requires v < 256 && n > 0
    ensures LE(v, n) == [v] + Zeros(n - 1)
  {
    ZeroNumber(n - 1);
  }

  lemma OneOf<T>(encode: T -> Bytes, x: T)
    ensures EncodeMany(encode, [x]) == encode(x)
  {
    assert EncodeMany(encode, [x]) == EncodeMany(encode, []) + encode(x);
  }

  /** An entity with one component, as a spawn, a full state and a despawn carry it. */
  lemma EntityBytes(e: Entity, t: TypeId, mask: seq<bool>, block: Bytes)
    requires 0 <= e < 256 && 0 <= t < 256
    ensures var entity := [e, 0, 0, 0, 0, 0, 0, 0] + [1, 0] + [t, 0, 0, 0] + EncodeMask(mask) + block;
      var r := Record(e, [Part(t, mask, block)]);
      && EncodeSpawn(r) == [2, 0] + entity
      && EncodeFullState([r]) == [2, 0] + [1, 0, 0, 0] + entity
      && EncodeDespawn(e) == [e, 0, 0, 0, 0, 0, 0, 0]
  {
    hide LE, EncodeMany, EncodeMask;
    var p := Part(t, mask, block);
    OneOf(EncodeComp, p);
    OneOf(EncodeEntity, Record(e, [p]));
    SmallNumber(e, 8);
    SmallNumber(t, 4);
    SmallNumber(1, 2);
    SmallNumber(1, 4);
    SmallNumber(2, 2);
  }

  /** One due bucket of one component, as a delta carries it. */
  lemma DueBytes(e: Entity, t: TypeId, bucket: nat, mask: seq<bool>, block: Bytes)
    requires 0 <= e < 256 && 0 <= t < 256 && bucket < 256
    ensures EncodeDelta([DueEntity(e, [DueComp(t, [Due(bucket, mask, block)])])]) ==
      [2, 0] + [1, 0, 0, 0] + [e, 0, 0, 0, 0, 0, 0, 0] + [1] + [t, 0, 0, 0] + [1] + [bucket] + EncodeMask(mask) + block
  {
    hide LE, EncodeMany, EncodeMask;
    var d := Due(bucket, mask, block);
    OneOf(EncodeDue, d);
    OneOf(EncodeDueComp, DueComp(t, [d]));
    OneOf(EncodeDueEntity, DueEntity(e, [DueComp(t, [d])]));
    SmallNumber(e, 8);
    SmallNumber(t, 4);
    SmallNumber(1, 1);
    SmallNumber(bucket, 1);
    SmallNumber(1, 4);
    SmallNumber(2, 2);
  }
}
