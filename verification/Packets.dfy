/** The packet formats of the replication protocol: what is written, what a validator accepts. */
module Packets {
  import opened Base
  import opened Schema
  import opened Wire
  import opened Buffers
  import opened SnapshotFormat
  import opened SyncPlan

  const SYNC_VERSION: nat := 2
  const SYNC_VERSION_MIN: nat := 1

  datatype Kind = Spawn | Delta | FullState | Despawn

  /** One due bucket of one component: its index, its fields, their bytes. */
  datatype Due = Due(bucket: nat, mask: seq<bool>, block: Bytes)
  datatype DueComp = DueComp(t: TypeId, dues: seq<Due>)
  datatype DueEntity = DueEntity(id: Entity, comps: seq<DueComp>)

  // ------------------------------------------------------------------ repetition

  /** n items, one after the other. */
  function ParseMany<T>(one: nat -> Option<Parsed<T>>, pos: nat, n: nat): Option<Parsed<seq<T>>> {
    if n == 0 then Some(Parsed([], pos)) else
      match ParseMany(one, pos, n - 1)
      case None => None
      case Some(front) =>
        match one(front.pos)
        case None => None
        case Some(x) => Some(Parsed(front.value + [x.value], x.pos))
  }

  function EncodeMany<T>(encode: T -> Bytes, xs: seq<T>): Bytes {
    if xs == [] then [] else EncodeMany(encode, xs[..|xs| - 1]) + encode(xs[|xs| - 1])
  }

  lemma {:induction false} ManyFail<T>(one: nat -> Option<Parsed<T>>, pos: nat, m: nat, n: nat)
    requires m <= n && ParseMany(one, pos, m).None?
    ensures ParseMany(one, pos, n).None?
  {
    if m < n { ManyFail(one, pos, m, n - 1); }
  }

  lemma {:induction false} ManyPrefix<T>(one: nat -> Option<Parsed<T>>, pos: nat, j: nat, n: nat)
    requires j <= n && ParseMany(one, pos, n).Some?
    ensures ParseMany(one, pos, j).Some? && |ParseMany(one, pos, n).value.value| == n
      && |ParseMany(one, pos, j).value.value| == j
    ensures ParseMany(one, pos, j).value.value == ParseMany(one, pos, n).value.value[..j]
  {
    if j < n {
      ManyPrefix(one, pos, j, n - 1);
    } else if n > 0 {
      ManyPrefix(one, pos, n - 1, n - 1);
    }
  }

  /** One more item of those that parse. */
  lemma NextParsed<T>(one: nat -> Option<Parsed<T>>, pos: nat, i: nat, n: nat)
    requires i < n && ParseMany(one, pos, n).Some?
    ensures ParseMany(one, pos, i).Some? && ParseMany(one, pos, i + 1).Some?
    ensures var all, x := ParseMany(one, pos, n).value.value, one(ParseMany(one, pos, i).value.pos);
      && |all| == n && x.Some? && all[i] == x.value.value && ParseMany(one, pos, i + 1).value.pos == x.value.pos
  {
    ManyPrefix(one, pos, i, n);
    ManyPrefix(one, pos, i + 1, n);
  }

  ghost predicate ReadsBack<T(!new)>(one: nat -> Option<Parsed<T>>, encode: T -> Bytes, data: Bytes, good: T -> bool) {
    forall x: T, pos: nat {:trigger At(data, pos, encode(x))} ::
      good(x) && At(data, pos, encode(x)) ==> one(pos) == Some(Parsed(x, pos + |encode(x)|))
  }

  /** Items that read back one by one read back in a row. */
  lemma {:induction false} ManyBack<T(!new)>(one: nat -> Option<Parsed<T>>, encode: T -> Bytes, data: Bytes,
                                      good: T -> bool, pos: nat, xs: seq<T>)
    requires ReadsBack(one, encode, data, good) && (forall i :: 0 <= i < |xs| ==> good(xs[i]))
      && At(data, pos, EncodeMany(encode, xs))
    ensures ParseMany(one, pos, |xs|) == Some(Parsed(xs, pos + |EncodeMany(encode, xs)|))
  {
    if xs != [] {
      var front, x := xs[..|xs| - 1], xs[|xs| - 1];
      AtParts(data, pos, EncodeMany(encode, front), encode(x));
      ManyBack(one, encode, data, good, pos, front);
      assert xs == front + [x];
    }
  }

  // ------------------------------------------------------------------ parsing

  function ParseMask(data: Bytes, pos: nat, n: nat): Option<Parsed<seq<bool>>> {
    match ReadAt(data, pos, MaskBytes(n))
    case None => None
    case Some(b) => Some(Parsed(DecodeMask(b, n), pos + |b|))
  }

  /** The fields a mask selects, as many bytes as they take. */
  function ParseBlock(s: Schema, data: Bytes, pos: nat, mask: seq<bool>): Option<Parsed<Bytes>> {
    match ReadAt(data, pos, BlockSize(s, mask))
    case None => None
    case Some(b) => Some(Parsed(b, pos + |b|))
  }

  /** Version 1 sends whole components, without masks. */
  function ParseSelection(s: Schema, data: Bytes, pos: nat, version: nat): Option<Parsed<seq<bool>>> {
    if version == 1 then Some(Parsed([], pos)) else ParseMask(data, pos, |s.fields|)
  }

  function ParseComp(reg: Registry, data: Bytes, version: nat, pos: nat): Option<Parsed<Part>> {
    match ReadInt(data, pos, 4)
    case None => None
    case Some(t) =>
      if !Registered(reg, t.value) then None else
        var s := SchemaOf(reg, t.value);
        match ParseSelection(s, data, t.pos, version)
        case None => None
        case Some(mask) =>
          match ParseBlock(s, data, mask.pos, mask.value)
          case None => None
          case Some(b) => Some(Parsed(Part(t.value, mask.value, b.value), b.pos))
  }

  function CompAt(reg: Registry, data: Bytes, version: nat): nat -> Option<Parsed<Part>> {
    (pos: nat) => ParseComp(reg, data, version, pos)
  }

  /** An entity and its components, as spawn and full-state packets carry it. */
  function ParseEntity(reg: Registry, data: Bytes, version: nat, pos: nat): Option<Parsed<Record>> {
    match ReadInt(data, pos, 8)
    case None => None
    case Some(id) =>
      match ReadInt(data, id.pos, 2)
      case None => None
      case Some(n) =>
        match ParseMany(CompAt(reg, data, version), n.pos, n.value)
        case None => None
        case Some(ps) => Some(Parsed(Record(id.value, ps.value), ps.pos))
  }

  function EntityAt(reg: Registry, data: Bytes, version: nat): nat -> Option<Parsed<Record>> {
    (pos: nat) => ParseEntity(reg, data, version, pos)
  }

  function ParseDue(s: Schema, data: Bytes, pos: nat): Option<Parsed<Due>> {
    match ReadInt(data, pos, 1)
    case None => None
    case Some(bucket) =>
      match ParseMask(data, bucket.pos, |s.fields|)
      case None => None
      case Some(mask) =>
        match ParseBlock(s, data, mask.pos, mask.value)
        case None => None
        case Some(b) => Some(Parsed(Due(bucket.value, mask.value, b.value), b.pos))
  }

  function DueAt(s: Schema, data: Bytes): nat -> Option<Parsed<Due>> {
    (pos: nat) => ParseDue(s, data, pos)
  }

  /** One component of a delta: in version 1 a whole block, in version 2 its due buckets. */
  function ParseDueComp(reg: Registry, data: Bytes, version: nat, pos: nat): Option<Parsed<DueComp>> {
    match ReadInt(data, pos, 4)
    case None => None
    case Some(t) =>
      if !Registered(reg, t.value) then None else
        var s := SchemaOf(reg, t.value);
        if version == 1 then
          match ParseBlock(s, data, t.pos, [])
          case None => None
          case Some(b) => Some(Parsed(DueComp(t.value, [Due(0, [], b.value)]), b.pos))
        else
          match ReadInt(data, t.pos, 1)
          case None => None
          case Some(n) =>
            match ParseMany(DueAt(s, data), n.pos, n.value)
            case None => None
            case Some(dues) => Some(Parsed(DueComp(t.value, dues.value), dues.pos))
  }

  function DueCompAt(reg: Registry, data: Bytes, version: nat): nat -> Option<Parsed<DueComp>> {
    (pos: nat) => ParseDueComp(reg, data, version, pos)
  }

  function ParseDueEntity(reg: Registry, data: Bytes, version: nat, pos: nat): Option<Parsed<DueEntity>> {
    match ReadInt(data, pos, 8)
    case None => None
    case Some(id) =>
      match ReadInt(data, id.pos, 1)
      case None => None
      case Some(n) =>
        match ParseMany(DueCompAt(reg, data, version), n.pos, n.value)
        case None => None
        case Some(cs) => Some(Parsed(DueEntity(id.value, cs.value), cs.pos))
  }

  function DueEntityAt(reg: Registry, data: Bytes, version: nat): nat -> Option<Parsed<DueEntity>> {
    (pos: nat) => ParseDueEntity(reg, data, version, pos)
  }

  function ParseVersion(data: Bytes): Option<Parsed<nat>> {
    match ReadInt(data, 0, 2)
    case None => None
    case Some(v) => if SYNC_VERSION_MIN <= v.value <= SYNC_VERSION then Some(v) else None
  }

  datatype Versioned<T> = Versioned(version: nat, value: T, pos: nat)

  function ParseSpawn(reg: Registry, data: Bytes): Option<Versioned<Record>> {
    match ParseVersion(data)
    case None => None
    case Some(v) =>
      match ParseEntity(reg, data, v.value, v.pos)
      case None => None
      case Some(r) => Some(Versioned(v.value, r.value, r.pos))
  }

  function ParseFullState(reg: Registry, data: Bytes): Option<Versioned<seq<Record>>> {
    match ParseVersion(data)
    case None => None
    case Some(v) =>
      match ReadInt(data, v.pos, 4)
      case None => None
      case Some(n) =>
        match ParseMany(EntityAt(reg, data, v.value), n.pos, n.value)
        case None => None
        case Some(rs) => Some(Versioned(v.value, rs.value, rs.pos))
  }

  function ParseDelta(reg: Registry, data: Bytes): Option<Versioned<seq<DueEntity>>> {
    match ParseVersion(data)
    case None => None
    case Some(v) =>
      match ReadInt(data, v.pos, 4)
      case None => None
      case Some(n) =>
        match ParseMany(DueEntityAt(reg, data, v.value), n.pos, n.value)
        case None => None
        case Some(es) => Some(Versioned(v.value, es.value, es.pos))
  }

  /** What `validate_packet` accepts: a packet that parses and ends where its last item ends. */
  predicate ValidPacket(reg: Registry, kind: Kind, data: Bytes) {
    match kind
    case Spawn => var p := ParseSpawn(reg, data); p.Some? && p.value.pos == |data|
    case FullState => var p := ParseFullState(reg, data); p.Some? && p.value.pos == |data|
    case Delta => var p := ParseDelta(reg, data); p.Some? && p.value.pos == |data|
    case Despawn => |data| == 8
  }

  // ------------------------------------------------------------------ writing (version 2)

  function EncodeComp(p: Part): Bytes {
    LE(Word(p.t), 4) + EncodeMask(p.mask) + p.block
  }

  function EncodeEntity(r: Record): Bytes {
    LE(Word(r.id), 8) + LE(|r.parts|, 2) + EncodeMany(EncodeComp, r.parts)
  }

  function EncodeDue(d: Due): Bytes {
    LE(d.bucket, 1) + EncodeMask(d.mask) + d.block
  }

  function EncodeDueComp(c: DueComp): Bytes {
    LE(Word(c.t), 4) + LE(|c.dues|, 1) + EncodeMany(EncodeDue, c.dues)
  }

  function EncodeDueEntity(e: DueEntity): Bytes {
    LE(Word(e.id), 8) + LE(|e.comps|, 1) + EncodeMany(EncodeDueComp, e.comps)
  }

  function EncodeSpawn(r: Record): Bytes {
    LE(SYNC_VERSION, 2) + EncodeEntity(r)
  }

  /** A packet about nobody is empty, and an empty packet is not sent. */
  function EncodeFullState(rs: seq<Record>): Bytes {
    if rs == [] then [] else LE(SYNC_VERSION, 2) + LE(|rs|, 4) + EncodeMany(EncodeEntity, rs)
  }

  function EncodeDelta(es: seq<DueEntity>): Bytes {
    if es == [] then [] else LE(SYNC_VERSION, 2) + LE(|es|, 4) + EncodeMany(EncodeDueEntity, es)
  }

  /** A component count has eight bits: it must not wrap to zero. */
  predicate Counted(e: DueEntity) {
    |e.comps| % 256 != 0
  }

  /** The entities of a delta that reach the packet: one whose count wraps to zero is skipped. */
  function Carried(es: seq<DueEntity>): seq<DueEntity> {
    if es == [] then [] else Carried(es[..|es| - 1]) + if Counted(es[|es| - 1]) then [es[|es| - 1]] else []
  }

  /** What a receiver makes of the packet that should carry these entities: nothing if it is empty or refused. */
  function Arriving(reg: Registry, es: seq<DueEntity>): seq<DueEntity> {
    var data := EncodeDelta(Carried(es));
    if ValidPacket(reg, Delta, data) then ParseDelta(reg, data).value.value else []
  }

  /** Counts a delta can hold: fewer than 2^32 entities, each with fewer than 256 components. */
  predicate Countable(es: seq<DueEntity>) {
    |es| < U32_LIMIT && forall i :: 0 <= i < |es| ==> |es[i].comps| < 256
  }

  function EncodeDespawn(e: Entity): Bytes {
    LE(Word(e), 8)
  }

  // ------------------------------------------------------------------ what fits the format

  ghost predicate CompFits(reg: Registry, p: Part) {
    && Registered(reg, p.t) && p.t < U32_LIMIT && |p.mask| == |SchemaOf(reg, p.t).fields|
    && |p.block| == BlockSize(SchemaOf(reg, p.t), p.mask)
  }

  ghost predicate EntityFits(reg: Registry, r: Record) {
    IsHandle(r.id) && |r.parts| < U16_LIMIT && forall i :: 0 <= i < |r.parts| ==> CompFits(reg, r.parts[i])
  }

  ghost predicate DueFits(s: Schema, d: Due) {
    d.bucket < 256 && |d.mask| == |s.fields| && |d.block| == BlockSize(s, d.mask)
  }

  ghost predicate DueCompFits(reg: Registry, c: DueComp) {
    && Registered(reg, c.t) && c.t < U32_LIMIT && |c.dues| < 256
    && forall i :: 0 <= i < |c.dues| ==> DueFits(SchemaOf(reg, c.t), c.dues[i])
  }

  /** An entity of a delta but for the number of its components. */
  ghost predicate DueEntityOk(reg: Registry, e: DueEntity) {
    IsHandle(e.id) && e.comps != [] && forall i :: 0 <= i < |e.comps| ==> DueCompFits(reg, e.comps[i])
  }

  ghost predicate DueEntityFits(reg: Registry, e: DueEntity) {
    DueEntityOk(reg, e) && |e.comps| < 256
  }

  // ------------------------------------------------------------------ reading back what was written

  lemma MaskAt(data: Bytes, pos: nat, mask: seq<bool>)
    requires At(data, pos, EncodeMask(mask))
    ensures ParseMask(data, pos, |mask|) == Some(Parsed(mask, pos + |EncodeMask(mask)|))
  {
    hide EncodeMask, DecodeMask;
    MaskRoundTrip(mask);
  }

  lemma CompBack(reg: Registry, data: Bytes, pos: nat, p: Part)
    requires CompFits(reg, p) && At(data, pos, EncodeComp(p))
    ensures ParseComp(reg, data, 2, pos) == Some(Parsed(p, pos + |EncodeComp(p)|))
  {
    hide LE, FromLE, BlockSize, EncodeMask, ParseMask;
    Widths();
    AtParts(data, pos, LE(p.t, 4) + EncodeMask(p.mask), p.block);
    AtParts(data, pos, LE(p.t, 4), EncodeMask(p.mask));
    ReadIntAt(data, pos, p.t, 4);
    MaskAt(data, pos + 4, p.mask);
  }

  lemma EntityBack(reg: Registry, data: Bytes, pos: nat, r: Record)
    requires EntityFits(reg, r) && At(data, pos, EncodeEntity(r))
    ensures ParseEntity(reg, data, 2, pos) == Some(Parsed(r, pos + |EncodeEntity(r)|))
  {
    hide LE, FromLE, CompFits, ParseComp, EncodeComp, EncodeMany, ParseMany;
    Widths();
    AtParts(data, pos, LE(r.id, 8) + LE(|r.parts|, 2), EncodeMany(EncodeComp, r.parts));
    AtParts(data, pos, LE(r.id, 8), LE(|r.parts|, 2));
    ReadIntAt(data, pos, r.id, 8);
    ReadIntAt(data, pos + 8, |r.parts|, 2);
    forall p: Part, q: nat | CompFits(reg, p) && At(data, q, EncodeComp(p))
      ensures CompAt(reg, data, 2)(q) == Some(Parsed(p, q + |EncodeComp(p)|))
    {
      CompBack(reg, data, q, p);
    }
    var good := p => CompFits(reg, p);
    ManyBack(CompAt(reg, data, 2), EncodeComp, data, good, pos + 10, r.parts);
  }

  lemma DueBack(s: Schema, data: Bytes, pos: nat, d: Due)
    requires DueFits(s, d) && At(data, pos, EncodeDue(d))
    ensures ParseDue(s, data, pos) == Some(Parsed(d, pos + |EncodeDue(d)|))
  {
    hide LE, FromLE, BlockSize, EncodeMask, ParseMask;
    Widths();
    AtParts(data, pos, LE(d.bucket, 1) + EncodeMask(d.mask), d.block);
    AtParts(data, pos, LE(d.bucket, 1), EncodeMask(d.mask));
    ReadIntAt(data, pos, d.bucket, 1);
    MaskAt(data, pos + 1, d.mask);
  }

  lemma DueCompBack(reg: Registry, data: Bytes, pos: nat, c: DueComp)
    requires DueCompFits(reg, c) && At(data, pos, EncodeDueComp(c))
    ensures ParseDueComp(reg, data, 2, pos) == Some(Parsed(c, pos + |EncodeDueComp(c)|))
  {
    hide LE, FromLE, DueFits, ParseDue, EncodeDue, EncodeMany, ParseMany;
    Widths();
    var s := SchemaOf(reg, c.t);
    AtParts(data, pos, LE(c.t, 4) + LE(|c.dues|, 1), EncodeMany(EncodeDue, c.dues));
    AtParts(data, pos, LE(c.t, 4), LE(|c.dues|, 1));
    ReadIntAt(data, pos, c.t, 4);
    ReadIntAt(data, pos + 4, |c.dues|, 1);
    forall d: Due, q: nat | DueFits(s, d) && At(data, q, EncodeDue(d))
      ensures DueAt(s, data)(q) == Some(Parsed(d, q + |EncodeDue(d)|))
    {
      DueBack(s, data, q, d);
    }
    var good := d => DueFits(s, d);
    ManyBack(DueAt(s, data), EncodeDue, data, good, pos + 5, c.dues);
  }

  lemma DueEntityBack(reg: Registry, data: Bytes, pos: nat, e: DueEntity)
    requires DueEntityFits(reg, e) && At(data, pos, EncodeDueEntity(e))
    ensures ParseDueEntity(reg, data, 2, pos) == Some(Parsed(e, pos + |EncodeDueEntity(e)|))
  {
    hide LE, FromLE, DueCompFits, ParseDueComp, EncodeDueComp, EncodeMany, ParseMany;
    Widths();
    AtParts(data, pos, LE(e.id, 8) + LE(|e.comps|, 1), EncodeMany(EncodeDueComp, e.comps));
    AtParts(data, pos, LE(e.id, 8), LE(|e.comps|, 1));
    ReadIntAt(data, pos, e.id, 8);
    ReadIntAt(data, pos + 8, |e.comps|, 1);
    forall c: DueComp, q: nat | DueCompFits(reg, c) && At(data, q, EncodeDueComp(c))
      ensures DueCompAt(reg, data, 2)(q) == Some(Parsed(c, q + |EncodeDueComp(c)|))
    {
      DueCompBack(reg, data, q, c);
    }
    var good := c => DueCompFits(reg, c);
    ManyBack(DueCompAt(reg, data, 2), EncodeDueComp, data, good, pos + 9, e.comps);
  }

  lemma VersionAt(data: Bytes)
    requires At(data, 0, LE(SYNC_VERSION, 2))
    ensures ParseVersion(data) == Some(Parsed(SYNC_VERSION, 2))
  {
    hide LE, FromLE;
    Widths();
    ReadIntAt(data, 0, SYNC_VERSION, 2);
  }

  /** A spawn packet parses back to its entity and validates. */
  lemma SpawnBack(reg: Registry, r: Record)
    requires EntityFits(reg, r)
    ensures ParseSpawn(reg, EncodeSpawn(r)) == Some(Versioned(2, r, |EncodeSpawn(r)|))
      && ValidPacket(reg, Spawn, EncodeSpawn(r))
  {
    hide LE, ParseEntity, EncodeEntity, ParseVersion;
    var data := EncodeSpawn(r);
    assert At(data, 0, data);
    AtParts(data, 0, LE(SYNC_VERSION, 2), EncodeEntity(r));
    VersionAt(data);
    EntityBack(reg, data, 2, r);
  }

  /** A full-state packet parses back to its entities and validates. */
  lemma FullStateBack(reg: Registry, rs: seq<Record>)
    requires (forall i :: 0 <= i < |rs| ==> EntityFits(reg, rs[i])) && 0 < |rs| < U32_LIMIT
    ensures ParseFullState(reg, EncodeFullState(rs)) == Some(Versioned(2, rs, |EncodeFullState(rs)|))
    ensures ValidPacket(reg, FullState, EncodeFullState(rs))
  {
    hide LE, FromLE, ParseEntity, EncodeEntity, ParseVersion, EntityFits, EncodeMany, ParseMany, ReadInt;
    var data := EncodeFullState(rs);
    Widths();
    assert At(data, 0, data);
    AtParts(data, 0, LE(SYNC_VERSION, 2) + LE(|rs|, 4), EncodeMany(EncodeEntity, rs));
    AtParts(data, 0, LE(SYNC_VERSION, 2), LE(|rs|, 4));
    VersionAt(data);
    ReadIntAt(data, 2, |rs|, 4);
    forall r: Record, q: nat | EntityFits(reg, r) && At(data, q, EncodeEntity(r))
      ensures EntityAt(reg, data, 2)(q) == Some(Parsed(r, q + |EncodeEntity(r)|))
    {
      EntityBack(reg, data, q, r);
    }
    var good := r => EntityFits(reg, r);
    ManyBack(EntityAt(reg, data, 2), EncodeEntity, data, good, 6, rs);
  }

  /** A delta packet parses back to its due buckets and validates. */
  lemma DeltaBack(reg: Registry, es: seq<DueEntity>)
    requires (forall i :: 0 <= i < |es| ==> DueEntityFits(reg, es[i])) && 0 < |es| < U32_LIMIT
    ensures ParseDelta(reg, EncodeDelta(es)) == Some(Versioned(2, es, |EncodeDelta(es)|))
    ensures ValidPacket(reg, Delta, EncodeDelta(es))
  {
    hide EncodeDelta, ParseDueEntity, EncodeDueEntity, ParseVersion, DueEntityFits, EncodeMany, ParseMany, ReadInt;
    var data := EncodeDelta(es);
    HeadRead(es);
    forall e: DueEntity, q: nat | DueEntityFits(reg, e) && At(data, q, EncodeDueEntity(e))
      ensures DueEntityAt(reg, data, 2)(q) == Some(Parsed(e, q + |EncodeDueEntity(e)|))
    {
      DueEntityBack(reg, data, q, e);
    }
    var good := e => DueEntityFits(reg, e);
    ManyBack(DueEntityAt(reg, data, 2), EncodeDueEntity, data, good, 6, es);
  }

  // ------------------------------------------------------------------ counts that do not fit

  /** Without a wrapped count every entity reaches the packet. */
  lemma {:induction false} CarriedAll(es: seq<DueEntity>)
    requires forall i :: 0 <= i < |es| ==> Counted(es[i])
    ensures Carried(es) == es
  {
    hide Counted;
    if es != [] {
      CarriedAll(es[..|es| - 1]);
      assert es == es[..|es| - 1] + [es[|es| - 1]];
    }
  }

  lemma {:induction false} CarriedAre(es: seq<DueEntity>)
    ensures |Carried(es)| <= |es| && forall e :: e in Carried(es) <==> e in es && Counted(e)
  {
    hide Counted;
    if es != [] {
      CarriedAre(es[..|es| - 1]);
      assert es == es[..|es| - 1] + [es[|es| - 1]];
    }
  }

  lemma ParsedCount(reg: Registry, data: Bytes, version: nat, pos: nat)
    ensures var p := ParseDueEntity(reg, data, version, pos); p.Some? ==> |p.value.value.comps| < 256
  {
    hide ParseDueComp, ParseMany;
    Widths();
    if ParseDueEntity(reg, data, version, pos).Some? {
      var id := ReadInt(data, pos, 8).value;
      var n := ReadInt(data, id.pos, 1).value;
      ManyPrefix(DueCompAt(reg, data, version), n.pos, n.value, n.value);
    }
  }

  lemma {:induction false} ParsedCounts(reg: Registry, data: Bytes, version: nat, pos: nat, n: nat)
    ensures var p := ParseMany(DueEntityAt(reg, data, version), pos, n);
      p.Some? ==> |p.value.value| == n && forall i :: 0 <= i < n ==> |p.value.value[i].comps| < 256
  {
    hide ParseDueEntity;
    if n > 0 {
      ParsedCounts(reg, data, version, pos, n - 1);
      var front := ParseMany(DueEntityAt(reg, data, version), pos, n - 1);
      if front.Some? { ParsedCount(reg, data, version, front.value.pos); }
    }
  }

  /** Whatever a receiver reads, its counts are small. */
  lemma ArrivingCounts(reg: Registry, es: seq<DueEntity>)
    ensures Countable(Arriving(reg, es))
  {
    hide ParseDueEntity, ParseMany, Carried, EncodeDelta;
    Widths();
    var data := EncodeDelta(Carried(es));
    if ValidPacket(reg, Delta, data) {
      var v := ParseVersion(data).value;
      var n := ReadInt(data, v.pos, 4).value;
      ParsedCounts(reg, data, v.value, n.pos, n.value);
    }
  }

  lemma DeltaVersion(es: seq<DueEntity>)
    requires es != []
    ensures ParseVersion(EncodeDelta(es)) == Some(Parsed(SYNC_VERSION, 2))
  {
    hide LE, EncodeMany, EncodeDueEntity, ParseVersion;
    var data := EncodeDelta(es);
    assert At(data, 0, data);
    AtParts(data, 0, LE(SYNC_VERSION, 2) + LE(|es|, 4), EncodeMany(EncodeDueEntity, es));
    AtParts(data, 0, LE(SYNC_VERSION, 2), LE(|es|, 4));
    VersionAt(data);
  }

  /** A packet whose counts fit arrives as it was packed. */
  lemma CarriedArrive(reg: Registry, es: seq<DueEntity>)
    requires (forall i :: 0 <= i < |es| ==> DueEntityOk(reg, es[i])) && Countable(Carried(es))
    ensures Arriving(reg, es) == Carried(es)
  {
    hide DueEntityOk, Carried, EncodeDelta, ParseDelta;
    CarriedAre(es);
    var cs := Carried(es);
    if cs != [] {
      forall i | 0 <= i < |cs| ensures DueEntityFits(reg, cs[i]) { assert cs[i] in cs; }
      DeltaBack(reg, cs);
    } else {
      NothingPacked(reg);
    }
  }

  lemma NothingPacked(reg: Registry)
    ensures EncodeDelta([]) == [] && !ValidPacket(reg, Delta, [])
  {
  }

  /** A delta arrives as it was built if and only if its counts fit. */
  lemma ArrivesIff(reg: Registry, es: seq<DueEntity>)
    requires forall i :: 0 <= i < |es| ==> DueEntityOk(reg, es[i])
    ensures Arriving(reg, es) == es <==> Countable(es)
  {
    hide Carried, Arriving;
    ArrivingCounts(reg, es);
    if Countable(es) {
      forall i | 0 <= i < |es| ensures Counted(es[i]) { assert DueEntityOk(reg, es[i]); }
      CarriedAll(es);
      CarriedArrive(reg, es);
    }
  }

  lemma {:induction false} ManySplit<T>(encode: T -> Bytes, xs: seq<T>, k: nat)
    requires k <= |xs|
    ensures EncodeMany(encode, xs) == EncodeMany(encode, xs[..k]) + EncodeMany(encode, xs[k..])
  {
    if k == |xs| {
      assert xs[..k] == xs && xs[k..] == [];
    } else {
      var front := xs[..|xs| - 1];
      ManySplit(encode, front, k);
      assert front[..k] == xs[..k] && xs[k..][..|xs[k..]| - 1] == front[k..];
    }
  }

  /** The receiver reads as many components as the count says, and bytes are left over. */
  lemma OverflowRead(reg: Registry, data: Bytes, pos: nat, e: DueEntity)
    requires DueEntityOk(reg, e) && |e.comps| >= 256 && At(data, pos, EncodeDueEntity(e))
    ensures var p := ParseDueEntity(reg, data, 2, pos); p.Some? && p.value.pos < pos + |EncodeDueEntity(e)|
  {
    hide LE, FromLE, DueCompFits, ParseDueComp, EncodeDueComp, EncodeMany, ParseMany;
    Widths();
    var k := |e.comps| % 256;
    AtParts(data, pos, LE(e.id, 8) + LE(|e.comps|, 1), EncodeMany(EncodeDueComp, e.comps));
    AtParts(data, pos, LE(e.id, 8), LE(|e.comps|, 1));
    ReadIntAt(data, pos, e.id, 8);
    assert LE(|e.comps|, 1) == LE(k, 1) by { ByteWraps(|e.comps|); }
    ReadIntAt(data, pos + 8, k, 1);
    forall c: DueComp, q: nat | DueCompFits(reg, c) && At(data, q, EncodeDueComp(c))
      ensures DueCompAt(reg, data, 2)(q) == Some(Parsed(c, q + |EncodeDueComp(c)|))
    {
      DueCompBack(reg, data, q, c);
    }
    ManySplit(EncodeDueComp, e.comps, k);
    AtParts(data, pos + 9, EncodeMany(EncodeDueComp, e.comps[..k]), EncodeMany(EncodeDueComp, e.comps[k..]));
    var good := c => DueCompFits(reg, c);
    ManyBack(DueCompAt(reg, data, 2), EncodeDueComp, data, good, pos + 9, e.comps[..k]);
    SomeBytes(e.comps[k..]);
  }

  lemma ByteWraps(n: nat)
    ensures LE(n, 1) == LE(n % 256, 1)
  {
    assert LE(n, 1) == [n % 256] + LE(n / 256, 0);
    assert LE(n % 256, 1) == [n % 256 % 256] + LE(n % 256 / 256, 0);
  }

  lemma SomeBytes(cs: seq<DueComp>)
    requires cs != []
    ensures EncodeMany(EncodeDueComp, cs) != []
  {
    assert |EncodeDueComp(cs[|cs| - 1])| >= 5;
  }

  /** If only the last entity has more components than a count can tell, the packet is refused, or the entity is not in
      it: the others arrive in the second case, nothing in the first. */
  lemma LastOverflows(reg: Registry, es: seq<DueEntity>)
    requires es != [] && |es| < U32_LIMIT && forall i :: 0 <= i < |es| ==> DueEntityOk(reg, es[i])
    requires Countable(es[..|es| - 1]) && |es[|es| - 1].comps| >= 256
    ensures Arriving(reg, es) == if Counted(es[|es| - 1]) then [] else es[..|es| - 1]
  {
    hide DueEntityOk, EncodeDelta, ParseDelta, ValidPacket;
    var front, e := es[..|es| - 1], es[|es| - 1];
    forall i | 0 <= i < |front| ensures Counted(front[i]) && DueEntityOk(reg, front[i]) {
      assert front[i] == es[i];
      assert front[i].comps != [] by { Nonempty(reg, es[i]); }
    }
    CarriedAll(front);
    if Counted(e) {
      assert Carried(es) == front + [e] == es;
      Refused(reg, es);
    } else {
      assert Carried(es) == front;
      CarriedArrive(reg, es);
    }
  }

  lemma Nonempty(reg: Registry, e: DueEntity)
    requires DueEntityOk(reg, e)
    ensures e.comps != []
  {
  }

  /** All entities but the last read back. */
  lemma FrontBack(reg: Registry, data: Bytes, pos: nat, es: seq<DueEntity>)
    requires es != [] && (forall i :: 0 <= i < |es| - 1 ==> DueEntityFits(reg, es[i]))
      && At(data, pos, EncodeMany(EncodeDueEntity, es))
    ensures var front := EncodeMany(EncodeDueEntity, es[..|es| - 1]);
      && ParseMany(DueEntityAt(reg, data, 2), pos, |es| - 1) == Some(Parsed(es[..|es| - 1], pos + |front|))
      && At(data, pos + |front|, EncodeDueEntity(es[|es| - 1]))
      && |EncodeMany(EncodeDueEntity, es)| == |front| + |EncodeDueEntity(es[|es| - 1])|
  {
    hide ParseDueEntity, EncodeDueEntity, DueEntityFits, EncodeMany, ParseMany;
    var front, e := es[..|es| - 1], es[|es| - 1];
    ManyLast(EncodeDueEntity, es);
    AtParts(data, pos, EncodeMany(EncodeDueEntity, front), EncodeDueEntity(e));
    forall d: DueEntity, q: nat | DueEntityFits(reg, d) && At(data, q, EncodeDueEntity(d))
      ensures DueEntityAt(reg, data, 2)(q) == Some(Parsed(d, q + |EncodeDueEntity(d)|))
    {
      DueEntityBack(reg, data, q, d);
    }
    var good := d => DueEntityFits(reg, d);
    ManyBack(DueEntityAt(reg, data, 2), EncodeDueEntity, data, good, pos, front);
  }

  lemma HeadRead(es: seq<DueEntity>)
    requires 0 < |es| < U32_LIMIT
    ensures var data, n: nat := EncodeDelta(es), |es|;
      && ParseVersion(data) == Some(Parsed(SYNC_VERSION, 2)) && ReadInt(data, 2, 4) == Some(Parsed(n, 6))
      && At(data, 6, EncodeMany(EncodeDueEntity, es)) && |data| == 6 + |EncodeMany(EncodeDueEntity, es)|
  {
    hide LE, FromLE, EncodeDueEntity, ParseVersion, EncodeMany, ReadInt;
    var data := EncodeDelta(es);
    Widths();
    assert At(data, 0, data);
    AtParts(data, 0, LE(SYNC_VERSION, 2) + LE(|es|, 4), EncodeMany(EncodeDueEntity, es));
    AtParts(data, 0, LE(SYNC_VERSION, 2), LE(|es|, 4));
    VersionAt(data);
    ReadIntAt(data, 2, |es|, 4);
  }

  /** The left-over bytes of the last entity keep the packet from ending where its last item ends. */
  lemma Refused(reg: Registry, es: seq<DueEntity>)
    requires es != [] && |es| < U32_LIMIT && forall i :: 0 <= i < |es| ==> DueEntityOk(reg, es[i])
    requires Countable(es[..|es| - 1]) && |es[|es| - 1].comps| >= 256
    ensures !ValidPacket(reg, Delta, EncodeDelta(es))
  {
    hide EncodeDelta, At, ParseDueEntity, EncodeDueEntity, ParseVersion, DueEntityOk, EncodeMany, ParseMany, ReadInt;
    var data, front := EncodeDelta(es), es[..|es| - 1];
    HeadRead(es);
    assert forall i :: 0 <= i < |front| ==> front[i] == es[i];
    FrontBack(reg, data, 6, es);
    OverflowRead(reg, data, 6 + |EncodeMany(EncodeDueEntity, front)|, es[|es| - 1]);
    ParsedLast(DueEntityAt(reg, data, 2), 6, |es|);
  }

  lemma ManyLast<T>(encode: T -> Bytes, xs: seq<T>)
    requires xs != []
    ensures EncodeMany(encode, xs) == EncodeMany(encode, xs[..|xs| - 1]) + encode(xs[|xs| - 1])
  {
  }

  lemma ParsedLast<T>(one: nat -> Option<Parsed<T>>, pos: nat, n: nat)
    requires n > 0 && ParseMany(one, pos, n - 1).Some? && one(ParseMany(one, pos, n - 1).value.pos).Some?
    ensures ParseMany(one, pos, n).Some?
      && ParseMany(one, pos, n).value.pos == one(ParseMany(one, pos, n - 1).value.pos).value.pos
  {
  }

  /** A delta about one entity is accepted, and then arrives whole, if and only if the entity has fewer than 256 due
      components; otherwise nothing arrives. */
  lemma OneArrivesIff(reg: Registry, e: DueEntity)
    requires DueEntityOk(reg, e)
    ensures ValidPacket(reg, Delta, EncodeDelta(Carried([e]))) <==> |e.comps| < 256
    ensures Arriving(reg, [e]) == if |e.comps| < 256 then [e] else []
  {
    hide DueEntityOk, EncodeDelta, ParseDelta, Carried, ValidPacket;
    if |e.comps| < 256 {
      ArrivesIff(reg, [e]);
      assert Arriving(reg, [e]) != [];
    } else {
      LastOverflows(reg, [e]);
      CarriedAre([e]);
      if Counted(e) {
        assert [e][..0] == [];
        OneCarried(e);
        Refused(reg, [e]);
      } else {
        if Carried([e]) != [] { assert Carried([e])[0] in Carried([e]); }
        NothingPacked(reg);
      }
    }
  }

  lemma OneCarried(e: DueEntity)
    requires Counted(e)
    ensures Carried([e]) == [e]
  {
    CarriedAll([e]);
  }
}
