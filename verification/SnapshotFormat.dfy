/** The snapshot byte format: writing records and parsing them back, with every check the loader makes. */
module SnapshotFormat {
  import opened Base
  import opened Schema
  import opened Operations
  import opened Wire
  import opened Buffers

  const SNAPSHOT_VERSION: nat := 1

  /** One component of one entity, as the fields its mask selects, and one entity. A snapshot has no masks: an
      empty one selects every field. */
  datatype Part = Part(t: TypeId, mask: seq<bool>, block: Bytes)
  datatype Record = Record(id: Entity, parts: seq<Part>)

  // ------------------------------------------------------------------ writing

  function Word(v: int): nat {
    if v >= 0 then v else 0
  }

  function EncodePart(p: Part): Bytes {
    LE(Word(p.t), 4) + p.block
  }

  function EncodeParts(ps: seq<Part>): Bytes {
    if ps == [] then [] else EncodeParts(ps[..|ps| - 1]) + EncodePart(ps[|ps| - 1])
  }

  /** Counts are cut to their wire width. */
  function EncodeRecord(r: Record): Bytes {
    LE(Word(r.id), 8) + LE(|r.parts|, 2) + EncodeParts(r.parts)
  }

  function EncodeRecords(rs: seq<Record>): Bytes {
    if rs == [] then [] else EncodeRecords(rs[..|rs| - 1]) + EncodeRecord(rs[|rs| - 1])
  }

  function Encode(rs: seq<Record>, count: nat): Bytes {
    LE(SNAPSHOT_VERSION, 2) + LE(count, 4) + EncodeRecords(rs)
  }

  // ------------------------------------------------------------------ parsing

  datatype Parsed<T> = Parsed(value: T, pos: nat)

  function ReadInt(data: Bytes, pos: nat, n: nat): Option<Parsed<nat>> {
    match ReadAt(data, pos, n)
    case None => None
    case Some(b) => Some(Parsed(FromLE(b), pos + n))
  }

  function ParsePart(reg: Registry, data: Bytes, pos: nat): Option<Parsed<Part>> {
    match ReadInt(data, pos, 4)
    case None => None
    case Some(t) =>
      if !Registered(reg, t.value) then None else
        match ReadAt(data, t.pos, BlockSize(SchemaOf(reg, t.value), []))
        case None => None
        case Some(b) => Some(Parsed(Part(t.value, [], b), t.pos + |b|))
  }

  function ParseParts(reg: Registry, data: Bytes, pos: nat, n: nat): Option<Parsed<seq<Part>>> {
    if n == 0 then Some(Parsed([], pos)) else
      match ParseParts(reg, data, pos, n - 1)
      case None => None
      case Some(front) =>
        match ParsePart(reg, data, front.pos)
        case None => None
        case Some(p) => Some(Parsed(front.value + [p.value], p.pos))
  }

  /** An id the world would refuse is malformed. */
  function ParseRecord(reg: Registry, data: Bytes, pos: nat): Option<Parsed<Record>> {
    match ReadInt(data, pos, 8)
    case None => None
    case Some(id) =>
      if !AcceptsForeign(id.value) then None else
        match ReadInt(data, id.pos, 2)
        case None => None
        case Some(n) =>
          match ParseParts(reg, data, n.pos, n.value)
          case None => None
          case Some(ps) => Some(Parsed(Record(id.value, ps.value), ps.pos))
  }

  predicate HasId(rs: seq<Record>, id: Entity) {
    exists i :: 0 <= i < |rs| && rs[i].id == id
  }

  /** No id may come twice. */
  function ParseRecords(reg: Registry, data: Bytes, pos: nat, n: nat): Option<Parsed<seq<Record>>> {
    if n == 0 then Some(Parsed([], pos)) else
      match ParseRecords(reg, data, pos, n - 1)
      case None => None
      case Some(front) =>
        match ParseRecord(reg, data, front.pos)
        case None => None
        case Some(r) => if HasId(front.value, r.value.id) then None else Some(Parsed(front.value + [r.value], r.pos))
  }

  function ParseHeader(data: Bytes, pos: nat): Option<Parsed<nat>> {
    match ReadInt(data, pos, 2)
    case None => None
    case Some(version) => if version.value != SNAPSHOT_VERSION then None else ReadInt(data, version.pos, 4)
  }

  /** The records of a snapshot, or nothing when any check fails. Bytes behind the last record are not looked at. */
  function Parse(reg: Registry, data: Bytes, pos: nat): Option<Parsed<seq<Record>>> {
    match ParseHeader(data, pos)
    case None => None
    case Some(count) => ParseRecords(reg, data, count.pos, count.value)
  }

  // ------------------------------------------------------------------ once a check fails, the whole fails

  lemma {:induction false} PartsFail(reg: Registry, data: Bytes, pos: nat, m: nat, n: nat)
    requires m <= n && ParseParts(reg, data, pos, m).None?
    ensures ParseParts(reg, data, pos, n).None?
  {
    if m < n { PartsFail(reg, data, pos, m, n - 1); }
  }

  lemma {:induction false} RecordsFail(reg: Registry, data: Bytes, pos: nat, m: nat, n: nat)
    requires m <= n && ParseRecords(reg, data, pos, m).None?
    ensures ParseRecords(reg, data, pos, n).None?
  {
    if m < n { RecordsFail(reg, data, pos, m, n - 1); }
  }

  // ------------------------------------------------------------------ what parsing yields

  ghost predicate PartOk(reg: Registry, p: Part) {
    Registered(reg, p.t) && p.t < U32_LIMIT && p.mask == [] && |p.block| == BlockSize(SchemaOf(reg, p.t), [])
  }

  ghost predicate RecordOk(reg: Registry, r: Record) {
    IsHandle(r.id) && AcceptsForeign(r.id) && |r.parts| < U16_LIMIT
      && forall i :: 0 <= i < |r.parts| ==> PartOk(reg, r.parts[i])
  }

  ghost predicate RecordsOk(reg: Registry, rs: seq<Record>) {
    (forall i :: 0 <= i < |rs| ==> RecordOk(reg, rs[i])) && forall i, j :: 0 <= i < j < |rs| ==> rs[i].id != rs[j].id
  }

  lemma {:induction false} ParsedParts(reg: Registry, data: Bytes, pos: nat, n: nat)
    requires ParseParts(reg, data, pos, n).Some?
    ensures var ps := ParseParts(reg, data, pos, n).value.value;
      |ps| == n && forall i :: 0 <= i < n ==> PartOk(reg, ps[i])
  {
    Widths();
    if n > 0 { ParsedParts(reg, data, pos, n - 1); }
  }

  lemma ParsedRecord(reg: Registry, data: Bytes, pos: nat)
    requires ParseRecord(reg, data, pos).Some?
    ensures RecordOk(reg, ParseRecord(reg, data, pos).value.value)
  {
    hide ParseParts, FromLE, AcceptsForeign, PartOk;
    Widths();
    var id := ReadInt(data, pos, 8).value;
    var n := ReadInt(data, id.pos, 2).value;
    ParsedParts(reg, data, n.pos, n.value);
  }

  /** Parsed records are well formed, and no id comes twice. */
  lemma {:induction false} ParsedRecords(reg: Registry, data: Bytes, pos: nat, n: nat)
    requires ParseRecords(reg, data, pos, n).Some?
    ensures RecordsOk(reg, ParseRecords(reg, data, pos, n).value.value)
      && |ParseRecords(reg, data, pos, n).value.value| == n
  {
    hide ParseRecord, RecordOk;
    if n > 0 {
      ParsedRecords(reg, data, pos, n - 1);
      ParsedRecord(reg, data, ParseRecords(reg, data, pos, n - 1).value.pos);
    }
  }

  // ------------------------------------------------------------------ parsing what was written

  /** Bytes of a text at a position. */
  ghost predicate At(data: Bytes, pos: nat, b: Bytes) {
    pos + |b| <= |data| && data[pos..pos + |b|] == b
  }

  lemma AtParts(data: Bytes, pos: nat, a: Bytes, b: Bytes)
    requires At(data, pos, a + b)
    ensures At(data, pos, a) && At(data, pos + |a|, b)
  {
    assert data[pos..pos + |a|] == (a + b)[..|a|] == a;
    assert data[pos + |a|..pos + |a| + |b|] == (a + b)[|a|..] == b;
  }

  lemma ReadIntAt(data: Bytes, pos: nat, v: nat, n: nat)
    requires At(data, pos, LE(v, n)) && v < Pow256(n)
    ensures ReadInt(data, pos, n) == Some(Parsed(v, pos + n))
  {
    LittleEndian(v, n);
  }

  lemma PartBack(reg: Registry, data: Bytes, pos: nat, p: Part)
    requires PartOk(reg, p) && At(data, pos, EncodePart(p))
    ensures ParsePart(reg, data, pos) == Some(Parsed(p, pos + |EncodePart(p)|))
  {
    hide LE, FromLE, BlockSize;
    Widths();
    AtParts(data, pos, LE(p.t, 4), p.block);
    ReadIntAt(data, pos, p.t, 4);
  }

  lemma {:induction false} PartsBack(reg: Registry, data: Bytes, pos: nat, ps: seq<Part>)
    requires (forall i :: 0 <= i < |ps| ==> PartOk(reg, ps[i])) && At(data, pos, EncodeParts(ps))
    ensures ParseParts(reg, data, pos, |ps|) == Some(Parsed(ps, pos + |EncodeParts(ps)|))
  {
    hide PartOk, EncodePart, ParsePart;
    if ps != [] {
      var front, p := ps[..|ps| - 1], ps[|ps| - 1];
      AtParts(data, pos, EncodeParts(front), EncodePart(p));
      PartsBack(reg, data, pos, front);
      PartBack(reg, data, pos + |EncodeParts(front)|, p);
      assert ps == front + [p];
    }
  }

  lemma RecordBack(reg: Registry, data: Bytes, pos: nat, r: Record)
    requires RecordOk(reg, r) && At(data, pos, EncodeRecord(r))
    ensures ParseRecord(reg, data, pos) == Some(Parsed(r, pos + |EncodeRecord(r)|))
  {
    hide LE, FromLE, ParseParts, PartOk, AcceptsForeign;
    assert forall i :: 0 <= i < |r.parts| ==> PartOk(reg, r.parts[i]);
    Widths();
    AtParts(data, pos, LE(r.id, 8) + LE(|r.parts|, 2), EncodeParts(r.parts));
    AtParts(data, pos, LE(r.id, 8), LE(|r.parts|, 2));
    ReadIntAt(data, pos, r.id, 8);
    ReadIntAt(data, pos + 8, |r.parts|, 2);
    PartsBack(reg, data, pos + 10, r.parts);
  }

  lemma {:induction false} RecordsBack(reg: Registry, data: Bytes, pos: nat, rs: seq<Record>)
    requires RecordsOk(reg, rs) && At(data, pos, EncodeRecords(rs))
    ensures ParseRecords(reg, data, pos, |rs|) == Some(Parsed(rs, pos + |EncodeRecords(rs)|))
  {
    hide RecordOk, ParseRecord, EncodeRecord;
    if rs != [] {
      var front, r := rs[..|rs| - 1], rs[|rs| - 1];
      AtParts(data, pos, EncodeRecords(front), EncodeRecord(r));
      RecordsBack(reg, data, pos, front);
      RecordBack(reg, data, pos + |EncodeRecords(front)|, r);
      assert rs == front + [r];
    }
  }

  /** Parsing an encoded snapshot returns its records. */
  lemma ParseEncode(reg: Registry, rs: seq<Record>)
    requires RecordsOk(reg, rs) && |rs| < U32_LIMIT
    ensures Parse(reg, Encode(rs, |rs|), 0) == Some(Parsed(rs, |Encode(rs, |rs|)|))
  {
    EncodedParses(reg, Encode(rs, |rs|), rs);
  }

  // ------------------------------------------------------------------ nothing else parses

  lemma ReadIntBytes(data: Bytes, pos: nat, n: nat)
    requires ReadInt(data, pos, n).Some?
    ensures var p := ReadInt(data, pos, n).value; p.pos == pos + n <= |data| && data[pos..p.pos] == LE(p.value, n)
  {
    Buffers.SameBytes(data[pos..pos + n]);
  }

  lemma Joined(data: Bytes, a: nat, b: nat, c: nat)
    requires a <= b <= c <= |data|
    ensures data[a..c] == data[a..b] + data[b..c]
  {
  }

  lemma PartBytes(reg: Registry, data: Bytes, pos: nat)
    requires ParsePart(reg, data, pos).Some?
    ensures var p := ParsePart(reg, data, pos).value; pos <= p.pos <= |data| && data[pos..p.pos] == EncodePart(p.value)
  {
    hide LE, FromLE, BlockSize;
    ReadIntBytes(data, pos, 4);
    Joined(data, pos, pos + 4, ParsePart(reg, data, pos).value.pos);
  }

  lemma {:induction false} PartsBytes(reg: Registry, data: Bytes, pos: nat, n: nat)
    requires ParseParts(reg, data, pos, n).Some? && pos <= |data|
    ensures var p := ParseParts(reg, data, pos, n).value;
      pos <= p.pos <= |data| && data[pos..p.pos] == EncodeParts(p.value)
  {
    hide ParsePart, EncodePart;
    if n > 0 {
      var front := ParseParts(reg, data, pos, n - 1).value;
      PartsBytes(reg, data, pos, n - 1);
      PartBytes(reg, data, front.pos);
      var all := ParseParts(reg, data, pos, n).value;
      Joined(data, pos, front.pos, all.pos);
      assert all.value[..|all.value| - 1] == front.value;
    }
  }

  lemma RecordBytes(reg: Registry, data: Bytes, pos: nat)
    requires ParseRecord(reg, data, pos).Some?
    ensures var p := ParseRecord(reg, data, pos).value;
      pos <= p.pos <= |data| && data[pos..p.pos] == EncodeRecord(p.value)
  {
    hide LE, FromLE, ParseParts, EncodeParts, AcceptsForeign;
    var n := ReadInt(data, pos + 8, 2).value;
    ReadIntBytes(data, pos, 8);
    ReadIntBytes(data, pos + 8, 2);
    PartsBytes(reg, data, pos + 10, n.value);
    PartsCount(reg, data, pos + 10, n.value);
    var all := ParseRecord(reg, data, pos).value;
    Joined(data, pos, pos + 8, pos + 10);
    Joined(data, pos, pos + 10, all.pos);
  }

  lemma PartsCount(reg: Registry, data: Bytes, pos: nat, n: nat)
    requires ParseParts(reg, data, pos, n).Some?
    ensures |ParseParts(reg, data, pos, n).value.value| == n
  {
    ParsedParts(reg, data, pos, n);
  }

  lemma {:induction false} RecordsBytes(reg: Registry, data: Bytes, pos: nat, n: nat)
    requires ParseRecords(reg, data, pos, n).Some? && pos <= |data|
    ensures var p := ParseRecords(reg, data, pos, n).value;
      pos <= p.pos <= |data| && data[pos..p.pos] == EncodeRecords(p.value)
  {
    hide ParseRecord, EncodeRecord, HasId;
    if n > 0 {
      var front := ParseRecords(reg, data, pos, n - 1).value;
      RecordsBytes(reg, data, pos, n - 1);
      RecordBytes(reg, data, front.pos);
      var all := ParseRecords(reg, data, pos, n).value;
      Joined(data, pos, front.pos, all.pos);
      assert all.value[..|all.value| - 1] == front.value;
    }
  }

  /** What is accepted is, byte for byte, what writing the accepted records gives. */
  lemma ParsedBytes(reg: Registry, data: Bytes, pos: nat)
    requires Parse(reg, data, pos).Some?
    ensures var p := Parse(reg, data, pos).value;
      && RecordsOk(reg, p.value) && |p.value| < U32_LIMIT
      && pos <= p.pos <= |data| && data[pos..p.pos] == Encode(p.value, |p.value|)
  {
    hide LE, FromLE, ParseRecords, EncodeRecords, RecordsOk;
    Widths();
    ReadIntBytes(data, pos, 2);
    ReadIntBytes(data, pos + 2, 4);
    var n := ReadInt(data, pos + 2, 4).value.value;
    ParsedRecords(reg, data, pos + 6, n);
    RecordsBytes(reg, data, pos + 6, n);
    var all := Parse(reg, data, pos).value;
    Joined(data, pos, pos + 2, pos + 6);
    Joined(data, pos, pos + 6, all.pos);
  }

  /** A buffer is accepted if and only if it starts with an encoding of well-formed records. */
  lemma AcceptedIff(reg: Registry, data: Bytes)
    ensures Parse(reg, data, 0).Some? <==>
      exists rs :: RecordsOk(reg, rs) && |rs| < U32_LIMIT && Encode(rs, |rs|) <= data
  {
    hide Encode, RecordsOk;
    if Parse(reg, data, 0).Some? {
      ParsedBytes(reg, data, 0);
      var rs := Parse(reg, data, 0).value.value;
      assert Encode(rs, |rs|) <= data;
    }
    if rs :| RecordsOk(reg, rs) && |rs| < U32_LIMIT && Encode(rs, |rs|) <= data {
      EncodedParses(reg, data, rs);
    }
  }

  /** Whatever follows it, an encoding parses to its records. */
  lemma EncodedParses(reg: Registry, data: Bytes, rs: seq<Record>)
    requires RecordsOk(reg, rs) && |rs| < U32_LIMIT && Encode(rs, |rs|) <= data
    ensures Parse(reg, data, 0) == Some(Parsed(rs, |Encode(rs, |rs|)|))
  {
    hide LE, FromLE, ParseRecords, RecordsOk;
    Widths();
    AtParts(data, 0, LE(SNAPSHOT_VERSION, 2) + LE(|rs|, 4), EncodeRecords(rs));
    AtParts(data, 0, LE(SNAPSHOT_VERSION, 2), LE(|rs|, 4));
    ReadIntAt(data, 0, SNAPSHOT_VERSION, 2);
    ReadIntAt(data, 2, |rs|, 4);
    RecordsBack(reg, data, 6, rs);
  }

  /** A snapshot of version 1: two bytes of version, four of count, both least significant first. */
  lemma Header(rs: seq<Record>, count: nat)
    requires count < U32_LIMIT
    ensures |Encode(rs, count)| >= 6 && Encode(rs, count)[..2] == [1, 0]
    ensures Encode(rs, count)[2..6] ==
      [count % 0x100, count / 0x100 % 0x100, count / 0x1_0000 % 0x100, count / 0x100_0000]
  {
    assert LE(1, 2) == [1] + LE(0, 1) && LE(0, 1) == [0] + LE(0, 0);
    Widths();
    assert Pow256(3) == 0x100_0000 && Pow256(0) == 1;
    forall k: nat | k < 4 ensures Encode(rs, count)[2 + k] == count / Pow256(k) % 256 { LowByteFirst(count, 4, k); }
  }
}
