/** The validator every received packet passes before anything is applied: it only moves a cursor. */
module PacketChecks {
  import opened Base
  import opened Schema
  import opened Wire
  import opened Buffers
  import opened Serializer
  import opened SnapshotFormat
  import opened SnapshotLoad
  import opened SyncPlan
  import opened Packets

  method SkipBlock(s: Schema, mask: seq<bool>, buf: BinaryBuffer) returns (ok: bool)
    modifies buf`pos
    ensures ok <==> ParseBlock(s, buf.data, old(buf.pos), mask).Some?
    ensures ok ==> ParseBlock(s, buf.data, old(buf.pos), mask).value.pos == buf.pos
  {
    hide BlockSize;
    var size := ComponentSize(s, mask);
    ok := buf.pos + size <= |buf.data|;
    if ok {
      buf.Seek(buf.pos + size);
    }
  }

  method NextMask(n: nat, buf: BinaryBuffer) returns (ok: bool, mask: seq<bool>)
    modifies buf`pos
    ensures ok <==> ParseMask(buf.data, old(buf.pos), n).Some?
    ensures ok ==> ParseMask(buf.data, old(buf.pos), n) == Some(Parsed(mask, buf.pos))
  {
    hide DecodeMask;
    if buf.pos > |buf.data| {
      return false, [];
    }
    ok, mask := GetMask(buf, n);
  }

  /** `consume_component`, after its type id. */
  method SkipComp(reg: Registry, version: nat, buf: BinaryBuffer) returns (ok: bool)
    modifies buf`pos
    ensures ok <==> ParseComp(reg, buf.data, version, old(buf.pos)).Some?
    ensures ok ==> ParseComp(reg, buf.data, version, old(buf.pos)).value.pos == buf.pos
  {
    hide ReadInt, ParseMask, ParseBlock;
    var t;
    ok, t := ReadNumber(buf, 4);
    if !ok || !Registered(reg, t) {
      return false;
    }
    var mask: seq<bool> := [];
    if version != 1 {
      ok, mask := NextMask(|SchemaOf(reg, t).fields|, buf);
      if !ok {
        return;
      }
    }
    ok := SkipBlock(SchemaOf(reg, t), mask, buf);
  }

  method SkipComps(reg: Registry, version: nat, buf: BinaryBuffer, n: nat) returns (ok: bool)
    modifies buf`pos
    ensures ok <==> ParseMany(CompAt(reg, buf.data, version), old(buf.pos), n).Some?
    ensures ok ==> ParseMany(CompAt(reg, buf.data, version), old(buf.pos), n).value.pos == buf.pos
  {
    hide ParseComp;
    ghost var one, start := CompAt(reg, buf.data, version), buf.pos;
    for j := 0 to n
      invariant ParseMany(one, start, j).Some? && ParseMany(one, start, j).value.pos == buf.pos
    {
      ok := SkipComp(reg, version, buf);
      if !ok {
        ManyFail(one, start, j + 1, n);
        return;
      }
    }
    ok := true;
  }

  method SkipEntity(reg: Registry, version: nat, buf: BinaryBuffer) returns (ok: bool)
    modifies buf`pos
    ensures ok <==> ParseEntity(reg, buf.data, version, old(buf.pos)).Some?
    ensures ok ==> ParseEntity(reg, buf.data, version, old(buf.pos)).value.pos == buf.pos
  {
    hide ReadInt, ParseMany;
    var id, n;
    ok, id := ReadNumber(buf, 8);
    if ok {
      ok, n := ReadNumber(buf, 2);
    }
    if ok {
      ok := SkipComps(reg, version, buf, n);
    }
  }

  method SkipDue(s: Schema, buf: BinaryBuffer) returns (ok: bool)
    modifies buf`pos
    ensures ok <==> ParseDue(s, buf.data, old(buf.pos)).Some?
    ensures ok ==> ParseDue(s, buf.data, old(buf.pos)).value.pos == buf.pos
  {
    hide ReadInt, ParseMask, ParseBlock;
    var bucket, mask;
    ok, bucket := ReadNumber(buf, 1);
    if ok {
      ok, mask := NextMask(|s.fields|, buf);
    }
    if ok {
      ok := SkipBlock(s, mask, buf);
    }
  }

  method SkipDues(s: Schema, buf: BinaryBuffer, n: nat) returns (ok: bool)
    modifies buf`pos
    ensures ok <==> ParseMany(DueAt(s, buf.data), old(buf.pos), n).Some?
    ensures ok ==> ParseMany(DueAt(s, buf.data), old(buf.pos), n).value.pos == buf.pos
  {
    hide ParseDue;
    ghost var one, start := DueAt(s, buf.data), buf.pos;
    for j := 0 to n
      invariant ParseMany(one, start, j).Some? && ParseMany(one, start, j).value.pos == buf.pos
    {
      ok := SkipDue(s, buf);
      if !ok {
        ManyFail(one, start, j + 1, n);
        return;
      }
    }
    ok := true;
  }

  /** `consume_component` or `consume_delta_component_v2`, after the type id. */
  method SkipDueComp(reg: Registry, version: nat, buf: BinaryBuffer) returns (ok: bool)
    modifies buf`pos
    ensures ok <==> ParseDueComp(reg, buf.data, version, old(buf.pos)).Some?
    ensures ok ==> ParseDueComp(reg, buf.data, version, old(buf.pos)).value.pos == buf.pos
  {
    hide ReadInt, ParseMany, ParseBlock;
    var t, n;
    ok, t := ReadNumber(buf, 4);
    if !ok || !Registered(reg, t) {
      return false;
    }
    if version == 1 {
      ok := SkipBlock(SchemaOf(reg, t), [], buf);
    } else {
      ok, n := ReadNumber(buf, 1);
      if ok {
        ok := SkipDues(SchemaOf(reg, t), buf, n);
      }
    }
  }

  method SkipDueComps(reg: Registry, version: nat, buf: BinaryBuffer, n: nat) returns (ok: bool)
    modifies buf`pos
    ensures ok <==> ParseMany(DueCompAt(reg, buf.data, version), old(buf.pos), n).Some?
    ensures ok ==> ParseMany(DueCompAt(reg, buf.data, version), old(buf.pos), n).value.pos == buf.pos
  {
    hide ParseDueComp;
    ghost var one, start := DueCompAt(reg, buf.data, version), buf.pos;
    for j := 0 to n
      invariant ParseMany(one, start, j).Some? && ParseMany(one, start, j).value.pos == buf.pos
    {
      ok := SkipDueComp(reg, version, buf);
      if !ok {
        ManyFail(one, start, j + 1, n);
        return;
      }
    }
    ok := true;
  }

  method SkipDueEntity(reg: Registry, version: nat, buf: BinaryBuffer) returns (ok: bool)
    modifies buf`pos
    ensures ok <==> ParseDueEntity(reg, buf.data, version, old(buf.pos)).Some?
    ensures ok ==> ParseDueEntity(reg, buf.data, version, old(buf.pos)).value.pos == buf.pos
  {
    hide ReadInt, ParseMany;
    var id, n;
    ok, id := ReadNumber(buf, 8);
    if ok {
      ok, n := ReadNumber(buf, 1);
    }
    if ok {
      ok := SkipDueComps(reg, version, buf, n);
    }
  }

  /** The entities of a delta (small component counts) or of a full state. */
  method SkipEntities(reg: Registry, version: nat, delta: bool, buf: BinaryBuffer, n: nat) returns (ok: bool)
    modifies buf`pos
    ensures delta ==> (ok <==> ParseMany(DueEntityAt(reg, buf.data, version), old(buf.pos), n).Some?)
    ensures delta && ok ==> ParseMany(DueEntityAt(reg, buf.data, version), old(buf.pos), n).value.pos == buf.pos
    ensures !delta ==> (ok <==> ParseMany(EntityAt(reg, buf.data, version), old(buf.pos), n).Some?)
    ensures !delta && ok ==> ParseMany(EntityAt(reg, buf.data, version), old(buf.pos), n).value.pos == buf.pos
  {
    hide ParseEntity, ParseDueEntity;
    ghost var due, full, start := DueEntityAt(reg, buf.data, version), EntityAt(reg, buf.data, version), buf.pos;
    for i := 0 to n
      invariant delta ==> ParseMany(due, start, i).Some? && ParseMany(due, start, i).value.pos == buf.pos
      invariant !delta ==> ParseMany(full, start, i).Some? && ParseMany(full, start, i).value.pos == buf.pos
    {
      if delta {
        ok := SkipDueEntity(reg, version, buf);
      } else {
        ok := SkipEntity(reg, version, buf);
      }
      if !ok {
        if delta { ManyFail(due, start, i + 1, n); } else { ManyFail(full, start, i + 1, n); }
        return;
      }
    }
    ok := true;
  }

  method CheckVersion(buf: BinaryBuffer) returns (ok: bool, version: nat)
    requires buf.pos == 0
    modifies buf`pos
    ensures ok <==> ParseVersion(buf.data).Some?
    ensures ok ==> ParseVersion(buf.data) == Some(Parsed(version, buf.pos))
  {
    hide ReadInt;
    ok, version := ReadNumber(buf, 2);
    ok := ok && SYNC_VERSION_MIN <= version <= SYNC_VERSION;
  }

  /** `validate_packet`: accepts exactly the packets that parse to their last byte. */
  method ValidatePacket(reg: Registry, kind: Kind, data: Bytes) returns (ok: bool)
    ensures ok <==> ValidPacket(reg, kind, data)
  {
    hide ReadInt, ParseMany, ParseEntity, ParseVersion;
    var buf := new BinaryBuffer.Over(data, 0);
    if kind.Despawn? {
      var got, b := buf.ReadBytes(8);
      return got && buf.pos == |data|;
    }
    var version, n;
    ok, version := CheckVersion(buf);
    if !ok {
      return;
    }
    if kind.Spawn? {
      ok := SkipEntity(reg, version, buf);
    } else {
      ok, n := ReadNumber(buf, 4);
      if ok {
        ok := SkipEntities(reg, version, kind.Delta?, buf, n);
      }
    }
    ok := ok && buf.pos == |data|;
  }
}
