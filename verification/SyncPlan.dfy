/** Which fields of a component cross the wire, and how often. */
module SyncPlan {
  import opened Base
  import opened Schema
  import opened Wire
  import opened Buffers

  /** Seconds between sends of a tier; negative for tiers that never ride in deltas. */
  function PriorityInterval(p: Priority): real {
    match p
    case Realtime => 0.0
    case High => 0.05
    case Medium => 0.1
    case Low => 0.5
    case SpawnOnly => -1.0
    case Local => -1.0
  }

  predicate OnWire(f: Field) {
    f.networked && !f.priority.Local?
  }

  predicate InDeltas(f: Field) {
    OnWire(f) && !f.priority.SpawnOnly?
  }

  predicate IsNetworked(s: Schema) {
    s.networked && exists i :: 0 <= i < |s.fields| && !s.fields[i].priority.Local?
  }

  /** The fields a spawn carries, and one mask per distinct delta interval, fastest first. */
  datatype Plan = Plan(spawnMask: seq<bool>, intervals: seq<real>, masks: seq<seq<bool>>)

  ghost predicate MaskOf(fields: seq<Field>, mask: seq<bool>, chosen: Field -> bool) {
    |mask| == |fields| && forall i :: 0 <= i < |fields| ==> (mask[i] <==> chosen(fields[i]))
  }

  predicate InBucket(f: Field, interval: real) {
    OnWire(f) && PriorityInterval(f.priority) == interval
  }

  ghost predicate UsedInterval(fields: seq<Field>, n: nat, interval: real) {
    interval >= 0.0 && exists i :: 0 <= i < n && i < |fields| && InBucket(fields[i], interval)
  }

  ghost predicate PlanFor(fields: seq<Field>, plan: Plan) {
    && MaskOf(fields, plan.spawnMask, f => OnWire(f))
    && (forall a, b :: 0 <= a < b < |plan.intervals| ==> plan.intervals[a] < plan.intervals[b])
    && (forall iv :: iv in plan.intervals <==> UsedInterval(fields, |fields|, iv))
    && |plan.masks| == |plan.intervals|
    && forall b :: 0 <= b < |plan.masks| ==> MaskOf(fields, plan.masks[b], f => InBucket(f, plan.intervals[b]))
  }

  method DistinctIntervals(fields: seq<Field>) returns (spawnMask: seq<bool>, intervals: seq<real>)
    ensures MaskOf(fields, spawnMask, f => OnWire(f)) && NoDup(intervals)
      && forall iv :: iv in intervals <==> UsedInterval(fields, |fields|, iv)
  {
    spawnMask, intervals := [], [];
    for i := 0 to |fields|
      invariant |spawnMask| == i && forall k :: 0 <= k < i ==> (spawnMask[k] <==> OnWire(fields[k]))
      invariant NoDup(intervals) && forall iv :: iv in intervals <==> UsedInterval(fields, i, iv)
    {
      var net := OnWire(fields[i]);
      var iv := if net then PriorityInterval(fields[i].priority) else -1.0;
      spawnMask := spawnMask + [net];
      forall x ensures UsedInterval(fields, i + 1, x) <==> UsedInterval(fields, i, x) || (x == iv && iv >= 0.0) {
        UsedMore(fields, i, x);
      }
      if iv >= 0.0 && iv !in intervals {
        intervals := intervals + [iv];
      }
    }
  }

  lemma UsedMore(fields: seq<Field>, i: nat, x: real)
    requires i < |fields|
    ensures UsedInterval(fields, i + 1, x) <==> UsedInterval(fields, i, x) || (x >= 0.0 && InBucket(fields[i], x))
  {
  }

  /** `std::sort` on distinct intervals. */
  method SortIntervals(intervals: seq<real>) returns (r: seq<real>)
    requires NoDup(intervals)
    ensures (forall a, b :: 0 <= a < b < |r| ==> r[a] < r[b]) && forall iv :: iv in r <==> iv in intervals
  {
    r := [];
    for k := 0 to |intervals|
      invariant (forall a, b :: 0 <= a < b < |r| ==> r[a] < r[b]) && forall iv :: iv in r <==> iv in intervals[..k]
    {
      var x := intervals[k];
      assert x !in intervals[..k] && intervals[..k + 1] == intervals[..k] + [x];
      var i := 0;
      while i < |r| && r[i] < x
        invariant i <= |r| && forall j :: 0 <= j < i ==> r[j] < x
      {
        i := i + 1;
      }
      assert r == r[..i] + r[i..] && (i < |r| ==> r[i] in r);
      r := r[..i] + [x] + r[i..];
    }
    assert intervals[..|intervals|] == intervals;
  }

  method BucketMask(fields: seq<Field>, interval: real) returns (mask: seq<bool>)
    ensures MaskOf(fields, mask, f => InBucket(f, interval))
  {
    mask := [];
    for i := 0 to |fields|
      invariant |mask| == i && forall k :: 0 <= k < i ==> (mask[k] <==> InBucket(fields[k], interval))
    {
      mask := mask + [OnWire(fields[i]) && PriorityInterval(fields[i].priority) == interval];
    }
  }

  method SyncPlanFor(fields: seq<Field>) returns (plan: Plan)
    ensures PlanFor(fields, plan)
  {
    hide MaskOf, UsedInterval;
    var spawnMask, distinct := DistinctIntervals(fields);
    var intervals := SortIntervals(distinct);
    var masks: seq<seq<bool>> := [];
    for b := 0 to |intervals|
      invariant |masks| == b && forall k :: 0 <= k < b ==> MaskOf(fields, masks[k], f => InBucket(f, intervals[k]))
    {
      var mask := BucketMask(fields, intervals[b]);
      masks := masks + [mask];
    }
    plan := Plan(spawnMask, intervals, masks);
  }

  // ------------------------------------------------------------------ what every plan guarantees

  /** The bucket masks are pairwise disjoint, together cover exactly the networked fields of the delta tiers, and
      stay within the spawn mask. */
  lemma BucketsPartition(fields: seq<Field>, plan: Plan, i: nat)
    requires PlanFor(fields, plan) && i < |fields|
    ensures forall b :: 0 <= b < |plan.masks| ==>
      |plan.masks[b]| == |fields| && (plan.masks[b][i] ==> plan.spawnMask[i])
    ensures forall a, b :: 0 <= a < b < |plan.masks| ==> !(plan.masks[a][i] && plan.masks[b][i])
    ensures (exists b :: 0 <= b < |plan.masks| && plan.masks[b][i]) <==> InDeltas(fields[i])
    ensures |plan.spawnMask| == |fields| && (plan.spawnMask[i] <==> OnWire(fields[i]))
  {
    var f := fields[i];
    forall b | 0 <= b < |plan.masks|
      ensures |plan.masks[b]| == |fields| && (plan.masks[b][i] <==> InBucket(f, plan.intervals[b]))
        && plan.intervals[b] >= 0.0
    {
      assert MaskOf(fields, plan.masks[b], g => InBucket(g, plan.intervals[b]));
      assert plan.intervals[b] in plan.intervals;
    }
    if InDeltas(f) {
      assert UsedInterval(fields, |fields|, PriorityInterval(f.priority));
      var b :| 0 <= b < |plan.intervals| && plan.intervals[b] == PriorityInterval(f.priority);
      assert plan.masks[b][i];
    }
  }

  /** Both peers derive the same plan from the same schema. */
  lemma PlanUnique(fields: seq<Field>, p: Plan, q: Plan)
    requires PlanFor(fields, p) && PlanFor(fields, q)
    ensures p == q
  {
    AscendingReals(p.intervals, q.intervals);
    forall b | 0 <= b < |p.masks| ensures p.masks[b] == q.masks[b] {
      assert MaskOf(fields, p.masks[b], f => InBucket(f, p.intervals[b]))
        && MaskOf(fields, q.masks[b], f => InBucket(f, q.intervals[b]));
    }
    assert p.spawnMask == q.spawnMask;
  }

  lemma {:induction false} AscendingReals(a: seq<real>, b: seq<real>)
    requires (forall i, j :: 0 <= i < j < |a| ==> a[i] < a[j]) && forall i, j :: 0 <= i < j < |b| ==> b[i] < b[j]
    requires forall x :: x in a <==> x in b
    ensures a == b
  {
    assert (|a| > 0 ==> a[0] in a) && (|b| > 0 ==> b[0] in b);
    if |a| > 0 && |b| > 0 {
      assert a[0] in b && b[0] in a;
      assert a[0] == b[0];
      forall x ensures x in a[1..] <==> x in b[1..] {
        assert x in a[1..] <==> x in a && x != a[0];
        assert x in b[1..] <==> x in b && x != b[0];
      }
      AscendingReals(a[1..], b[1..]);
      assert a == [a[0]] + a[1..] && b == [b[0]] + b[1..];
    }
  }

  predicate Tier(x: real) {
    x == 0.0 || x == 0.05 || x == 0.1 || x == 0.5
  }

  lemma FourTiers(a: real, b: real, c: real, d: real)
    requires Tier(a) && Tier(b) && Tier(c) && Tier(d) && a < b < c < d
    ensures d == 0.5
  {
  }

  /** There are at most as many buckets as delta tiers. */
  lemma FewBuckets(fields: seq<Field>, plan: Plan)
    requires PlanFor(fields, plan)
    ensures |plan.intervals| <= 4
  {
    var iv := plan.intervals;
    forall b | 0 <= b < |iv| ensures Tier(iv[b]) {
      assert iv[b] in iv;
      assert UsedInterval(fields, |fields|, iv[b]);
    }
    assert |iv| > 4 ==> Tier(iv[4]) && iv[3] < iv[4];
    if |iv| >= 4 { FourTiers(iv[0], iv[1], iv[2], iv[3]); }
  }

  // ------------------------------------------------------------------ local fields never reach the wire

  ghost predicate SameOnWireFields(s: Schema, a: Bytes, b: Bytes)
    requires FieldsOk(s.fields, s.size) && |a| == s.size && |b| == s.size
  {
    forall i :: 0 <= i < |s.fields| && OnWire(s.fields[i]) ==>
      a[s.fields[i].offset..s.fields[i].offset + s.fields[i].byteSize] ==
        b[s.fields[i].offset..s.fields[i].offset + s.fields[i].byteSize]
  }

  lemma SameMemory(f: Field, a: Bytes, b: Bytes)
    requires FieldWidth(f) <= f.byteSize && f.offset + f.byteSize <= |a| && f.offset + f.byteSize <= |b|
    requires a[f.offset..f.offset + f.byteSize] == b[f.offset..f.offset + f.byteSize]
    ensures WriteField(f, a) == WriteField(f, b)
  {
    hide FieldWidth;
    assert a[f.offset..f.offset + FieldWidth(f)] == a[f.offset..f.offset + f.byteSize][..FieldWidth(f)];
    assert b[f.offset..f.offset + FieldWidth(f)] == b[f.offset..f.offset + f.byteSize][..FieldWidth(f)];
  }

  /** Components that differ only in local or non-networked fields write the same bytes under every mask of the plan. */
  lemma LocalStaysLocal(s: Schema, plan: Plan, mask: seq<bool>, a: Bytes, b: Bytes)
    requires FieldsOk(s.fields, s.size) && |a| == s.size && |b| == s.size && SameOnWireFields(s, a, b)
    requires PlanFor(s.fields, plan) && (mask == plan.spawnMask || mask in plan.masks)
    ensures Block(s, mask, a) == Block(s, mask, b)
  {
    hide WriteField, FieldWidth, PlanFor;
    forall i | 0 <= i < |s.fields| && Included(mask, i)
      ensures WriteField(s.fields[i], a) == WriteField(s.fields[i], b)
    {
      BucketsPartition(s.fields, plan, i);
      assert OnWire(s.fields[i]);
      SameMemory(s.fields[i], a, b);
    }
    SameWritten(s.fields, mask, a, b, |s.fields|);
  }

  // ------------------------------------------------------------------ masks on the wire

  function MaskBytes(n: nat): nat {
    (n + 7) / 8
  }

  function Bit(mask: seq<bool>, i: nat): int {
    if i < |mask| && mask[i] then 1 else 0
  }

  /** Bits 8b to 8b+7 of a mask, lowest first. */
  function MaskByte(mask: seq<bool>, b: nat): Byte {
    Bit(mask, 8 * b) + 2 * Bit(mask, 8 * b + 1) + 4 * Bit(mask, 8 * b + 2) + 8 * Bit(mask, 8 * b + 3)
    + 16 * Bit(mask, 8 * b + 4) + 32 * Bit(mask, 8 * b + 5) + 64 * Bit(mask, 8 * b + 6) + 128 * Bit(mask, 8 * b + 7)
  }

  function EncodeMask(mask: seq<bool>): (b: Bytes)
    ensures |b| == MaskBytes(|mask|)
  {
    seq(MaskBytes(|mask|), b requires 0 <= b < MaskBytes(|mask|) => MaskByte(mask, b))
  }

  function Weight(bit: nat): (w: nat)
    ensures w > 0
  {
    if bit == 0 then 1 else if bit == 1 then 2 else if bit == 2 then 4 else if bit == 3 then 8
    else if bit == 4 then 16 else if bit == 5 then 32 else if bit == 6 then 64 else 128
  }

  predicate BitSet(byte: Byte, bit: nat) {
    byte / Weight(bit) % 2 == 1
  }

  function DecodeMask(bytes: Bytes, n: nat): (mask: seq<bool>)
    requires |bytes| == MaskBytes(n)
    ensures |mask| == n
  {
    seq(n, i requires 0 <= i < n => BitSet(bytes[i / 8], i % 8))
  }

  /** Shifting eight bits right and keeping one. */
  lemma ShiftOut(a: int, b: int, c: int, d: int, e: int, f: int, g: int, h: int)
    requires 0 <= a <= 1 && 0 <= b <= 1 && 0 <= c <= 1 && 0 <= d <= 1 && 0 <= e <= 1 && 0 <= f <= 1 && 0 <= g <= 1
      && 0 <= h <= 1
    ensures var v := a + 2 * b + 4 * c + 8 * d + 16 * e + 32 * f + 64 * g + 128 * h;
      && v / 1 % 2 == a && v / 2 % 2 == b && v / 4 % 2 == c && v / 8 % 2 == d
      && v / 16 % 2 == e && v / 32 % 2 == f && v / 64 % 2 == g && v / 128 % 2 == h
  {
    var v := a + 2 * b + 4 * c + 8 * d + 16 * e + 32 * f + 64 * g + 128 * h;
    assert v / 2 == b + 2 * c + 4 * d + 8 * e + 16 * f + 32 * g + 64 * h;
    assert v / 4 == c + 2 * d + 4 * e + 8 * f + 16 * g + 32 * h;
    assert v / 8 == d + 2 * e + 4 * f + 8 * g + 16 * h;
    assert v / 16 == e + 2 * f + 4 * g + 8 * h;
    assert v / 32 == f + 2 * g + 4 * h;
    assert v / 64 == g + 2 * h;
    assert v / 128 == h;
  }

  lemma BitBack(mask: seq<bool>, b: nat, bit: nat)
    requires bit < 8
    ensures BitSet(MaskByte(mask, b), bit) <==> Bit(mask, 8 * b + bit) == 1
  {
    hide Bit;
    BitRange(mask, b);
    ShiftOut(Bit(mask, 8 * b), Bit(mask, 8 * b + 1), Bit(mask, 8 * b + 2), Bit(mask, 8 * b + 3),
             Bit(mask, 8 * b + 4), Bit(mask, 8 * b + 5), Bit(mask, 8 * b + 6), Bit(mask, 8 * b + 7));
  }

  lemma BitRange(mask: seq<bool>, b: nat)
    ensures forall i: nat :: 0 <= Bit(mask, i) <= 1
  {
  }

  /** A mask reads back bit for bit. */
  lemma MaskRoundTrip(mask: seq<bool>)
    ensures DecodeMask(EncodeMask(mask), |mask|) == mask
  {
    hide BitSet, MaskByte;
    forall i | 0 <= i < |mask| ensures DecodeMask(EncodeMask(mask), |mask|)[i] == mask[i] {
      assert i == 8 * (i / 8) + i % 8;
      BitBack(mask, i / 8, i % 8);
    }
  }

  /** Field i has bit i % 8 of byte i / 8, the lowest bit first; the bits behind the last field are 0. */
  lemma MaskBits(mask: seq<bool>, i: nat)
    requires i / 8 < (|mask| + 7) / 8
    ensures |EncodeMask(mask)| == (|mask| + 7) / 8
    ensures EncodeMask(mask)[i / 8] / [1, 2, 4, 8, 16, 32, 64, 128][i % 8] % 2 == 1 <==> i < |mask| && mask[i]
  {
    hide MaskByte;
    assert i == 8 * (i / 8) + i % 8;
    BitBack(mask, i / 8, i % 8);
  }

  /** `write_field_mask`. */
  method PutMask(mask: seq<bool>, buf: BinaryBuffer)
    modifies buf
    ensures buf.data == old(buf.data) + EncodeMask(mask) && buf.pos == old(buf.pos) + MaskBytes(|mask|)
  {
    hide MaskByte;
    for b := 0 to MaskBytes(|mask|)
      invariant buf.data == old(buf.data) + EncodeMask(mask)[..b] && buf.pos == old(buf.pos) + b
    {
      var bits := 0;
      for bit := 0 to 8
        invariant bits == PartialByte(mask, b, bit)
      {
        var i := b * 8 + bit;
        if i < |mask| && mask[i] {
          bits := bits + Weight(bit);
        }
      }
      WholeByte(mask, b);
      buf.WriteBytes([bits]);
      assert EncodeMask(mask)[..b + 1] == EncodeMask(mask)[..b] + [MaskByte(mask, b)];
    }
    assert EncodeMask(mask)[..MaskBytes(|mask|)] == EncodeMask(mask);
  }

  function PartialByte(mask: seq<bool>, b: nat, n: nat): int {
    if n == 0 then 0 else PartialByte(mask, b, n - 1) + Bit(mask, 8 * b + n - 1) * Weight(n - 1)
  }

  lemma WholeByte(mask: seq<bool>, b: nat)
    ensures PartialByte(mask, b, 8) == MaskByte(mask, b)
  {
    assert PartialByte(mask, b, 1) == Bit(mask, 8 * b);
    assert PartialByte(mask, b, 2) == PartialByte(mask, b, 1) + 2 * Bit(mask, 8 * b + 1);
    assert PartialByte(mask, b, 3) == PartialByte(mask, b, 2) + 4 * Bit(mask, 8 * b + 2);
    assert PartialByte(mask, b, 4) == PartialByte(mask, b, 3) + 8 * Bit(mask, 8 * b + 3);
    assert PartialByte(mask, b, 5) == PartialByte(mask, b, 4) + 16 * Bit(mask, 8 * b + 4);
    assert PartialByte(mask, b, 6) == PartialByte(mask, b, 5) + 32 * Bit(mask, 8 * b + 5);
    assert PartialByte(mask, b, 7) == PartialByte(mask, b, 6) + 64 * Bit(mask, 8 * b + 6);
  }

  /** `read_field_mask`. */
  method GetMask(buf: BinaryBuffer, n: nat) returns (ok: bool, mask: seq<bool>)
    requires buf.pos <= |buf.data|
    modifies buf`pos
    ensures buf.pos <= |buf.data| && (ok <==> old(buf.pos) + MaskBytes(n) <= |buf.data|)
    ensures ok ==>
      mask == DecodeMask(buf.data[old(buf.pos)..old(buf.pos) + MaskBytes(n)], n)
      && buf.pos == old(buf.pos) + MaskBytes(n)
  {
    hide BitSet;
    mask := [];
    ghost var start := buf.pos;
    for b := 0 to MaskBytes(n)
      invariant buf.pos == start + b && buf.pos <= |buf.data|
      invariant |mask| == (if 8 * b < n then 8 * b else n)
      invariant forall i :: 0 <= i < |mask| ==> (mask[i] <==> BitSet(buf.data[start + i / 8], i % 8))
    {
      var got, bits := buf.ReadBytes(1);
      if !got {
        return false, mask;
      }
      var bit := 0;
      while bit < 8
        invariant 0 <= bit <= 8 && |mask| == (if 8 * b + bit < n then 8 * b + bit else n)
        invariant forall i :: 0 <= i < |mask| ==> (mask[i] <==> BitSet(buf.data[start + i / 8], i % 8))
      {
        if 8 * b + bit < n {
          assert (8 * b + bit) / 8 == b && (8 * b + bit) % 8 == bit;
          mask := mask + [BitSet(bits[0], bit)];
        }
        bit := bit + 1;
      }
    }
    ok := true;
  }
}
