/** Memory layout: where a component's fields lie, and where its rows lie in a column. */
module Layout {
  import opened Base
  import opened Schema

  function AlignUp(v: nat, a: nat): nat
    requires a > 0
  {
    (v + a - 1) / a * a
  }

  function Pow2(k: nat): (p: nat)
    ensures p > 0
  {
    if k == 0 then 1 else 2 * Pow2(k - 1)
  }

  ghost predicate PowerOfTwo(a: int) {
    exists k: nat :: a == Pow2(k)
  }

  ghost predicate Divides(d: int, n: int) {
    d > 0 && exists q :: n == q * d
  }

  // ------------------------------------------------------------------ sizes and alignments of field types

  /** 0 for the types whose length is carried by the field's count, and for unsupported ones. */
  function TypeSize(t: FieldType): nat {
    match t
    case Bool => 1
    case I8 => 1
    case U8 => 1
    case I16 => 2
    case U16 => 2
    case I32 => 4
    case U32 => 4
    case F32 => 4
    case I64 => 8
    case U64 => 8
    case F64 => 8
    case Math(width, _) => width
    case StringFixed => 0
    case Blob => 0
  }

  function TypeAlign(t: FieldType): nat {
    match t
    case Math(_, boundary) => boundary
    case StringFixed => 1
    case Blob => 1
    case _ => TypeSize(t)
  }

  predicate Counted(t: FieldType) {
    t.StringFixed? || t.Blob?
  }

  /** The math types come from the engine's headers, with power-of-two alignments. */
  ghost predicate Aligned(t: FieldType) {
    t.Math? ==> PowerOfTwo(t.boundary)
  }

  function ByteSize(f: Field): nat {
    if Counted(f.kind) then f.count else TypeSize(f.kind) * (if f.count > 0 then f.count else 1)
  }

  predicate Supported(f: Field) {
    Counted(f.kind) || TypeSize(f.kind) > 0
  }

  // ------------------------------------------------------------------ divisibility

  /** A multiple of d that lies strictly between -d and d is 0. */
  lemma SmallMultiple(x: int, d: int)
    requires d > 0 && -d < x * d < d
    ensures x == 0
  {
    if x >= 1 { MulMonotone(1, x, d); }
    if x <= -1 { MulMonotone(x, -1, d); }
  }

  lemma MulMonotone(a: int, b: int, d: int)
    requires a <= b && d > 0
    ensures a * d <= b * d
  {
    assert (b - a) * d >= 0;
  }

  lemma DividesMod(d: int, n: int)
    requires d > 0
    ensures Divides(d, n) <==> n % d == 0
  {
    assert n == n / d * d + n % d;
    if Divides(d, n) {
      var q :| n == q * d;
      assert (q - n / d) * d == q * d - n / d * d;
      SmallMultiple(q - n / d, d);
    }
  }

  lemma DividesSum(d: int, a: int, b: int)
    requires Divides(d, a) && Divides(d, b)
    ensures Divides(d, a + b)
  {
    var p :| a == p * d;
    var q :| b == q * d;
    assert a + b == (p + q) * d;
  }

  lemma DividesProduct(d: int, a: int, i: int)
    requires Divides(d, a)
    ensures Divides(d, i * a)
  {
    var p :| a == p * d;
    assert i * a == (i * p) * d;
  }

  lemma DividesChain(a: int, b: int, c: int)
    requires Divides(a, b) && Divides(b, c)
    ensures Divides(a, c)
  {
    var q :| c == q * b;
    DividesProduct(a, b, q);
  }

  lemma {:induction false} Pow2Divides(i: nat, j: nat)
    requires i <= j
    ensures Divides(Pow2(i), Pow2(j)) && Pow2(i) <= Pow2(j)
  {
    if i < j {
      Pow2Divides(i, j - 1);
      DividesProduct(Pow2(i), Pow2(j - 1), 2);
    } else {
      assert Pow2(j) == 1 * Pow2(i);
    }
  }

  /** Of two powers of two the smaller divides the larger. */
  lemma SmallerDivides(a: int, b: int)
    requires PowerOfTwo(a) && PowerOfTwo(b) && a <= b
    ensures Divides(a, b)
  {
    var i: nat :| a == Pow2(i);
    var j: nat :| b == Pow2(j);
    if i <= j { Pow2Divides(i, j); } else { Pow2Divides(j, i); assert a == 1 * b && b == 1 * a; }
  }

  lemma SmallPowers()
    ensures PowerOfTwo(1) && PowerOfTwo(2) && PowerOfTwo(4) && PowerOfTwo(8)
  {
    assert Pow2(0) == 1 && Pow2(1) == 2 && Pow2(2) == 4 && Pow2(3) == 8;
  }

  /** The least multiple of the alignment at or above a value. */
  lemma AlignUpLeast(v: nat, a: nat)
    requires a > 0
    ensures v <= AlignUp(v, a) < v + a && AlignUp(v, a) % a == 0
  {
    var w := v + a - 1;
    assert w == w / a * a + w % a;
    assert Divides(a, w / a * a);
    DividesMod(a, w / a * a);
  }

  // ------------------------------------------------------------------ a schema's layout

  function End(f: Field): nat {
    f.offset + f.byteSize
  }

  /** A field sits at the least aligned offset behind the one before it. */
  ghost predicate FieldLaid(raw: seq<Field>, laid: seq<Field>, i: nat)
    requires i < |laid| == |raw|
  {
    && laid[i] == raw[i].(offset := laid[i].offset, byteSize := ByteSize(raw[i]))
    && Supported(raw[i]) && TypeAlign(raw[i].kind) > 0
    && laid[i].offset % TypeAlign(raw[i].kind) == 0
    && var before := if i == 0 then 0 else End(laid[i - 1]); before <= laid[i].offset < before + TypeAlign(raw[i].kind)
  }

  /** The first n fields are laid out, in declaration order. */
  ghost predicate LaidOut(raw: seq<Field>, laid: seq<Field>, n: nat) {
    n <= |laid| == |raw| && forall i :: 0 <= i < n ==> FieldLaid(raw, laid, i)
  }

  ghost predicate MaxAlign(raw: seq<Field>, n: nat, a: nat) {
    n <= |raw| && PowerOfTwo(a) && (forall i :: 0 <= i < n ==> TypeAlign(raw[i].kind) <= a)
    && (a == 1 || exists i :: 0 <= i < n && TypeAlign(raw[i].kind) == a)
  }

  /** Fields do not overlap and come in declaration order. */
  lemma {:induction false} Disjoint(raw: seq<Field>, laid: seq<Field>, i: nat, j: nat)
    requires LaidOut(raw, laid, |raw|) && i < j < |raw|
    ensures End(laid[i]) <= laid[j].offset
    decreases j
  {
    assert FieldLaid(raw, laid, j);
    if i < j - 1 {
      Disjoint(raw, laid, i, j - 1);
      assert FieldLaid(raw, laid, j - 1);
    }
  }

  ghost predicate GoodSchema(raw: seq<Field>, s: Schema) {
    && LaidOut(raw, s.fields, |raw|) && MaxAlign(raw, |raw|, s.alignment)
    && s.size % s.alignment == 0
    && var end := if raw == [] then 0 else End(s.fields[|raw| - 1]); end <= s.size < end + s.alignment
  }

  lemma InBounds(raw: seq<Field>, s: Schema, i: nat)
    requires GoodSchema(raw, s) && i < |raw|
    ensures End(s.fields[i]) <= s.size
  {
    if i < |raw| - 1 { Disjoint(raw, s.fields, i, |raw| - 1); }
  }

  /** A field of text or raw bytes has one byte for each of its count; any other is filled by its elements, one behind
      the other. */
  lemma ElementsFill(raw: seq<Field>, s: Schema, i: nat, e: nat)
    requires GoodSchema(raw, s) && i < |raw|
    ensures var f, size := s.fields[i], TypeSize(raw[i].kind); var n := if raw[i].count > 1 then raw[i].count else 1;
      && (Counted(raw[i].kind) ==> End(f) == f.offset + raw[i].count)
      && (!Counted(raw[i].kind) ==> size > 0 && End(f) == f.offset + n * size)
      && (!Counted(raw[i].kind) && e < n ==> f.offset + e * size + size <= End(f))
  {
    hide MaxAlign, TypeSize, TypeAlign, PowerOfTwo;
    assert FieldLaid(raw, s.fields, i);
    var n := if raw[i].count > 1 then raw[i].count else 1;
    if e < n { NextMultiple(e, n, TypeSize(raw[i].kind)); }
    Commuted(n, TypeSize(raw[i].kind));
  }

  lemma Commuted(n: int, d: int)
    ensures n * d == d * n
  {
  }

  lemma NextMultiple(e: nat, n: nat, d: nat)
    requires e < n
    ensures e * d + d <= n * d
  {
    if d > 0 { MulMonotone(e + 1, n, d); }
    assert (e + 1) * d == e * d + d;
  }

  /** Each element of a scalar field is aligned as its type asks. */
  lemma ElementsAligned(raw: seq<Field>, s: Schema, i: nat, e: nat)
    requires GoodSchema(raw, s) && i < |raw| && !Counted(raw[i].kind) && !raw[i].kind.Math?
    ensures TypeSize(raw[i].kind) > 0 && (s.fields[i].offset + e * TypeSize(raw[i].kind)) % TypeSize(raw[i].kind) == 0
  {
    hide MaxAlign, PowerOfTwo, Divides;
    assert FieldLaid(raw, s.fields, i);
    var size, offset := TypeSize(raw[i].kind), s.fields[i].offset;
    DividesMod(size, offset);
    Multiple(size, e);
    DividesSum(size, offset, e * size);
    DividesMod(size, offset + e * size);
  }

  lemma Multiple(d: nat, e: nat)
    requires d > 0
    ensures Divides(d, e * d)
  {
  }

  /** Every field of every row of a column lies at an address its type may have. */
  lemma RowsStayAligned(raw: seq<Field>, s: Schema, base: nat, stride: nat, row: nat, i: nat)
    requires GoodSchema(raw, s) && i < |raw| && (forall k :: 0 <= k < |raw| ==> Aligned(raw[k].kind))
    requires base % s.alignment == 0 && stride == AlignUp(s.size, s.alignment)
    ensures TypeAlign(raw[i].kind) > 0 && (base + row * stride + s.fields[i].offset) % TypeAlign(raw[i].kind) == 0
    ensures stride == s.size
  {
    var a, f := TypeAlign(raw[i].kind), s.fields[i];
    assert FieldLaid(raw, s.fields, i);
    AlignUpLeast(s.size, s.alignment);
    TypeAligned(raw[i].kind);
    SmallerDivides(a, s.alignment);
    SizeIsStride(s.size, s.alignment);
    DividesMod(s.alignment, base);
    DividesMod(s.alignment, stride);
    DividesMod(a, f.offset);
    DividesProduct(s.alignment, stride, row);
    DividesSum(s.alignment, base, row * stride);
    DividesChain(a, s.alignment, base + row * stride);
    DividesSum(a, base + row * stride, f.offset);
    DividesMod(a, base + row * stride + f.offset);
  }

  lemma SizeIsStride(size: nat, a: nat)
    requires a > 0 && size % a == 0
    ensures AlignUp(size, a) == size
  {
    AlignUpLeast(size, a);
    DividesMod(a, size);
    DividesMod(a, AlignUp(size, a));
    var p :| size == p * a;
    var q :| AlignUp(size, a) == q * a;
    assert (q - p) * a == q * a - p * a;
    SmallMultiple(q - p, a);
  }

  lemma TypeAligned(t: FieldType)
    requires Aligned(t)
    ensures PowerOfTwo(TypeAlign(t)) && TypeAlign(t) > 0
  {
    SmallPowers();
  }

  // ------------------------------------------------------------------ registering

  lemma NoField(raw: seq<Field>)
    ensures LaidOut(raw, raw, 0) && MaxAlign(raw, 0, 1)
  {
    SmallPowers();
  }

  lemma NextField(raw: seq<Field>, fields: seq<Field>, i: nat, offset: nat, fd: Field)
    requires i < |fields| == |raw| && LaidOut(raw, fields, i) && Supported(raw[i]) && TypeAlign(raw[i].kind) > 0
    requires offset == if i == 0 then 0 else End(fields[i - 1])
    requires fd == raw[i].(byteSize := ByteSize(raw[i]), offset := AlignUp(offset, TypeAlign(raw[i].kind)))
    ensures LaidOut(raw, fields[i := fd], i + 1)
  {
    hide AlignUp, ByteSize;
    AlignUpLeast(offset, TypeAlign(raw[i].kind));
    var more := fields[i := fd];
    forall k | 0 <= k < i ensures FieldLaid(raw, more, k) { assert FieldLaid(raw, fields, k); }
    assert FieldLaid(raw, more, i);
  }

  lemma NextAlign(raw: seq<Field>, i: nat, a: nat)
    requires i < |raw| && MaxAlign(raw, i, a) && PowerOfTwo(TypeAlign(raw[i].kind))
    ensures MaxAlign(raw, i + 1, if TypeAlign(raw[i].kind) > a then TypeAlign(raw[i].kind) else a)
  {
    hide PowerOfTwo;
  }

  const INVALID_COMPONENT_TYPE: TypeId := 0

  ghost predicate AnyNetworked(fields: seq<Field>) {
    exists f :: f in fields && f.networked
  }

  class ComponentRegistry {
    var schemas: Registry
    var idByName: map<string, TypeId>

    ghost predicate Valid()
      reads this
    {
      forall name :: name in idByName ==> Registered(schemas, idByName[name])
    }

    constructor ()
      ensures Valid() && schemas == [] && idByName == map[]
    {
      schemas, idByName := [], map[];
    }

    /** A fresh name gets the next id; an empty or taken one is refused. */
    method RegisterComponent(name: string, schema: Schema) returns (id: TypeId)
      requires Valid()
      modifies this
      ensures Valid()
      ensures if name == "" then id == INVALID_COMPONENT_TYPE else name in idByName && id == idByName[name]
      ensures (if name == "" || name in old(idByName) then schemas == old(schemas) && idByName == old(idByName)
               else schemas == old(schemas) + [schema] && idByName == old(idByName)[name := |schemas|])
    {
      if name == "" {
        return INVALID_COMPONENT_TYPE;
      }
      if name in idByName {
        return idByName[name];
      }
      id := |schemas| + 1;
      schemas := schemas + [schema];
      idByName := idByName[name := id];
    }

    /** Compute the layout of a schema-only component and register it. */
    method RegisterSchemaComponent(name: string, raw: seq<Field>) returns (id: TypeId, ghost schema: Schema)
      requires Valid() && forall k :: 0 <= k < |raw| ==> Aligned(raw[k].kind)
      modifies this
      ensures Valid()
      ensures ((exists k :: 0 <= k < |raw| && !Supported(raw[k])) ==>
        id == INVALID_COMPONENT_TYPE && schemas == old(schemas) && idByName == old(idByName))
      ensures ((forall k :: 0 <= k < |raw| ==> Supported(raw[k])) ==>
        GoodSchema(raw, schema) && (schema.networked <==> AnyNetworked(raw)))
      ensures ((forall k :: 0 <= k < |raw| ==> Supported(raw[k])) && name != "" && name !in old(idByName) ==>
        schemas == old(schemas) + [schema] && id == |schemas| && idByName == old(idByName)[name := id])
      ensures ((forall k :: 0 <= k < |raw| ==> Supported(raw[k])) && (name == "" || name in old(idByName)) ==>
        schemas == old(schemas) && idByName == old(idByName)
        && id == if name == "" then INVALID_COMPONENT_TYPE else idByName[name])
    {
      hide LaidOut, MaxAlign, AlignUp, Aligned, PowerOfTwo, Supported;
      var ok, fields, offset, maxAlign := ComputeFields(raw);
      if !ok {
        schema := Schema(0, 1, [], false);
        return INVALID_COMPONENT_TYPE, schema;
      }
      AlignUpLeast(offset, maxAlign);
      var networked := HasNetworked(fields);
      SameNetworked(raw, fields);
      var made := Schema(AlignUp(offset, maxAlign), maxAlign, fields, networked);
      schema := made;
      id := RegisterComponent(name, made);
    }
  }

  lemma SameNetworked(raw: seq<Field>, fields: seq<Field>)
    requires LaidOut(raw, fields, |raw|)
    ensures AnyNetworked(raw) <==> AnyNetworked(fields)
  {
    forall i | 0 <= i < |raw| ensures fields[i].networked == raw[i].networked { assert FieldLaid(raw, fields, i); }
    if AnyNetworked(raw) {
      var i :| 0 <= i < |raw| && raw[i].networked;
      assert fields[i] in fields;
    }
    if AnyNetworked(fields) {
      var i :| 0 <= i < |fields| && fields[i].networked;
      assert raw[i] in raw;
    }
  }

  method HasNetworked(fields: seq<Field>) returns (networked: bool)
    ensures networked <==> AnyNetworked(fields)
  {
    networked := false;
    for i := 0 to |fields|
      invariant networked <==> exists k :: 0 <= k < i && fields[k].networked
    {
      if fields[i].networked {
        networked := true;
      }
    }
  }

  /** The offset loop: stops at the first unsupported field type. */
  method ComputeFields(raw: seq<Field>) returns (ok: bool, fields: seq<Field>, offset: nat, maxAlign: nat)
    requires forall k :: 0 <= k < |raw| ==> Aligned(raw[k].kind)
    ensures ok <==> forall k :: 0 <= k < |raw| ==> Supported(raw[k])
    ensures (ok ==>
      LaidOut(raw, fields, |raw|) && MaxAlign(raw, |raw|, maxAlign) && maxAlign > 0
      && |fields| == |raw| && offset == if raw == [] then 0 else End(fields[|raw| - 1]))
  {
    hide LaidOut, MaxAlign, AlignUp, Aligned, ByteSize, PowerOfTwo;
    fields, offset, maxAlign, ok := raw, 0, 1, true;
    NoField(raw);
    for i := 0 to |fields|
      invariant |fields| == |raw| && maxAlign > 0 && (forall k :: i <= k < |raw| ==> fields[k] == raw[k])
      invariant LaidOut(raw, fields, i) && MaxAlign(raw, i, maxAlign) && (forall k :: 0 <= k < i ==> Supported(raw[k]))
      invariant offset == if i == 0 then 0 else End(fields[i - 1])
    {
      var fd := fields[i];
      if !Counted(fd.kind) && TypeSize(fd.kind) == 0 {
        ok := false;
        return;
      }
      TypeAligned(fd.kind);
      var align := TypeAlign(fd.kind);
      fd := fd.(byteSize := ByteSize(fd), offset := AlignUp(offset, align));
      NextField(raw, fields, i, offset, fd);
      NextAlign(raw, i, maxAlign);
      fields := fields[i := fd];
      offset := fd.offset + fd.byteSize;
      if align > maxAlign {
        maxAlign := align;
      }
    }
  }

  // ------------------------------------------------------------------ where a column's rows begin

  /** `realloc_to`: the first aligned address in a block over-allocated by one alignment. The mask
      `& ~(align - 1)` drops the remainder, as the alignment is a power of two. */
  method AlignBlock(raw: nat, bytes: nat, align: nat) returns (aligned: nat)
    requires PowerOfTwo(align)
    ensures aligned % align == 0 && raw <= aligned && aligned + bytes <= raw + (bytes + align)
    ensures forall a :: raw <= a < aligned ==> a % align != 0
  {
    AlignUpLeast(raw, align);
    aligned := (raw + align - 1) - (raw + align - 1) % align;
    assert (raw + align - 1) / align * align == aligned;
    forall a | raw <= a < aligned ensures a % align != 0 { NoneBetween(aligned, a, align); }
  }

  lemma NoneBetween(top: nat, a: nat, d: nat)
    requires d > 0 && top % d == 0 && top - d < a < top
    ensures a % d != 0
  {
    DividesMod(d, top);
    DividesMod(d, a);
    if Divides(d, a) {
      var p :| top == p * d;
      var q :| a == q * d;
      assert (p - q) * d == p * d - q * d;
      SmallMultiple(p - q, d);
    }
  }
}
