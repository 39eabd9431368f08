/** Component bytes on the wire: fields in schema order, optionally only those a mask selects. */
module Wire {
  import opened Base
  import opened Schema
  import FixedText
  import Layout

  // ------------------------------------------------------------------ fields

  /** Bytes a field takes on the wire: scalars their fixed width, even for arrays; everything else its storage. */
  function FieldWidth(f: Field): nat {
    match f.kind
    case Bool => 1
    case I8 => 1
    case U8 => 1
    case I16 => 2
    case U16 => 2
    case I32 => 4
    case U32 => 4
    case F32 => 4
    case I64 => 8
    case U64 => 8
    case F64 => 8
    case _ => f.byteSize
  }

  /** The fields of a schema lie in bounds and apart. */
  ghost predicate FieldsOk(fields: seq<Field>, size: nat) {
    && (forall i :: 0 <= i < |fields| ==>
       FieldWidth(fields[i]) <= fields[i].byteSize && fields[i].offset + fields[i].byteSize <= size)
    && forall i, j :: 0 <= i < j < |fields| ==> Apart(fields[i], fields[j])
  }

  predicate Apart(f: Field, g: Field) {
    f.offset + f.byteSize <= g.offset || g.offset + g.byteSize <= f.offset
  }

  /** Bytes up to the first NUL. */
  function UpToNul(s: Bytes): (n: nat)
    ensures n <= |s| && (n < |s| ==> s[n] == 0) && 0 !in s[..n]
  {
    if s == [] || s[0] == 0 then 0 else 1 + UpToNul(s[1..])
  }

  /** A string field is written up to its terminator and padded with zeroes; everything else as it lies in memory. */
  function WriteField(f: Field, row: Bytes): (b: Bytes)
    requires f.offset + FieldWidth(f) <= |row|
    ensures |b| == FieldWidth(f)
  {
    var raw := row[f.offset..f.offset + FieldWidth(f)];
    if f.kind.StringFixed? then raw[..UpToNul(raw)] + Zeros(|raw| - UpToNul(raw)) else raw
  }

  function Overlay(row: Bytes, offset: nat, data: Bytes): (r: Bytes)
    requires offset + |data| <= |row|
    ensures |r| == |row|
  {
    row[..offset] + data + row[offset + |data|..]
  }

  /** A mask entry that is missing counts as set. */
  predicate Included(mask: seq<bool>, i: nat) {
    i >= |mask| || mask[i]
  }

  // ------------------------------------------------------------------ components

  function Size(fields: seq<Field>, mask: seq<bool>, n: nat): nat
    requires n <= |fields|
  {
    if n == 0 then 0 else Size(fields, mask, n - 1) + if Included(mask, n - 1) then FieldWidth(fields[n - 1]) else 0
  }

  /** The first n fields of a component, those the mask selects. */
  function Written(fields: seq<Field>, mask: seq<bool>, row: Bytes, n: nat): (b: Bytes)
    requires n <= |fields| && forall i :: 0 <= i < n ==> fields[i].offset + FieldWidth(fields[i]) <= |row|
    ensures |b| == Size(fields, mask, n)
  {
    if n == 0 then [] else
      Written(fields, mask, row, n - 1) + if Included(mask, n - 1) then WriteField(fields[n - 1], row) else []
  }

  /** A row after reading the first n fields from wire bytes. */
  function Loaded(fields: seq<Field>, mask: seq<bool>, row: Bytes, data: Bytes, n: nat): (r: Bytes)
    requires n <= |fields| && (forall i :: 0 <= i < n ==> fields[i].offset + FieldWidth(fields[i]) <= |row|)
      && Size(fields, mask, n) <= |data|
    ensures |r| == |row|
  {
    if n == 0 then row else
      var before := Loaded(fields, mask, row, data, n - 1);
      if Included(mask, n - 1)
      then Overlay(before, fields[n - 1].offset, data[Size(fields, mask, n - 1)..Size(fields, mask, n)])
      else before
  }

  function Block(s: Schema, mask: seq<bool>, row: Bytes): (b: Bytes)
    requires FieldsOk(s.fields, s.size) && |row| == s.size
    ensures |b| == BlockSize(s, mask)
  {
    Written(s.fields, mask, row, |s.fields|)
  }

  function BlockSize(s: Schema, mask: seq<bool>): nat {
    Size(s.fields, mask, |s.fields|)
  }

  function ReadBlock(s: Schema, mask: seq<bool>, row: Bytes, data: Bytes): (r: Bytes)
    requires FieldsOk(s.fields, s.size) && |row| == s.size && |data| == BlockSize(s, mask)
    ensures |r| == s.size
  {
    Loaded(s.fields, mask, row, data, |s.fields|)
  }

  // ------------------------------------------------------------------ reading back what was written

  lemma {:induction false} SizeGrows(fields: seq<Field>, mask: seq<bool>, m: nat, n: nat)
    requires m <= n <= |fields|
    ensures Size(fields, mask, m) <= Size(fields, mask, n)
  {
    if m < n { SizeGrows(fields, mask, m, n - 1); }
  }

  /** Reading other fields leaves a field's memory alone. */
  lemma {:induction false} OthersLeave(fields: seq<Field>, mask: seq<bool>, row: Bytes, data: Bytes, size: nat,
                                       n: nat, g: Field)
    requires FieldsOk(fields, size) && |row| == size && n <= |fields| && Size(fields, mask, n) <= |data|
    requires g.offset + g.byteSize <= size && forall i :: 0 <= i < n && Included(mask, i) ==> Apart(fields[i], g)
    ensures Loaded(fields, mask, row, data, n)[g.offset..g.offset + g.byteSize] == row[g.offset..g.offset + g.byteSize]
  {
    if n > 0 {
      OthersLeave(fields, mask, row, data, size, n - 1, g);
      var before, after := Loaded(fields, mask, row, data, n - 1), Loaded(fields, mask, row, data, n);
      forall k | g.offset <= k < g.offset + g.byteSize ensures after[k] == before[k] {}
    }
  }

  /** A field read from wire bytes holds exactly those bytes afterwards. */
  lemma {:induction false} FieldArrives(fields: seq<Field>, mask: seq<bool>, row: Bytes, data: Bytes, size: nat,
                                        n: nat, i: nat)
    requires FieldsOk(fields, size) && |row| == size && i < n <= |fields| && Included(mask, i)
      && Size(fields, mask, n) <= |data|
    ensures Size(fields, mask, i + 1) <= Size(fields, mask, n)
    ensures var f := fields[i];
      Loaded(fields, mask, row, data, n)[f.offset..f.offset + FieldWidth(f)] ==
        data[Size(fields, mask, i)..Size(fields, mask, i + 1)]
  {
    SizeGrows(fields, mask, i + 1, n);
    var f := fields[i];
    var after := Loaded(fields, mask, row, data, n);
    if n == i + 1 {
      var before := Loaded(fields, mask, row, data, i);
      assert after == Overlay(before, f.offset, data[Size(fields, mask, i)..Size(fields, mask, i + 1)]);
    } else {
      FieldArrives(fields, mask, row, data, size, n - 1, i);
      var before := Loaded(fields, mask, row, data, n - 1);
      assert Apart(f, fields[n - 1]);
      forall k | f.offset <= k < f.offset + FieldWidth(f) ensures after[k] == before[k] {}
    }
  }

  lemma {:induction false} WrittenAt(fields: seq<Field>, mask: seq<bool>, row: Bytes, n: nat, i: nat)
    requires i < n <= |fields| && (forall k :: 0 <= k < n ==> fields[k].offset + FieldWidth(fields[k]) <= |row|)
      && Included(mask, i)
    ensures Size(fields, mask, i + 1) <= Size(fields, mask, n)
    ensures Written(fields, mask, row, n)[Size(fields, mask, i)..Size(fields, mask, i + 1)] ==
      WriteField(fields[i], row)
  {
    hide WriteField, FieldWidth, Included;
    SizeGrows(fields, mask, i + 1, n);
    var front, all := Written(fields, mask, row, n - 1), Written(fields, mask, row, n);
    assert all[..|front|] == front;
    if i < n - 1 {
      WrittenAt(fields, mask, row, n - 1, i);
      SizeGrows(fields, mask, i + 1, n - 1);
      assert all[Size(fields, mask, i)..Size(fields, mask, i + 1)]
        == front[Size(fields, mask, i)..Size(fields, mask, i + 1)];
    }
  }

  lemma {:induction false} NulStays(s: Bytes)
    ensures UpToNul(s[..UpToNul(s)] + Zeros(|s| - UpToNul(s))) == UpToNul(s)
  {
    if s != [] && s[0] != 0 {
      var n := UpToNul(s);
      NulStays(s[1..]);
      assert (s[..n] + Zeros(|s| - n))[1..] == s[1..][..n - 1] + Zeros(|s| - n);
    }
  }

  /** Writing a field whose memory holds what was written gives the same bytes again. */
  lemma WriteTwice(f: Field, row: Bytes, again: Bytes)
    requires f.offset + FieldWidth(f) <= |row| && f.offset + FieldWidth(f) <= |again|
    requires again[f.offset..f.offset + FieldWidth(f)] == WriteField(f, row)
    ensures WriteField(f, again) == WriteField(f, row)
  {
    if f.kind.StringFixed? { NulStays(row[f.offset..f.offset + FieldWidth(f)]); }
  }

  // ------------------------------------------------------------------ what a field that is read holds

  ghost predicate EndsBefore(row: Bytes, start: nat, k: nat)
    requires k <= |row|
  {
    exists j :: start <= j < k && row[j] == 0
  }

  /** One row holds the other's field, byte for byte; of a text whatever follows its terminator is zeroes. */
  ghost predicate IsCopy(f: Field, row: Bytes, copy: Bytes) {
    && f.offset + FieldWidth(f) <= |row| && f.offset + FieldWidth(f) <= |copy|
    && forall k :: f.offset <= k < f.offset + FieldWidth(f) ==>
      copy[k] == if f.kind.StringFixed? && EndsBefore(row, f.offset, k) then 0 else row[k]
  }

  lemma {:induction false} UpToNulIs(s: Bytes, k: nat)
    requires k <= |s|
    ensures k <= UpToNul(s) <==> forall j :: 0 <= j < k ==> s[j] != 0
  {
    if s != [] && s[0] != 0 && k > 0 {
      UpToNulIs(s[1..], k - 1);
      assert forall j :: 0 <= j < k - 1 ==> s[1..][j] == s[j + 1];
      if forall j :: 0 <= j < k - 1 ==> s[1..][j] != 0 {
        forall j | 0 <= j < k ensures s[j] != 0 { if j > 0 { assert s[1..][j - 1] == s[j]; } }
      }
    }
  }

  lemma WrittenByte(f: Field, row: Bytes, k: nat)
    requires f.offset + FieldWidth(f) <= |row| && f.offset <= k < f.offset + FieldWidth(f)
    ensures WriteField(f, row)[k - f.offset] ==
      if f.kind.StringFixed? && EndsBefore(row, f.offset, k) then 0 else row[k]
  {
    hide UpToNul;
    if f.kind.StringFixed? {
      var raw, i := row[f.offset..f.offset + FieldWidth(f)], k - f.offset;
      UpToNulIs(raw, i);
      if EndsBefore(row, f.offset, k) {
        var j :| f.offset <= j < k && row[j] == 0;
        assert raw[j - f.offset] == 0;
      } else {
        forall j | 0 <= j < i ensures raw[j] != 0 { assert raw[j] == row[f.offset + j]; }
        UpToNulHere(raw, i);
      }
    }
  }

  lemma UpToNulHere(raw: Bytes, i: nat)
    requires i < |raw| && i <= UpToNul(raw)
    ensures (raw[..UpToNul(raw)] + Zeros(|raw| - UpToNul(raw)))[i] == raw[i]
  {
  }

  /** Wire bytes of a field that are in place are a copy of it, and nothing else is. */
  lemma IsCopyIff(f: Field, row: Bytes, copy: Bytes)
    requires f.offset + FieldWidth(f) <= |row| && f.offset + FieldWidth(f) <= |copy|
    ensures IsCopy(f, row, copy) <==> copy[f.offset..f.offset + FieldWidth(f)] == WriteField(f, row)
  {
    hide WriteField, FieldWidth, EndsBefore;
    var got := copy[f.offset..f.offset + FieldWidth(f)];
    forall k | f.offset <= k < f.offset + FieldWidth(f)
      ensures got[k - f.offset] == copy[k]
      ensures WriteField(f, row)[k - f.offset] ==
        if f.kind.StringFixed? && EndsBefore(row, f.offset, k) then 0 else row[k]
    {
      WrittenByte(f, row, k);
    }
    if IsCopy(f, row, copy) {
      forall i | 0 <= i < |got|
        ensures got[i] == WriteField(f, row)[i]
      {
        assert got[f.offset + i - f.offset] == copy[f.offset + i];
      }
    }
  }

  /** A field that is written and read back is copied. */
  lemma FieldIsCopied(s: Schema, mask: seq<bool>, row: Bytes, into: Bytes, i: nat)
    requires FieldsOk(s.fields, s.size) && |row| == s.size && |into| == s.size && i < |s.fields| && Included(mask, i)
    ensures IsCopy(s.fields[i], row, ReadBlock(s, mask, into, Block(s, mask, row)))
  {
    hide WriteField, IsCopy;
    FieldArrives(s.fields, mask, into, Block(s, mask, row), s.size, |s.fields|, i);
    WrittenAt(s.fields, mask, row, |s.fields|, i);
    assert FieldWidth(s.fields[i]) <= s.fields[i].byteSize;
    IsCopyIff(s.fields[i], row, ReadBlock(s, mask, into, Block(s, mask, row)));
  }

  function Memory(f: Field, row: Bytes): Bytes
    requires f.offset + f.byteSize <= |row|
  {
    row[f.offset..f.offset + f.byteSize]
  }

  lemma SameBefore(a: Bytes, b: Bytes, n: nat)
    requires |a| == |b| && n <= |a|
    requires forall k :: 0 <= k < |a| ==> b[k] == if EndsBefore(a, 0, k) then 0 else a[k]
    ensures 0 in a[..n] <==> 0 in b[..n]
    ensures 0 !in a[..n] ==> a[..n] == b[..n] && (n < |a| ==> (a[n] == 0 <==> b[n] == 0))
  {
    if 0 in a[..n] {
      var j :| 0 <= j < n && a[j] == 0;
      assert b[j] == 0 && b[..n][j] == 0;
    } else {
      forall k | 0 <= k <= n && k < |a| ensures !EndsBefore(a, 0, k) {
        forall j | 0 <= j < k ensures a[j] != 0 { assert a[..n][j] == a[j]; }
      }
      forall k | 0 <= k < n ensures b[k] == a[k] && b[k] != 0 { assert a[..n][k] == a[k]; }
      assert a[..n] == b[..n];
    }
  }

  /** A copy of a text field holds the same text. */
  lemma TextArrives(f: Field, row: Bytes, copy: Bytes, text: Bytes)
    requires f.kind.StringFixed? && IsCopy(f, row, copy)
    ensures FixedText.Holds(Memory(f, copy), text) <==> FixedText.Holds(Memory(f, row), text)
  {
    var a, b := Memory(f, row), Memory(f, copy);
    forall k | 0 <= k < |a| ensures b[k] == if EndsBefore(a, 0, k) then 0 else a[k] {
      EndsShifted(f, row, k);
      assert copy[f.offset + k] == b[k] && row[f.offset + k] == a[k];
    }
    if |text| <= |a| { SameBefore(a, b, |text|); }
  }

  lemma EndsShifted(f: Field, row: Bytes, k: nat)
    requires f.offset + f.byteSize <= |row| && k < f.byteSize
    ensures EndsBefore(Memory(f, row), 0, k) <==> EndsBefore(row, f.offset, f.offset + k)
  {
    var a := Memory(f, row);
    if EndsBefore(a, 0, k) {
      var j :| 0 <= j < k && a[j] == 0;
      assert row[f.offset + j] == 0;
    }
    if EndsBefore(row, f.offset, f.offset + k) {
      var j :| f.offset <= j < f.offset + k && row[j] == 0;
      assert a[j - f.offset] == 0;
    }
  }

  /** A field reads the same in two rows: of a text what comes before its terminator, of everything else the bytes that
      travel. */
  ghost predicate SameValue(f: Field, a: Bytes, b: Bytes) {
    && f.offset + f.byteSize <= |a| && f.offset + f.byteSize <= |b| && FieldWidth(f) <= f.byteSize
    && if f.kind.StringFixed?
       then forall text :: FixedText.Holds(Memory(f, a), text) <==> FixedText.Holds(Memory(f, b), text)
       else forall k :: f.offset <= k < f.offset + FieldWidth(f) ==> a[k] == b[k]
  }

  lemma CopyIsSame(f: Field, row: Bytes, copy: Bytes)
    requires IsCopy(f, row, copy) && FieldWidth(f) <= f.byteSize
      && f.offset + f.byteSize <= |row| && f.offset + f.byteSize <= |copy|
    ensures SameValue(f, row, copy)
  {
    hide FixedText.Holds, IsCopy;
    if f.kind.StringFixed? {
      forall text ensures FixedText.Holds(Memory(f, row), text) <==> FixedText.Holds(Memory(f, copy), text) {
        TextArrives(f, row, copy, text);
      }
    } else {
      assert IsCopy(f, row, copy);
      PlainCopy(f, row, copy);
    }
  }

  lemma PlainCopy(f: Field, row: Bytes, copy: Bytes)
    requires IsCopy(f, row, copy) && !f.kind.StringFixed?
    ensures forall k :: f.offset <= k < f.offset + FieldWidth(f) ==> row[k] == copy[k]
  {
  }

  /** Rows that write the same bytes of a field hold the same value. */
  lemma WriteSame(f: Field, a: Bytes, b: Bytes)
    requires f.offset + f.byteSize <= |a| && f.offset + f.byteSize <= |b| && FieldWidth(f) <= f.byteSize
    requires WriteField(f, a) == WriteField(f, b)
    ensures SameValue(f, a, b)
  {
    hide WriteField, IsCopy, FixedText.Holds;
    var c := Overlay(a, f.offset, WriteField(f, a));
    assert c[f.offset..f.offset + FieldWidth(f)] == WriteField(f, a);
    IsCopyIff(f, a, c);
    IsCopyIff(f, b, c);
    CopyIsSame(f, a, c);
    CopyIsSame(f, b, c);
  }

  /** A copy of a field that is no array holds its whole memory, however wide its type is laid out. */
  lemma ScalarArrives(f: Field, row: Bytes, copy: Bytes)
    requires IsCopy(f, row, copy) && !f.kind.StringFixed?
    requires f.kind.Blob? || (f.byteSize == Layout.ByteSize(f) && f.count <= 1)
    ensures f.offset + f.byteSize <= |row| && f.offset + f.byteSize <= |copy| && Memory(f, copy) == Memory(f, row)
  {
    assert FieldWidth(f) == f.byteSize;
  }

  lemma {:induction false} SameWritten(fields: seq<Field>, mask: seq<bool>, a: Bytes, b: Bytes, n: nat)
    requires n <= |fields| && |a| == |b| && forall i :: 0 <= i < n ==> fields[i].offset + FieldWidth(fields[i]) <= |a|
    requires forall i :: 0 <= i < n && Included(mask, i) ==> WriteField(fields[i], a) == WriteField(fields[i], b)
    ensures Written(fields, mask, a, n) == Written(fields, mask, b, n)
  {
    if n > 0 { SameWritten(fields, mask, a, b, n - 1); }
  }

  /** Writing what was read gives back the bytes that were written. */
  lemma BlockRoundTrip(s: Schema, mask: seq<bool>, row: Bytes, into: Bytes)
    requires FieldsOk(s.fields, s.size) && |row| == s.size && |into| == s.size
    ensures Block(s, mask, ReadBlock(s, mask, into, Block(s, mask, row))) == Block(s, mask, row)
  {
    var n := |s.fields|;
    var data := Block(s, mask, row);
    var again := ReadBlock(s, mask, into, data);
    forall i | 0 <= i < n && Included(mask, i) ensures WriteField(s.fields[i], again) == WriteField(s.fields[i], row) {
      FieldArrives(s.fields, mask, into, data, s.size, n, i);
      WrittenAt(s.fields, mask, row, n, i);
      WriteTwice(s.fields[i], row, again);
    }
    SameWritten(s.fields, mask, again, row, n);
  }

  /** Memory of a field the mask leaves out is not touched. */
  lemma UnmaskedStays(s: Schema, mask: seq<bool>, into: Bytes, data: Bytes, i: nat)
    requires FieldsOk(s.fields, s.size) && |into| == s.size && |data| == BlockSize(s, mask) && i < |s.fields|
      && !Included(mask, i)
    ensures var f := s.fields[i];
      ReadBlock(s, mask, into, data)[f.offset..f.offset + f.byteSize] == into[f.offset..f.offset + f.byteSize]
  {
    var f := s.fields[i];
    forall j | 0 <= j < |s.fields| && Included(mask, j) ensures Apart(s.fields[j], f) {
      if j < i { assert Apart(s.fields[j], s.fields[i]); } else { assert Apart(s.fields[i], s.fields[j]); }
    }
    OthersLeave(s.fields, mask, into, data, s.size, |s.fields|, f);
  }

  /** Only the first element of a numeric array travels: a field's whole memory arrives if and only if what lies
      behind the written part was there already. */
  lemma MemoryArrivesIff(s: Schema, mask: seq<bool>, row: Bytes, into: Bytes, i: nat)
    requires FieldsOk(s.fields, s.size) && |row| == s.size && |into| == s.size
    requires i < |s.fields| && Included(mask, i) && !s.fields[i].kind.StringFixed?
    ensures var f := s.fields[i]; var again := ReadBlock(s, mask, into, Block(s, mask, row));
      var w := f.offset + FieldWidth(f);
      (again[f.offset..f.offset + f.byteSize] == row[f.offset..f.offset + f.byteSize]
       <==> into[w..f.offset + f.byteSize] == row[w..f.offset + f.byteSize])
  {
    hide Loaded, Written, Size, FieldWidth, Apart;
    var f, n, data := s.fields[i], |s.fields|, Block(s, mask, row);
    var again := ReadBlock(s, mask, into, data);
    var w, end := f.offset + FieldWidth(f), f.offset + f.byteSize;
    FieldArrives(s.fields, mask, into, data, s.size, n, i);
    WrittenAt(s.fields, mask, row, n, i);
    RestStays(s.fields, mask, into, data, s.size, n, i);
    TailDecides(again, row, f.offset, w, end);
  }

  lemma TailDecides(a: Bytes, b: Bytes, start: nat, mid: nat, end: nat)
    requires start <= mid <= end <= |a| == |b| && a[start..mid] == b[start..mid]
    ensures a[start..end] == b[start..end] <==> a[mid..end] == b[mid..end]
  {
    assert a[start..end] == a[start..mid] + a[mid..end];
    assert b[start..end] == b[start..mid] + b[mid..end];
    assert a[start..end][mid - start..] == a[mid..end];
    assert b[start..end][mid - start..] == b[mid..end];
  }

  /** The failing family in its smallest form: an array of two bytes loses the second. */
  lemma ArrayIsCut()
    ensures var s := Schema(2, 1, [Field(U8, 0, 2, 2, High, true)], true);
      FieldsOk(s.fields, s.size) && ReadBlock(s, [], [0, 0], Block(s, [], [7, 9])) != [7, 9]
  {
    var s := Schema(2, 1, [Field(U8, 0, 2, 2, High, true)], true);
    var row: Bytes, into: Bytes := [7, 9], [0, 0];
    MemoryArrivesIff(s, [], row, into, 0);
    assert into[1..2][0] == 0 && row[1..2][0] == 9;
  }

  lemma {:induction false} RestStays(fields: seq<Field>, mask: seq<bool>, row: Bytes, data: Bytes, size: nat, n: nat,
                                     i: nat)
    requires FieldsOk(fields, size) && |row| == size && n <= |fields| && i < |fields| && Size(fields, mask, n) <= |data|
    ensures var f := fields[i];
      Loaded(fields, mask, row, data, n)[f.offset + FieldWidth(f)..f.offset + f.byteSize] ==
        row[f.offset + FieldWidth(f)..f.offset + f.byteSize]
  {
    if n > 0 {
      RestStays(fields, mask, row, data, size, n - 1, i);
      var f := fields[i];
      var before, after := Loaded(fields, mask, row, data, n - 1), Loaded(fields, mask, row, data, n);
      if i < n - 1 { assert Apart(fields[i], fields[n - 1]); }
      if n - 1 < i { assert Apart(fields[n - 1], fields[i]); }
      forall k | f.offset + FieldWidth(f) <= k < f.offset + f.byteSize ensures after[k] == before[k] {}
    }
  }
}
