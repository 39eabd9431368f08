/** Writing and reading component memory through a buffer, field by field. */
module Serializer {
  import opened Base
  import opened Schema
  import opened Wire
  import opened Buffers

  /** `write_field`. Host memory is little-endian, so scalars lie in memory as they go on the wire. */
  method PutField(f: Field, row: Bytes, buf: BinaryBuffer)
    requires f.offset + FieldWidth(f) <= |row|
    modifies buf
    ensures buf.data == old(buf.data) + WriteField(f, row) && buf.pos == old(buf.pos) + FieldWidth(f)
  {
    var raw := row[f.offset..f.offset + FieldWidth(f)];
    if f.kind.StringFixed? {
      var len := 0;
      while len < |raw| && raw[len] != 0
        invariant len <= |raw| && 0 !in raw[..len]
      {
        len := len + 1;
      }
      FirstNul(raw, len);
      buf.WriteBytes(raw[..len]);
      for k := len to |raw|
        invariant buf.data == old(buf.data) + raw[..len] + Zeros(k - len) && buf.pos == old(buf.pos) + k
      {
        buf.WriteBytes([0]);
        assert Zeros(k - len) + [0] == Zeros(k + 1 - len);
      }
    } else {
      buf.WriteBytes(raw);
    }
  }

  lemma {:induction false} FirstNul(s: Bytes, n: nat)
    requires n <= |s| && 0 !in s[..n] && (n < |s| ==> s[n] == 0)
    ensures UpToNul(s) == n
  {
    if n > 0 {
      assert s[0] in s[..n];
      assert s[1..][..n - 1] == s[..n][1..];
      FirstNul(s[1..], n - 1);
    }
  }

  /** `serialize_component_fields`; the full component with an empty mask. */
  method PutComponent(s: Schema, row: Bytes, mask: seq<bool>, buf: BinaryBuffer)
    requires FieldsOk(s.fields, s.size) && |row| == s.size
    modifies buf
    ensures buf.data == old(buf.data) + Block(s, mask, row) && buf.pos == old(buf.pos) + BlockSize(s, mask)
  {
    hide WriteField, FieldWidth;
    for i := 0 to |s.fields|
      invariant buf.data == old(buf.data) + Written(s.fields, mask, row, i)
        && buf.pos == old(buf.pos) + Size(s.fields, mask, i)
    {
      if i >= |mask| || mask[i] {
        PutField(s.fields[i], row, buf);
      }
    }
  }

  /** `serialized_component_fields_size`. */
  method ComponentSize(s: Schema, mask: seq<bool>) returns (total: nat)
    ensures total == BlockSize(s, mask)
  {
    total := 0;
    for i := 0 to |s.fields|
      invariant total == Size(s.fields, mask, i)
    {
      if i >= |mask| || mask[i] {
        total := total + FieldWidth(s.fields[i]);
      }
    }
  }

  /** `deserialize_component_fields`: stops at the first field the buffer cannot fill. */
  method GetComponent(s: Schema, into: Bytes, mask: seq<bool>, buf: BinaryBuffer) returns (ok: bool, row: Bytes)
    requires FieldsOk(s.fields, s.size) && |into| == s.size && buf.pos <= |buf.data|
    modifies buf`pos
    ensures ok <==> old(buf.pos) + BlockSize(s, mask) <= |buf.data|
    ensures |row| == s.size && buf.pos <= |buf.data|
    ensures (ok ==>
      row == ReadBlock(s, mask, into, buf.data[old(buf.pos)..old(buf.pos) + BlockSize(s, mask)])
        && buf.pos == old(buf.pos) + BlockSize(s, mask))
  {
    hide FieldWidth, Overlay;
    row := into;
    ghost var rest := buf.data[buf.pos..];
    for i := 0 to |s.fields|
      invariant |row| == s.size && buf.pos == old(buf.pos) + Size(s.fields, mask, i) && buf.pos <= |buf.data|
      invariant row == Loaded(s.fields, mask, into, rest, i)
    {
      if i >= |mask| || mask[i] {
        var f := s.fields[i];
        var got, b := buf.ReadBytes(FieldWidth(f));
        if !got {
          SizeGrows(s.fields, mask, i + 1, |s.fields|);
          return false, row;
        }
        assert b == rest[Size(s.fields, mask, i)..Size(s.fields, mask, i + 1)];
        row := Overlay(row, f.offset, b);
      }
    }
    ok := true;
    assert rest[..BlockSize(s, mask)] == buf.data[old(buf.pos)..old(buf.pos) + BlockSize(s, mask)];
    LoadedPrefix(s.fields, mask, into, rest, rest[..BlockSize(s, mask)], |s.fields|);
  }

  /** Only as many bytes as the selected fields take are looked at. */
  lemma {:induction false} LoadedPrefix(fields: seq<Field>, mask: seq<bool>, row: Bytes, a: Bytes, b: Bytes, n: nat)
    requires n <= |fields| && forall i :: 0 <= i < n ==> fields[i].offset + FieldWidth(fields[i]) <= |row|
    requires Size(fields, mask, n) <= |a| && Size(fields, mask, n) <= |b|
      && a[..Size(fields, mask, n)] == b[..Size(fields, mask, n)]
    ensures Loaded(fields, mask, row, a, n) == Loaded(fields, mask, row, b, n)
    decreases n
  {
    hide FieldWidth, Overlay;
    if n > 0 {
      var m, k := Size(fields, mask, n - 1), Size(fields, mask, n);
      SizeGrows(fields, mask, n - 1, n);
      assert a[..m] == a[..k][..m] && b[..m] == b[..k][..m] && a[m..k] == a[..k][m..] && b[m..k] == b[..k][m..];
      LoadedPrefix(fields, mask, row, a, b, n - 1);
    }
  }
}
