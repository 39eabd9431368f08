/** Little-endian, fixed-width binary buffers. */
module Buffers {
  import opened Base

  function Pow256(n: nat): (p: nat)
    ensures p > 0
  {
    if n == 0 then 1 else 256 * Pow256(n - 1)
  }

  /** The n low bytes of a value, least significant first. */
  function LE(v: nat, n: nat): (b: Bytes)
    ensures |b| == n
  {
    if n == 0 then [] else [v % 256] + LE(v / 256, n - 1)
  }

  function FromLE(b: Bytes): (v: nat)
    ensures v < Pow256(|b|)
  {
    if b == [] then 0 else b[0] + 256 * FromLE(b[1..])
  }

  /** A value that fits reads back as it was written. */
  lemma {:induction false} LittleEndian(v: nat, n: nat)
    requires v < Pow256(n)
    ensures FromLE(LE(v, n)) == v
  {
    if n > 0 {
      LittleEndian(v / 256, n - 1);
      assert LE(v, n)[1..] == LE(v / 256, n - 1);
    }
  }

  /** Bytes are determined by the value they encode. */
  lemma {:induction false} SameBytes(b: Bytes)
    ensures LE(FromLE(b), |b|) == b
  {
    if b != [] {
      SameBytes(b[1..]);
      assert FromLE(b) % 256 == b[0] && FromLE(b) / 256 == FromLE(b[1..]);
    }
  }

  lemma AtLeastOnce(d: int, k: int)
    requires d > 0 && k >= 1
    ensures d * k >= d
  {
    assert d * (k - 1) >= 0;
  }

  /** A quotient is determined by its remainder being in range. */
  lemma QuotientIs(d: int, x: int, r: int, y: int, s: int)
    requires 0 <= r < d && 0 <= s < d && d * x + r == d * y + s
    ensures x == y
  {
    assert d * (x - y) == s - r && d * (y - x) == r - s;
    if x > y { AtLeastOnce(d, x - y); }
    if x < y { AtLeastOnce(d, y - x); }
  }

  lemma DivideTwice(v: nat, b: nat)
    requires b > 0
    ensures v / 256 / b == v / (256 * b)
  {
    var q := v / 256;
    assert q == b * (q / b) + q % b;
    assert 256 * (b * (q / b)) == (256 * b) * (q / b);
    QuotientIs(256 * b, q / b, 256 * (q % b) + v % 256, v / (256 * b), v % (256 * b));
  }

  /** The byte at place k is the one of weight 256 to the k. */
  lemma {:induction false} LowByteFirst(v: nat, n: nat, k: nat)
    requires k < n
    ensures LE(v, n)[k] == v / Pow256(k) % 256
  {
    if k > 0 {
      LowByteFirst(v / 256, n - 1, k - 1);
      DivideTwice(v, Pow256(k - 1));
    }
  }

  lemma Widths()
    ensures Pow256(1) == 0x100 && Pow256(2) == 0x1_0000 && Pow256(4) == 0x1_0000_0000
      && Pow256(8) == 0x1_0000_0000_0000_0000
  {
    assert Pow256(1) == 256 * Pow256(0);
    assert Pow256(2) == 256 * Pow256(1);
    assert Pow256(3) == 256 * Pow256(2);
    assert Pow256(4) == 256 * Pow256(3);
    assert Pow256(5) == 256 * Pow256(4);
    assert Pow256(6) == 256 * Pow256(5);
    assert Pow256(7) == 256 * Pow256(6);
    assert Pow256(8) == 256 * Pow256(7);
  }

  /** What a bounded read of n bytes at a position yields. */
  function ReadAt(data: Bytes, pos: nat, n: nat): Option<Bytes> {
    if pos + n > |data| then None else Some(data[pos..pos + n])
  }

  class BinaryBuffer {
    var data: Bytes
    var pos: nat

    constructor ()
      ensures data == [] && pos == 0
    {
      data, pos := [], 0;
    }

    /** A buffer over received bytes, or a copy to read ahead in. */
    constructor Over(bytes: Bytes, at: nat)
      ensures data == bytes && pos == at
    {
      data, pos := bytes, at;
    }

    method WriteBytes(b: Bytes)
      modifies this
      ensures data == old(data) + b && pos == old(pos) + |b|
    {
      data, pos := data + b, pos + |b|;
    }

    /** `write_u8` to `write_u64`: shift out one byte at a time. */
    method WriteLE(v: nat, n: nat)
      modifies this
      ensures data == old(data) + LE(v, n) && pos == old(pos) + n
    {
      var rest := v;
      for i := 0 to n
        invariant data + LE(rest, n - i) == old(data) + LE(v, n) && pos == old(pos)
      {
        data := data + [rest % 256];
        assert old(data) + LE(v, n) == data + LE(rest / 256, n - i - 1);
        rest := rest / 256;
      }
      pos := pos + n;
    }

    method ReadBytes(n: nat) returns (ok: bool, b: Bytes)
      modifies this`pos
      ensures ok <==> ReadAt(data, old(pos), n).Some?
      ensures if ok then b == ReadAt(data, old(pos), n).value && pos == old(pos) + n else b == [] && pos == old(pos)
    {
      if pos + n > |data| {
        return false, [];
      }
      b := data[pos..pos + n];
      pos := pos + n;
      return true, b;
    }

    /** `read_u8` to `read_u64`: nothing is consumed when the buffer is too short. */
    method ReadLE(n: nat) returns (ok: bool, v: nat)
      modifies this`pos
      ensures ok <==> ReadAt(data, old(pos), n).Some?
      ensures if ok then v == FromLE(ReadAt(data, old(pos), n).value) && pos == old(pos) + n
        else v == 0 && pos == old(pos)
    {
      if pos + n > |data| {
        return false, 0;
      }
      v := 0;
      var i := n;
      while i > 0
        invariant 0 <= i <= n && v == FromLE(data[pos + i..pos + n])
      {
        i := i - 1;
        assert data[pos + i..pos + n][1..] == data[pos + i + 1..pos + n];
        v := data[pos + i] + 256 * v;
      }
      pos := pos + n;
      return true, v;
    }

    method Seek(p: nat)
      modifies this`pos
      ensures pos == if p < |data| then p else |data|
    {
      pos := if p < |data| then p else |data|;
    }

    /** Patch four bytes in place; out of range does nothing. */
    method OverwriteU32(p: nat, v: nat)
      modifies this`data
      ensures data == if p + 4 > |old(data)| then old(data) else old(data)[..p] + LE(v, 4) + old(data)[p + 4..]
    {
      if p + 4 <= |data| {
        data := data[..p] + LE(v, 4) + data[p + 4..];
      }
    }
  }
}
