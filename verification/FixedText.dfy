/** Storing text in a fixed byte buffer: never half a code point. */
module FixedText {
  import opened Base

  // ------------------------------------------------------------------ well-formed text (sections 3 and 4 of RFC 3629)

  predicate Tail(b: Byte) {
    0x80 <= b <= 0xBF
  }

  /** The byte sequences that encode one code point. */
  predicate CodePoint(c: Bytes) {
    || (|c| == 1 && c[0] <= 0x7F)
    || (|c| == 2 && 0xC2 <= c[0] <= 0xDF && Tail(c[1]))
    || (|c| == 3 && Tail(c[1]) && Tail(c[2]) && (
         || (c[0] == 0xE0 && 0xA0 <= c[1])
         || 0xE1 <= c[0] <= 0xEC
         || (c[0] == 0xED && c[1] <= 0x9F)
         || 0xEE <= c[0] <= 0xEF))
    || (|c| == 4 && Tail(c[1]) && Tail(c[2]) && Tail(c[3]) && (
         || (c[0] == 0xF0 && 0x90 <= c[1])
         || 0xF1 <= c[0] <= 0xF3
         || (c[0] == 0xF4 && c[1] <= 0x8F)))
  }

  function Encoded(text: seq<Bytes>): Bytes {
    if text == [] then [] else Encoded(text[..|text| - 1]) + text[|text| - 1]
  }

  ghost predicate WellFormed(text: seq<Bytes>) {
    forall i :: 0 <= i < |text| ==> CodePoint(text[i])
  }

  // ------------------------------------------------------------------ storing

  /** Where the store cuts a text of which at most `room` bytes fit. */
  method CutAt(src: Bytes, room: nat) returns (copy: nat)
    ensures copy <= |src| && copy <= room
    ensures |src| <= room ==> copy == |src|
    ensures |src| > room ==> (copy == 0 || !Tail(src[copy])) && forall p :: copy < p <= room ==> Tail(src[p])
  {
    copy := if |src| < room then |src| else room;
    if copy < |src| && copy > 0 && Tail(src[copy]) {
      var p := copy;
      while p > 0 && Tail(src[p])
        invariant p <= copy && forall q :: p < q <= copy ==> Tail(src[q])
      {
        p := p - 1;
      }
      copy := p;
    }
  }

  /** `field_from_variant` for a StringFixed field of `count` bytes at the start of dst. */
  method Store(dst: array<Byte>, count: nat, src: Bytes) returns (copy: nat)
    requires count <= dst.Length
    modifies dst
    ensures count == 0 ==> dst[..] == old(dst[..])
    ensures count > 0 ==> copy < count && copy <= |src| && (|src| <= count - 1 ==> copy == |src|)
    ensures (count > 0 && |src| > count - 1 ==>
      (copy == 0 || !Tail(src[copy])) && forall p :: copy < p <= count - 1 ==> Tail(src[p]))
    ensures count > 0 ==> dst[..copy] == src[..copy] && dst[copy] == 0 && dst[copy + 1..] == old(dst[copy + 1..])
  {
    copy := 0;
    if count == 0 {
      return;
    }
    copy := CutAt(src, count - 1);
    for k := 0 to copy
      invariant dst[..k] == src[..k] && dst[k..] == old(dst[k..])
    {
      dst[k] := src[k];
    }
    dst[copy] := 0;
  }

  /** The text in a fixed buffer: the bytes before the first NUL, or all of them. */
  ghost predicate Holds(memory: Bytes, text: Bytes) {
    text <= memory && 0 !in text && (text == memory || memory[|text|] == 0)
  }

  /** `field_to_variant`. */
  method Load(src: array<Byte>, count: nat) returns (text: Bytes)
    requires count <= src.Length
    ensures Holds(src[..count], text)
  {
    var len := 0;
    while len < count && src[len] != 0
      invariant len <= count && 0 !in src[..len]
    {
      len := len + 1;
    }
    return src[..len];
  }

  // ------------------------------------------------------------------ what is kept

  /** The most whole code points that fit in `room` bytes. */
  ghost predicate Longest(text: seq<Bytes>, room: nat, k: nat) {
    k <= |text| && |Encoded(text[..k])| <= room && (k == |text| || |Encoded(text[..k + 1])| > room)
  }

  lemma {:induction false} Fits(text: seq<Bytes>, room: nat) returns (k: nat)
    ensures Longest(text, room, k)
  {
    if |Encoded(text)| <= room {
      k := |text|;
      assert text[..k] == text;
    } else {
      var front := text[..|text| - 1];
      k := Fits(front, room);
      assert text[..k] == front[..k];
      if k < |front| { assert text[..k + 1] == front[..k + 1]; } else { assert text[..k + 1] == text; }
    }
  }

  lemma {:induction false} PrefixEncodes(text: seq<Bytes>, k: nat)
    requires k <= |text|
    ensures Encoded(text[..k]) <= Encoded(text)
  {
    if k < |text| {
      PrefixEncodes(text[..|text| - 1], k);
      assert text[..|text| - 1][..k] == text[..k];
    } else {
      assert text[..k] == text;
    }
  }

  /** Inside a code point every byte but the first is a tail byte; the first never is. */
  lemma TailInside(text: seq<Bytes>, k: nat, p: nat)
    requires WellFormed(text) && k < |text| && |Encoded(text[..k])| <= p < |Encoded(text[..k + 1])|
    ensures p < |Encoded(text)| && (Tail(Encoded(text)[p]) <==> p > |Encoded(text[..k])|)
  {
    PrefixEncodes(text, k);
    PrefixEncodes(text, k + 1);
    var head, more := Encoded(text[..k]), Encoded(text[..k + 1]);
    assert text[..k + 1][..k] == text[..k] && text[..k + 1][k] == text[k];
    assert more == head + text[k];
    assert CodePoint(text[k]);
    assert Encoded(text)[p] == more[p] == text[k][p - |head|];
  }

  /** Where the store cuts is where the longest whole-code-point prefix ends. */
  lemma CutIsLongest(text: seq<Bytes>, room: nat, k: nat, copy: nat)
    requires WellFormed(text) && Longest(text, room, k) && copy <= room && copy <= |Encoded(text)|
    requires |Encoded(text)| <= room ==> copy == |Encoded(text)|
    requires (|Encoded(text)| > room ==>
      (copy == 0 || !Tail(Encoded(text)[copy])) && forall p :: copy < p <= room ==> Tail(Encoded(text)[p]))
    ensures copy == |Encoded(text[..k])| && Encoded(text)[..copy] == Encoded(text[..k])
  {
    PrefixEncodes(text, k);
    var end := |Encoded(text[..k])|;
    if |Encoded(text)| <= room {
      if k < |text| { PrefixEncodes(text, k + 1); }
      assert text[..k] == text;
    } else {
      assert text[..|text|] == text;
      assert k < |text|;
      TailInside(text, k, end);
      if copy > end { TailInside(text, k, copy); }
    }
  }

  /** A store keeps exactly the longest prefix of whole code points that leaves room for the terminator, and
      reading it back returns that prefix when it holds no NUL. */
  method StoreThenLoad(dst: array<Byte>, count: nat, ghost text: seq<Bytes>, src: Bytes)
    returns (read: Bytes, ghost k: nat)
    requires 0 < count <= dst.Length && WellFormed(text) && src == Encoded(text)
    modifies dst
    ensures Longest(text, count - 1, k)
    ensures 0 !in Encoded(text[..k]) ==> read == Encoded(text[..k])
  {
    k := Fits(text, count - 1);
    var copy := Store(dst, count, src);
    CutIsLongest(text, count - 1, k, copy);
    read := Load(dst, count);
    ghost var kept := Encoded(text[..k]);
    assert dst[..copy] == kept;
    if 0 !in kept {
      forall i | 0 <= i < copy ensures dst[i] != 0 { assert dst[i] == kept[i] && kept[i] in kept; }
      assert |read| == copy;
      assert read == dst[..count][..copy] == dst[..copy];
    }
  }
}
