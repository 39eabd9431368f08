/** Machine-width types, entity handles and the sorted id lists that name archetypes. */
module Base {
  const U16_LIMIT := 0x1_0000
  const U32_LIMIT := 0x1_0000_0000
  const U64_LIMIT := 0x1_0000_0000_0000_0000
  const U64_MAX := 0xFFFF_FFFF_FFFF_FFFF

  type Byte = b: int | 0 <= b < 256
  type Bytes = seq<Byte>

  /** Type ids, handles and ticks are unsigned machine words in the engine. They are integers here; each
      operation writes its own wrap or saturation out, and the invariants carry the ranges. */
  type TypeId = int
  type Tick = int

  /** A 64-bit handle: slot index + 1 in the low half (0 means none), generation in the high half. */
  type Entity = int

  const NO_ENTITY: Entity := 0

  datatype Option<+T> = None | Some(value: T)

  predicate IsHandle(e: Entity) {
    0 <= e < U64_LIMIT
  }

  /** `slot()` subtracts one in 32-bit arithmetic, so low half 0 gives the largest index. */
  function Slot(e: Entity): (s: nat)
    ensures s < U32_LIMIT
  {
    (e % U32_LIMIT - 1) % U32_LIMIT
  }

  function Generation(e: Entity): (g: int)
    ensures IsHandle(e) ==> 0 <= g < U32_LIMIT
  {
    e / U32_LIMIT
  }

  function MakeEntity(slot: nat, generation: nat): (e: Entity)
    requires slot < U32_LIMIT - 1 && generation < U32_LIMIT
    ensures IsHandle(e) && e != NO_ENTITY
    ensures Slot(e) == slot && Generation(e) == generation
  {
    slot + 1 + generation * U32_LIMIT
  }

  /** A handle is determined by its slot and generation. */
  lemma EntityParts(a: Entity, b: Entity)
    requires Slot(a) == Slot(b) && Generation(a) == Generation(b)
    ensures a == b
  {
    assert a == a / U32_LIMIT * U32_LIMIT + a % U32_LIMIT;
    assert b == b / U32_LIMIT * U32_LIMIT + b % U32_LIMIT;
  }

  function Zeros(n: nat): (z: Bytes)
    ensures |z| == n && forall i :: 0 <= i < n ==> z[i] == 0
  {
    seq(n, i => 0)
  }

  // ------------------------------------------------------------ sorted id lists

  ghost predicate Sorted(ids: seq<TypeId>) {
    forall i, j :: 0 <= i < j < |ids| ==> ids[i] < ids[j]
  }

  ghost function Elements<T>(s: seq<T>): set<T> {
    set x | x in s
  }

  ghost predicate NoDup<T>(s: seq<T>) {
    forall i, j :: 0 <= i < j < |s| ==> s[i] != s[j]
  }

  ghost function Any<T>(s: set<T>): (x: T)
    requires s != {}
    ensures x in s
  {
    var x :| x in s;
    x
  }

  /** The next element of an unordered container: any of them. */
  method Pick<T(==)>(s: set<T>) returns (x: T)
    requires s != {}
    ensures x in s
  {
    x :| x in s;
  }

  lemma {:induction false} PickLeast(s: set<int>) returns (m: int)
    requires s != {}
    ensures m in s && forall x :: x in s ==> m <= x
    decreases |s|
  {
    var y := Any(s);
    m := y;
    var rest := s - {y};
    if rest != {} {
      var k := PickLeast(rest);
      m := if k < y then k else y;
    }
    forall x | x in s ensures m <= x {
      if x != y { assert x in rest; }
    }
  }

  ghost function Least(s: set<int>): (m: int)
    requires s != {}
    ensures m in s && forall x :: x in s ==> m <= x
  {
    assert exists m :: m in s && forall x :: x in s ==> m <= x by {
      var m := PickLeast(s);
    }
    var m :| m in s && forall x :: x in s ==> m <= x;
    m
  }

  /** The elements of a set, ascending. */
  ghost function SortedIds(s: set<TypeId>): (ids: seq<TypeId>)
    ensures Sorted(ids) && forall x :: x in ids <==> x in s
    decreases |s|
  {
    if s == {} then [] else
      var m := Least(s);
      [m] + SortedIds(s - {m})
  }

  /** Ascending lists with the same elements are the same list. */
  lemma {:induction false} SortedUnique(a: seq<TypeId>, b: seq<TypeId>)
    requires Sorted(a) && Sorted(b) && forall x :: x in a <==> x in b
    ensures a == b
  {
    assert (|b| > 0 ==> b[0] in b) && (|a| > 0 ==> a[0] in a);
    if |a| > 0 && |b| > 0 {
      assert a[0] in b && b[0] in a;
      assert a[0] == b[0];
      forall x ensures x in a[1..] <==> x in b[1..] {
        assert x in a[1..] <==> x in a && x != a[0];
        assert x in b[1..] <==> x in b && x != b[0];
      }
      SortedUnique(a[1..], b[1..]);
      assert a == [a[0]] + a[1..] && b == [b[0]] + b[1..];
    }
  }
}
