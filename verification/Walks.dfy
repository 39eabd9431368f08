/** Walking the entities of a list of archetypes. */
module Walks {
  import opened Base
  import opened Storage

  // ------------------------------------------------------------------ walking archetypes

  /** The entities of a list of archetypes, row by row. */
  ghost function Walk(w: Index, ks: seq<Key>): seq<Entity> {
    if ks == [] then [] else
      Walk(w, ks[..|ks| - 1]) + (if ks[|ks| - 1] in w.archs then w.archs[ks[|ks| - 1]].entities else [])
  }

  /** Each entity of the listed archetypes is met exactly once, and no other is met. */
  lemma {:induction false} WalkMeetsOnce(w: Index, ks: seq<Key>)
    requires Shaped(w) && NoDup(ks) && forall k :: k in ks ==> k in w.archs
    ensures NoDup(Walk(w, ks)) && forall e :: e in Walk(w, ks) <==> e in w.loc && w.loc[e].key in ks
  {
    if ks != [] {
      var front, k := ks[..|ks| - 1], ks[|ks| - 1];
      WalkMeetsOnce(w, front);
      ArchMeetsOnce(w, k);
      assert ks == front + [k];
      assert k !in front;
      var a, b := Walk(w, front), w.archs[k].entities;
      forall i, j | 0 <= i < |a| && 0 <= j < |b| ensures a[i] != b[j] { assert a[i] in a && b[j] in b; }
      forall e ensures e in a + b <==> e in w.loc && w.loc[e].key in ks {}
    }
  }

  lemma ArchMeetsOnce(w: Index, k: Key)
    requires Shaped(w) && k in w.archs
    ensures NoDup(w.archs[k].entities) && forall e :: e in w.archs[k].entities <==> e in w.loc && w.loc[e].key == k
  {
    var es := w.archs[k].entities;
    forall i, j | 0 <= i < j < |es| ensures es[i] != es[j] { assert RowOk(w, k, i) && RowOk(w, k, j); }
    forall e ensures e in es <==> e in w.loc && w.loc[e].key == k {
      if e in es {
        var r :| 0 <= r < |es| && es[r] == e;
        assert RowOk(w, k, r);
      }
      if e in w.loc && w.loc[e].key == k { assert Placed(w, e); }
    }
  }

  lemma WalkStep(w: Index, ks: seq<Key>, k: nat)
    requires k < |ks| && ks[k] in w.archs
    ensures Walk(w, ks[..k + 1]) == Walk(w, ks[..k]) + w.archs[ks[k]].entities
  {
    assert ks[..k + 1][..k] == ks[..k];
  }

  lemma WalkNothing(w: Index, ks: seq<Key>)
    ensures Walk(w, ks[..0]) == []
  {
  }

  lemma LivesInArch(w: Index)
    requires Shaped(w)
    ensures forall e :: e in w.loc ==> w.loc[e].key in w.archs
  {
    forall e | e in w.loc ensures w.loc[e].key in w.archs { assert Placed(w, e); }
  }

  lemma {:induction false} NoDupCount(s: seq<Entity>, all: set<Entity>)
    requires NoDup(s) && forall e :: e in s <==> e in all
    ensures |s| == |all|
  {
    if s == [] {
      assert forall e :: e in all <==> e in s;
      assert all == {};
    } else {
      var e := s[|s| - 1];
      assert s == s[..|s| - 1] + [e];
      NoDupCount(s[..|s| - 1], all - {e});
    }
  }
}
