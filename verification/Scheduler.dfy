/** Ordering systems by their declared dependencies, and running the due ones. */
module Scheduler {
  import opened Base

  // ------------------------------------------------------------------ systems and constraints

  datatype Order = AnyOrder | After | Before

  /** A declared dependency: run after the target, or before it. */
  datatype Dep = Dep(order: Order, target: string)

  datatype FlushMode = PerSystem | PerGroup | Manual

  /** A system. What it is called, what it depends on and its settings may change at any time. */
  class EcsSystem {
    var name: string
    var deps: seq<Dep>
    var interval: real
    var flush: FlushMode
    var group: string
    var active: bool
    var paused: bool

    constructor (name: string, group: string, deps: seq<Dep>, interval: real, flush: FlushMode)
      ensures this.name == name && this.group == group && this.deps == deps && this.interval == interval
        && this.flush == flush
      ensures active && !paused
    {
      this.name, this.group, this.deps, this.interval, this.flush := name, group, deps, interval, flush;
      active, paused := true, false;
    }

    method SetGroup(value: string)
      modifies this`group
      ensures group == value
    {
      group := value;
    }

    method SetDeps(value: seq<Dep>)
      modifies this`deps
      ensures deps == value
    {
      deps := value;
    }
  }

  /** What a system answers when an order is computed: its name and its dependencies. */
  datatype Said = Said(name: string, deps: seq<Dep>)

  function Asked(systems: seq<EcsSystem>): (said: seq<Said>)
    reads systems
    ensures |said| == |systems|
    ensures forall i :: 0 <= i < |said| ==> said[i] == Said(systems[i].name, systems[i].deps)
  {
    if systems == [] then [] else
      Asked(systems[..|systems| - 1]) + [Said(systems[|systems| - 1].name, systems[|systems| - 1].deps)]
  }

  /** The system a name stands for: the last one added under it. */
  ghost predicate Names(said: seq<Said>, name: string, i: int) {
    0 <= i < |said| && said[i].name == name && forall k :: i < k < |said| ==> said[k].name != name
  }

  /** What one dependency of system k asks: system a before system b. Unknown targets ask nothing. */
  ghost predicate Asks(said: seq<Said>, k: int, d: Dep, a: int, b: int) {
    || (d.order.After? && b == k && Names(said, d.target, a))
    || (d.order.Before? && a == k && Names(said, d.target, b))
  }

  /** One dependency among all that are stated: the m-th of system k. */
  datatype Origin = Origin(k: nat, m: nat)

  ghost predicate Earlier(x: Origin, y: Origin) {
    x.k < y.k || (x.k == y.k && x.m < y.m)
  }

  ghost predicate Says(said: seq<Said>, o: Origin, a: int, b: int) {
    o.k < |said| && o.m < |said[o.k].deps| && Asks(said, o.k, said[o.k].deps[o.m], a, b)
  }

  /** Some system asks that a run before b. */
  ghost predicate Must(said: seq<Said>, a: int, b: int) {
    exists o :: Says(said, o, a, b)
  }

  type Edges = seq<seq<nat>>

  ghost predicate InRange(out: Edges) {
    forall i, k :: 0 <= i < |out| && 0 <= k < |out[i]| ==> out[i][k] < |out|
  }

  ghost predicate Edge(out: Edges, i: int, j: int) {
    0 <= i < |out| && j in out[i]
  }

  /** The edges are what the dependencies before `upTo` ask, and those out of one system come in the order in which they
      are stated; `from` tells which is which. */
  ghost predicate Traces(said: seq<Said>, out: Edges, from: seq<seq<Origin>>, upTo: Origin) {
    && |from| == |out| == |said|
    && (forall a :: 0 <= a < |out| ==> |from[a]| == |out[a]|)
    && (forall a, i :: 0 <= a < |out| && 0 <= i < |out[a]| ==>
       Says(said, from[a][i], a, out[a][i]) && Earlier(from[a][i], upTo))
    && (forall a :: 0 <= a < |from| ==> Ascending(from[a]))
    && forall o, a, b :: Says(said, o, a, b) && Earlier(o, upTo) ==> 0 <= a < |from| && o in from[a]
  }

  ghost predicate Ascending(os: seq<Origin>) {
    forall i, j :: 0 <= i < j < |os| ==> Earlier(os[i], os[j])
  }

  ghost predicate GraphOf(said: seq<Said>, out: Edges) {
    exists from :: Traces(said, out, from, Origin(|said|, 0))
  }

  /** A closed walk along edges. */
  ghost predicate Cycle(out: Edges, c: seq<int>) {
    |c| >= 2 && c[0] == c[|c| - 1] && forall k :: 0 <= k < |c| - 1 ==> Edge(out, c[k], c[k + 1])
  }

  // ------------------------------------------------------------------ the order

  ghost predicate Permutation(order: seq<nat>, n: nat) {
    |order| == n && NoDup(order) && forall i :: i in order ==> i < n
  }

  /** In the first `split` places every edge into a place comes from an earlier place. */
  ghost predicate Respects(out: Edges, order: seq<nat>, split: nat) {
    split <= |order| && forall i, p :: 0 <= p < split && Edge(out, i, order[p]) ==> i in order[..p]
  }

  ghost predicate WaitsFor(out: Edges, rest: seq<nat>, j: nat) {
    exists i :: i in rest && Edge(out, i, j)
  }

  /** The rest keeps insertion order, and each of its systems waits for one of the rest. */
  ghost predicate Stuck(out: Edges, order: seq<nat>, split: nat) {
    split <= |order|
    && (forall p, q :: split <= p < q < |order| ==> order[p] < order[q])
    && forall p :: split <= p < |order| ==> WaitsFor(out, order[split..], order[p])
  }

  /** Where the last of a system's predecessors stands in an order, or -1 if it has none there. */
  ghost function FreedAt(out: Edges, order: seq<nat>, j: nat): (r: int)
    ensures -1 <= r < |order| && (r >= 0 ==> Edge(out, order[r], j))
    ensures forall p :: 0 <= p < |order| && Edge(out, order[p], j) ==> p <= r
  {
    if order == [] then -1
    else if Edge(out, order[|order| - 1], j) then |order| - 1 else FreedAt(out, order[..|order| - 1], j)
  }

  function LastPlace(s: seq<nat>, j: nat): (r: int)
    ensures -1 <= r < |s| && (r >= 0 ==> s[r] == j)
    ensures forall k :: 0 <= k < |s| && s[k] == j ==> k <= r
  {
    if s == [] then -1 else if s[|s| - 1] == j then |s| - 1 else LastPlace(s[..|s| - 1], j)
  }

  /** System i is ready before j: the last of its predecessors comes earlier; if neither has one, it was added
      earlier; if it is the same for both, that one's last edge to it comes earlier. */
  ghost predicate Sooner(out: Edges, order: seq<nat>, i: nat, j: nat) {
    var a, b := FreedAt(out, order, i), FreedAt(out, order, j);
    a < b || (a == b && if a < 0 then i < j else LastPlace(out[order[a]], i) < LastPlace(out[order[a]], j))
  }

  /** Systems run in the order in which they become ready. */
  ghost predicate Stable(out: Edges, order: seq<nat>, ready: seq<nat>) {
    forall p, q :: 0 <= p < q < |ready| ==> Sooner(out, order, ready[p], ready[q])
  }

  ghost predicate GoodOrder(out: Edges, order: seq<nat>, split: nat) {
    Permutation(order, |out|) && Respects(out, order, split) && Stuck(out, order, split)
    && Stable(out, order[..split], order[..split])
  }

  // ------------------------------------------------------------------ counting edges

  function Count(s: seq<nat>, j: nat): nat {
    if s == [] then 0 else Count(s[..|s| - 1], j) + if s[|s| - 1] == j then 1 else 0
  }

  lemma {:induction false} CountIn(s: seq<nat>, j: nat)
    ensures Count(s, j) > 0 <==> j in s
  {
    if s != [] {
      CountIn(s[..|s| - 1], j);
      assert s == s[..|s| - 1] + [s[|s| - 1]];
    }
  }

  lemma {:induction false} CountTail(s: seq<nat>, j: nat)
    requires s != []
    ensures Count(s, j) == Count(s[1..], j) + if s[0] == j then 1 else 0
  {
    if |s| > 1 {
      CountTail(s[..|s| - 1], j);
      assert s[1..][..|s| - 2] == s[..|s| - 1][1..];
    }
  }

  /** Edges into j from the first n systems that are not done. */
  ghost function Pending(out: Edges, done: seq<nat>, j: nat, n: nat): nat {
    if n == 0 then 0 else
      Pending(out, done, j, n - 1) + if n - 1 in done || n > |out| then 0 else Count(out[n - 1], j)
  }

  /** Finishing one system takes exactly its own edges away. */
  lemma {:induction false} PendingDone(out: Edges, done: seq<nat>, i: nat, j: nat, n: nat)
    requires i < |out| && i !in done && n <= |out|
    ensures Pending(out, done, j, n) == Pending(out, done + [i], j, n) + if i < n then Count(out[i], j) else 0
  {
    if n > 0 {
      PendingDone(out, done, i, j, n - 1);
      assert n - 1 in done + [i] <==> n - 1 in done || n - 1 == i;
    }
  }

  lemma {:induction false} PendingZero(out: Edges, done: seq<nat>, j: nat, n: nat)
    requires n <= |out|
    ensures Pending(out, done, j, n) == 0 <==> forall i :: 0 <= i < n && i !in done ==> j !in out[i]
  {
    if n > 0 {
      PendingZero(out, done, j, n - 1);
      CountIn(out[n - 1], j);
    }
  }

  ghost function Below(n: nat): (s: set<nat>)
    ensures |s| == n && forall i: nat :: i in s <==> i < n
  {
    if n == 0 then {} else Below(n - 1) + {n - 1}
  }

  lemma {:induction false} SeqSize(s: seq<nat>)
    requires NoDup(s)
    ensures |Elements(s)| == |s|
  {
    if s == [] {
      assert Elements(s) == {};
    } else {
      var front, last := s[..|s| - 1], s[|s| - 1];
      SeqSize(front);
      assert s == front + [last];
      assert Elements(s) == Elements(front) + {last};
      assert last !in front;
    }
  }

  lemma {:induction false} SubsetSize(a: set<nat>, b: set<nat>)
    requires a <= b
    ensures |a| <= |b|
  {
    if a != {} {
      var x := Any(a);
      SubsetSize(a - {x}, b - {x});
    }
  }

  /** Pigeonhole: a list without repetition over n values has at most n entries. */
  lemma FewEnough(s: seq<nat>, n: nat)
    requires NoDup(s) && forall i :: i in s ==> i < n
    ensures |s| <= n
  {
    SeqSize(s);
    assert Elements(s) <= Below(n);
    SubsetSize(Elements(s), Below(n));
  }

  // ------------------------------------------------------------------ Kahn's algorithm with fallback

  /** Every system's count of unfinished predecessors is right; finished or queued means none are left. */
  ghost predicate Counted(out: Edges, indegree: seq<int>, order: seq<nat>, queue: seq<nat>) {
    && |indegree| == |out|
    && NoDup(order + queue)
    && (forall j :: j in order + queue ==> j < |out|)
    && (forall j :: 0 <= j < |out| ==> indegree[j] == Pending(out, order, j, |out|))
    && (forall j :: 0 <= j < |out| ==> (j in order + queue <==> indegree[j] == 0))
  }

  /** Members of a list, in the order of their last places in it. */
  ghost predicate InListOrder(s: seq<nat>, picked: seq<nat>) {
    && (forall p :: 0 <= p < |picked| ==> LastPlace(s, picked[p]) >= 0)
    && forall p, q :: 0 <= p < q < |picked| ==> LastPlace(s, picked[p]) < LastPlace(s, picked[q])
  }

  lemma ListOrderGrows(s: seq<nat>, j: nat, picked: seq<nat>, more: seq<nat>)
    requires InListOrder(s, picked) && j !in picked && (more == picked || more == picked + [j])
    ensures InListOrder(s + [j], more)
  {
    assert (s + [j])[..|s|] == s;
    forall p | 0 <= p < |picked| ensures LastPlace(s + [j], picked[p]) == LastPlace(s, picked[p]) {}
  }

  lemma Unlinked(out: Edges, indegree: seq<int>, order: seq<nat>, i: nat, rest: seq<nat>)
    requires Counted(out, indegree, order, [i] + rest)
    ensures i < |out| && forall x :: x in order + ([i] + rest) ==> !Edge(out, i, x)
  {
    hide Pending;
    assert (order + ([i] + rest))[|order|] == i && i in order + ([i] + rest);
    assert i !in order by { Front(order, [i] + rest); }
    forall x | x in order + ([i] + rest) ensures !Edge(out, i, x) { PendingZero(out, order, x, |out|); }
  }

  lemma FreedMore(out: Edges, order: seq<nat>, i: nat, j: nat)
    ensures FreedAt(out, order + [i], j) == if Edge(out, i, j) then |order| else FreedAt(out, order, j)
  {
    assert (order + [i])[..|order|] == order;
  }

  /** Finishing a system makes the ones it frees the last to be ready. */
  lemma StableFinished(out: Edges, order: seq<nat>, i: nat, rest: seq<nat>, freed: seq<nat>)
    requires i < |out| && Stable(out, order, order + ([i] + rest)) && InListOrder(out[i], freed)
    requires forall x :: x in order + ([i] + rest) ==> !Edge(out, i, x)
    ensures Stable(out, order + [i], order + [i] + (rest + freed))
  {
    hide LastPlace, FreedAt, Edge;
    var known, all := order + ([i] + rest), order + [i] + (rest + freed);
    assert all == known + freed;
    forall p, q | 0 <= p < q < |all| ensures Sooner(out, order + [i], all[p], all[q]) {
      FreedMore(out, order, i, all[p]);
      FreedMore(out, order, i, all[q]);
      if q < |known| {
        assert known[p] in known && known[q] in known && Sooner(out, order, known[p], known[q]);
        SoonerStill(out, order, i, all[p], all[q]);
      } else {
        IsLinked(out, i, freed, q - |known|);
        if p < |known| {
          assert known[p] in known;
          FreedBefore(out, order, all[p]);
        } else {
          IsLinked(out, i, freed, p - |known|);
        }
      }
    }
  }

  lemma IsLinked(out: Edges, i: nat, freed: seq<nat>, p: nat)
    requires i < |out| && InListOrder(out[i], freed) && p < |freed|
    ensures Edge(out, i, freed[p])
  {
    assert LastPlace(out[i], freed[p]) >= 0;
  }

  lemma FreedBefore(out: Edges, order: seq<nat>, j: nat)
    ensures FreedAt(out, order, j) < |order|
  {
  }

  lemma SoonerStill(out: Edges, order: seq<nat>, i: nat, x: nat, y: nat)
    requires Sooner(out, order, x, y) && !Edge(out, i, x) && !Edge(out, i, y)
    ensures Sooner(out, order + [i], x, y)
  {
    FreedMore(out, order, i, x);
    FreedMore(out, order, i, y);
    var a := FreedAt(out, order, x);
    if a >= 0 { assert (order + [i])[a] == order[a]; }
  }

  method FirstReady(indegree: array<int>) returns (queue: seq<nat>)
    ensures NoDup(queue) && forall i: nat :: i in queue <==> i < indegree.Length && indegree[i] == 0
    ensures forall p, q :: 0 <= p < q < |queue| ==> queue[p] < queue[q]
  {
    queue := [];
    for i := 0 to indegree.Length
      invariant NoDup(queue) && forall k: nat :: k in queue <==> k < i && indegree[k] == 0
      invariant forall p :: 0 <= p < |queue| ==> queue[p] < i
      invariant forall p, q :: 0 <= p < q < |queue| ==> queue[p] < queue[q]
    {
      if indegree[i] == 0 {
        queue := queue + [i];
      }
    }
  }

  /** Take one ready system: count it out of its successors and queue those that become ready. */
  method Finish(out: array<seq<nat>>, indegree: array<int>, ghost order: seq<nat>, i: nat, rest: seq<nat>)
    returns (queue: seq<nat>, ghost freed: seq<nat>)
    requires out.Length == indegree.Length && InRange(out[..]) && Counted(out[..], indegree[..], order, [i] + rest)
    modifies indegree
    ensures Counted(out[..], indegree[..], order + [i], queue)
    ensures i < out.Length && queue == rest + freed && InListOrder(out[i], freed)
  {
    hide Pending, Count;
    ghost var e := out[..];
    queue, freed := rest, [];
    assert order + ([i] + rest) == order + [i] + rest;
    assert (order + [i] + rest)[|order|] == i && i in order + [i] + rest;
    assert i !in order by { Front(order, [i] + rest); }
    forall j | 0 <= j < |e|
      ensures indegree[j] == Pending(e, order + [i], j, |e|) + Count(out[i], j)
    {
      PendingDone(e, order, i, j, |e|);
    }
    assert out[i][0..] == out[i];
    for m := 0 to |out[i]|
      invariant out[..] == e && NoDup(order + [i] + queue) && forall j :: j in order + [i] + queue ==> j < |e|
      invariant forall j :: 0 <= j < |e| ==> indegree[j] == Pending(e, order + [i], j, |e|) + Count(out[i][m..], j)
      invariant forall j :: 0 <= j < |e| ==> (j in order + [i] + queue <==> indegree[j] == 0)
      invariant queue == rest + freed && InListOrder(out[i][..m], freed)
    {
      hide InListOrder;
      var j := out[i][m];
      assert out[i][..m + 1] == out[i][..m] + [j];
      ghost var listed := freed;
      ghost var before := order + [i] + queue;
      assert out[i][m..][1..] == out[i][m + 1..] && out[i][m..][0] == j;
      forall k: nat
        ensures Count(out[i][m..], k) == Count(out[i][m + 1..], k) + if k == j then 1 else 0
      {
        CountTail(out[i][m..], k);
      }
      assert indegree[j] > 0 && j !in before;
      assert j !in listed by { assert forall x :: x in listed ==> x in queue && x in before; }
      indegree[j] := indegree[j] - 1;
      if indegree[j] == 0 {
        queue, freed := queue + [j], freed + [j];
        assert order + [i] + queue == before + [j];
      }
      ListOrderGrows(out[i][..m], j, listed, freed);
    }
    assert out[i][|out[i]|..] == [] && out[i][..|out[i]|] == out[i];
    forall j: nat ensures Count([], j) == 0 { CountNothing(j); }
  }

  lemma CountNothing(j: nat)
    ensures Count([], j) == 0
  {
  }

  /** A system all of whose predecessors are finished may be placed. */
  lemma Placeable(out: Edges, order: seq<nat>, i: nat)
    requires i < |out| && Pending(out, order, i, |out|) == 0 && Respects(out, order, |order|)
    ensures Respects(out, order + [i], |order| + 1)
  {
    PendingZero(out, order, i, |out|);
    var more := order + [i];
    forall h, p | 0 <= p < |more| && Edge(out, h, more[p]) ensures h in more[..p] {
      assert more[..p] == if p < |order| then order[..p] else order;
    }
  }

  method Kahn(out: array<seq<nat>>, indegree: array<int>) returns (order: seq<nat>)
    requires out.Length == indegree.Length && InRange(out[..])
    requires forall j :: 0 <= j < out.Length ==> indegree[j] == Pending(out[..], [], j, out.Length)
    modifies indegree
    ensures Counted(out[..], indegree[..], order, []) && Respects(out[..], order, |order|)
    ensures Stable(out[..], order, order)
  {
    hide Pending, Edge, Stable, InListOrder;
    ghost var e := out[..];
    order := [];
    var queue := FirstReady(indegree);
    assert [] + queue == queue;
    StableFirst(e, queue);
    while queue != []
      invariant out[..] == e && Counted(e, indegree[..], order, queue) && Respects(e, order, |order|)
      invariant Stable(e, order, order + queue)
      decreases out.Length - |order|
    {
      var i, rest := queue[0], queue[1..];
      assert queue == [i] + rest;
      assert i in order + queue;
      Placeable(e, order, i);
      Unlinked(e, indegree[..], order, i, rest);
      ghost var freed;
      queue, freed := Finish(out, indegree, order, i, rest);
      StableFinished(e, order, i, rest, freed);
      order := order + [i];
      Bounded(order, queue, out.Length);
    }
    assert order + [] == order;
  }

  lemma StableFirst(out: Edges, queue: seq<nat>)
    requires forall p, q :: 0 <= p < q < |queue| ==> queue[p] < queue[q]
    ensures Stable(out, [], queue)
  {
  }

  lemma Front(order: seq<nat>, queue: seq<nat>)
    requires NoDup(order + queue)
    ensures NoDup(order) && forall i :: i in queue ==> i !in order
  {
    forall i, j | 0 <= i < |order| && 0 <= j < |queue| ensures order[i] != queue[j] {
      assert (order + queue)[i] == order[i] && (order + queue)[|order| + j] == queue[j];
    }
    forall i, j | 0 <= i < j < |order|
      ensures order[i] != order[j]
    {
      assert (order + queue)[i] == order[i] && (order + queue)[j] == order[j];
    }
  }

  lemma Bounded(order: seq<nat>, queue: seq<nat>, n: nat)
    requires NoDup(order + queue) && forall j :: j in order + queue ==> j < n
    ensures |order| <= n
  {
    Front(order, queue);
    forall i | i in order ensures i < n { assert i in order + queue; }
    FewEnough(order, n);
  }

  /** Append whatever is left, in insertion order. */
  method AppendStuck(out: array<seq<nat>>, indegree: array<int>, prefix: seq<nat>) returns (order: seq<nat>)
    requires out.Length == indegree.Length && Counted(out[..], indegree[..], prefix, [])
      && Respects(out[..], prefix, |prefix|) && Stable(out[..], prefix, prefix)
    ensures GoodOrder(out[..], order, |prefix|) && order[..|prefix|] == prefix
  {
    hide Pending, Edge, Stable;
    ghost var e := out[..];
    assert prefix + [] == prefix;
    order := prefix;
    for i := 0 to indegree.Length
      invariant |prefix| <= |order| && order[..|prefix|] == prefix && NoDup(order)
      invariant forall k: nat :: k in order <==> k in prefix || (k < i && indegree[k] != 0)
      invariant forall p :: |prefix| <= p < |order| ==> order[p] < i && indegree[order[p]] != 0
      invariant forall p, q :: |prefix| <= p < q < |order| ==> order[p] < order[q]
    {
      if indegree[i] > 0 {
        order := order + [i];
      }
    }
    AppendedStuck(e, indegree[..], prefix, order);
  }

  lemma AppendedStuck(out: Edges, indegree: seq<int>, prefix: seq<nat>, order: seq<nat>)
    requires Counted(out, indegree, prefix, []) && Respects(out, prefix, |prefix|) && Stable(out, prefix, prefix)
    requires |prefix| <= |order| && order[..|prefix|] == prefix && NoDup(order)
    requires forall k: nat :: k in order <==> k in prefix || (k < |out| && indegree[k] != 0)
    requires forall p :: |prefix| <= p < |order| ==> order[p] < |out| && indegree[order[p]] != 0
    requires forall p, q :: |prefix| <= p < q < |order| ==> order[p] < order[q]
    ensures GoodOrder(out, order, |prefix|)
  {
    hide Pending, Edge, Respects, Stuck, Stable;
    assert prefix + [] == prefix;
    Complete(order, |out|);
    StillRespects(out, prefix, order);
    AllWait(out, prefix, order, indegree);
  }

  lemma AllWait(out: Edges, prefix: seq<nat>, order: seq<nat>, indegree: seq<int>)
    requires Counted(out, indegree, prefix, []) && |prefix| <= |order| && order[..|prefix|] == prefix
    requires forall k: nat :: k < |out| ==> k in order
    requires forall p :: |prefix| <= p < |order| ==> order[p] < |out| && indegree[order[p]] != 0
    requires forall p, q :: |prefix| <= p < q < |order| ==> order[p] < order[q]
    ensures Stuck(out, order, |prefix|)
  {
    hide Edge;
    forall p | |prefix| <= p < |order| ensures WaitsFor(out, order[|prefix|..], order[p]) {
      Waits(out, prefix, order, order[p], indegree);
    }
  }

  lemma StillRespects(out: Edges, prefix: seq<nat>, order: seq<nat>)
    requires Respects(out, prefix, |prefix|) && |prefix| <= |order| && order[..|prefix|] == prefix
    ensures Respects(out, order, |prefix|)
  {
    forall i, p | 0 <= p < |prefix| && Edge(out, i, order[p]) ensures i in order[..p] {
      assert order[p] == prefix[p] && order[..p] == prefix[..p];
    }
  }

  /** A system that is left over waits for another one that is. */
  lemma Waits(out: Edges, prefix: seq<nat>, order: seq<nat>, j: nat, indegree: seq<int>)
    requires Counted(out, indegree, prefix, []) && j < |out| && indegree[j] != 0
    requires |prefix| <= |order| && order[..|prefix|] == prefix && forall k: nat :: k < |out| ==> k in order
    ensures WaitsFor(out, order[|prefix|..], j)
  {
    assert prefix + [] == prefix;
    PendingZero(out, prefix, j, |out|);
    var i :| 0 <= i < |out| && i !in prefix && j in out[i];
    assert order == prefix + order[|prefix|..];
    assert i in prefix + order[|prefix|..];
    assert i in order[|prefix|..] && Edge(out, i, j);
  }

  /** A list that names everybody once is a permutation. */
  lemma Complete(order: seq<nat>, n: nat)
    requires NoDup(order) && forall i: nat :: i in order <==> i < n
    ensures Permutation(order, n)
  {
    SeqSize(order);
    assert Elements(order) == Below(n);
  }

  // ------------------------------------------------------------------ what the order guarantees

  /** An edge into the first part comes from an earlier place, so a broken one has both ends in the fallback part. */
  lemma BrokenOnlyWhenStuck(out: Edges, order: seq<nat>, split: nat, p: nat, q: nat)
    requires GoodOrder(out, order, split) && p < |order| && q < |order| && Edge(out, order[p], order[q])
    ensures p < q || (split <= q && split <= p)
  {
    if q < split {
      var m :| 0 <= m < q && order[m] == order[p];
    }
  }

  lemma Predecessor(out: Edges, order: seq<nat>, split: nat, j: nat) returns (i: nat)
    requires Stuck(out, order, split) && j in order[split..]
    ensures i in order[split..] && Edge(out, i, j)
  {
    hide Edge;
    var p :| 0 <= p < |order[split..]| && order[split..][p] == j;
    assert order[split + p] == j && WaitsFor(out, order[split..], order[split + p]);
    i :| i in order[split..] && Edge(out, i, j);
  }

  /** A backward walk that stays in the fallback part: each entry is a predecessor of the one before it. */
  lemma {:induction false} WalkBack(out: Edges, order: seq<nat>, split: nat, n: nat) returns (w: seq<nat>)
    requires Stuck(out, order, split) && split < |order|
    ensures |w| == n + 1 && (forall k :: 0 <= k <= n ==> w[k] in order[split..])
    ensures forall k :: 0 <= k < n ==> Edge(out, w[k + 1], w[k])
  {
    hide Edge, Stuck;
    if n == 0 {
      w := [order[split]];
      assert order[split..][0] == order[split];
    } else {
      var front := WalkBack(out, order, split, n - 1);
      var i := Predecessor(out, order, split, front[n - 1]);
      w := front + [i];
    }
  }

  lemma Repeats(w: seq<nat>, n: nat) returns (a: nat, b: nat)
    requires |w| > n && forall i :: i in w ==> i < n
    ensures a < b < |w| && w[a] == w[b]
  {
    if NoDup(w) { FewEnough(w, n); }
    a, b :| 0 <= a < b < |w| && w[a] == w[b];
  }

  lemma StuckMeansCycle(out: Edges, order: seq<nat>, split: nat)
    requires GoodOrder(out, order, split) && split < |order|
    ensures exists c :: Cycle(out, c)
  {
    hide Edge, Stuck, Respects;
    var w := WalkBack(out, order, split, |out|);
    forall i | i in w ensures i < |out| { assert i in order; }
    var a, b := Repeats(w, |out|);
    TurnAround(out, w, a, b);
  }

  lemma TurnAround(out: Edges, w: seq<nat>, a: nat, b: nat)
    requires a < b < |w| && w[a] == w[b] && forall k :: 0 <= k < |w| - 1 ==> Edge(out, w[k + 1], w[k])
    ensures exists c :: Cycle(out, c)
  {
    hide Edge;
    var c: seq<int> := seq(b - a + 1, k requires 0 <= k <= b - a => w[b - k]);
    forall k | 0 <= k < |c| - 1 ensures Edge(out, c[k], c[k + 1]) {
      var m := b - k - 1;
      assert Edge(out, w[m + 1], w[m]);
    }
    assert Cycle(out, c);
  }

  lemma {:induction false} Ascends(out: Edges, order: seq<nat>, c: seq<int>, k: nat)
    requires Permutation(order, |out|) && Respects(out, order, |order|) && Cycle(out, c) && k < |c|
    requires forall i :: 0 <= i < |c| ==> 0 <= c[i] < |out|
    ensures forall p, q :: 0 <= p < |order| && 0 <= q < |order| && order[p] == c[0] && order[q] == c[k] ==> if k == 0
      then p == q else p < q
  {
    hide Edge;
    if k > 0 {
      Ascends(out, order, c, k - 1);
      Everybody(order, |out|, c[k - 1]);
      var m :| 0 <= m < |order| && order[m] == c[k - 1];
      forall p, q | 0 <= p < |order| && 0 <= q < |order| && order[p] == c[0] && order[q] == c[k] ensures p < q {
        assert Edge(out, order[m], order[q]);
        assert order[m] in order[..q];
      }
    }
  }

  lemma Everybody(order: seq<nat>, n: nat, i: int)
    requires Permutation(order, n) && 0 <= i < n
    ensures i in order
  {
    SeqSize(order);
    if i !in order {
      assert Elements(order) <= Below(n) - {i};
      SubsetSize(Elements(order), Below(n) - {i});
    }
  }

  lemma CycleMeansStuck(out: Edges, order: seq<nat>, split: nat, c: seq<int>)
    requires GoodOrder(out, order, split) && Cycle(out, c) && InRange(out)
    ensures split < |order|
  {
    if split == |order| {
      forall i | 0 <= i < |c| ensures 0 <= c[i] < |out| {
        if i < |c| - 1 { assert Edge(out, c[i], c[i + 1]); } else { assert Edge(out, c[0], c[1]); }
      }
      Ascends(out, order, c, |c| - 1);
      Everybody(order, |out|, c[0]);
    }
  }

  /** The fallback part is non-empty exactly when the constraints have a cycle. */
  lemma StuckIffCycle(out: Edges, order: seq<nat>, split: nat)
    requires GoodOrder(out, order, split) && InRange(out)
    ensures split < |order| <==> exists c :: Cycle(out, c)
  {
    hide Cycle, GoodOrder;
    if split < |order| { StuckMeansCycle(out, order, split); }
    if exists c :: Cycle(out, c) {
      var c :| Cycle(out, c);
      CycleMeansStuck(out, order, split, c);
    }
  }

  // ------------------------------------------------------------------ one order only

  lemma {:induction false} ReadyInBoth(out: Edges, order: seq<nat>, split: nat, other: seq<nat>, cut: nat, p: nat)
    requires GoodOrder(out, order, split) && GoodOrder(out, other, cut) && p <= split
    ensures forall x :: x in order[..p] ==> x in other[..cut]
  {
    hide Edge, Stable, Stuck, NoDup;
    if p > 0 {
      ReadyInBoth(out, order, split, other, cut, p - 1);
      var x := order[p - 1];
      assert order[..p] == order[..p - 1] + [x];
      assert x < |out| by { assert x in order; }
      forall i: nat | Edge(out, i, x) ensures i in other[..cut] { assert i in order[..p - 1]; }
      ReadyToo(out, other, cut, x);
    }
  }

  /** What waits for nobody but systems of the first part is in it. */
  lemma ReadyToo(out: Edges, order: seq<nat>, split: nat, x: nat)
    requires GoodOrder(out, order, split) && x < |out| && forall i: nat :: Edge(out, i, x) ==> i in order[..split]
    ensures x in order[..split]
  {
    hide Edge, Stable, Stuck, NoDup;
    if x !in order[..split] {
      Everybody(order, |out|, x);
      assert order == order[..split] + order[split..];
      var i := Predecessor(out, order, split, x);
      NotTwice(order, split, i);
    }
  }

  lemma NotTwice(s: seq<nat>, cut: nat, i: nat)
    requires NoDup(s) && cut <= |s| && i in s[..cut]
    ensures i !in s[cut..]
  {
    assert s[..cut] + s[cut..] == s;
    Front(s[..cut], s[cut..]);
  }

  lemma FreedSame(out: Edges, order: seq<nat>, other: seq<nat>, p: nat, j: nat)
    requires p <= |order| && p <= |other| && order[..p] == other[..p]
    requires forall q :: 0 <= q < |order| && Edge(out, order[q], j) ==> q < p
    requires forall q :: 0 <= q < |other| && Edge(out, other[q], j) ==> q < p
    ensures FreedAt(out, order, j) == FreedAt(out, other, j) < p
  {
    hide Edge, FreedAt;
    var a, b := FreedAt(out, order, j), FreedAt(out, other, j);
    if a >= 0 { assert order[a] == order[..p][a] == other[..p][a] == other[a]; }
    if b >= 0 { assert order[b] == order[..p][b] == other[..p][b] == other[b]; }
  }

  /** The predecessors of what may come next are all before. */
  lemma FreedInFront(out: Edges, order: seq<nat>, split: nat, p: nat, j: nat)
    requires NoDup(order) && split <= |order| && p <= split && forall i :: Edge(out, i, j) ==> i in order[..p]
    ensures forall q :: 0 <= q < |order[..split]| && Edge(out, order[..split][q], j) ==> q < p
  {
    hide Edge;
  }

  lemma NotBoth(out: Edges, order: seq<nat>, other: seq<nat>, p: nat, x: nat, y: nat)
    requires p <= |order| && p <= |other| && order[..p] == other[..p]
    requires FreedAt(out, order, x) == FreedAt(out, other, x) < p
      && FreedAt(out, order, y) == FreedAt(out, other, y) < p
    requires Sooner(out, order, x, y)
    ensures !Sooner(out, other, y, x)
  {
    var a := FreedAt(out, order, x);
    if a >= 0 { assert order[a] == order[..p][a] == other[..p][a] == other[a]; }
  }

  lemma LaterPlace(s: seq<nat>, split: nat, other: seq<nat>, p: nat, y: nat) returns (q: nat)
    requires split <= |s| && p < split && p < |other| && s[..p] == other[..p] && y == other[p] && NoDup(other)
    requires y in s[..split] && s[p] != y
    ensures p < q < split && s[q] == y
  {
    q :| 0 <= q < split && s[..split][q] == y;
    forall r | 0 <= r < p ensures s[r] == other[r] { assert s[..p][r] == other[..p][r]; }
  }

  /** Two orders that agree up to a place agree on the next. */
  lemma NextSame(out: Edges, order: seq<nat>, split: nat, other: seq<nat>, cut: nat, k: nat)
    requires GoodOrder(out, order, split) && GoodOrder(out, other, cut) && k < split && k < cut
    requires order[..k] == other[..k] && order[k] in other[..cut] && other[k] in order[..split]
    ensures order[k] == other[k]
  {
    hide Edge, Stuck, FreedAt, LastPlace, Sooner;
    var x, y := order[k], other[k];
    if x != y {
      var a, b := order[..split], other[..cut];
      var q := LaterPlace(order, split, other, k, y);
      var r := LaterPlace(other, cut, order, k, x);
      assert a[k] == x && a[q] == y && b[k] == y && b[r] == x;
      assert Sooner(out, a, a[k], a[q]) && Sooner(out, b, b[k], b[r]);
      NotAlso(out, order, split, other, cut, k, x, y);
    }
  }

  lemma NotAlso(out: Edges, order: seq<nat>, split: nat, other: seq<nat>, cut: nat, k: nat, x: nat, y: nat)
    requires GoodOrder(out, order, split) && GoodOrder(out, other, cut) && k < split && k < cut
    requires order[..k] == other[..k] && order[k] == x && other[k] == y && Sooner(out, order[..split], x, y)
    ensures !Sooner(out, other[..cut], y, x)
  {
    hide Edge, Stuck, Stable, FreedAt, LastPlace, Sooner;
    var a, b := order[..split], other[..cut];
    assert a[..k] == order[..k] && b[..k] == other[..k];
    FreedInFront(out, order, split, k, x);
    FreedInFront(out, other, cut, k, x);
    FreedInFront(out, order, split, k, y);
    FreedInFront(out, other, cut, k, y);
    FreedSame(out, a, b, k, x);
    FreedSame(out, a, b, k, y);
    NotBoth(out, a, b, k, x, y);
  }

  lemma {:induction false} SamePrefix(out: Edges, order: seq<nat>, split: nat, other: seq<nat>, cut: nat, p: nat)
    requires GoodOrder(out, order, split) && GoodOrder(out, other, cut) && p <= split && p <= cut
    ensures order[..p] == other[..p]
  {
    if p > 0 {
      hide Edge, Stuck, Stable, NoDup;
      var k := p - 1;
      SamePrefix(out, order, split, other, cut, k);
      ReadyInBoth(out, order, split, other, cut, split);
      ReadyInBoth(out, other, cut, order, split, cut);
      assert order[..split][k] == order[k] && other[..cut][k] == other[k];
      NextSame(out, order, split, other, cut, k);
      assert order[..p] == order[..k] + [order[k]] && other[..p] == other[..k] + [other[k]];
    }
  }

  lemma SomebodyIn(s: seq<nat>)
    ensures s == [] || exists x :: x in s
  {
    if s != [] { assert s[0] in s; }
  }

  lemma {:induction false} SameAscending(s: seq<nat>, t: seq<nat>)
    requires (forall i, j :: 0 <= i < j < |s| ==> s[i] < s[j]) && forall i, j :: 0 <= i < j < |t| ==> t[i] < t[j]
    requires forall x :: x in s <==> x in t
    ensures s == t
    decreases |s|
  {
    if s == [] {
      SomebodyIn(t);
    } else {
      assert s[|s| - 1] in t;
      var m, n := |s| - 1, |t| - 1;
      assert t[n] in s;
      assert s[m] == t[n] by {
        var i :| 0 <= i < |t| && t[i] == s[m];
        var j :| 0 <= j < |s| && s[j] == t[n];
      }
      forall x ensures x in s[..m] <==> x in t[..n] {
        if x in s[..m] { assert x in s && x != s[m]; }
        if x in t[..n] { assert x in t && x != t[n]; }
      }
      SameAscending(s[..m], t[..n]);
      assert s == s[..m] + [s[m]] && t == t[..n] + [t[n]];
    }
  }

  lemma SameSplit(out: Edges, order: seq<nat>, split: nat, other: seq<nat>, cut: nat)
    requires GoodOrder(out, order, split) && GoodOrder(out, other, cut)
    ensures split <= cut
  {
    hide Edge, Stable;
    ReadyInBoth(out, order, split, other, cut, split);
    SeqSize(order[..split]);
    SeqSize(other[..cut]);
    SubsetSize(Elements(order[..split]), Elements(other[..cut]));
  }

  /** A graph has one order that respects it, breaks ties as told and appends what is stuck. */
  lemma OrderIsUnique(out: Edges, order: seq<nat>, split: nat, other: seq<nat>, cut: nat)
    requires GoodOrder(out, order, split) && GoodOrder(out, other, cut)
    ensures order == other && split == cut
  {
    hide Edge, Stable, Respects;
    SameSplit(out, order, split, other, cut);
    SameSplit(out, other, cut, order, split);
    SamePrefix(out, order, split, other, cut, split);
    var s, t := order[split..], other[split..];
    assert order == order[..split] + s && other == other[..split] + t;
    forall x ensures x in s <==> x in t {
      RestOf(order, |out|, split, x);
      RestOf(other, |out|, split, x);
    }
    SameAscending(s, t);
  }

  lemma RestOf(order: seq<nat>, n: nat, split: nat, x: nat)
    requires Permutation(order, n) && split <= |order|
    ensures x in order[split..] <==> x < n && x !in order[..split]
  {
    assert order == order[..split] + order[split..];
    if x < n { Everybody(order, n, x); }
    if x in order[..split] { NotTwice(order, split, x); }
    if x in order[split..] { assert x in order; }
  }

  /** Systems that ask nothing of each other run in the order in which they were added. */
  lemma FreeOrder(out: Edges, order: seq<nat>, split: nat)
    requires GoodOrder(out, order, split) && forall a, b :: !Edge(out, a, b)
    ensures split == |out| && order == seq(|out|, i => i)
  {
    var plain := seq(|out|, i => i);
    var s: seq<nat> := plain;
    forall i: nat | i < |out| ensures i in s { assert s[i] == i; }
    assert s[..|out|] == s && s[|out|..] == [];
    assert GoodOrder(out, s, |out|);
    OrderIsUnique(out, order, split, s, |out|);
  }

  // ------------------------------------------------------------------ building the graph

  ghost predicate Indexed(said: seq<Said>, names: map<string, nat>, n: nat) {
    n <= |said| && forall name :: if name in names then Names(said[..n], name, names[name])
      else forall k :: 0 <= k < n ==> said[k].name != name
  }

  method IndexNames(said: seq<Said>) returns (names: map<string, nat>)
    ensures Indexed(said, names, |said|)
  {
    names := map[];
    for i := 0 to |said|
      invariant Indexed(said, names, i)
    {
      names := names[said[i].name := i];
      forall name
        ensures if name in names then Names(said[..i + 1], name, names[name])
          else forall k :: 0 <= k < i + 1 ==> said[k].name != name
      {
        forall k | 0 <= k < i ensures said[..i + 1][k] == said[..i][k] {}
      }
    }
  }

  /** An index finds exactly the system a name stands for. */
  lemma IndexFinds(said: seq<Said>, names: map<string, nat>, name: string, i: int)
    requires Indexed(said, names, |said|)
    ensures Names(said, name, i) <==> name in names && names[name] == i
  {
    assert said[..|said|] == said;
  }

  ghost predicate Consistent(out: Edges, indegree: seq<int>) {
    InRange(out) && |indegree| == |out| && forall j :: 0 <= j < |out| ==> indegree[j] == Pending(out, [], j, |out|)
  }

  lemma {:induction false} PendingPush(out: Edges, a: nat, b: nat, j: nat, n: nat)
    requires a < |out| && n <= |out|
    ensures Pending(out[a := out[a] + [b]], [], j, n) == Pending(out, [], j, n) + if a < n && j == b then 1 else 0
  {
    if n > 0 {
      PendingPush(out, a, b, j, n - 1);
      assert (out[a] + [b])[..|out[a]|] == out[a];
    }
  }

  method AddEdge(out: array<seq<nat>>, indegree: array<int>, a: nat, b: nat)
    requires Consistent(out[..], indegree[..]) && a < out.Length && b < out.Length
    modifies out, indegree
    ensures Consistent(out[..], indegree[..])
    ensures out[..] == old(out[..])[a := old(out[a]) + [b]]
  {
    hide Pending;
    ghost var e, d := out[..], indegree[..];
    out[a] := out[a] + [b];
    indegree[b] := indegree[b] + 1;
    assert out[..] == e[a := e[a] + [b]];
    forall j | 0 <= j < |e| ensures indegree[j] == Pending(out[..], [], j, |e|) { PendingPush(e, a, b, j, |e|); }
  }

  /** A dependency asks for one edge at most. */
  lemma OneEdge(said: seq<Said>, o: Origin, a: int, b: int, x: int, y: int)
    requires Says(said, o, a, b) && Says(said, o, x, y)
    ensures a == x && b == y
  {
  }

  lemma SaysInRange(said: seq<Said>, o: Origin, a: int, b: int)
    requires Says(said, o, a, b)
    ensures 0 <= a < |said| && 0 <= b < |said|
  {
  }

  lemma TraceOne(said: seq<Said>, out: Edges, from: seq<seq<Origin>>, o: Origin, a: nat, b: nat)
    requires Traces(said, out, from, o) && Says(said, o, a, b) && a < |out|
    ensures Traces(said, out[a := out[a] + [b]], from[a := from[a] + [o]], Origin(o.k, o.m + 1))
  {
    hide Says;
    var more, traced, next := out[a := out[a] + [b]], from[a := from[a] + [o]], Origin(o.k, o.m + 1);
    forall x, i | 0 <= x < |more| && 0 <= i < |more[x]|
      ensures Says(said, traced[x][i], x, more[x][i]) && Earlier(traced[x][i], next)
    {
      if x != a || i < |out[a]| { assert traced[x][i] == from[x][i] && more[x][i] == out[x][i]; }
    }
    forall x | 0 <= x < |traced| ensures Ascending(traced[x]) { if x != a { assert traced[x] == from[x]; } }
    forall p, x, y | Says(said, p, x, y) && Earlier(p, next) ensures 0 <= x < |traced| && p in traced[x] {
      if p == o { OneEdge(said, o, a, b, x, y); } else { assert Earlier(p, o) && p in from[x]; }
    }
  }

  lemma TraceNone(said: seq<Said>, out: Edges, from: seq<seq<Origin>>, o: Origin)
    requires Traces(said, out, from, o) && forall a, b :: !Says(said, o, a, b)
    ensures Traces(said, out, from, Origin(o.k, o.m + 1))
  {
    hide Says;
    forall p, x, y | Says(said, p, x, y) && Earlier(p, Origin(o.k, o.m + 1)) ensures 0 <= x < |from| && p in from[x] {
      assert p != o && Earlier(p, o);
    }
  }

  lemma TraceNext(said: seq<Said>, out: Edges, from: seq<seq<Origin>>, k: nat)
    requires k < |said| && Traces(said, out, from, Origin(k, |said[k].deps|))
    ensures Traces(said, out, from, Origin(k + 1, 0))
  {
    hide Asks;
  }

  /** An edge is there exactly if some system asks for it. */
  lemma GraphEdges(said: seq<Said>, out: Edges)
    requires GraphOf(said, out)
    ensures |out| == |said| && InRange(out) && forall a, b :: Edge(out, a, b) <==> Must(said, a, b)
  {
    hide Says;
    var from :| Traces(said, out, from, Origin(|said|, 0));
    forall a, i | 0 <= a < |out| && 0 <= i < |out[a]| ensures out[a][i] < |out| {
      SaysInRange(said, from[a][i], a, out[a][i]);
    }
    forall a, b ensures Edge(out, a, b) <==> Must(said, a, b) {
      if Must(said, a, b) {
        var o :| Says(said, o, a, b);
        assert Earlier(o, Origin(|said|, 0)) by { assert Says(said, o, a, b); OriginInRange(said, o, a, b); }
        var i :| 0 <= i < |from[a]| && from[a][i] == o;
        OneEdge(said, o, a, b, a, out[a][i]);
      }
      if Edge(out, a, b) {
        var i :| 0 <= i < |out[a]| && out[a][i] == b;
        assert Says(said, from[a][i], a, b);
      }
    }
  }

  lemma OriginInRange(said: seq<Said>, o: Origin, a: int, b: int)
    requires Says(said, o, a, b)
    ensures o.k < |said|
  {
  }

  lemma {:induction false} SameOrigins(s: seq<Origin>, t: seq<Origin>)
    requires Ascending(s) && Ascending(t) && forall o :: o in s <==> o in t
    ensures s == t
    decreases |s|
  {
    assert t != [] ==> t[0] in t && t[0] in s;
    if s != [] {
      assert s[|s| - 1] in s;
      var m, n := |s| - 1, |t| - 1;
      var i :| 0 <= i < |t| && t[i] == s[m];
      assert t[n] in t;
      var j :| 0 <= j < |s| && s[j] == t[n];
      assert s[m] == t[n];
      forall o ensures o in s[..m] <==> o in t[..n] {
        if o in s[..m] { assert o in s && o != s[m]; }
        if o in t[..n] { assert o in t && o != t[n]; }
      }
      SameOrigins(s[..m], t[..n]);
    }
  }

  /** What the systems say determines the graph, lists included. */
  lemma GraphIsUnique(said: seq<Said>, out: Edges, other: Edges)
    requires GraphOf(said, out) && GraphOf(said, other)
    ensures out == other
  {
    hide Says, Ascending;
    var end := Origin(|said|, 0);
    var from :| Traces(said, out, from, end);
    var also :| Traces(said, other, also, end);
    forall a | 0 <= a < |out| ensures out[a] == other[a] {
      TracedBoth(said, out, other, from, also, a);
      TracedBoth(said, other, out, also, from, a);
      SameOrigins(from[a], also[a]);
      forall i | 0 <= i < |out[a]| ensures out[a][i] == other[a][i] {
        OneEdge(said, from[a][i], a, out[a][i], a, other[a][i]);
      }
    }
  }

  lemma TracedBoth(said: seq<Said>, out: Edges, other: Edges, from: seq<seq<Origin>>, also: seq<seq<Origin>>, a: nat)
    requires Traces(said, out, from, Origin(|said|, 0)) && Traces(said, other, also, Origin(|said|, 0)) && a < |out|
    ensures forall o :: o in from[a] ==> o in also[a]
  {
    hide Says, Ascending;
    forall o | o in from[a] ensures o in also[a] {
      var i :| 0 <= i < |from[a]| && from[a][i] == o;
      assert Says(said, from[a][i], a, out[a][i]);
    }
  }

  method AskAll(said: seq<Said>, names: map<string, nat>, out: array<seq<nat>>, indegree: array<int>, k: nat,
                ghost from: seq<seq<Origin>>)
    returns (ghost traced: seq<seq<Origin>>)
    requires Indexed(said, names, |said|) && k < |said| == out.Length && Consistent(out[..], indegree[..])
      && Traces(said, out[..], from, Origin(k, 0))
    modifies out, indegree
    ensures Consistent(out[..], indegree[..]) && Traces(said, out[..], traced, Origin(k + 1, 0))
  {
    hide Consistent, Indexed, Traces;
    traced := from;
    for m := 0 to |said[k].deps|
      invariant Consistent(out[..], indegree[..]) && Traces(said, out[..], traced, Origin(k, m))
    {
      traced := Ask(said, names, out, indegree, Origin(k, m), traced);
    }
    TraceNext(said, out[..], traced, k);
  }

  method Ask(said: seq<Said>, names: map<string, nat>, out: array<seq<nat>>, indegree: array<int>, o: Origin,
             ghost from: seq<seq<Origin>>)
    returns (ghost traced: seq<seq<Origin>>)
    requires Indexed(said, names, |said|) && o.k < |said| == out.Length && o.m < |said[o.k].deps|
      && Consistent(out[..], indegree[..]) && Traces(said, out[..], from, o)
    modifies out, indegree
    ensures Consistent(out[..], indegree[..]) && Traces(said, out[..], traced, Origin(o.k, o.m + 1))
  {
    hide Consistent, Indexed, Names, Traces;
    var d := said[o.k].deps[o.m];
    ghost var e := out[..];
    traced := from;
    forall i
      ensures Names(said, d.target, i) <==> d.target in names && names[d.target] == i
    {
      IndexFinds(said, names, d.target, i);
    }
    if d.target in names && (d.order.After? || d.order.Before?) {
      var j := names[d.target];
      assert j < |said| by { InList(said, d.target, j); }
      var a, b := if d.order.After? then j else o.k, if d.order.After? then o.k else j;
      assert |from| == |e| by { Sizes(said, e, from, o); }
      AddEdge(out, indegree, a, b);
      TraceOne(said, e, from, o, a, b);
      traced := from[a := from[a] + [o]];
    } else {
      TraceNone(said, e, from, o);
    }
  }

  lemma Sizes(said: seq<Said>, out: Edges, from: seq<seq<Origin>>, upTo: Origin)
    requires Traces(said, out, from, upTo)
    ensures |from| == |out| == |said|
  {
  }

  lemma InList(said: seq<Said>, name: string, i: int)
    requires Names(said, name, i)
    ensures 0 <= i < |said|
  {
  }

  method BuildGraph(said: seq<Said>) returns (out: array<seq<nat>>, indegree: array<int>)
    ensures fresh(out) && fresh(indegree) && out.Length == |said| && Consistent(out[..], indegree[..])
    ensures GraphOf(said, out[..])
  {
    hide Indexed, Pending, Traces;
    var names := IndexNames(said);
    out := new seq<nat>[|said|](_ => []);
    indegree := new int[|said|](_ => 0);
    forall j | 0 <= j < |said|
      ensures Pending(out[..], [], j, |said|) == 0
    {
      PendingNone(out[..], j, |said|);
    }
    ghost var from: seq<seq<Origin>> := seq(|said|, _ => []);
    NothingTraced(said, out[..], from);
    for k := 0 to |said|
      invariant Consistent(out[..], indegree[..]) && Traces(said, out[..], from, Origin(k, 0))
    {
      hide Consistent;
      from := AskAll(said, names, out, indegree, k, from);
    }
  }

  lemma NothingTraced(said: seq<Said>, out: Edges, from: seq<seq<Origin>>)
    requires |out| == |from| == |said| && forall a :: 0 <= a < |out| ==> out[a] == [] && from[a] == []
    ensures Traces(said, out, from, Origin(0, 0))
  {
  }

  lemma {:induction false} PendingNone(out: Edges, j: nat, n: nat)
    requires n <= |out| && forall i :: 0 <= i < |out| ==> out[i] == []
    ensures Pending(out, [], j, n) == 0
  {
    if n > 0 { PendingNone(out, j, n - 1); }
  }

  // ------------------------------------------------------------------ the scheduler

  /** An order together with the graph it was computed from and the length of its constraint-respecting part. */
  datatype Plan = Plan(out: Edges, order: seq<nat>, split: nat)

  ghost predicate Plans(said: seq<Said>, systems: seq<EcsSystem>, plan: Plan, sorted: seq<EcsSystem>) {
    && |plan.out| == |said| == |systems| == |plan.order| == |sorted|
    && GraphOf(said, plan.out) && GoodOrder(plan.out, plan.order, plan.split)
    && forall p :: 0 <= p < |sorted| ==> plan.order[p] < |systems| && sorted[p] == systems[plan.order[p]]
  }

  /** A list is an order of these systems by what they said. */
  ghost predicate IsOrderOf(said: seq<Said>, systems: seq<EcsSystem>, sorted: seq<EcsSystem>) {
    exists plan :: Plans(said, systems, plan, sorted)
  }

  /** A group without circular constraints runs in an order that honours every one of them. */
  lemma AcyclicIsHonoured(said: seq<Said>, systems: seq<EcsSystem>, plan: Plan, sorted: seq<EcsSystem>, p: nat,
                          q: nat)
    requires Plans(said, systems, plan, sorted) && (forall c :: !Cycle(plan.out, c)) && p < |sorted| && q < |sorted|
    requires Must(said, plan.order[p], plan.order[q])
    ensures p < q
  {
    hide Must, Cycle, InRange, GraphOf;
    GraphEdges(said, plan.out);
    assert Edge(plan.out, plan.order[p], plan.order[q]);
    StuckIffCycle(plan.out, plan.order, plan.split);
    BrokenOnlyWhenStuck(plan.out, plan.order, plan.split, p, q);
  }

  /** What the systems say determines the order in which they run. */
  lemma OneOrderOnly(said: seq<Said>, systems: seq<EcsSystem>, sorted: seq<EcsSystem>, other: seq<EcsSystem>)
    requires IsOrderOf(said, systems, sorted) && IsOrderOf(said, systems, other)
    ensures sorted == other
  {
    hide GraphOf, GoodOrder;
    var plan :| Plans(said, systems, plan, sorted);
    var also :| Plans(said, systems, also, other);
    GraphIsUnique(said, plan.out, also.out);
    OrderIsUnique(plan.out, plan.order, plan.split, also.order, also.split);
  }

  /** Without constraints that is the order in which they were added. */
  lemma InsertionOrder(said: seq<Said>, systems: seq<EcsSystem>, sorted: seq<EcsSystem>)
    requires IsOrderOf(said, systems, sorted) && forall a, b :: !Must(said, a, b)
    ensures sorted == systems
  {
    hide GraphOf, GoodOrder, Must;
    var plan :| Plans(said, systems, plan, sorted);
    GraphEdges(said, plan.out);
    FreeOrder(plan.out, plan.order, plan.split);
  }

  /** An order of places that honours every constraint said. */
  ghost predicate Honours(said: seq<Said>, order: seq<nat>) {
    forall p, q :: 0 <= p < |order| && 0 <= q < |order| && Must(said, order[p], order[q]) ==> p < q
  }

  /** An order computed from answers without a circle honours the answers of a later time if and only if the
      constraints that are new since are in order. */
  lemma HonoursIff(said: seq<Said>, systems: seq<EcsSystem>, plan: Plan, sorted: seq<EcsSystem>, now: seq<Said>)
    requires Plans(said, systems, plan, sorted) && (forall c :: !Cycle(plan.out, c)) && |now| == |said|
    ensures Honours(now, plan.order) <==>
      forall p, q :: 0 <= p < |sorted| && 0 <= q < |sorted| && Must(now, plan.order[p], plan.order[q]) ==>
        p < q || Must(said, plan.order[p], plan.order[q])
  {
    hide Must, Cycle, InRange, GoodOrder, GraphOf;
    forall p, q | 0 <= p < |sorted| && 0 <= q < |sorted| && Must(said, plan.order[p], plan.order[q])
      ensures p < q
    {
      AcyclicIsHonoured(said, systems, plan, sorted, p, q);
    }
  }

  ghost predicate Due(s: EcsSystem, elapsed: real, last: map<EcsSystem, real>)
    reads s
  {
    s.active && !s.paused && Ripe(s.interval, elapsed, if s in last then last[s] else 0.0)
  }

  ghost predicate Ripe(interval: real, elapsed: real, last: real) {
    interval <= 0.0 || elapsed >= last + interval
  }

  /** The group time at which a system last ran before frame k. */
  ghost function LastRun(times: seq<real>, ran: seq<bool>, k: nat): real
    requires k <= |times| == |ran|
  {
    if k == 0 then 0.0 else if ran[k - 1] then times[k - 1] else LastRun(times, ran, k - 1)
  }

  lemma {:induction false} SameLastRun(times: seq<real>, ran: seq<bool>, x: real, b: bool, k: nat)
    requires k <= |times| == |ran|
    ensures LastRun(times + [x], ran + [b], k) == LastRun(times, ran, k)
  {
    if k > 0 { SameLastRun(times, ran, x, b, k - 1); }
  }

  /** At each frame, whether it ran is whether it was ripe. */
  ghost predicate RanWhenRipe(interval: real, times: seq<real>, ran: seq<bool>) {
    |ran| == |times| && forall k :: 0 <= k < |ran| ==> (ran[k] <==> Ripe(interval, times[k], LastRun(times, ran, k)))
  }

  lemma NoFrame(interval: real)
    ensures RanWhenRipe(interval, [], []) && Forward([]) && LastRun([], [], 0) == 0.0
  {
  }

  lemma NextFrame(interval: real, times: seq<real>, ran: seq<bool>, x: real, b: bool)
    requires RanWhenRipe(interval, times, ran) && Forward(times)
    requires x >= TimeBefore(times, |times|) && (b <==> Ripe(interval, x, LastRun(times, ran, |times|)))
    ensures RanWhenRipe(interval, times + [x], ran + [b]) && Forward(times + [x])
    ensures LastRun(times + [x], ran + [b], |times| + 1) == if b then x else LastRun(times, ran, |times|)
  {
    hide LastRun, Ripe;
    forall k: nat | k <= |times| ensures LastRun(times + [x], ran + [b], k) == LastRun(times, ran, k) {
      SameLastRun(times, ran, x, b, k);
    }
    LastRunMore(times + [x], ran + [b]);
  }

  lemma LastRunMore(times: seq<real>, ran: seq<bool>)
    requires |times| == |ran| && times != []
    ensures var n := |times| - 1; LastRun(times, ran, n + 1) == if ran[n] then times[n] else LastRun(times, ran, n)
  {
  }

  function TimeBefore(times: seq<real>, k: nat): real
    requires k <= |times|
  {
    if k == 0 then 0.0 else times[k - 1]
  }

  /** The group time of each frame: what the frames so far took. */
  ghost predicate Clocked(times: seq<real>, deltas: seq<real>) {
    |times| <= |deltas| && forall k :: 0 <= k < |times| ==> times[k] == TimeBefore(times, k) + deltas[k]
  }

  lemma NotClocked(deltas: seq<real>)
    ensures Clocked([], deltas)
  {
  }

  lemma ClockedMore(times: seq<real>, deltas: seq<real>, x: real)
    requires Clocked(times, deltas) && |times| < |deltas| && x == TimeBefore(times, |times|) + deltas[|times|]
    ensures Clocked(times + [x], deltas)
  {
    var more := times + [x];
    forall k | 0 <= k < |more| ensures more[k] == TimeBefore(more, k) + deltas[k] {
      assert TimeBefore(more, k) == TimeBefore(times, k);
    }
  }

  ghost predicate Forward(times: seq<real>) {
    forall i, j :: 0 <= i <= j < |times| ==> 0.0 <= times[i] <= times[j]
  }

  /** A system with an interval runs at a frame if and only if one interval of group time has passed since the start and
      since each of its earlier runs. */
  lemma RunsIff(interval: real, times: seq<real>, ran: seq<bool>, k: nat)
    requires RanWhenRipe(interval, times, ran) && Forward(times) && interval > 0.0 && k < |times|
    ensures ran[k] <==>
      times[k] >= interval && forall i :: 0 <= i < k && ran[i] ==> times[k] >= times[i] + interval
  {
    LastRunIs(times, ran, k);
    if forall i :: 0 <= i < k ==> !ran[i] {
    } else {
      var last :| 0 <= last < k && ran[last] && LastRun(times, ran, k) == times[last];
      assert last < k ==> times[last] <= times[k];
      assert times[last] >= 0.0;
    }
  }

  /** The last run is the latest one. */
  lemma {:induction false} LastRunIs(times: seq<real>, ran: seq<bool>, k: nat)
    requires |ran| == |times| && Forward(times) && k <= |times|
    ensures forall i :: 0 <= i < k && ran[i] ==> times[i] <= LastRun(times, ran, k)
    ensures (forall i :: 0 <= i < k ==> !ran[i]) ==> LastRun(times, ran, k) == 0.0
    ensures (exists i :: 0 <= i < k && ran[i]) ==>
      exists i :: 0 <= i < k && ran[i] && LastRun(times, ran, k) == times[i]
  {
    if k > 0 { LastRunIs(times, ran, k - 1); }
  }

  ghost function PerSystemFlushes(ran: seq<EcsSystem>): nat
    reads ran
  {
    if ran == [] then 0 else PerSystemFlushes(ran[..|ran| - 1]) + if ran[|ran| - 1].flush.PerSystem? then 1 else 0
  }

  lemma NoFlushes()
    ensures PerSystemFlushes([]) == 0
  {
  }

  lemma {:induction false} FlushesCounted(ran: seq<EcsSystem>)
    ensures PerSystemFlushes(ran) == |set k | 0 <= k < |ran| && ran[k].flush.PerSystem?|
  {
    var here := set k | 0 <= k < |ran| && ran[k].flush.PerSystem?;
    if ran == [] {
      assert here == {};
    } else {
      var n := |ran| - 1;
      FlushesCounted(ran[..n]);
      var before := set k | 0 <= k < |ran[..n]| && ran[..n][k].flush.PerSystem?;
      forall k | 0 <= k < n ensures k in here <==> k in before { assert ran[..n][k] == ran[k]; }
      assert n !in before;
      if ran[n].flush.PerSystem? { assert here == before + {n}; } else { assert here == before; }
    }
  }

  lemma OneMoreFlush(ran: seq<EcsSystem>, s: EcsSystem)
    ensures PerSystemFlushes(ran + [s]) == PerSystemFlushes(ran) + if s.flush.PerSystem? then 1 else 0
  {
    assert (ran + [s])[..|ran|] == ran;
  }

  /** Systems that ran, at ascending places of an order. */
  ghost predicate Follows(ran: seq<EcsSystem>, order: seq<EcsSystem>, at: seq<nat>) {
    && |at| == |ran| && (forall i, j :: 0 <= i < j < |at| ==> at[i] < at[j])
    && forall i :: 0 <= i < |at| ==> at[i] < |order| && order[at[i]] == ran[i]
  }

  lemma NobodyFollows(order: seq<EcsSystem>)
    ensures Follows([], order, [])
  {
  }

  lemma FollowsMore(ran: seq<EcsSystem>, order: seq<EcsSystem>, at: seq<nat>, k: nat)
    requires Follows(ran, order, at) && (forall i :: 0 <= i < |at| ==> at[i] < k) && k < |order|
    ensures Follows(ran + [order[k]], order, at + [k]) && forall i :: 0 <= i < |at + [k]| ==> (at + [k])[i] < k + 1
  {
  }

  class SystemScheduler {
    var systemsByGroup: map<string, seq<EcsSystem>>
    var orderCache: map<string, seq<EcsSystem>>
    var nextRun: map<EcsSystem, real>
    var elapsedByGroup: map<string, real>
    /** What the systems of a group answered when its order was last computed. */
    ghost var asked: map<string, seq<Said>>

    /** A cached order is an order of what is registered now, by what that said when the order was computed. */
    ghost predicate Valid()
      reads this
    {
      forall g :: g in orderCache ==>
        g in systemsByGroup && g in asked && IsOrderOf(asked[g], systemsByGroup[g], orderCache[g])
    }

    constructor ()
      ensures Valid() && systemsByGroup == map[] && orderCache == map[] && nextRun == map[] && elapsedByGroup == map[]
    {
      systemsByGroup, orderCache, nextRun, elapsedByGroup, asked := map[], map[], map[], map[], map[];
    }

    method AddSystem(s: EcsSystem)
      requires Valid()
      modifies this`systemsByGroup, this`orderCache
      ensures Valid() && orderCache == old(orderCache) - {s.group}
      ensures systemsByGroup == old(systemsByGroup)[s.group :=
        (if s.group in old(systemsByGroup) then old(systemsByGroup)[s.group] else []) + [s]]
    {
      hide IsOrderOf;
      var key := s.group;
      systemsByGroup := systemsByGroup[key := (if key in systemsByGroup then systemsByGroup[key] else []) + [s]];
      orderCache := orderCache - {key};
    }

    static function Without(list: seq<EcsSystem>, s: EcsSystem): seq<EcsSystem> {
      if list == [] then [] else
        Without(list[..|list| - 1], s) + if list[|list| - 1] == s then [] else [list[|list| - 1]]
    }

    static lemma {:induction false} WithoutMembers(list: seq<EcsSystem>, s: EcsSystem)
      ensures forall x :: x in Without(list, s) <==> x in list && x != s
    {
      if list != [] {
        WithoutMembers(list[..|list| - 1], s);
        assert list == list[..|list| - 1] + [list[|list| - 1]];
      }
    }

    static ghost predicate Listed(groups: map<string, seq<EcsSystem>>, s: EcsSystem) {
      exists g :: g in groups && s in groups[g]
    }

    static ghost predicate Elsewhere(groups: map<string, seq<EcsSystem>>, s: EcsSystem, key: string) {
      exists g :: g in groups && g != key && s in groups[g]
    }

    static lemma StaysElsewhere(before: map<string, seq<EcsSystem>>, after: map<string, seq<EcsSystem>>, s: EcsSystem,
                                key: string)
      requires before - {key} == after - {key} && (key in after ==> s !in after[key])
      ensures Listed(after, s) <==> Elsewhere(before, s, key)
    {
      assert forall g :: g in after && g != key ==> g in after - {key} && after[g] == (before - {key})[g];
      assert forall g :: g in before && g != key ==> g in before - {key} && before[g] == (after - {key})[g];
    }

    ghost predicate Registered(s: EcsSystem)
      reads this`systemsByGroup
    {
      Listed(systemsByGroup, s)
    }

    /** Registered under a group name other than its own. */
    ghost predicate Strayed(s: EcsSystem)
      reads this`systemsByGroup, s`group
    {
      Elsewhere(systemsByGroup, s, s.group)
    }

    /** Looks in the group the system names now: every occurrence goes if and only if it is in no other group. */
    method RemoveSystem(s: EcsSystem)
      requires Valid()
      modifies this`systemsByGroup, this`orderCache, this`nextRun
      ensures Registered(s) <==> old(Strayed(s))
      ensures Valid() && nextRun == old(nextRun) - {s} && orderCache == old(orderCache) - {s.group}
      ensures systemsByGroup ==
        if s.group !in old(systemsByGroup) then old(systemsByGroup)
        else if Without(old(systemsByGroup)[s.group], s) == [] then old(systemsByGroup) - {s.group}
        else old(systemsByGroup)[s.group := Without(old(systemsByGroup)[s.group], s)]
    {
      hide IsOrderOf, Without, Listed, Elsewhere;
      ghost var before := systemsByGroup;
      var key := s.group;
      if key in systemsByGroup {
        var kept := Without(systemsByGroup[key], s);
        WithoutMembers(systemsByGroup[key], s);
        if kept == [] {
          systemsByGroup := systemsByGroup - {key};
        } else {
          systemsByGroup := systemsByGroup[key := kept];
        }
      }
      orderCache := orderCache - {key};
      nextRun := nextRun - {s};
      StaysElsewhere(before, systemsByGroup, s, key);
    }

    /** A system whose group is changed while it is registered survives its removal. */
    method RegroupedStays(s: EcsSystem, other: string)
      requires Valid() && other != s.group
      modifies this`systemsByGroup, this`orderCache, this`nextRun, s`group
      ensures Valid() && old(s.group) in systemsByGroup && s in systemsByGroup[old(s.group)]
    {
      hide IsOrderOf, Without;
      AddSystem(s);
      s.SetGroup(other);
      RemoveSystem(s);
    }

    method RecomputeOrder(group: string)
      requires Valid()
      modifies this`orderCache, this`asked
      ensures Valid() && (group in orderCache <==> group in systemsByGroup)
      ensures orderCache - {group} == old(orderCache) - {group}
      ensures asked == if group in systemsByGroup then old(asked)[group := Asked(systemsByGroup[group])] else old(asked)
    {
      hide Asked, IsOrderOf, Consistent, Counted, GoodOrder, InRange, Pending, Respects, Must, Edge;
      if group !in systemsByGroup {
        orderCache := orderCache - {group};
        return;
      }
      var systems := systemsByGroup[group];
      var sorted := SortSystems(systems);
      orderCache := orderCache[group := sorted];
      asked := asked[group := Asked(systems)];
    }

    /** Always an order of the group's current systems, computed at most once between changes: by what they say now
        if the order is not cached, else by what they said when it was computed. */
    method Ordered(group: string) returns (sorted: seq<EcsSystem>)
      requires Valid()
      modifies this`orderCache, this`asked
      ensures Valid()
      ensures if group in systemsByGroup
        then group in asked && IsOrderOf(asked[group], systemsByGroup[group], sorted) else sorted == []
      ensures group in old(orderCache) ==>
        sorted == old(orderCache)[group] && orderCache == old(orderCache) && asked == old(asked)
      ensures group in systemsByGroup && group !in old(orderCache) ==>
        asked == old(asked)[group := Asked(systemsByGroup[group])]
      ensures group in systemsByGroup ==> group in orderCache && orderCache[group] == sorted
    {
      hide IsOrderOf;
      if group !in orderCache {
        RecomputeOrder(group);
      }
      if group !in orderCache {
        return [];
      }
      return orderCache[group];
    }

    /** One frame of a group: the due systems run, in order; a system with an interval runs only once at least
        that much group time has passed since it last ran. */
    method Process(delta: real, group: string)
      returns (ran: seq<EcsSystem>, flushes: nat, ghost order: seq<EcsSystem>, ghost at: seq<nat>)
      requires Valid()
      modifies this`orderCache, this`nextRun, this`elapsedByGroup, this`asked
      ensures Valid() && Follows(ran, order, at)
      ensures group in systemsByGroup && systemsByGroup[group] != [] ==>
        group in asked && IsOrderOf(asked[group], systemsByGroup[group], order)
      ensures group in systemsByGroup && systemsByGroup[group] != [] && group !in old(orderCache) ==>
        asked == old(asked)[group := Asked(systemsByGroup[group])]
      ensures elapsedByGroup == old(elapsedByGroup)[group :=
        (if group in old(elapsedByGroup) then old(elapsedByGroup)[group] else 0.0) + delta]
      ensures forall s ::
        s in ran <==>
        group in systemsByGroup && s in systemsByGroup[group] && Due(s, elapsedByGroup[group], old(nextRun))
      ensures forall s :: s in ran && s.interval > 0.0 ==> s in nextRun && nextRun[s] == elapsedByGroup[group]
      ensures forall s :: s !in ran || s.interval <= 0.0 ==>
        (s in nextRun <==> s in old(nextRun)) && (s in nextRun ==> nextRun[s] == old(nextRun)[s])
      ensures flushes == PerSystemFlushes(ran) +
        if group in systemsByGroup && exists s :: s in systemsByGroup[group] && s.flush.PerGroup? then 1 else 0
    {
      hide IsOrderOf, Follows, PerSystemFlushes, Asked;
      NoFlushes();
      ran, flushes, order, at := [], 0, [], [];
      NobodyFollows([]);
      var elapsed := (if group in elapsedByGroup then elapsedByGroup[group] else 0.0) + delta;
      elapsedByGroup := elapsedByGroup[group := elapsed];
      if group !in systemsByGroup || systemsByGroup[group] == [] {
        return;
      }
      var systems := Ordered(group);
      SameSystems(asked[group], systemsByGroup[group], systems);
      order := systems;
      ran, flushes, at := RunDue(systems, elapsed);
      var k := 0;
      while k < |systems| && !systems[k].flush.PerGroup?
        invariant k <= |systems| && forall m :: 0 <= m < k ==> !systems[m].flush.PerGroup?
      {
        k := k + 1;
      }
      if k < |systems| {
        flushes := flushes + 1;
        assert systems[k] in systemsByGroup[group];
      } else {
        assert forall s :: s in systemsByGroup[group] ==> s in systems;
      }
    }

    /** Frame after frame an unpaused system runs when it is ripe. */
    method Frames(deltas: seq<real>, group: string, s: EcsSystem) returns (times: seq<real>, ran: seq<bool>)
      requires Valid() && group in systemsByGroup && s in systemsByGroup[group] && s.active && !s.paused
      requires s !in nextRun && group !in elapsedByGroup && s.interval > 0.0
      requires forall k :: 0 <= k < |deltas| ==> deltas[k] >= 0.0
      modifies this`orderCache, this`nextRun, this`elapsedByGroup, this`asked
      ensures |times| == |deltas| && Forward(times) && Clocked(times, deltas) && RanWhenRipe(s.interval, times, ran)
    {
      hide IsOrderOf, Follows, PerSystemFlushes, Asked, Forward, RanWhenRipe, LastRun, Clocked;
      NoFrame(s.interval);
      times, ran := [], [];
      assert Clocked([], deltas) by { NotClocked(deltas); }
      for k := 0 to |deltas|
        invariant Valid() && |times| == |ran| == k && Forward(times) && RanWhenRipe(s.interval, times, ran)
        invariant Clocked(times, deltas)
        invariant (if group in elapsedByGroup then elapsedByGroup[group] else 0.0) == TimeBefore(times, k)
        invariant (if s in nextRun then nextRun[s] else 0.0) == LastRun(times, ran, k)
      {
        var due, _, _, _ := Process(deltas[k], group);
        var now := elapsedByGroup[group];
        assert now == TimeBefore(times, k) + deltas[k];
        NextFrame(s.interval, times, ran, now, s in due);
        ClockedMore(times, deltas, now);
        times, ran := times + [now], ran + [s in due];
      }
    }

    method RunDue(systems: seq<EcsSystem>, elapsed: real)
      returns (ran: seq<EcsSystem>, flushes: nat, ghost at: seq<nat>)
      modifies this`nextRun
      ensures Follows(ran, systems, at)
      ensures forall s :: s in ran <==> s in systems && Due(s, elapsed, old(nextRun))
      ensures forall s :: s in ran && s.interval > 0.0 ==> s in nextRun && nextRun[s] == elapsed
      ensures forall s :: s !in ran || s.interval <= 0.0 ==>
        (s in nextRun <==> s in old(nextRun)) && (s in nextRun ==> nextRun[s] == old(nextRun)[s])
      ensures flushes == PerSystemFlushes(ran)
    {
      hide Follows, PerSystemFlushes;
      ran, flushes, at := [], 0, [];
      NoFlushes();
      assert Follows([], systems, []) by { NobodyFollows(systems); }
      for k := 0 to |systems|
        invariant Follows(ran, systems, at) && forall i :: 0 <= i < |at| ==> at[i] < k
        invariant forall s :: s in ran <==> s in systems[..k] && Due(s, elapsed, old(nextRun))
        invariant forall s :: s in ran && s.interval > 0.0 ==> s in nextRun && nextRun[s] == elapsed
        invariant forall s :: s !in ran || s.interval <= 0.0 ==>
          (s in nextRun <==> s in old(nextRun)) && (s in nextRun ==> nextRun[s] == old(nextRun)[s])
        invariant flushes == PerSystemFlushes(ran)
      {
        var sys := systems[k];
        assert systems[..k + 1] == systems[..k] + [sys];
        FollowsMore(ran, systems, at, k);
        if sys.active && !sys.paused && (sys.interval <= 0.0
          || elapsed >= (if sys in nextRun then nextRun[sys] else 0.0) + sys.interval) {
          if sys.interval > 0.0 {
            nextRun := nextRun[sys := elapsed];
          }
          OneMoreFlush(ran, sys);
          ran, at := ran + [sys], at + [k];
          if sys.flush.PerSystem? {
            flushes := flushes + 1;
          }
        }
      }
      assert systems[..|systems|] == systems;
    }
  }

  /** An order of a group holds its systems and no others. */
  lemma SameSystems(said: seq<Said>, systems: seq<EcsSystem>, sorted: seq<EcsSystem>)
    requires IsOrderOf(said, systems, sorted)
    ensures forall s :: s in sorted <==> s in systems
  {
    hide GraphOf, Respects, Stuck, Stable;
    var plan :| Plans(said, systems, plan, sorted);
    forall s | s in systems ensures s in sorted {
      var i :| 0 <= i < |systems| && systems[i] == s;
      Everybody(plan.order, |systems|, i);
      var p :| 0 <= p < |plan.order| && plan.order[p] == i;
      assert sorted[p] == s;
    }
  }

  lemma OrderInRange(out: seq<seq<nat>>, order: seq<nat>, split: nat)
    requires GoodOrder(out, order, split)
    ensures |order| == |out| && forall p :: 0 <= p < |order| ==> order[p] < |out|
  {
    hide Respects, Edge, Stuck;
    forall p | 0 <= p < |order| ensures order[p] < |out| { assert order[p] in order; }
  }

  method SortSystems(systems: seq<EcsSystem>) returns (sorted: seq<EcsSystem>)
    ensures IsOrderOf(Asked(systems), systems, sorted)
  {
    hide Counted, Pending, Respects, GraphOf, Must, Edge, Stuck, Stable;
    var said := Asked(systems);
    var out, indegree := BuildGraph(said);
    GraphEdges(said, out[..]);
    ghost var e := out[..];
    var prefix := Kahn(out, indegree);
    var order := AppendStuck(out, indegree, prefix);
    sorted := [];
    OrderInRange(out[..], order, |prefix|);
    for p := 0 to |order|
      invariant |sorted| == p && forall k :: 0 <= k < p ==> sorted[k] == systems[order[k]]
    {
      sorted := sorted + [systems[order[p]]];
    }
    assert out[..] == e;
    assert Plans(said, systems, Plan(e, order, |prefix|), sorted);
  }

  // ------------------------------------------------------------------ answers that change

  lemma FirstOfTwoWaits(out: Edges, order: seq<nat>, split: nat, a: nat, b: nat)
    requires Stuck(out, order, split) && order == [b, a] && split <= 1
    ensures Edge(out, a, a) || Edge(out, b, a)
  {
    hide Edge;
    assert WaitsFor(out, order[split..], order[1]);
    var i :| i in order[split..] && Edge(out, i, a);
    assert i in order;
  }

  /** Of two systems with a constraint between them, one comes before the other. */
  lemma TwoInOrder(out: Edges, order: seq<nat>, split: nat, a: nat, b: nat)
    requires |out| == 2 && GoodOrder(out, order, split) && a + b == 1
    requires Edge(out, a, b) && !Edge(out, b, a) && !Edge(out, a, a)
    ensures order == [a, b]
  {
    hide Edge, Respects, Stable;
    Everybody(order, 2, a);
    Everybody(order, 2, b);
    if order == [b, a] {
      BrokenOnlyWhenStuck(out, order, split, 1, 0);
      FirstOfTwoWaits(out, order, split, a, b);
    }
  }

  lemma Placed(said: seq<Said>, systems: seq<EcsSystem>, sorted: seq<EcsSystem>, a: nat, b: nat)
    requires |said| == 2 && a + b == 1
    requires Must(said, a, b) && !Must(said, b, a) && !Must(said, a, a)
    requires IsOrderOf(said, systems, sorted)
    ensures |systems| == 2 && sorted == [systems[a], systems[b]]
  {
    hide Must, GoodOrder, InRange, Edge, GraphOf;
    var plan :| Plans(said, systems, plan, sorted);
    GraphEdges(said, plan.out);
    assert Edge(plan.out, a, b) && !Edge(plan.out, b, a) && !Edge(plan.out, a, a);
    TwoInOrder(plan.out, plan.order, plan.split, a, b);
  }

  lemma OneConstraint(said: seq<Said>, a: nat, b: nat)
    requires |said| == 2 && a + b == 1 && said[a].name != said[b].name
    requires said[a].deps == [] && said[b].deps == [Dep(After, said[a].name)]
    ensures Must(said, a, b) && !Must(said, b, a) && !Must(said, a, a)
  {
    assert Says(said, Origin(b, 0), a, b);
  }

  /** Two systems, the second after the first; once ordered they say the opposite, and the cached order stays. */
  method StaleOrder() returns (scheduler: SystemScheduler, sorted: seq<EcsSystem>)
    ensures "" in scheduler.systemsByGroup
      && !IsOrderOf(Asked(scheduler.systemsByGroup[""]), scheduler.systemsByGroup[""], sorted)
  {
    hide *;
    var a := new EcsSystem("a", "", [], 0.0, PerSystem);
    var b := new EcsSystem("b", "", [Dep(After, "a")], 0.0, PerSystem);
    scheduler := new SystemScheduler();
    scheduler.AddSystem(a);
    scheduler.AddSystem(b);
    ghost var systems := scheduler.systemsByGroup[""];
    assert systems == [a, b];
    sorted := scheduler.Ordered("");
    ghost var said := Asked(systems);
    OneConstraint(said, 0, 1);
    Placed(said, systems, sorted, 0, 1);
    b.SetDeps([]);
    a.SetDeps([Dep(After, "b")]);
    sorted := scheduler.Ordered("");
    said := Asked(systems);
    OneConstraint(said, 1, 0);
    if IsOrderOf(said, systems, sorted) {
      Placed(said, systems, sorted, 1, 0);
    }
  }
}
