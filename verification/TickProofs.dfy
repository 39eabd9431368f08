/** What a tick keeps: throttling on the server, and what its packets do to the client. */
module TickProofs {
  import opened Base
  import opened Schema
  import opened Storage
  import opened Operations
  import opened CommandLaws
  import opened Wire
  import opened SnapshotFormat
  import opened Snapshots
  import opened SaveLoad
  import opened SyncPlan
  import opened Packets
  import opened Replicas
  import opened Deltas
  import opened Servers
  import opened ServerLaws
  import opened ServerRuns
  import opened ServerProofs

  // ------------------------------------------------------------------ the server's side

  lemma TickQueues(c: Setting, r: Run, delta: real, o: Sending)
    requires Queues(c, r) && Allowed(c, r, Tick(delta, o))
    ensures Queues(c, AfterTick(c, r, delta, o))
  {
    hide NetType, ClientTick, SendsNow, StillUnsent, PlanAt, NetEntities, SendingFor, AllDue, NextTicks;
  }

  lemma CanDeliver(c: Setting, r: Run, p: (Entity, TypeId))
    requires Queues(c, r) && p in r.server.dirty
    ensures Deliverable(c.reg, r.store, p) <==> PlanAt(c.reg, p.1).intervals != []
  {
    hide NetType, PlanAt, NetEntities;
  }

  lemma NextAt(intervals: seq<real>, ticks: seq<real>, now: real, b: nat)
    requires b < |intervals|
    ensures TickAt(NextTicks(intervals, ticks, now), b) == if DueAtTime(ticks, b, now) then now + intervals[b]
      else TickAt(ticks, b)
  {
  }

  /** The schedule of one component after a tick: despawns erase it. */
  lemma TicksAfter(c: Setting, r: Run, delta: real, o: Sending, p: (Entity, TypeId), b: nat)
    requires Queues(c, r) && Timed(c, r) && Allowed(c, r, Tick(delta, o)) && b < |PlanAt(c.reg, p.1).intervals|
    ensures var adv := Advanced(r.server, delta);
      TickAt(Ticks(AfterTick(c, r, delta, o).server, p), b) ==
        if p.0 in r.server.despawns then 0.0
        else if p in Touched(c.reg, r.store, adv) && DueAtTime(Ticks(adv, p), b, adv.elapsed)
          then adv.elapsed + PlanAt(c.reg, p.1).intervals[b]
        else TickAt(Ticks(r.server, p), b)
  {
    hide NetType, ClientTick, SendsNow, StillUnsent, PlanAt, NetEntities, SendingFor, AllDue, NextTicks, SpacedFrom,
      Scheduled;
    var adv := Advanced(r.server, delta);
    NextAt(PlanAt(c.reg, p.1).intervals, Ticks(adv, p), adv.elapsed, b);
    assert p in Touched(c.reg, r.store, adv) ==> p.0 in r.server.tracked;
  }

  lemma KeysAfter(c: Setting, r: Run, delta: real, o: Sending, p: (Entity, TypeId))
    requires Queues(c, r) && Timed(c, r) && Allowed(c, r, Tick(delta, o)) && p in AfterTick(c, r, delta, o).server.next
    ensures p.0 in r.server.tracked && p.0 !in r.server.despawns
  {
    hide NetType, ClientTick, SendsNow, StillUnsent, PlanAt, NetEntities, SendingFor, AllDue, NextTicks, SpacedFrom,
      Scheduled, DoubtsAfter, ErasedSince;
  }

  lemma SentNow(c: Setting, store: Store, s: Server, start: real, x: Sent)
    ensures x in SendsNow(c.reg, store, s, start) <==>
      && (x.e, x.t) in Touched(c.reg, store, s) && x.b < |PlanAt(c.reg, x.t).intervals|
      && DueAtTime(Ticks(s, (x.e, x.t)), x.b, s.elapsed) && x.at == start + s.elapsed
  {
    hide PlanAt, Touched, DueAtTime, Ticks;
    var p := (x.e, x.t);
    assert p.0 == x.e && p.1 == x.t;
    if p in Touched(c.reg, store, s) && x.b < |PlanAt(c.reg, x.t).intervals|
      && DueAtTime(Ticks(s, p), x.b, s.elapsed) && x.at == start + s.elapsed {
      assert x == Sent(p.0, p.1, x.b, start + s.elapsed);
    }
  }

  ghost function TickSends(c: Setting, r: Run, delta: real): set<Sent> {
    SendsNow(c.reg, r.store, Advanced(r.server, delta), r.start)
  }

  lemma NonNegative(reg: Registry, t: TypeId, b: nat)
    requires b < |PlanAt(reg, t).intervals|
    ensures PlanAt(reg, t).intervals[b] >= 0.0
  {
    hide PlanOf;
    if Registered(reg, t) { PlanKnown(reg, t); assert PlanAt(reg, t).intervals[b] in PlanAt(reg, t).intervals; }
  }

  /** A send in a tick comes at least one interval after every earlier send of that bucket the server remembers. */
  lemma SendsSpaced(c: Setting, r: Run, delta: real, o: Sending, x: Sent, y: Sent)
    requires Timed(c, r) && Allowed(c, r, Tick(delta, o)) && x in r.throttled && y in TickSends(c, r, delta)
    requires x.e == y.e && x.t == y.t && x.b == y.b
    ensures x.b < |PlanAt(c.reg, x.t).intervals| && y.at >= x.at + PlanAt(c.reg, x.t).intervals[x.b]
  {
    hide NetType, PlanAt, SendingFor, Touched, SendsNow, Scheduled, ErasedSince;
    SentNow(c, r.store, Advanced(r.server, delta), r.start, y);
    assert SpacedFrom(c, r, x);
  }

  /** A bucket of a dirty component that can be delivered goes out in a tick if and only if each of its sends the server
      remembers is at least one interval old. What was erased does not hold it back. */
  lemma GoesOutIff(c: Setting, r: Run, delta: real, o: Sending, y: Sent)
    requires Queues(c, r) && Timed(c, r) && Allowed(c, r, Tick(delta, o))
    requires (y.e, y.t) in r.server.dirty && y.b < |PlanAt(c.reg, y.t).intervals| && y.at == Now(r) + delta
    ensures y in TickSends(c, r, delta) <==>
      forall x :: x in r.throttled && x.e == y.e && x.t == y.t && x.b == y.b ==>
        y.at >= x.at + PlanAt(c.reg, y.t).intervals[y.b]
  {
    hide NetType, PlanAt, SendingFor, SendsNow, ErasedSince, NetEntities, Deliverable, Ticks;
    var p, adv := (y.e, y.t), Advanced(r.server, delta);
    assert p.0 == y.e && p.1 == y.t;
    CanDeliver(c, r, p);
    SentNow(c, r.store, adv, r.start, y);
    assert Ticks(adv, p) == Ticks(r.server, p) by { SameTicks(r.server, adv, p); }
    if y in TickSends(c, r, delta) {
      forall x | x in r.throttled && x.e == y.e && x.t == y.t && x.b == y.b
        ensures y.at >= x.at + PlanAt(c.reg, y.t).intervals[y.b]
      {
        SendsSpaced(c, r, delta, o, x, y);
      }
    } else if p in r.server.next {
      assert Scheduled(c, r, p, y.b);
    } else {
      NoTicks(r.server, p, y.b);
    }
  }

  lemma SameTicks(s: Server, adv: Server, p: (Entity, TypeId))
    requires adv.next == s.next
    ensures Ticks(adv, p) == Ticks(s, p)
  {
  }

  lemma TickScheduled(c: Setting, r: Run, delta: real, o: Sending, p: (Entity, TypeId), b: nat)
    requires Queues(c, r) && Timed(c, r) && Allowed(c, r, Tick(delta, o)) && b < |PlanAt(c.reg, p.1).intervals|
    requires p in AfterTick(c, r, delta, o).server.next
    ensures Scheduled(c, AfterTick(c, r, delta, o), p, b)
  {
    hide NetType, ClientTick, SendsNow, StillUnsent, PlanAt, SendingFor, Touched, TickState, DueAtTime, Ticks, TickAt,
      Queues, SpacedFrom, DoubtsAfter, ErasedSince;
    var adv, v := Advanced(r.server, delta), AfterTick(c, r, delta, o);
    TicksAfter(c, r, delta, o, p, b);
    KeysAfter(c, r, delta, o, p);
    if p in Touched(c.reg, r.store, adv) && DueAtTime(Ticks(adv, p), b, adv.elapsed) {
      var x := Sent(p.0, p.1, b, r.start + adv.elapsed);
      assert (x.e, x.t) == p;
      SentNow(c, r.store, adv, r.start, x);
      assert x in v.throttled;
    } else if p in r.server.next {
      assert Scheduled(c, r, p, b);
      if TickAt(Ticks(r.server, p), b) != 0.0 {
        var x :| x in r.throttled && x.e == p.0 && x.t == p.1 && x.b == b
          && x.at + PlanAt(c.reg, p.1).intervals[b] == r.start + TickAt(Ticks(r.server, p), b);
        assert x in v.throttled;
      }
    } else {
      NoTicks(r.server, p, b);
    }
  }

  lemma NoTicks(s: Server, p: (Entity, TypeId), b: nat)
    requires p !in s.next
    ensures TickAt(Ticks(s, p), b) == 0.0
  {
  }

  lemma TickSpaced(c: Setting, r: Run, delta: real, o: Sending, x: Sent)
    requires Queues(c, r) && Timed(c, r) && Allowed(c, r, Tick(delta, o)) && x in AfterTick(c, r, delta, o).throttled
    ensures SpacedFrom(c, AfterTick(c, r, delta, o), x) && x.e in r.server.tracked
      && x in AfterTick(c, r, delta, o).sends
  {
    hide NetType, ClientTick, SendsNow, StillUnsent, PlanAt, SendingFor, TickState, DueAtTime, Ticks, TickAt,
      Scheduled, NetEntities, DoubtsAfter, ErasedSince;
    var adv, p := Advanced(r.server, delta), (x.e, x.t);
    SentNow(c, r.store, adv, r.start, x);
    if x in r.throttled {
      assert SpacedFrom(c, r, x);
      NonNegative(c.reg, x.t, x.b);
      TicksAfter(c, r, delta, o, p, x.b);
      if p in Touched(c.reg, r.store, adv) && DueAtTime(Ticks(adv, p), x.b, adv.elapsed) {
        DueLater(r.server, adv, p, x.b);
      }
    } else {
      TicksAfter(c, r, delta, o, p, x.b);
      assert p in adv.dirty;
    }
  }

  lemma DueLater(s: Server, adv: Server, p: (Entity, TypeId), b: nat)
    requires adv.next == s.next && DueAtTime(Ticks(adv, p), b, adv.elapsed)
    ensures adv.elapsed >= TickAt(Ticks(s, p), b)
  {
  }

  /** What the server forgets in a tick is on record as erased. */
  lemma TickRecords(c: Setting, r: Run, delta: real, o: Sending, x: Sent)
    requires Timed(c, r) && Allowed(c, r, Tick(delta, o)) && x in AfterTick(c, r, delta, o).sends
    ensures var v := AfterTick(c, r, delta, o);
      x.at <= Now(v) && (x in v.throttled || ErasedSince(v.erasures, x, Now(v)))
  {
    hide NetType, ClientTick, SendsNow, StillUnsent, PlanAt, SendingFor, Scheduled, SpacedFrom, DoubtsAfter, Touched;
    var adv, v := Advanced(r.server, delta), AfterTick(c, r, delta, o);
    ElapsedAfter(c, r, delta, o);
    SentNow(c, r.store, adv, r.start, x);
    if x in r.throttled || x in TickSends(c, r, delta) {
      if x.e in r.server.despawns { assert (x.e, Now(r) + delta) in v.erasures; }
    } else {
      ErasedMore(r.erasures, v.erasures, x, Now(r), Now(v));
    }
  }

  lemma TickTimed(c: Setting, r: Run, delta: real, o: Sending)
    requires Queues(c, r) && Timed(c, r) && Allowed(c, r, Tick(delta, o))
    ensures Timed(c, AfterTick(c, r, delta, o))
  {
    hide NetType, ClientTick, SendsNow, StillUnsent, PlanAt, SendingFor, DueAtTime, Ticks, TickAt, Scheduled,
      SpacedFrom, Queues, Touched, AllDue, ErasedSince, DoubtsAfter;
    var v := AfterTick(c, r, delta, o);
    forall p | p in v.server.next ensures p.0 in v.server.tracked { KeysAfter(c, r, delta, o, p); }
    forall p, b | p in v.server.next && 0 <= b < |PlanAt(c.reg, p.1).intervals|
      ensures Scheduled(c, v, p, b)
    {
      TickScheduled(c, r, delta, o, p, b);
    }
    forall x | x in v.throttled
      ensures SpacedFrom(c, v, x) && x.e in v.server.tracked && x in v.sends
    {
      TickSpaced(c, r, delta, o, x);
    }
    forall x | x in v.sends
      ensures x.at <= Now(v) && (x in v.throttled || ErasedSince(v.erasures, x, Now(v)))
    {
      TickRecords(c, r, delta, o, x);
    }
  }

  lemma TickApart(c: Setting, r: Run, delta: real, o: Sending)
    requires Timed(c, r) && SendsApart(c, r.sends, r.erasures) && Allowed(c, r, Tick(delta, o))
    ensures var v := AfterTick(c, r, delta, o); SendsApart(c, v.sends, v.erasures)
  {
    hide NetType, ClientTick, SendsNow, StillUnsent, PlanAt, SendingFor, Scheduled, SpacedFrom, TickState, Touched,
      ErasedSince, DoubtsAfter, DueAtTime, Ticks;
    var now, v := TickSends(c, r, delta), AfterTick(c, r, delta, o);
    ApartStill(c, r.sends, r.erasures, v.erasures);
    forall x, y | x in v.sends && y in v.sends && x.e == y.e && x.t == y.t && x.b == y.b && x.at < y.at
      ensures SpacedOrErased(c, v.erasures, x, y)
    {
      SentNow(c, r.store, Advanced(r.server, delta), r.start, x);
      SentNow(c, r.store, Advanced(r.server, delta), r.start, y);
      if y in now {
        if x in r.throttled {
          SendsSpaced(c, r, delta, o, x, y);
        } else {
          ErasedMore(r.erasures, v.erasures, x, Now(r), y.at);
        }
      }
    }
  }

  lemma TickUnsent(c: Setting, r: Run, delta: real, o: Sending)
    requires Queues(c, r) && UnsentWaits(c, r) && Allowed(c, r, Tick(delta, o))
    ensures UnsentWaits(c, AfterTick(c, r, delta, o))
  {
    hide NetType, ClientTick, PlanAt, SendingFor, DueAtTime, Ticks, NetEntities, NextTicks, SendsNow, DoubtsAfter;
    var v, adv := AfterTick(c, r, delta, o), Advanced(r.server, delta);
    forall u | u in v.unsent
      ensures u.2 < |PlanAt(c.reg, u.1).intervals|
      ensures u.0 in v.server.tracked && u.0 in v.store && u.1 in v.store[u.0] && NetType(c.reg, u.1) ==>
        (u.0, u.1) in v.server.dirty
    {
      if u.0 in v.server.tracked && u.0 in v.store && u.1 in v.store[u.0] && NetType(c.reg, u.1) {
        StillWaits(c, r, delta, o, u.0, u.1, u.2);
      }
    }
  }

  /** What stays unsent was not due. */
  lemma StillWaits(c: Setting, r: Run, delta: real, o: Sending, e: Entity, t: TypeId, b: nat)
    requires Queues(c, r) && UnsentWaits(c, r) && Allowed(c, r, Tick(delta, o))
      && (e, t, b) in AfterTick(c, r, delta, o).unsent
    requires e in r.server.tracked && e in r.store && t in r.store[e] && NetType(c.reg, t)
    ensures b < |PlanAt(c.reg, t).intervals| && (e, t) in AfterTick(c, r, delta, o).server.dirty
    ensures !DueAtTime(Ticks(Advanced(r.server, delta), (e, t)), b, Advanced(r.server, delta).elapsed)
  {
    hide NetType, ClientTick, PlanAt, SendingFor, DueAtTime, Ticks, NetEntities, NextTicks, SendsNow, DoubtsAfter;
    var p, adv := (e, t), Advanced(r.server, delta);
    assert p.0 == e && p.1 == t && (e, t, b).0 == e && (e, t, b).1 == t && (e, t, b).2 == b;
    assert (e, t, b) in r.unsent;
    assert p in r.server.dirty;
    CanDeliver(c, r, p);
    var x := Sent(e, t, b, r.start + adv.elapsed);
    SentNow(c, r.store, adv, r.start, x);
    assert x !in SendsNow(c.reg, r.store, adv, r.start);
    assert !AllDue(c.reg, adv, p);
  }

  /** After a tick, an unsent bucket of a live tracked component was last sent less than one interval ago: it is sent
      by the first tick that reaches its last send plus its interval. */
  lemma DueIsSent(c: Setting, r: Run, delta: real, o: Sending, e: Entity, t: TypeId, b: nat)
    requires Queues(c, r) && Timed(c, r) && UnsentWaits(c, r) && Allowed(c, r, Tick(delta, o))
      && (e, t, b) in AfterTick(c, r, delta, o).unsent
    requires e in r.server.tracked && e in r.store && t in r.store[e] && NetType(c.reg, t)
    ensures b < |PlanAt(c.reg, t).intervals|
    ensures exists x ::
      x in r.sends && x.e == e && x.t == t && x.b == b
      && Now(AfterTick(c, r, delta, o)) < x.at + PlanAt(c.reg, t).intervals[b]
  {
    hide NetType, ClientTick, PlanAt, SendingFor, NetEntities, NextTicks, SendsNow, UnsentWaits, AfterTick, SpacedFrom;
    var p, adv := (e, t), Advanced(r.server, delta);
    StillWaits(c, r, delta, o, e, t, b);
    assert TickAt(Ticks(adv, p), b) == TickAt(Ticks(r.server, p), b);
    assert p in r.server.next;
    assert Scheduled(c, r, p, b);
    var x :| x in r.throttled && x.e == p.0 && x.t == p.1 && x.b == b
      && x.at + PlanAt(c.reg, p.1).intervals[b] == r.start + TickAt(Ticks(r.server, p), b);
    ElapsedAfter(c, r, delta, o);
  }

  lemma ElapsedAfter(c: Setting, r: Run, delta: real, o: Sending)
    ensures AfterTick(c, r, delta, o).server.elapsed == r.server.elapsed + delta
      && Now(AfterTick(c, r, delta, o)) == Now(r) + delta
  {
    hide ClientTick, SendsNow, StillUnsent, DoubtsAfter;
  }
}
