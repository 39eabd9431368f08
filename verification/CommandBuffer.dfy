/** The command buffer: a queue filled during iteration and flushed through the deferred window outside it. */
module Buffering {
  import opened Base
  import S = Storage
  import opened Schema
  import opened Operations
  import opened Commands
  import opened CommandLaws
  import opened Engine

  /** `add_component` copies the caller's bytes; an empty payload means no data. */
  function Queueable(e: Entity, t: TypeId, data: Option<Bytes>): Command {
    AddComponent(e, t, if data == Some([]) then None else data)
  }

  class CommandBuffer {
    var ops: seq<Command>

    constructor ()
      ensures ops == []
    {
      ops := [];
    }

    method Push(c: Command)
      modifies this
      ensures |ops| == |old(ops)| + 1 && ops[..|old(ops)|] == old(ops)
      ensures var last := ops[|old(ops)|];
        if c.AddComponent? && c.data == Some([]) then last == c.(data := None) else last == c
    {
      ops := ops + [if c.AddComponent? then Queueable(c.entity, c.t, c.data) else c];
    }

    /** An empty queue, or a flush inside an iteration, does nothing; otherwise the queue is taken out and
        every command goes through one deferred window. */
    method Execute(world: World)
      requires world.Valid() && world.Deferral() == (false, EMPTY_WINDOW) && this !in world.repr
      requires forall c :: c in ops ==> CommandOk(world.reg, c)
      modifies this, world, world.repr, world.queryCache
      ensures world.Valid() && fresh(world.repr - old(world.repr)) && world.Deferral() == (false, EMPTY_WINDOW)
      ensures (if old(ops) == [] || old(world.iterationDepth) > 0
        then world.Model() == old(world.Model()) && ops == old(ops)
               else world.Model() == Flush(old(world.Model()), old(ops)) && ops == [])
    {
      hide WorldOk, World.Tied, World.WindowTied, Close, DeferAll, CommandOk;
      if |ops| == 0 || world.iterationDepth > 0 {
        return;
      }
      var queue := ops;
      ops := [];
      world.BeginDeferredMoves();
      IssueAll(world, queue);
      world.EndDeferredMoves();
    }

    method IssueAll(world: World, queue: seq<Command>)
      requires world.Valid() && world.deferMoves && forall c :: c in queue ==> CommandOk(world.reg, c)
      modifies world, world.repr, world.queryCache
      ensures world.Valid() && fresh(world.repr - old(world.repr)) && world.deferMoves
      ensures (world.Model(), world.Deferral().1) == DeferAll(old(world.Model()), old(world.Deferral()).1, queue)
    {
      hide WorldOk, World.Tied, World.WindowTied, Defer, CommandOk;
      ghost var before, d := world.Model(), world.Deferral().1;
      for k := 0 to |queue|
        invariant world.Valid() && world.deferMoves && fresh(world.repr - old(world.repr))
        invariant (world.Model(), world.Deferral().1) == DeferAll(before, d, queue[..k])
      {
        assert queue[..k + 1][..k] == queue[..k];
        Issue(world, queue[k]);
      }
      assert queue[..|queue|] == queue;
    }

    method Issue(world: World, c: Command)
      requires world.Valid() && world.deferMoves && CommandOk(world.reg, c)
      modifies world, world.repr, world.queryCache
      ensures world.Valid() && fresh(world.repr - old(world.repr))
      ensures (world.Model(), world.Deferral().1) == Defer(old(world.Model()), old(world.Deferral()).1, c)
        && world.deferMoves
    {
      hide WorldOk, World.Tied, World.WindowTied, Queue, CreatePreassigned, S.Payload;
      world.Lookup();
      match c {
        case AddComponent(e, t, data) => world.AddComponentRaw(e, t, data);
        case DropComponent(e, t) => world.RemoveComponentRaw(e, t);
        case AddEntity(e) =>
          if !world.IsAlive(e) {
            var made := world.CreateEntityPreassigned(e);
          }
        case RemoveEntity(e) => world.DestroyEntityDeferred(e);
      }
    }
  }
}
