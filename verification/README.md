# VortarisECS: a verified model

VortarisECS is an archetype entity-component store with deferred commands, change detection, binary snapshots and
server-authoritative replication. This project models those parts in Dafny and proves what they are for.

The model has two layers. Values describe what each operation computes: `Storage` and `Operations` for the world,
`Commands` for the deferred window, `SnapshotFormat` and `Packets` for bytes, `Servers` and `ServerRuns` for the
replication protocol. Classes with the fields of the source (`Columns.Column`, `Columns.Archetype`,
`Queries.QueryCache`, `Engine.World`, `Buffering.CommandBuffer`, `ChangeViews.ChangeView`, `Views.View`,
`Buffers.BinaryBuffer`, `Scheduler.SystemScheduler`, `Layout.ComponentRegistry`,
`Replication.SnapshotReplication`) are updated in place by methods, each proved to compute its value. The laws are
proved about the values, over every input and every run.

- **Storage.** `Base`, `Schema`, `Storage`, `StorageLaws`, `Operations`, `Columns`, `Queries`, `Engine`, `Allocator`,
  `Runs`, `OrderlyRuns`, `Collisions`. The world refines a map from entity to components to bytes. An archetype is named
  by its component set.
- **Commands.** `Commands`, `CommandLaws`, `Buffering`. A flush means the one-by-one run, exactly when no command
  revives an id the queue has removed.
- **Change detection.** `Changes`, `ChangeLaws`, `ChangeRuns`, `Takes`, `TakeRuns`, `LostChange`,
  `LostByCompaction`, `LostByReuse`, `Stamps`, `LostByDelta`, `ChangeViews`, `ChangedQueries`. The log fast path equals a
  plain version scan, and the scan sees every change of bytes that leaves a stamp.
- **Queries and views.** `Queries`, `Walks`, `Views`.
- **Snapshots.** `Buffers`, `Wire`, `Serializer`, `SnapshotFormat`, `Snapshots`, `SaveLoad`, `SnapshotIO`,
  `Attempts`, `SnapshotLoad`, `HalfLoads`.
- **Replication.** `SyncPlan`, `Packets`, `PacketChecks`, `Replicas`, `FullStates`, `FullStateApply`, `Deltas`,
  `DeltaApply`, `Receiving`, `Servers`, `ServerLaws`, `ServerRuns`, `ServerProofs`, `TickProofs`, `ClientProofs`,
  `ReplicationLaws`, `Respawns`, `Arrivals`, `Overflows`, `Leftovers`, `FarSlots`, `Delivery`, `Announcements`,
  `Replication`, `Mirroring`, `LocalFields`, `Framing`.
- **Algorithms.** `Scheduler`, `Csv`, `FixedText`, `Layout`.

## What the code does not keep

Sixteen properties one might expect are false of the code. The model keeps the code as it is, reaches a state in which
the property fails, and proves when it holds.

- A fresh id can be live already: `create_entity_preassigned` does not take its slot off the free list, and both
  snapshot load and full-state apply preassign ids on slots that were just freed. Three steps get there
  (`Collisions.ForeignCollides`); so does a world that loads its own save (`Collisions.OwnSaveCollides`) and a rebuilt
  replica (`Collisions.RebuiltCollides`). Creation keeps the world coherent exactly when the id is not live
  (`Operations.CreateIff`, after a load `Collisions.LoadCollidesIff`), which holds in every run whose foreign ids come in
  on open slots (`OrderlyRuns.RunSound`, `Allocator.FitsForeign`); `Collisions.LoadedSoundIff` says when a loaded world
  can start such a run.
- Log compaction can lose a change, although `src/core/world.h` lines 229 to 232 and `src/core/world.cpp` lines 707 to
  709 say it cannot: removing a row resets the maximum version of its columns to 0, and a later scan skips the whole
  archetype (`LostChange.LostForReal`). The take equals the scan exactly when `Takes.TakeIsScanIff` says.
- Compacting archetypes between two takes can lose a change too: an archetype that started to match after the last take
  and is freed before the next one takes its history along (`LostByCompaction.LostToCompaction`). The view may go on
  exactly when `TakeRuns.CompactTrustIff` says, and the next take is complete exactly when
  `TakeRuns.TakeAfterCompactIff` says.
- A new archetype can get the address of a freed one, and a view compares addresses, so it can see no reason to scan
  (`LostByReuse.LostToReuse`). The view may go on exactly when `TakeRuns.ReuseTrustIff` says.
- A delta writes straight into a component that is there, without a stamp and without an event, so a change view of the
  client does not report it (`LostByDelta.LostToDelta`, `Stamps.DeltaIsMissed`). It is the only operation that does so
  (`Stamps.ApplyStamped`, `Stamps.EveryChange`, `Announcements.ApplyTold`).
- A load that fails can have changed the world: while the world is iterated it is not cleared and takes no component, so
  that a load of bytes that passed every check stops half-way (`HalfLoads.RefusedLoadChanges`,
  `Runs.LoadIteratingIff`). Outside iteration nothing is refused (`Runs.LoadOk`, `Receiving.WholeIfFree`).
- A queue that removes a live entity and then adds the same id loses it, because adding is immediate and removing is
  deferred (`CommandLaws.FlushLosesRevived`, `CommandLaws.FlushMeansRun`).
- A server without networked entities sends no full state, so a client keeps its ghosts (`Replicas.GhostStays`,
  `Respawns.ClearedGhost`, `Replicas.ReconcileIff`).
- A server hands out ids on 2^32 - 2 slots and clients take foreign ids on the first 2^24 only, so one entity past them
  is enough for every full state to be refused (`FarSlots.NeverArrives`, `Replicas.FullStateAccepted`).
- An entity that loses its last networked component and gains one again within one tick is spawned and then despawned
  on the client, because despawns go out last (`Respawns.RespawnLost`, `ReplicationLaws.TickMirrorsIff`).
- The same despawn erases when the buckets of that entity are next due, so one can be sent again before its interval is
  over (`Respawns.SentTwice`). A bucket goes out exactly when the sends the server remembers are old enough
  (`TickProofs.GoesOutIff`), and between two sends closer than the interval there is such an erasure
  (`ReplicationLaws.NothingForgotten`).
- What is due need not reach the client: a component count has eight bits, so the delta of an entity with 256 or more due
  components is refused or leaves the entity out, and the server takes it for sent (`Overflows.LostInARun`). A delta
  arrives as it was built exactly when its counts fit (`Arrivals.DeltaArrivesIff`, `Packets.OneArrivesIff`).
- Removing one of several networked components is not sent, so the replica keeps it until it is spawned again or a full
  state comes (`Leftovers.RemovalStays`, `ReplicationLaws.ReplicaTypesIff`).
- A numeric array field sends only its first element, so its memory arrives exactly when the rest was there already
  (`Wire.ArrayIsCut`, `Wire.MemoryArrivesIff`). Saving, loading and saving again still gives identical bytes.
- Removing a system looks in the group it names now, so a regrouped system stays registered
  (`Scheduler.SystemScheduler.RegroupedStays`, `Scheduler.SystemScheduler.RemoveSystem`).
- A system whose dependencies change is still run in the order that is cached (`Scheduler.StaleOrder`,
  `Scheduler.HonoursIff`).

Where the header says ticks in the log strictly increase, they stop increasing once the clock saturates; the log is
sorted, not strictly.

## Abstractions

- Bytes are numbers from 0 to 255. Field contents are byte blocks: floating-point values are never computed with, and
  scalars lie in memory little-endian, as on the wire.
- Signatures of archetypes and queries are arbitrary functions, so collisions are allowed.
- Unordered containers are walked in any order; where an order shows in a result, the order is a parameter.
- An archetype a view remembers is named by its component set; one that was freed matches nothing, until a step of a run
  gives its address to another (`TakeRuns.Act`).
- Observer callbacks are a recorded event trace and do not re-enter.
- Elapsed time is a real number.

## Model

| member | source | states |
|---|---|---|
| Runs.ReachableOk | src/core/world.cpp:32-152 | Over every run from the empty world, whatever foreign ids, snapshot loads and received packets it contains: locations, rows and row indexes are mutually inverse, every column has one row per entity, every live component holds exactly the bytes of its type. Only creation is guarded, by the id it hands out not being live |
| Runs.StepRefines | src/core/world.cpp:32-453 | Every operation, snapshot loads and packets included, keeps the world coherent, does to each entity exactly what the abstract map from entity to components says, and leaves every other entity and its bytes alone |
| Runs.LoadOk | src/serialization/snapshot.cpp:96-138 | Loading replaces the whole store by what the bytes describe; bytes that do not parse change nothing; while the world is iterated it is not cleared and bare entities appear, up to the first record that is refused |
| Runs.LoadIteratingIff | src/serialization/snapshot.cpp:96-138 | Accepted bytes loaded into a world that is iterated: the load succeeds if and only if no record has a component or a live id, and leaves the store as it was if and only if there is no record or the first id is live |
| HalfLoads.RefusedLoadChanges | src/serialization/snapshot.cpp:96-138 | A run of two allowed steps after which a load of accepted bytes has been refused and has left an entity behind |
| Attempts.RecordsGoIn | src/serialization/snapshot.cpp:109-137 | Loading accepted records one step after the other into an emptied world refuses nothing |
| Attempts.RecordsBare | src/serialization/snapshot.cpp:109-137 | While the world is iterated, loading accepted records does to the store what adding bare entities up to the first refusal does, and reports whether all went in |
| Attempts.DeltaHeld | src/network/network_sync.cpp:705-793 | While the world is iterated, a delta reaches the components that are there, up to the first one that is not |
| Receiving.ReceivedOk | src/network/network_sync.cpp:1033-1065 | Whatever bytes arrive, the world stays coherent and its store becomes what the packet says or, while the world is iterated, the part of it that is not refused |
| Receiving.WholeIfFree | src/network/network_sync.cpp:1033-1065 | Outside iteration no step of an accepted packet is refused: it is applied whole |
| OrderlyRuns.ReachableSound | src/core/world.cpp:32-152 | When foreign ids come in on open slots only, live, pooled and free slots stay disjoint in every reachable state, and creation never meets a live id |
| OrderlyRuns.RunSound | src/core/world.cpp:32-152 | The same from any world in which live, pooled and free slots are disjoint, a loaded one for instance |
| OrderlyRuns.OrderlyAllowed | src/core/world.cpp:529-547 | In such a state the next id and the next pooled id are not live |
| Operations.AddRawStore | src/core/world.cpp:211-274 | Adding a component, by overwrite or by an archetype move, changes one entry of one entity in the store; no data means zeroes |
| Operations.AddRawMoves | src/core/world.cpp:251-273 | Adding a missing component is one archetype move and one write that keeps all shared bytes |
| Operations.RemoveComponentStore | src/core/world.cpp:276-308 | Removing a component deletes that one entry; every other byte of the entity survives the move |
| Operations.DestroyOk | src/core/world.cpp:68-95 | Destroying deletes one entry of the store and keeps the world coherent; nothing happens during iteration |
| Operations.DestroyPooledOk | src/core/world.cpp:125-152 | Pooled destroy has the same effect on the store |
| Operations.CreatePreassignedOk | src/core/world.cpp:43-66 | A foreign id becomes live exactly when its slot is below 2^24 and it is not live yet |
| Operations.MarkChangedOk | src/core/world.cpp:314-328 | Marking changes no byte, no id and no component set |
| Operations.ClearOk | src/core/world.cpp:424-464 | Whatever order the index is walked in, clearing leaves no entity, no row and an empty log, and keeps the archetypes |
| Operations.CompactOk | src/core/world.cpp:407-422 | Dropping empty archetypes changes no location and no stored byte |
| Operations.CompactDrops | src/core/world.cpp:407-422 | Exactly the archetypes without entities go, but for the empty one |
| Operations.MoveCells | src/core/world.cpp:732-767 | A move touches no other entity |
| Operations.MoveSelf | src/core/world.cpp:732-767 | A moved entity arrives with its shared bytes; versions survive only between tracked columns |
| StorageLaws.DetachShaped | src/core/archetype.cpp:49-75 | Swap-remove keeps locations, rows and row indexes mutually inverse |
| StorageLaws.DetachCells | src/core/archetype.cpp:49-75 | Swap-remove keeps the cells of every other entity, the one that fills the hole included |
| StorageLaws.AttachShaped | src/core/archetype.cpp:35-47 | Appending a row keeps locations, rows and row indexes mutually inverse |
| Base.SortedUnique | src/core/world.h:238-241 | A component set has exactly one sorted id list, so the list is an exact key |
| Columns.Column.Grow | src/core/column.h:69-77 | A grown column has one more row, with version 0 if it tracks |
| Columns.Column.SwapRemove | src/core/column.h:82-96 | Drops a row by moving the last one into it and forgets the maximum version of a tracked column |
| Columns.Column.PopBack | src/core/column.h:97-106 | Drops the last row, if any, and forgets the maximum |
| Columns.Column.EnsureVersions | src/core/column.h:125-131 | Tracking starts once, stamping existing rows with the given tick |
| Columns.Column.SetVersion | src/core/column.h:132-147 | Stores a version and raises the maximum |
| Columns.Archetype.ColumnIndex | src/core/archetype.cpp:15-21 | Binary search finds the column of a type exactly when the archetype has it |
| Columns.Archetype.AddEntity | src/core/archetype.cpp:35-47 | Appends an enabled row to every column, stamped with the tick |
| Columns.Archetype.RemoveEntity | src/core/archetype.cpp:49-75 | Swap-removes the entity from rows, flags, index and every column, and names the entity moved into the hole |
| Columns.MergeWalk | src/core/world.cpp:737-758 | One linear walk over both sorted id lists copies exactly the shared columns, versions included |
| Engine.World.constructor | src/core/world.cpp:19-22 | A new world holds only the empty archetype |
| Engine.World.CreateArchetype | src/core/world.cpp:589-603 | A new archetype joins list, map and query cache in step |
| Engine.World.EnsureArchetype | src/core/world.cpp:581-587 | Finds the archetype of a sorted id list or creates it |
| Engine.World.MoveEntityTo | src/core/world.cpp:732-767 | The object graph follows the modelled move: target row filled, hole closed, the moved entity relocated |
| Engine.World.AllocEntityId | src/core/world.cpp:529-547 | Hands out the last freed slot at its generation, else a new slot, else none when the slot space is used up |
| Engine.World.FreeEntityId | src/core/world.cpp:549-566 | A stale handle frees nothing; the last generation retires its slot |
| Engine.World.CreateEntity | src/core/world.cpp:32-41 | Refines entity creation in every state; the world stays coherent if and only if the id handed out was not live |
| Engine.World.CreateEntityPreassigned | src/core/world.cpp:43-66 | Refines creation under a foreign id, refused ids included |
| Engine.World.CreateEntityPooled | src/core/world.cpp:108-123 | Reuses the last pooled id unchanged, else creates; the world stays coherent if and only if that id was not live |
| Engine.World.DestroyEntity | src/core/world.cpp:68-95 | Refines destruction: row removed, filler relocated, id freed, one Removed event dispatched per type |
| Engine.World.DispatchRemoved | src/core/world.cpp:91-93 | The loop dispatches one Removed event per remembered type, by ascending id |
| Engine.World.DispatchNet | src/core/world.cpp:685-699 | The two loops dispatch exactly the net events of a commit: gains and writes by ascending id, then losses |
| Engine.World.DestroyEntityPooled | src/core/world.cpp:125-152 | Refines pooled destruction: the id is parked, not freed |
| Engine.World.DestroyEntityDeferred | src/core/world.cpp:97-106 | Inside a deferred window a live entity is doomed and queued; outside it is destroyed |
| Engine.World.AddComponentRaw | src/core/world.cpp:211-274 | Refines adding in all branches: dead, unregistered, queued, overwrite, refused during iteration, move |
| Engine.World.RemoveComponentRaw | src/core/world.cpp:276-308 | Refines removing in all branches |
| Engine.World.MarkChangedRaw | src/core/world.cpp:314-328 | Refines marking: track, stamp, log, announce |
| Engine.World.GetRaw | src/core/world.cpp:181-194 | Returns the stored bytes exactly when the live entity has the component |
| Engine.World.BeginDeferredMoves | src/core/world.cpp:374-376 | Opens the window and touches nothing else |
| Engine.World.CollapseOps | src/core/world.cpp:637-646 | Collapses an op list to the final set and the last written data of each type |
| Engine.World.CommitDeferredMove | src/core/world.cpp:619-703 | Refines the commit: at most one move, surviving writes, net events |
| Engine.World.EndDeferredMoves | src/core/world.cpp:378-405 | Refines closing the window: destroys first, then commits in queue order |
| Engine.World.ClearWorld | src/core/world.cpp:424-464 | Refines clearing, in whatever order the index yields |
| Engine.World.CompactWorld | src/core/world.cpp:407-422 | Refines compaction of list, map and cache |
| Engine.World.MatchQuery | src/core/query.cpp:58-80 | The cached match is the filtered archetype list, in list order |
| Engine.World.ChangeLogLowerBound | src/core/world.h:196-207 | Binary search returns the exact split of the log at a tick |
| Engine.World.LogChange | src/core/world.cpp:705-719 | Appends one entry and halves the log past the soft cap |
| Engine.World.BumpTick | src/core/world.cpp:721-730 | Advances the clock by one, saturating at the top |
| OrderlyRuns.NeverReissued | src/core/world.cpp:529-566 | Over every run without foreign or pooled ids, from any world with disjoint slots and an empty pool, the next id was never handed out before and was not live at the start, retired slots included |
| OrderlyRuns.DeadForGood | src/core/world.cpp:549-566 | In such a run an id that was issued, or live at the start, and is dead stays dead |
| Allocator.SlotsDisjoint | src/core/world.cpp:108-152 | Live and pooled ids own different slots, and none of those slots is free |
| Allocator.FitsFreed | src/core/world.cpp:549-566 | A freed slot comes back one generation later, or never when the generation was the last |
| Allocator.DestroyedThenCreated | src/core/world.cpp:68-95 | Destroying and creating gives the next generation of the same slot, or the id that was next anyway when the generation was the last |
| Allocator.FreedIsNext | src/core/world.cpp:529-566 | The slot freed last is handed out next, one generation later, and the rest of the free list is as it was |
| Allocator.ParkedIsNext | src/core/world.cpp:108-152 | Pooled creation undoes pooled destruction: the same id comes back without components, and the allocator is where it was |
| Allocator.FitsAllocated | src/core/world.cpp:529-547 | A fresh id is owned by nobody |
| Allocator.FitsForeign | src/core/world.cpp:54-65 | A foreign id that is not live keeps live, pooled and free slots disjoint if and only if its slot was neither free nor owned |
| Operations.CreateIff | src/core/world.cpp:32-41 | Creation keeps the world coherent if and only if the id it hands out is not live |
| Operations.CreatePooledIff | src/core/world.cpp:108-123 | Pooled creation keeps the world coherent if and only if the id it hands out is not live |
| Collisions.ForeignCollides | src/core/world.cpp:43-66 | A run of three allowed steps, create, clear, preassign the same id, after which the next id handed out is live |
| Collisions.LoadCollidesIff | src/serialization/snapshot.cpp:96-138 | After loading any accepted snapshot into any world the next id handed out is live if and only if the slot on top of the free list is the slot of a loaded id |
| Collisions.LoadedSoundIff | src/serialization/snapshot.cpp:96-138 | After loading any accepted snapshot live, pooled and free slots are disjoint, so that creation is safe for the rest of an orderly run, if and only if the slots of the loaded ids differ and none is free or parked once the world is cleared |
| Collisions.ClearFreesIff | src/core/world.cpp:424-464 | Clearing frees exactly what was free and the slots of the live ids but those of the last generation |
| Collisions.OwnSaveCollides | src/serialization/snapshot.cpp:96-138 | A world that loads its own save hands a live id out with the next creation, unless every live id has the last generation |
| Collisions.RebuiltCollides | src/network/network_sync.cpp:861-875 | Rebuilding a live replica, as a full state does, makes its id the next one handed out |
| CommandLaws.FlushMeansRun | src/core/command_buffer.cpp:52-92 | A flush and a one-by-one run of the same queue leave the same store if and only if no command adds an id that the queue removed before |
| CommandLaws.FlushLosesRevived | src/core/command_buffer.cpp:77-84 | Remove-then-add of one live id is lost by the flush and kept by the one-by-one run |
| CommandLaws.CollapseIsSequential | src/core/world.cpp:632-646 | Collapsing ops to a final set and last writes gives what the ops give in order |
| CommandLaws.CommitCells | src/core/world.cpp:619-683 | A commit moves an entity at most once and leaves exactly the bytes of the ops in order |
| CommandLaws.NetEventsExact | src/core/world.cpp:685-699 | Each type is announced at most once: Added when gained, Changed when kept and written, Removed when lost |
| CommandLaws.NetEventsInOrder | src/core/world.cpp:685-699 | Gains and writes are announced first, then losses, each by ascending type |
| CommandLaws.RemovedInOrder | src/core/world.cpp:91-93 | Destroying announces exactly the types of the entity, by ascending type |
| CommandLaws.RunAllOk | src/core/command_buffer.cpp:69-89 | Running a queue is, for each entity, running its own commands |
| Buffering.CommandBuffer.Execute | src/core/command_buffer.cpp:52-92 | Executes exactly the modelled flush; empty queues and flushes during iteration do nothing |
| Buffering.CommandBuffer.Push | src/core/command_buffer.cpp:9-40 | Queues one command; empty data means none |
| Takes.QuietTakeIsScan | src/core/world.h:466-560 | With the log intact and the archetypes unchanged, the log alone yields exactly the plain version scan |
| Takes.TakeIsSound | src/core/world.h:458-573 | No take reports an entity the version scan would not |
| Takes.TakeIsScanIff | src/core/world.h:490-560 | A scanning take reports every matching row that may have been written since if and only if, before the call, each such row is in an archetype with an untracked watched column or a recent watched maximum, or is named in what is left of the log |
| Takes.TakeLosesNothing | src/core/world.h:478-541 | While no removal has reset a watched maximum, no take loses anything, across log compaction, clear and new archetypes |
| Takes.AdvancedTrusts | src/core/world.h:561-566 | After a take the view may trust the log from its new position, and nothing is left to report |
| Takes.LowerBoundSplits | src/core/world.h:193-207 | The search point is the exact partition point of the tick-sorted log |
| TakeRuns.ReachableTimed | src/core/world.cpp:705-730 | Over every run, loads and packets included, the log is tick-sorted, within the soft cap and backed by row versions, and every maximum is 0 or bounds its rows |
| Changes.LogKeepsNewest | src/core/world.cpp:705-719 | The log always ends with the newest entry, forgets only past the soft cap and then the older half, and its generation moves on exactly when it forgets |
| Takes.MarkedIsReported | src/core/world.cpp:314-328 | A marked component is reported by the next take of every view that watches it, even if the mark made the log forget |
| Takes.NewViewReportsNothing | src/core/world.h:434-456 | A view that has just been made has nothing to report |
| TakeRuns.EveryTake | src/core/world.h:458-573 | Every take of every run that mixes takes with operations, loads, packets, compactions and reused archetype addresses, wherever the last two are safe, is sound, and complete when quiet or when the maxima are intact |
| TakeRuns.CompactTrustIff | src/core/world.cpp:407-422 | After a compaction the view may go on trusting the log if and only if the compaction was safe: it does not hide that archetypes started to match, or every unreported change is in the unread part of the log |
| TakeRuns.TakeAfterCompactIff | src/core/world.cpp:407-422 | Where a compaction leaves the view no reason to scan, the next take equals the version scan if and only if, before the compaction, every entity with a change was named in the unread part of the log |
| TakeRuns.ReuseTrustIff | src/core/world.h:478-488 | Where a new archetype has the address of a freed one, the view may go on trusting the log if and only if that leaves it a reason to scan, or all watched columns track and every unreported change is in the unread part of the log |
| LostByReuse.ReuseHides | src/core/world.h:478-488 | The only holder of a watched component loses it, the archetype is freed, and the component comes back in an archetype at the freed address: the take reports nobody, and would report the entity at any other address |
| LostByReuse.LostToReuse | src/core/world.h:478-488 | A run from the empty world in which exactly that happens |
| ChangeRuns.ApplyTrust | src/core/world.cpp:211-453 | Every operation that keeps the archetypes, loads and packets included, keeps what the log fast path relies on |
| ChangeLaws.QuietBack | src/core/world.h:478-488 | If nothing forces a scan after a step, nothing did before it, and no matching archetype is new |
| LostByCompaction.CompactionHides | src/core/world.h:478-488 | A view that just took: one entity takes on a component, is written, loses it again, and the archetype it was in is freed; the view stays quiet and does not report the change |
| LostByCompaction.LostToCompaction | src/core/world.h:478-488 | A run from the empty world in which exactly that happens |
| ChangeViews.IdentitiesKept | src/core/world.h:478-488 | Compaction turns the remembered archetypes into what the model says: freed ones match nothing any more |
| LostChange.ForgottenIsLost | src/core/world.h:507-516 | A changed row of a skipped archetype is lost once the log has dropped its entry |
| LostChange.RemovalLosesChange | src/core/column.h:89-95 | Change a row, remove a neighbour, write elsewhere until the log is halved: the next take misses the change |
| LostChange.LostForReal | src/core/world.h:229-232 | A run from the empty world in which exactly that happens |
| Stamps.ApplyStamped | src/core/world.cpp:211-453 | Every operation, loads and packets included, leaves a stamp on every component whose bytes it changes or that is new, but for a delta that overwrites fields of a component that is there |
| Stamps.EveryChange | src/core/world.h:458-573 | From the creation of a view or a take on until the next take: every watched component of a matching entity whose bytes differ is among what the version scan sees, and is reported whenever the take equals the scan, unless such a delta wrote it |
| Stamps.DeltaIsMissed | src/network/network_sync.cpp:772-786 | Right after a take, a delta that finds every component in its place is not reported, whatever bytes it changes |
| LostByDelta.LostToDelta | src/network/network_sync.cpp:772-786 | A run, a take and a packet after which a watched byte has changed and the next take reports nothing |
| ChangeViews.ChangeView.Take | src/core/world.h:458-573 | The method reports, sorted and once each, exactly what the modelled take reports, also after a remembered archetype was freed, and moves baseline and log position on |
| ChangeViews.ChangeView.ScanArches | src/core/world.h:490-530 | The scanning layer tracks every matching column and collects exactly the modelled scan |
| ChangeViews.ChangeView.ReadLog | src/core/world.h:537-560 | Consumes the log from a position: watched, above the baseline, live and still matching |
| ChangedQueries.QueryBuilder.Execute | src/gdscript/vecs_query_builder.cpp:158-241 | The plain version scan: every matching entity with a watched row above the stored baseline, once; the baseline moves to now |
| ChangedQueries.PassingIsScan | src/gdscript/vecs_query_builder.cpp:190-201 | For a query over exactly the watched types that scan is the one change views are measured against |
| Queries.QueryCache.Match | src/core/query.cpp:58-80 | For any signature function, colliding ones included, a match is exactly the filtered archetype list in order |
| Queries.QueryCache.RegisterNewArchetype | src/core/query.cpp:82-88 | A new archetype joins exactly the cached lists whose query it satisfies |
| Queries.QueryCache.EraseArchetype | src/core/query.cpp:90-95 | A freed archetype leaves every cached list, the order of the rest kept |
| Queries.Matches | src/core/query.cpp:32-56 | The linear filter: all, any unless empty, none |
| Queries.SelectedPlaces | src/core/query.cpp:32-80 | A match is the list in its order, without the archetypes whose set lacks an asked component, meets the excluded ones or misses all alternatives |
| Views.View.Each | src/core/world.h:402-416 | Visits each live entity that has all components exactly once, with its components in pack order |
| Views.View.Count | src/core/world.h:418-429 | Counts exactly those entities |
| Walks.WalkMeetsOnce | src/core/world.h:409-414 | Walking archetypes row by row meets each entity of theirs once |
| SaveLoad.SaveLoadSave | src/serialization/snapshot.cpp:14-138 | Saving, loading into any world that is not iterating and saving again gives the identical bytes |
| SaveLoad.LoadedLikeSaved | src/serialization/snapshot.cpp:96-138 | The loaded world has the same ids, rows, component sets and wire bytes |
| SaveLoad.ValuesSurvive | src/serialization/snapshot.cpp:14-138 | Every field of every component of every entity holds after a load what it held when it was saved: texts the same bytes, scalars and raw bytes the same memory, arrays the same first element |
| SaveLoad.SavedWellFormed | src/serialization/snapshot.cpp:14-39 | What is saved are well-formed records, one for each live entity |
| Snapshots.LoadRecordsOk | src/serialization/snapshot.cpp:109-137 | Loading records into an emptied world gives exactly their entities and bytes, the rows of each archetype in file order |
| Snapshots.SavedByType | src/serialization/snapshot.cpp:26-38 | An entity is saved with each of its components once, by ascending type |
| Snapshots.MoveLast | src/core/world.cpp:251-260 | Moving the last row of an archetype appends it to the target and swaps nothing |
| SnapshotFormat.ParseEncode | src/serialization/snapshot.cpp:23-38 | An encoded snapshot parses back to its records |
| SnapshotFormat.ParsedRecords | src/serialization/snapshot.cpp:60-93 | Accepted records have acceptable, distinct ids, registered types and full blocks |
| SnapshotFormat.ParsedBytes | src/serialization/snapshot.cpp:44-94 | What is accepted is, byte for byte, what writing the accepted records gives |
| SnapshotFormat.AcceptedIff | src/serialization/snapshot.cpp:44-94 | A buffer is accepted if and only if it starts with an encoding of well-formed records |
| SnapshotFormat.Header | src/serialization/snapshot.cpp:14-24 | A snapshot starts with version 1 in two bytes and the entity count in four, least significant first |
| SnapshotIO.SerializeSnapshot | src/serialization/snapshot.cpp:14-39 | Writes exactly the modelled bytes: archetypes by signature, rows in order, components by id |
| SnapshotLoad.Check | src/serialization/snapshot.cpp:44-94 | The dry run accepts exactly the buffers that parse |
| SnapshotLoad.DeserializeSnapshot | src/serialization/snapshot.cpp:41-139 | For every byte string: a rejected buffer leaves the world as it was; an accepted one is loaded record by record as modelled, up to the first step the world refuses, and outside iteration whole and with success |
| Buffers.LittleEndian | src/serialization/binary_buffer.cpp:9-33 | A value that fits reads back as it was written |
| Buffers.SameBytes | src/serialization/binary_buffer.cpp:47-87 | Bytes read as a value write back as the same bytes |
| Buffers.LowByteFirst | src/serialization/binary_buffer.cpp:9-33 | The byte at place k of a written value is its digit of weight 256 to the k |
| Buffers.BinaryBuffer.WriteLE | src/serialization/binary_buffer.cpp:9-33 | Appends the little-endian bytes of a value |
| Buffers.BinaryBuffer.ReadLE | src/serialization/binary_buffer.cpp:47-87 | Reads a value, or consumes nothing when the buffer is too short |
| Buffers.BinaryBuffer.ReadBytes | src/serialization/binary_buffer.cpp:155-164 | Reads bytes, or consumes nothing when the buffer is too short |
| Buffers.BinaryBuffer.Seek | src/serialization/binary_buffer.cpp:166-168 | Moves the cursor, clamped to the end |
| Buffers.BinaryBuffer.OverwriteU32 | src/serialization/binary_buffer.cpp:170-178 | Patches four bytes in place, or nothing out of range |
| Serializer.PutField | src/serialization/component_serializer.cpp:13-65 | Writes a field as modelled; what that means for the reader is Wire.FieldIsCopied and Wire.TextArrives |
| Serializer.PutComponent | src/serialization/component_serializer.cpp:217-226 | Writes exactly the fields the mask selects, in schema order |
| Serializer.GetComponent | src/serialization/component_serializer.cpp:228-240 | Reads exactly those fields over the given memory, and fails exactly when the buffer is too short |
| Serializer.ComponentSize | src/serialization/component_serializer.cpp:242-251 | Sums exactly the bytes that would be written |
| Wire.BlockRoundTrip | src/serialization/component_serializer.cpp:217-240 | Writing what was read gives back the bytes that were written, for every mask and any memory underneath |
| Wire.UnmaskedStays | src/serialization/component_serializer.cpp:228-236 | Memory of a field the mask leaves out is not touched |
| Wire.FieldArrives | src/serialization/component_serializer.cpp:228-240 | A field that is read holds exactly its wire bytes |
| Wire.FieldIsCopied | src/serialization/component_serializer.cpp:13-215 | A field that is written and read back has at every place the byte it had, and in a text field 0 from the first NUL on |
| Wire.IsCopyIff | src/serialization/component_serializer.cpp:48-59 | Two memories agree in that way if and only if one writes, for the field, what the other holds |
| Wire.TextArrives | src/serialization/component_serializer.cpp:48-59 | A text field that was copied holds a text if and only if the original holds it |
| Wire.ScalarArrives | src/serialization/component_serializer.cpp:13-47 | A copied field that is no array holds the whole memory its layout gives it |
| Wire.WriteSame | src/serialization/component_serializer.cpp:13-65 | Memories that write the same bytes for a field hold the same value in it |
| Wire.ArrayIsCut | src/serialization/component_serializer.cpp:15-47 | An array of two bytes arrives without its second |
| Wire.MemoryArrivesIff | src/serialization/component_serializer.cpp:15-47 | Only the first element of a numeric array travels: the whole memory arrives if and only if the rest was there already |
| SyncPlan.SyncPlanFor | src/network/network_sync.cpp:88-128 | Builds the plan: the spawn mask, one mask per distinct delta interval, fastest first |
| SyncPlan.BucketsPartition | src/network/network_sync.cpp:96-125 | Bucket masks are pairwise disjoint, cover exactly the networked fields of the delta tiers and stay within the spawn mask |
| SyncPlan.PlanUnique | src/network/network_sync.cpp:79-80 | Two peers derive the same plan from the same schema |
| SyncPlan.FewBuckets | src/network/network_sync.cpp:37-45 | There are at most four buckets |
| SyncPlan.MaskRoundTrip | src/network/network_sync.cpp:130-160 | A mask reads back bit for bit |
| SyncPlan.MaskBits | src/network/network_sync.cpp:130-142 | Field i of a mask has bit i modulo 8 of byte i divided by 8, the lowest bit first, and the bits behind the last field are 0 |
| SyncPlan.PutMask | src/network/network_sync.cpp:130-142 | Writes exactly the modelled mask bytes |
| SyncPlan.GetMask | src/network/network_sync.cpp:144-160 | Reads a mask, or fails when bytes are missing |
| SyncPlan.LocalStaysLocal | src/network/network_sync.cpp:325-333 | Components that differ only in local or non-networked fields write the same bytes under every mask of the plan |
| LocalFields.LocalNeverSent | src/network/network_sync.cpp:451-461 | Two servers that differ only in local or non-networked fields send identical packets in every tick and keep identical bookkeeping |
| Servers.PlanOfOk | src/network/network_sync.cpp:88-128 | The plan used by the state machine is the one the code builds |
| PacketChecks.ValidatePacket | src/network/network_sync.cpp:162-291 | Accepts exactly the packets of versions 1 and 2 that parse to their last byte |
| Framing.NothingBehind | src/network/network_sync.cpp:162-291 | No accepted packet is the beginning of another accepted packet of its kind |
| Framing.TwoVersions | src/network/network_sync.cpp:162-175 | What is accepted, but for a despawn, starts with version 1 or 2 |
| Framing.EntityBytes | src/network/network_sync.cpp:495-533 | The bytes of a spawn, a full state and a despawn about one entity with one component |
| Framing.DueBytes | src/network/network_sync.cpp:410-493 | The bytes of a delta with one due bucket of one component |
| Packets.SpawnBack | src/network/network_sync.cpp:550-565 | A spawn packet parses back to its entity and validates |
| Packets.FullStateBack | src/network/network_sync.cpp:501-532 | A full state parses back to its entities and validates |
| Packets.DeltaBack | src/network/network_sync.cpp:410-493 | A delta parses back to its due buckets and validates |
| Packets.ManyBack | src/network/network_sync.cpp:257-289 | Items that read back one by one read back in a row |
| Arrivals.DeltaFits | src/network/network_sync.cpp:424-481 | Every delta the server builds fits the format but for its counts |
| Packets.ArrivesIff | src/network/network_sync.cpp:162-291 | What a receiver makes of a delta is what was packed if and only if it has fewer than 2^32 entities and each fewer than 256 components |
| Packets.OneArrivesIff | src/network/network_sync.cpp:162-291 | A delta about one entity validates, and then arrives whole, if and only if the entity has fewer than 256 due components; otherwise nothing arrives |
| Packets.LastOverflows | src/network/network_sync.cpp:410-493 | If the last entity alone has 256 components or more, the whole packet is refused, or, at a multiple of 256, just that entity is not in it |
| Arrivals.DeltaArrivesIff | src/network/network_sync.cpp:410-493 | A delta the server builds arrives as it was built if and only if its counts fit |
| Arrivals.LastIsClean | src/network/network_sync.cpp:410-493 | An overflowing count of the last entity never makes a receiver take the delta for something else |
| Overflows.DeltaIsLost | src/network/network_sync.cpp:422-481 | An entity with any number of due components from 256 on: nothing of its delta arrives, and all of it is taken for sent |
| Overflows.LostInARun | src/network/network_sync.cpp:422-481 | A run of allowed steps, for each such number, after which the client shows old bytes and the server has nothing left to send |
| Delivery.SpawnDelivered | src/network/network_sync.cpp:644-691 | The spawn bytes a server sends validate and do to a client world what the protocol model says |
| Delivery.DeltaDelivered | src/network/network_sync.cpp:693-793 | The delta bytes a server sends, whatever the counts, do to a client world what the protocol model says, and what the server means if and only if the counts fit |
| Delivery.DespawnDelivered | src/network/network_sync.cpp:921-934 | The despawn bytes validate and remove the entity from world and replicated set |
| Delivery.FullStateDelivered | src/network/network_sync.cpp:795-919 | The full-state bytes validate and reset a client world as the protocol model says |
| Delivery.AddAnnounced | src/core/world.cpp:234-273 | Adding or overwriting emits exactly one event that announces the change |
| Delivery.RemoveAnnounced | src/core/world.cpp:276-308 | Removing emits exactly one Removed event |
| Delivery.DestroyAnnounced | src/core/world.cpp:74-94 | Destroying emits a Removed event for each component, after the fact |
| Delivery.DestroyPooledAnnounced | src/core/world.cpp:125-152 | Pooled destruction emits the same |
| Delivery.MarkAnnounced | src/core/world.cpp:314-328 | Marking emits one Changed event, which makes the component dirty on a server that tracks the entity and sends the type; where there is nothing to mark nothing is emitted |
| Delivery.ClearAnnounced | src/core/world.cpp:424-464 | Clearing emits one Cleared event, after which a server starts over |
| Delivery.CommitAnnounced | src/core/world.cpp:685-699 | A commit announces exactly its net effect |
| Announcements.ApplyTold | src/core/world.cpp:32-453 | Every operation, flushes, loads and packets included, emits events from which the new component set of every entity follows, and announces every component whose bytes it changes, but for the silent writes of a delta |
| Announcements.EventsTell | src/core/world.cpp:32-453 | Over every run from the empty world the events emitted so far alone tell which entity has which components |
| Replicas.FullStateReplicates | src/network/network_sync.cpp:795-919 | Applying a server full state to any client: every networked entity is there as it arrives, everything else that was replicated is gone, all other entities are untouched |
| Replicas.FieldsArrive | src/network/network_sync.cpp:325-333 | A replicated component has copies of its spawn fields and zeroes in every other field |
| Replicas.ValuesReplicate | src/network/network_sync.cpp:325-333 | Every field of a replicated component that goes on the wire holds what it holds on the server, texts included |
| Replicas.FullStateAccepted | src/network/network_sync.cpp:813-860 | A full state is accepted if and only if every networked entity has a slot below 2^24; it is empty exactly when nothing is networked |
| FarSlots.NeverArrives | src/network/network_sync.cpp:813-860 | From the first entity past slot 2^24 on, reached by a run that only creates entities, the full state and the spawn of that entity change no client, whatever it holds |
| Replicas.ReconcileIff | src/network/network_sync.cpp:528-532 | After a reconcile the client replicates exactly the networked entities, if and only if the server has one or the client held none |
| Replicas.GhostStays | src/network/network_sync.cpp:528-532 | An empty server and a client with one spawned entity: the reconcile leaves it |
| Replicas.ApplyFullOk | src/network/network_sync.cpp:861-919 | Named entities become what the packet says, other replicated ones go, the rest stays |
| Replicas.SentRecords | src/network/network_sync.cpp:505-527 | One well-formed record for each networked entity, none for any other |
| Replicas.SentByType | src/network/network_sync.cpp:505-527 | An entity is sent with its networked components by ascending type |
| FullStates.SerializeFullState | src/network/network_sync.cpp:495-533 | Writes exactly the modelled packet: archetypes by signature, count patched in, empty when nobody is networked |
| FullStates.PutComponentBlock | src/network/network_sync.cpp:316-334 | Writes type, spawn mask and masked fields of a component that is there, nothing otherwise |
| FullStates.NetworkedType | src/network/network_sync.cpp:301-314 | Registered, networked, and with a field that is not local |
| FullStateApply.ScanEntities | src/network/network_sync.cpp:813-860 | The first pass accepts exactly what parses with acceptable, distinct ids |
| FullStateApply.ApplyFullState | src/network/network_sync.cpp:795-919 | For every byte string: a packet the first pass rejects leaves world and replicated set as they were; any other is applied entity by entity as modelled, up to the first step the world refuses, and what was replicated is reconciled only after the last |
| Deltas.ApplyDeltaOk | src/network/network_sync.cpp:705-793 | A delta rewrites the named components of entities still alive, bucket by bucket, and nothing else |
| Deltas.ApplyDueOk | src/network/network_sync.cpp:779-786 | One due record changes one component of one entity |
| Deltas.ApplySpawnOk | src/network/network_sync.cpp:644-691 | A spawn adds one entity, or nothing when its id is refused |
| DeltaApply.ApplyDeltaPacket | src/network/network_sync.cpp:693-793 | Unless the world refuses a component it consumes exactly the packet, whichever entities are dead locally; live ones join the replicated set |
| DeltaApply.ApplySpawnPacket | src/network/network_sync.cpp:644-691 | Refines applying a spawn; an entity the world refuses, or a component of it, is not replicated |
| DeltaApply.ApplyPacket | src/network/network_sync.cpp:1033-1065 | A malformed packet is dropped before anything is touched; an accepted one is applied as modelled, outside iteration whole |
| ReplicationLaws.RunKeeps | src/network/network_sync.cpp:336-617 | Every run of announced component changes, ticks and clears keeps the protocol invariant; of each delta the client gets what a receiver makes of its bytes |
| ReplicationLaws.NothingForgotten | src/network/network_sync.cpp:336-493 | Over every run a bucket not yet packed since it was written has its component dirty or its entity waiting to be spawned, and two sends of one bucket are at least its interval apart or the throttle state of the entity was erased between them |
| TickProofs.DueIsSent | src/network/network_sync.cpp:451-473 | After any tick a bucket not yet packed since it was written went out last less than one interval ago: the first tick that reaches last send plus interval packs it; whether the packet arrives is Arrivals.DeltaArrivesIff |
| TickProofs.SendsSpaced | src/network/network_sync.cpp:452-459 | A send in a tick comes at least one interval after every earlier send of that bucket the server remembers |
| TickProofs.GoesOutIff | src/network/network_sync.cpp:452-459 | A bucket of a dirty deliverable component goes out in a tick if and only if each of its sends the server remembers is at least one interval old |
| ReplicationLaws.ClientMirrors | src/network/network_sync.cpp:535-617 | After any tick of any run in which no delta was taken for something else: the client keeps its own entities and, for every id that is not off, replicates it exactly if the server has it networked and reads the same in each bucket, or was sent it less than one interval ago, or the packet of its last send was lost |
| Mirroring.TickReceived | src/network/network_sync.cpp:535-617 | A client world that receives the packets of a tick, in the order in which they go out, ends exactly as the protocol model says: world, store and replicated set |
| Mirroring.RunReceived | src/network/network_sync.cpp:535-617 | So it does over every run in which it receives the packets of every tick |
| Mirroring.WorldMirrors | src/network/network_sync.cpp:535-617 | What ClientMirrors says therefore holds of the world of such a client |
| ReplicationLaws.FullStateDueIff | src/network/network_sync.cpp:604-616 | A full state is due at a tick if and only if the ticks since one was last due, since the last clear or since the beginning have taken one reconciliation interval |
| ReplicationLaws.SmallLosesNothing | src/network/network_sync.cpp:422-481 | No packet is lost or taken for something else in a run whose deltas have counts that fit |
| ReplicationLaws.ReplicaTypesIff | src/network/network_sync.cpp:356-383 | A replica has exactly the networked components of its entity if and only if none was removed since its last spawn or full state that it had, and none was added that no packet has brought since |
| Leftovers.RemovalStays | src/network/network_sync.cpp:356-383 | A run of allowed steps after which a replica has a component its entity on the server has lost |
| ReplicationLaws.CalmIsRight | src/network/network_sync.cpp:543-602 | No id is off in a run without clears in which no tick finds an entity tracked again and still waiting for its despawn |
| ReplicationLaws.TickMirrorsIff | src/network/network_sync.cpp:543-602 | A tick without a full state leaves a client that was right with exactly the tracked entities if and only if no tracked entity also waits for its despawn |
| Respawns.RespawnLost | src/network/network_sync.cpp:585-602 | A run of allowed steps after which the client lacks an entity the server has networked |
| Respawns.SentTwice | src/network/network_sync.cpp:590-597 | A run of allowed steps in which a bucket with an interval of 0.05 seconds is sent twice within 0.01 seconds |
| Respawns.ClearedGhost | src/network/network_sync.cpp:1128-1132 | A run of allowed steps, spawn, clear, reconcile, after which the client keeps an entity of an empty server |
| ReplicationLaws.ResetMirrors | src/network/network_sync.cpp:604-616 | Whatever a client replicates, a full state makes that exactly the networked entities, each as it arrives, if and only if the server has one or the client held none; its own entities stay |
| ServerLaws.BatchKeeps | src/network/network_sync.cpp:336-374 | While a networked component is left the entity stays tracked and each networked write leaves its component dirty |
| ServerLaws.BatchLoses | src/network/network_sync.cpp:364-382 | When none is left the entity is untracked once, throttle state included |
| ServerLaws.DuesSync | src/network/network_sync.cpp:451-461 | After the due records of a component each due bucket reads the same on both sides and the others are as before |
| ServerLaws.InStep | src/network/network_sync.cpp:451-461 | A bucket that reads the same on both sides holds the same value in each of its fields |
| ServerProofs.MutationKeeps | src/network/network_sync.cpp:336-383 | Every announced change keeps the protocol invariant |
| ServerProofs.ClearKeeps | src/network/network_sync.cpp:1128-1132 | Clearing the world resets the bookkeeping and keeps the protocol invariant |
| ClientProofs.DespawnedSets | src/network/network_sync.cpp:543-602 | After spawns, delta and despawns the client replicates an id that was not off exactly if it is tracked and has not just been despawned |
| Replication.SnapshotReplication.OnEntityComponentAdded | src/network/network_sync.cpp:336-345 | Tracks and queues a spawn, or marks dirty |
| Replication.SnapshotReplication.OnEntityComponentChanged | src/network/network_sync.cpp:347-354 | Marks a tracked entity dirty |
| Replication.SnapshotReplication.OnEntityComponentRemoved | src/network/network_sync.cpp:356-383 | Forgets the component, and the entity with its throttle state when no networked component is left |
| Replication.SnapshotReplication.SeedFromWorld | src/network/network_sync.cpp:385-408 | Tracks and queues exactly the networked entities not tracked yet |
| Replication.SeedStarts | src/network/network_sync.cpp:385-408 | A server that is seeded before anything else is the one every run starts with |
| Replication.PutDues | src/network/network_sync.cpp:449-461 | Writes exactly the due buckets and moves their next send times one interval on |
| Replication.SnapshotReplication.BuildDelta | src/network/network_sync.cpp:410-493 | Whatever order the tables are walked in: exactly the due buckets of deliverable dirty components go out, and what was not due stays dirty; an entity whose component count wraps to zero is skipped |
| Replication.SnapshotReplication.Tick | src/network/network_sync.cpp:535-617 | Returns the packets of spawns, delta, despawns and the due full state, which Mirroring.TickReceived says mean the tick, and leaves the bookkeeping of the state machine |
| Replication.SnapshotReplication.ResetState | src/network/network_sync.cpp:630-642 | Forgets everything |
| Replication.SnapshotReplication.Receive | src/network/network_sync.cpp:1033-1065 | Applies a received packet to the world and the replicated set, and leaves the server bookkeeping alone |
| Scheduler.StuckIffCycle | src/gdscript/vecs_scheduler.cpp:74-97 | The fallback suffix is non-empty exactly when the constraints have a cycle |
| Scheduler.BrokenOnlyWhenStuck | src/gdscript/vecs_scheduler.cpp:74-97 | A constraint is violated only if both ends are in the fallback suffix |
| Scheduler.AcyclicIsHonoured | src/gdscript/vecs_scheduler.cpp:38-105 | Without a cycle every constraint is honoured |
| Scheduler.BuildGraph | src/gdscript/vecs_scheduler.cpp:46-72 | Edges are exactly the stated constraints, each list in the order in which they are stated; multi-edges count, unknown targets do not |
| Scheduler.GraphEdges | src/gdscript/vecs_scheduler.cpp:46-72 | An edge is there exactly if some system asks for it, by itself or by the name of the other |
| Scheduler.GraphIsUnique | src/gdscript/vecs_scheduler.cpp:46-72 | What the systems say determines the graph, lists included |
| Scheduler.Kahn | src/gdscript/vecs_scheduler.cpp:74-91 | The prefix respects every edge and leaves only systems that still wait; a system comes earlier if the last one it waits for does, ties in the order of the list of that one, and those that wait for nobody in insertion order |
| Scheduler.AppendStuck | src/gdscript/vecs_scheduler.cpp:92-97 | What is left is appended in insertion order, completing a permutation |
| Scheduler.OrderIsUnique | src/gdscript/vecs_scheduler.cpp:74-97 | A graph has only one order that respects it, breaks ties as told and appends what is stuck |
| Scheduler.OneOrderOnly | src/gdscript/vecs_scheduler.cpp:38-105 | What the systems say determines the order in which they run |
| Scheduler.InsertionOrder | src/gdscript/vecs_scheduler.cpp:74-83 | Without constraints that is the order in which they were added |
| Scheduler.SortSystems | src/gdscript/vecs_scheduler.cpp:38-105 | The result is such an order of the group, of which there is only one |
| Scheduler.SystemScheduler.Ordered | src/gdscript/vecs_scheduler.cpp:107-118 | Always an order of the group by what its systems say now if none is cached, else by what they said when it was computed, which is kept until a system of the group is added or removed |
| Scheduler.HonoursIff | src/gdscript/vecs_scheduler.cpp:38-105 | An order computed from answers without a circle honours the answers of a later time if and only if the constraints that are new since are in order |
| Scheduler.StaleOrder | src/gdscript/vecs_scheduler.cpp:107-118 | Two systems that say the opposite once they are ordered: the cached order stays, and is no order of what they say now |
| Scheduler.SystemScheduler.Process | src/gdscript/vecs_scheduler.cpp:120-154 | Exactly the due systems run, in that order, and remember the group time; group time advances by the frame; flushes are counted |
| Scheduler.SystemScheduler.Frames | src/gdscript/vecs_scheduler.cpp:120-154 | Over any number of frames group time is their sum, and an unpaused system with an interval runs exactly when it is ripe |
| Scheduler.RunsIff | src/gdscript/vecs_scheduler.cpp:133-144 | Such a system runs at a frame if and only if one interval of group time has passed since the start and since each of its earlier runs |
| Scheduler.FlushesCounted | src/gdscript/vecs_scheduler.cpp:120-154 | The flushes of the systems are as many as the systems that ran and ask for one |
| Scheduler.SystemScheduler.RemoveSystem | src/gdscript/vecs_scheduler.cpp:21-36 | Removes every occurrence in the group the system names now and forgets order and last run: the system is gone if and only if it is in no other group |
| Scheduler.SystemScheduler.RegroupedStays | src/gdscript/vecs_scheduler.cpp:21-36 | A system whose group is changed after it was added survives its removal |
| Csv.RoundTrip | src/gdscript/vecs_world.cpp:174-221 | However the fields of a table are written, plain, in quotes or partly so, and however its lines end, parsing gives the table back |
| Csv.OpenEnd | src/gdscript/vecs_world.cpp:216-219 | Without the last line ending the table still comes back, if and only if its last row is not a single empty field |
| Csv.OpenQuotes | src/gdscript/vecs_world.cpp:181-192 | Quotes that are never closed take the rest of the text, commas and line breaks included |
| Csv.TouchingQuotes | src/gdscript/vecs_world.cpp:182-187 | Where quotes open right after others close, the reader sees a quote instead |
| Csv.QuotedIsSpelling | src/gdscript/vecs_world.cpp:174-221 | Every table of non-empty rows has a spelling, all of it in quotes, whatever its fields contain |
| Csv.ParseSimpleCsv | src/gdscript/vecs_world.cpp:174-221 | The index loop computes the modelled parse |
| FixedText.CutIsLongest | src/reflect/type_traits.cpp:289-303 | For every well-formed UTF-8 text the cut is the end of the longest prefix of whole code points that fits |
| FixedText.StoreThenLoad | src/reflect/type_traits.cpp:246-314 | Storing and reading back returns that prefix when it holds no NUL |
| FixedText.Store | src/reflect/type_traits.cpp:281-314 | Copies the kept bytes and a terminator and nothing else |
| FixedText.Load | src/reflect/type_traits.cpp:246-252 | Returns the bytes before the first NUL |
| Layout.Disjoint | src/core/component_registry.cpp:130-155 | Fields do not overlap and come in declaration order |
| Layout.InBounds | src/core/component_registry.cpp:157-160 | Every field ends within the component |
| Layout.ElementsFill | src/core/component_registry.cpp:130-155 | The elements of a field lie one behind the other and fill it; a text or raw field has one byte for each of its count |
| Layout.ElementsAligned | src/core/component_registry.cpp:130-155 | Each element of a scalar field is aligned as its type asks |
| Layout.AlignUpLeast | src/core/component_registry.cpp:28-30 | The least multiple of the alignment at or above an offset |
| Layout.RowsStayAligned | src/core/column.h:52-61 | Every field of every row of a column is aligned, and the stride is the component size |
| Layout.AlignBlock | src/core/column.h:172-187 | The aligned buffer always fits the over-allocation, at the first aligned address |
| Layout.ComponentRegistry.RegisterSchemaComponent | src/core/component_registry.cpp:130-168 | Lays out and registers a schema under the next id; an unsupported field, or an empty or taken name, changes nothing |
| Layout.ComponentRegistry.RegisterComponent | src/core/component_registry.cpp:116-128 | A fresh name gets the next id; an empty or taken one changes nothing |

## Left out

- Columns are sequences of rows: raw buffers, capacity growth and uninitialised memory are not modelled (a grown row has no bytes until written; every reachable row is proved full), only the alignment arithmetic is (`Layout`).
- Layout.AlignBlock: the mask `& ~(align - 1)` is modelled as dropping the remainder, which is the same for powers of two.
- Sizes and alignments of the engine's math types come from its headers, which are not part of this model; they are parameters of `Schema.FieldType`.
- `Archetype.set_enabled`, `for_each_enabled` and the enabled filter of queries, beyond keeping one flag per row.
- `World.for_each`, which binds its type pack to sorted ids; `Views.View` keeps pack order.
- `World.move_entity`, `World.set_entity_range` and `World.reset`: nothing modelled here calls them.
- Cache versions and the suppress counter, which no modelled result depends on.
- SnapshotLoad.DeserializeSnapshot: no deferred window is open. Only a flush opens one, and closes it before it returns, so that only a custom command could load a snapshot inside it.
- DeltaApply.ApplyPacket: no deferred window is open, for the same reason; so for the methods it calls.
- Custom commands, observer callback bodies, re-entrant flushes, `where` predicates, `field_equals` and ordering by component in the query builder.
- Runs.ReachableOk: a run ends where creation would hand out a live id; what the world does after such a collision is not modelled.
- OrderlyRuns.ReachableSound: runs without loads and packets, and with foreign ids on open slots only; `Runs.ReachableOk` covers the others.
- Stamps.EveryChange: promises nothing once the clock has reached 2^64 - 1, where writes are no longer told apart.
- ReplicationLaws.ClientMirrors: spawn-only fields are covered by spawns and full states, not by deltas; nothing is promised once a receiver has taken a delta whose counts overflow for another one, which its last entity alone never brings about (`Arrivals.LastIsClean`).
- ReplicationLaws.RunKeeps: one directly connected client receives every packet at once; every change of a component's bytes is announced by an event; client ids do not collide with the client's own entities; no full state is requested between ticks; there are fewer than 2^16 component types and fewer than 2^32 entities, as the counts of spawns and full states have that many bits.
- Replication.SnapshotReplication.BuildDelta: fewer than 2^32 dirty entities, as the packet's entity count has 32 bits.
- Replication.SnapshotReplication.Tick: fewer than 2^32 dirty entities; time is real, not a rounded double, and the tick counter is unbounded.
- Scheduler.SystemScheduler.Process: systems do not add, remove or change systems while a group runs.
- Transport, RPC registration and session ids; `set_strategy` and `bind_world` beyond seeding.
- Scratch memory used while skipping a dead entity's record in a delta; only the cursor is modelled.
- JSON save and load, world merging and reference remapping: thin layers over dictionaries and the storage engine.
- Bindings, settings, logging, debugger capture and editor scripts.
