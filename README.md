# The disjoint-access world cell, modelled in Dafny

This project models the world cell of an entity-component-system engine.
The cell is a copyable handle on a `World` that lets many callers reach disjoint parts of the world at once.
It carries one write-capability bit.
A read-only handle (`new_readonly`) clears the bit; a read-write handle (`new_mutable`) sets it.
Every mutating entry point asserts the bit before doing anything else.

From a cell a caller can:

- read and advance the world's change tick;
- advance the world's trigger id;
- resolve an entity into an entity sub-cell that carries its location and a change-detection window `(last_run, this_run)`;
- look up resources and components.

Component lookups dispatch on the storage kind.
A `Table` component is read at the location's table id and row.
A `SparseSet` component is read in the component's set, keyed by the entity.

Files:

- `wrappers.dfy`: `Option` and `Result`.
- `tick_counter.dfy`: 32-bit counters, `wrapping_add`, and what a run of fetch-and-add calls returns.
- `world.dfy`: the world the cell points at, a class with map fields:
  - the entity index, the archetypes and the component registry;
  - the storages: tables, sparse sets, resources and non-send resources;
  - the change tick, the last change tick, the trigger id and the command queue;
  - `Coherent()`, the structural invariant the cell relies on: storage agrees with archetype membership.
- `unsafe_world_cell.dfy`: the cell itself:
  - `UnsafeWorldCell` and `UnsafeEntityCell` as datatypes holding the world reference;
  - their accessors as functions;
  - the two counter updates as methods with `modifies` clauses;
  - the storage-dispatch functions and the error enums.
- `properties.dfy`: lemmas that relate accessors to one another and to the world invariant.

Debug builds are modelled: the capability bit exists and is checked.
A failed check is the outcome `Panicked(FORBIDDEN_MESSAGE)` of type `Access<T>`; a call that goes on yields `Returned(value)`.
Read-only accessors do not return `Access`, so they cannot panic.
`ReadsIgnoreCapability` shows that they answer the same on both kinds of cell.

`increment_change_tick` does not assert the capability: it is an atomic fetch-and-add on metadata.
The model follows the code here, and the method works on read-only cells too.

Accessors return the stored value, not a reference to it.
`Ref` and `Mut` hold the value, its stored `added`/`changed` ticks and the window it is read against.

## Model

| member | source | states |
|---|---|---|
| UnsafeWorldCells.NewReadonly | crates/bevy_ecs/src/world/unsafe_world_cell.rs:106-113 | the cell points at the given world and forbids mutation |
| UnsafeWorldCells.NewMutable | crates/bevy_ecs/src/world/unsafe_world_cell.rs:117-124 | the cell points at the given world and allows mutation |
| UnsafeWorldCells.UnsafeWorldCell.AssertAllowsMutableAccess | crates/bevy_ecs/src/world/unsafe_world_cell.rs:128-138 | returns exactly when the bit is set; otherwise panics with the fixed "is forbidden" message |
| UnsafeWorldCells.UnsafeWorldCell.WorldMut | crates/bevy_ecs/src/world/unsafe_world_cell.rs:190-195 | the exclusive world escape yields the world only on a writable cell, and panics otherwise |
| UnsafeWorldCells.UnsafeWorldCell.ChangeTick | crates/bevy_ecs/src/world/unsafe_world_cell.rs:302-306 | a plain read of the world's change tick |
| UnsafeWorldCells.UnsafeWorldCell.LastTriggerId | crates/bevy_ecs/src/world/unsafe_world_cell.rs:311-315 | a plain read of the world's last trigger id |
| UnsafeWorldCells.UnsafeWorldCell.LastChangeTick | crates/bevy_ecs/src/world/unsafe_world_cell.rs:327-331 | a plain read of the world's last change tick |
| UnsafeWorldCells.UnsafeWorldCell.IncrementChangeTick | crates/bevy_ecs/src/world/unsafe_world_cell.rs:335-342 | returns the previous change tick; leaves it at that tick plus one modulo 2^32; changes no other field; does not assert capability |
| TickCounter.WrappingAdd | crates/bevy_ecs/src/world/unsafe_world_cell.rs:706 | `wrapping_add` on u32: the sum modulo 2^32; it differs from the true sum by at most one wrap |
| TickCounter.FetchAddRunAt | crates/bevy_ecs/src/world/unsafe_world_cell.rs:335-342 | the i-th of consecutive increments returns the start tick plus i, modulo 2^32 |
| TickCounter.CounterAfter | crates/bevy_ecs/src/world/unsafe_world_cell.rs:335-342 | after n increments the counter holds the start plus n, modulo 2^32 |
| TickCounter.FetchAddRunSnoc | crates/bevy_ecs/src/world/unsafe_world_cell.rs:335-342 | one more increment appends to the run of returned ticks exactly what the counter held before it |
| TickCounter.CounterAfterSnoc | crates/bevy_ecs/src/world/unsafe_world_cell.rs:335-342 | one more increment leaves the counter at the successor, modulo 2^32, of what it held |
| CellProperties.IncrementChangeTickRun | crates/bevy_ecs/src/world/unsafe_world_cell.rs:335-342 | n consecutive `increment_change_tick` calls on one cell return the fetch-and-add run from the current change tick, leave the change tick at the start plus n modulo 2^32, and change nothing else in the world |
| TickCounter.FetchAddRunSteps | crates/bevy_ecs/src/world/unsafe_world_cell.rs:335-342 | consecutive increments return ticks that each exceed the previous one by one, modulo 2^32; after the last, the counter holds the successor of the last tick returned |
| TickCounter.FetchAddRunDistinct | crates/bevy_ecs/src/world/unsafe_world_cell.rs:335-342 | no two of up to 2^32 consecutive increments return the same tick |
| UnsafeWorldCells.UnsafeWorldCell.GetEntity | crates/bevy_ecs/src/world/unsafe_world_cell.rs:361-376 | fails with the entity exactly when the entity index has no location for it; otherwise yields a sub-cell holding this cell, the entity, its location and the world window (last change tick, change tick) |
| UnsafeWorldCells.UnsafeWorldCell.GetEntityWithTicks | crates/bevy_ecs/src/world/unsafe_world_cell.rs:381-394 | the same failure condition; on success the sub-cell carries the caller's (last_run, this_run) |
| CellProperties.GetEntityUsesWorldWindow | crates/bevy_ecs/src/world/unsafe_world_cell.rs:361-394 | `get_entity` equals `get_entity_with_ticks` at the world's own window |
| UnsafeWorldCells.UnsafeWorldCell.GetResource | crates/bevy_ecs/src/world/unsafe_world_cell.rs:403-412 | absent for a type that is not a registered resource; otherwise the by-id read of its id |
| UnsafeWorldCells.UnsafeWorldCell.GetResourceRef | crates/bevy_ecs/src/world/unsafe_world_cell.rs:421-443 | present exactly when the typed read is; holds the same value and the stored ticks, read against the world window (last change tick, change tick) |
| UnsafeWorldCells.UnsafeWorldCell.GetResourceById | crates/bevy_ecs/src/world/unsafe_world_cell.rs:457-464 | present exactly when the id has a resource entry that holds a value; yields that value |
| UnsafeWorldCells.UnsafeWorldCell.GetNonSendResource | crates/bevy_ecs/src/world/unsafe_world_cell.rs:473-482 | absent for an unregistered resource type; otherwise the non-send by-id read |
| UnsafeWorldCells.UnsafeWorldCell.GetNonSendResourceById | crates/bevy_ecs/src/world/unsafe_world_cell.rs:499-506 | present exactly when the non-send entry holds a value; yields that value |
| UnsafeWorldCells.UnsafeWorldCell.GetResourceMut | crates/bevy_ecs/src/world/unsafe_world_cell.rs:515-526 | asserts capability before resolving the type; an unregistered type gives no handle; otherwise the by-id write access |
| UnsafeWorldCells.UnsafeWorldCell.GetResourceMutById | crates/bevy_ecs/src/world/unsafe_world_cell.rs:540-570 | panics on a read-only cell; otherwise a handle exactly when the resource holds a value, with its value, stored ticks and the world window |
| UnsafeWorldCells.UnsafeWorldCell.GetNonSendResourceMut | crates/bevy_ecs/src/world/unsafe_world_cell.rs:579-590 | asserts capability first; an unregistered type gives no handle; otherwise the non-send by-id write access |
| UnsafeWorldCells.UnsafeWorldCell.GetNonSendResourceMutById | crates/bevy_ecs/src/world/unsafe_world_cell.rs:607-633 | panics on a read-only cell; otherwise a handle exactly when the non-send resource holds a value, read against the world window |
| UnsafeWorldCells.UnsafeWorldCell.GetResourceWithTicks | crates/bevy_ecs/src/world/unsafe_world_cell.rs:641-657 | present exactly when the by-id read is; the same value together with its stored ticks |
| UnsafeWorldCells.UnsafeWorldCell.GetNonSendWithTicks | crates/bevy_ecs/src/world/unsafe_world_cell.rs:668-684 | present exactly when the non-send by-id read is; the same value together with its stored ticks |
| UnsafeWorldCells.UnsafeWorldCell.GetRawCommandQueue | crates/bevy_ecs/src/world/unsafe_world_cell.rs:691-697 | yields the world's command queue only on a writable cell; panics otherwise |
| UnsafeWorldCells.UnsafeWorldCell.IncrementTriggerId | crates/bevy_ecs/src/world/unsafe_world_cell.rs:702-708 | on a read-only cell, panics and leaves the world unchanged; otherwise sets the trigger id to its old value plus one modulo 2^32 and changes nothing else |
| UnsafeWorldCells.UnsafeEntityCell.Contains | crates/bevy_ecs/src/world/unsafe_world_cell.rs:791-793 | `contains::<T>` agrees with `contains_type_id` of T's type id |
| UnsafeWorldCells.UnsafeEntityCell.ContainsId | crates/bevy_ecs/src/world/unsafe_world_cell.rs:804-806 | true exactly when the entity's archetype lists the id |
| UnsafeWorldCells.UnsafeEntityCell.ContainsTypeId | crates/bevy_ecs/src/world/unsafe_world_cell.rs:816-821 | false for a type with no id, registered or queued; otherwise archetype membership of that id |
| UnsafeWorldCells.UnsafeEntityCell.Get | crates/bevy_ecs/src/world/unsafe_world_cell.rs:828-845 | absent for a type that is not fully registered; otherwise the storage read under the storage kind T declares |
| UnsafeWorldCells.UnsafeEntityCell.GetRef | crates/bevy_ecs/src/world/unsafe_world_cell.rs:852-876 | present exactly when `get` is; the same value and the stored ticks, read against the sub-cell's (last_run, this_run) |
| UnsafeWorldCells.UnsafeEntityCell.GetChangeTicks | crates/bevy_ecs/src/world/unsafe_world_cell.rs:886-901 | present exactly when `get` is; the ticks stored for T's id under T's storage kind |
| UnsafeWorldCells.UnsafeEntityCell.GetChangeTicksById | crates/bevy_ecs/src/world/unsafe_world_cell.rs:915-933 | absent for an id the registry does not know; present exactly when `get_by_id` is; the ticks under the registered storage kind |
| UnsafeWorldCells.UnsafeEntityCell.GetMut | crates/bevy_ecs/src/world/unsafe_world_cell.rs:940-945 | only for a mutable component type; panics on a read-only cell; otherwise a handle exactly when `get` finds the component, holding its value and its stored added and changed ticks, with the sub-cell's window |
| UnsafeWorldCells.UnsafeEntityCell.GetMutAssumeMutable | crates/bevy_ecs/src/world/unsafe_world_cell.rs:953-956 | the same as GetMut without requiring the type to be mutable: the component's value and stored added and changed ticks, with the sub-cell's own window |
| UnsafeWorldCells.UnsafeEntityCell.GetMutUsingTicksAssumeMutable | crates/bevy_ecs/src/world/unsafe_world_cell.rs:964-992 | asserts capability first; a handle exactly when `get` finds the component, with its value, its stored ticks and the window given by the caller |
| UnsafeWorldCells.UnsafeEntityCell.GetById | crates/bevy_ecs/src/world/unsafe_world_cell.rs:1055-1067 | absent for an id the registry does not know; otherwise the storage read under the registered storage kind |
| UnsafeWorldCells.UnsafeEntityCell.GetMutById | crates/bevy_ecs/src/world/unsafe_world_cell.rs:1080-1114 | panics on a read-only cell before any lookup; otherwise InfoNotFound exactly for an unknown id, ComponentIsImmutable exactly for a known immutable id, and ComponentNotFound exactly for a known mutable id the entity's storage lacks; on success, the value, its ticks and the sub-cell's window |
| UnsafeWorldCells.UnsafeEntityCell.GetMutAssumeMutableById | crates/bevy_ecs/src/world/unsafe_world_cell.rs:1129-1158 | never ComponentIsImmutable; InfoNotFound exactly for an unknown id; ComponentNotFound exactly when the storage lacks the component |
| UnsafeWorldCells.UnsafeWorldCell.FetchTable | crates/bevy_ecs/src/world/unsafe_world_cell.rs:1200-1205 | the table at the location's table id, if there is one |
| UnsafeWorldCells.UnsafeWorldCell.FetchSparseSet | crates/bevy_ecs/src/world/unsafe_world_cell.rs:1212-1216 | the sparse set of the component id, if there is one |
| UnsafeWorldCells.GetComponent | crates/bevy_ecs/src/world/unsafe_world_cell.rs:1228-1244 | present exactly when the storage of the given kind holds the (component, entity) pair; the value agrees with `get_component_and_ticks` |
| UnsafeWorldCells.GetComponentAndTicks | crates/bevy_ecs/src/world/unsafe_world_cell.rs:1254-1287 | for Table, the slot at (component id, location row) of the location's table; for SparseSet, the component's set at the entity; a missing table, set or slot gives None |
| UnsafeWorldCells.GetTicks | crates/bevy_ecs/src/world/unsafe_world_cell.rs:1298-1313 | present exactly where the other two helpers are; the ticks agree with `get_component_and_ticks` |
| CellProperties.StorageDispatchKeys | crates/bevy_ecs/src/world/unsafe_world_cell.rs:1236-1243 | table reads depend only on the location's table and row; sparse-set reads depend only on the entity |
| CellProperties.ReadonlyCellForbidsMutation | crates/bevy_ecs/src/world/unsafe_world_cell.rs:1325-1359 | on a read-only cell, these all panic with the fixed message whatever the world holds: the world escape, the command queue, every resource write, and every component write on any resolved entity |
| CellProperties.ReadsIgnoreCapability | crates/bevy_ecs/src/world/unsafe_world_cell.rs:361-1067 | entity resolution (`get_entity`), resource and non-send reads with and without ticks, `contains*` and every component read (`get`, `get_ref`, `get_change_ticks*`, `get_by_id`) answer the same on a read-only and on a writable cell of the same world |
| CellProperties.GetAbsentIffNotContains | crates/bevy_ecs/src/world/unsafe_world_cell.rs:791-845 | in a coherent world, on a freshly resolved entity, `get::<T>` is absent exactly when `contains::<T>` is false, for a registered T |
| CellProperties.GetByIdAbsentIffNotContainsId | crates/bevy_ecs/src/world/unsafe_world_cell.rs:804-1067 | in a coherent world, on a freshly resolved entity, `get_by_id` of a known id is absent exactly when `contains_id` is false |
| CellProperties.GetMutByIdLadder | crates/bevy_ecs/src/world/unsafe_world_cell.rs:1080-1114 | on a writable cell in a coherent world: unknown id gives InfoNotFound; known immutable id gives ComponentIsImmutable; known mutable id gives ComponentNotFound exactly when the entity does not contain it |
| CellProperties.AssumeMutableSkipsOnlyTheMutabilityCheck | crates/bevy_ecs/src/world/unsafe_world_cell.rs:1129-1158 | the assume-mutable variant answers like `get_mut_by_id` except for immutable components, which `get_mut_by_id` refuses |
| CellProperties.WriteHandleWindows | crates/bevy_ecs/src/world/unsafe_world_cell.rs:555-1110 | a component write handle carries the sub-cell's (last_run, this_run); a resource write handle carries the world's (last_change_tick, change_tick) |

## Left out

- Raw pointers, `UnsafeCell`, lifetimes and `PhantomData` are left out, and so is the aliasing and disjointness contract: it is the caller's unchecked obligation. Accessors return values, not references. So the model has no aliasing, and it does not express two live write handles into disjoint data.
- The `Send`/`Sync` impls and concurrent use of one cell from many threads are left out.
- The change tick is a plain field. The relaxed atomic ordering of the fetch-and-add is not modelled.
- Release builds, where the capability bit and its check do not exist, are not modelled. The model is the debug build.
- `get_components` is left out: it drives query-subsystem traits that are not part of this model.
- Non-send resources form a second resource map. The panic on access from the wrong thread is raised by the storage layer and is not modelled.
- These operations are left out: `spawned_by`, `spawned_at`, `default_error_handler`, the `Debug` impl, `world`, `world_metadata`, `unsafe_world`, `storages`, `id`, `entities`, `archetypes`, `components`, `removed_components`, `observers` and `bundles`. Each is a thin delegation to a collaborator; the model reads the World's fields directly where these are used.
- `UnsafeEntityCell::new`, `id`, `location`, `world` and the `ContainsEntity` impl are the datatype's constructor and fields. `archetype` is the archetype lookup inside ContainsId.
- Caller-location tracking (`changed_by`, `MaybeLocation`) is not modelled.
- The details that `EntityDoesNotExistError` keeps about a despawned entity are not modelled; the error holds only the entity.
- Writing through a `Mut` handle, and the update of the `changed` tick that comes with it, belong to change detection, which is not part of this model. The resource round trip and the "write sets changed" behaviour are therefore not stated.
- UnsafeWorldCells.UnsafeEntityCell.ContainsId: if a stale location names an archetype that does not exist, the source's archetype index panics; the model answers false.
- UnsafeWorldCells.GetComponentAndTicks: a table row out of bounds is undefined behaviour in the source, and a column without its tick cells is a debug-only unwrap. The model gives a table one slot per (component, row), holding the value and both ticks, so a missing row is simply absent.
- Typed dereferencing (`deref::<T>`, `with_type::<T>`) is not modelled; values are untyped byte strings.
- The component registry is reduced to four maps: registered, queued and resource type ids, and the info per id. Its internals are not modelled. The collaborators the cell calls are stand-ins written on those maps: `Components.GetId` for `Components::get_id`, which also finds queued registrations; `Components.GetValidId` and `Components.GetValidResourceId` for `get_valid_id` and `get_valid_resource_id`; `Components.GetInfo` for `get_info`; and `TicksFromCells` for `Ticks::from_tick_cells` and `TicksMut::from_tick_cells`.
