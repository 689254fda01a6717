/**
 * The disjoint-access world cell: a copyable handle on a world that carries a
 * write-capability bit, the per-entity sub-cell derived from it, and the
 * lookups through which both hand out component and resource data.
 *
 * References into the world become the values they refer to: an accessor returns the stored
 * value and its ticks rather than a reference into the world. The debug
 * build is modelled, where the capability bit exists and every mutating entry
 * point checks it first; a failed check is the `Panicked` outcome.
 */
module UnsafeWorldCells {
  import opened Wrappers
  import opened TickCounter
  import opened Worlds

  /** The message of the capability assertion. */
  const FORBIDDEN_MESSAGE: string := "mutating world data via `World::as_unsafe_world_cell_readonly` is forbidden"

  /**
   * The outcome of an entry point that starts with the capability assertion:
   * the assertion panicked with `message`, or the call went on and returned `value`.
   */
  datatype Access<+T> = Panicked(message: string) | Returned(value: T)

  /** The ticks of a change-detecting handle: the stored pair and the run window it is read against. */
  datatype Ticks = Ticks(added: Tick, changed: Tick, lastRun: Tick, thisRun: Tick)

  /** A read handle (`Ref`): the value with its ticks. */
  datatype Ref = Ref(value: Value, ticks: Ticks)

  /** A write handle (`Mut` or `MutUntyped`): the value with its ticks. */
  datatype Mut = Mut(value: Value, ticks: Ticks)

  /** What a typed accessor knows statically about its component type `T`. */
  datatype ComponentType = ComponentType(typeId: TypeId, storageType: StorageType, mutable: bool)

  datatype EntityDoesNotExistError = EntityDoesNotExistError(entity: Entity)

  /** Why `get_mut_by_id` failed. */
  datatype GetEntityMutByIdError = InfoNotFound | ComponentIsImmutable | ComponentNotFound

  /** The ticks of a slot, read against the window `(lastRun, thisRun)`. */
  function TicksFromCells(cells: ComponentTicks, lastRun: Tick, thisRun: Tick): Ticks
  {
    Ticks(cells.added, cells.changed, lastRun, thisRun)
  }

  /** The slot of a resource entry: absent when the id has no entry or the entry holds no value. */
  function ResourceSlot(entries: map<ComponentId, ResourceData>, id: ComponentId): (r: Option<ComponentSlot>)
  {
    if id in entries then entries[id] else None
  }

  /** A cell that may only read. */
  function NewReadonly(world: World): (cell: UnsafeWorldCell)
    ensures cell.ptr == world && !cell.allowsMutableAccess
  {
    UnsafeWorldCell(world, false)
  }

  /** A cell that may read and write. */
  function NewMutable(world: World): (cell: UnsafeWorldCell)
    ensures cell.ptr == world && cell.allowsMutableAccess
  {
    UnsafeWorldCell(world, true)
  }

  datatype UnsafeWorldCell = UnsafeWorldCell(ptr: World, allowsMutableAccess: bool)
  {
    /** Panics on a read-only cell, returns on a writable one. */
    function AssertAllowsMutableAccess(): (r: Access<()>)
      ensures r.Returned? <==> allowsMutableAccess
      ensures r.Panicked? ==> r.message == FORBIDDEN_MESSAGE
    {
      if allowsMutableAccess then Returned(()) else Panicked(FORBIDDEN_MESSAGE)
    }

    /** Exclusive access to the whole world, only through a writable cell. */
    function WorldMut(): (r: Access<World>)
      ensures r.Returned? <==> allowsMutableAccess
      ensures r.Returned? ==> r.value == ptr
      ensures r.Panicked? ==> r.message == FORBIDDEN_MESSAGE
    {
      match AssertAllowsMutableAccess()
      case Panicked(m) => Panicked(m)
      case Returned(_) => Returned(ptr)
    }

    function ChangeTick(): (t: Tick)
      reads ptr
      ensures t == ptr.changeTick
    {
      ptr.changeTick
    }

    function LastChangeTick(): (t: Tick)
      reads ptr
      ensures t == ptr.lastChangeTick
    {
      ptr.lastChangeTick
    }

    function LastTriggerId(): (id: u32)
      reads ptr
      ensures id == ptr.lastTriggerId
    {
      ptr.lastTriggerId
    }

    /**
     * Fetch-and-add on the change tick: returns the previous tick and leaves
     * its successor modulo 2^32. This is a metadata access and does not
     * assert write capability.
     */
    method IncrementChangeTick() returns (previous: Tick)
      modifies ptr
      ensures previous == old(ptr.changeTick)
      ensures ptr.State() == old(ptr.State()).(changeTick := WrappingAdd(previous, 1))
    {
      previous := ptr.changeTick;
      ptr.changeTick := WrappingAdd(previous, 1);
    }

    /** Wrapping increment of the last trigger id, through a writable cell only. */
    method IncrementTriggerId() returns (r: Access<()>)
      modifies ptr
      ensures r.Returned? <==> allowsMutableAccess
      ensures r.Panicked? ==> r.message == FORBIDDEN_MESSAGE && ptr.State() == old(ptr.State())
      ensures r.Returned? ==>
                ptr.State() == old(ptr.State()).(lastTriggerId := WrappingAdd(old(ptr.lastTriggerId), 1))
    {
      r := AssertAllowsMutableAccess();
      if r.Returned? {
        ptr.lastTriggerId := WrappingAdd(ptr.lastTriggerId, 1);
      }
    }

    /** The world's command queue, through a writable cell only. */
    function GetRawCommandQueue(): (r: Access<RawCommandQueue>)
      reads ptr
      ensures r.Returned? <==> allowsMutableAccess
      ensures r.Returned? ==> r.value == ptr.commandQueue
      ensures r.Panicked? ==> r.message == FORBIDDEN_MESSAGE
    {
      match AssertAllowsMutableAccess()
      case Panicked(m) => Panicked(m)
      case Returned(_) => Returned(ptr.commandQueue)
    }

    /** The sub-cell of a live entity, read against the world's own tick window. */
    function GetEntity(entity: Entity): (r: Result<UnsafeEntityCell, EntityDoesNotExistError>)
      reads ptr
      ensures r.Failure? <==> entity !in ptr.entities
      ensures r.Failure? ==> r.error.entity == entity
      ensures r.Success? ==>
                && r.value.world == this && r.value.entity == entity
                && r.value.location == ptr.entities[entity]
                && r.value.lastRun == ptr.lastChangeTick && r.value.thisRun == ptr.changeTick
    {
      if entity in ptr.entities then
        Success(UnsafeEntityCell(this, entity, ptr.entities[entity], LastChangeTick(), ChangeTick()))
      else
        Failure(EntityDoesNotExistError(entity))
    }

    /** The sub-cell of a live entity, read against the caller's tick window. */
    function GetEntityWithTicks(entity: Entity, lastRun: Tick, thisRun: Tick): (r: Result<UnsafeEntityCell, EntityDoesNotExistError>)
      reads ptr
      ensures r.Failure? <==> entity !in ptr.entities
      ensures r.Failure? ==> r.error.entity == entity
      ensures r.Success? ==>
                && r.value.world == this && r.value.entity == entity
                && r.value.location == ptr.entities[entity]
                && r.value.lastRun == lastRun && r.value.thisRun == thisRun
    {
      if entity in ptr.entities then
        Success(UnsafeEntityCell(this, entity, ptr.entities[entity], lastRun, thisRun))
      else
        Failure(EntityDoesNotExistError(entity))
    }

    /** The value of resource `id`, if it has an entry holding a value. */
    function GetResourceById(id: ComponentId): (r: Option<Value>)
      reads ptr
      ensures r.Some? <==> id in ptr.storages.resources && ptr.storages.resources[id].Some?
      ensures r.Some? ==> r.value == ptr.storages.resources[id].value.value
    {
      match ResourceSlot(ptr.storages.resources, id)
      case None => None
      case Some(slot) => Some(slot.value)
    }

    /** The value and ticks of resource `id`. */
    function GetResourceWithTicks(id: ComponentId): (r: Option<ComponentSlot>)
      reads ptr
      ensures r.Some? <==> GetResourceById(id).Some?
      ensures r.Some? ==> r.value.value == GetResourceById(id).value
      ensures r.Some? ==> r.value == ptr.storages.resources[id].value
    {
      ResourceSlot(ptr.storages.resources, id)
    }

    /** The value of the resource of type `t`; absent when the type is not a registered resource. */
    function GetResource(t: TypeId): (r: Option<Value>)
      reads ptr
      ensures ptr.components.GetValidResourceId(t).None? ==> r.None?
      ensures ptr.components.GetValidResourceId(t).Some? ==>
                r == GetResourceById(ptr.components.GetValidResourceId(t).value)
    {
      match ptr.components.GetValidResourceId(t)
      case None => None
      case Some(id) => GetResourceById(id)
    }

    /** A read handle on the resource of type `t`, read against the world's tick window. */
    function GetResourceRef(t: TypeId): (r: Option<Ref>)
      reads ptr
      ensures r.Some? <==> GetResource(t).Some?
      ensures r.Some? ==> r.value.value == GetResource(t).value
      ensures r.Some? ==> r.value.ticks.lastRun == ptr.lastChangeTick && r.value.ticks.thisRun == ptr.changeTick
      ensures r.Some? ==>
                var slot := GetResourceWithTicks(ptr.components.GetValidResourceId(t).value).value;
                r.value.ticks.added == slot.ticks.added && r.value.ticks.changed == slot.ticks.changed
    {
      match ptr.components.GetValidResourceId(t)
      case None => None
      case Some(id) =>
        match GetResourceWithTicks(id)
        case None => None
        case Some(slot) =>
          Some(Ref(slot.value, TicksFromCells(slot.ticks, LastChangeTick(), ChangeTick())))
    }

    /** A write handle on resource `id`, through a writable cell only, read against the world's tick window. */
    function GetResourceMutById(id: ComponentId): (r: Access<Option<Mut>>)
      reads ptr
      ensures r.Returned? <==> allowsMutableAccess
      ensures r.Panicked? ==> r.message == FORBIDDEN_MESSAGE
      ensures r.Returned? ==> (r.value.Some? <==> GetResourceWithTicks(id).Some?)
      ensures r.Returned? && r.value.Some? ==>
                var slot := GetResourceWithTicks(id).value;
                r.value.value == Mut(slot.value, Ticks(slot.ticks.added, slot.ticks.changed, ptr.lastChangeTick, ptr.changeTick))
    {
      match AssertAllowsMutableAccess()
      case Panicked(m) => Panicked(m)
      case Returned(_) =>
        match ResourceSlot(ptr.storages.resources, id)
        case None => Returned(None)
        case Some(slot) =>
          Returned(Some(Mut(slot.value, TicksFromCells(slot.ticks, LastChangeTick(), ChangeTick()))))
    }

    /**
     * A write handle on the resource of type `t`. The capability is asserted
     * before the type is resolved.
     */
    function GetResourceMut(t: TypeId): (r: Access<Option<Mut>>)
      reads ptr
      ensures r.Returned? <==> allowsMutableAccess
      ensures r.Panicked? ==> r.message == FORBIDDEN_MESSAGE
      ensures r.Returned? && ptr.components.GetValidResourceId(t).None? ==> r.value.None?
      ensures ptr.components.GetValidResourceId(t).Some? ==>
                r == GetResourceMutById(ptr.components.GetValidResourceId(t).value)
    {
      match AssertAllowsMutableAccess()
      case Panicked(m) => Panicked(m)
      case Returned(_) =>
        match ptr.components.GetValidResourceId(t)
        case None => Returned(None)
        case Some(id) => GetResourceMutById(id)
    }

    /** The value of non-send resource `id`, if it has an entry holding a value. */
    function GetNonSendResourceById(id: ComponentId): (r: Option<Value>)
      reads ptr
      ensures r.Some? <==> id in ptr.storages.nonSendResources && ptr.storages.nonSendResources[id].Some?
      ensures r.Some? ==> r.value == ptr.storages.nonSendResources[id].value.value
    {
      match ResourceSlot(ptr.storages.nonSendResources, id)
      case None => None
      case Some(slot) => Some(slot.value)
    }

    /** The value and ticks of non-send resource `id`. */
    function GetNonSendWithTicks(id: ComponentId): (r: Option<ComponentSlot>)
      reads ptr
      ensures r.Some? <==> GetNonSendResourceById(id).Some?
      ensures r.Some? ==> r.value.value == GetNonSendResourceById(id).value
      ensures r.Some? ==> r.value == ptr.storages.nonSendResources[id].value
    {
      ResourceSlot(ptr.storages.nonSendResources, id)
    }

    /** The value of the non-send resource of type `t`. */
    function GetNonSendResource(t: TypeId): (r: Option<Value>)
      reads ptr
      ensures ptr.components.GetValidResourceId(t).None? ==> r.None?
      ensures ptr.components.GetValidResourceId(t).Some? ==>
                r == GetNonSendResourceById(ptr.components.GetValidResourceId(t).value)
    {
      match ptr.components.GetValidResourceId(t)
      case None => None
      case Some(id) => GetNonSendResourceById(id)
    }

    /** A write handle on non-send resource `id`, through a writable cell only. */
    function GetNonSendResourceMutById(id: ComponentId): (r: Access<Option<Mut>>)
      reads ptr
      ensures r.Returned? <==> allowsMutableAccess
      ensures r.Panicked? ==> r.message == FORBIDDEN_MESSAGE
      ensures r.Returned? ==> (r.value.Some? <==> GetNonSendWithTicks(id).Some?)
      ensures r.Returned? && r.value.Some? ==>
                var slot := GetNonSendWithTicks(id).value;
                r.value.value == Mut(slot.value, Ticks(slot.ticks.added, slot.ticks.changed, ptr.lastChangeTick, ptr.changeTick))
    {
      match AssertAllowsMutableAccess()
      case Panicked(m) => Panicked(m)
      case Returned(_) =>
        var changeTick := ChangeTick();
        match ResourceSlot(ptr.storages.nonSendResources, id)
        case None => Returned(None)
        case Some(slot) =>
          Returned(Some(Mut(slot.value, TicksFromCells(slot.ticks, LastChangeTick(), changeTick))))
    }

    /** A write handle on the non-send resource of type `t`; the capability is asserted first. */
    function GetNonSendResourceMut(t: TypeId): (r: Access<Option<Mut>>)
      reads ptr
      ensures r.Returned? <==> allowsMutableAccess
      ensures r.Panicked? ==> r.message == FORBIDDEN_MESSAGE
      ensures r.Returned? && ptr.components.GetValidResourceId(t).None? ==> r.value.None?
      ensures ptr.components.GetValidResourceId(t).Some? ==>
                r == GetNonSendResourceMutById(ptr.components.GetValidResourceId(t).value)
    {
      match AssertAllowsMutableAccess()
      case Panicked(m) => Panicked(m)
      case Returned(_) =>
        match ptr.components.GetValidResourceId(t)
        case None => Returned(None)
        case Some(id) => GetNonSendResourceMutById(id)
    }

    /** The table at the location's table id. */
    function FetchTable(location: EntityLocation): (r: Option<Table>)
      reads ptr
      ensures r.Some? <==> location.tableId in ptr.storages.tables
      ensures r.Some? ==> r.value == ptr.storages.tables[location.tableId]
    {
      if location.tableId in ptr.storages.tables then Some(ptr.storages.tables[location.tableId]) else None
    }

    /** The sparse set of component `id`. */
    function FetchSparseSet(id: ComponentId): (r: Option<ComponentSparseSet>)
      reads ptr
      ensures r.Some? <==> id in ptr.storages.sparseSets
      ensures r.Some? ==> r.value == ptr.storages.sparseSets[id]
    {
      if id in ptr.storages.sparseSets then Some(ptr.storages.sparseSets[id]) else None
    }
  }

  /**
   * The value and ticks of component `componentId` of `entity`, dispatched on
   * the storage kind: a table is read at the location's table and row, a
   * sparse set at the entity. A missing table, set or slot gives `None`.
   */
  function GetComponentAndTicks(world: UnsafeWorldCell, componentId: ComponentId, storageType: StorageType,
                                entity: Entity, location: EntityLocation): (r: Option<ComponentSlot>)
    reads world.ptr
    ensures r.Some? <==> world.ptr.storages.Holds(componentId, storageType, entity, location)
    ensures r.Some? && storageType == Table ==>
              r.value == world.ptr.storages.tables[location.tableId][(componentId, location.tableRow)]
    ensures r.Some? && storageType == SparseSet ==>
              r.value == world.ptr.storages.sparseSets[componentId][entity]
  {
    match storageType
    case Table =>
      (match world.FetchTable(location)
       case None => None
       case Some(table) =>
         if (componentId, location.tableRow) in table then Some(table[(componentId, location.tableRow)]) else None)
    case SparseSet =>
      (match world.FetchSparseSet(componentId)
       case None => None
       case Some(sparse) => if entity in sparse then Some(sparse[entity]) else None)
  }

  /** The value of component `componentId` of `entity`; present exactly where the ticks variant is. */
  function GetComponent(world: UnsafeWorldCell, componentId: ComponentId, storageType: StorageType,
                        entity: Entity, location: EntityLocation): (r: Option<Value>)
    reads world.ptr
    ensures r.Some? <==> world.ptr.storages.Holds(componentId, storageType, entity, location)
    ensures r.Some? ==> r.value == GetComponentAndTicks(world, componentId, storageType, entity, location).value.value
  {
    match storageType
    case Table =>
      (match world.FetchTable(location)
       case None => None
       case Some(table) =>
         if (componentId, location.tableRow) in table then Some(table[(componentId, location.tableRow)].value) else None)
    case SparseSet =>
      (match world.FetchSparseSet(componentId)
       case None => None
       case Some(sparse) => if entity in sparse then Some(sparse[entity].value) else None)
  }

  /** The ticks of component `componentId` of `entity`; present exactly where the value is. */
  function GetTicks(world: UnsafeWorldCell, componentId: ComponentId, storageType: StorageType,
                    entity: Entity, location: EntityLocation): (r: Option<ComponentTicks>)
    reads world.ptr
    ensures r.Some? <==> world.ptr.storages.Holds(componentId, storageType, entity, location)
    ensures r.Some? ==> r.value == GetComponentAndTicks(world, componentId, storageType, entity, location).value.ticks
  {
    match storageType
    case Table =>
      (match world.FetchTable(location)
       case None => None
       case Some(table) =>
         if (componentId, location.tableRow) in table then Some(table[(componentId, location.tableRow)].ticks) else None)
    case SparseSet =>
      (match world.FetchSparseSet(componentId)
       case None => None
       case Some(sparse) => if entity in sparse then Some(sparse[entity].ticks) else None)
  }

  /** A handle on one entity: its cell, id, cached location and tick window. */
  datatype UnsafeEntityCell = UnsafeEntityCell(
    world: UnsafeWorldCell,
    entity: Entity,
    location: EntityLocation,
    lastRun: Tick,
    thisRun: Tick)
  {
    /** Whether the entity's archetype lists component `id`. */
    function ContainsId(id: ComponentId): (b: bool)
      reads world.ptr
      ensures b <==> location.archetypeId in world.ptr.archetypes
                     && id in world.ptr.archetypes[location.archetypeId].components
    {
      location.archetypeId in world.ptr.archetypes
      && id in world.ptr.archetypes[location.archetypeId].components
    }

    /** Whether the entity holds the component of type `t`; false for a type with no id. */
    function ContainsTypeId(t: TypeId): (b: bool)
      reads world.ptr
      ensures world.ptr.components.GetId(t).None? ==> !b
      ensures world.ptr.components.GetId(t).Some? ==> b == ContainsId(world.ptr.components.GetId(t).value)
    {
      match world.ptr.components.GetId(t)
      case None => false
      case Some(id) => ContainsId(id)
    }

    /** `contains::<T>`. */
    function Contains(t: ComponentType): (b: bool)
      reads world.ptr
      ensures b == ContainsTypeId(t.typeId)
    {
      ContainsTypeId(t.typeId)
    }

    /** The component of type `t`, looked up in the storage kind `t` declares. */
    function Get(t: ComponentType): (r: Option<Value>)
      reads world.ptr
      ensures world.ptr.components.GetValidId(t.typeId).None? ==> r.None?
      ensures world.ptr.components.GetValidId(t.typeId).Some? ==>
                r == GetComponent(world, world.ptr.components.GetValidId(t.typeId).value, t.storageType, entity, location)
    {
      match world.ptr.components.GetValidId(t.typeId)
      case None => None
      case Some(id) => GetComponent(world, id, t.storageType, entity, location)
    }

    /** A read handle on the component of type `t`, read against this cell's tick window. */
    function GetRef(t: ComponentType): (r: Option<Ref>)
      reads world.ptr
      ensures r.Some? <==> Get(t).Some?
      ensures r.Some? ==> r.value.value == Get(t).value
      ensures r.Some? ==> r.value.ticks.lastRun == lastRun && r.value.ticks.thisRun == thisRun
      ensures r.Some? ==> r.value.ticks.added == GetChangeTicks(t).value.added
                          && r.value.ticks.changed == GetChangeTicks(t).value.changed
    {
      match world.ptr.components.GetValidId(t.typeId)
      case None => None
      case Some(id) =>
        match GetComponentAndTicks(world, id, t.storageType, entity, location)
        case None => None
        case Some(slot) => Some(Ref(slot.value, TicksFromCells(slot.ticks, lastRun, thisRun)))
    }

    /** The stored ticks of the component of type `t`. */
    function GetChangeTicks(t: ComponentType): (r: Option<ComponentTicks>)
      reads world.ptr
      ensures r.Some? <==> Get(t).Some?
      ensures world.ptr.components.GetValidId(t.typeId).Some? ==>
                r == GetTicks(world, world.ptr.components.GetValidId(t.typeId).value, t.storageType, entity, location)
    {
      match world.ptr.components.GetValidId(t.typeId)
      case None => None
      case Some(id) => GetTicks(world, id, t.storageType, entity, location)
    }

    /** The stored ticks of component `id`, looked up in the storage kind the registry records. */
    function GetChangeTicksById(id: ComponentId): (r: Option<ComponentTicks>)
      reads world.ptr
      ensures id !in world.ptr.components.infos ==> r.None?
      ensures r.Some? <==> GetById(id).Some?
      ensures id in world.ptr.components.infos ==>
                r == GetTicks(world, id, world.ptr.components.infos[id].storageType, entity, location)
    {
      match world.ptr.components.GetInfo(id)
      case None => None
      case Some(info) => GetTicks(world, id, info.storageType, entity, location)
    }

    /** The value of component `id`, looked up in the storage kind the registry records. */
    function GetById(id: ComponentId): (r: Option<Value>)
      reads world.ptr
      ensures id !in world.ptr.components.infos ==> r.None?
      ensures id in world.ptr.components.infos ==>
                r == GetComponent(world, id, world.ptr.components.infos[id].storageType, entity, location)
    {
      match world.ptr.components.GetInfo(id)
      case None => None
      case Some(info) => GetComponent(world, id, info.storageType, entity, location)
    }

    /**
     * A write handle on the component of type `t` read against the window
     * `(lastChangeTick, changeTick)`, through a writable cell only; the type's
     * mutability is not checked.
     */
    function GetMutUsingTicksAssumeMutable(t: ComponentType, lastChangeTick: Tick, changeTick: Tick): (r: Access<Option<Mut>>)
      reads world.ptr
      ensures r.Returned? <==> world.allowsMutableAccess
      ensures r.Panicked? ==> r.message == FORBIDDEN_MESSAGE
      ensures r.Returned? ==> (r.value.Some? <==> Get(t).Some?)
      ensures r.Returned? && r.value.Some? ==>
                && r.value.value.value == Get(t).value
                && r.value.value.ticks.added == GetChangeTicks(t).value.added
                && r.value.value.ticks.changed == GetChangeTicks(t).value.changed
                && r.value.value.ticks.lastRun == lastChangeTick
                && r.value.value.ticks.thisRun == changeTick
    {
      match world.AssertAllowsMutableAccess()
      case Panicked(m) => Panicked(m)
      case Returned(_) =>
        match world.ptr.components.GetValidId(t.typeId)
        case None => Returned(None)
        case Some(id) =>
          match GetComponentAndTicks(world, id, t.storageType, entity, location)
          case None => Returned(None)
          case Some(slot) => Returned(Some(Mut(slot.value, TicksFromCells(slot.ticks, lastChangeTick, changeTick))))
    }

    /** A write handle on the component of type `t`, read against this cell's tick window. */
    function GetMutAssumeMutable(t: ComponentType): (r: Access<Option<Mut>>)
      reads world.ptr
      ensures r.Returned? <==> world.allowsMutableAccess
      ensures r.Panicked? ==> r.message == FORBIDDEN_MESSAGE
      ensures r.Returned? ==> (r.value.Some? <==> Get(t).Some?)
      ensures r.Returned? && r.value.Some? ==>
                && r.value.value.value == Get(t).value
                && r.value.value.ticks.added == GetChangeTicks(t).value.added
                && r.value.value.ticks.changed == GetChangeTicks(t).value.changed
                && r.value.value.ticks.lastRun == lastRun
                && r.value.value.ticks.thisRun == thisRun
    {
      GetMutUsingTicksAssumeMutable(t, lastRun, thisRun)
    }

    /** `get_mut::<T>`, callable only for a component type declared mutable. */
    function GetMut(t: ComponentType): (r: Access<Option<Mut>>)
      requires t.mutable
      reads world.ptr
      ensures r.Returned? <==> world.allowsMutableAccess
      ensures r.Panicked? ==> r.message == FORBIDDEN_MESSAGE
      ensures r.Returned? ==> (r.value.Some? <==> Get(t).Some?)
      ensures r.Returned? && r.value.Some? ==>
                && r.value.value.value == Get(t).value
                && r.value.value.ticks.added == GetChangeTicks(t).value.added
                && r.value.value.ticks.changed == GetChangeTicks(t).value.changed
                && r.value.value.ticks.lastRun == lastRun
                && r.value.value.ticks.thisRun == thisRun
    {
      GetMutAssumeMutable(t)
    }

    /**
     * A write handle on component `id`, through a writable cell only. The
     * failures are checked in order: unknown id, immutable component, component
     * not held by the entity.
     */
    function GetMutById(id: ComponentId): (r: Access<Result<Mut, GetEntityMutByIdError>>)
      reads world.ptr
      ensures r.Returned? <==> world.allowsMutableAccess
      ensures r.Panicked? ==> r.message == FORBIDDEN_MESSAGE
      ensures r.Returned? ==> (r.value == Failure(InfoNotFound) <==> id !in world.ptr.components.infos)
      ensures r.Returned? ==>
                (r.value == Failure(ComponentIsImmutable)
                 <==> id in world.ptr.components.infos && !world.ptr.components.infos[id].mutable)
      ensures r.Returned? ==>
                (r.value == Failure(ComponentNotFound)
                 <==> && id in world.ptr.components.infos && world.ptr.components.infos[id].mutable
                      && GetById(id).None?)
      ensures r.Returned? && r.value.Success? ==>
                && r.value.value.value == GetById(id).value
                && r.value.value.ticks.added == GetChangeTicksById(id).value.added
                && r.value.value.ticks.changed == GetChangeTicksById(id).value.changed
                && r.value.value.ticks.lastRun == lastRun && r.value.value.ticks.thisRun == thisRun
    {
      match world.AssertAllowsMutableAccess()
      case Panicked(m) => Panicked(m)
      case Returned(_) =>
        match world.ptr.components.GetInfo(id)
        case None => Returned(Failure(InfoNotFound))
        case Some(info) =>
          if !info.mutable then Returned(Failure(ComponentIsImmutable))
          else
            match GetComponentAndTicks(world, id, info.storageType, entity, location)
            case None => Returned(Failure(ComponentNotFound))
            case Some(slot) => Returned(Success(Mut(slot.value, TicksFromCells(slot.ticks, lastRun, thisRun))))
    }

    /** As `GetMutById` without the mutability check: it never reports an immutable component. */
    function GetMutAssumeMutableById(id: ComponentId): (r: Access<Result<Mut, GetEntityMutByIdError>>)
      reads world.ptr
      ensures r.Returned? <==> world.allowsMutableAccess
      ensures r.Panicked? ==> r.message == FORBIDDEN_MESSAGE
      ensures r.Returned? ==> r.value != Failure(ComponentIsImmutable)
      ensures r.Returned? ==> (r.value == Failure(InfoNotFound) <==> id !in world.ptr.components.infos)
      ensures r.Returned? ==>
                (r.value == Failure(ComponentNotFound) <==> id in world.ptr.components.infos && GetById(id).None?)
      ensures r.Returned? && r.value.Success? ==>
                && r.value.value.value == GetById(id).value
                && r.value.value.ticks.added == GetChangeTicksById(id).value.added
                && r.value.value.ticks.changed == GetChangeTicksById(id).value.changed
                && r.value.value.ticks.lastRun == lastRun && r.value.value.ticks.thisRun == thisRun
    {
      match world.AssertAllowsMutableAccess()
      case Panicked(m) => Panicked(m)
      case Returned(_) =>
        match world.ptr.components.GetInfo(id)
        case None => Returned(Failure(InfoNotFound))
        case Some(info) =>
          match GetComponentAndTicks(world, id, info.storageType, entity, location)
          case None => Returned(Failure(ComponentNotFound))
          case Some(slot) => Returned(Success(Mut(slot.value, TicksFromCells(slot.ticks, lastRun, thisRun))))
    }
  }
}
