/**
 * Properties that relate several accessors of the world cell to each other
 * and to the world's structural invariant.
 */
module CellProperties {
  import opened Wrappers
  import opened TickCounter
  import opened Worlds
  import opened UnsafeWorldCells

  /** `get_entity` is `get_entity_with_ticks` at the world's own window `(last_change_tick, change_tick)`. */
  lemma GetEntityUsesWorldWindow(cell: UnsafeWorldCell, entity: Entity)
    ensures cell.GetEntity(entity) == cell.GetEntityWithTicks(entity, cell.ptr.lastChangeTick, cell.ptr.changeTick)
  {
  }

  /**
   * `n` consecutive `increment_change_tick` calls through one cell hand out
   * the fetch-and-add run from the current change tick, leave the counter
   * `n` steps further on, and change nothing else in the world.
   */
  method IncrementChangeTickRun(cell: UnsafeWorldCell, n: nat) returns (ticks: seq<Tick>)
    modifies cell.ptr
    ensures ticks == FetchAddRun(old(cell.ptr.changeTick), n)
    ensures cell.ptr.State() == old(cell.ptr.State()).(changeTick := CounterAfter(old(cell.ptr.changeTick), n))
  {
    ghost var start := cell.ptr.changeTick;
    ticks := [];
    var i := 0;
    while i < n
      invariant 0 <= i <= n
      invariant ticks == FetchAddRun(start, i)
      invariant cell.ptr.changeTick == CounterAfter(start, i)
      invariant cell.ptr.State() == old(cell.ptr.State()).(changeTick := cell.ptr.changeTick)
    {
      FetchAddRunSnoc(start, i);
      CounterAfterSnoc(start, i);
      var previous := cell.IncrementChangeTick();
      ticks := ticks + [previous];
      i := i + 1;
    }
  }

  /**
   * A read-only cell panics with the fixed message on every mutating path,
   * whatever the registry and storages hold: the whole-world escape, resource
   * writes and component writes on any of its entities.
   */
  lemma ReadonlyCellForbidsMutation(world: World, entity: Entity, resource: TypeId, id: ComponentId, t: ComponentType)
    ensures NewReadonly(world).WorldMut() == Panicked(FORBIDDEN_MESSAGE)
    ensures NewReadonly(world).GetRawCommandQueue() == Panicked(FORBIDDEN_MESSAGE)
    ensures NewReadonly(world).GetResourceMut(resource) == Panicked(FORBIDDEN_MESSAGE)
    ensures NewReadonly(world).GetResourceMutById(id) == Panicked(FORBIDDEN_MESSAGE)
    ensures NewReadonly(world).GetNonSendResourceMut(resource) == Panicked(FORBIDDEN_MESSAGE)
    ensures NewReadonly(world).GetNonSendResourceMutById(id) == Panicked(FORBIDDEN_MESSAGE)
    ensures NewReadonly(world).GetEntity(entity).Success? ==>
              var cell := NewReadonly(world).GetEntity(entity).value;
              && cell.GetMutAssumeMutable(t) == Panicked(FORBIDDEN_MESSAGE)
              && (t.mutable ==> cell.GetMut(t) == Panicked(FORBIDDEN_MESSAGE))
              && cell.GetMutById(id) == Panicked(FORBIDDEN_MESSAGE)
              && cell.GetMutAssumeMutableById(id) == Panicked(FORBIDDEN_MESSAGE)
  {
  }

  /** Reading accessors never consult the capability bit: both polarities of a cell read the same. */
  lemma ReadsIgnoreCapability(world: World, entity: Entity, resource: TypeId, id: ComponentId, t: ComponentType)
    ensures NewReadonly(world).GetEntity(entity).Failure? == NewMutable(world).GetEntity(entity).Failure?
    ensures NewReadonly(world).GetResource(resource) == NewMutable(world).GetResource(resource)
    ensures NewReadonly(world).GetResourceRef(resource) == NewMutable(world).GetResourceRef(resource)
    ensures NewReadonly(world).GetResourceById(id) == NewMutable(world).GetResourceById(id)
    ensures NewReadonly(world).GetNonSendResource(resource) == NewMutable(world).GetNonSendResource(resource)
    ensures NewReadonly(world).GetNonSendResourceById(id) == NewMutable(world).GetNonSendResourceById(id)
    ensures NewReadonly(world).GetResourceWithTicks(id) == NewMutable(world).GetResourceWithTicks(id)
    ensures NewReadonly(world).GetNonSendWithTicks(id) == NewMutable(world).GetNonSendWithTicks(id)
    ensures entity in world.entities ==>
              var ro := NewReadonly(world).GetEntity(entity).value;
              var rw := NewMutable(world).GetEntity(entity).value;
              && ro.Contains(t) == rw.Contains(t)
              && ro.ContainsId(id) == rw.ContainsId(id)
              && ro.Get(t) == rw.Get(t)
              && ro.GetRef(t) == rw.GetRef(t)
              && ro.GetChangeTicks(t) == rw.GetChangeTicks(t)
              && ro.GetChangeTicksById(id) == rw.GetChangeTicksById(id)
              && ro.GetById(id) == rw.GetById(id)
  {
  }

  /** Table storage is addressed by the location alone, sparse-set storage by the entity alone. */
  lemma StorageDispatchKeys(world: UnsafeWorldCell, id: ComponentId, e1: Entity, e2: Entity,
                            loc1: EntityLocation, loc2: EntityLocation)
    ensures loc1.tableId == loc2.tableId && loc1.tableRow == loc2.tableRow ==>
              GetComponentAndTicks(world, id, Table, e1, loc1) == GetComponentAndTicks(world, id, Table, e2, loc2)
    ensures GetComponentAndTicks(world, id, SparseSet, e1, loc1) == GetComponentAndTicks(world, id, SparseSet, e1, loc2)
  {
  }

  /** The registry records type `t` as a fully registered component stored where `t` says. */
  ghost predicate RegisteredAs(components: Components, t: ComponentType)
  {
    && t.typeId in components.indices
    && components.indices[t.typeId] in components.infos
    && components.infos[components.indices[t.typeId]].storageType == t.storageType
  }

  /**
   * In a coherent world, a freshly resolved entity's typed read is absent
   * exactly when the entity does not contain the type.
   */
  lemma GetAbsentIffNotContains(cell: UnsafeWorldCell, entity: Entity, t: ComponentType)
    requires cell.ptr.Coherent()
    requires entity in cell.ptr.entities
    requires RegisteredAs(cell.ptr.components, t)
    ensures cell.GetEntity(entity).value.Get(t).None? <==> !cell.GetEntity(entity).value.Contains(t)
  {
  }

  /**
   * In a coherent world, a freshly resolved entity's read of a registered id
   * is absent exactly when its archetype does not list the id.
   */
  lemma GetByIdAbsentIffNotContainsId(cell: UnsafeWorldCell, entity: Entity, id: ComponentId)
    requires cell.ptr.Coherent()
    requires entity in cell.ptr.entities
    requires id in cell.ptr.components.infos
    ensures cell.GetEntity(entity).value.GetById(id).None? <==> !cell.GetEntity(entity).value.ContainsId(id)
  {
  }

  /**
   * The error ladder of `get_mut_by_id` on a writable cell in a coherent world:
   * each failure is named by exactly the first check that rejects.
   */
  lemma GetMutByIdLadder(cell: UnsafeWorldCell, entity: Entity, id: ComponentId)
    requires cell.allowsMutableAccess
    requires cell.ptr.Coherent()
    requires entity in cell.ptr.entities
    ensures var r := cell.GetEntity(entity).value.GetMutById(id).value;
            && (id !in cell.ptr.components.infos ==> r == Failure(InfoNotFound))
            && (id in cell.ptr.components.infos && !cell.ptr.components.infos[id].mutable ==>
                  r == Failure(ComponentIsImmutable))
            && (id in cell.ptr.components.infos && cell.ptr.components.infos[id].mutable ==>
                  (r == Failure(ComponentNotFound) <==> !cell.GetEntity(entity).value.ContainsId(id)))
  {
  }

  /**
   * `get_mut_assume_mutable_by_id` answers like `get_mut_by_id` except that an
   * immutable component is handed out instead of being refused.
   */
  lemma AssumeMutableSkipsOnlyTheMutabilityCheck(cell: UnsafeEntityCell, id: ComponentId)
    ensures cell.world.allowsMutableAccess && id in cell.world.ptr.components.infos
            && !cell.world.ptr.components.infos[id].mutable ==>
              cell.GetMutById(id) == Returned(Failure(ComponentIsImmutable))
    ensures !(id in cell.world.ptr.components.infos && !cell.world.ptr.components.infos[id].mutable) ==>
              cell.GetMutById(id) == cell.GetMutAssumeMutableById(id)
  {
  }

  /**
   * Write handles carry different windows: an entity's component handle the
   * sub-cell's `(last_run, this_run)`, a resource handle the world's
   * `(last_change_tick, change_tick)`.
   */
  lemma WriteHandleWindows(cell: UnsafeWorldCell, entity: Entity, lastRun: Tick, thisRun: Tick,
                           component: ComponentId, resource: ComponentId)
    requires cell.allowsMutableAccess
    requires entity in cell.ptr.entities
    ensures var m := cell.GetEntityWithTicks(entity, lastRun, thisRun).value.GetMutById(component).value;
            m.Success? ==> m.value.ticks.lastRun == lastRun && m.value.ticks.thisRun == thisRun
    ensures var m := cell.GetResourceMutById(resource).value;
            m.Some? ==> m.value.ticks.lastRun == cell.ptr.lastChangeTick && m.value.ticks.thisRun == cell.ptr.changeTick
  {
  }
}
