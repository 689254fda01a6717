/**
 * The parts of the world that the cell reaches through its `ptr` field: the
 * entity index, the archetype set, the component registry, the storages and
 * the tick and trigger counters. They belong to collaborators of the cell;
 * only the lookups the cell performs on them are modelled.
 */
module Worlds {
  import opened Wrappers
  import opened TickCounter

  type TypeId = nat
  type ComponentId = nat
  type ArchetypeId = nat
  type TableId = nat
  type TableRow = nat

  /** The bytes of a component or resource value (what a `Ptr` points at). */
  type Value = seq<bv8>

  datatype Entity = Entity(index: nat, generation: nat)

  /** Where the entity index says an entity is stored. */
  datatype EntityLocation = EntityLocation(
    archetypeId: ArchetypeId,
    archetypeRow: nat,
    tableId: TableId,
    tableRow: TableRow)

  /** The two storage kinds a component can be registered with. */
  datatype StorageType = Table | SparseSet

  /** The registry's record of one component id. */
  datatype ComponentInfo = ComponentInfo(storageType: StorageType, mutable: bool)

  /** The `added` and `changed` ticks stored beside every value. */
  datatype ComponentTicks = ComponentTicks(added: Tick, changed: Tick)

  /** One stored value with its change ticks. */
  datatype ComponentSlot = ComponentSlot(value: Value, ticks: ComponentTicks)

  /** An archetype, seen as the set of component ids its entities hold. */
  datatype Archetype = Archetype(components: set<ComponentId>)

  /**
   * The component registry: type ids of fully registered components,
   * type ids whose registration is still queued, type ids of resources, and
   * the info of every registered id.
   */
  datatype Components = Components(
    indices: map<TypeId, ComponentId>,
    queued: map<TypeId, ComponentId>,
    resourceIndices: map<TypeId, ComponentId>,
    infos: map<ComponentId, ComponentInfo>)
  {
    /** The id of a type, registered or queued. */
    function GetId(t: TypeId): Option<ComponentId>
    {
      if t in indices then Some(indices[t])
      else if t in queued then Some(queued[t])
      else None
    }

    /** The id of a fully registered component type. */
    function GetValidId(t: TypeId): Option<ComponentId>
    {
      if t in indices then Some(indices[t]) else None
    }

    /** The id of a registered resource type. */
    function GetValidResourceId(t: TypeId): Option<ComponentId>
    {
      if t in resourceIndices then Some(resourceIndices[t]) else None
    }

    function GetInfo(id: ComponentId): Option<ComponentInfo>
    {
      if id in infos then Some(infos[id]) else None
    }
  }

  /** A table: the slot of each (component id, row) pair it stores. */
  type Table = map<(ComponentId, TableRow), ComponentSlot>

  /** A component's sparse set: the slot of each entity it stores. */
  type ComponentSparseSet = map<Entity, ComponentSlot>

  /** A resource entry: registered, and holding a value or not. */
  type ResourceData = Option<ComponentSlot>

  datatype Storages = Storages(
    tables: map<TableId, Table>,
    sparseSets: map<ComponentId, ComponentSparseSet>,
    resources: map<ComponentId, ResourceData>,
    nonSendResources: map<ComponentId, ResourceData>)
  {
    /**
     * The storage of kind `kind` has a slot for component `c` of entity `e`
     * stored at `loc`: a table is addressed by the location's table and row,
     * a sparse set by the entity.
     */
    predicate Holds(c: ComponentId, kind: StorageType, e: Entity, loc: EntityLocation)
    {
      match kind
      case Table => loc.tableId in tables && (c, loc.tableRow) in tables[loc.tableId]
      case SparseSet => c in sparseSets && e in sparseSets[c]
    }
  }

  /** The world's command queue, seen as an opaque handle. */
  datatype RawCommandQueue = RawCommandQueue(handle: nat)

  /** A snapshot of every field of a world. */
  datatype WorldState = WorldState(
    entities: map<Entity, EntityLocation>,
    archetypes: map<ArchetypeId, Archetype>,
    components: Components,
    storages: Storages,
    changeTick: Tick,
    lastChangeTick: Tick,
    lastTriggerId: u32,
    commandQueue: RawCommandQueue)

  class World {
    var entities: map<Entity, EntityLocation>
    var archetypes: map<ArchetypeId, Archetype>
    var components: Components
    var storages: Storages
    var changeTick: Tick
    var lastChangeTick: Tick
    var lastTriggerId: u32
    var commandQueue: RawCommandQueue

    ghost function State(): WorldState
      reads this
    {
      WorldState(entities, archetypes, components, storages,
                 changeTick, lastChangeTick, lastTriggerId, commandQueue)
    }

    /**
     * The world's structural invariant, as far as the cell relies on it:
     * every fully registered type has an info, and every live entity's
     * archetype exists and lists exactly the registered components that the
     * storage named by their info holds for that entity.
     */
    ghost predicate Coherent()
      reads this
    {
      && (forall t | t in components.indices :: components.indices[t] in components.infos)
      && (forall e | e in entities :: LocationCoherent(e, entities[e]))
    }

    ghost predicate LocationCoherent(e: Entity, loc: EntityLocation)
      reads this
    {
      && loc.archetypeId in archetypes
      && forall c | c in components.infos ::
           c in archetypes[loc.archetypeId].components
           <==> storages.Holds(c, components.infos[c].storageType, e, loc)
    }
  }
}
