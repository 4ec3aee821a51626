/**
 * The Entity base class and the registry it writes to. C#'s two statics,
 * `Entity.currentMaxID` and `EntityContainer.Container`, are the two fields
 * of one explicit `World` object that every constructor is handed.
 */
module Entities {
  import opened Wrappers
  import opened EntityKinds
  import IdAllocation

  class World {
    /** The static counter `Entity.currentMaxID`. */
    var currentMaxID: int
    /** The static dictionary `EntityContainer.Container`. */
    var container: map<int, Entity>

    /** Every entity is stored under its own ID. */
    ghost predicate Valid()
      reads this, container.Values
    {
      forall k :: k in container ==> container[k].thisID == k
    }

    /** The counter and the type stored under each key. */
    ghost function Abstract(): IdAllocation.RegistryState
      reads this, container.Values
    {
      IdAllocation.RegistryState(currentMaxID, map k | k in container :: container[k].thisType)
    }

    /** The start of the process: counter at 1000000, empty container. */
    constructor ()
      ensures Valid() && container == map[]
      ensures Abstract() == IdAllocation.Initial()
    {
      currentMaxID := IdAllocation.INITIAL_MAX_ID;
      container := map[];
    }

    /** `Dictionary.Add`, which throws on a key already present. */
    method Add(key: int, e: Entity)
      requires key !in container
      modifies this
      ensures container == old(container)[key := e]
      ensures currentMaxID == old(currentMaxID)
    {
      container := container[key := e];
    }

    /** EntityContainer.GetReferenceToEntity: the entity stored under `id`, `None` (C#'s null) if there is none. */
    function GetReferenceToEntity(id: int): (r: Option<Entity>)
      reads this, container.Values
      ensures r.Some? <==> id in container
      ensures r.Some? ==> r.value in container.Values
      ensures Valid() && r.Some? ==> r.value.GetEntityID() == id
    {
      if id in container then Some(container[id]) else None
    }
  }

  class Entity {
    var thisID: int
    var thisType: EntityType

    /**
     * The Entity constructor. `id` is C#'s optional parameter, with the
     * same default -1 (IdAllocation.DEFAULT_ID). The requires is `Dictionary.Add`'s: the key
     * that is inserted must be new.
     */
    constructor (world: World, kind: EntityType, id: int := IdAllocation.DEFAULT_ID)
      requires world.Valid()
      requires IdAllocation.CanConstruct(world.Abstract(), id)
      modifies world
      ensures world.Valid()
      ensures GetEntityID() == IdAllocation.FinalID(old(world.Abstract()), id)
      ensures GetEntityType() == kind
      ensures world.container == old(world.container)[thisID := this]
      ensures world.currentMaxID == old(world.currentMaxID) + 1
      ensures world.Abstract() == IdAllocation.Construct(old(world.Abstract()), kind, id)
      ensures world.GetReferenceToEntity(thisID) == Some(this)
    {
      // The fields before the body assigns them: C#'s defaults 0 and PLAYER.
      thisID := 0;
      thisType := Player;
      new;
      var idToAdd := id;
      if id <= 0 || id > IdAllocation.RESERVED_MAX {
        idToAdd := world.currentMaxID;
      } else {
        idToAdd := id;
      }
      if thisID !in world.container {
        thisType := kind;
        thisID := idToAdd;
        world.Add(thisID, this);
      } else {
        thisType := kind;
        thisID := world.currentMaxID;
        world.Add(thisID, this);
      }
      world.currentMaxID := world.currentMaxID + 1;
      assert world.Abstract().entries
          == old(world.Abstract()).entries[thisID := kind];
    }

    function GetEntityID(): int
      reads this
    {
      thisID
    }

    function GetEntityType(): EntityType
      reads this
    {
      thisType
    }
  }
}
