/**
 * The two derived entity kinds. C#'s inheritance (EntityItemWeapon is an
 * EntityItem is an Entity) is composition here: an item holds the Entity
 * that its base constructor registered, a weapon holds its item.
 */
module Items {
  import opened EntityKinds
  import opened Normalizer
  import IdAllocation
  import Entities

  class EntityItem {
    /** The Entity part, the object the registry stores. */
    const base: Entities.Entity
    var thisItemType: ItemType

    /** The EntityItem constructor: the base Entity with type ITEM, then the item type. */
    constructor (world: Entities.World, kind: ItemType, id: int := IdAllocation.DEFAULT_ID)
      requires world.Valid()
      requires IdAllocation.CanConstruct(world.Abstract(), id)
      modifies world
      ensures fresh(base) && world.Valid()
      ensures base.GetEntityType() == EntityType.Item && GetItemType() == kind
      ensures base.GetEntityID() == IdAllocation.FinalID(old(world.Abstract()), id)
      ensures world.container == old(world.container)[base.thisID := base]
      ensures world.Abstract() == IdAllocation.Construct(old(world.Abstract()), EntityType.Item, id)
    {
      base := new Entities.Entity(world, EntityType.Item, id);
      thisItemType := kind;
    }

    function GetItemType(): ItemType
      reads this
    {
      thisItemType
    }
  }

  // Domains and safe spots of the weapon's numeric fields (ObjectLogic.cs:186-200).
  const RANGE_CAP: int := 50
  const DAMAGE_CAP: int := 1000000
  const CRIT_CHANCE_PERCENT_CAP: int := 100
  const CRIT_MULTIPLIER_PERCENT_CAP: int := 1000000
  const LEVEL_REQUIRED_CAP: int := 200
  const SKILL_REQUIRED_CAP: int := 1000
  /** The range of bare fists. */
  const SAFE_MAX_RANGE: int := 2
  /** The damage of bare fists. */
  const SAFE_MAX_DAMAGE: int := 1
  /** A crit multiplies damage by 1. */
  const SAFE_CRIT_MULTIPLIER_PERCENT: int := 100

  /** The eight numeric fields of a weapon, raw (as passed) or stored. */
  datatype WeaponStats = WeaponStats(
    minRange: int, maxRange: int,
    minDamage: int, maxDamage: int,
    critChancePercent: int, critMultiplierPercent: int,
    levelRequired: int, skillRequired: int)

  /** Every stored field in its domain, and both min/max pairs in order. */
  predicate WithinWeaponBounds(s: WeaponStats) {
    && 0 <= s.minRange <= s.maxRange <= RANGE_CAP
    && 0 <= s.minDamage <= s.maxDamage <= DAMAGE_CAP
    && 0 <= s.critChancePercent <= CRIT_CHANCE_PERCENT_CAP
    && 0 <= s.critMultiplierPercent <= CRIT_MULTIPLIER_PERCENT_CAP
    && 0 <= s.levelRequired <= LEVEL_REQUIRED_CAP
    && 0 <= s.skillRequired <= SKILL_REQUIRED_CAP
  }

  /** `lo, hi` is the pair `a, b` in ascending order. */
  predicate AscendingOrderOf(lo: int, hi: int, a: int, b: int) {
    lo <= hi && ((lo == a && hi == b) || (lo == b && hi == a))
  }

  /**
   * What the weapon constructor stores for raw parameters: each field run
   * through AssignValue, and each min/max pair swapped if it came out of
   * the clamping inverted. The pairs are the clamped pairs, in ascending order.
   */
  function NormalizeWeaponStats(raw: WeaponStats): (s: WeaponStats)
    ensures WithinWeaponBounds(s)
    ensures AscendingOrderOf(s.minRange, s.maxRange,
                             AssignValue(raw.minRange, 0, RANGE_CAP, 0), AssignValue(raw.maxRange, 0, RANGE_CAP, SAFE_MAX_RANGE))
    ensures AscendingOrderOf(s.minDamage, s.maxDamage,
                             AssignValue(raw.minDamage, 0, DAMAGE_CAP, 0), AssignValue(raw.maxDamage, 0, DAMAGE_CAP, SAFE_MAX_DAMAGE))
    ensures s.critChancePercent == AssignValue(raw.critChancePercent, 0, CRIT_CHANCE_PERCENT_CAP, 0)
    ensures s.critMultiplierPercent
         == AssignValue(raw.critMultiplierPercent, 0, CRIT_MULTIPLIER_PERCENT_CAP, SAFE_CRIT_MULTIPLIER_PERCENT)
    ensures s.levelRequired == AssignValue(raw.levelRequired, 0, LEVEL_REQUIRED_CAP, 0)
    ensures s.skillRequired == AssignValue(raw.skillRequired, 0, SKILL_REQUIRED_CAP, 0)
  {
    var minRange := AssignValue(raw.minRange, 0, RANGE_CAP, 0);
    var maxRange := AssignValue(raw.maxRange, 0, RANGE_CAP, SAFE_MAX_RANGE);
    var minDamage := AssignValue(raw.minDamage, 0, DAMAGE_CAP, 0);
    var maxDamage := AssignValue(raw.maxDamage, 0, DAMAGE_CAP, SAFE_MAX_DAMAGE);
    WeaponStats(
      if minRange > maxRange then maxRange else minRange,
      if minRange > maxRange then minRange else maxRange,
      if minDamage > maxDamage then maxDamage else minDamage,
      if minDamage > maxDamage then minDamage else maxDamage,
      AssignValue(raw.critChancePercent, 0, CRIT_CHANCE_PERCENT_CAP, 0),
      AssignValue(raw.critMultiplierPercent, 0, CRIT_MULTIPLIER_PERCENT_CAP, SAFE_CRIT_MULTIPLIER_PERCENT),
      AssignValue(raw.levelRequired, 0, LEVEL_REQUIRED_CAP, 0),
      AssignValue(raw.skillRequired, 0, SKILL_REQUIRED_CAP, 0))
  }

  /** Parameters that are already in their domains and ordered are stored as given. */
  lemma NormalizeKeepsValidStats(raw: WeaponStats)
    requires WithinWeaponBounds(raw)
    ensures NormalizeWeaponStats(raw) == raw
  {
  }

  /** Normalising stored stats again changes nothing. */
  lemma NormalizeIdempotent(raw: WeaponStats)
    ensures NormalizeWeaponStats(NormalizeWeaponStats(raw)) == NormalizeWeaponStats(raw)
  {
    NormalizeKeepsValidStats(NormalizeWeaponStats(raw));
  }

  /**
   * Worked cases: an inverted range is reordered; out-of-range damage takes
   * both safe spots (0 and 1) and is then already ordered; a range that only
   * becomes inverted by clamping (40, 60 -> 40, 2) still ends up ordered.
   */
  lemma NormalizeExamples(raw: WeaponStats)
    ensures raw.minRange == 30 && raw.maxRange == 10 ==>
              NormalizeWeaponStats(raw).minRange == 10 && NormalizeWeaponStats(raw).maxRange == 30
    ensures raw.minDamage == -5 && raw.maxDamage == 2000000 ==>
              NormalizeWeaponStats(raw).minDamage == 0 && NormalizeWeaponStats(raw).maxDamage == 1
    ensures raw.minRange == 40 && raw.maxRange == 60 ==>
              NormalizeWeaponStats(raw).minRange == 2 && NormalizeWeaponStats(raw).maxRange == 40
  {
  }

  class EntityItemWeapon {
    /** The EntityItem part (and through it the registered Entity). */
    const item: EntityItem
    var thisWeaponType: WeaponType
    var minRange: int
    var maxRange: int
    var minDamage: int
    var maxDamage: int
    var critChancePercent: int
    var critMultiplierPercent: int
    var levelRequired: int
    var skillRequired: int

    function Stats(): WeaponStats
      reads this
    {
      WeaponStats(minRange, maxRange, minDamage, maxDamage,
                  critChancePercent, critMultiplierPercent, levelRequired, skillRequired)
    }

    /**
     * The EntityItemWeapon constructor: the base item with type WEAPON, then
     * each field clamped and each min/max pair swapped if inverted, in the
     * order of the source.
     */
    constructor (world: Entities.World, id: int, kind: WeaponType,
                 rawMinRange: int, rawMaxRange: int, rawMinDamage: int, rawMaxDamage: int,
                 rawCritChancePercent: int, rawCritMultiplierPercent: int,
                 rawLevelRequired: int, rawSkillRequired: int)
      requires world.Valid()
      requires IdAllocation.CanConstruct(world.Abstract(), id)
      modifies world
      ensures fresh(item) && fresh(item.base) && world.Valid()
      ensures item.base.GetEntityType() == EntityType.Item
      ensures item.GetItemType() == ItemType.Weapon
      ensures thisWeaponType == kind
      ensures item.base.GetEntityID() == IdAllocation.FinalID(old(world.Abstract()), id)
      ensures world.container == old(world.container)[item.base.thisID := item.base]
      ensures world.Abstract() == IdAllocation.Construct(old(world.Abstract()), EntityType.Item, id)
      ensures Stats() == NormalizeWeaponStats(WeaponStats(rawMinRange, rawMaxRange, rawMinDamage, rawMaxDamage,
                                                           rawCritChancePercent, rawCritMultiplierPercent,
                                                           rawLevelRequired, rawSkillRequired))
      ensures WithinWeaponBounds(Stats())
    {
      item := new EntityItem(world, ItemType.Weapon, id);
      thisWeaponType := kind;
      // The source clamps into the fields and swaps them by reference; the
      // same steps on locals, stored once.
      var minR := AssignValue(rawMinRange, 0, RANGE_CAP, 0);
      var maxR := AssignValue(rawMaxRange, 0, RANGE_CAP, SAFE_MAX_RANGE);
      if minR > maxR {
        minR, maxR := SwapValues(minR, maxR);
      }
      var minD := AssignValue(rawMinDamage, 0, DAMAGE_CAP, 0);
      var maxD := AssignValue(rawMaxDamage, 0, DAMAGE_CAP, SAFE_MAX_DAMAGE);
      if minD > maxD {
        minD, maxD := SwapValues(minD, maxD);
      }
      minRange, maxRange := minR, maxR;
      minDamage, maxDamage := minD, maxD;
      critChancePercent := AssignValue(rawCritChancePercent, 0, CRIT_CHANCE_PERCENT_CAP, 0);
      critMultiplierPercent := AssignValue(rawCritMultiplierPercent, 0, CRIT_MULTIPLIER_PERCENT_CAP, SAFE_CRIT_MULTIPLIER_PERCENT);
      levelRequired := AssignValue(rawLevelRequired, 0, LEVEL_REQUIRED_CAP, 0);
      skillRequired := AssignValue(rawSkillRequired, 0, SKILL_REQUIRED_CAP, 0);
    }
  }
}
