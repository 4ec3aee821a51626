/** The three closed enumerations of ObjectLogic.cs, as plain datatypes. */
module EntityKinds {
  /** Entity.EntityTypes: the kind of every game entity. */
  datatype EntityType =
    | Player | Npc | Monster
    | Item
    | InteractableObject | StaticObject
    | Quest

  /** EntityItem.ItemTypes: what an item entity is. */
  datatype ItemType =
    | Weapon | Shield | ArmorHead | ArmorBody | ArmorLegs | ArmorHands | Ring | Bracelet | Amulet
    | QuestObject | QuestWeapon
    | Potion | MagicConsumable | Scroll
    | Gold
    | ResourceMetal | ResourceHerb | ResourceStone

  /** EntityItemWeapon.WeaponTypes. */
  datatype WeaponType =
    | SwordStraightLong | SwordStraightShort | SwordCurved
    | BowLong | BowShort
    | CrossbowLight | CrossbowHeavy
    | Axe
    | BareHands
}
