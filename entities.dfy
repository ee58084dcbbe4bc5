/** The engine-side state that the two items read and change: a living entity
    (often a player) reduced to the flags and counters the items consult. Its
    velocity is not computed; each change the items make to it is kept, in
    order, as a symbolic impulse. */
module Entities {

  /** Equipment slots. */
  datatype Slot = MainHand | OffHand | Feet | Legs | Chest | Head

  /** The attributes the items attach modifiers to. */
  datatype Attribute = Armor | ArmorToughness | AttackDamage | AttackSpeed

  /** A change of an entity's velocity, named by the operation that makes it. */
  datatype Impulse =
    | Propulsion(speed: real)   // elytra: push along the look direction
    | Braking(rate: real)       // elytra: damp the current velocity
    | RiptidePush(level: int)   // trident: riptide launch along the look direction
    | Lift                      // trident: the 1.2-block hop of a riptide launch from the ground
    | Dive(speed: real)         // trident: the plunge towards the ground
    | Rebound(factor: real)     // trident: velocity scaled to counteract the riptide bounce

  class Living {
    /** Whether the entity is a player. */
    const isPlayer: bool
    /** A player's `abilities.instabuild` (creative mode); false for others. */
    var creative: bool
    /** A player's `abilities.flying`. */
    var flying: bool
    /** Gliding with an elytra. */
    var fallFlying: bool
    var onGround: bool
    var inWaterOrRain: bool
    /** Ticks of automatic spin attack left; the entity spins while positive. */
    var spinTicks: int
    var fallDistance: real
    /** Every velocity change made by the items, oldest first. */
    var motion: seq<Impulse>
    /** Whether the item stack the entity uses is still in its inventory. */
    var holdsStack: bool
    /** The "item used" statistic for the item. */
    var itemsUsed: nat

    /** `isAutoSpinAttack()`. */
    predicate Spinning()
      reads this
    {
      spinTicks > 0
    }

    /** A player in creative mode. */
    predicate CreativePlayer()
      reads this
    {
      isPlayer && creative
    }
  }
}
