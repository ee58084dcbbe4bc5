# Redstone Arsenal flux elytra and flux trident: the control logic

Redstone Arsenal is a Minecraft (Forge) mod of energy-powered equipment. This
project models, in Dafny, the discrete control logic of two of its items, and
proves properties of that model.

- **Flux elytra** (`FluxElytraItem`). An elytra that draws energy while it
  glides. In empowered mode every flight tick draws extra energy and
  propels or brakes the wearer, or does nothing when the countdown is positive
  or the draw fails. A one-off boost starts a countdown of
  propelled ticks. All of this runs on one integer field of the item,
  `propelTime`:
  - below zero means brake;
  - zero means propel while empowered;
  - above zero counts down, one propelled tick at a time, while not empowered;
  - an empowered tick whose energy draw fails sets it to 1.

  The item is a class (`FluxElytra.FluxElytraItem`) with that field. Its
  methods take the engine's answers (empowered or not, energy draw succeeded
  or not) as inputs. They return the energy draws they ask for and the action
  they take. A pure function `Step` describes what one tick does, `Run` folds
  it over a sequence of ticks, and the lemmas about `Run` state the
  countdown's guarantees.
- **Flux trident** (`FluxTridentItem`). A trident that can be charged and
  released. Without riptide the release throws it; with riptide it launches
  the player. In empowered mode a left click in the air starts a plunge, and
  the plunge's landing hurts every entity in range. The gates are modelled as
  decision functions that return a record of effects. The operations that
  change the entity (`ReleaseUsing`, `StartPlunge`, `OnLeftClick`,
  `OnLeftClickEntity`, `StopSpinAttack`, `InventoryTick`) are methods of the
  `FluxTrident` module that take the entity (an `Entities.Living`) and update
  its fields; `ReleaseUsing` is specified by `ReleaseEffects`, and the plunge
  methods by `CanStartPlunging`. `PlungeAttack` has a loop over the
  nearby targets and is proved against a reference definition.

Shared modules:

- `JavaInt` gives Java's 32-bit `int`: narrowing after `-` and `*`, and the
  bitwise `&`, built bit by bit. `x & 31` is proved to be the Euclidean
  `x % 32`, negative `x` included.
- `Entities` gives the living entity (`Entities.Living`) reduced to the flags
  and counters the items read and write. Its velocity is not computed.
  Instead, every velocity change the items make is logged as a symbolic
  `Impulse`, such as `Propulsion(0.85)`, so "motion unchanged" means "no
  impulse logged".
- `Energy` names the energy draws the items ask of their stack.

Inputs that come from the engine are parameters of the model:

- the energy container's answers (`useEnergy`, `hasEnergy`, `isEmpowered`);
- `isFallFlying`, `isOnGround`, `isInWaterOrRain`;
- the downward ray test of `canStartPlunging`;
- the channeling, sky and thunder checks;
- the range test and `hurt` result of each plunge target;
- which side (client or server) the code runs on.

Propulsion (line 162 of `FluxElytraItem.java`) halves the current velocity and
adds the look direction scaled by 0.85. The model keeps only the constant, as the impulse's name.

## Model

| member | source | states |
|---|---|---|
| `JavaInt.BitAndLowMask` | src/main/java/cofh/redstonearsenal/item/FluxElytraItem.java:94 | masking with k low one-bits keeps the remainder modulo 2^k (the basis of the flight-tick cadence) |
| `JavaInt.AndThirtyOne` | src/main/java/cofh/redstonearsenal/item/FluxElytraItem.java:94 | Java `x & 31` equals the Euclidean `x % 32` for every `int`, negatives included |
| `FluxElytra.ShouldExtract` | src/main/java/cofh/redstonearsenal/item/FluxElytraItem.java:94 | the base energy is really drawn exactly when the flight tick count is a multiple of 32 and the entity is not a creative player |
| `FluxElytra.Step` | src/main/java/cofh/redstonearsenal/item/FluxElytraItem.java:97-113 | one flight tick: empowered with energy keeps `propelTime` and brakes below 0, propels at 0, does nothing above; empowered without energy sets it to 1 and does nothing; empowered mode writes no value but 1; unpowered propels exactly when the count is positive, losing one tick, and otherwise changes nothing |
| `FluxElytra.Run` | src/main/java/cofh/redstonearsenal/item/FluxElytraItem.java:92-116 | a run of ticks yields one action per tick |
| `FluxElytra.CountdownPropelsExactly` | src/main/java/cofh/redstonearsenal/item/FluxElytraItem.java:110-113 | out of empowered mode a countdown of n propels on exactly the first n ticks, then stays at 0 with no action (the countdown terminates) |
| `FluxElytra.EmpoweredHolds` | src/main/java/cofh/redstonearsenal/item/FluxElytraItem.java:97-104 | empowered ticks that all draw their energy keep `propelTime` and repeat one action: brake below 0, propel at 0, nothing above |
| `FluxElytra.EmpoweredWritesOnlyOne` | src/main/java/cofh/redstonearsenal/item/FluxElytraItem.java:97-109 | over any run of empowered ticks `propelTime` ends at its start value or at 1; from a positive value no empowered tick propels or brakes |
| `FluxElytra.EmpoweredFailureStops` | src/main/java/cofh/redstonearsenal/item/FluxElytraItem.java:106-108 | after a failed empowered draw the item stays stopped: the run ends at 1 and no tick from the failure on propels or brakes |
| `FluxElytra.ModeChangeRestarts` | src/main/java/cofh/redstonearsenal/item/FluxElytraItem.java:217-224 | after the mode-change reset to 0, empowered ticks with energy propel every time and unpowered ticks never do |
| `FluxElytra.DefaultBoostPropelsFortyTicks` | src/main/java/cofh/redstonearsenal/item/FluxElytraItem.java:152-155 | after a successful default boost, unpowered flight propels on exactly the next 40 ticks and the countdown then rests at 0 |
| `FluxElytra.Effect` | src/main/java/cofh/redstonearsenal/item/FluxElytraItem.java:157-179 | propel and brake change nothing for an entity that is not gliding; a gliding entity gets `Propulsion(0.85)` when propelled, `Braking(0.90)` when braked and nothing when idle |
| `FluxElytra.CanElytraFly` | src/main/java/cofh/redstonearsenal/item/FluxElytraItem.java:85-89 | the elytra can fly exactly while it holds energy |
| `FluxElytra.IsDamageable` | src/main/java/cofh/redstonearsenal/item/FluxElytraItem.java:118-122 | the elytra is damageable exactly while it holds energy |
| `FluxElytra.ArmorModifiers` | src/main/java/cofh/redstonearsenal/item/FluxElytraItem.java:74-83 | armour and toughness modifiers exist only in the chest slot with energy, carrying the material's defense and toughness |
| `FluxElytra.ArmorExactlyWhenFlyable` | src/main/java/cofh/redstonearsenal/item/FluxElytraItem.java:78 | in the chest slot, armour applies exactly when the elytra can fly |
| `FluxElytra.DamageItem` | src/main/java/cofh/redstonearsenal/item/FluxElytraItem.java:124-130 | the energy drawn for armour damage is the smaller of the stored energy and amount times energy per use, never above the stored energy, non-negative when the product fits an `int` and the stored energy is non-negative; simulated for creative players; the result is always -1 |
| `FluxElytra.DamageItemWraps` | src/main/java/cofh/redstonearsenal/item/FluxElytraItem.java:127 | the product is `int` arithmetic: 2^30 times 2 wraps to -2^31, which is then the amount drawn |
| `FluxElytra.FluxElytraItem.constructor` | src/main/java/cofh/redstonearsenal/item/FluxElytraItem.java:43-58 | a new item stores its capacity and transfer rates and starts with `propelTime` 0 |
| `FluxElytra.FluxElytraItem.Propel` | src/main/java/cofh/redstonearsenal/item/FluxElytraItem.java:157-164 | a propulsion impulse is applied only to a gliding entity |
| `FluxElytra.FluxElytraItem.Brake` | src/main/java/cofh/redstonearsenal/item/FluxElytraItem.java:171-179 | a braking impulse is applied only to a gliding entity |
| `FluxElytra.FluxElytraItem.ElytraFlightTick` | src/main/java/cofh/redstonearsenal/item/FluxElytraItem.java:91-116 | draws base energy, then empowered energy in empowered mode, both simulated off the 32-tick cadence; `propelTime` and the action follow `Step`; the entity gets that action's impulse; always returns true |
| `FluxElytra.FluxElytraItem.BoostFor` | src/main/java/cofh/redstonearsenal/item/FluxElytraItem.java:133-150 | fails without drawing if the chest item cannot fly, fails after the draw if it fails, changing nothing either way; on success a non-gliding player starts gliding, the entity is propelled once and `propelTime` becomes the boost time |
| `FluxElytra.FluxElytraItem.Boost` | src/main/java/cofh/redstonearsenal/item/FluxElytraItem.java:152-155 | the same with the default boost time of 40 ticks |
| `FluxElytra.FluxElytraItem.GetPropelTime` | src/main/java/cofh/redstonearsenal/item/FluxElytraItem.java:186-189 | returns the countdown |
| `FluxElytra.FluxElytraItem.SetPropelTime` | src/main/java/cofh/redstonearsenal/item/FluxElytraItem.java:191-194 | sets the countdown, which `GetPropelTime` then returns |
| `FluxElytra.FluxElytraItem.OnModeChange` | src/main/java/cofh/redstonearsenal/item/FluxElytraItem.java:216-224 | a mode change resets the countdown to 0; the source resets the item of the changed stack when it is a flux elytra, which is this item because the engine dispatches `onModeChange` on the stack's own item |
| `FluxTrident.Use` | src/main/java/cofh/redstonearsenal/item/FluxTridentItem.java:120-129 | charging starts exactly when the trident holds energy, the player is not spinning, and riptide is at most 0 or the player is in water or rain; otherwise it fails |
| `FluxTrident.RiptideSoundTier` | src/main/java/cofh/redstonearsenal/item/FluxTridentItem.java:171-178 | the riptide sound tier is 3 from level 3 on, 2 for level 2, 1 for level 1 |
| `FluxTrident.ReleaseEffects` | src/main/java/cofh/redstonearsenal/item/FluxTridentItem.java:131-184 | no effect for a non-player, a charge under 10 ticks, or riptide out of water and rain; otherwise the statistic is awarded and energy drawn on the server only; thrown exactly after a successful server-side draw with riptide 0, creative-only pickup exactly for creative players, removed from the inventory exactly when thrown by a non-creative player; with riptide above 0 a launch with spin and sound, whatever the draw did, never together with a throw; lifted exactly when launched from the ground |
| `FluxTrident.AdmittedChargeReleases` | src/main/java/cofh/redstonearsenal/item/FluxTridentItem.java:120-139 | a charge `use` admitted, released after 10 ticks in the same water-or-rain state, passes every release gate: it launches with riptide, and throws on the server with energy and riptide 0 |
| `FluxTrident.ReleaseUsing` | src/main/java/cofh/redstonearsenal/item/FluxTridentItem.java:131-184 | the entity's inventory, statistic, spin ticks and motion change as `ReleaseEffects` says, and the draws, throw and sound returned agree with it |
| `FluxTrident.CanStartPlunging` | src/main/java/cofh/redstonearsenal/item/FluxTridentItem.java:212-219 | a plunge can start exactly when not on the ground, not spinning and nothing solid below |
| `FluxTrident.SpinningBlocksChargeAndPlunge` | src/main/java/cofh/redstonearsenal/item/FluxTridentItem.java:124 | a spinning entity can neither start charging nor (line 214) start a plunge |
| `FluxTrident.StartPlunge` | src/main/java/cofh/redstonearsenal/item/FluxTridentItem.java:197-210 | fails and changes nothing unless a plunge can start; on success a player stops gliding and flying, the entity spins for 200 ticks and dives |
| `FluxTrident.OnLeftClick` | src/main/java/cofh/redstonearsenal/item/FluxTridentItem.java:358-363 | a plunge is attempted only when empowered with empowered energy, with `StartPlunge`'s effects |
| `FluxTrident.PlungeAttackDamage` | src/main/java/cofh/redstonearsenal/item/FluxTridentItem.java:312-315 | plunge damage is scaled from the fall distance exactly when the stack has empowered energy and the fall exceeds the maximum, and is 0 otherwise |
| `FluxTrident.InRangeUpToExactly` | src/main/java/cofh/redstonearsenal/item/FluxTridentItem.java:239-243 | the targets hurt are exactly the in-range ones, each once, in the order listed |
| `FluxTrident.PlungeAttack` | src/main/java/cofh/redstonearsenal/item/FluxTridentItem.java:221-250 | the empowered draw is attempted only after a long enough fall in empowered mode; false without a hurt when that or the draw fails; true with particles on the client; on the server lightning exactly with channeling, sky, server world and thunder, every in-range target hurt without short-circuit, true exactly when some in-range hurt succeeded |
| `FluxTrident.OnLeftClickEntity` | src/main/java/cofh/redstonearsenal/item/FluxTridentItem.java:186-195 | a spinning player that fell more than 3 loses the fall and rebounds by factor -5; nothing changes otherwise; always false |
| `FluxTrident.StopSpinAttack` | src/main/java/cofh/redstonearsenal/item/FluxTridentItem.java:252-259 | a spin attack in progress ends; nothing changes otherwise |
| `FluxTrident.InventoryTick` | src/main/java/cofh/redstonearsenal/item/FluxTridentItem.java:107-118 | a spin attack ends when the carrier lands or has nearly stopped under water; otherwise the spin is left alone |
| `FluxTrident.HurtEnemy` | src/main/java/cofh/redstonearsenal/item/FluxTridentItem.java:278-283 | hitting draws base energy and always returns true |
| `FluxTrident.MineBlock` | src/main/java/cofh/redstonearsenal/item/FluxTridentItem.java:285-292 | mining draws base energy exactly on the server for a non-zero destroy speed, and always returns true |
| `FluxTrident.GetAttackDamage` | src/main/java/cofh/redstonearsenal/item/FluxTridentItem.java:307-310 | attack damage is the trident's damage with energy and 0 without |
| `FluxTrident.WeaponModifiers` | src/main/java/cofh/redstonearsenal/item/FluxTridentItem.java:294-305 | modifiers exist exactly in the main hand: attack damage (0 without energy) and attack speed |

## Left out

- Vector and floating-point arithmetic are not computed. This covers the propulsion and braking formulas and their thresholds, the riptide push, `getPlungeVector`, the square root in the plunge damage and the squared-distance range test. Each velocity change is logged as a named impulse, the range test is an input per target, and the damage is `FallScaled(fallDistance)`, which stands for 2.5 times its square root.
- The energy container (`useEnergy`, `hasEnergy`, `isEmpowered`, `getEnergyStored`, `getMaxStored`) is defined in interfaces that are not part of this model. Its answers are inputs. The getters `getExtract`, `getReceive` and `getMaxEnergyStored`, which only pass the constructor's values on to it, are not modelled beyond the constructor.
- The super-interface part of `onModeChange`, which switches the mode, is not part of this model. Only the reset of `propelTime` is.
- FluxTrident.Use: `startUsingItem` changes engine state that is not modelled. The model only returns whether use is consumed or fails.
- Engine queries are boolean inputs. The entity's spin flag is modelled as "spin ticks above zero".
- Pure side effects are left out: the sounds, the trident entity's flight, the lightning bolt's spawn, and the lightning-resistance effect. Which of the three riptide sounds plays is kept as `soundTier`; the particles and the lightning are kept only as flags.
- The pickup status of a thrown trident outside creative mode is the engine's, and the model names it `Allowed`.
- Presentation is left out: item model properties, tooltips, enchantability, `getEquipmentSlot`, and the attribute modifiers' names and UUIDs.
- The trident's damage, which its constructor computes as an integer damage plus the tier's bonus, is an input. `getPlungeSpeed` is the constant `PLUNGE_SPEED`, the speed of the `Dive` impulse. `PLUNGE_RANGE` (3.5, from `getPlungeRange`) is documentation only: the range test it feeds is an input per target.
- `propelTime` is stored on the item type and is therefore shared by every entity that uses the item. The model has a single sequential object. That sharing is a concurrency concern.
- FluxTrident.ReleaseUsing: the 1.2-block hop of a riptide launch from the ground is logged as a `Lift` impulse. The model does not change `onGround` afterwards, because position is engine state.
- FluxTrident.StopSpinAttack: stopping a spin also calls an engine hook (`checkAutoSpinAttack`, line 257 of `FluxTridentItem.java`), which is not modelled. What remains is the reset of the spin ticks; `FluxTrident.InventoryTick` inherits this through its call.
