/** The flux trident: an energy-powered trident. Charging and releasing it
    throws it or, with riptide, launches the player; in empowered mode a left
    click in the air starts a plunge, and landing from the plunge hurts every
    entity in range. Every action is gated on energy; the gates are modelled
    here, the vector arithmetic behind the motions is not. */
module FluxTrident {

  import opened JavaInt
  import opened Entities
  import opened Energy

  /** `getPlungeRange`: the radius of a plunge landing. Documentation only,
      because each target's range test is an input (`Target.inRange`). */
  const PLUNGE_RANGE: real := 3.5
  /** `getPlungeSpeed`: the speed of the `Dive` impulse. */
  const PLUNGE_SPEED: real := 3.0
  /** Ticks a trident must be charged before a release does anything. */
  const MIN_CHARGE: int32 := 10
  /** Spin attack ticks of a riptide launch and of a plunge. */
  const RIPTIDE_SPIN_TICKS: int := 20
  const PLUNGE_SPIN_TICKS: int := 200
  /** Fall distance above which a hit while spinning bounces the player back. */
  const REBOUND_FALL: real := 3.0
  const REBOUND_FACTOR: real := -5.0

  datatype UseResult = Consume | Fail

  /** Who may pick up a thrown trident. */
  datatype Pickup = Allowed | CreativeOnly

  datatype Throw = NotThrown | Thrown(pickup: Pickup)

  /** The effects of releasing a charged trident. */
  datatype Release = Release(
    drew: bool,          // the base energy draw was made
    thrown: Throw,       // a trident entity was spawned
    removed: bool,       // the stack left the player's inventory
    statAwarded: bool,   // the "item used" statistic went up
    launched: bool,      // riptide push and spin attack
    lifted: bool,        // the launch started on the ground
    soundTier: nat)      // riptide sound, 1 to 3; 0 for none

  const NO_RELEASE: Release := Release(false, NotThrown, false, false, false, false, 0)

  /** What `plungeAttack` learns from the attacker, the stack and the world. */
  datatype PlungeFacts = PlungeFacts(
    fallDistance: real,
    maxFallDistance: int,
    empowered: bool,
    drawOk: bool,              // result of the empowered energy draw
    hasEmpoweredEnergy: bool,  // after the draw
    clientSide: bool,
    channeling: int,
    canSeeSky: bool,
    serverWorld: bool,
    thundering: bool)

  /** An entity near the landing point: whether it is within the plunge range,
      and whether hurting it succeeds. */
  datatype Target = Target(inRange: bool, hurtOk: bool)

  /** The damage a plunge deals: none, or 2.5 times the square root of the
      attacker's fall distance. */
  datatype PlungeDamage = NoDamage | FallScaled(fallDistance: real)

  /** The effects of a plunge landing: energy draws, client-side particles,
      a lightning strike, the damage dealt, the targets hurt (by index, in
      order) and the value returned. */
  datatype Plunge = Plunge(
    draws: seq<Draw>,
    particles: bool,
    lightning: bool,
    damage: PlungeDamage,
    struck: seq<nat>,
    result: bool)

  /** The effects and result of a callback without further state. */
  datatype Callback = Callback(draws: seq<Draw>, result: bool)

  // ---------------------------------------------------------------------
  // Charging and releasing

  /** Charging may start if the trident holds energy, the player is not
      spinning already, and a riptide trident is in water or rain. */
  function Use(hasEnergy: bool, spinning: bool, riptide: int, wetOrRain: bool): (r: UseResult)
    ensures r == Consume <==> hasEnergy && !spinning && (riptide <= 0 || wetOrRain)
  {
    if hasEnergy && !spinning && (riptide <= 0 || wetOrRain) then Consume else Fail
  }

  /** The riptide sound: tier 3 from level 3 on, otherwise the level itself. */
  function RiptideSoundTier(level: int): (tier: nat)
    requires level > 0
    ensures 1 <= tier <= 3
    ensures tier as int == if level < 3 then level else 3
  {
    if level >= 3 then 3 else if level == 2 then 2 else 1
  }

  /** The ticks the trident was charged for: Java `int` subtraction. */
  function Charge(useDuration: int32, remaining: int32): int32 {
    Sub(useDuration, remaining)
  }

  /** The effects of `releaseUsing`. */
  function ReleaseEffects(isPlayer: bool, creative: bool, onGround: bool, wetOrRain: bool,
                          useDuration: int32, remaining: int32, riptide: int,
                          clientSide: bool, drawOk: bool): (r: Release)
    // nothing for a non-player, a short charge, or riptide out of water and rain
    ensures !isPlayer || Charge(useDuration, remaining) < MIN_CHARGE || (riptide > 0 && !wetOrRain) ==>
      r == NO_RELEASE
    // past those gates the statistic is awarded, energy drawn on the server only
    ensures r.statAwarded <==>
      isPlayer && Charge(useDuration, remaining) >= MIN_CHARGE && (riptide <= 0 || wetOrRain)
    ensures r.drew <==> r.statAwarded && !clientSide
    // thrown only after a successful draw, and only without riptide
    ensures r.thrown.Thrown? <==> r.drew && drawOk && riptide == 0
    ensures r.thrown.Thrown? ==> (r.thrown.pickup == CreativeOnly <==> creative)
    // a creative player keeps the trident
    ensures r.removed <==> r.thrown.Thrown? && !creative
    // the riptide launch does not depend on the energy draw
    ensures r.launched <==> r.statAwarded && riptide > 0
    ensures r.launched ==> !r.thrown.Thrown? && r.soundTier == RiptideSoundTier(riptide)
    ensures !r.launched ==> r.soundTier == 0
    ensures r.lifted <==> r.launched && onGround
  {
    if !isPlayer || Charge(useDuration, remaining) < MIN_CHARGE || (riptide > 0 && !wetOrRain) then
      NO_RELEASE
    else
      var drew := !clientSide;
      var thrown := if drew && drawOk && riptide == 0
                    then Thrown(if creative then CreativeOnly else Allowed)
                    else NotThrown;
      var launched := riptide > 0;
      Release(drew, thrown, thrown.Thrown? && !creative, true, launched, launched && onGround,
              if launched then RiptideSoundTier(riptide) else 0)
  }

  /** A charge that `use` admitted, released after enough ticks while the
      player is still in water or rain as when it started, passes every gate
      of the release: it throws the trident (on the server, with energy, and
      without riptide) or launches the player (with riptide). */
  lemma AdmittedChargeReleases(hasEnergy: bool, creative: bool, onGround: bool, wetOrRain: bool,
                               useDuration: int32, remaining: int32, riptide: int,
                               clientSide: bool, drawOk: bool)
    requires Use(hasEnergy, false, riptide, wetOrRain) == Consume
    requires Charge(useDuration, remaining) >= MIN_CHARGE
    ensures var r := ReleaseEffects(true, creative, onGround, wetOrRain, useDuration, remaining,
                                    riptide, clientSide, drawOk);
      r.statAwarded && (riptide > 0 ==> r.launched)
      && (riptide == 0 && !clientSide && drawOk ==> r.thrown.Thrown?)
  {
  }

  /** `releaseUsing` on the entity that charged the trident. */
  method ReleaseUsing(entity: Living, useDuration: int32, remaining: int32, riptide: int,
                      clientSide: bool, drawOk: bool)
    returns (draws: seq<Draw>, thrown: Throw, soundTier: nat)
    modifies entity`holdsStack, entity`itemsUsed, entity`spinTicks, entity`motion
    ensures var r := ReleaseEffects(entity.isPlayer, entity.creative, entity.onGround, entity.inWaterOrRain,
                                    useDuration, remaining, riptide, clientSide, drawOk);
      && draws == (if r.drew then [Draw(false, entity.creative)] else [])
      && thrown == r.thrown
      && soundTier == r.soundTier
      && entity.holdsStack == (old(entity.holdsStack) && !r.removed)
      && entity.itemsUsed == old(entity.itemsUsed) + (if r.statAwarded then 1 else 0)
      && entity.spinTicks == (if r.launched then RIPTIDE_SPIN_TICKS else old(entity.spinTicks))
      && entity.motion == old(entity.motion)
           + (if r.launched then [RiptidePush(riptide)] + (if r.lifted then [Lift] else []) else [])
  {
    draws, thrown, soundTier := [], NotThrown, 0;
    if !entity.isPlayer {
      return;
    }
    if Charge(useDuration, remaining) < MIN_CHARGE {
      return;
    }
    if riptide > 0 && !entity.inWaterOrRain {
      return;
    }
    if !clientSide {
      draws := [Draw(false, entity.creative)];
      if drawOk && riptide == 0 {
        thrown := Thrown(if entity.creative then CreativeOnly else Allowed);
        if !entity.creative {
          entity.holdsStack := false;
        }
      }
    }
    entity.itemsUsed := entity.itemsUsed + 1;
    if riptide > 0 {
      entity.motion := entity.motion + [RiptidePush(riptide)];
      entity.spinTicks := RIPTIDE_SPIN_TICKS;
      if entity.onGround {
        entity.motion := entity.motion + [Lift];
      }
      soundTier := RiptideSoundTier(riptide);
    }
  }

  // ---------------------------------------------------------------------
  // Plunging

  /** A plunge can start in the air, when not spinning, with nothing solid in
      the three blocks below. */
  function CanStartPlunging(onGround: bool, spinning: bool, clearBelow: bool): (r: bool)
    ensures r <==> !onGround && !spinning && clearBelow
  {
    if onGround || spinning then false else clearBelow
  }

  /** A spinning entity can neither start charging nor start a plunge: a
      launch or a plunge must end first. */
  lemma SpinningBlocksChargeAndPlunge(hasEnergy: bool, riptide: int, wetOrRain: bool, onGround: bool, clearBelow: bool)
    ensures Use(hasEnergy, true, riptide, wetOrRain) == Fail
    ensures !CanStartPlunging(onGround, true, clearBelow)
  {
  }

  /** Starts a plunge: a player stops gliding and flying, the entity spins for
      200 ticks and dives. Nothing changes if the plunge cannot start. */
  method StartPlunge(living: Living, clearBelow: bool) returns (ok: bool)
    modifies living`fallFlying, living`flying, living`spinTicks, living`motion
    ensures ok == CanStartPlunging(living.onGround, old(living.Spinning()), clearBelow)
    ensures !ok ==> living.spinTicks == old(living.spinTicks) && living.motion == old(living.motion)
    ensures ok ==> living.spinTicks == PLUNGE_SPIN_TICKS && living.motion == old(living.motion) + [Dive(PLUNGE_SPEED)]
    ensures if ok && living.isPlayer then !living.fallFlying && !living.flying
            else living.fallFlying == old(living.fallFlying) && living.flying == old(living.flying)
  {
    if !CanStartPlunging(living.onGround, living.Spinning(), clearBelow) {
      return false;
    }
    if living.isPlayer {
      living.fallFlying := false;
      living.flying := false;
    }
    living.spinTicks := PLUNGE_SPIN_TICKS;
    living.motion := living.motion + [Dive(PLUNGE_SPEED)];
    ok := true;
  }

  /** A left click with the trident tries a plunge when the stack is empowered
      and holds empowered energy. */
  method OnLeftClick(player: Living, empowered: bool, hasEmpoweredEnergy: bool, clearBelow: bool)
    modifies player`fallFlying, player`flying, player`spinTicks, player`motion
    ensures var ok := empowered && hasEmpoweredEnergy
                      && CanStartPlunging(player.onGround, old(player.Spinning()), clearBelow);
      && (!ok ==> player.spinTicks == old(player.spinTicks) && player.motion == old(player.motion)
                  && player.fallFlying == old(player.fallFlying) && player.flying == old(player.flying))
      && (ok ==> player.spinTicks == PLUNGE_SPIN_TICKS && player.motion == old(player.motion) + [Dive(PLUNGE_SPEED)])
      && (if ok && player.isPlayer then !player.fallFlying && !player.flying
          else player.fallFlying == old(player.fallFlying) && player.flying == old(player.flying))
  {
    if empowered && hasEmpoweredEnergy {
      var _ := StartPlunge(player, clearBelow);
    }
  }

  /** Whether a plunge landing goes on to hurt anything: the fall is longer
      than the attacker survives unhurt, the stack is empowered, and the
      empowered energy is drawn. */
  predicate PlungeGate(f: PlungeFacts) {
    f.fallDistance > f.maxFallDistance as real && f.empowered && f.drawOk
  }

  /** The damage of a plunge: it needs empowered energy and a fall longer
      than the attacker survives unhurt. */
  function PlungeAttackDamage(hasEmpoweredEnergy: bool, fallDistance: real, maxFallDistance: int): (d: PlungeDamage)
    ensures d.FallScaled? <==> hasEmpoweredEnergy && fallDistance > maxFallDistance as real
    ensures d.FallScaled? ==> d.fallDistance == fallDistance
  {
    if hasEmpoweredEnergy && fallDistance > maxFallDistance as real then FallScaled(fallDistance) else NoDamage
  }

  /** The indices, in order, of the in-range targets among the first n. */
  function InRangeUpTo(targets: seq<Target>, n: nat): seq<nat>
    requires n <= |targets|
  {
    if n == 0 then []
    else InRangeUpTo(targets, n - 1) + (if targets[n - 1].inRange then [n - 1] else [])
  }

  /** Every in-range target, and nothing else, is hurt exactly once, in the
      order the world lists them. */
  lemma {:induction false} InRangeUpToExactly(targets: seq<Target>, n: nat)
    requires n <= |targets|
    ensures forall i: nat :: i in InRangeUpTo(targets, n) <==> i < n && targets[i].inRange
    ensures forall a, b | 0 <= a < b < |InRangeUpTo(targets, n)| ::
      InRangeUpTo(targets, n)[a] < InRangeUpTo(targets, n)[b]
  {
    if n > 0 {
      InRangeUpToExactly(targets, n - 1);
      var before := InRangeUpTo(targets, n - 1);
      var s := InRangeUpTo(targets, n);
      assert s == before + (if targets[n - 1].inRange then [n - 1] else []);
      forall a, b | 0 <= a < b < |s| ensures s[a] < s[b] {
        if b >= |before| {
          assert s[b] == n - 1;
          assert s[a] == before[a] && s[a] in before;
        }
      }
    }
  }

  /** `plungeAttack`. Cheap checks come first: energy is drawn only after a
      long enough fall in empowered mode. On the client it only shows
      particles. On the server every in-range target is hurt, without
      stopping at the first success, and the result says whether any of them
      was. */
  method PlungeAttack(f: PlungeFacts, targets: seq<Target>) returns (p: Plunge)
    ensures p.draws == if f.fallDistance > f.maxFallDistance as real && f.empowered then [DrawFor(true)] else []
    ensures !PlungeGate(f) ==> !p.result && !p.particles && !p.lightning && p.struck == []
    ensures PlungeGate(f) && f.clientSide ==> p.result && p.particles && !p.lightning && p.struck == []
    ensures PlungeGate(f) && !f.clientSide ==>
      && !p.particles
      && p.lightning == (f.channeling > 0 && f.canSeeSky && f.serverWorld && f.thundering)
      && p.struck == InRangeUpTo(targets, |targets|)
      && (p.result <==> exists i :: 0 <= i < |targets| && targets[i].inRange && targets[i].hurtOk)
    ensures p.damage == if PlungeGate(f) && !f.clientSide
                        then PlungeAttackDamage(f.hasEmpoweredEnergy, f.fallDistance, f.maxFallDistance)
                        else NoDamage
  {
    p := Plunge([], false, false, NoDamage, [], false);
    if f.fallDistance <= f.maxFallDistance as real || !f.empowered {
      return;
    }
    p := p.(draws := [DrawFor(true)]);
    if !f.drawOk {
      return;
    }
    if f.clientSide {
      p := p.(particles := true, result := true);
      return;
    }
    var lightning := f.channeling > 0 && f.canSeeSky && f.serverWorld && f.thundering;
    var damage := PlungeAttackDamage(f.hasEmpoweredEnergy, f.fallDistance, f.maxFallDistance);
    var struck: seq<nat> := [];
    var hit := false;
    var i := 0;
    while i < |targets|
      invariant 0 <= i <= |targets|
      invariant struck == InRangeUpTo(targets, i)
      invariant hit <==> exists j :: 0 <= j < i && targets[j].inRange && targets[j].hurtOk
    {
      if targets[i].inRange {
        var hurt := targets[i].hurtOk;
        struck := struck + [i];
        hit := hit || hurt;
      }
      i := i + 1;
    }
    p := Plunge(p.draws, false, lightning, damage, struck, hit);
  }

  /** Counteracts the riptide bounce: a spinning player that fell more than
      three blocks loses the fall and has its velocity reversed and scaled.
      The click is never consumed. */
  method OnLeftClickEntity(player: Living) returns (r: bool)
    modifies player`fallDistance, player`motion
    ensures !r
    ensures if old(player.Spinning()) && old(player.fallDistance) > REBOUND_FALL
            then player.fallDistance == 0.0 && player.motion == old(player.motion) + [Rebound(REBOUND_FACTOR)]
            else player.fallDistance == old(player.fallDistance) && player.motion == old(player.motion)
  {
    if player.Spinning() && player.fallDistance > REBOUND_FALL {
      player.fallDistance := 0.0;
      player.motion := player.motion + [Rebound(REBOUND_FACTOR)];
    }
    r := false;
  }

  /** Ends a spin attack. */
  method StopSpinAttack(living: Living)
    modifies living`spinTicks
    ensures old(living.Spinning()) ==> living.spinTicks == 0
    ensures !old(living.Spinning()) ==> living.spinTicks == old(living.spinTicks)
  {
    if living.Spinning() {
      living.spinTicks := 0;
    }
  }

  /** While the trident is carried, a spin attack ends on landing, or under
      water once the entity has nearly stopped. */
  method InventoryTick(living: Living, slowUnderWater: bool)
    modifies living`spinTicks
    ensures if old(living.Spinning()) && (living.onGround || slowUnderWater)
            then living.spinTicks == 0
            else living.spinTicks == old(living.spinTicks)
  {
    if living.Spinning() && (living.onGround || slowUnderWater) {
      StopSpinAttack(living);
    }
  }

  // ---------------------------------------------------------------------
  // Melee and attributes

  /** Hitting an entity draws base energy and always counts as a use. */
  function HurtEnemy(): (c: Callback)
    ensures c.result && c.draws == [DrawFor(false)]
  {
    Callback([DrawFor(false)], true)
  }

  /** Mining draws base energy on the server for blocks that are not broken
      instantly, and always counts as a use. */
  function MineBlock(serverWorld: bool, destroySpeed: real): (c: Callback)
    ensures c.result
    ensures c.draws != [] <==> serverWorld && destroySpeed != 0.0
    ensures c.draws != [] ==> c.draws == [DrawFor(false)]
  {
    Callback(if serverWorld && destroySpeed != 0.0 then [DrawFor(false)] else [], true)
  }

  /** The attack damage: the trident's damage while it holds energy, none
      without. */
  function GetAttackDamage(hasEnergy: bool, damage: real): (r: real)
    ensures hasEnergy ==> r == damage
    ensures !hasEnergy ==> r == 0.0
  {
    if hasEnergy then damage else 0.0
  }

  /** The weapon modifiers: attack damage and speed in the main hand only. */
  function WeaponModifiers(slot: Slot, hasEnergy: bool, damage: real, attackSpeed: real): (m: map<Attribute, real>)
    ensures m != map[] <==> slot == MainHand
    ensures slot == MainHand ==>
      && m.Keys == {AttackDamage, AttackSpeed}
      && m[AttackDamage] == GetAttackDamage(hasEnergy, damage)
      && m[AttackSpeed] == attackSpeed
  {
    if slot == MainHand then
      var m := map[AttackDamage := GetAttackDamage(hasEnergy, damage), AttackSpeed := attackSpeed];
      assert AttackSpeed in m;
      m
    else map[]
  }
}
