/** The flux elytra: an energy-powered elytra. Each flight tick draws energy;
    in empowered mode it propels or brakes the wearer (or does nothing while
    the countdown is positive or the draw fails), and a one-off boost
    starts a countdown of propelled ticks. The whole propulsion state is one
    integer, `propelTime`:
      - below zero: brake on every empowered tick;
      - zero:       propel on every empowered tick;
      - above zero: in empowered mode do nothing; otherwise propel and count
                    down by one per tick.
    An empowered tick whose energy draw fails pins it at 1 ("stop"). */
module FluxElytra {

  import opened JavaInt
  import opened Entities
  import opened Energy

  const PROPEL_SPEED: real := 0.85
  const BRAKE_RATE: real := 0.90
  /** Length of the countdown a default boost starts. */
  const BOOST_TIME: int32 := 40

  /** What a flight tick does to the wearer. */
  datatype Action = Propelled | Braked | Idle

  /** What a flight tick learns from the stack: whether it is empowered, and
      whether its empowered energy draw succeeds. */
  datatype TickInput = TickInput(empowered: bool, drawOk: bool)

  /** The action of one tick and the countdown it leaves. */
  datatype Tick = Tick(action: Action, time: int32)

  /** The actions of a run of ticks and the countdown after the last one. */
  datatype Trace = Trace(actions: seq<Action>, time: int32)

  /** The outcome of `damageItem`: the energy drawn, whether the draw is only
      simulated, and the value returned to the engine. */
  datatype DamageDraw = DamageDraw(amount: int32, simulate: bool, result: int32)

  // ---------------------------------------------------------------------
  // The flight tick as a function of the countdown

  /** The base flight energy is really drawn once every 32 flight ticks
      (`(flightTicks & 31) == 0`), and never for a creative player. */
  function ShouldExtract(flightTicks: int32, creativePlayer: bool): (r: bool)
    ensures r <==> flightTicks as int % 32 == 0 && !creativePlayer
  {
    AndThirtyOne(flightTicks);
    And(flightTicks, 31) == 0 && !creativePlayer
  }

  /** The propulsion decision of one flight tick from countdown `time`. */
  function Step(time: int32, input: TickInput): (r: Tick)
    // empowered, energy drawn: the countdown is left as it is
    ensures input.empowered && input.drawOk ==> r.time == time
    // empowered, energy draw failed: nothing happens and the item is stopped at 1
    ensures input.empowered && !input.drawOk ==> r == Tick(Idle, 1)
    // empowered mode writes no value other than 1
    ensures input.empowered ==> r.time == time || r.time == 1
    // unpowered: a positive countdown loses one tick each time it propels,
    // anything else stays as it is
    ensures !input.empowered ==> (r.action == Propelled <==> r.time as int == time as int - 1)
    ensures !input.empowered && r.action != Propelled ==> r.time == time
    ensures !input.empowered && time >= 0 ==> 0 <= r.time
    ensures r.action == Braked <==> input.empowered && input.drawOk && time < 0
    ensures r.action == Propelled <==>
      (input.empowered && input.drawOk && time == 0) || (!input.empowered && time > 0)
  {
    if input.empowered then
      if input.drawOk then
        if time < 0 then Tick(Braked, time)
        else if time == 0 then Tick(Propelled, time)
        else Tick(Idle, time)
      else Tick(Idle, 1)
    else if time > 0 then Tick(Propelled, time - 1)
    else Tick(Idle, time)
  }

  /** A run of flight ticks from countdown `time`. */
  function Run(time: int32, inputs: seq<TickInput>): (r: Trace)
    ensures |r.actions| == |inputs|
    decreases |inputs|
  {
    if inputs == [] then Trace([], time)
    else
      var s := Step(time, inputs[0]);
      var rest := Run(s.time, inputs[1..]);
      Trace([s.action] + rest.actions, rest.time)
  }

  predicate AllUnpowered(inputs: seq<TickInput>) {
    forall i | 0 <= i < |inputs| :: !inputs[i].empowered
  }

  predicate AllEmpowered(inputs: seq<TickInput>) {
    forall i | 0 <= i < |inputs| :: inputs[i].empowered
  }

  predicate AllDrawsOk(inputs: seq<TickInput>) {
    forall i | 0 <= i < |inputs| :: inputs[i].drawOk
  }

  /** What every empowered tick with enough energy does at a fixed countdown. */
  function EmpoweredAction(time: int32): Action {
    if time < 0 then Braked else if time == 0 then Propelled else Idle
  }

  /** Out of empowered mode, a countdown of n propels on exactly the first n
      ticks and then rests at zero. */
  lemma {:induction false} CountdownPropelsExactly(n: int32, inputs: seq<TickInput>)
    requires n >= 0 && AllUnpowered(inputs)
    ensures forall k | 0 <= k < |inputs| ::
      Run(n, inputs).actions[k] == if k < n as int then Propelled else Idle
    ensures Run(n, inputs).time as int == if |inputs| >= n as int then 0 else n as int - |inputs|
    decreases |inputs|
  {
    if inputs != [] {
      var s := Step(n, inputs[0]);
      var tail := inputs[1..];
      assert AllUnpowered(tail) by {
        forall i | 0 <= i < |tail| ensures !tail[i].empowered {
          assert tail[i] == inputs[i + 1];
        }
      }
      CountdownPropelsExactly(s.time, tail);
      var r := Run(n, inputs);
      assert r.actions == [s.action] + Run(s.time, tail).actions;
      forall k | 0 <= k < |inputs|
        ensures r.actions[k] == if k < n as int then Propelled else Idle
      {
        if k > 0 {
          assert r.actions[k] == Run(s.time, tail).actions[k - 1];
        }
      }
    }
  }

  /** Empowered ticks that all draw their energy hold the countdown and repeat
      one action: brake below zero, propel at zero, nothing above. */
  lemma {:induction false} EmpoweredHolds(time: int32, inputs: seq<TickInput>)
    requires AllEmpowered(inputs) && AllDrawsOk(inputs)
    ensures Run(time, inputs).time == time
    ensures forall k | 0 <= k < |inputs| :: Run(time, inputs).actions[k] == EmpoweredAction(time)
    decreases |inputs|
  {
    if inputs != [] {
      var tail := inputs[1..];
      assert AllEmpowered(tail) && AllDrawsOk(tail) by {
        forall i | 0 <= i < |tail| ensures tail[i].empowered && tail[i].drawOk {
          assert tail[i] == inputs[i + 1];
        }
      }
      EmpoweredHolds(time, tail);
      var r := Run(time, inputs);
      assert r.actions == [Step(time, inputs[0]).action] + Run(time, tail).actions;
      forall k | 0 <= k < |inputs| ensures r.actions[k] == EmpoweredAction(time) {
        if k > 0 {
          assert r.actions[k] == Run(time, tail).actions[k - 1];
        }
      }
    }
  }

  /** In empowered mode the countdown only ever takes the value 1 besides its
      starting value; and once it is positive ("stopped") no empowered tick
      propels or brakes, whatever the energy. */
  lemma {:induction false} EmpoweredWritesOnlyOne(time: int32, inputs: seq<TickInput>)
    requires AllEmpowered(inputs)
    ensures Run(time, inputs).time == time || Run(time, inputs).time == 1
    ensures time > 0 ==> forall k | 0 <= k < |inputs| :: Run(time, inputs).actions[k] == Idle
    decreases |inputs|
  {
    if inputs != [] {
      var s := Step(time, inputs[0]);
      var tail := inputs[1..];
      assert AllEmpowered(tail) by {
        forall i | 0 <= i < |tail| ensures tail[i].empowered {
          assert tail[i] == inputs[i + 1];
        }
      }
      EmpoweredWritesOnlyOne(s.time, tail);
      var r := Run(time, inputs);
      assert r.actions == [s.action] + Run(s.time, tail).actions;
      if time > 0 {
        forall k | 0 <= k < |inputs| ensures r.actions[k] == Idle {
          if k > 0 {
            assert r.actions[k] == Run(s.time, tail).actions[k - 1];
          }
        }
      }
    }
  }

  /** In empowered mode one failed energy draw stops the item for good: the
      run ends at 1 and no tick from the failure on propels or brakes. */
  lemma {:induction false} EmpoweredFailureStops(time: int32, inputs: seq<TickInput>, j: nat)
    requires AllEmpowered(inputs) && j < |inputs| && !inputs[j].drawOk
    ensures Run(time, inputs).time == 1
    ensures forall k | j <= k < |inputs| :: Run(time, inputs).actions[k] == Idle
    decreases |inputs|
  {
    var s := Step(time, inputs[0]);
    var tail := inputs[1..];
    assert AllEmpowered(tail) by {
      forall i | 0 <= i < |tail| ensures tail[i].empowered {
        assert tail[i] == inputs[i + 1];
      }
    }
    var r := Run(time, inputs);
    assert r.actions == [s.action] + Run(s.time, tail).actions;
    if j == 0 {
      EmpoweredWritesOnlyOne(1, tail);
    } else {
      assert tail[j - 1] == inputs[j];
      EmpoweredFailureStops(s.time, tail, j - 1);
    }
    forall k | j <= k < |inputs| ensures r.actions[k] == Idle {
      if k > 0 {
        assert r.actions[k] == Run(s.time, tail).actions[k - 1];
      }
    }
  }

  /** A mode change resets the countdown to zero: from there empowered ticks
      with energy propel every time, and unpowered ticks never do. */
  lemma {:induction false} ModeChangeRestarts(inputs: seq<TickInput>)
    ensures AllEmpowered(inputs) && AllDrawsOk(inputs) ==>
      forall k | 0 <= k < |inputs| :: Run(0, inputs).actions[k] == Propelled
    ensures AllUnpowered(inputs) ==>
      Run(0, inputs).time == 0 && forall k | 0 <= k < |inputs| :: Run(0, inputs).actions[k] == Idle
  {
    if AllEmpowered(inputs) && AllDrawsOk(inputs) {
      EmpoweredHolds(0, inputs);
    }
    if AllUnpowered(inputs) {
      CountdownPropelsExactly(0, inputs);
    }
  }

  /** A successful default boost, followed by unpowered flight, propels on
      the 40 ticks after the boost itself and on none after them. */
  lemma {:induction false} DefaultBoostPropelsFortyTicks(inputs: seq<TickInput>)
    requires AllUnpowered(inputs)
    ensures forall k | 0 <= k < |inputs| ::
      (Run(BOOST_TIME, inputs).actions[k] == Propelled <==> k < 40)
    ensures |inputs| >= 40 ==> Run(BOOST_TIME, inputs).time == 0
  {
    CountdownPropelsExactly(BOOST_TIME, inputs);
  }

  /** The velocity change of a tick's action on an entity that is or is not
      gliding; propel and brake leave a non-gliding entity alone. */
  function Effect(action: Action, fallFlying: bool): (m: seq<Impulse>)
    ensures !fallFlying ==> m == []
    ensures |m| <= 1
    // a gliding entity: propulsion when propelled, braking when braked, nothing when idle
    ensures fallFlying ==> (m == [Propulsion(PROPEL_SPEED)] <==> action == Propelled)
    ensures fallFlying ==> (m == [Braking(BRAKE_RATE)] <==> action == Braked)
    ensures fallFlying ==> (m == [] <==> action == Idle)
  {
    if !fallFlying then []
    else match action
      case Propelled => [Propulsion(PROPEL_SPEED)]
      case Braked => [Braking(BRAKE_RATE)]
      case Idle => []
  }

  // ---------------------------------------------------------------------
  // Gates

  /** The elytra can be flown while it holds energy. */
  function CanElytraFly(hasEnergy: bool): (r: bool)
    ensures r <==> hasEnergy
  {
    hasEnergy
  }

  /** The elytra takes damage (which then costs energy) while it holds energy. */
  function IsDamageable(hasEnergy: bool): (r: bool)
    ensures r <==> hasEnergy
  {
    hasEnergy
  }

  /** The armour modifiers of the elytra in `slot`: armour and toughness,
      present only in the chest slot while the elytra holds energy. */
  function ArmorModifiers(slot: Slot, hasEnergy: bool, defense: int, toughness: real): (m: map<Attribute, real>)
    ensures m != map[] <==> slot == Chest && hasEnergy
    ensures m != map[] ==> m.Keys == {Armor, ArmorToughness}
    ensures m != map[] ==> m[Armor] == defense as real && m[ArmorToughness] == toughness
  {
    if slot == Chest && hasEnergy then
      var m := map[Armor := defense as real, ArmorToughness := toughness];
      assert Armor in m;
      m
    else map[]
  }

  /** Worn in the chest slot, the elytra gives armour exactly when it can fly. */
  lemma ArmorExactlyWhenFlyable(hasEnergy: bool, defense: int, toughness: real)
    ensures ArmorModifiers(Chest, hasEnergy, defense, toughness) != map[] <==> CanElytraFly(hasEnergy)
  {
  }

  /** `damageItem`: armour damage becomes an energy draw of `amount` times the
      energy per use, capped at the energy stored (simulated for a creative
      player); the engine is told to apply no durability damage. */
  function DamageItem(stored: int32, amount: int32, perUse: int32, creativePlayer: bool): (r: DamageDraw)
    ensures r.amount <= stored
    ensures r.amount <= Mul(amount, perUse)
    ensures r.amount == stored || r.amount == Mul(amount, perUse)
    ensures 0 <= stored && 0 <= amount as int * perUse as int < 0x8000_0000 ==>
      0 <= r.amount && r.amount as int <= amount as int * perUse as int
    ensures r.simulate == creativePlayer
    ensures r.result == -1
  {
    DamageDraw(Min(stored, Mul(amount, perUse)), creativePlayer, -1)
  }

  /** The product is Java `int` arithmetic: a product beyond the `int` range
      wraps, and the drawn amount can then be negative. */
  lemma DamageItemWraps()
    ensures DamageItem(100, 0x4000_0000, 2, false).amount == -0x8000_0000
  {
    assert Mul(0x4000_0000, 2) == -0x8000_0000;
  }

  // ---------------------------------------------------------------------
  // The item and its propulsion state

  class FluxElytraItem {
    const maxEnergy: int32
    const extract: int32
    const receive: int32
    /** The propulsion countdown, shared by every stack of this item. */
    var propelTime: int32

    constructor (maxEnergy: int32, maxTransfer: int32)
      ensures this.maxEnergy == maxEnergy && extract == maxTransfer && receive == maxTransfer
      ensures propelTime == 0
    {
      this.maxEnergy := maxEnergy;
      extract := maxTransfer;
      receive := maxTransfer;
      propelTime := 0;
    }

    /** Pushes a gliding entity along its look direction. */
    method Propel(entity: Living, speed: real)
      modifies entity`motion
      ensures entity.motion == old(entity.motion) + (if entity.fallFlying then [Propulsion(speed)] else [])
    {
      if entity.fallFlying {
        entity.motion := entity.motion + [Propulsion(speed)];
      }
    }

    /** Damps the velocity of a gliding entity. */
    method Brake(entity: Living, rate: real)
      modifies entity`motion
      ensures entity.motion == old(entity.motion) + (if entity.fallFlying then [Braking(rate)] else [])
    {
      if entity.fallFlying {
        entity.motion := entity.motion + [Braking(rate)];
      }
    }

    /** One tick of elytra flight. The base energy is drawn (simulated unless
        it is a draw tick); in empowered mode the empowered energy is drawn as
        well and decides between propulsion and stopping. Flight always goes
        on. */
    method ElytraFlightTick(entity: Living, empowered: bool, empoweredDrawOk: bool, flightTicks: int32)
      returns (draws: seq<Draw>, action: Action, result: bool)
      modifies this`propelTime, entity`motion
      ensures var simulate := !ShouldExtract(flightTicks, entity.CreativePlayer());
        draws == [Draw(false, simulate)] + (if empowered then [Draw(true, simulate)] else [])
      ensures Tick(action, propelTime) == Step(old(propelTime), TickInput(empowered, empoweredDrawOk))
      ensures entity.motion == old(entity.motion) + Effect(action, entity.fallFlying)
      ensures result
    {
      var shouldExtract := ShouldExtract(flightTicks, entity.CreativePlayer());
      draws := [Draw(false, !shouldExtract)];
      action := Idle;
      if empowered {
        draws := draws + [Draw(true, !shouldExtract)];
        if empoweredDrawOk {
          if propelTime < 0 {
            Brake(entity, BRAKE_RATE);
            action := Braked;
          } else if propelTime == 0 {
            Propel(entity, PROPEL_SPEED);
            action := Propelled;
          }
        } else {
          propelTime := 1;
        }
      } else if propelTime > 0 {
        Propel(entity, PROPEL_SPEED);
        action := Propelled;
        propelTime := propelTime - 1;
      }
      result := true;
    }

    /** A one-off boost, like a firework rocket: if the chest item can fly and
        the empowered energy is drawn, a player starts gliding, the entity is
        propelled once and the countdown is set to `boostTime`. Otherwise
        nothing changes. */
    method BoostFor(entity: Living, chestCanFly: bool, drawOk: bool, boostTime: int32)
      returns (draws: seq<Draw>, ok: bool)
      modifies this`propelTime, entity`fallFlying, entity`motion
      ensures draws == if chestCanFly then [Draw(true, entity.CreativePlayer())] else []
      ensures ok <==> chestCanFly && drawOk
      ensures !ok ==> propelTime == old(propelTime) && entity.fallFlying == old(entity.fallFlying)
                      && entity.motion == old(entity.motion)
      ensures ok ==> propelTime == boostTime
      ensures ok ==> entity.fallFlying == (old(entity.fallFlying) || entity.isPlayer)
      ensures ok ==> entity.motion == old(entity.motion) + (if entity.fallFlying then [Propulsion(PROPEL_SPEED)] else [])
    {
      if !chestCanFly {
        return [], false;
      }
      draws := [Draw(true, entity.CreativePlayer())];
      if !drawOk {
        return draws, false;
      }
      if !entity.fallFlying && entity.isPlayer {
        entity.fallFlying := true;
      }
      Propel(entity, PROPEL_SPEED);
      propelTime := boostTime;
      ok := true;
    }

    /** A boost of the default length. */
    method Boost(entity: Living, chestCanFly: bool, drawOk: bool) returns (draws: seq<Draw>, ok: bool)
      modifies this`propelTime, entity`fallFlying, entity`motion
      ensures draws == if chestCanFly then [Draw(true, entity.CreativePlayer())] else []
      ensures ok <==> chestCanFly && drawOk
      ensures !ok ==> propelTime == old(propelTime) && entity.fallFlying == old(entity.fallFlying)
                      && entity.motion == old(entity.motion)
      ensures ok ==> propelTime == BOOST_TIME
      ensures ok ==> entity.fallFlying == (old(entity.fallFlying) || entity.isPlayer)
      ensures ok ==> entity.motion == old(entity.motion) + (if entity.fallFlying then [Propulsion(PROPEL_SPEED)] else [])
    {
      draws, ok := BoostFor(entity, chestCanFly, drawOk, BOOST_TIME);
    }

    method GetPropelTime() returns (time: int32)
      ensures time == propelTime
    {
      time := propelTime;
    }

    method SetPropelTime(time: int32)
      modifies this`propelTime
      ensures propelTime == time
    {
      propelTime := time;
    }

    /** Switching the stack's mode restarts propulsion from zero. The engine
        calls this on the stack's own item, so the flux elytra whose countdown
        the source resets is this one. */
    method OnModeChange()
      modifies this`propelTime
      ensures propelTime == 0
    {
      SetPropelTime(0);
    }
  }
}
