/**
 * The Car component's fuel tank and wheel-speed rules. The chassis and wheel
 * bodies belong to the physics engine: the rear wheel's current angular
 * velocity comes in as a parameter, and the new velocities go out as commands.
 */
module CarComponent {
  import opened Constants
  import opened Engine

  /** Which arrow keys the key-input component reports as pressed. */
  datatype Keys = Keys(left: bool, right: bool)

  datatype Wheel = FrontWheel | RearWheel

  /** `Body.setAngularVelocity` on one wheel. */
  datatype WheelCommand = SetAngularVelocity(wheel: Wheel, velocity: real)

  /**
   * The wheels' new angular velocity: left accelerates backwards down to the
   * reverse limit, right forwards up to the top speed, right wins when both
   * are pressed, and without a key nothing changes.
   */
  function NextVelocity(oldVelocity: real, acceleration: real, keys: Keys): (v: real)
    ensures !keys.left && !keys.right ==> v == oldVelocity
    ensures keys.right ==> v <= CAR_MAX_SPEED && v <= oldVelocity + acceleration
                           && (v == CAR_MAX_SPEED || v == oldVelocity + acceleration)
    ensures keys.left && !keys.right ==> v >= -CAR_MAX_REVERSE_SPEED && v >= oldVelocity - acceleration
                                         && (v == -CAR_MAX_REVERSE_SPEED || v == oldVelocity - acceleration)
    ensures 0.0 <= acceleration && -CAR_MAX_REVERSE_SPEED <= oldVelocity <= CAR_MAX_SPEED
            ==> -CAR_MAX_REVERSE_SPEED <= v <= CAR_MAX_SPEED
  {
    if keys.right then MinReal(CAR_MAX_SPEED, oldVelocity + acceleration)
    else if keys.left then MaxReal(-CAR_MAX_REVERSE_SPEED, oldVelocity - acceleration)
    else oldVelocity
  }

  /** With both keys pressed the car behaves as if only right were pressed. */
  lemma RightWins(oldVelocity: real, acceleration: real)
    ensures NextVelocity(oldVelocity, acceleration, Keys(true, true))
         == NextVelocity(oldVelocity, acceleration, Keys(false, true))
  {
  }

  class Car {
    var fuelTank: real

    /**
     * The tank never holds more than `MAX_FUEL`, and because fuel is only
     * burnt while the tank is positive it never drops to `-FUEL_CONSUMPTION`.
     */
    ghost predicate Valid()
      reads this
    {
      -FUEL_CONSUMPTION < fuelTank <= MAX_FUEL
    }

    /** `onInit`: the tank starts full. */
    constructor ()
      ensures Valid() && fuelTank == MAX_FUEL
    {
      fuelTank := MAX_FUEL;
    }

    /**
     * One frame: drive the wheels while there is fuel, otherwise signal the
     * empty tank; in both cases report where the car is.
     */
    method OnUpdate(delta: real, keys: Keys, rearVelocity: real, position: Vec, bounds: Bounds)
      returns (sent: seq<Msg>, commands: seq<WheelCommand>)
      requires Valid()
      modifies this
      ensures Valid()
      ensures fuelTank <= old(fuelTank)
      ensures old(fuelTank) > 0.0 ==>
        && sent == [CarMoved(position, bounds)]
        && var v := NextVelocity(rearVelocity, CAR_ACCELERATION * delta, keys);
           && commands == [SetAngularVelocity(FrontWheel, v), SetAngularVelocity(RearWheel, v)]
           && fuelTank == (if v != rearVelocity then old(fuelTank) - FUEL_CONSUMPTION else old(fuelTank))
      ensures old(fuelTank) <= 0.0 ==>
        sent == [EmptyFuelTank, CarMoved(position, bounds)] && commands == [] && fuelTank == old(fuelTank)
    {
      if fuelTank > 0.0 {
        commands := WheelMovement(delta, keys, rearVelocity);
        sent := [];
      } else {
        commands := [];
        sent := [EmptyFuelTank];
      }
      sent := sent + [CarMoved(position, bounds)];
    }

    /** REFUEL adds half a tank, capped at a full tank; other messages are ignored. */
    method OnMessage(msg: Msg)
      requires Valid()
      modifies this
      ensures Valid()
      ensures msg.Refuel? ==> fuelTank == MinReal(MAX_FUEL, old(fuelTank) + FUEL_CANISTER_VOLUME)
      ensures msg.Refuel? ==> fuelTank >= old(fuelTank)
      ensures !msg.Refuel? ==> fuelTank == old(fuelTank)
    {
      if msg.Refuel? {
        fuelTank := MinReal(MAX_FUEL, fuelTank + FUEL_CANISTER_VOLUME);
      }
    }

    /**
     * Accelerate the rear wheel's velocity by the pressed keys, burn
     * `FUEL_CONSUMPTION` when the velocity changed, and set both wheels.
     */
    method WheelMovement(delta: real, keys: Keys, oldVelocity: real) returns (commands: seq<WheelCommand>)
      requires Valid() && fuelTank > 0.0
      modifies this`fuelTank
      ensures Valid()
      ensures var v := NextVelocity(oldVelocity, CAR_ACCELERATION * delta, keys);
              && commands == [SetAngularVelocity(FrontWheel, v), SetAngularVelocity(RearWheel, v)]
              && fuelTank == (if v != oldVelocity then old(fuelTank) - FUEL_CONSUMPTION else old(fuelTank))
    {
      var newVelocity := oldVelocity;
      var acceleration := CAR_ACCELERATION * delta;

      if keys.left {
        newVelocity := MaxReal(-CAR_MAX_REVERSE_SPEED, oldVelocity - acceleration);
      }
      if keys.right {
        newVelocity := MinReal(CAR_MAX_SPEED, oldVelocity + acceleration);
      }

      if oldVelocity != newVelocity {
        fuelTank := fuelTank - FUEL_CONSUMPTION;
      }

      commands := [SetAngularVelocity(FrontWheel, newVelocity), SetAngularVelocity(RearWheel, newVelocity)];
    }
  }
}
