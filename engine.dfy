/**
 * The vocabulary shared by the gameplay components: the optional value, the
 * plain geometry that the physics engine reports, and the messages that the
 * components exchange over the entity-component message bus. Sending a
 * message is modelled by returning it in an output list.
 */
module Engine {

  datatype Option<+T> = None | Some(value: T)

  /** A 2D vector in world coordinates; `y` grows downwards. */
  datatype Vec = Vec(x: real, y: real)

  /** An axis-aligned bounding box as the physics engine reports it. */
  datatype Bounds = Bounds(min: Vec, max: Vec)

  /** What a message needs to know about a rigid body: where it is and its box. */
  datatype Body = Body(position: Vec, bounds: Bounds)

  /** The messages of the game, with the payloads their handlers read. */
  datatype Msg =
    | CarMoved(carPosition: Vec, carBounds: Bounds)
    | HeadMaySmash(headBody: Body)
    | RestartGame
    | ScoreNotify(score: int)
    | FuelNotify(fuelTank: real)
    | ExitGame
    | StartGame
    | GameOver
    | ShowScore
    | CloseScore
    | Refuel
    | DriverDied
    | EmptyFuelTank

  /** `Math.min` on two numbers. */
  function MinReal(a: real, b: real): (r: real)
    ensures r <= a && r <= b && (r == a || r == b)
  {
    if a <= b then a else b
  }

  /** `Math.max` on two numbers. */
  function MaxReal(a: real, b: real): (r: real)
    ensures r >= a && r >= b && (r == a || r == b)
  {
    if a >= b then a else b
  }
}
