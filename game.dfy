/**
 * The Game screen's rules: the score and the camera follow the car, and a
 * dead driver or an empty tank ends the game. The terrain's left edge and the
 * car's tank, which the screen reads through getters, come in as parameters.
 */
module GameScreen {
  import opened Constants
  import opened Engine

  /** `Math.floor(carPosX / 100)`: one point per hundred units driven. */
  function ScoreOf(carPosX: real): (s: int)
    ensures s as real * 100.0 <= carPosX < (s + 1) as real * 100.0
  {
    (carPosX / 100.0).Floor
  }

  /** Driving further never lowers the score. */
  lemma ScoreMonotonic(a: real, b: real)
    requires a <= b
    ensures ScoreOf(a) <= ScoreOf(b)
  {
  }

  class Game {
    var score: int
    /** The car's horizontal position at the last CAR_MOVED, which the score was taken from. */
    ghost var carX: real
    /** Horizontal pivot of the screen's container: the camera. */
    var pivotX: real

    /** The score is always the floor of the last car position over 100. */
    ghost predicate Valid()
      reads this
    {
      score == ScoreOf(carX)
    }

    constructor ()
      ensures Valid() && score == 0 && pivotX == 0.0 && carX == 0.0
    {
      score := 0;
      pivotX := 0.0;
      carX := 0.0;
    }

    /** `getScore`: the number of whole hundreds of units the car had driven at its last move. */
    function GetScore(): (s: int)
      requires Valid()
      reads this
      ensures s as real * 100.0 <= carX < (s + 1) as real * 100.0
    {
      score
    }

    /**
     * CAR_MOVED: update and announce the score, announce the tank, and keep
     * the car in the middle of the screen once it is half a screen past the
     * terrain's left edge. DRIVER_DIED or EMPTY_FUEL_TANK: GAME_OVER, every
     * time.
     */
    method OnMessage(msg: Msg, leftEdge: real, fuelTank: real) returns (sent: seq<Msg>)
      requires Valid()
      modifies this
      ensures Valid()
      ensures msg.CarMoved? ==>
        && carX == msg.carPosition.x && score == ScoreOf(msg.carPosition.x)
        && sent == [ScoreNotify(score), FuelNotify(fuelTank)]
        && pivotX == (if msg.carPosition.x > leftEdge + SCREEN_WIDTH / 2.0
                      then msg.carPosition.x - SCREEN_WIDTH / 2.0 else old(pivotX))
      ensures pivotX != old(pivotX) ==> msg.CarMoved? && pivotX > leftEdge
      ensures (msg.DriverDied? || msg.EmptyFuelTank?) ==> sent == [GameOver]
      ensures !msg.CarMoved? ==> score == old(score) && carX == old(carX) && pivotX == old(pivotX)
      ensures !(msg.CarMoved? || msg.DriverDied? || msg.EmptyFuelTank?) ==> sent == []
    {
      sent := [];
      if msg.CarMoved? {
        var carPosX := msg.carPosition.x;

        // Take the score from the car's position and announce it
        score := ScoreOf(carPosX);
        carX := carPosX;
        sent := sent + [ScoreNotify(GetScore())];

        // Announce the tank as the car reports it
        sent := sent + [FuelNotify(fuelTank)];

        // Follow the car once it is half a screen past the left edge
        if carPosX > leftEdge + SCREEN_WIDTH / 2.0 {
          pivotX := carPosX - SCREEN_WIDTH / 2.0;
        }
      }

      // Either way of losing ends the game
      if msg.DriverDied? || msg.EmptyFuelTank? {
        sent := sent + [GameOver];
      }
    }
  }
}
