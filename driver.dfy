/**
 * The Driver component's life rules: it asks the terrain whether the head
 * hits the ground whenever the head is below the car, and dies on the first
 * DRIVER_DIED. The rag-doll bodies belong to the physics engine; the head
 * body comes in as a parameter.
 */
module DriverComponent {
  import opened Engine

  class Driver {
    var isDead: bool
    /** How many times the death sound was played. */
    ghost var deathSounds: nat

    ghost predicate Valid()
      reads this
    {
      deathSounds == (if isDead then 1 else 0)
    }

    /** `onInit`: the driver starts alive. */
    constructor ()
      ensures Valid() && !isDead
    {
      isDead := false;
      deathSounds := 0;
    }

    /**
     * CAR_MOVED: send HEAD_MAY_SMASH with the head body when the head is
     * strictly below the car (`y` grows downwards). DRIVER_DIED: the first one
     * sets the latch and plays the death sound, later ones do nothing.
     */
    method OnMessage(msg: Msg, head: Body) returns (sent: seq<Msg>, playSound: bool)
      requires Valid()
      modifies this
      ensures Valid() && deathSounds <= 1
      ensures sent == (if msg.CarMoved? && head.position.y > msg.carPosition.y then [HeadMaySmash(head)] else [])
      ensures playSound <==> msg.DriverDied? && !old(isDead)
      ensures isDead <==> old(isDead) || msg.DriverDied?
      ensures old(isDead) ==> isDead && !playSound && deathSounds == old(deathSounds)
    {
      sent := [];
      playSound := false;
      if msg.CarMoved? {
        if head.position.y > msg.carPosition.y {
          sent := [HeadMaySmash(head)];
        }
      }
      if msg.DriverDied? && !isDead {
        isDead := true;
        playSound := true;
        deathSounds := deathSounds + 1;
      }
    }
  }
}
