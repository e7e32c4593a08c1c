/**
 * The FuelCanister component: a pickup placed above a terrain sample that
 * refuels the car once, when the car's right side reaches it, and then
 * removes itself.
 */
module FuelCanisterComponent {
  import opened Engine

  const CANISTER_SIZE: real := 50.0

  class FuelCanister {
    /** Position of the canister sprite's top-left corner. */
    var x: real
    var y: real
    var width: real
    var height: real
    /** The component is still attached to its owner, so it still receives messages. */
    var attached: bool
    /** How many REFUEL messages this canister has sent. */
    ghost var refuels: nat

    ghost predicate Valid()
      reads this
    {
      refuels == (if attached then 0 else 1)
    }

    /** `onInit`: a 50 by 50 sprite, one and a half sizes above the terrain sample. */
    constructor (px: real, py: real)
      ensures Valid() && attached && refuels == 0
      ensures x == px && y == py - CANISTER_SIZE * 1.5
      ensures width == CANISTER_SIZE && height == CANISTER_SIZE
    {
      x := px;
      y := py - CANISTER_SIZE * 1.5;
      width := CANISTER_SIZE;
      height := CANISTER_SIZE;
      attached := true;
      refuels := 0;
    }

    /**
     * CAR_MOVED: once the car's right side reaches the canister's left side,
     * send REFUEL and remove the component. A removed component receives
     * nothing more.
     */
    method OnMessage(msg: Msg) returns (sent: seq<Msg>)
      requires Valid()
      modifies this
      ensures Valid() && refuels <= 1
      ensures sent == (if old(attached) && msg.CarMoved? && msg.carBounds.max.x >= old(x) then [Refuel] else [])
      ensures attached <==> old(attached) && sent == []
      ensures refuels == old(refuels) + |sent|
      ensures x == old(x) && y == old(y) && width == old(width) && height == old(height)
    {
      sent := [];
      if attached && msg.CarMoved? {
        if msg.carBounds.max.x >= x {
          sent := [Refuel];
          refuels := refuels + 1;
          OnRemove();
        }
      }
    }

    /** `onRemove`: the sprite leaves the scene together with the component. */
    method OnRemove()
      modifies this`attached
      ensures !attached
    {
      attached := false;
    }
  }
}
