/**
 * The RC car actuator (backend/hardware/car.py): it only moves when the
 * focus level reaches 30, at a speed equal to that level.
 */
module Car {

  const MinFocusToDrive: int := 30

  datatype CarStatus = CarStatus(device: string, speed: int, direction: string)

  class RCCar {
    var speed: int
    var direction: string

    /** Stopped (speed 0, direction "stop") or moving at a focus level of at least 30. */
    ghost predicate Valid()
      reads this
    {
      (speed == 0 && direction == "stop") || speed >= MinFocusToDrive
    }

    constructor ()
      ensures Valid() && speed == 0 && direction == "stop"
    {
      speed := 0;
      direction := "stop";
    }

    method Drive(focusLevel: int, command: string)
      requires Valid()
      modifies this
      ensures Valid()
      ensures focusLevel < MinFocusToDrive ==> speed == 0 && direction == "stop"
      ensures focusLevel >= MinFocusToDrive ==> speed == focusLevel && direction == command
    {
      if focusLevel < MinFocusToDrive {
        Stop();
        return;
      }
      speed := focusLevel;
      direction := command;
    }

    method Stop()
      modifies this
      ensures Valid() && speed == 0 && direction == "stop"
    {
      speed := 0;
      direction := "stop";
    }

    function GetStatus(): (st: CarStatus)
      reads this
      ensures st.device == "rc_car" && st.speed == speed && st.direction == direction
    {
      CarStatus("rc_car", speed, direction)
    }
  }

  /** A status read from a valid car never reports a speed strictly between 0 and 30. */
  lemma StatusSpeedGated(c: RCCar)
    requires c.Valid()
    ensures c.GetStatus().speed == 0 || c.GetStatus().speed >= MinFocusToDrive
    ensures c.GetStatus().speed == 0 ==> c.GetStatus().direction == "stop"
  {
  }

  /** Stopping twice leaves the car exactly as stopping once. */
  method StopTwice(c: RCCar) returns (first: CarStatus, second: CarStatus)
    modifies c
    ensures first == second == CarStatus("rc_car", 0, "stop")
  {
    c.Stop();
    first := c.GetStatus();
    c.Stop();
    second := c.GetStatus();
  }
}
