/**
 * The smart bulb actuator (backend/hardware/bulb.py): a brightness clamped to
 * 0..100 with an on/off state that follows it, and a colour picked from the
 * classified brain state.
 */
module Bulb {
  import opened Numeric

  datatype BulbStatus = BulbStatus(device: string, state: string, brightness: int, color: string)

  /** The colour a state selects; any other state keeps the current colour. */
  function ColorFor(current: string, state: string): (c: string)
    ensures state == "focus" ==> c == "cool_white"
    ensures state == "relax" ==> c == "warm_amber"
    ensures state == "stress" ==> c == "red"
    ensures state != "focus" && state != "relax" && state != "stress" ==> c == current
  {
    if state == "focus" then "cool_white"
    else if state == "relax" then "warm_amber"
    else if state == "stress" then "red"
    else current
  }

  class SmartBulb {
    var brightness: int
    var color: string
    var state: string

    /** Brightness stays in 0..100 and the bulb is "on" exactly when it is lit. */
    ghost predicate Valid()
      reads this
    {
      0 <= brightness <= 100 && (state == "on" || state == "off") && (state == "on" <==> brightness > 0)
    }

    constructor ()
      ensures Valid()
      ensures brightness == 0 && color == "warm" && state == "off"
    {
      brightness := 0;
      color := "warm";
      state := "off";
    }

    method SetBrightness(level: int)
      requires Valid()
      modifies this
      ensures Valid()
      ensures brightness == ClampInt(level, 0, 100)
      ensures state == (if brightness > 0 then "on" else "off")
      ensures color == old(color)
    {
      brightness := ClampInt(level, 0, 100);
      if brightness > 0 {
        state := "on";
      } else {
        state := "off";
      }
    }

    method SetColorFromState(s: string)
      requires Valid()
      modifies this
      ensures Valid()
      ensures color == ColorFor(old(color), s)
      ensures brightness == old(brightness) && state == old(state)
    {
      if s == "focus" {
        color := "cool_white";
      } else if s == "relax" {
        color := "warm_amber";
      } else if s == "stress" {
        color := "red";
      }
    }

    function GetStatus(): (st: BulbStatus)
      reads this
      ensures st.device == "smart_bulb"
      ensures st.state == state && st.brightness == brightness && st.color == color
    {
      BulbStatus("smart_bulb", state, brightness, color)
    }
  }

  /** A status read from a valid bulb reports a lit bulb exactly when its brightness is positive. */
  lemma StatusConsistent(b: SmartBulb)
    requires b.Valid()
    ensures 0 <= b.GetStatus().brightness <= 100
    ensures b.GetStatus().state == "on" <==> b.GetStatus().brightness > 0
  {
  }
}
