/**
 * The backend safety manager (backend/safety/manager.py): a latched
 * emergency-stop flag plus signal-quality, fatigue and actuation checks.
 */
module BackendSafety {

  const MinSignalQuality: real := 80.0
  const FatigueLockoutLevel: real := 80.0
  const MaxStressToAccelerate: real := 70.0

  /** `context.get("stress", 0)`. */
  function Stress(context: map<string, real>): real
  {
    if "stress" in context then context["stress"] else 0.0
  }

  class SafetyManager {
    var emergencyStopTriggered: bool

    constructor ()
      ensures !emergencyStopTriggered
    {
      emergencyStopTriggered := false;
    }

    /** `validate_signal`: the emergency latch refuses every signal; otherwise at least 80% quality is needed. */
    function ValidateSignal(signalQuality: real): (ok: bool)
      reads this
      ensures ok <==> !emergencyStopTriggered && signalQuality >= MinSignalQuality
    {
      if emergencyStopTriggered then false
      else if signalQuality < MinSignalQuality then false
      else true
    }

    /** `check_fatigue_lockout`: the lockout is active strictly above 80. */
    function CheckFatigueLockout(fatigueLevel: real): (lockout: bool)
      ensures lockout <==> fatigueLevel > FatigueLockoutLevel
    {
      if fatigueLevel > FatigueLockoutLevel then true else false
    }

    /** `trigger_emergency_stop`: sets the latch (whatever it was). */
    method TriggerEmergencyStop()
      modifies this
      ensures emergencyStopTriggered
    {
      emergencyStopTriggered := true;
    }

    /** `reset_emergency_stop`: clears the latch (whatever it was). */
    method ResetEmergencyStop()
      modifies this
      ensures !emergencyStopTriggered
    {
      emergencyStopTriggered := false;
    }

    /**
     * `is_safe_to_actuate`: refused while the latch is set, and refused for
     * "accelerate" when the context's stress (0 if absent) exceeds 70.
     */
    function IsSafeToActuate(command: string, context: map<string, real>): (safe: bool)
      reads this
      ensures emergencyStopTriggered ==> !safe
      ensures safe <==> !emergencyStopTriggered && !(command == "accelerate" && Stress(context) > MaxStressToAccelerate)
      ensures !emergencyStopTriggered && command != "accelerate" ==> safe
    {
      if emergencyStopTriggered then false
      else if command == "accelerate" && Stress(context) > MaxStressToAccelerate then false
      else true
    }
  }

  /**
   * Triggering the stop, in any state, blocks every signal and every
   * command; resetting it restores exactly the checks that do not depend on
   * the latch, and a second trigger or reset changes nothing.
   */
  method EmergencyLatch(m: SafetyManager, q: real, command: string, context: map<string, real>)
    returns (validWhileStopped: bool, actuateWhileStopped: bool, validAfterReset: bool, actuateAfterReset: bool)
    modifies m
    ensures !validWhileStopped && !actuateWhileStopped
    ensures validAfterReset <==> q >= MinSignalQuality
    ensures actuateAfterReset <==> !(command == "accelerate" && Stress(context) > MaxStressToAccelerate)
    ensures !m.emergencyStopTriggered
  {
    m.TriggerEmergencyStop();
    m.TriggerEmergencyStop();
    validWhileStopped := m.ValidateSignal(q);
    actuateWhileStopped := m.IsSafeToActuate(command, context);
    m.ResetEmergencyStop();
    m.ResetEmergencyStop();
    validAfterReset := m.ValidateSignal(q);
    actuateAfterReset := m.IsSafeToActuate(command, context);
  }
}
