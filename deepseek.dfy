/**
 * DeepSeekController: starts from "no thrust" and lets each of three safety
 * checks overwrite the action with the left engine. Its two fields are
 * written only by construction and by `reset`.
 */
module DeepSeek {
  import opened Lander

  /** The three checks of `control`, in the order they are written. */
  datatype Check = LowAndFast | Plunging | Spinning

  predicate Violated(c: Check, o: Observation)
  {
    match c
    case LowAndFast => o.y < 0.2 && o.vy < -0.5
    case Plunging => Abs(o.vy) > 5.0
    case Spinning => Abs(o.angularVel) > 3.0
  }

  const SourceOrder: seq<Check> := [LowAndFast, Plunging, Spinning]

  /** Running `checks` in order over a local `action`, each violated check
      overwriting it with the left engine: the last writer wins. */
  function Overrides(checks: seq<Check>, o: Observation, action: Engine): Engine
    decreases |checks|
  {
    if |checks| == 0 then action
    else Overrides(checks[1..], o, if Violated(checks[0], o) then FireLeft else action)
  }

  /** Every override writes the same value, so only whether some check is
      violated matters, not the order (or repetition) of the checks. */
  lemma {:induction false} OverridesIgnoreOrder(checks: seq<Check>, o: Observation, action: Engine)
    ensures Overrides(checks, o, action) ==
            if exists i :: 0 <= i < |checks| && Violated(checks[i], o) then FireLeft else action
    decreases |checks|
  {
    if |checks| > 0 {
      var next := if Violated(checks[0], o) then FireLeft else action;
      OverridesIgnoreOrder(checks[1..], o, next);
      if exists i :: 0 <= i < |checks| && Violated(checks[i], o) {
        var i :| 0 <= i < |checks| && Violated(checks[i], o);
        if i > 0 {
          assert Violated(checks[1..][i - 1], o);
        }
      }
    }
  }

  /** Any arrangement of the three checks gives the controller's action. */
  lemma AnyOrderOfChecks(checks: seq<Check>, o: Observation)
    requires LowAndFast in checks && Plunging in checks && Spinning in checks
    ensures Overrides(checks, o, NoOp) == Overrides(SourceOrder, o, NoOp)
  {
    OverridesIgnoreOrder(checks, o, NoOp);
    OverridesIgnoreOrder(SourceOrder, o, NoOp);
    if exists i :: 0 <= i < |checks| && Violated(checks[i], o) {
      var i :| 0 <= i < |checks| && Violated(checks[i], o);
      var k := if checks[i] == LowAndFast then 0 else if checks[i] == Plunging then 1 else 2;
      assert Violated(SourceOrder[k], o);
    } else {
      forall k | 0 <= k < |SourceOrder| ensures !Violated(SourceOrder[k], o) {
        var i :| 0 <= i < |checks| && checks[i] == SourceOrder[k];
      }
    }
  }

  class DeepSeekController {
    var prevAltitude: real
    var prevVelocity: real

    constructor ()
      ensures prevAltitude == 0.0 && prevVelocity == 0.0
    {
      prevAltitude := 0.0;
      prevVelocity := 0.0;
    }

    /** `control`: the left engine exactly when one of the checks fails;
        the observation's position, horizontal speed, angle and leg
        contacts play no part, and the fields are not touched. */
    method Control(o: Observation) returns (a: Action)
      ensures a == Actuate(FireLeft) <==>
                (o.y < 0.2 && o.vy < -0.5) || o.vy > 5.0 || o.vy < -5.0 ||
                o.angularVel > 3.0 || o.angularVel < -3.0
      ensures a == Actuate(FireLeft) || a == Actuate(NoOp)
      ensures a == Actuate(Overrides(SourceOrder, o, NoOp))
    {
      var action := NoOp;
      if o.y < 0.2 && o.vy < -0.5 {
        action := FireLeft;
      }
      if Abs(o.vy) > 5.0 {
        action := FireLeft;
      }
      if Abs(o.angularVel) > 3.0 {
        action := FireLeft;
      }
      a := Actuate(action);
    }

    /** `is_safe`: unsafe when low and moving fast vertically either way,
        or spinning beyond 4. */
    function IsSafe(o: Observation): (safe: bool)
      ensures !safe <==> (o.y < 0.1 && (o.vy > 0.5 || o.vy < -0.5)) || o.angularVel > 4.0 || o.angularVel < -4.0
    {
      if o.y < 0.1 && Abs(o.vy) > 0.5 then false
      else if Abs(o.angularVel) > 4.0 then false
      else true
    }

    method Reset()
      modifies this
      ensures prevAltitude == 0.0 && prevVelocity == 0.0
    {
      prevAltitude := 0.0;
      prevVelocity := 0.0;
    }
  }

  /** The action depends on altitude, vertical speed and spin alone. */
  lemma ControlIgnoresOtherFields(o1: Observation, o2: Observation)
    requires o1.y == o2.y && o1.vy == o2.vy && o1.angularVel == o2.angularVel
    ensures Overrides(SourceOrder, o1, NoOp) == Overrides(SourceOrder, o2, NoOp)
  {
  }
}
