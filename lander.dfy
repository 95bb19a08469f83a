/**
 * Shared vocabulary of the lunar-lander controllers: the observation vector
 * every controller reads, the actuator commands, and the `terminate` sentinel.
 */
module Lander {

  /** The eight-field observation `[x, y, vx, vy, angle, angular_vel,
      left_contact, right_contact]`. The contact sensors are kept as numbers,
      as the environment delivers them (0.0 or 1.0), because the controllers
      test them in two different ways: by truthiness and by `== 1`. */
  datatype Observation = Observation(
    x: real, y: real, vx: real, vy: real,
    angle: real, angularVel: real,
    leftContact: real, rightContact: real)

  /** The four actuator commands, in the order of their integer codes. */
  datatype Engine = NoOp | FireLeft | FireMain | FireRight

  /** What a controller returns on a tick: an actuator command, or the
      sentinel that tells the caller to stop the episode. */
  datatype Action = Actuate(engine: Engine) | Terminate

  datatype Option<T> = None | Some(value: T)

  /** The integer an actuator command is sent as. */
  function Code(e: Engine): (n: nat)
    ensures n < 4
  {
    match e
    case NoOp => 0
    case FireLeft => 1
    case FireMain => 2
    case FireRight => 3
  }

  /** The actuator command an integer stands for; only 0..3 are commands. */
  function Decode(n: int): (r: Option<Engine>)
    ensures r.Some? <==> 0 <= n < 4
  {
    if n == 0 then Some(NoOp)
    else if n == 1 then Some(FireLeft)
    else if n == 2 then Some(FireMain)
    else if n == 3 then Some(FireRight)
    else None
  }

  /** Code and Decode are inverse: every command survives the round trip. */
  lemma CodeRoundTrip(e: Engine)
    ensures Decode(Code(e)) == Some(e)
  {
  }

  /** ... and every code in 0..3 is the code of the command it decodes to. */
  lemma DecodeRoundTrip(n: int)
    requires 0 <= n < 4
    ensures Decode(n).Some? && Code(Decode(n).value) == n
  {
  }

  function Abs(v: real): (r: real)
    ensures 0.0 <= r && (r == v || r == -v)
  {
    if v < 0.0 then -v else v
  }

  /** Truthiness of a number in a condition: anything but zero is true. */
  predicate Truthy(c: real)
  {
    c != 0.0
  }

  /** `leg1 and leg2` used as a condition. */
  predicate LegsTruthy(o: Observation)
  {
    Truthy(o.leftContact) && Truthy(o.rightContact)
  }

  /** `left_contact == 1 and right_contact == 1`. */
  predicate LegsEqualOne(o: Observation)
  {
    o.leftContact == 1.0 && o.rightContact == 1.0
  }

  /** The two ways of testing the legs agree on the values the sensors
      actually deliver, and only there: a reading of 2.0 is truthy but not 1. */
  lemma LegTestsAgreeOnSensorValues(o: Observation)
    requires o.leftContact in {0.0, 1.0} && o.rightContact in {0.0, 1.0}
    ensures LegsTruthy(o) <==> LegsEqualOne(o)
  {
  }
}
