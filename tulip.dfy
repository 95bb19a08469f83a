/**
 * TulipLunarLanderController: abstracts the observation into the boolean
 * inputs of a discrete controller synthesized from a GR(1) specification,
 * advances that controller one step per tick, and returns its action unless
 * both legs are down. The synthesized controller itself is a parameter: its
 * start state and its transition function are whatever synthesis produced.
 */
module Tulip {
  import opened Lander

  const XThreshold: real := 0.4
  const AngleThreshold: real := 0.1
  const VxThreshold: real := 0.1
  const VyThreshold: real := 1.0
  const AngularVelThreshold: real := 0.1
  const YThreshold: real := 0.3

  /** The environment inputs of the discrete controller: p over the pad,
      q upright, r safe linear speed, a safe spin, s both legs down. */
  datatype EnvProps = EnvProps(p: bool, q: bool, r: bool, a: bool, s: bool, nearGround: bool, crash: bool)

  /** `_get_env_props`. */
  function GetEnvProps(o: Observation): (props: EnvProps)
    ensures props.p <==> -0.4 <= o.x <= 0.4
    ensures props.q <==> -0.1 <= o.angle <= 0.1
    // a one-sided descent test: moving up never falsifies r
    ensures props.r <==> -0.1 <= o.vx <= 0.1 && o.vy >= -1.0
    ensures props.a <==> -0.1 <= o.angularVel <= 0.1
    ensures props.s <==> o.leftContact == 1.0 && o.rightContact == 1.0
    ensures props.nearGround <==> o.y <= 0.3
    ensures !props.crash
  {
    EnvProps(Abs(o.x) <= XThreshold,
             Abs(o.angle) <= AngleThreshold,
             Abs(o.vx) <= VxThreshold && o.vy >= -VyThreshold,
             Abs(o.angularVel) <= AngularVelThreshold,
             LegsEqualOne(o),
             o.y <= YThreshold,
             false)
  }

  /** An upward speed, however large, leaves r as the horizontal test says. */
  lemma AscentNeverFalsifiesR(o: Observation)
    requires o.vy >= 0.0
    ensures GetEnvProps(o).r <==> -0.1 <= o.vx <= 0.1
  {
  }

  /** A synthesized controller: its initial state and its one-step
      transition from a state and the inputs to the next state and the
      action output. */
  datatype DiscreteController<!S> = DiscreteController(initialState: S, step: (S, EnvProps) -> (S, Engine))

  datatype Error = SpecificationUnrealizable

  datatype Result<T> = Ok(value: T) | Err(error: Error)

  class TulipLunarLanderController<S> {
    const discreteCtrl: DiscreteController<S>
    var currentDiscreteState: S

    constructor (ctrl: DiscreteController<S>)
      ensures discreteCtrl == ctrl && currentDiscreteState == ctrl.initialState
    {
      discreteCtrl := ctrl;
      currentDiscreteState := ctrl.initialState;
    }

    /** Construction: fails when synthesis produced no controller, and
        otherwise starts from the controller's initial state. */
    static method Create(synthesized: Option<DiscreteController<S>>)
      returns (r: Result<TulipLunarLanderController<S>>)
      ensures r.Err? <==> synthesized.None?
      ensures r.Err? ==> r.error == SpecificationUnrealizable
      ensures r.Ok? ==> fresh(r.value) && r.value.discreteCtrl == synthesized.value
                        && r.value.currentDiscreteState == synthesized.value.initialState
    {
      if synthesized.None? {
        return Err(SpecificationUnrealizable);
      }
      var c := new TulipLunarLanderController(synthesized.value);
      return Ok(c);
    }

    /** `control`: the discrete state advances on every tick, the
        terminating one included; touchdown overrides the controller's
        output with the terminate sentinel. */
    method Control(o: Observation) returns (a: Action)
      modifies this
      ensures currentDiscreteState == discreteCtrl.step(old(currentDiscreteState), GetEnvProps(o)).0
      ensures a == if o.leftContact == 1.0 && o.rightContact == 1.0 then Terminate
                   else Actuate(discreteCtrl.step(old(currentDiscreteState), GetEnvProps(o)).1)
    {
      var props := GetEnvProps(o);
      var (next, output) := discreteCtrl.step(currentDiscreteState, props);
      currentDiscreteState := next;
      if props.s {
        return Terminate;
      }
      return Actuate(output);
    }
  }
}
