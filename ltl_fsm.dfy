/**
 * The three "synthesized" finite-state controllers (LTLSynthesizedController,
 * ...V2 and ...V3). Each turns the observation into atomic propositions with
 * fixed thresholds, classifies them into a mode, and picks an action from the
 * mode; V2 and V3 put priority rules in front of the mode rules.
 */
module LtlFsm {
  import opened Lander
  import opened RuleChain

  /** The bounds of the atomic propositions; fixed when a controller is built. */
  datatype Thresholds = Thresholds(x: real, angle: real, vx: real, vy: real, y: real)

  /** The bounds of LTLSynthesizedController and of V2 (they are the same). */
  const V1Thresholds: Thresholds := Thresholds(0.1, 0.1, 0.1, 0.1, 0.2)
  const V2Thresholds: Thresholds := V1Thresholds
  /** The bounds of V3, which also bounds the angular velocity. */
  const V3Thresholds: Thresholds := Thresholds(0.3, 0.1, 0.1, 1.0, 0.3)
  const V3AngularVelThreshold: real := 0.1

  /** p: over the pad; q: upright; r: slow; s: both legs down. */
  datatype Props = Props(p: bool, q: bool, r: bool, s: bool, nearGround: bool)

  datatype Mode = Cruise | Approach | Align | Touchdown

  /** `_get_atomic_propositions`: each proposition is its threshold test. */
  function AtomicPropositions(t: Thresholds, o: Observation): (props: Props)
    ensures props.p <==> -t.x <= o.x <= t.x
    ensures props.q <==> -t.angle <= o.angle <= t.angle
    ensures props.r <==> -t.vx <= o.vx <= t.vx && -t.vy <= o.vy <= t.vy
    ensures props.s <==> o.leftContact == 1.0 && o.rightContact == 1.0
    ensures props.nearGround <==> o.y <= t.y
  {
    Props(Abs(o.x) <= t.x,
          Abs(o.angle) <= t.angle,
          Abs(o.vx) <= t.vx && Abs(o.vy) <= t.vy,
          LegsEqualOne(o),
          o.y <= t.y)
  }

  /** `_get_fsm_state`: touchdown overrides everything, then nearness to the
      ground, and alignment decides between Align and Approach. */
  function FsmState(props: Props): (m: Mode)
    ensures props.s ==> m == Touchdown
    ensures m == Align <==> !props.s && props.nearGround && props.p && props.q && props.r
    ensures m == Approach <==> !props.s && props.nearGround && !(props.p && props.q && props.r)
    ensures m == Cruise <==> !props.s && !props.nearGround
  {
    if props.s then Touchdown
    else if props.nearGround then
      if props.p && props.q && props.r then Align else Approach
    else Cruise
  }

  function ModeOf(t: Thresholds, o: Observation): Mode
  {
    FsmState(AtomicPropositions(t, o))
  }

  /** Touchdown precedence over the observation itself: both legs at 1 give
      Touchdown whatever the position, tilt and speeds are. */
  lemma TouchdownOverridesAll(t: Thresholds, o: Observation)
    ensures ModeOf(t, o) == Touchdown <==> o.leftContact == 1.0 && o.rightContact == 1.0
  {
  }

  /** In Align the descent never exceeds the vertical bound, because the
      proposition r already bounds |vy|. */
  lemma AlignBoundsDescent(t: Thresholds, o: Observation)
    requires ModeOf(t, o) == Align
    ensures o.vy >= -t.vy
  {
  }

  /** The Cruise rule: nudge toward the centre, strictly outside the bound. */
  function CruiseAction(t: Thresholds, o: Observation): (r: Action)
    ensures r == Actuate(FireLeft) <==> o.x > t.x
    ensures r == Actuate(FireRight) <==> o.x < -t.x && !(o.x > t.x)
    ensures r in {Actuate(NoOp), Actuate(FireLeft), Actuate(FireRight)}
  {
    if o.x > t.x then Actuate(FireLeft)
    else if o.x < -t.x then Actuate(FireRight)
    else Actuate(NoOp)
  }

  /** The tilt correction of Approach, strictly outside the bound; `otherwise`
      is what Approach does when upright. */
  function TiltAction(t: Thresholds, o: Observation, otherwise: Action): (r: Action)
    ensures o.angle > t.angle ==> r == Actuate(FireLeft)
    ensures o.angle < -t.angle && !(o.angle > t.angle) ==> r == Actuate(FireRight)
    ensures -t.angle <= o.angle <= t.angle ==> r == otherwise
  {
    if o.angle > t.angle then Actuate(FireLeft)
    else if o.angle < -t.angle then Actuate(FireRight)
    else otherwise
  }

  /** The main engine fires when descending faster than the vertical bound. */
  function DescentAction(t: Thresholds, o: Observation): (r: Action)
    ensures r == Actuate(FireMain) <==> o.vy < -t.vy
    ensures r != Actuate(FireMain) ==> r == Actuate(NoOp)
  {
    if o.vy < -t.vy then Actuate(FireMain) else Actuate(NoOp)
  }

  /** `LTLSynthesizedController.control`. */
  function ControlV1(o: Observation): (r: Action)
    ensures r == Terminate <==> o.leftContact == 1.0 && o.rightContact == 1.0
    // the fire-main guard of Align is unreachable
    ensures ModeOf(V1Thresholds, o) == Align ==> r == Actuate(NoOp)
    // in Cruise the side engines correct strictly outside the x bound
    ensures ModeOf(V1Thresholds, o) == Cruise ==> r == CruiseAction(V1Thresholds, o)
  {
    var t := V1Thresholds;
    match ModeOf(t, o)
    case Cruise => CruiseAction(t, o)
    case Approach => TiltAction(t, o, DescentAction(t, o))
    case Align => DescentAction(t, o)
    case Touchdown => Terminate
  }

  /** `LTLSynthesizedControllerV2.control`: a descent check ahead of the modes. */
  function ControlV2(o: Observation): (r: Action)
    ensures r != Terminate
    // the main engine fires on a fast descent in every mode, Touchdown included
    ensures o.vy < -0.1 ==> r == Actuate(FireMain)
    ensures o.leftContact == 1.0 && o.rightContact == 1.0 && o.vy >= -0.1 ==> r == Actuate(NoOp)
    ensures ModeOf(V2Thresholds, o) == Cruise && o.vy >= -0.1 ==> r == CruiseAction(V2Thresholds, o)
  {
    var t := V2Thresholds;
    if o.vy < -t.vy then Actuate(FireMain)
    else
      match ModeOf(t, o)
      case Cruise => CruiseAction(t, o)
      case Approach => TiltAction(t, o, Actuate(NoOp))
      case Align => DescentAction(t, o)
      case Touchdown => Actuate(NoOp)
  }

  /** `LTLSynthesizedControllerV3.control`: descent first, then angular
      velocity, then the modes. */
  function ControlV3(o: Observation): (r: Action)
    ensures r != Terminate
    ensures o.vy < -1.0 ==> r == Actuate(FireMain)
    ensures o.vy >= -1.0 && o.angularVel > 0.1 ==> r == Actuate(FireRight)
    ensures o.vy >= -1.0 && o.angularVel < -0.1 ==> r == Actuate(FireLeft)
    ensures o.leftContact == 1.0 && o.rightContact == 1.0 && o.vy >= -1.0 && -0.1 <= o.angularVel <= 0.1 ==>
              r == Actuate(NoOp)
    ensures ModeOf(V3Thresholds, o) == Cruise && o.vy >= -1.0 && -0.1 <= o.angularVel <= 0.1 ==>
              r == CruiseAction(V3Thresholds, o)
  {
    var t := V3Thresholds;
    if o.vy < -t.vy then Actuate(FireMain)
    else if o.angularVel > V3AngularVelThreshold then Actuate(FireRight)
    else if o.angularVel < -V3AngularVelThreshold then Actuate(FireLeft)
    else
      match ModeOf(t, o)
      case Cruise => CruiseAction(t, o)
      case Approach => TiltAction(t, o, Actuate(NoOp))
      case Align => DescentAction(t, o)
      case Touchdown => Actuate(NoOp)
  }

  /** The steering rows of the mode table: Cruise nudges toward the centre
      and Approach corrects the tilt, each strictly outside its bound. */
  function SteerRules(t: Thresholds): seq<Rule>
  {
    [ Rule((o: Observation) => ModeOf(t, o) == Cruise && o.x > t.x, Actuate(FireLeft)),
      Rule((o: Observation) => ModeOf(t, o) == Cruise && o.x < -t.x, Actuate(FireRight)),
      Rule((o: Observation) => ModeOf(t, o) == Approach && o.angle > t.angle, Actuate(FireLeft)),
      Rule((o: Observation) => ModeOf(t, o) == Approach && o.angle < -t.angle, Actuate(FireRight)) ]
  }

  /** The settling rows of the mode table: Align's descent brake and what
      Touchdown issues. */
  function SettleRules(t: Thresholds, touchdown: Action): seq<Rule>
  {
    [ Rule((o: Observation) => ModeOf(t, o) == Align && o.vy < -t.vy, Actuate(FireMain)),
      Rule((o: Observation) => ModeOf(t, o) == Touchdown, touchdown) ]
  }

  /** The mode rules shared by the three variants, as table rows guarded by
      the mode; `upright` holds what Approach does when no tilt correction
      is due. */
  function ModeRules(t: Thresholds, upright: seq<Rule>, touchdown: Action): seq<Rule>
  {
    SteerRules(t) + upright + SettleRules(t, touchdown)
  }

  /** V1's Approach brakes when upright; V2 and V3 do not. */
  function V1Upright(): seq<Rule>
  {
    var t := V1Thresholds;
    [Rule((o: Observation) => ModeOf(t, o) == Approach && o.vy < -t.vy, Actuate(FireMain))]
  }

  function V1Rules(): seq<Rule>
  {
    ModeRules(V1Thresholds, V1Upright(), Terminate)
  }

  /** V2's descent check ahead of the modes. */
  function V2Priority(): seq<Rule>
  {
    [Rule((o: Observation) => o.vy < -V2Thresholds.vy, Actuate(FireMain))]
  }

  function V2Rules(): seq<Rule>
  {
    V2Priority() + ModeRules(V2Thresholds, [], Actuate(NoOp))
  }

  /** V3's descent and spin checks ahead of the modes. */
  function V3Priority(): seq<Rule>
  {
    [ Rule((o: Observation) => o.vy < -V3Thresholds.vy, Actuate(FireMain)),
      Rule((o: Observation) => o.angularVel > V3AngularVelThreshold, Actuate(FireRight)),
      Rule((o: Observation) => o.angularVel < -V3AngularVelThreshold, Actuate(FireLeft)) ]
  }

  function V3Rules(): seq<Rule>
  {
    V3Priority() + ModeRules(V3Thresholds, [], Actuate(NoOp))
  }

  /** The mode table resolves its three parts in turn. */
  lemma ModeRulesInTurn(t: Thresholds, upright: seq<Rule>, touchdown: Action, o: Observation, fallback: Action)
    ensures FirstMatch(ModeRules(t, upright, touchdown), o, fallback) ==
              FirstMatch(SteerRules(t), o, FirstMatch(upright, o, FirstMatch(SettleRules(t, touchdown), o, fallback)))
  {
    FirstMatchAppend(SteerRules(t) + upright, SettleRules(t, touchdown), o, fallback);
    FirstMatchAppend(SteerRules(t), upright, o, FirstMatch(SettleRules(t, touchdown), o, fallback));
  }

  /** What the steering rows decide, row by row. */
  lemma SteerRulesResolve(t: Thresholds, o: Observation, fallback: Action)
    ensures FirstMatch(SteerRules(t), o, fallback) ==
              match ModeOf(t, o)
              case Cruise => if o.x > t.x || o.x < -t.x then CruiseAction(t, o) else fallback
              case Approach => if o.angle > t.angle || o.angle < -t.angle then TiltAction(t, o, fallback) else fallback
              case _ => fallback
  {
    var rs := SteerRules(t);
    assert rs[0..] == rs;
    UnrollFrom(rs, o, fallback, 0);
    UnrollFrom(rs, o, fallback, 1);
    UnrollFrom(rs, o, fallback, 2);
    UnrollFrom(rs, o, fallback, 3);
    UnrollFrom(rs, o, fallback, 4);
  }

  /** What the settling rows decide, row by row. */
  lemma SettleRulesResolve(t: Thresholds, touchdown: Action, o: Observation, fallback: Action)
    ensures FirstMatch(SettleRules(t, touchdown), o, fallback) ==
              match ModeOf(t, o)
              case Align => if o.vy < -t.vy then Actuate(FireMain) else fallback
              case Touchdown => touchdown
              case _ => fallback
  {
    var rs := SettleRules(t, touchdown);
    assert rs[0..] == rs;
    UnrollFrom(rs, o, fallback, 0);
    UnrollFrom(rs, o, fallback, 1);
    UnrollFrom(rs, o, fallback, 2);
  }

  lemma ControlV1IsRuleTable(o: Observation)
    ensures ControlV1(o) == FirstMatch(V1Rules(), o, Actuate(NoOp))
  {
    var t, f := V1Thresholds, Actuate(NoOp);
    var settled := FirstMatch(SettleRules(t, Terminate), o, f);
    ModeRulesInTurn(t, V1Upright(), Terminate, o, f);
    SettleRulesResolve(t, Terminate, o, f);
    UnrollFrom(V1Upright(), o, settled, 0);
    UnrollFrom(V1Upright(), o, settled, 1);
    SteerRulesResolve(t, o, FirstMatch(V1Upright(), o, settled));
  }

  lemma ControlV2IsRuleTable(o: Observation)
    ensures ControlV2(o) == FirstMatch(V2Rules(), o, Actuate(NoOp))
  {
    var t, f := V2Thresholds, Actuate(NoOp);
    var settled := FirstMatch(SettleRules(t, f), o, f);
    FirstMatchAppend(V2Priority(), ModeRules(t, [], f), o, f);
    ModeRulesInTurn(t, [], f, o, f);
    SettleRulesResolve(t, f, o, f);
    SteerRulesResolve(t, o, settled);
    UnrollFrom(V2Priority(), o, FirstMatch(ModeRules(t, [], f), o, f), 0);
    UnrollFrom(V2Priority(), o, FirstMatch(ModeRules(t, [], f), o, f), 1);
  }

  lemma ControlV3IsRuleTable(o: Observation)
    ensures ControlV3(o) == FirstMatch(V3Rules(), o, Actuate(NoOp))
  {
    var t, f := V3Thresholds, Actuate(NoOp);
    var settled := FirstMatch(SettleRules(t, f), o, f);
    var moded := FirstMatch(ModeRules(t, [], f), o, f);
    FirstMatchAppend(V3Priority(), ModeRules(t, [], f), o, f);
    ModeRulesInTurn(t, [], f, o, f);
    SettleRulesResolve(t, f, o, f);
    SteerRulesResolve(t, o, settled);
    var rs := V3Priority();
    assert rs[0..] == rs;
    UnrollFrom(rs, o, moded, 0);
    UnrollFrom(rs, o, moded, 1);
    UnrollFrom(rs, o, moded, 2);
    UnrollFrom(rs, o, moded, 3);
  }

  /** The Cruise bound is strict in every variant and on both sides:
      exactly at the bound, with no priority rule due, no thrust is issued,
      and just past it the engine that pushes back toward the centre fires. */
  lemma CruiseBoundIsStrict(o: Observation)
    requires o.leftContact != 1.0 && o.y > 0.3 && o.vy >= -1.0 && -0.1 <= o.angularVel <= 0.1
    ensures o.x == 0.1 || o.x == -0.1 ==> ControlV1(o) == Actuate(NoOp)
    ensures o.x > 0.1 ==> ControlV1(o) == Actuate(FireLeft)
    ensures o.x < -0.1 ==> ControlV1(o) == Actuate(FireRight)
    // V2's descent rule fires from -0.1 on
    ensures o.vy >= -0.1 && (o.x == 0.1 || o.x == -0.1) ==> ControlV2(o) == Actuate(NoOp)
    ensures o.vy >= -0.1 && o.x > 0.1 ==> ControlV2(o) == Actuate(FireLeft)
    ensures o.vy >= -0.1 && o.x < -0.1 ==> ControlV2(o) == Actuate(FireRight)
    ensures o.x == 0.3 || o.x == -0.3 ==> ControlV3(o) == Actuate(NoOp)
    ensures o.x > 0.3 ==> ControlV3(o) == Actuate(FireLeft)
    ensures o.x < -0.3 ==> ControlV3(o) == Actuate(FireRight)
  {
  }

  /** A centred, upright lander half a unit up and sinking at 0.3 is in
      Cruise (0.5 is above every near-ground bound); V1 and V3 leave the
      engines off and V2 fires the main engine. */
  lemma CentredDescentScenario()
    ensures var o := Observation(0.0, 0.5, 0.0, -0.3, 0.0, 0.0, 0.0, 0.0);
            ModeOf(V1Thresholds, o) == Cruise && ModeOf(V3Thresholds, o) == Cruise &&
            ControlV1(o) == Actuate(NoOp) && ControlV2(o) == Actuate(FireMain) && ControlV3(o) == Actuate(NoOp)
  {
  }

  /** A hard but grounded landing: tilted, off the pad and moving, yet in
      Touchdown; V1 stops the episode, V2 and V3 keep firing the main engine. */
  lemma HardLandingScenario()
    ensures var o := Observation(0.5, 0.0, 0.4, -1.5, 0.3, 0.0, 1.0, 1.0);
            ModeOf(V1Thresholds, o) == Touchdown && ModeOf(V3Thresholds, o) == Touchdown &&
            ControlV1(o) == Terminate && ControlV2(o) == Actuate(FireMain) && ControlV3(o) == Actuate(FireMain)
  {
  }
}
