/**
 * The single-prompt safety controller (class LTLSafeController): a chain of
 * guarded early returns over four constant bounds. It stops the episode on a
 * soft touchdown, and otherwise enforces, in this order, the horizontal
 * bound, the tilt bound and an altitude-dependent descent-speed bound.
 */
module LtlSafe {
  import opened Lander
  import opened RuleChain

  const MaxTilt: real := 0.4
  const MaxX: real := 0.9
  const MaxDescentSpeed: real := 1.0
  const SafeDescentSpeed: real := 0.5
  /** Below this altitude the stricter descent bound applies. */
  const LowAltitude: real := 0.2
  /** Horizontal speed under which a grounded lander counts as stopped. */
  const StopSpeed: real := 0.1

  /** Both legs down and neither sinking fast nor sliding. */
  predicate SoftTouchdown(o: Observation)
  {
    LegsTruthy(o) && o.vy >= -SafeDescentSpeed && Abs(o.vx) < StopSpeed
  }

  /** `LTLSafeController.control`. */
  function Control(o: Observation): (r: Action)
    // the terminate test comes first and is the only way to terminate
    ensures r == Terminate <==>
              o.leftContact != 0.0 && o.rightContact != 0.0 && o.vy >= -0.5 && -0.1 < o.vx < 0.1
    // the horizontal bound beats the tilt and descent rules
    ensures r != Terminate && o.x > 0.9 ==> r == Actuate(FireRight)
    ensures r != Terminate && o.x < -0.9 ==> r == Actuate(FireLeft)
    // with x inside its bound, the tilt bound beats the descent rule
    ensures r != Terminate && -0.9 <= o.x <= 0.9 && o.angle > 0.4 ==> r == Actuate(FireRight)
    ensures r != Terminate && -0.9 <= o.x <= 0.9 && o.angle < -0.4 ==> r == Actuate(FireLeft)
    // with x and angle inside their bounds, the main engine fires exactly
    // when the descent bound of the current altitude (0.5 below y = 0.2,
    // 1.0 above) is exceeded; otherwise no engine fires
    ensures r != Terminate && -0.9 <= o.x <= 0.9 && -0.4 <= o.angle <= 0.4 ==>
              (r == Actuate(FireMain) || r == Actuate(NoOp)) &&
              (o.y < 0.2 ==> (r == Actuate(FireMain) <==> o.vy < -0.5)) &&
              (o.y >= 0.2 ==> (r == Actuate(FireMain) <==> o.vy < -1.0))
  {
    if SoftTouchdown(o) then Terminate
    else if o.x > MaxX then Actuate(FireRight)
    else if o.x < -MaxX then Actuate(FireLeft)
    else if o.angle > MaxTilt then Actuate(FireRight)
    else if o.angle < -MaxTilt then Actuate(FireLeft)
    else if o.y < LowAltitude then
      if o.vy < -SafeDescentSpeed then Actuate(FireMain) else Actuate(NoOp)
    else
      if o.vy < -MaxDescentSpeed then Actuate(FireMain) else Actuate(NoOp)
  }

  /** The bound rows: the horizontal bound, then the tilt bound. */
  function BoundRules(): seq<Rule>
  {
    [ Rule((o: Observation) => o.x > MaxX, Actuate(FireRight)),
      Rule((o: Observation) => o.x < -MaxX, Actuate(FireLeft)),
      Rule((o: Observation) => o.angle > MaxTilt, Actuate(FireRight)),
      Rule((o: Observation) => o.angle < -MaxTilt, Actuate(FireLeft)) ]
  }

  /** The descent rows: the stricter bound near the ground, the looser above. */
  function DescentRules(): seq<Rule>
  {
    [ Rule((o: Observation) => o.y < LowAltitude && o.vy < -SafeDescentSpeed, Actuate(FireMain)),
      Rule((o: Observation) => o.y >= LowAltitude && o.vy < -MaxDescentSpeed, Actuate(FireMain)) ]
  }

  /** The controller's rules as a priority table, highest priority first. */
  function Rules(): seq<Rule>
  {
    [Rule((o: Observation) => SoftTouchdown(o), Terminate)] + BoundRules() + DescentRules()
  }

  /** What the bound rows decide, row by row. */
  lemma BoundRulesResolve(o: Observation, fallback: Action)
    ensures FirstMatch(BoundRules(), o, fallback) ==
              if o.x > MaxX then Actuate(FireRight)
              else if o.x < -MaxX then Actuate(FireLeft)
              else if o.angle > MaxTilt then Actuate(FireRight)
              else if o.angle < -MaxTilt then Actuate(FireLeft)
              else fallback
  {
    var rs := BoundRules();
    assert rs[0..] == rs;
    UnrollFrom(rs, o, fallback, 0);
    UnrollFrom(rs, o, fallback, 1);
    UnrollFrom(rs, o, fallback, 2);
    UnrollFrom(rs, o, fallback, 3);
    UnrollFrom(rs, o, fallback, 4);
  }

  /** What the descent rows decide, row by row. */
  lemma DescentRulesResolve(o: Observation, fallback: Action)
    ensures FirstMatch(DescentRules(), o, fallback) ==
              if o.y < LowAltitude then (if o.vy < -SafeDescentSpeed then Actuate(FireMain) else fallback)
              else if o.vy < -MaxDescentSpeed then Actuate(FireMain) else fallback
  {
    var rs := DescentRules();
    assert rs[0..] == rs;
    UnrollFrom(rs, o, fallback, 0);
    UnrollFrom(rs, o, fallback, 1);
    UnrollFrom(rs, o, fallback, 2);
  }

  /** The early-return chain is the priority table with a no-op default. */
  lemma ControlIsRuleTable(o: Observation)
    ensures Control(o) == FirstMatch(Rules(), o, Actuate(NoOp))
  {
    var f := Actuate(NoOp);
    var stop := [Rule((o: Observation) => SoftTouchdown(o), Terminate)];
    var descent := FirstMatch(DescentRules(), o, f);
    var bounded := FirstMatch(BoundRules(), o, descent);
    FirstMatchAppend(stop + BoundRules(), DescentRules(), o, f);
    FirstMatchAppend(stop, BoundRules(), o, descent);
    UnrollFrom(stop, o, bounded, 0);
    UnrollFrom(stop, o, bounded, 1);
    BoundRulesResolve(o, descent);
    DescentRulesResolve(o, f);
  }

  /** Both legs down and a gentle, still touchdown ends the episode. */
  lemma SoftTouchdownScenario()
    ensures Control(Observation(0.0, 0.0, 0.0, -0.1, 0.0, 0.0, 1.0, 1.0)) == Terminate
  {
  }

  /** Legs down but still sinking too fast: no termination, and with both
      bounds respected the main engine fires because of the descent rule. */
  lemma GroundedButFastScenario()
    ensures Control(Observation(0.0, 0.0, 0.0, -0.6, 0.0, 0.0, 1.0, 1.0)) == Actuate(FireMain)
  {
  }

  /** Past the horizontal bound on the right: the right thruster fires,
      even while falling fast. */
  lemma RightOfBoundScenario()
    ensures Control(Observation(0.95, 0.1, 0.0, 0.0, 0.0, 0.0, 0.0, 0.0)) == Actuate(FireRight)
    ensures Control(Observation(0.95, 1.0, 0.0, -2.0, 0.0, 0.0, 0.0, 0.0)) == Actuate(FireRight)
  {
  }

  /** Exactly at the horizontal and tilt bounds nothing fires. */
  lemma BoundsAreStrict()
    ensures Control(Observation(0.9, 1.0, 0.0, 0.0, 0.4, 0.0, 0.0, 0.0)) == Actuate(NoOp)
    ensures Control(Observation(-0.9, 1.0, 0.0, 0.0, -0.4, 0.0, 0.0, 0.0)) == Actuate(NoOp)
  {
  }
}
