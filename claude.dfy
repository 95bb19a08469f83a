/**
 * ClaudeController: one if/elif chain over the observation. Landed first,
 * then low-and-fast, the tilt bound and the speed bound; what none of these
 * settles goes to the pad-approach logic. The bound on the tilt (pi/6 in the
 * controller) is a parameter here: nothing below depends on its value.
 */
module Claude {
  import opened Lander
  import opened RuleChain

  const MaxVelocity: real := 1.0
  const SafeLandingVelocity: real := 0.5
  /** Half-width of the landing pad as the approach logic sees it. */
  const PadHalfWidth: real := 0.3

  /** Low above the ground and sinking fast. */
  predicate LowAndFast(o: Observation)
  {
    o.y < 0.1 && o.vy < -0.5
  }

  predicate TooFast(o: Observation)
  {
    Abs(o.vx) > MaxVelocity || Abs(o.vy) > MaxVelocity
  }

  /** The pad-approach logic reached when no safety rule returned. */
  function PadAction(o: Observation): (r: Engine)
    ensures -0.3 < o.x < 0.3 ==> (r == FireMain <==> o.vy < -0.5)
    ensures -0.3 < o.x < 0.3 && o.vy >= -0.5 ==> r == NoOp
    ensures o.x >= 0.3 ==> r == FireLeft
    ensures o.x <= -0.3 ==> r == FireRight
  {
    if Abs(o.x) < PadHalfWidth then
      if o.vy < -SafeLandingVelocity then FireMain else NoOp
    else if o.x > 0.0 then FireLeft
    else FireRight
  }

  /** `ClaudeController.control` with tilt bound `maxAngle`. */
  function Control(maxAngle: real, o: Observation): (r: Action)
    ensures r != Terminate
    // landed comes before every other rule
    ensures LegsTruthy(o) ==> r == Actuate(NoOp)
    // low and fast beats the tilt rule
    ensures !LegsTruthy(o) && LowAndFast(o) ==> r == Actuate(FireMain)
    ensures !LegsTruthy(o) && !LowAndFast(o) && Abs(o.angle) > maxAngle ==>
              r == (if o.angle > 0.0 then Actuate(FireLeft) else Actuate(FireRight))
    // speed rule: horizontal branch when |vx| > |vy| strictly
    ensures !LegsTruthy(o) && !LowAndFast(o) && Abs(o.angle) <= maxAngle && TooFast(o) && Abs(o.vx) > Abs(o.vy) ==>
              r == (if o.vx > 0.0 then Actuate(FireLeft) else Actuate(FireRight))
    // a tie goes to the vertical branch, which returns only on a fast descent
    ensures !LegsTruthy(o) && !LowAndFast(o) && Abs(o.angle) <= maxAngle && TooFast(o) && Abs(o.vx) <= Abs(o.vy) ==>
              r == (if o.vy < -1.0 then Actuate(FireMain) else Actuate(PadAction(o)))
    ensures !LegsTruthy(o) && !LowAndFast(o) && Abs(o.angle) <= maxAngle && !TooFast(o) ==>
              r == Actuate(PadAction(o))
  {
    if LegsTruthy(o) then Actuate(NoOp)
    else if LowAndFast(o) then Actuate(FireMain)
    else if Abs(o.angle) > maxAngle then
      if o.angle > 0.0 then Actuate(FireLeft) else Actuate(FireRight)
    else if TooFast(o) then
      if Abs(o.vx) > Abs(o.vy) then
        if o.vx > 0.0 then Actuate(FireLeft) else Actuate(FireRight)
      else if o.vy < -MaxVelocity then Actuate(FireMain)
      // a fast ascent does not return here but falls through to the pad logic
      else Actuate(PadAction(o))
    else Actuate(PadAction(o))
  }

  /** The safety rows of the chain: landed, low and fast, then the tilt bound. */
  function SafetyRules(maxAngle: real): seq<Rule>
  {
    [ Rule((o: Observation) => LegsTruthy(o), Actuate(NoOp)),
      Rule((o: Observation) => LowAndFast(o), Actuate(FireMain)),
      Rule((o: Observation) => Abs(o.angle) > maxAngle && o.angle > 0.0, Actuate(FireLeft)),
      Rule((o: Observation) => Abs(o.angle) > maxAngle, Actuate(FireRight)) ]
  }

  /** The speed rows: the dominant axis is corrected; a fast ascent has no row. */
  function SpeedRules(): seq<Rule>
  {
    [ Rule((o: Observation) => TooFast(o) && Abs(o.vx) > Abs(o.vy) && o.vx > 0.0, Actuate(FireLeft)),
      Rule((o: Observation) => TooFast(o) && Abs(o.vx) > Abs(o.vy), Actuate(FireRight)),
      Rule((o: Observation) => TooFast(o) && o.vy < -MaxVelocity, Actuate(FireMain)) ]
  }

  /** The pad-approach rows; the last one always fires. */
  function PadRules(): seq<Rule>
  {
    [ Rule((o: Observation) => Abs(o.x) < PadHalfWidth && o.vy < -SafeLandingVelocity, Actuate(FireMain)),
      Rule((o: Observation) => Abs(o.x) < PadHalfWidth, Actuate(NoOp)),
      Rule((o: Observation) => o.x > 0.0, Actuate(FireLeft)),
      Rule((o: Observation) => true, Actuate(FireRight)) ]
  }

  /** The chain as a priority table, highest priority first; the last rule
      always fires, so the default is never used. */
  function Rules(maxAngle: real): seq<Rule>
  {
    SafetyRules(maxAngle) + SpeedRules() + PadRules()
  }

  /** The pad rows are the pad logic and never fall through to the default. */
  lemma PadRulesArePadAction(o: Observation, fallback: Action)
    ensures FirstMatch(PadRules(), o, fallback) == Actuate(PadAction(o))
  {
    var rs := PadRules();
    assert rs[0..] == rs;
    UnrollFrom(rs, o, fallback, 0);
    UnrollFrom(rs, o, fallback, 1);
    UnrollFrom(rs, o, fallback, 2);
    UnrollFrom(rs, o, fallback, 3);
  }

  /** What the speed rows decide, row by row. */
  lemma SpeedRulesResolve(o: Observation, fallback: Action)
    ensures FirstMatch(SpeedRules(), o, fallback) ==
              if !TooFast(o) then fallback
              else if Abs(o.vx) > Abs(o.vy) then (if o.vx > 0.0 then Actuate(FireLeft) else Actuate(FireRight))
              else if o.vy < -MaxVelocity then Actuate(FireMain)
              else fallback
  {
    var rs := SpeedRules();
    assert rs[0..] == rs;
    UnrollFrom(rs, o, fallback, 0);
    UnrollFrom(rs, o, fallback, 1);
    UnrollFrom(rs, o, fallback, 2);
    UnrollFrom(rs, o, fallback, 3);
  }

  /** What the safety rows decide, row by row. */
  lemma SafetyRulesResolve(maxAngle: real, o: Observation, fallback: Action)
    ensures FirstMatch(SafetyRules(maxAngle), o, fallback) ==
              if LegsTruthy(o) then Actuate(NoOp)
              else if LowAndFast(o) then Actuate(FireMain)
              else if Abs(o.angle) > maxAngle then (if o.angle > 0.0 then Actuate(FireLeft) else Actuate(FireRight))
              else fallback
  {
    var rs := SafetyRules(maxAngle);
    assert rs[0..] == rs;
    UnrollFrom(rs, o, fallback, 0);
    UnrollFrom(rs, o, fallback, 1);
    UnrollFrom(rs, o, fallback, 2);
    UnrollFrom(rs, o, fallback, 3);
    UnrollFrom(rs, o, fallback, 4);
  }

  /** The chain is the priority table, and its trailing default is dead:
      the last rule fires on every observation, so whatever the table's
      fallback is, it is never what is returned. */
  lemma ControlIsRuleTable(maxAngle: real, o: Observation, fallback: Action)
    ensures Control(maxAngle, o) == FirstMatch(Rules(maxAngle), o, fallback)
  {
    var pad := FirstMatch(PadRules(), o, fallback);
    FirstMatchAppend(SafetyRules(maxAngle) + SpeedRules(), PadRules(), o, fallback);
    FirstMatchAppend(SafetyRules(maxAngle), SpeedRules(), o, pad);
    PadRulesArePadAction(o, fallback);
    SpeedRulesResolve(o, pad);
    SafetyRulesResolve(maxAngle, o, FirstMatch(SpeedRules(), o, pad));
  }
}
