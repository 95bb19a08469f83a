/**
 * LlamaController: keeps a dictionary of three property flags, overwrites
 * all three from the observation at the start of every `control`, and then
 * reads them back to choose between no thrust and the right engine.
 */
module Llama {
  import opened Lander
  import opened RuleChain

  /** The keys of the property dictionary. */
  datatype LtlKey = AlwaysSafeAltitude | NeverCrash | AvoidLargeVelocity

  const SafeAltitudeThreshold: real := 10.0
  const LargeVelocityThreshold: real := 5.0
  const CrashAltitude: real := -0.8

  /** The dictionary a fresh or reset controller holds. */
  const AllTrue: map<LtlKey, bool> :=
    map[AlwaysSafeAltitude := true, NeverCrash := true, AvoidLargeVelocity := true]

  /** The flags `check_ltl_properties` derives from an observation; the
      velocity flag reads index 2 of the observation, the horizontal speed. */
  function Flags(o: Observation): (f: map<LtlKey, bool>)
    ensures f.Keys == {AlwaysSafeAltitude, NeverCrash, AvoidLargeVelocity}
    ensures f[AlwaysSafeAltitude] <==> o.y > -10.0
    ensures f[NeverCrash] <==> o.y >= -0.8
    ensures f[AvoidLargeVelocity] <==> -5.0 < o.vx < 5.0
  {
    map[AlwaysSafeAltitude := o.y > -SafeAltitudeThreshold,
        NeverCrash := !(o.y < CrashAltitude),
        AvoidLargeVelocity := Abs(o.vx) < LargeVelocityThreshold]
  }

  /** The decision `control` takes from the flags it has just written. */
  function Decide(f: map<LtlKey, bool>, o: Observation): Action
    requires AlwaysSafeAltitude in f && NeverCrash in f && AvoidLargeVelocity in f
  {
    if !f[AlwaysSafeAltitude] then Actuate(FireRight)
    else if !f[NeverCrash] || !f[AvoidLargeVelocity] then Actuate(NoOp)
    else if o.vx > -0.5 then Actuate(NoOp)
    else Actuate(FireRight)
  }

  /** What `control` returns for an observation, whatever ticks came before. */
  function ActionFor(o: Observation): (r: Action)
    ensures r == Actuate(NoOp) || r == Actuate(FireRight)
    // the altitude check comes first
    ensures o.y <= -10.0 ==> r == Actuate(FireRight)
    ensures o.y > -10.0 && (o.y < -0.8 || o.vx >= 5.0 || o.vx <= -5.0) ==> r == Actuate(NoOp)
    // with every flag true, no thrust exactly when vx > -0.5
    ensures Flags(o) == AllTrue ==> (r == Actuate(NoOp) <==> o.vx > -0.5)
  {
    Decide(Flags(o), o)
  }

  /** The decision as a priority table over the observation. */
  function Rules(): seq<Rule>
  {
    [ Rule((o: Observation) => !Flags(o)[AlwaysSafeAltitude], Actuate(FireRight)),
      Rule((o: Observation) => !Flags(o)[NeverCrash] || !Flags(o)[AvoidLargeVelocity], Actuate(NoOp)),
      Rule((o: Observation) => o.vx > -0.5, Actuate(NoOp)) ]
  }

  lemma ActionForIsRuleTable(o: Observation)
    ensures ActionFor(o) == FirstMatch(Rules(), o, Actuate(FireRight))
  {
    var rs := Rules();
    assert rs[0..] == rs;
    UnrollFrom(rs, o, Actuate(FireRight), 0);
    UnrollFrom(rs, o, Actuate(FireRight), 1);
    UnrollFrom(rs, o, Actuate(FireRight), 2);
    UnrollFrom(rs, o, Actuate(FireRight), 3);
  }

  class LlamaController {
    var ltlProperties: map<LtlKey, bool>

    constructor ()
      ensures ltlProperties == AllTrue
    {
      ltlProperties := AllTrue;
    }

    /** `check_ltl_properties`: overwrites each key of the dictionary in place. */
    method CheckLtlProperties(o: Observation)
      modifies this
      ensures ltlProperties == Flags(o)
    {
      ltlProperties := ltlProperties[AlwaysSafeAltitude := o.y > -SafeAltitudeThreshold];
      ltlProperties := ltlProperties[NeverCrash := !(o.y < CrashAltitude)];
      ltlProperties := ltlProperties[AvoidLargeVelocity := Abs(o.vx) < LargeVelocityThreshold];
      // the dictionary can hold no key besides the three just written
      forall k | k in ltlProperties ensures k in Flags(o) {
        match k
        case AlwaysSafeAltitude =>
        case NeverCrash =>
        case AvoidLargeVelocity =>
      }
    }

    /** `control`: the flags left behind and the action returned depend on
        this observation only, not on the dictionary earlier ticks left. */
    method Control(o: Observation) returns (a: Action)
      modifies this
      ensures ltlProperties == Flags(o)
      ensures a == ActionFor(o)
    {
      CheckLtlProperties(o);
      if !ltlProperties[AlwaysSafeAltitude] {
        return Actuate(FireRight);
      } else if !ltlProperties[NeverCrash] || !ltlProperties[AvoidLargeVelocity] {
        return Actuate(NoOp);
      }
      if o.vx > -0.5 {
        return Actuate(NoOp);
      } else {
        return Actuate(FireRight);
      }
    }

    method Reset()
      modifies this
      ensures ltlProperties == AllTrue
    {
      ltlProperties := AllTrue;
    }
  }
}
