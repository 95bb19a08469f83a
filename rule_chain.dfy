/**
 * The priority action resolver as a table: an ordered list of guarded rules
 * in which the first rule whose guard holds decides the action. Every
 * hand-written if/elif chain of the controllers is proved equal to such a
 * table, so that the order of its rules can be read off one place.
 */
module RuleChain {
  import opened Lander

  datatype Rule = Rule(guard: Observation -> bool, action: Action)

  /** The action of the first rule that fires, or `fallback` when none does. */
  function FirstMatch(rules: seq<Rule>, o: Observation, fallback: Action): (r: Action)
    ensures r == fallback || exists i :: 0 <= i < |rules| && rules[i].guard(o) && rules[i].action == r
    decreases |rules|
  {
    if |rules| == 0 then fallback
    else if rules[0].guard(o) then rules[0].action
    else FirstMatch(rules[1..], o, fallback)
  }

  /** One step of the resolver on the suffix of the table from row `k`:
      an exhausted table gives the default, otherwise row `k` decides if it
      fires and the rows after it decide if it does not. */
  lemma UnrollFrom(rules: seq<Rule>, o: Observation, fallback: Action, k: nat)
    requires k <= |rules|
    ensures FirstMatch(rules[k..], o, fallback) ==
              if k == |rules| then fallback
              else if rules[k].guard(o) then rules[k].action
              else FirstMatch(rules[k + 1..], o, fallback)
  {
    if k < |rules| {
      assert rules[k..][1..] == rules[k + 1..];
    }
  }

  /** Tables compose: the rows of `front` are tried first, and when none of
      them fires the resolution falls through to `back`. */
  lemma {:induction false} FirstMatchAppend(front: seq<Rule>, back: seq<Rule>, o: Observation, fallback: Action)
    ensures FirstMatch(front + back, o, fallback) == FirstMatch(front, o, FirstMatch(back, o, fallback))
  {
    if |front| > 0 {
      assert (front + back)[1..] == front[1..] + back;
      FirstMatchAppend(front[1..], back, o, fallback);
    } else {
      assert front + back == back;
    }
  }

  /** First match wins: a rule that fires decides the action as soon as no
      earlier rule fires, whatever the later rules say. */
  lemma {:induction false} FirstFiringRuleDecides(rules: seq<Rule>, o: Observation, fallback: Action, i: nat)
    requires i < |rules| && rules[i].guard(o)
    requires forall j :: 0 <= j < i ==> !rules[j].guard(o)
    ensures FirstMatch(rules, o, fallback) == rules[i].action
  {
    if i > 0 {
      FirstFiringRuleDecides(rules[1..], o, fallback, i - 1);
    }
  }
}
