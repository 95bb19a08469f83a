# Lunar-lander threshold controllers, modelled in Dafny

The repository holds a family of hand-written policies for a lunar lander.
Every tick a policy maps the observation `[x, y, vx, vy, angle, angular_vel,
left_contact, right_contact]` to an actuator command (0 no-op, 1 left engine,
2 main engine, 3 right engine) or to the sentinel `'terminate'`. The policies
turn the observation into boolean propositions with fixed thresholds, and
some classify those into a mode (`Cruise`, `Approach`, `Align`, `Touchdown`).
Most of them then resolve the action through an ordered chain of guarded
rules in which the first rule that fires wins. `DeepSeekController` is the
exception on one side: its checks override one another, so the last one
that fires wins. `TulipLunarLanderController` is the exception on the other:
its action comes from the synthesized controller's transition function.

The model:

- `lander.dfy` (module `Lander`): the observation (eight reals), the
  actuator commands `Engine`, and `Action = Actuate(Engine) | Terminate`,
  which keeps the source's mix of integers and the string `'terminate'`
  apart. `Code`/`Decode` give the integer convention. `Decode` states the
  domain `(0, 1, 2, 3)` that the Tulip controller declares for its output
  variable `action`; because of that declaration, the model's `step` yields
  an `Engine` directly. No other member uses `Code` or `Decode`: they and
  their round-trip lemmas document the integer convention. The contact sensors
  stay numbers because the source tests them two ways: by truthiness
  (`leg1 and leg2`) and by `== 1`.
- `rule_chain.dfy` (module `RuleChain`): a priority table as a sequence of
  guarded rules and `FirstMatch`, the first-match-wins resolver, with its
  generic lemmas: a table split in two resolves its front part first and
  falls through to the back (`FirstMatchAppend`). Every `control` written as
  an if/elif chain (the three FSM variants, the single-prompt, Claude and
  Llama controllers) is proved equal to a table of this kind, which puts the
  order of its rules in one place. The mode classifier `_get_fsm_state` is
  also an if/elif chain, but it has no table: its contract states each mode
  as an if-and-only-if.
- `ltl_fsm.dfy` (module `LtlFsm`): `LTLSynthesizedController`, `V2` and
  `V3`: the proposition extractor and the mode classifier, which the three
  share except for their thresholds, and the three `control` methods as pure
  functions.
- `ltl_safe.dfy` (module `LtlSafe`): `LTLSafeController.control`.
- `claude.dfy` (module `Claude`): `ClaudeController.control`. The tilt bound
  `np.pi / 6` is a parameter `maxAngle`; every contract holds for any value
  of it.
- `deepseek.dfy` (module `DeepSeek`): `DeepSeekController` as a class. Its
  `control` is a method that reassigns a local action in three overriding
  `if`s, specified by the fold `Overrides`; `is_safe` is a function;
  `reset` writes the two fields.
- `llama.dfy` (module `Llama`): `LlamaController` as a class whose property
  dictionary is a `map` field that `CheckLtlProperties` overwrites key by key.
- `tulip.dfy` (module `Tulip`): `_get_env_props` and
  `TulipLunarLanderController` as a class. The synthesized discrete
  controller is a value holding an initial state and a transition function
  `step`. Nothing is known about `step`: the repository assumes it exists
  but never defines it.

Two consequences of the code's thresholds and rule order:

- With the code's thresholds (`y_threshold` 0.2 or 0.3), a centred, upright
  lander at `y = 0.5` sinking at 0.3 is in `Cruise`. V1 and V3 then issue
  no-op, and V2 fires the main engine (`LtlFsm.CentredDescentScenario`).
- `LTLSafeController` checks the horizontal bound first, then tilt, then
  descent, so a lander outside the horizontal bound gets a side engine even
  while it falls fast (`LtlSafe.RightOfBoundScenario`).

## Model

| member | source | states |
|---|---|---|
| `Lander.Code` | controller/claude_controller.py:49-53 | every actuator command is sent as an integer below 4 |
| `Lander.Decode` | controller/tulip_controller.py:57-59 | an integer is an actuator command exactly when it is 0, 1, 2 or 3 |
| `Lander.CodeRoundTrip` | controller/claude_controller.py:49-56 | decoding the code of a command gives that command back |
| `Lander.DecodeRoundTrip` | controller/tulip_controller.py:58 | every code 0..3 decodes to a command whose code it is |
| `Lander.LegTestsAgreeOnSensorValues` | controller/ltl_chatgpt_controller.py:29 | for sensor readings in {0, 1}, the truthiness test of the legs and the `== 1` test agree |
| `RuleChain.FirstMatch` | controller/chatgpt_single_prompt_controller.py:20-53 | the resolver returns the action of a rule whose guard holds or, when none holds, the default |
| `RuleChain.FirstMatchAppend` | controller/ltl_chatgpt_controller.py:308-352 | priority rows put in front of a table are tried first; when none fires, the result is the back table's |
| `RuleChain.FirstFiringRuleDecides` | controller/ltl_chatgpt_controller.py:308-318 | first match wins: the first rule that fires decides, whatever later rules say |
| `LtlFsm.AtomicPropositions` | controller/ltl_chatgpt_controller.py:15-33 | p, q, r, s and near_ground hold exactly when x, angle, both speeds lie within their bounds, both legs read 1, and y is at most the ground bound |
| `LtlFsm.FsmState` | controller/ltl_chatgpt_controller.py:35-52 | s forces Touchdown; Align exactly when not s, near ground and p, q, r; Approach exactly when not s, near ground and not all of p, q, r; Cruise exactly when neither s nor near ground |
| `LtlFsm.TouchdownOverridesAll` | controller/ltl_chatgpt_controller.py:44-45 | the mode is Touchdown exactly when both legs read 1, whatever the other fields are |
| `LtlFsm.AlignBoundsDescent` | controller/ltl_chatgpt_controller.py:94-101 | in Align the vertical speed is never below the descent bound, so Align's fire-main guard cannot hold |
| `LtlFsm.CruiseAction` | controller/ltl_chatgpt_controller.py:66-76 | left engine exactly right of the bound, right engine exactly left of it, otherwise no-op |
| `LtlFsm.TiltAction` | controller/ltl_chatgpt_controller.py:78-92 | left engine past the positive tilt bound, right engine past the negative one, otherwise the upright action |
| `LtlFsm.DescentAction` | controller/ltl_chatgpt_controller.py:94-101 | the main engine fires exactly when sinking faster than the bound, otherwise no-op |
| `LtlFsm.ControlV1` | controller/ltl_chatgpt_controller.py:54-105 | terminates exactly on touchdown; Align always gives no-op; in Cruise the action is `CruiseAction`: left engine iff x > 0.1, right engine iff x < -0.1, no-op on and inside the bound |
| `LtlFsm.ControlV2` | controller/ltl_chatgpt_controller.py:191-244 | never terminates; vy < -0.1 fires the main engine in every mode including Touchdown; a slow touchdown gives no-op; in Cruise without a fast descent the action is `CruiseAction` with bound 0.1 |
| `LtlFsm.ControlV3` | controller/ltl_chatgpt_controller.py:296-352 | never terminates; vy < -1 fires the main engine; otherwise spin above 0.1 gives the right engine and below -0.1 the left, ahead of every mode rule; a calm touchdown gives no-op; in Cruise with neither priority rule due the action is `CruiseAction` with bound 0.3 |
| `LtlFsm.ControlV1IsRuleTable` | controller/ltl_chatgpt_controller.py:65-105 | V1 equals its mode-guarded priority table |
| `LtlFsm.ControlV2IsRuleTable` | controller/ltl_chatgpt_controller.py:203-244 | V2 equals the descent rule in front of the mode table |
| `LtlFsm.ControlV3IsRuleTable` | controller/ltl_chatgpt_controller.py:308-352 | V3 equals the descent and spin rules in front of the mode table |
| `LtlFsm.CruiseBoundIsStrict` | controller/ltl_chatgpt_controller.py:68-76 | in Cruise with no priority rule due (V2: vy >= -0.1; V3: vy >= -1.0 and spin within 0.1), every variant gives no-op at x = +bound and at x = -bound, the left engine right of the bound and the right engine left of it (bound 0.1 for V1 and V2, 0.3 for V3) |
| `LtlFsm.CentredDescentScenario` | controller/ltl_chatgpt_controller.py:61-76 | a centred lander at y = 0.5 sinking at 0.3 is in Cruise; V1 and V3 give no-op, V2 the main engine |
| `LtlFsm.HardLandingScenario` | controller/ltl_chatgpt_controller.py:44-45 | a tilted, off-pad, fast grounded lander is in Touchdown; V1 terminates, V2 and V3 fire the main engine |
| `LtlSafe.Control` | controller/chatgpt_single_prompt_controller.py:12-53 | terminate iff legs truthy, vy >= -0.5 and abs(vx) < 0.1 (the predicate `SoftTouchdown`); the horizontal bound beats tilt and descent; tilt beats descent; inside both bounds the main engine fires iff vy is below -0.5 (under y = 0.2) or below -1.0 (elsewhere), else no-op |
| `LtlSafe.ControlIsRuleTable` | controller/chatgpt_single_prompt_controller.py:17-53 | the early-return chain equals its seven-rule priority table with a no-op default |
| `LtlSafe.SoftTouchdownScenario` | controller/chatgpt_single_prompt_controller.py:20-21 | legs down, vy = -0.1, vx = 0 terminates |
| `LtlSafe.GroundedButFastScenario` | controller/chatgpt_single_prompt_controller.py:20-44 | legs down but sinking at 0.6 does not terminate; the descent rule fires the main engine |
| `LtlSafe.RightOfBoundScenario` | controller/chatgpt_single_prompt_controller.py:24-26 | x = 0.95 fires the right thruster, even when falling at 2 |
| `LtlSafe.BoundsAreStrict` | controller/chatgpt_single_prompt_controller.py:24-37 | x = ±0.9 and angle = ±0.4 exactly do not fire |
| `Claude.PadAction` | controller/claude_controller.py:112-124 | on the pad the main engine fires iff vy < -0.5, else no-op; off the pad left engine for x > 0, right otherwise |
| `Claude.Control` | controller/claude_controller.py:35-128 | never terminates; landed gives no-op first; low and fast fires main ahead of tilt; tilt gives left for positive angle, else right; speed rule: horizontal branch iff abs(vx) > abs(vy), ties go vertical, which fires main only below -1 and otherwise falls through to the pad logic |
| `Claude.ControlIsRuleTable` | controller/claude_controller.py:68-128 | the chain equals its eleven-rule table for every fallback, so the trailing default is unreachable |
| `Claude.PadRulesArePadAction` | controller/claude_controller.py:112-124 | the four pad rows give `PadAction` and never fall through, whatever the default |
| `DeepSeek.OverridesIgnoreOrder` | controller/deepseek_controller.py:25-38 | the fold `Overrides` (each violated check overwrites the action with the left engine) gives the left engine when some check in the sequence is violated and otherwise leaves the initial action, whatever the order or repetition of the checks |
| `DeepSeek.AnyOrderOfChecks` | controller/deepseek_controller.py:28-38 | any sequence containing the three checks gives the controller's action |
| `DeepSeek.ControlIgnoresOtherFields` | controller/deepseek_controller.py:22-40 | the action depends on y, vy and the spin only |
| `DeepSeek.DeepSeekController.constructor` | controller/deepseek_controller.py:5-9 | both fields start at 0.0 |
| `DeepSeek.DeepSeekController.Control` | controller/deepseek_controller.py:11-40 | left engine iff (y < 0.2 and vy < -0.5) or abs(vy) > 5 or abs(spin) > 3, else no-op; fields untouched |
| `DeepSeek.DeepSeekController.IsSafe` | controller/deepseek_controller.py:42-60 | unsafe iff (y < 0.1 and abs(vy) > 0.5) or abs(spin) > 4 |
| `DeepSeek.DeepSeekController.Reset` | controller/deepseek_controller.py:62-67 | both fields are 0.0 afterwards |
| `Llama.Flags` | controller/llama_controller.py:21-34 | exactly the three keys; safe altitude iff y > -10, no crash iff y >= -0.8, small velocity iff abs(vx) < 5 |
| `Llama.ActionFor` | controller/llama_controller.py:36-56 | `Decide` read on `Flags(o)`: only no-op or right engine; y <= -10 gives right first; otherwise a crash or large velocity gives no-op; with every flag true no-op iff vx > -0.5 |
| `Llama.ActionForIsRuleTable` | controller/llama_controller.py:46-56 | the decision equals its three-rule table with the right engine as default |
| `Llama.LlamaController.constructor` | controller/llama_controller.py:8-19 | every flag starts true |
| `Llama.LlamaController.CheckLtlProperties` | controller/llama_controller.py:21-34 | after the call the dictionary is the observation's flags, whatever it held before |
| `Llama.LlamaController.Control` | controller/llama_controller.py:36-56 | the flags are overwritten and the action is a function of this observation alone |
| `Llama.LlamaController.Reset` | controller/llama_controller.py:58-68 | every flag is true again |
| `Tulip.GetEnvProps` | controller/tulip_controller.py:81-100 | p, q, a are the x, angle, spin bounds; r is abs(vx) <= 0.1 and vy >= -1, one-sided; s is both legs at 1; near_ground is y <= 0.3; crash is false |
| `Tulip.AscentNeverFalsifiesR` | controller/tulip_controller.py:93-94 | with vy >= 0, r is decided by vx alone |
| `Tulip.TulipLunarLanderController.constructor` | controller/tulip_controller.py:78-79 | the discrete state starts at the controller's initial state |
| `Tulip.TulipLunarLanderController.Create` | controller/tulip_controller.py:74-79 | construction fails with an unrealizable-specification error iff synthesis produced nothing, and otherwise starts from the initial state |
| `Tulip.TulipLunarLanderController.Control` | controller/tulip_controller.py:102-123 | the discrete state advances by one step on every call, the terminating one included; touchdown returns terminate, otherwise the step's action |

## Left out

- `main.py` (episode loop, environment, printing, success count) and
  `utils.py` (video recording): simulation and I/O glue around a foreign
  library.
- `controller/random_action_controller.py`: it only samples the
  environment's action space, which is foreign and random.
- `controller/controller.py`: the abstract base class stores the
  environment handle `env` in its constructor and declares the abstract
  `control`. No controller modelled here reads `env`, and the model has no
  trait, so each controller is a module of its own without that field.
- `controller/__init__.py`: its import table names classes that do not
  exist. The model uses the names the classes are defined with.
- `tulip_synthesis.py`, `simple_req_grant.py` and the construction of the
  GR(1) specification in `controller/tulip_controller.py:48-73`: these are
  formula strings for an external solver. The result of synthesis is a
  parameter of `Tulip.TulipLunarLanderController.Create`.
- `discrete_ctrl.step`: not provided by the synthesis library. It is the
  uninterpreted `step` field of `Tulip.DiscreteController`. Its output
  dictionary is modelled by its `'action'` entry, an `Engine`.
- The success message printed after synthesis
  (`controller/tulip_controller.py:77`): output only.
- The gains and error terms of `ClaudeController`
  (`controller/claude_controller.py:30-33, 73-85`): they are computed but
  never read.
- `np.pi / 6` is not given a value. It is the parameter `maxAngle`.
- Floating point: observations are reals. NaN, rounding and IEEE edge
  cases are not modelled, because the code only takes absolute values,
  negates constants and compares (against constants, and in
  `ClaudeController` `abs(vx)` against `abs(vy)`), all of which are exact.
- The fields `prev_altitude` and `prev_velocity` of `DeepSeekController` are
  written but never read. The model keeps them only to state what
  construction and `reset` do to them.
- Unreachable statements in the source (the doubled `return 0` at the end of
  the single-prompt and Claude controllers) have no counterpart. For Claude
  this is proved by `Claude.ControlIsRuleTable`.
- A table-driven backend that checks a synthesized transition table for
  totality and a one-hot output at construction: the repository has no such
  code, only the assumed `step`.
