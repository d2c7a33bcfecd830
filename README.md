# EEfRT trial core in Dafny

A model of the core of the EEfRT task (Effort-Expenditure for Rewards Task). A participant sees an offer: a probability of winning and a reward for the hard option. They choose an easy or a hard button-pressing task. They then press the effort key until the task's required press count is reached or its time limit passes. A completed task wins the chosen reward with the offer's probability.

Three source files make up the core:

- `src/utils.py`: the `Controller` class. It builds blocks of offers from the grid of probability levels times hard-reward levels, with a balanced remainder and an optional shuffle. It also draws forced choices and rewards from the block's seeded stream and records finished trials. Modelled as the class `OfferController.Controller` plus module-level functions and lemmas.
- `src/run_trial.py`: one trial. The offer condition is parsed. The choice is read, or forced when no choice key was pressed. Effort comes either from a simulated responder or from the live key-polling loop. The reward outcome and the trial record follow. Modelled in module `Trial`. The polling loop is a method with invariants (`Trial.PollEffort`). `Trial.RunTrial` assembles the record.
- `responders/task_sampler.py`: the simulated participant. A lapse rate applies. A logistic utility model makes the hard/easy choice, and a normally distributed press rate drives effort. Modelled in module `TaskSampler`: the class `TaskSamplerResponder` holds the session stream, and specification functions (`ActStep` and its parts) say what each reply is in terms of the draws it consumes.

Supporting modules:

- `Values`: Python's dynamic values and the conversions the core applies (truthiness, `float()`, `int()` truncation, `str().strip().lower()`).
- `RandomStream`: a seeded random stream as an object whose position advances one draw per call.
- `SimContracts`: the `Observation` and `Action` records exchanged with the responder.
- `Simulation`: properties of the sampler and the trial taken together.

Randomness is a parameter throughout. A `Generator` maps a seed to an infinite sequence of uniform draws in [0, 1) and of standard normal draws. `math.exp` is a parameter of type `TaskSampler.Exp`: positive, `exp(0) == 1`, `exp(x) * exp(-x) == 1`, monotone. The helpers `choose_fallback_key` and `reward_draw_win` that `run_trial` imports are function parameters of `Trial.RunTrial`. The keys pressed during the choice screen and during the effort window are inputs: a response option and a sequence of polls.

## Model

| member | source | states |
|---|---|---|
| OfferController.Controller.constructor | src/utils.py:11-31 | fields as given; `no_choice_hard_prob` clamped into [0, 1]; the base stream is a fresh `Random(0)`; no last block seed, zero completed trials, empty history |
| OfferController.ConfigFrom | src/utils.py:33-53 | fails with the set of extra keys exactly when a key outside the five allowed names is present; otherwise succeeds exactly when every conversion below succeeds, and fails, in Python's order, on `list()` of the probability levels, `list()` of the reward levels, `float()` of `no_choice_hard_prob`, then `float()` of some probability level and of some reward level, naming the field; on success the levels are the `float()` of each given (or default) list element and `no_choice_hard_prob` is the `float()` of the given value (0.5 when absent); an empty configuration gives the defaults; `randomize_order` and `enable_logging` are the truthiness of the given value, or true when absent |
| OfferController.LevelItems | src/utils.py:46-49 | `list(config.get(key, default))`: the default levels when the key is absent, the given list's items when it is a list, and a failure exactly when a present value is neither a list nor a string (any other value of the model is a non-iterable object) |
| OfferController.Controller.FromDict | src/utils.py:33-53 | fails exactly when `ConfigFrom` fails, with its error; otherwise a fresh, valid controller carrying the parsed levels and flags, with the probability clamped, the given generator, a fresh base stream seeded with 0 at position 0, no last block seed, no completed trials and an empty history |
| OfferController.FloatsOf | src/utils.py:29-30 | converting a list of values with `float()` succeeds iff every element converts, and then element `i` of the result is the `float()` of element `i` |
| OfferController.FloatsOfFloatValues | src/utils.py:29-30 | converting a list of floats gives back the same list |
| OfferController.Row | src/utils.py:59 | one grid row has one offer per hard reward, and offer `j` pairs the row's probability with reward `j` |
| OfferController.Product | src/utils.py:59-61 | the grid has `|ps| * |hs|` offers and is empty exactly when either level list is empty |
| OfferController.ProductAt | src/utils.py:59 | offer `i * |hs| + j` of the grid is `(ps[i], hs[j])`, in `itertools.product` order |
| OfferController.ProductMember | src/utils.py:59 | an offer is in the grid iff its probability is a level and its reward is a level |
| OfferController.ProductOnce | src/utils.py:59 | with distinct levels, each grid offer appears exactly once and nothing else appears |
| OfferController.RowOnce | src/utils.py:59 | with distinct rewards, a row holds each of its offers exactly once |
| OfferController.Repeat | src/utils.py:69 | `combos * reps` has `reps * |combos|` offers |
| OfferController.RepeatCount | src/utils.py:69 | `combos * reps` holds each offer `reps` times as often as `combos` does |
| OfferController.BlockOfParts | src/utils.py:67-76 | the repeated grid followed by a remainder of `n % |combos|` offers sampled without replacement is a block of `n` offers |
| OfferController.BlockReordered | src/utils.py:77-78 | a permutation of a block is still a block |
| OfferController.BlockBalance | src/utils.py:67-78 | in every block each grid cell appears at least `reps` and at most `reps + 1` times as often as in the grid |
| OfferController.BlockBalanceDistinct | src/utils.py:59-78 | with distinct levels, each grid offer appears `reps` or `reps + 1` times in a block and no other offer appears |
| OfferController.DrawBlock | src/utils.py:67-78 | the result is a block of `n` offers, unshuffled in grid order when not randomized; the stream advances by the remainder's sample size plus `n - 1` shuffle draws when randomized |
| OfferController.Controller.PrepareBlock | src/utils.py:55-89 | `n_trials <= 0` gives `[]` and changes nothing; an empty grid fails and changes nothing; otherwise the base stream is a fresh one seeded with `seed`, the last seed is recorded, and the result is a block over the grid |
| OfferController.FallbackKey | src/utils.py:91-92 | the result is one of the two keys; hard when the draw is below the probability; easy when the probability is at most 0; hard when it is at least 1 |
| OfferController.Controller.FallbackChoice | src/utils.py:91-92 | on a valid controller, the key is `FallbackKey` of the stream's next draw, always the easy key when the hard probability is 0; exactly one draw is consumed and the controller stays valid |
| OfferController.RewardWins | src/utils.py:94-96 | a win iff the draw is below the probability clamped into [0, 1]; never for probability at most 0, always for probability at least 1, never when the draw equals the probability |
| OfferController.Controller.DrawReward | src/utils.py:94-96 | on a valid controller, the outcome is `RewardWins` of the next draw; exactly one draw is consumed and the controller stays valid |
| OfferController.Controller.Update | src/utils.py:98-107 | one more completed trial; the summary is appended to the history; the stream and the last seed are unchanged |
| RandomStream.Rng.constructor | src/utils.py:63 | a stream seeded with `seed` at position 0 |
| RandomStream.Rng.Random | responders/task_sampler.py:60-64 | returns the draw at the current position and advances by one |
| RandomStream.Rng.Normal | responders/task_sampler.py:66-70 | returns `Gauss(mean, sd, z)`, i.e. `mean + sd * z`, for the normal draw `z` at the current position and advances by one |
| RandomStream.Rng.RandBelow | src/utils.py:73 | an index below `n` taken from the next draw; advances by one |
| RandomStream.Rng.Sample | src/utils.py:73 | `k` elements drawn without replacement: a sub-multiset of the population of size `k`; advances by `k` |
| RandomStream.Rng.Shuffle | src/utils.py:78 | the array afterwards is a permutation of before; advances by `length - 1` |
| RandomStream.ScaledIndex | src/utils.py:73 | an index scaled from a draw is below `n` |
| Values.Trunc | src/run_trial.py:86 | `int()` of a float truncates toward zero: within one below (or above, for negatives) the argument |
| Values.StripLeft | src/run_trial.py:32 | no longer than the input; the first remaining character is not white space |
| Values.StripRight | src/run_trial.py:32 | no longer than the input; the last remaining character is not white space |
| Values.StripLeftDropsSpace | src/run_trial.py:32 | the result is a suffix of the input and everything removed is white space |
| Values.StripRightDropsSpace | src/run_trial.py:32 | the result is a prefix of the input and everything removed is white space |
| Values.Strip | src/run_trial.py:32 | no longer than the input; neither end of the result is white space |
| Values.StripKeepsMiddle | src/run_trial.py:32 | the stripped text is a contiguous slice of the input, and everything before and after that slice is white space |
| Values.Lower | src/run_trial.py:32 | same length, lower-cased character by character, and no upper-case ASCII letter remains |
| Values.Clamp01 | src/utils.py:31 | `max(0, min(1, x))`: within [0, 1], the identity inside, 0 below, 1 above |
| Values.NatText | src/run_trial.py:30 | the decimal text of a number is a non-empty string of digits with a leading zero only for 0 |
| Values.NatTextValue | src/run_trial.py:30 | reading the decimal text back as digits gives the number |
| Trial.QaScaleDuration | src/run_trial.py:15-23 | without scaling: the duration, or 0 for a negative one; with scaling: the larger of the scaled duration and the frame floor, so at least each of them; positive when the frame period is |
| Trial.FramePeriod | src/run_trial.py:20 | the window's frame period when it is given and non-zero, else 1/60 s; never zero |
| Trial.ParseOfferCondition | src/run_trial.py:26-35 | a non-sequence or one with fewer than six items fails with the format error; a shaped condition is accepted iff items 0, 1 and 5 convert with `float()` and item 3 is `None` or converts with `int()`, and otherwise fails naming the first of fields 0, 1, 3, 5 that does not convert; on success the fields are the converted items; the trial index is absent iff item 3 is `None`; the fallback choice is item 4 stripped and lower-cased |
| Trial.ResponderActive | src/run_trial.py:293 | the same test as at line 48: a responder is active exactly when there is a context, it has a responder, and its mode is `qa` or `sim` |
| Trial.CountHint | src/run_trial.py:78-82 | no hint without a `press_count` entry; with one, its `int()`, which truncates a float toward zero |
| Trial.RateHint | src/run_trial.py:83-88 | no hint without a `press_rate_hz` entry; with one, its `float()` |
| Trial.PressCountFromAction | src/run_trial.py:73-92 | no key: zero presses and no RT; otherwise the RT is the action's or the default; a `press_count` hint gives its non-negative truncation; else a `press_rate_hz` hint gives `n` with `n <= rate * deadline < n + 1`, and exactly 0 when that product is negative; else as many whole intervals of `max(0.05, rt)` as fit in the deadline, and exactly 1 when one interval exceeds the deadline |
| Trial.RateCount | src/run_trial.py:83-86 | the whole presses in `x = max(0, rate) * deadline`: `n <= x < n + 1` when `x >= 0`, none when `x` is negative |
| Trial.RateCountBrackets | src/run_trial.py:83-86 | at a non-negative rate and deadline the count `n` satisfies `n <= rate * deadline < n + 1`; a negative deadline gives 0 |
| Trial.IntervalCount | src/run_trial.py:90-92 | at least one; when one interval fits, the whole intervals within the deadline, and exactly one when it does not |
| Trial.IntervalsFit | src/run_trial.py:90-92 | the fallback count of whole press intervals fits in the deadline, and one more does not |
| Trial.RateHintExample | src/run_trial.py:83-86 | 5 presses per second over 10 seconds give 50 presses |
| Trial.SimulatedEffort | src/run_trial.py:38-92 | without an active responder zero presses and no RT; with one, the press count and RT read from its action |
| Trial.PollsTaken | src/run_trial.py:321 | the number of polls the loop takes: every poll before it passes the loop test, the one at it fails it |
| Trial.NoPressesIffNoKeys | src/run_trial.py:332-334 | the press count over the polls is zero iff no poll read a key |
| Trial.FirstPressRtIsFirst | src/run_trial.py:333-339 | the recorded first-press RT is that of the first poll that read a key: its first key's RT, or that poll's clock reading when the RT is unreadable |
| Trial.PressesMonotone | src/run_trial.py:332-334 | the press count never decreases as polls accumulate |
| Trial.FirstRtIffPressed | src/run_trial.py:333-339 | a first-press RT is recorded iff at least one press was seen |
| Trial.FirstRtStable | src/run_trial.py:335-339 | once recorded, the first-press RT never changes |
| Trial.PollEffort | src/run_trial.py:315-342 | given clock readings that never go back and an end time no earlier than any of them: the press count and first RT are those of the polls taken before the loop test fails; the close time is the deadline when the requirement was not met, else the smaller of the deadline and the end time |
| Trial.Answered | src/run_trial.py:211 | a response answers the choice only if it is one of the first two choice keys; the first key always answers, and so does the second when there are two |
| Trial.OptionOf | src/run_trial.py:220 | the option is hard iff the chosen key is the hard key |
| Trial.EffortWindow | src/run_trial.py:292-342 | the close time never exceeds the deadline; with an active responder the effort is the simulated one, the close time is the deadline without a press and `min(deadline, max(first RT, 0.01))` after one; live, the effort is that of the polls taken, an RT is recorded iff a press was seen, and the close time is the deadline when the requirement was not met, else `min(deadline, end time)` |
| Trial.ChooseKey | src/run_trial.py:209-217 | the choice is forced iff the response is not one of the choice keys; unforced, the key is the response; forced, it is `choose_fallback_key` of the fallback choice and the easy and hard keys |
| Trial.RunTrial | src/run_trial.py:95-451 | parse and missing-key errors propagate; the record carries the offer's probability, hard reward, trial index and condition label and the settings' easy reward; the choice is forced iff the response is neither key, and then the fallback key is used; option, required presses, scaled deadline and reward follow the chosen option; the press count, first RT and close time are those of `EffortWindow` (simulated: the deadline without a press, else `min(deadline, max(first RT, 0.01))`; live: the deadline when the requirement was not met, else `min(deadline, end time)`); completed iff presses reach the requirement; a win iff completed and the draw wins; the amount is the chosen reward on a win, else 0; with a single choice key the option is always hard, provided `choose_fallback_key` returns one of the two keys it is given |
| TaskSampler.Sigmoid | responders/task_sampler.py:72-79 | strictly between 0 and 1, and equal to `1 / (1 + exp(-x))` on both branches |
| TaskSampler.SigmoidBranches | responders/task_sampler.py:78-79 | the negative-input branch `z / (1 + z)` equals `1 / (1 + exp(-x))` and lies in (0, 1) |
| TaskSampler.SigmoidZero | responders/task_sampler.py:72-79 | sigmoid of 0 is one half |
| TaskSampler.SigmoidSymmetric | responders/task_sampler.py:72-79 | `sigmoid(-x) == 1 - sigmoid(x)` |
| TaskSampler.SigmoidMonotone | responders/task_sampler.py:72-79 | sigmoid is monotone |
| TaskSampler.Clamp | responders/task_sampler.py:40-49 | the clamped parameters are well formed; keys, weights and the RT mean are unchanged; the lapse rate is clamped into [0, 1]; the choice RT sd and press-rate sd are `max(1e-6, v)`, the base press rate `max(0.1, v)`, the hard penalty `max(0, v)`, the minimum RT `max(0.01, v)` and the continue RT the larger of its value and the clamped minimum RT |
| TaskSampler.ClampKeepsWellFormed | responders/task_sampler.py:40-49 | clamping well-formed parameters changes nothing |
| TaskSampler.DefaultsWellFormed | responders/task_sampler.py:20-49 | the default parameters are left unchanged by clamping |
| TaskSampler.PhaseLabel | responders/task_sampler.py:152 | a non-empty phase gives the phase stripped and lower-cased; an empty phase gives the truthy `stage` factor's text stripped and lower-cased, and the empty label when there is none; the label has no upper-case letter |
| TaskSampler.PhaseOr | responders/task_sampler.py:84 | the label, or the default when it is empty; never empty |
| TaskSampler.FactorOr | responders/task_sampler.py:93-97 | the factor's `float()` when present, the default when absent |
| TaskSampler.ReadOffer | responders/task_sampler.py:93-97 | the offer is read iff all five factors convert; each field is then the `float()` of its factor, or its default when the factor is absent; no factors give the defaults 0.5, 2.0, 1.0, 30, 100 |
| TaskSampler.Utility | responders/task_sampler.py:99-104 | with a non-negative effort weight the utility never exceeds its bias, reward and probability terms (`Gain`), and equals them when the hard option asks no more presses than the easy one |
| TaskSampler.ExtraEffort | responders/task_sampler.py:103 | the extra presses of the hard option, `max(0, hard - easy)`: never negative, and 0 when the hard option asks no more |
| TaskSampler.PHard | responders/task_sampler.py:99-105 | the hard-choice probability is strictly between 0 and 1 |
| TaskSampler.HardRewardAttracts | responders/task_sampler.py:99-105 | with a non-negative reward weight, a larger hard reward never lowers the hard-choice probability |
| TaskSampler.HarderIsLessUseful | responders/task_sampler.py:99-104 | with a non-negative effort weight, a larger hard press requirement never raises the utility |
| TaskSampler.HardEffortDeters | responders/task_sampler.py:99-105 | with a non-negative effort weight, a larger hard press requirement never raises the hard-choice probability |
| TaskSampler.IndifferentResponder | responders/task_sampler.py:99-105 | with zero bias and weights, the hard-choice probability is one half |
| TaskSampler.EasyKeyIn | responders/task_sampler.py:85 | the easy key is a valid key; it is the configured key iff that is valid, else the first valid key |
| TaskSampler.HardKeyIn | responders/task_sampler.py:86 | the hard key is a valid key; it is the configured key iff that is valid, else the last valid key |
| TaskSampler.ChoiceMeta | responders/task_sampler.py:112-118 | the metadata records the chosen option and the hard-choice probability |
| TaskSampler.EffortMeta | responders/task_sampler.py:142-147 | the metadata records the sampled press rate and the option, and holds no press count |
| TaskSampler.ChoiceOptionOf | responders/task_sampler.py:132 | `"easy"` without a `choice_option` factor; otherwise the factor's text, which is the string itself for a string factor |
| TaskSampler.ChoiceAnswer | responders/task_sampler.py:105-119 | the key is a valid key, hard iff the draw is below the hard-choice probability; the RT is at least the minimum RT |
| TaskSampler.OfferAnswer | responders/task_sampler.py:93-119 | fails, drawing nothing, iff an offer factor does not convert; otherwise two draws, the uniform for the choice and the normal for the RT |
| TaskSampler.ChoiceStep | responders/task_sampler.py:81-119 | no valid keys: no draw and no key; a lapse draw gives no key after one draw; fails iff no lapse and the offer does not convert; an answer uses three draws, a valid key and an RT of at least the minimum |
| TaskSampler.MeanPressRate | responders/task_sampler.py:132-135 | the base rate, less the penalty for the hard option |
| TaskSampler.SampledRate | responders/task_sampler.py:136 | at least 0.3; either 0.3 or the normal sample around the mean rate |
| TaskSampler.EffortRt | responders/task_sampler.py:137 | at least the minimum RT and at least one press interval at the sampled rate; one of the two |
| TaskSampler.EffortStep | responders/task_sampler.py:121-148 | always a reply; no valid key: no draw and no key; a lapse gives no key after one draw; otherwise the effort key, `EffortRt` of the sampled rate and its metadata after two draws |
| TaskSampler.IntervalCoversRate | responders/task_sampler.py:137 | the RT interval at any rate covers at least one press at that rate |
| TaskSampler.ActStep | responders/task_sampler.py:150-166 | choice phases answer as `ChoiceStep`, effort phases as `EffortStep`; other phases give the first valid key with the continue RT, or no key |
| TaskSampler.ActKeepsToValidKeys | responders/task_sampler.py:150-166 | any key the responder gives is a valid key; its RT is at least the minimum RT; at most three draws are taken |
| TaskSampler.AlwaysLapses | responders/task_sampler.py:90-91 | with lapse rate 1, choice and effort phases never give a key |
| TaskSampler.NeverLapses | responders/task_sampler.py:129-130 | with lapse rate 0 and valid keys, effort phases and readable offers always give a key |
| TaskSampler.TaskSamplerResponder.constructor | responders/task_sampler.py:40-49 | the parameters are the clamped fields and there is no session stream |
| TaskSampler.TaskSamplerResponder.StartSession | responders/task_sampler.py:51-52 | the session stream is the one given |
| TaskSampler.TaskSamplerResponder.EndSession | responders/task_sampler.py:57-58 | the session stream is dropped |
| TaskSampler.TaskSamplerResponder.ChoiceAction | responders/task_sampler.py:81-119 | the reply and the draws consumed are those of `ChoiceStep` at the stream's position |
| TaskSampler.TaskSamplerResponder.AnswerOffer | responders/task_sampler.py:93-119 | the reply and the draws consumed are those of `OfferAnswer` at the stream's position |
| TaskSampler.TaskSamplerResponder.EffortAction | responders/task_sampler.py:121-148 | the reply and the draws consumed are those of `EffortStep` at the stream's position |
| TaskSampler.TaskSamplerResponder.Act | responders/task_sampler.py:150-166 | draws from the session stream, else the module stream; the reply and draws consumed are those of `ActStep` |
| Simulation.AnsweredOfferIsNotForced | src/run_trial.py:209-217 | when the sampler answers a choice screen with one or two keys, the trial does not force the choice |
| Simulation.AnyOfTwoKeysAnswers | src/run_trial.py:211 | with one or two choice keys, any of them answers the choice |
| Simulation.LapseIsForced | src/run_trial.py:209-217 | a lapse on the choice screen makes the trial force the choice |
| Simulation.EffortReplyPressCount | src/run_trial.py:83-86 | a non-lapsing effort reply makes the trial count `RateCount` of the responder's sampled rate, the whole presses at that rate within the deadline |
| Simulation.EffortReplyHints | responders/task_sampler.py:139-147 | a non-lapsing effort reply has a key, no `press_count` entry and its sampled rate as `press_rate_hz` |
| Simulation.RateHintCount | src/run_trial.py:83-86 | an action with a key, no count hint and a rate hint gives `RateCount` of that rate as the press count |

## Left out

- Python values other than `None`, booleans, integers, floats, strings, lists and tuples are modelled as one non-iterable, always truthy object. Dicts, sets, ranges and generators are not modelled, so `list()` of them, which Python accepts for the level lists, and the falsiness of an empty dict or set, as a `randomize_order` or `enable_logging` flag, are not captured.
- Python's Mersenne Twister, `random.sample`'s set/pool selection, `shuffle`'s index choice and `gauss` are not reproduced bit for bit. A stream is an abstract sequence of draws, and each index is one draw scaled to its range. CPython's `randbelow` may reject a draw and draw again, and its `sample` may switch to a set-based method that redraws on repeats, so its draw counts can be larger than the model's one draw per index.
- `rng.choices` in `prepare_block` (with-replacement remainder): unreachable because `n % len(combos) < len(combos)`; the model shows the branch is dead.
- `prepare_block`'s logging of the probability distribution and `update`'s logging: output only.
- The rounding of hard reward levels to two decimals in `__post_init__`: floating-point rounding is not modelled; levels are exact reals.
- `float()` of configuration lists converts each element; `str()` of floats and containers gives placeholder text, not Python's `repr`; text-to-number parsing (`float("0.5")`) is modelled as a failed conversion.
- `strip()` and `lower()` cover ASCII white space and ASCII letters only; Unicode case mapping and white space are not modelled.
- NaN, infinities and float overflow of `math.exp` are not modelled; reals are exact.
- `_random` and `_normal` test the session handle for `random` and `normal` attributes; the model assumes a present handle has both.
- `on_feedback` does nothing and has no counterpart.
- PsychoPy rendering, window flips, triggers, stimulus formatting, the absolute timestamps in the trial record, `next_trial_id`, `set_trial_context` and the cue, anticipation, feedback and inter-trial stages of `run_trial`: presentation and I/O with no effect on the modelled fields.
- `choose_fallback_key` and `reward_draw_win` are imported by `run_trial` from `src/utils.py`, but their definitions are not in the text of that file modelled here; they are parameters of `RunTrial`.
- The responder adapter between the context and the sampler (policy, RT clamping, logging) is not part of this model; the simulated effort reads the action the adapter returns, given as an input.
- Values.Strip: its own contract states only that neither end is white space; the kept middle and the white space removed around it are proved by `StripKeepsMiddle`, kept out of `Strip`'s contract so that its many callers need not carry them.
- Trial.PollEffort: the polls are given as a trace of the loop's passes; a trace that ends before any loop test fails stands for the clock having reached the deadline, so the close time is then the deadline.
- Trial.PollEffort: the RT fallback when a key event has no RT uses the clock reading of that poll's loop test rather than a second clock reading.
- Trial.RunTrial: the settings are typed values; the `int()`/`float()` conversions of settings attributes are not modelled.
- RandomStream.Rng.Sample: requires `k <= |population|` where Python raises; the only caller guarantees it.
- TaskSampler.ChoiceStep: states the key, the RT floor and the draws taken; the exact answer is stated by `OfferAnswer` and `ChoiceAnswer`.
- `main.py` (session set-up and the block loop) is not part of the core.
