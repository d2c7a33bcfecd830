/**
 * The EEfRT scripted responder (responders/task_sampler.py): a logistic choice between the
 * easy and hard offer, a sampled press rate during the effort window, and a quick continue
 * key on every other screen. Each reply is first defined as a function of the parameters,
 * the observation and a stream of random draws (the step functions below); the responder
 * class draws from its session generator and is proved to return what the step function says.
 */
module TaskSampler {
  import opened Wrappers
  import opened Values
  import opened RandomStream
  import opened SimContracts

  // ---------------------------------------------------------------------------
  // The logistic function
  // ---------------------------------------------------------------------------

  /** What the model needs of math.exp: exp(0) == 1, positive, exp(x) * exp(-x) == 1, and monotone. */
  ghost predicate IsExp(f: real -> real)
  {
    && f(0.0) == 1.0
    && (forall x :: 0.0 < f(x))
    && (forall x, y :: x + y == 0.0 ==> f(x) * f(y) == 1.0)
    && (forall x, y :: x <= y ==> f(x) <= f(y))
  }

  /** An exponential function, passed in where the source calls math.exp. */
  type Exp = f: real -> real | IsExp(f) witness (x: real) => 1.0

  /**
   * The numerically stable sigmoid: 1 / (1 + exp(-x)) for x >= 0 and exp(x) / (1 + exp(x))
   * otherwise. Both branches agree with the textbook form, and the result is a probability.
   */
  function Sigmoid(exp: Exp, x: real): (s: real)
    ensures 0.0 < s < 1.0
    ensures s == 1.0 / (1.0 + exp(-x))
  {
    if x >= 0.0 then
      var z := exp(-x);
      1.0 / (1.0 + z)
    else
      var z := exp(x);
      SigmoidBranches(exp, x);
      z / (1.0 + z)
  }

  /** exp(x) / (1 + exp(x)) == 1 / (1 + exp(-x)). */
  lemma SigmoidBranches(exp: Exp, x: real)
    ensures 0.0 < exp(x) / (1.0 + exp(x)) < 1.0
    ensures exp(x) / (1.0 + exp(x)) == 1.0 / (1.0 + exp(-x))
  {
    var z, e := exp(x), exp(-x);
    assert z * e == 1.0;
    assert z * (1.0 + e) == 1.0 * (1.0 + z);
    CrossDivide(z, 1.0 + z, 1.0, 1.0 + e);
  }

  lemma CrossDivide(a: real, b: real, c: real, d: real)
    requires 0.0 < b && 0.0 < d && a * d == c * b
    ensures a / b == c / d
  {
    calc {
      a / b;
      (a * d) / (b * d);
      (c * b) / (b * d);
      c / d;
    }
  }

  /** At zero utility the sigmoid is even odds. */
  lemma SigmoidZero(exp: Exp)
    ensures Sigmoid(exp, 0.0) == 0.5
  {
    assert -0.0 == 0.0;
  }

  /** Negating the argument complements the probability. */
  lemma SigmoidSymmetric(exp: Exp, x: real)
    ensures Sigmoid(exp, -x) == 1.0 - Sigmoid(exp, x)
  {
    SigmoidBranches(exp, -x);
    assert - -x == x;
    var e := exp(-x);
    assert 1.0 - 1.0 / (1.0 + e) == e / (1.0 + e);
  }

  /** A larger argument never gives a smaller probability. */
  lemma SigmoidMonotone(exp: Exp, x: real, y: real)
    requires x <= y
    ensures Sigmoid(exp, x) <= Sigmoid(exp, y)
  {
    assert exp(-y) <= exp(-x);
    ReciprocalAntitone(1.0 + exp(-y), 1.0 + exp(-x));
  }

  lemma ReciprocalAntitone(a: real, b: real)
    requires 0.0 < a <= b
    ensures 1.0 / b <= 1.0 / a
  {
    assert 1.0 / b == (1.0 / a) * (a / b);
    assert a / b <= 1.0;
  }

  // ---------------------------------------------------------------------------
  // Parameters
  // ---------------------------------------------------------------------------

  /** The responder's dataclass fields. */
  datatype Params = Params(
    easyKey: string,
    hardKey: string,
    effortKey: string,
    lapseRate: real,
    choiceRtMeanS: real,
    choiceRtSdS: real,
    hardChoiceBias: real,
    hardChoiceRewardWeight: real,
    hardChoiceProbWeight: real,
    hardChoiceEffortWeight: real,
    basePressRateHz: real,
    hardPressRatePenaltyHz: real,
    pressRateSdHz: real,
    minRtS: real,
    continueRtS: real)

  const DefaultParams := Params("f", "j", "space", 0.03, 0.45, 0.08, -0.3, 0.45, 1.8, 0.05, 8.5, 1.2, 0.8, 0.08, 0.2)

  const MinSd: real := 0.000001

  /** The ranges __post_init__ establishes. */
  predicate WellFormed(p: Params)
  {
    && 0.0 <= p.lapseRate <= 1.0
    && MinSd <= p.choiceRtSdS
    && 0.1 <= p.basePressRateHz
    && 0.0 <= p.hardPressRatePenaltyHz
    && MinSd <= p.pressRateSdHz
    && 0.01 <= p.minRtS
    && p.minRtS <= p.continueRtS
  }

  /** __post_init__: each out-of-range field is moved to the nearest bound; the rest is kept. */
  function Clamp(p: Params): (q: Params)
    ensures WellFormed(q)
    ensures q.easyKey == p.easyKey && q.hardKey == p.hardKey && q.effortKey == p.effortKey
    ensures q.choiceRtMeanS == p.choiceRtMeanS && q.hardChoiceBias == p.hardChoiceBias
    ensures q.hardChoiceRewardWeight == p.hardChoiceRewardWeight && q.hardChoiceProbWeight == p.hardChoiceProbWeight
    ensures q.hardChoiceEffortWeight == p.hardChoiceEffortWeight
    ensures q.lapseRate == Clamp01(p.lapseRate)
    ensures q.choiceRtSdS == Max(MinSd, p.choiceRtSdS)
    ensures q.basePressRateHz == Max(0.1, p.basePressRateHz)
    ensures q.hardPressRatePenaltyHz == Max(0.0, p.hardPressRatePenaltyHz)
    ensures q.pressRateSdHz == Max(MinSd, p.pressRateSdHz)
    ensures q.minRtS == Max(0.01, p.minRtS)
    ensures q.continueRtS == Max(q.minRtS, p.continueRtS)
  {
    var minRt := Max(0.01, p.minRtS);
    p.(lapseRate := Clamp01(p.lapseRate),
       choiceRtSdS := Max(MinSd, p.choiceRtSdS),
       basePressRateHz := Max(0.1, p.basePressRateHz),
       hardPressRatePenaltyHz := Max(0.0, p.hardPressRatePenaltyHz),
       pressRateSdHz := Max(MinSd, p.pressRateSdHz),
       minRtS := minRt,
       continueRtS := Max(minRt, p.continueRtS))
  }

  /** Parameters already in range are left exactly as they are, so clamping twice is clamping once. */
  lemma ClampKeepsWellFormed(p: Params)
    requires WellFormed(p)
    ensures Clamp(p) == p
  {
  }

  /** The defaults are in range. */
  lemma DefaultsWellFormed()
    ensures Clamp(DefaultParams) == DefaultParams
  {
    ClampKeepsWellFormed(DefaultParams);
  }

  // ---------------------------------------------------------------------------
  // Reading the observation
  // ---------------------------------------------------------------------------

  const SamplerTag := PyStr("eefrt_sampler")

  /** The phase label: the observation's phase, else a truthy "stage" factor, stripped and lower-cased. */
  function PhaseLabel(obs: Observation): (name: string)
    ensures obs.phase != "" ==> name == Lower(Strip(obs.phase))
    ensures obs.phase == "" && "stage" in obs.taskFactors && Truthy(obs.taskFactors["stage"]) ==>
      name == Lower(Strip(Str(obs.taskFactors["stage"])))
    ensures obs.phase == "" && !("stage" in obs.taskFactors && Truthy(obs.taskFactors["stage"])) ==> name == ""
    ensures forall i :: 0 <= i < |name| ==> !('A' <= name[i] <= 'Z')
  {
    var raw :=
      if obs.phase != "" then obs.phase
      else if "stage" in obs.taskFactors && Truthy(obs.taskFactors["stage"]) then Str(obs.taskFactors["stage"])
      else "";
    Lower(Strip(raw))
  }

  /** The phase label, or the given default when it is empty. */
  function PhaseOr(obs: Observation, default: string): (name: string)
    requires default != ""
    ensures name != ""
    ensures PhaseLabel(obs) != "" ==> name == PhaseLabel(obs)
    ensures PhaseLabel(obs) == "" ==> name == default
  {
    if PhaseLabel(obs) == "" then default else PhaseLabel(obs)
  }

  /** float(factors.get(key, default)); None where the conversion raises. */
  function FactorOr(factors: map<string, Value>, key: string, default: real): (r: Option<real>)
    ensures key !in factors ==> r == Some(default)
    ensures key in factors ==> r == AsFloat(factors[key])
  {
    if key in factors then AsFloat(factors[key]) else Some(default)
  }

  /** The offer as the choice model reads it. */
  datatype OfferView = OfferView(
    probability: real,
    hardReward: real,
    easyReward: real,
    easyRequired: real,
    hardRequired: real)

  /** The five offer factors with their defaults (0.5, 2.0, 1.0, 30, 100); None if any fails to convert. */
  function ReadOffer(factors: map<string, Value>): (r: Option<OfferView>)
    ensures r.Some? <==>
      && FactorOr(factors, "offer_probability", 0.5).Some?
      && FactorOr(factors, "offer_hard_reward", 2.0).Some?
      && FactorOr(factors, "offer_easy_reward", 1.0).Some?
      && FactorOr(factors, "easy_required_presses", 30.0).Some?
      && FactorOr(factors, "hard_required_presses", 100.0).Some?
    ensures factors == map[] ==> r == Some(OfferView(0.5, 2.0, 1.0, 30.0, 100.0))
    ensures r.Some? ==> r.value == OfferView(
      FactorOr(factors, "offer_probability", 0.5).value,
      FactorOr(factors, "offer_hard_reward", 2.0).value,
      FactorOr(factors, "offer_easy_reward", 1.0).value,
      FactorOr(factors, "easy_required_presses", 30.0).value,
      FactorOr(factors, "hard_required_presses", 100.0).value)
  {
    var probability := FactorOr(factors, "offer_probability", 0.5);
    var hardReward := FactorOr(factors, "offer_hard_reward", 2.0);
    var easyReward := FactorOr(factors, "offer_easy_reward", 1.0);
    var easyRequired := FactorOr(factors, "easy_required_presses", 30.0);
    var hardRequired := FactorOr(factors, "hard_required_presses", 100.0);
    if probability.None? || hardReward.None? || easyReward.None? || easyRequired.None? || hardRequired.None? then None
    else Some(OfferView(probability.value, hardReward.value, easyReward.value, easyRequired.value, hardRequired.value))
  }

  // ---------------------------------------------------------------------------
  // The choice model
  // ---------------------------------------------------------------------------

  /** The utility of the hard option: a bias, plus weighted reward and probability terms, minus a weighted extra-effort term. */
  function Utility(p: Params, offer: OfferView): (u: real)
    ensures 0.0 <= p.hardChoiceEffortWeight ==> u <= Gain(p, offer)
    ensures offer.hardRequired <= offer.easyRequired ==> u == Gain(p, offer)
  {
    var extra := ExtraEffort(offer);
    assert 0.0 <= p.hardChoiceEffortWeight ==> 0.0 <= p.hardChoiceEffortWeight * extra by {
      if 0.0 <= p.hardChoiceEffortWeight {
        ScaleMonotone(p.hardChoiceEffortWeight, 0.0, extra);
      }
    }
    Gain(p, offer) - p.hardChoiceEffortWeight * extra
  }

  /** The utility's terms other than effort: the bias and the weighted reward and probability terms. */
  function Gain(p: Params, offer: OfferView): real
  {
    p.hardChoiceBias
    + p.hardChoiceRewardWeight * (offer.hardReward - offer.easyReward)
    + p.hardChoiceProbWeight * (offer.probability - 0.5)
  }

  /** The presses the hard option asks beyond the easy one, never negative. */
  function ExtraEffort(offer: OfferView): (e: real)
    ensures 0.0 <= e
    ensures offer.hardRequired <= offer.easyRequired ==> e == 0.0
  {
    Max(0.0, offer.hardRequired - offer.easyRequired)
  }

  /** The probability of choosing the hard option. */
  function PHard(p: Params, exp: Exp, offer: OfferView): (q: real)
    ensures 0.0 < q < 1.0
  {
    Sigmoid(exp, Utility(p, offer))
  }

  /** Scaling by a non-negative weight keeps order. */
  lemma ScaleMonotone(w: real, x: real, y: real)
    requires 0.0 <= w && x <= y
    ensures w * x <= w * y
  {
    assert w * y - w * x == w * (y - x);
  }

  /** With a non-negative reward weight, a larger hard reward never makes the hard option less likely. */
  lemma HardRewardAttracts(p: Params, exp: Exp, offer: OfferView, more: real)
    requires 0.0 <= p.hardChoiceRewardWeight && offer.hardReward <= more
    ensures PHard(p, exp, offer) <= PHard(p, exp, offer.(hardReward := more))
  {
    var w := p.hardChoiceRewardWeight;
    var richer := offer.(hardReward := more);
    ScaleMonotone(w, offer.hardReward - offer.easyReward, more - offer.easyReward);
    assert Gain(p, richer) - Gain(p, offer)
      == w * (more - offer.easyReward) - w * (offer.hardReward - offer.easyReward);
    assert ExtraEffort(richer) == ExtraEffort(offer);
    SigmoidMonotone(exp, Utility(p, offer), Utility(p, richer));
  }

  /** With a non-negative effort weight, a larger hard press requirement never raises the utility. */
  lemma HarderIsLessUseful(p: Params, offer: OfferView, more: real)
    requires 0.0 <= p.hardChoiceEffortWeight && offer.hardRequired <= more
    ensures Utility(p, offer.(hardRequired := more)) <= Utility(p, offer)
  {
    var harder := offer.(hardRequired := more);
    var a, b := ExtraEffort(offer), ExtraEffort(harder);
    assert a <= b;
    ScaleMonotone(p.hardChoiceEffortWeight, a, b);
    assert Gain(p, harder) == Gain(p, offer);
  }

  /** With a non-negative effort weight, a larger hard press requirement never makes the hard option more likely. */
  lemma HardEffortDeters(p: Params, exp: Exp, offer: OfferView, more: real)
    requires 0.0 <= p.hardChoiceEffortWeight && offer.hardRequired <= more
    ensures PHard(p, exp, offer.(hardRequired := more)) <= PHard(p, exp, offer)
  {
    var harder := offer.(hardRequired := more);
    HarderIsLessUseful(p, offer, more);
    SigmoidMonotone(exp, Utility(p, harder), Utility(p, offer));
  }

  /** With no bias and no weights, the hard option is chosen with even odds. */
  lemma IndifferentResponder(p: Params, exp: Exp, offer: OfferView)
    requires p.hardChoiceBias == 0.0 && p.hardChoiceRewardWeight == 0.0
    requires p.hardChoiceProbWeight == 0.0 && p.hardChoiceEffortWeight == 0.0
    ensures PHard(p, exp, offer) == 0.5
  {
    SigmoidZero(exp);
  }

  /** The key standing for the easy option: the configured one if it is valid, else the first valid key. */
  function EasyKeyIn(p: Params, valid: seq<string>): (k: string)
    requires valid != []
    ensures k in valid
    ensures k == p.easyKey <==> p.easyKey in valid
    ensures p.easyKey !in valid ==> k == valid[0]
  {
    if p.easyKey in valid then p.easyKey else valid[0]
  }

  /** The key standing for the hard option: the configured one if it is valid, else the last valid key. */
  function HardKeyIn(p: Params, valid: seq<string>): (k: string)
    requires valid != []
    ensures k in valid
    ensures k == p.hardKey <==> p.hardKey in valid
    ensures p.hardKey !in valid ==> k == valid[|valid| - 1]
  {
    if p.hardKey in valid then p.hardKey else valid[|valid| - 1]
  }

  // ---------------------------------------------------------------------------
  // The replies, as functions of the draws
  // ---------------------------------------------------------------------------

  /** A reply (or the error the source raises) and the number of random draws it took. */
  datatype Step = Step(reply: Result<Action, string>, draws: nat)

  function Keyless(meta: map<string, Value>): Action
  {
    Action(None, None, meta)
  }

  function ReasonMeta(reason: string): map<string, Value>
  {
    map["source" := SamplerTag, "reason" := PyStr(reason)]
  }

  function ChoiceMeta(phase: string, pHard: real, utility: real, chooseHard: bool): (m: map<string, Value>)
    ensures "choice_option" in m && m["choice_option"] == PyStr(if chooseHard then "hard" else "easy")
    ensures "p_hard" in m && m["p_hard"] == PyFloat(pHard)
  {
    map["source" := SamplerTag, "phase" := PyStr(phase), "p_hard" := PyFloat(pHard),
        "utility_hard" := PyFloat(utility), "choice_option" := PyStr(if chooseHard then "hard" else "easy")]
  }

  function EffortMeta(phase: string, rate: real, option: string): (m: map<string, Value>)
    ensures "press_rate_hz" in m && m["press_rate_hz"] == PyFloat(rate)
    ensures "choice_option" in m && m["choice_option"] == PyStr(option)
    ensures "press_count" !in m
  {
    map["source" := SamplerTag, "phase" := PyStr(phase), "press_rate_hz" := PyFloat(rate),
        "choice_option" := PyStr(option)]
  }

  function OutcomeMeta(phase: string, outcome: string): map<string, Value>
  {
    map["source" := SamplerTag, "phase" := PyStr(phase), "outcome" := PyStr(outcome)]
  }

  /**
   * The answer to an offer once the responder has not lapsed: the hard key when the uniform
   * draw v falls below the hard-choice probability, else the easy key; the RT is the normal
   * sample x, floored at min_rt.
   */
  function ChoiceAnswer(p: Params, exp: Exp, obs: Observation, offer: OfferView, v: real, x: real): (a: Action)
    requires obs.validKeys != []
    ensures a.key.Some? && a.key.value in obs.validKeys
    ensures a.rtS.Some? && p.minRtS <= a.rtS.value
    ensures var chooseHard := v < PHard(p, exp, offer);
      && a.key == Some(if chooseHard then HardKeyIn(p, obs.validKeys) else EasyKeyIn(p, obs.validKeys))
      && a.rtS == Some(Max(p.minRtS, x))
      && a.meta == ChoiceMeta(PhaseOr(obs, "offer_choice"), PHard(p, exp, offer), Utility(p, offer), chooseHard)
  {
    var pHard := PHard(p, exp, offer);
    var chooseHard := v < pHard;
    var key := if chooseHard then HardKeyIn(p, obs.validKeys) else EasyKeyIn(p, obs.validKeys);
    Action(Some(key), Some(Max(p.minRtS, x)), ChoiceMeta(PhaseOr(obs, "offer_choice"), pHard, Utility(p, offer), chooseHard))
  }

  /**
   * What follows a non-lapse, reading draws d from position at: an error when an offer
   * factor does not convert (no further draw), else the answer given by a uniform and a normal draw.
   */
  function OfferAnswer(p: Params, exp: Exp, obs: Observation, d: Draws, at: nat): (s: Step)
    requires obs.validKeys != []
    ensures s.reply.Failure? <==> ReadOffer(obs.taskFactors).None?
    ensures s.reply.Failure? ==> s.draws == 0
    ensures s.reply.Success? ==>
      && s.draws == 2
      && s.reply.value == ChoiceAnswer(p, exp, obs, ReadOffer(obs.taskFactors).value,
           d.uniform(at), Gauss(p.choiceRtMeanS, p.choiceRtSdS, d.normal(at + 1)))
  {
    match ReadOffer(obs.taskFactors)
    case None => Step(Failure("offer factor is not a number"), 0)
    case Some(offer) =>
      var x := Gauss(p.choiceRtMeanS, p.choiceRtSdS, d.normal(at + 1));
      Step(Success(ChoiceAnswer(p, exp, obs, offer, d.uniform(at), x)), 2)
  }

  /**
   * _choice_action, reading draws d from position at: with no valid key, no reply and no
   * draw; a lapse when the first uniform falls below the lapse rate; else the offer's answer.
   */
  function ChoiceStep(p: Params, exp: Exp, obs: Observation, d: Draws, at: nat): (s: Step)
    ensures obs.validKeys == [] ==> s.draws == 0 && s.reply.Success? && s.reply.value.key.None?
    ensures obs.validKeys != [] && d.uniform(at) < p.lapseRate ==>
      s == Step(Success(Keyless(OutcomeMeta(PhaseOr(obs, "offer_choice"), "lapse"))), 1)
    ensures s.reply.Failure? <==> obs.validKeys != [] && p.lapseRate <= d.uniform(at) && ReadOffer(obs.taskFactors).None?
    ensures s.reply.Success? && s.reply.value.key.Some? ==>
      && s.draws == 3
      && s.reply.value.key.value in obs.validKeys
      && s.reply.value.rtS.Some? && p.minRtS <= s.reply.value.rtS.value
  {
    var valid := obs.validKeys;
    if valid == [] then
      Step(Success(Keyless(ReasonMeta("no_valid_choice_keys"))), 0)
    else if d.uniform(at) < p.lapseRate then
      Step(Success(Keyless(OutcomeMeta(PhaseOr(obs, "offer_choice"), "lapse"))), 1)
    else
      var answer := OfferAnswer(p, exp, obs, d, at + 1);
      Step(answer.reply, answer.draws + 1)
  }

  /** The option the effort factors name: str(factors["choice_option"]), default "easy". */
  function ChoiceOptionOf(factors: map<string, Value>): (option: string)
    ensures "choice_option" !in factors ==> option == "easy"
    ensures "choice_option" in factors ==> option == Str(factors["choice_option"])
    ensures "choice_option" in factors && factors["choice_option"].PyStr? ==> option == factors["choice_option"].s
  {
    if "choice_option" in factors then Str(factors["choice_option"]) else "easy"
  }

  /** The mean press rate for an option: the base rate, less the penalty exactly when the option is "hard". */
  function MeanPressRate(p: Params, option: string): (rate: real)
    ensures option == "hard" ==> rate == p.basePressRateHz - p.hardPressRatePenaltyHz
    ensures option != "hard" ==> rate == p.basePressRateHz
    ensures WellFormed(p) ==> rate <= p.basePressRateHz
  {
    if option == "hard" then p.basePressRateHz - p.hardPressRatePenaltyHz else p.basePressRateHz
  }

  /** The sampled press rate: a normal draw around the option's mean rate, never below 0.3 Hz. */
  function SampledRate(p: Params, option: string, z: real): (rate: real)
    ensures 0.3 <= rate
    ensures rate == 0.3 || rate == MeanPressRate(p, option) + p.pressRateSdHz * z
  {
    Max(0.3, Gauss(MeanPressRate(p, option), p.pressRateSdHz, z))
  }

  /** A normal draw around the option's mean rate, floored at 0.3 Hz, is the sampled rate. */
  lemma SampledRateOfDraw(p: Params, option: string, z: real, x: real)
    requires x == Gauss(MeanPressRate(p, option), p.pressRateSdHz, z)
    ensures Max(0.3, x) == SampledRate(p, option, z)
  {
  }

  /** The effort RT: one inter-press interval, but never less than min_rt. */
  function EffortRt(p: Params, rate: real): (rt: real)
    requires 0.0 < rate
    ensures p.minRtS <= rt && 1.0 <= rt * rate
    ensures rt == p.minRtS || rt == 1.0 / rate
  {
    IntervalCoversRate(rate, p.minRtS);
    Max(p.minRtS, 1.0 / rate)
  }

  /**
   * _effort_action, reading draws d from position at: the effort key (or the first valid key)
   * with a sampled press rate and an RT of one inter-press interval.
   */
  function EffortStep(p: Params, obs: Observation, d: Draws, at: nat): (s: Step)
    ensures s.reply.Success?
    ensures obs.validKeys == [] ==> s.draws == 0 && s.reply.value.key.None?
    ensures obs.validKeys != [] && d.uniform(at) < p.lapseRate ==>
      s == Step(Success(Keyless(OutcomeMeta(PhaseOr(obs, "effort_execution_window"), "lapse"))), 1)
    ensures obs.validKeys != [] && p.lapseRate <= d.uniform(at) ==>
      var a := s.reply.value;
      var option := ChoiceOptionOf(obs.taskFactors);
      var rate := SampledRate(p, option, d.normal(at + 1));
      && s.draws == 2
      && a.key == Some(if p.effortKey in obs.validKeys then p.effortKey else obs.validKeys[0])
      && a.rtS == Some(EffortRt(p, rate))
      && a.meta == EffortMeta(PhaseOr(obs, "effort_execution_window"), rate, option)
  {
    var valid := obs.validKeys;
    var phase := PhaseOr(obs, "effort_execution_window");
    if valid == [] then
      Step(Success(Keyless(ReasonMeta("no_valid_effort_key"))), 0)
    else if d.uniform(at) < p.lapseRate then
      Step(Success(Keyless(OutcomeMeta(phase, "lapse"))), 1)
    else
      var key := if p.effortKey in valid then p.effortKey else valid[0];
      var option := ChoiceOptionOf(obs.taskFactors);
      var rate := SampledRate(p, option, d.normal(at + 1));
      Step(Success(Action(Some(key), Some(EffortRt(p, rate)), EffortMeta(phase, rate, option))), 2)
  }

  /** An RT of at least one inter-press interval times the rate is at least one. */
  lemma IntervalCoversRate(rate: real, minRt: real)
    requires 0.0 < rate
    ensures 1.0 <= Max(minRt, 1.0 / rate) * rate
  {
    var rt := Max(minRt, 1.0 / rate);
    assert 1.0 / rate * rate == 1.0;
    assert 1.0 / rate * rate <= rt * rate;
  }

  predicate IsChoicePhase(phase: string)
  {
    phase == "offer_choice" || phase == "anticipation"
  }

  predicate IsEffortPhase(phase: string)
  {
    phase == "effort_execution_window" || phase == "target"
  }

  /** act: the choice reply in the offer and anticipation phases, the effort reply in the effort phases, else a continue key. */
  function ActStep(p: Params, exp: Exp, obs: Observation, d: Draws, at: nat): (s: Step)
    ensures IsChoicePhase(PhaseLabel(obs)) ==> s == ChoiceStep(p, exp, obs, d, at)
    ensures IsEffortPhase(PhaseLabel(obs)) ==> s == EffortStep(p, obs, d, at)
    ensures !IsChoicePhase(PhaseLabel(obs)) && !IsEffortPhase(PhaseLabel(obs)) ==>
      && s.draws == 0 && s.reply.Success?
      && (obs.validKeys != [] <==> s.reply.value.key.Some?)
      && (obs.validKeys != [] ==> s.reply.value.key == Some(obs.validKeys[0]) && s.reply.value.rtS == Some(p.continueRtS))
  {
    var phase := PhaseLabel(obs);
    var valid := obs.validKeys;
    if IsChoicePhase(phase) then ChoiceStep(p, exp, obs, d, at)
    else if IsEffortPhase(phase) then EffortStep(p, obs, d, at)
    else if valid != [] then
      Step(Success(Action(Some(valid[0]), Some(p.continueRtS),
        OutcomeMeta(phase, "continue"))), 0)
    else
      Step(Success(Keyless(OutcomeMeta(phase, "no_response"))), 0)
  }

  /**
   * Whatever the phase and the draws, a well-formed responder never presses a key the
   * observation does not offer, never answers faster than min_rt, and draws at most three times.
   */
  lemma {:induction false} ActKeepsToValidKeys(p: Params, exp: Exp, obs: Observation, d: Draws, at: nat)
    requires WellFormed(p)
    ensures var s := ActStep(p, exp, obs, d, at);
      && s.draws <= 3
      && (s.reply.Success? && s.reply.value.key.Some? ==>
           s.reply.value.key.value in obs.validKeys
           && s.reply.value.rtS.Some? && p.minRtS <= s.reply.value.rtS.value)
  {
    var s := ActStep(p, exp, obs, d, at);
    if IsChoicePhase(PhaseLabel(obs)) {
    } else if IsEffortPhase(PhaseLabel(obs)) {
      var e := EffortStep(p, obs, d, at);
      if obs.validKeys != [] && p.lapseRate <= d.uniform(at) {
        assert e.reply.value.rtS.value >= p.minRtS;
      }
    }
  }

  /** A lapse rate of one means the responder never answers an offer or an effort window. */
  lemma AlwaysLapses(p: Params, exp: Exp, obs: Observation, d: Draws, at: nat)
    requires p.lapseRate == 1.0
    requires IsChoicePhase(PhaseLabel(obs)) || IsEffortPhase(PhaseLabel(obs))
    ensures ActStep(p, exp, obs, d, at).reply == Success(ActStep(p, exp, obs, d, at).reply.value)
    ensures ActStep(p, exp, obs, d, at).reply.value.key.None?
  {
  }

  /** A lapse rate of zero means every offer with a valid key and readable factors is answered. */
  lemma NeverLapses(p: Params, exp: Exp, obs: Observation, d: Draws, at: nat)
    requires p.lapseRate == 0.0 && obs.validKeys != []
    requires IsEffortPhase(PhaseLabel(obs)) || (IsChoicePhase(PhaseLabel(obs)) && ReadOffer(obs.taskFactors).Some?)
    ensures ActStep(p, exp, obs, d, at).reply.Success?
    ensures ActStep(p, exp, obs, d, at).reply.value.key.Some?
  {
  }

  // ---------------------------------------------------------------------------
  // The responder
  // ---------------------------------------------------------------------------

  /**
   * The responder object: its clamped parameters and the generator of the current session
   * (null outside a session). Draws come from the session generator, or from the ambient
   * module-level generator when there is none.
   */
  class TaskSamplerResponder {
    const params: Params
    var rng: Rng?

    /** The dataclass constructor followed by __post_init__. */
    constructor(fields: Params)
      ensures params == Clamp(fields) && WellFormed(params)
      ensures rng == null
    {
      params := Clamp(fields);
      rng := null;
    }

    method StartSession(sessionRng: Rng?)
      modifies this
      ensures rng == sessionRng
    {
      rng := sessionRng;
    }

    method EndSession()
      modifies this
      ensures rng == null
    {
      rng := null;
    }

    /** Where draws come from: the session generator, else the ambient one. */
    function DrawSource(ambient: Rng): Rng
      reads this
    {
      if rng != null then rng else ambient
    }

    /** _choice_action, drawing from src. */
    method ChoiceAction(obs: Observation, exp: Exp, src: Rng) returns (r: Result<Action, string>)
      modifies src
      ensures var s := ChoiceStep(params, exp, obs, src.draws, old(src.used));
        r == s.reply && src.used == old(src.used) + s.draws
    {
      var valid := obs.validKeys;
      if valid == [] {
        return Success(Keyless(ReasonMeta("no_valid_choice_keys")));
      }
      var u := src.Random();
      if u < params.lapseRate {
        return Success(Keyless(OutcomeMeta(PhaseOr(obs, "offer_choice"), "lapse")));
      }
      r := AnswerOffer(obs, exp, src);
    }

    /** The rest of _choice_action once the responder has not lapsed: read the offer, then draw the option and the RT. */
    method AnswerOffer(obs: Observation, exp: Exp, src: Rng) returns (r: Result<Action, string>)
      requires obs.validKeys != []
      modifies src
      ensures var s := OfferAnswer(params, exp, obs, src.draws, old(src.used));
        r == s.reply && src.used == old(src.used) + s.draws
    {
      var offer := ReadOffer(obs.taskFactors);
      if offer.None? {
        return Failure("offer factor is not a number");
      }
      var v := src.Random();
      var x := src.Normal(params.choiceRtMeanS, params.choiceRtSdS);
      assert v == src.draws.uniform(old(src.used));
      assert x == Gauss(params.choiceRtMeanS, params.choiceRtSdS, src.draws.normal(old(src.used) + 1));
      r := Success(ChoiceAnswer(params, exp, obs, offer.value, v, x));
    }

    /** _effort_action, drawing from src. */
    method EffortAction(obs: Observation, src: Rng) returns (a: Action)
      modifies src
      ensures var s := EffortStep(params, obs, src.draws, old(src.used));
        Success(a) == s.reply && src.used == old(src.used) + s.draws
    {
      ghost var at, d := src.used, src.draws;
      var valid := obs.validKeys;
      var phase := PhaseOr(obs, "effort_execution_window");
      if valid == [] {
        return Keyless(ReasonMeta("no_valid_effort_key"));
      }
      var effortKey := if params.effortKey in valid then params.effortKey else valid[0];
      var u := src.Random();
      if u < params.lapseRate {
        return Keyless(OutcomeMeta(phase, "lapse"));
      }
      var option := ChoiceOptionOf(obs.taskFactors);
      var baseRate := MeanPressRate(params, option);
      ghost var z := d.normal(at + 1);
      var x := src.Normal(baseRate, params.pressRateSdHz);
      var rate := Max(0.3, x);
      SampledRateOfDraw(params, option, z, x);
      var rt := EffortRt(params, rate);
      a := Action(Some(effortKey), Some(rt), EffortMeta(phase, rate, option));
      assert EffortStep(params, obs, d, at) == Step(Success(a), 2);
    }

    /**
     * act: dispatch on the phase. Draws come from the session generator, or from the
     * ambient one when no session generator is set.
     */
    method Act(obs: Observation, exp: Exp, ambient: Rng) returns (r: Result<Action, string>)
      modifies DrawSource(ambient)
      ensures var s := ActStep(params, exp, obs, DrawSource(ambient).draws, old(DrawSource(ambient).used));
        r == s.reply && DrawSource(ambient).used == old(DrawSource(ambient).used) + s.draws
    {
      var src := DrawSource(ambient);
      var phase := PhaseLabel(obs);
      var valid := obs.validKeys;
      if IsChoicePhase(phase) {
        r := ChoiceAction(obs, exp, src);
      } else if IsEffortPhase(phase) {
        var a := EffortAction(obs, src);
        r := Success(a);
      } else if valid != [] {
        r := Success(Action(Some(valid[0]), Some(params.continueRtS),
          OutcomeMeta(phase, "continue")));
      } else {
        r := Success(Keyless(OutcomeMeta(phase, "no_response")));
      }
    }
  }
}
