/**
 * How the scripted responder's replies feed the trial: an answered offer is taken as the
 * participant's choice (never forced), and the press-rate hint of an effort reply becomes
 * the trial's press count.
 */
module Simulation {
  import opened Wrappers
  import opened Values
  import opened RandomStream
  import opened SimContracts
  import Trial
  import opened TaskSampler

  /**
   * When the responder is shown the trial's choice keys (at most two), any key it presses
   * is one the trial accepts, so the choice is not forced.
   */
  lemma AnsweredOfferIsNotForced(p: Params, exp: Exp, obs: Observation, d: Draws, at: nat)
    requires 1 <= |obs.validKeys| <= 2
    requires IsChoicePhase(PhaseLabel(obs))
    requires ActStep(p, exp, obs, d, at).reply.Success?
    requires ActStep(p, exp, obs, d, at).reply.value.key.Some?
    ensures Trial.Answered(ActStep(p, exp, obs, d, at).reply.value.key, obs.validKeys)
  {
    var key := ActStep(p, exp, obs, d, at).reply.value.key;
    assert key.value in obs.validKeys;
    AnyOfTwoKeysAnswers(key.value, obs.validKeys);
  }

  /** With at most two choice keys, pressing any of them answers the offer. */
  lemma AnyOfTwoKeysAnswers(k: string, keys: seq<string>)
    requires 1 <= |keys| <= 2 && k in keys
    ensures Trial.Answered(Some(k), keys)
  {
    if |keys| == 2 {
      assert k == keys[0] || k == keys[1];
    } else {
      assert k == keys[0];
    }
  }

  /** A lapse leaves no key, so the trial falls back to its own choice. */
  lemma LapseIsForced(p: Params, exp: Exp, obs: Observation, d: Draws, at: nat, choiceKeys: seq<string>)
    requires choiceKeys != [] && obs.validKeys != []
    requires IsChoicePhase(PhaseLabel(obs)) && d.uniform(at) < p.lapseRate
    ensures !Trial.Answered(ActStep(p, exp, obs, d, at).reply.value.key, choiceKeys)
  {
  }

  /**
   * The effort reply of a responder that did not lapse makes the trial count the whole
   * presses its sampled rate fits into the deadline (RateCountBrackets says what that count is).
   */
  lemma EffortReplyPressCount(p: Params, obs: Observation, d: Draws, at: nat, deadlineS: real, defaultRtS: real)
    requires obs.validKeys != [] && p.lapseRate <= d.uniform(at)
    ensures Trial.PressCountFromAction(EffortStep(p, obs, d, at).reply.value, deadlineS, defaultRtS).pressCount
      == Trial.RateCount(SampledRate(p, ChoiceOptionOf(obs.taskFactors), d.normal(at + 1)), deadlineS)
  {
    EffortReplyHints(p, obs, d, at);
    RateHintCount(EffortStep(p, obs, d, at).reply.value, deadlineS, defaultRtS,
      SampledRate(p, ChoiceOptionOf(obs.taskFactors), d.normal(at + 1)));
  }

  /** The effort reply of a responder that did not lapse has a key, no count hint and its sampled rate as rate hint. */
  lemma EffortReplyHints(p: Params, obs: Observation, d: Draws, at: nat)
    requires obs.validKeys != [] && p.lapseRate <= d.uniform(at)
    ensures var a := EffortStep(p, obs, d, at).reply.value;
      && a.key.Some?
      && Trial.CountHint(a.meta) == None
      && Trial.RateHint(a.meta) == Some(SampledRate(p, ChoiceOptionOf(obs.taskFactors), d.normal(at + 1)))
  {
  }

  /** A rate hint without a count hint sets the press count to the whole presses at that rate within the deadline. */
  lemma RateHintCount(a: Action, deadlineS: real, defaultRtS: real, rate: real)
    requires a.key.Some? && Trial.CountHint(a.meta) == None && Trial.RateHint(a.meta) == Some(rate)
    ensures Trial.PressCountFromAction(a, deadlineS, defaultRtS).pressCount == Trial.RateCount(rate, deadlineS)
  {
  }
}
