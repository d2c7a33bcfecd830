/**
 * The decision spine of one EEfRT trial (src/run_trial.py): the offer is parsed, a choice
 * is taken (or forced), the chosen option fixes the press requirement, deadline and reward,
 * the effort window yields a press count (from a simulated action or from live key polling),
 * and the reward is won only when the effort was completed. Rendering, triggers and the
 * stimulus bank are not part of this model.
 */
module Trial {
  import opened Wrappers
  import opened Values
  import opened SimContracts

  /** The simulation context get_context() returns: its mode, whether a responder is attached, and its timing settings. */
  datatype SimContext = SimContext(
    mode: string,
    hasResponder: bool,
    enableScaling: bool,
    minFrames: int,
    timingScale: real,
    defaultRtS: real)

  /** One offer as parse_offer_condition returns it. */
  datatype OfferCondition = OfferCondition(
    probability: real,
    hardReward: real,
    conditionId: string,
    trialIndex: Option<int>,
    fallbackChoice: string,
    rewardDrawU: real)

  datatype TrialError =
    | UnsupportedConditionFormat
    | BadConditionField(index: nat)
    | NoChoiceKeys

  datatype ChoiceOption = Easy | Hard

  /** The per-trial settings run_trial reads, with their defaults already applied. */
  datatype TrialSettings = TrialSettings(
    easyReward: real,
    easyRequiredPresses: int,
    hardRequiredPresses: int,
    easyTimeLimitS: real,
    hardTimeLimitS: real,
    effortKey: string,
    choiceKeys: seq<string>)

  /** The decision fields of one trial's record. */
  datatype TrialRecord = TrialRecord(
    offerProbability: real,
    offerHardReward: real,
    offerEasyReward: real,
    plannedTrialIndex: Option<int>,
    conditionLabel: string,
    choiceKey: string,
    choiceOption: ChoiceOption,
    choiceForced: bool,
    requiredPresses: int,
    effortDeadlineS: real,
    chosenReward: real,
    pressCount: int,
    firstRt: Option<real>,
    effortCompleted: bool,
    closeTime: real,
    rewardWin: bool,
    rewardAmount: real)

  /** What the press count of a simulated or live effort window comes to. */
  datatype EffortSignal = EffortSignal(pressCount: int, firstRt: Option<real>)

  /** One pass of the live polling loop: the clock reading of the loop test, and the presses read then (each with its reaction time, if readable). */
  datatype Poll = Poll(time: real, keyRts: seq<Option<real>>)

  // ---------------------------------------------------------------------------
  // Timing
  // ---------------------------------------------------------------------------

  /** The window's frame period; a missing or zero period means 1/60 s. */
  function FramePeriod(monitorFramePeriod: Option<real>): (r: real)
    ensures r != 0.0
    ensures monitorFramePeriod.Some? && monitorFramePeriod.value != 0.0 ==> r == monitorFramePeriod.value
    ensures monitorFramePeriod.None? || monitorFramePeriod.value == 0.0 ==> r == 1.0 / 60.0
  {
    if monitorFramePeriod.Some? && monitorFramePeriod.value != 0.0 then monitorFramePeriod.value else 1.0 / 60.0
  }

  predicate Scaling(ctx: Option<SimContext>)
  {
    ctx.Some? && ctx.value.enableScaling
  }

  /**
   * qa_scale_duration: without scaling, the duration with negatives cut to 0; with
   * scaling, the scaled duration, but never less than min_frames (at least one) frames.
   */
  function QaScaleDuration(durationS: real, ctx: Option<SimContext>, monitorFramePeriod: Option<real>): (r: real)
    ensures !Scaling(ctx) ==> 0.0 <= r && durationS <= r && (r == 0.0 || r == durationS)
    ensures Scaling(ctx) ==>
      var floor := FramePeriod(monitorFramePeriod) * (if ctx.value.minFrames < 1 then 1 else ctx.value.minFrames) as real;
      var scaled := Max(0.0, durationS) * ctx.value.timingScale;
      floor <= r && scaled <= r && (r == floor || r == scaled)
    ensures Scaling(ctx) && 0.0 < FramePeriod(monitorFramePeriod) ==> 0.0 < r
  {
    var base := Max(0.0, durationS);
    if !Scaling(ctx) then base
    else
      var frame := FramePeriod(monitorFramePeriod);
      var minFrames := if ctx.value.minFrames < 1 then 1 else ctx.value.minFrames;
      Max(base * ctx.value.timingScale, frame * minFrames as real)
  }

  // ---------------------------------------------------------------------------
  // The offer
  // ---------------------------------------------------------------------------

  predicate IsConditionShape(condition: Value)
  {
    condition.PyList? && |condition.items| >= 6
  }

  /**
   * parse_offer_condition: a tuple or list of at least six fields; anything else is
   * rejected. The fallback choice is stripped and lower-cased; a None trial index stays None.
   */
  function ParseOfferCondition(condition: Value): (r: Result<OfferCondition, TrialError>)
    ensures !IsConditionShape(condition) ==> r == Failure(UnsupportedConditionFormat)
    ensures r.Success? ==>
      var items := condition.items;
      && IsConditionShape(condition)
      && Some(r.value.probability) == AsFloat(items[0])
      && Some(r.value.hardReward) == AsFloat(items[1])
      && r.value.conditionId == Str(items[2])
      && (r.value.trialIndex.None? <==> items[3] == PyNone)
      && (r.value.trialIndex.Some? ==> Some(r.value.trialIndex.value) == AsInt(items[3]))
      && r.value.fallbackChoice == Lower(Strip(Str(items[4])))
      && Some(r.value.rewardDrawU) == AsFloat(items[5])
    ensures IsConditionShape(condition) && r.Failure? ==> r.error.BadConditionField?
    ensures IsConditionShape(condition) ==>
      var items := condition.items;
      var indexOk := items[3] == PyNone || AsInt(items[3]).Some?;
      && (r.Success? <==> AsFloat(items[0]).Some? && AsFloat(items[1]).Some? && indexOk && AsFloat(items[5]).Some?)
      && (AsFloat(items[0]).None? ==> r == Failure(BadConditionField(0)))
      && (AsFloat(items[0]).Some? && AsFloat(items[1]).None? ==> r == Failure(BadConditionField(1)))
      && (AsFloat(items[0]).Some? && AsFloat(items[1]).Some? && !indexOk ==> r == Failure(BadConditionField(3)))
      && (AsFloat(items[0]).Some? && AsFloat(items[1]).Some? && indexOk && AsFloat(items[5]).None? ==>
            r == Failure(BadConditionField(5)))
  {
    if !IsConditionShape(condition) then
      Failure(UnsupportedConditionFormat)
    else
      var items := condition.items;
      var probability := AsFloat(items[0]);
      var hardReward := AsFloat(items[1]);
      var trialIndex := if items[3] == PyNone then Some(None) else
        (match AsInt(items[3]) case None => None case Some(i) => Some(Some(i)));
      var rewardDrawU := AsFloat(items[5]);
      if probability.None? then Failure(BadConditionField(0))
      else if hardReward.None? then Failure(BadConditionField(1))
      else if trialIndex.None? then Failure(BadConditionField(3))
      else if rewardDrawU.None? then Failure(BadConditionField(5))
      else Success(OfferCondition(
        probability.value,
        hardReward.value,
        Str(items[2]),
        trialIndex.value,
        Lower(Strip(Str(items[4]))),
        rewardDrawU.value))
  }

  // ---------------------------------------------------------------------------
  // The simulated effort window
  // ---------------------------------------------------------------------------

  /** A responder answers the effort window only in QA or simulation mode with a responder attached. */
  predicate ResponderActive(ctx: Option<SimContext>)
    ensures ResponderActive(ctx) ==> ctx.Some? && ctx.value.hasResponder
    ensures ctx.Some? && ctx.value.mode != "qa" && ctx.value.mode != "sim" ==> !ResponderActive(ctx)
    ensures ctx.Some? && ctx.value.hasResponder && ctx.value.mode in {"qa", "sim"} ==> ResponderActive(ctx)
  {
    ctx.Some? && ctx.value.hasResponder && (ctx.value.mode == "qa" || ctx.value.mode == "sim")
  }

  /** int(meta["press_count"]), when present and convertible. */
  function CountHint(meta: map<string, Value>): (r: Option<int>)
    ensures "press_count" !in meta ==> r.None?
    ensures "press_count" in meta ==> r == AsInt(meta["press_count"])
    ensures "press_count" in meta && meta["press_count"].PyFloat? ==> r == Some(Trunc(meta["press_count"].x))
  {
    if "press_count" in meta then AsInt(meta["press_count"]) else None
  }

  /** float(meta["press_rate_hz"]), when present and convertible. */
  function RateHint(meta: map<string, Value>): (r: Option<real>)
    ensures "press_rate_hz" !in meta ==> r.None?
    ensures "press_rate_hz" in meta ==> r == AsFloat(meta["press_rate_hz"])
  {
    if "press_rate_hz" in meta then AsFloat(meta["press_rate_hz"]) else None
  }

  /**
   * The press count a simulated action implies, in the order: an explicit count hint; a
   * rate hint times the deadline; the deadline divided by the reaction time taken as an
   * inter-press interval (at least 0.05 s), at least one press. No key: no presses, no RT.
   */
  function PressCountFromAction(action: Action, deadlineS: real, defaultRtS: real): (r: EffortSignal)
    ensures 0 <= r.pressCount
    ensures action.key.None? <==> r.firstRt.None?
    ensures action.key.None? ==> r.pressCount == 0
    ensures action.key.Some? ==> r.firstRt == Some(if action.rtS.Some? then action.rtS.value else defaultRtS)
    ensures action.key.Some? && CountHint(action.meta).Some? ==>
      r.pressCount == if CountHint(action.meta).value < 0 then 0 else CountHint(action.meta).value
    ensures action.key.Some? && CountHint(action.meta).None? && RateHint(action.meta).Some? ==>
      CountsPresses(r.pressCount, Max(0.0, RateHint(action.meta).value) * deadlineS)
    ensures action.key.Some? && CountHint(action.meta).None? && RateHint(action.meta).None? ==>
      CountsIntervals(r.pressCount, deadlineS, Max(0.05, r.firstRt.value))
  {
    if action.key.None? then EffortSignal(0, None)
    else
      var rt := if action.rtS.Some? then action.rtS.value else defaultRtS;
      match CountHint(action.meta)
      case Some(n) => EffortSignal(if n < 0 then 0 else n, Some(rt))
      case None =>
        match RateHint(action.meta)
        case Some(rate) => EffortSignal(RateCount(rate, deadlineS), Some(rt))
        case None => EffortSignal(IntervalCount(deadlineS, Max(0.05, rt)), Some(rt))
  }

  /** n is the whole number of presses in a non-negative real count; a negative count gives none. */
  predicate CountsPresses(n: nat, presses: real)
  {
    && (0.0 <= presses ==> n as real <= presses < n as real + 1.0)
    && (presses < 0.0 ==> n == 0)
  }

  /**
   * n is the number of whole intervals within the deadline, at least one: exactly one when a
   * single interval exceeds the deadline.
   */
  predicate CountsIntervals(n: nat, deadlineS: real, interval: real)
  {
    && 1 <= n
    && (interval <= deadlineS ==> n as real * interval <= deadlineS < (n + 1) as real * interval)
    && (deadlineS < interval ==> n == 1)
  }

  /** max(0, int(max(0, rate) * deadline)): the whole presses at the given rate within the deadline. */
  function RateCount(rate: real, deadlineS: real): (n: nat)
    ensures CountsPresses(n, Max(0.0, rate) * deadlineS)
  {
    var n := Trunc(Max(0.0, rate) * deadlineS);
    if n < 0 then 0 else n
  }

  /** At a non-negative rate, the rate count is the whole part of rate * deadline, and 0 for a negative deadline. */
  lemma RateCountBrackets(rate: real, deadlineS: real)
    requires 0.0 <= rate
    ensures var n := RateCount(rate, deadlineS);
      && (0.0 <= deadlineS ==> n as real <= rate * deadlineS < n as real + 1.0)
      && (deadlineS < 0.0 ==> n == 0)
  {
    assert Max(0.0, rate) == rate;
    if deadlineS < 0.0 && 0.0 < rate {
      ScaleLt(deadlineS, 0.0, rate);
    }
  }

  /** max(1, int(deadline / interval)): the whole intervals within the deadline, at least one. */
  function IntervalCount(deadlineS: real, interval: real): (n: nat)
    requires 0.0 < interval
    ensures CountsIntervals(n, deadlineS, interval)
  {
    var n := Trunc(deadlineS / interval);
    IntervalsFit(deadlineS, interval);
    if n < 1 then 1 else n
  }

  /** Truncating deadline / interval counts the whole intervals that fit in the deadline. */
  lemma IntervalsFit(deadline: real, interval: real)
    requires 0.0 < interval
    ensures interval <= deadline ==>
      var n := Trunc(deadline / interval);
      1 <= n && n as real * interval <= deadline < (n + 1) as real * interval
    ensures deadline < interval ==> Trunc(deadline / interval) < 1
  {
    var q := deadline / interval;
    QuotientTimes(deadline, interval);
    if deadline < interval {
      if 1.0 <= q {
        ScaleLe(1.0, q, interval);
      }
    } else {
      WholeIntervals(deadline, interval, q);
    }
  }

  /** The quotient times the divisor gives back the dividend. */
  lemma QuotientTimes(a: real, b: real)
    requires 0.0 < b
    ensures (a / b) * b == a
  {
  }

  /** With at least one interval in the deadline, the truncated quotient brackets the deadline. */
  lemma WholeIntervals(deadline: real, interval: real, q: real)
    requires 0.0 < interval <= deadline && q * interval == deadline
    ensures var n := Trunc(q);
      1 <= n && n as real * interval <= deadline < (n + 1) as real * interval
  {
    if q < 1.0 {
      ScaleLt(q, 1.0, interval);
    }
    var n := Trunc(q);
    var next := (n + 1) as real;
    assert n as real <= q < next;
    ScaleLe(n as real, q, interval);
    ScaleLt(q, next, interval);
    assert deadline < next * interval;
  }

  lemma ScaleLe(a: real, b: real, c: real)
    requires a <= b && 0.0 < c
    ensures a * c <= b * c
  {
  }

  lemma ScaleLt(a: real, b: real, c: real)
    requires a < b && 0.0 < c
    ensures a * c < b * c
  {
  }

  /** simulate_effort_via_responder: no presses and no RT unless a responder is active; else the action's press count. */
  function SimulatedEffort(ctx: Option<SimContext>, action: Action, deadlineS: real): (r: EffortSignal)
    ensures !ResponderActive(ctx) ==> r == EffortSignal(0, None)
    ensures ResponderActive(ctx) ==> r == PressCountFromAction(action, deadlineS, ctx.value.defaultRtS)
  {
    if !ResponderActive(ctx) then EffortSignal(0, None)
    else PressCountFromAction(action, deadlineS, ctx.value.defaultRtS)
  }

  /** With a press-rate hint of 5 per second and a 10 s deadline, the window counts 50 presses. */
  lemma RateHintExample(rt: real)
    ensures PressCountFromAction(Action(Some("space"), Some(rt), map["press_rate_hz" := PyFloat(5.0)]), 10.0, 0.2).pressCount == 50
  {
    var a := Action(Some("space"), Some(rt), map["press_rate_hz" := PyFloat(5.0)]);
    assert CountHint(a.meta) == None;
    assert RateHint(a.meta) == Some(5.0);
    assert Trunc(Max(0.0, 5.0) * 10.0) == 50;
  }

  // ---------------------------------------------------------------------------
  // The live effort window
  // ---------------------------------------------------------------------------

  /** Presses read in the given polls. */
  function PressesIn(polls: seq<Poll>): nat
  {
    if polls == [] then 0 else PressesIn(polls[..|polls| - 1]) + |polls[|polls| - 1].keyRts|
  }

  /** The reaction time of a poll's first press: its own RT, or the clock reading when that is unreadable. */
  function FirstRtOf(poll: Poll): real
    requires poll.keyRts != []
  {
    if poll.keyRts[0].Some? then poll.keyRts[0].value else poll.time
  }

  /** The first-press RT recorded over the given polls: set at the first poll with a press, never again. */
  function FirstPressRt(polls: seq<Poll>): Option<real>
  {
    if polls == [] then None
    else
      var earlier := FirstPressRt(polls[..|polls| - 1]);
      var last := polls[|polls| - 1];
      if earlier.Some? then earlier
      else if last.keyRts != [] then Some(FirstRtOf(last))
      else None
  }

  /** The polls read no press at all exactly when the press count is zero. */
  lemma {:induction false} NoPressesIffNoKeys(polls: seq<Poll>)
    ensures PressesIn(polls) == 0 <==> forall i :: 0 <= i < |polls| ==> polls[i].keyRts == []
  {
    if polls != [] {
      var front := polls[..|polls| - 1];
      NoPressesIffNoKeys(front);
      assert forall i :: 0 <= i < |front| ==> front[i] == polls[i];
    }
  }

  /** Poll i is the first poll that read a press. */
  predicate FirstPressAt(polls: seq<Poll>, i: nat)
  {
    i < |polls| && polls[i].keyRts != [] && forall j :: 0 <= j < i ==> polls[j].keyRts == []
  }

  /** The recorded first-press RT is that of the first poll that read a press. */
  lemma {:induction false} FirstPressRtIsFirst(polls: seq<Poll>, i: nat)
    requires FirstPressAt(polls, i)
    ensures FirstPressRt(polls) == Some(FirstRtOf(polls[i]))
  {
    var front := polls[..|polls| - 1];
    if i < |polls| - 1 {
      assert FirstPressAt(front, i);
      FirstPressRtIsFirst(front, i);
    } else {
      assert forall j :: 0 <= j < |front| ==> front[j].keyRts == [];
      NoPressesIffNoKeys(front);
      FirstRtIffPressed(front);
    }
  }

  /** Whether the loop test passes at poll k: time is left and the requirement is not met. */
  predicate KeepsPolling(polls: seq<Poll>, k: nat, deadline: real, required: int)
    requires k < |polls|
  {
    polls[k].time < deadline && PressesIn(polls[..k]) < required
  }

  /** The number of polls the loop takes: it stops at the first poll whose test fails, or when the trace ends. */
  function PollsTaken(polls: seq<Poll>, deadline: real, required: int, from: nat): (k: nat)
    requires from <= |polls|
    ensures from <= k <= |polls|
    ensures forall i :: from <= i < k ==> KeepsPolling(polls, i, deadline, required)
    ensures k < |polls| ==> !KeepsPolling(polls, k, deadline, required)
    decreases |polls| - from
  {
    if from == |polls| || !KeepsPolling(polls, from, deadline, required) then from
    else PollsTaken(polls, deadline, required, from + 1)
  }

  /** The press count never decreases from one poll to the next. */
  lemma {:induction false} PressesMonotone(polls: seq<Poll>, i: nat, j: nat)
    requires i <= j <= |polls|
    ensures PressesIn(polls[..i]) <= PressesIn(polls[..j])
    decreases j - i
  {
    if i < j {
      PressesMonotone(polls, i, j - 1);
      assert polls[..j][..j - 1] == polls[..j - 1];
    }
  }

  /** A first-press RT exists exactly when some press was read. */
  lemma {:induction false} FirstRtIffPressed(polls: seq<Poll>)
    ensures FirstPressRt(polls).Some? <==> 0 < PressesIn(polls)
  {
    if polls != [] {
      FirstRtIffPressed(polls[..|polls| - 1]);
    }
  }

  /** Once set, the first-press RT stays the same for every longer run of the loop. */
  lemma {:induction false} FirstRtStable(polls: seq<Poll>, i: nat, j: nat)
    requires i <= j <= |polls|
    requires FirstPressRt(polls[..i]).Some?
    ensures FirstPressRt(polls[..j]) == FirstPressRt(polls[..i])
    decreases j - i
  {
    if i < j {
      FirstRtStable(polls, i, j - 1);
      assert polls[..j][..j - 1] == polls[..j - 1];
    }
  }

  /**
   * What a monotonic clock guarantees of the readings: the loop's readings never go back,
   * and endTime, read after the loop, is no earlier than any of them.
   */
  predicate ClockReadings(polls: seq<Poll>, endTime: real)
  {
    && (forall i, j :: 0 <= i <= j < |polls| ==> polls[i].time <= polls[j].time)
    && (forall i :: 0 <= i < |polls| ==> polls[i].time <= endTime)
  }

  /**
   * The live effort loop: while time is left and the requirement is not met, add the
   * presses read at each poll and record the first press's RT once. The close time is
   * the clock reading after the loop, capped at the deadline. polls lists the loop's
   * passes up to the one whose test fails; a trace that ends before any test fails stands
   * for the clock having reached the deadline.
   */
  method PollEffort(polls: seq<Poll>, deadline: real, required: int, endTime: real)
    returns (pressCount: nat, firstRt: Option<real>, closeTime: real)
    requires ClockReadings(polls, endTime)
    ensures var k := PollsTaken(polls, deadline, required, 0);
      pressCount == PressesIn(polls[..k]) && firstRt == FirstPressRt(polls[..k])
    ensures pressCount < required ==> closeTime == deadline
    ensures required <= pressCount ==> closeTime == Min(deadline, endTime)
  {
    pressCount := 0;
    firstRt := None;
    var k := 0;
    while k < |polls| && polls[k].time < deadline && pressCount < required
      invariant k <= |polls|
      invariant pressCount == PressesIn(polls[..k]) && firstRt == FirstPressRt(polls[..k])
      invariant PollsTaken(polls, deadline, required, 0) == PollsTaken(polls, deadline, required, k)
    {
      var keys := polls[k].keyRts;
      assert polls[..k + 1][..k] == polls[..k];
      if keys != [] {
        pressCount := pressCount + |keys|;
        if firstRt.None? {
          firstRt := Some(if keys[0].Some? then keys[0].value else polls[k].time);
        }
      }
      k := k + 1;
    }
    if k == |polls| && pressCount < required {
      closeTime := deadline;
    } else {
      closeTime := Min(deadline, endTime);
    }
  }

  // ---------------------------------------------------------------------------
  // The trial
  // ---------------------------------------------------------------------------

  /** Whether the captured response is one of the two choice keys (easy is the first, hard the second or else the first). */
  predicate Answered(choiceResponse: Option<string>, choiceKeys: seq<string>)
    requires choiceKeys != []
    ensures Answered(choiceResponse, choiceKeys) ==> choiceResponse.Some? && choiceResponse.value in choiceKeys[..Min2(|choiceKeys|)]
    ensures choiceResponse == Some(choiceKeys[0]) ==> Answered(choiceResponse, choiceKeys)
    ensures 2 <= |choiceKeys| && choiceResponse == Some(choiceKeys[1]) ==> Answered(choiceResponse, choiceKeys)
  {
    var easyKey := choiceKeys[0];
    var hardKey := if |choiceKeys| > 1 then choiceKeys[1] else choiceKeys[0];
    choiceResponse.Some? && (choiceResponse.value == easyKey || choiceResponse.value == hardKey)
  }

  /** How many of the configured choice keys are read: the first two. */
  function Min2(n: nat): nat
  {
    if n < 2 then n else 2
  }

  /** The option a choice key stands for: hard exactly when it is the hard key. */
  function OptionOf(choiceKey: string, hardKey: string): (o: ChoiceOption)
    ensures o == Hard <==> choiceKey == hardKey
  {
    if choiceKey == hardKey then Hard else Easy
  }

  /**
   * The effort window: the simulated press count when a responder is active (closing at the
   * first press's RT, at least 0.01 s, when there was a press), else the live polling loop.
   */
  method EffortWindow(
    ctx: Option<SimContext>, effortAction: Action, polls: seq<Poll>,
    deadline: real, required: int, endTime: real)
    returns (effort: EffortSignal, closeTime: real)
    requires !ResponderActive(ctx) ==> ClockReadings(polls, endTime)
    ensures 0 <= effort.pressCount
    ensures closeTime <= deadline
    ensures ResponderActive(ctx) ==> effort == SimulatedEffort(ctx, effortAction, deadline)
    ensures ResponderActive(ctx) && effort.pressCount == 0 ==> closeTime == deadline
    ensures ResponderActive(ctx) && 0 < effort.pressCount ==>
      effort.firstRt.Some? && closeTime == Min(deadline, Max(effort.firstRt.value, 0.01))
    ensures !ResponderActive(ctx) ==>
      var k := PollsTaken(polls, deadline, required, 0);
      && effort == EffortSignal(PressesIn(polls[..k]), FirstPressRt(polls[..k]))
      && (effort.firstRt.Some? <==> 0 < effort.pressCount)
      && (effort.pressCount < required ==> closeTime == deadline)
      && (required <= effort.pressCount ==> closeTime == Min(deadline, endTime))
  {
    if ResponderActive(ctx) {
      var sim := SimulatedEffort(ctx, effortAction, deadline);
      effort := sim;
      closeTime := deadline;
      if sim.pressCount > 0 {
        closeTime := Min(deadline, Max(sim.firstRt.value, 0.01));
      }
    } else {
      var live, firstRt;
      live, firstRt, closeTime := PollEffort(polls, deadline, required, endTime);
      effort := EffortSignal(live, firstRt);
      FirstRtIffPressed(polls[..PollsTaken(polls, deadline, required, 0)]);
    }
  }

  /**
   * The choice: the captured response when it is one of the two choice keys, else the
   * key choose_fallback_key gives for the offer's fallback choice, and then the choice is forced.
   */
  method ChooseKey(
    choiceResponse: Option<string>, choiceKeys: seq<string>, fallbackChoice: string,
    chooseFallbackKey: (string, string, string) -> string)
    returns (choiceKey: string, choiceForced: bool)
    requires choiceKeys != []
    ensures choiceForced <==> !Answered(choiceResponse, choiceKeys)
    ensures !choiceForced ==> Some(choiceKey) == choiceResponse
    ensures choiceForced ==>
      choiceKey == chooseFallbackKey(fallbackChoice, choiceKeys[0], if |choiceKeys| > 1 then choiceKeys[1] else choiceKeys[0])
  {
    var easyKey := choiceKeys[0];
    var hardKey := if |choiceKeys| > 1 then choiceKeys[1] else choiceKeys[0];
    choiceForced := false;
    if choiceResponse.Some? && (choiceResponse.value == easyKey || choiceResponse.value == hardKey) {
      choiceKey := choiceResponse.value;
    } else {
      choiceKey := chooseFallbackKey(fallbackChoice, easyKey, hardKey);
      choiceForced := true;
    }
  }

  /**
   * run_trial, without its rendering: the captured choice response (or, when it is not one
   * of the two choice keys, the fallback key), the chosen option's requirement, deadline and
   * reward, the effort window's press count (from the responder's action when one is
   * active, else from the live polls), and the reward outcome. choose_fallback_key and
   * reward_draw_win are passed in.
   */
  method RunTrial(
    condition: Value,
    settings: TrialSettings,
    ctx: Option<SimContext>,
    monitorFramePeriod: Option<real>,
    choiceResponse: Option<string>,
    effortAction: Action,
    polls: seq<Poll>,
    endTime: real,
    chooseFallbackKey: (string, string, string) -> string,
    rewardDrawWin: (real, real) -> bool)
    returns (r: Result<TrialRecord, TrialError>)
    requires !ResponderActive(ctx) ==> ClockReadings(polls, endTime)
    ensures ParseOfferCondition(condition).Failure? ==> r == Failure(ParseOfferCondition(condition).error)
    ensures ParseOfferCondition(condition).Success? && settings.choiceKeys == [] ==> r == Failure(NoChoiceKeys)
    ensures ParseOfferCondition(condition).Success? && settings.choiceKeys != [] ==> r.Success?
    ensures r.Success? ==>
      var offer := ParseOfferCondition(condition).value;
      var t := r.value;
      var easyKey := settings.choiceKeys[0];
      var hardKey := if |settings.choiceKeys| > 1 then settings.choiceKeys[1] else settings.choiceKeys[0];
      var answered := Answered(choiceResponse, settings.choiceKeys);
      && t.offerProbability == offer.probability && t.offerHardReward == offer.hardReward
      && t.offerEasyReward == settings.easyReward
      && t.plannedTrialIndex == offer.trialIndex && t.conditionLabel == offer.conditionId
      && t.choiceForced == !answered
      && (answered ==> t.choiceKey == choiceResponse.value)
      && (!answered ==> t.choiceKey == chooseFallbackKey(offer.fallbackChoice, easyKey, hardKey))
      && (t.choiceOption == Hard <==> t.choiceKey == hardKey)
      && t.requiredPresses == (if t.choiceOption == Hard then settings.hardRequiredPresses else settings.easyRequiredPresses)
      && t.effortDeadlineS == QaScaleDuration(
           if t.choiceOption == Hard then settings.hardTimeLimitS else settings.easyTimeLimitS, ctx, monitorFramePeriod)
      && t.chosenReward == (if t.choiceOption == Hard then offer.hardReward else settings.easyReward)
      && 0 <= t.pressCount
      && t.effortCompleted == (t.pressCount >= t.requiredPresses)
      && t.closeTime <= t.effortDeadlineS
      && t.rewardWin == (t.effortCompleted && rewardDrawWin(offer.probability, offer.rewardDrawU))
      && (t.rewardWin ==> t.effortCompleted)
      && t.rewardAmount == (if t.rewardWin then t.chosenReward else 0.0)
    ensures r.Success? && ResponderActive(ctx) ==>
      var t := r.value;
      && EffortSignal(t.pressCount, t.firstRt) == SimulatedEffort(ctx, effortAction, t.effortDeadlineS)
      && (t.pressCount == 0 ==> t.closeTime == t.effortDeadlineS)
      && (0 < t.pressCount ==> t.firstRt.Some? && t.closeTime == Min(t.effortDeadlineS, Max(t.firstRt.value, 0.01)))
    ensures r.Success? && !ResponderActive(ctx) ==>
      var t := r.value;
      var k := PollsTaken(polls, t.effortDeadlineS, t.requiredPresses, 0);
      && t.pressCount == PressesIn(polls[..k]) && t.firstRt == FirstPressRt(polls[..k])
      && (t.pressCount < t.requiredPresses ==> t.closeTime == t.effortDeadlineS)
      && (t.requiredPresses <= t.pressCount ==> t.closeTime == Min(t.effortDeadlineS, endTime))
    ensures r.Success? && |settings.choiceKeys| == 1 && (forall f, e, h :: chooseFallbackKey(f, e, h) in {e, h}) ==>
      r.value.choiceOption == Hard
  {
    var parsed := ParseOfferCondition(condition);
    if parsed.Failure? {
      return Failure(parsed.error);
    }
    var offer := parsed.value;

    var easyReward := settings.easyReward;
    var easyPresses := settings.easyRequiredPresses;
    var hardPresses := settings.hardRequiredPresses;
    var easyDeadline := QaScaleDuration(settings.easyTimeLimitS, ctx, monitorFramePeriod);
    var hardDeadline := QaScaleDuration(settings.hardTimeLimitS, ctx, monitorFramePeriod);
    var choiceKeys := settings.choiceKeys;
    if choiceKeys == [] {
      return Failure(NoChoiceKeys);
    }
    var easyKey := choiceKeys[0];
    var hardKey := if |choiceKeys| > 1 then choiceKeys[1] else choiceKeys[0];

    var choiceKey, choiceForced := ChooseKey(choiceResponse, choiceKeys, offer.fallbackChoice, chooseFallbackKey);
    var choiceOption := OptionOf(choiceKey, hardKey);
    var requiredPresses := if choiceOption == Hard then hardPresses else easyPresses;
    var effortDeadline := if choiceOption == Hard then hardDeadline else easyDeadline;
    var chosenReward := if choiceOption == Hard then offer.hardReward else easyReward;

    // Effort window.
    var effort, closeTime := EffortWindow(ctx, effortAction, polls, effortDeadline, requiredPresses, endTime);
    var pressCount, firstRt := effort.pressCount, effort.firstRt;

    var effortCompleted := pressCount >= requiredPresses;

    // Reward: only a completed effort can win.
    var rewardWin := effortCompleted && rewardDrawWin(offer.probability, offer.rewardDrawU);
    var rewardAmount := if rewardWin then chosenReward else 0.0;

    var record := TrialRecord(
      offer.probability, offer.hardReward, easyReward, offer.trialIndex, offer.conditionId,
      choiceKey, choiceOption, choiceForced,
      requiredPresses, effortDeadline, chosenReward,
      pressCount, firstRt, effortCompleted, closeTime,
      rewardWin, rewardAmount);
    return Success(record);
  }
}
